/**
 * How many members are launched after the first non-success is on record: exactly which groups
 * are held to `max(1, concurrency) - 1`.
 *
 * A group that continues on errors launches all the others. In one that does not, a launch that
 * is refused is recorded inside an open session, and the session closes before the group is
 * stopped; meanwhile other members succeed, leave their slots and let the next ones in.
 */
module GroupLimits {
  import opened Wrappers
  import opened Groups
  import opened Runners
  import opened GroupRuns

  /** A group as it is created to run now. */
  predicate New(s: System) {
    && Initial(s) && s.row.Some? && s.row.value.status == GPending
    && forall i :: 0 <= i < |s.row.value.members| ==> s.row.value.members[i] == Pending
  }

  /** Between two points of any run after the first failure, few members are launched. */
  ghost predicate AlwaysFew(s: System)
    requires s.row.Some?
  {
    forall a, b, r :: FewAfterFailure(s, a, b, r)
  }

  ghost predicate FewAfterFailure(s: System, a: seq<Step>, b: seq<Step>, r: nat)
    requires s.row.Some?
  {
    var (before, after) := (Exec(s, a).runners, Exec(s, a + b).runners);
    r in before && before[r].first.Some? && r in after ==>
      |after[r].launched| - |before[r].launched| <= Max(1, s.row.value.concurrency) - 1
  }

  // ------------------------------------------------------------ groups that are held ---

  function Elements(s: seq<nat>): (e: set<nat>)
    ensures forall x :: x in e <==> x in s
    ensures NoRepeats(s) ==> |e| == |s|
  {
    if s == [] then {}
    else
      assert s == s[..|s| - 1] + [s[|s| - 1]];
      Elements(s[..|s| - 1]) + {s[|s| - 1]}
  }

  function UpTo(n: nat): (e: set<nat>)
    ensures |e| == n && forall i: nat :: i in e <==> i < n
  {
    if n == 0 then {}
    else
      assert n - 1 !in UpTo(n - 1);
      UpTo(n - 1) + {n - 1}
  }

  /** Everybody but the first failure is at most everybody but one. */
  lemma OthersAreFewer(t: Runner, n: nat)
    requires LaunchedOnce(t) && FirstFits(t) && t.first.Some?
    requires forall i :: i in t.tasks ==> i < n
    ensures t.since <= n - 1
  {
    var f := t.first.value.index;
    var later := t.launched[|t.launched| - t.since..];
    forall x | x in later ensures x in t.tasks && x != f {
      var k :| 0 <= k < |later| && later[k] == x;
      assert t.launched[|t.launched| - t.since + k] == x;
    }
    assert NoRepeats(later);
    hide LaunchedOnce, FirstFits;
    SubsetIsSmaller(Elements(later) + {f}, UpTo(n));
  }

  lemma SmallGroupIsHeld(s: System, a: seq<Step>, b: seq<Step>, r: nat)
    requires Initial(s) && s.row.Some? && |s.row.value.members| <= Max(1, s.row.value.concurrency)
    ensures FewAfterFailure(s, a, b, r)
  {
    hide Exec, Next;
    RunsStayGood(s, a);
    RunContinues(s, a, b, r);
    RunsStayGood(s, a + b);
    var after := Exec(s, a + b).runners;
    if r in Exec(s, a).runners && Exec(s, a).runners[r].first.Some? && r in after {
      OthersAreFewer(after[r], |s.row.value.members|);
    }
    hide LaunchedOnce, FewStragglers, FirstFits, LockFits, SessionsFail;
  }

  lemma OneSlotIsHeld(s: System, a: seq<Step>, b: seq<Step>, r: nat)
    requires Initial(s) && s.row.Some? && s.row.value.concurrency <= 1 && !s.row.value.continueOnError
    ensures FewAfterFailure(s, a, b, r)
  {
    var (before, after) := (Exec(s, a).runners, Exec(s, a + b).runners);
    if r in before && before[r].first.Some? && r in after {
      FirstFailureLaunchesFew(s, a, b, r);
    }
  }

  // ------------------------------------------------------------ groups that are not ---

  /** Member `q` is on its way through a free slot, and all after it wait for theirs. */
  predicate Passing(s: System, r: nat, q: nat, base: seq<nat>) {
    && s.row.Some? && s.row.value.status == GRunning && q < |s.row.value.members|
    && r in s.runners && q in s.runners[r].tasks
    && var t := s.runners[r];
    && t.working && !t.stop
    && (forall k :: q < k < |s.row.value.members| ==> k in t.tasks && t.tasks[k] == Queued)
    && (match t.tasks[q]
        case Queued => t.free > 0 && t.lock.None? && t.launched == base
        case Gate => t.lock.None? && t.launched == base
        case Launching => t.lock.None? && t.launched == base
        case Marking => t.lock.None? && t.launched == base + [q]
        case Polling => t.lock.None? && t.launched == base + [q]
        case Recording(st, inSession) =>
          st == Succeeded && !inSession && t.lock.None? && t.launched == base + [q]
        case Finishing(st) => st == Succeeded && t.lock == Some(q) && t.launched == base + [q]
        case Finished(_) => t.free > 0 && t.lock.None? && t.launched == base + [q]
        case _ => false)
  }

  lemma PassingStep(s: System, r: nat, q: nat, base: seq<nat>)
    requires Passing(s, r, q, base) && !s.runners[r].tasks[q].Finished?
    ensures var x := Next(s, Member(r, q, Onward(s.runners[r].tasks[q])));
            && Passing(x, r, q, base)
            && Stage(x.runners[r].tasks[q]) > Stage(s.runners[r].tasks[q])
            && |x.row.value.members| == |s.row.value.members|
  {}

  /** The member is launched and succeeds, and its slot is free again. */
  lemma {:induction false} PassOne(s: System, r: nat, q: nat, base: seq<nat>) returns (steps: seq<Step>)
    requires Passing(s, r, q, base)
    ensures var x := Exec(s, steps);
            && Passing(x, r, q, base) && x.runners[r].tasks[q].Finished?
            && |x.row.value.members| == |s.row.value.members|
    decreases 7 - Stage(s.runners[r].tasks[q])
  {
    if s.runners[r].tasks[q].Finished? {
      return [];
    }
    var step := Member(r, q, Onward(s.runners[r].tasks[q]));
    PassingStep(s, r, q, base);
    var rest := PassOne(Next(s, step), r, q, base);
    steps := [step] + rest;
    FirstStep(s, step, rest);
    hide Passing;
  }

  lemma NextPasses(s: System, r: nat, q: nat, base: seq<nat>)
    requires Passing(s, r, q, base) && s.runners[r].tasks[q].Finished? && q + 1 < |s.row.value.members|
    ensures Passing(s, r, q + 1, base + [q])
  {}

  /** One after the other, all members from `q` on. */
  lemma {:induction false} PassAll(s: System, r: nat, q: nat, base: seq<nat>) returns (steps: seq<Step>)
    requires Passing(s, r, q, base)
    ensures r in Exec(s, steps).runners
    ensures |Exec(s, steps).runners[r].launched| == |base| + |s.row.value.members| - q
    decreases |s.row.value.members| - q
  {
    steps := PassOne(s, r, q, base);
    var x := Exec(s, steps);
    if q + 1 < |s.row.value.members| {
      NextPasses(x, r, q, base);
      var rest := PassAll(x, r, q + 1, base + [q]);
      ExecConcat(s, steps, rest);
      steps := steps + rest;
    }
    hide Exec;
  }

  /**
   * The first member's launch is refused and recorded. Its session is still closing, or where
   * the group continues on errors, the slot was left again.
   */
  lemma FirstIsRefused(s: System) returns (steps: seq<Step>)
    requires New(s) && (s.row.value.continueOnError || s.row.value.concurrency >= 2) && |s.row.value.members| >= 2
    ensures var x := Exec(s, steps);
            && Passing(x, s.nextId, 1, [0]) && |x.row.value.members| == |s.row.value.members|
            && x.runners[s.nextId].first.Some? && x.runners[s.nextId].launched == [0]
  {
    var r := s.nextId;
    steps := NewBegins(s);
    var x := Exec(s, steps);
    var s1 := Next(x, Member(r, 0, Acquire));
    steps := Then(s, steps, x, Member(r, 0, Acquire));
    var s2 := Next(s1, Member(r, 0, CheckCanceled(false)));
    steps := Then(s, steps, s1, Member(r, 0, CheckCanceled(false)));
    var s3 := Next(s2, Member(r, 0, Launch(Refused)));
    steps := Then(s, steps, s2, Member(r, 0, Launch(Refused)));
    var s4 := Next(s3, Member(r, 0, Record(true)));
    steps := Then(s, steps, s3, Member(r, 0, Record(true)));
    RefusedIsRecorded(x, r);
    if s.row.value.continueOnError {
      RefusedLeaves(s4, r);
      steps := Then(s, steps, s4, Member(r, 0, Leave));
    } else {
      RefusedMakesWay(s4, r);
    }
    hide Exec, Next, TaskStep;
  }

  lemma NewBegins(s: System) returns (steps: seq<Step>)
    requires New(s)
    ensures var x := Exec(s, steps);
            && x.row == Some(s.row.value.(status := GRunning)) && s.nextId in x.runners
            && x.runners[s.nextId] == Begun(s.row.value)
  {
    var s0 := s.(kicks := 1);
    steps := [];
    steps := ThenTo(s, steps, s, Poll(true), s0);
    var s1 := s.(runners := map[s.nextId := IDLE], active := Some(s.nextId), nextId := s.nextId + 1);
    steps := ThenTo(s, steps, s0, Kick, s1);
    steps := Then(s, steps, s1, Begin(s.nextId));
    hide Exec;
  }

  /** The first member of a group that has just begun is recorded as failed. */
  predicate TurnedAway(s: System, r: nat) {
    && s.row.Some? && s.row.value.status == GRunning && |s.row.value.members| >= 2 && r in s.runners
    && var t := s.runners[r];
    && t.working && !t.stop && t.lock.None? && t.first.Some? && t.launched == [0]
    && t.keepGoing == s.row.value.continueOnError && t.free == Max(1, s.row.value.concurrency) - 1
    && 0 in t.tasks && t.tasks[0] == Closing(Failed)
    && forall k :: 0 < k < |s.row.value.members| ==> k in t.tasks && t.tasks[k] == Queued
  }

  lemma RefusedIsRecorded(s: System, r: nat)
    requires s.row.Some? && s.row.value.status == GRunning && r in s.runners && |s.row.value.members| >= 2
    requires forall i :: 0 <= i < |s.row.value.members| ==> s.row.value.members[i] == Pending
    requires s.runners[r] == Begun(s.row.value)
    ensures var s1 := Next(s, Member(r, 0, Acquire));
            var s2 := Next(s1, Member(r, 0, CheckCanceled(false)));
            var s3 := Next(s2, Member(r, 0, Launch(Refused)));
            var x := Next(s3, Member(r, 0, Record(true)));
            && TurnedAway(x, r) && x.row.value.concurrency == s.row.value.concurrency
            && x.row.value.continueOnError == s.row.value.continueOnError
            && |x.row.value.members| == |s.row.value.members|
  {
    var t := s.runners[r];
    var t1 := At(t, 0, Gate).(free := t.free - 1);
    assert TaskStep(t, s.row, 0, Acquire) == (t1, s.row);
    var t2 := At(t1, 0, Launching);
    assert TaskStep(t1, s.row, 0, CheckCanceled(false)) == (t2, s.row);
    var t3 := At(t2, 0, Recording(Failed, true)).(launched := [0]);
    assert t2.launched + [0] == [0];
    assert TaskStep(t2, s.row, 0, Launch(Refused)) == (t3, s.row);
    assert TaskStep(t3, s.row, 0, Record(true)).0 == At(t3, 0, Closing(Failed)).(first := Some(FirstFailure(0, true)));
  }

  /** While the session closes, another slot is free. */
  lemma RefusedMakesWay(s: System, r: nat)
    requires TurnedAway(s, r) && s.row.value.concurrency >= 2
    ensures Passing(s, r, 1, [0])
  {}

  /** Where nothing stops, its own slot is free afterwards. */
  lemma RefusedLeaves(s: System, r: nat)
    requires TurnedAway(s, r) && s.row.value.continueOnError
    ensures var x := Next(s, Member(r, 0, Leave));
            && Passing(x, r, 1, [0]) && |x.row.value.members| == |s.row.value.members|
            && x.runners[r].first.Some? && x.runners[r].launched == [0]
  {}

  /** More members than slots, and errors do not stop the group at once. */
  lemma LargeGroupIsNotHeld(s: System)
    requires New(s) && (s.row.value.continueOnError || s.row.value.concurrency >= 2)
    requires |s.row.value.members| > Max(1, s.row.value.concurrency)
    ensures !AlwaysFew(s)
  {
    var a := FirstIsRefused(s);
    var x := Exec(s, a);
    var b := PassAll(x, s.nextId, 1, [0]);
    ExecConcat(s, a, b);
    assert !FewAfterFailure(s, a, b, s.nextId);
  }

  /**
   * Counted from the first non-success on record, every run of a new group launches at most
   * `max(1, concurrency) - 1` members more exactly when the group has no more members than
   * slots, or stops on errors and has one slot.
   */
  lemma HeldExactlyWhen(s: System)
    requires New(s)
    ensures AlwaysFew(s) <==>
            |s.row.value.members| <= Max(1, s.row.value.concurrency)
            || (!s.row.value.continueOnError && s.row.value.concurrency <= 1)
  {
    if |s.row.value.members| <= Max(1, s.row.value.concurrency)
       || (!s.row.value.continueOnError && s.row.value.concurrency <= 1) {
      forall a, b, r ensures FewAfterFailure(s, a, b, r) {
        if |s.row.value.members| <= Max(1, s.row.value.concurrency) {
          SmallGroupIsHeld(s, a, b, r);
        } else {
          OneSlotIsHeld(s, a, b, r);
        }
      }
    } else {
      LargeGroupIsNotHeld(s);
    }
  }
}
