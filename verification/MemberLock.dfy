/**
 * Patching one member of a group's shared `members` list: a read-modify-write of the whole
 * list under a per-group lock, with the read and the write as separate steps.
 *
 * Any number of patch calls interleave. The re-run call of the API rewrites the same list
 * without the lock. Each write replaces the list by what its own snapshot became, so every
 * state reflects some sequence of entries (`reflects`) and forgets what is not in it.
 */
module MemberLock {
  import opened Wrappers

  /** A member of the list: its fields, which may be null. */
  type Member = map<string, Option<string>>

  datatype Work = Work(index: int, patch: Member)

  datatype Entry = Patch(call: nat) | Rerun

  datatype Phase =
    | Waiting
    | Trying
    | HasRead(snapshot: seq<Member>, seen: seq<Entry>)
    | Returned

  datatype Call = Call(phase: Phase, attempts: nat, saved: bool)

  /** `order` is the order in which the lock was granted. */
  datatype Store = Store(
    members: Option<seq<Member>>,
    holders: set<nat>,
    calls: map<nat, Call>,
    rerun: Option<(seq<Member>, seq<Entry>)>,
    reflects: seq<Entry>,
    order: seq<nat>)

  datatype CommitOutcome = Saved | NotSaved | SavedButRaised

  datatype Step =
    | Acquire(call: nat)
    | Read(call: nat, raises: bool)
    | Commit(call: nat, outcome: CommitOutcome)
    | RerunRead
    | RerunCommit
    | Delete

  const ATTEMPTS := 3

  function Reset(m: Member): Member {
    if Succeeded(m) then m
    else m["status" := Some("pending")]["error" := None]["migration_id" := None]["job_id" := None]
  }

  predicate Succeeded(m: Member) {
    "status" in m && m["status"] == Some("succeeded")
  }

  function Resets(members: seq<Member>): (after: seq<Member>)
    ensures |after| == |members| && forall i :: 0 <= i < |members| ==> after[i] == Reset(members[i])
  {
    seq(|members|, i requires 0 <= i < |members| => Reset(members[i]))
  }

  /** The call is over: it gives the lock back. */
  function Finish(s: Store, c: nat, call: Call): Store {
    s.(calls := s.calls[c := call.(phase := Returned)], holders := s.holders - {c})
  }

  /** An attempt failed: another one, or silence after the last. */
  function Retry(s: Store, c: nat, call: Call): Store {
    var tried := call.(attempts := call.attempts + 1);
    if tried.attempts < ATTEMPTS then s.(calls := s.calls[c := tried.(phase := Trying)])
    else Finish(s, c, tried)
  }

  function ReadStep(s: Store, work: Work, c: nat, raises: bool): Store
    requires c in s.calls
  {
    var call := s.calls[c];
    if raises then
      Retry(s, c, call)
    else if s.members.None? || !(0 <= work.index < |s.members.value|) then
      Finish(s, c, call)
    else
      s.(calls := s.calls[c := call.(phase := HasRead(s.members.value, s.reflects))])
  }

  /** The history once the patch of call `c` is on top of `seen`; a patch on itself is one patch. */
  function Onto(seen: seq<Entry>, c: nat): seq<Entry> {
    if seen != [] && seen[|seen| - 1] == Patch(c) then seen else seen + [Patch(c)]
  }

  function Patched(snapshot: seq<Member>, work: Work): seq<Member> {
    if 0 <= work.index < |snapshot| then
      snapshot[work.index := snapshot[work.index] + work.patch]
    else
      snapshot
  }

  function CommitStep(s: Store, work: Work, c: nat, outcome: CommitOutcome): Store
    requires c in s.calls && s.calls[c].phase.HasRead?
  {
    var call := s.calls[c];
    if s.members.None? || outcome == NotSaved then
      Retry(s, c, call)
    else
      var kept := call.(saved := true);
      var s' := s.(members := Some(Patched(call.phase.snapshot, work)), reflects := Onto(call.phase.seen, c));
      if outcome == Saved then Finish(s', c, kept) else Retry(s', c, kept)
  }

  function Next(s: Store, work: map<nat, Work>, guarded: bool, step: Step): Store {
    match step
    case Acquire(c) =>
      if c in s.calls && c in work && s.calls[c].phase == Waiting && (guarded ==> s.holders == {}) then
        s.(calls := s.calls[c := s.calls[c].(phase := Trying)], holders := s.holders + {c}, order := s.order + [c])
      else s
    case Read(c, raises) =>
      if c in s.calls && c in work && s.calls[c].phase == Trying then ReadStep(s, work[c], c, raises) else s
    case Commit(c, outcome) =>
      if c in s.calls && c in work && s.calls[c].phase.HasRead? then CommitStep(s, work[c], c, outcome) else s
    case RerunRead =>
      if s.members.Some? then s.(rerun := Some((s.members.value, s.reflects))) else s
    case RerunCommit =>
      if s.members.Some? && s.rerun.Some? then
        s.(members := Some(Resets(s.rerun.value.0)), reflects := s.rerun.value.1 + [Rerun], rerun := None)
      else s
    case Delete => s.(members := None)
  }

  function Exec(s: Store, work: map<nat, Work>, guarded: bool, steps: seq<Step>): Store {
    if steps == [] then s
    else Next(Exec(s, work, guarded, steps[..|steps| - 1]), work, guarded, steps[|steps| - 1])
  }

  predicate Initial(s: Store) {
    && s.holders == {} && s.rerun.None? && s.reflects == [] && s.order == []
    && forall c :: c in s.calls ==> s.calls[c] == Call(Waiting, 0, false)
  }

  // -------------------------------------------------- what a list reflects ---

  function Applied(m: Member, i: int, entry: Entry, work: map<nat, Work>): Member {
    match entry
    case Patch(c) => if c in work && work[c].index == i then m + work[c].patch else m
    case Rerun => Reset(m)
  }

  /** Member `i` after the entries of `log`, oldest first. */
  function Fold(m: Member, i: int, log: seq<Entry>, work: map<nat, Work>): Member {
    if log == [] then m
    else Applied(Fold(m, i, log[..|log| - 1], work), i, log[|log| - 1], work)
  }

  ghost predicate Reflects(members: seq<Member>, log: seq<Entry>, first: seq<Member>, work: map<nat, Work>) {
    && |members| == |first|
    && forall i :: 0 <= i < |first| ==> members[i] == Fold(first[i], i, log, work)
  }

  lemma PatchedReflects(
    snapshot: seq<Member>, seen: seq<Entry>, first: seq<Member>, work: map<nat, Work>, c: nat)
    requires c in work && Reflects(snapshot, seen, first, work)
    ensures Reflects(Patched(snapshot, work[c]), Onto(seen, c), first, work)
  {
    if seen != [] && seen[|seen| - 1] == Patch(c) {
      forall i | 0 <= i < |first| ensures Patched(snapshot, work[c])[i] == Fold(first[i], i, seen, work) {
        var before := Fold(first[i], i, seen[..|seen| - 1], work);
        assert before + work[c].patch + work[c].patch == before + work[c].patch;
      }
    } else {
      assert Onto(seen, c)[..|seen|] == seen;
    }
  }

  lemma ResetsReflect(snapshot: seq<Member>, seen: seq<Entry>, first: seq<Member>, work: map<nat, Work>)
    requires Reflects(snapshot, seen, first, work)
    ensures Reflects(Resets(snapshot), seen + [Rerun], first, work)
  {}

  ghost predicate Faithful(s: Store, first: seq<Member>, work: map<nat, Work>) {
    && (s.members.Some? ==> Reflects(s.members.value, s.reflects, first, work))
    && (forall c :: c in s.calls && s.calls[c].phase.HasRead? ==>
          Reflects(s.calls[c].phase.snapshot, s.calls[c].phase.seen, first, work))
    && (s.rerun.Some? ==> Reflects(s.rerun.value.0, s.rerun.value.1, first, work))
  }

  lemma StepKeepsFaithful(s: Store, first: seq<Member>, work: map<nat, Work>, guarded: bool, step: Step)
    requires Faithful(s, first, work)
    ensures Faithful(Next(s, work, guarded, step), first, work)
  {
    hide Reflects, Patched, Onto, Resets;
    match step
    case Commit(c, outcome) =>
      if c in s.calls && c in work && s.calls[c].phase.HasRead? {
        PatchedReflects(s.calls[c].phase.snapshot, s.calls[c].phase.seen, first, work, c);
      }
    case RerunCommit =>
      if s.rerun.Some? {
        ResetsReflect(s.rerun.value.0, s.rerun.value.1, first, work);
      }
    case _ =>
  }

  lemma {:induction false} RunsStayFaithful(
    s: Store, work: map<nat, Work>, guarded: bool, first: seq<Member>, steps: seq<Step>)
    requires Initial(s) && s.members == Some(first)
    ensures Faithful(Exec(s, work, guarded, steps), first, work)
  {
    if steps != [] {
      var most := steps[..|steps| - 1];
      RunsStayFaithful(s, work, guarded, first, most);
      StepKeepsFaithful(Exec(s, work, guarded, most), first, work, guarded, steps[|steps| - 1]);
    }
  }

  lemma {:induction false} ExecConcat(s: Store, work: map<nat, Work>, guarded: bool, a: seq<Step>, b: seq<Step>)
    ensures Exec(s, work, guarded, a + b) == Exec(Exec(s, work, guarded, a), work, guarded, b)
  {
    if b == [] {
      assert a + b == a;
    } else {
      assert (a + b)[..|a + b| - 1] == a + b[..|b| - 1];
      ExecConcat(s, work, guarded, a, b[..|b| - 1]);
    }
  }

  // -------------------------------------------------- under the lock ---

  predicate Patching(step: Step) {
    !step.RerunRead? && !step.RerunCommit?
  }

  /** The calls of `order` that saved their patch, in that order. */
  function Landed(order: seq<nat>, calls: map<nat, Call>): seq<Entry> {
    if order == [] then []
    else
      var (rest, c) := (Landed(order[..|order| - 1], calls), order[|order| - 1]);
      if c in calls && calls[c].saved then rest + [Patch(c)] else rest
  }

  lemma {:induction false} LandedFrame(order: seq<nat>, calls: map<nat, Call>, calls': map<nat, Call>)
    requires forall c :: c in order ==> c in calls && c in calls' && calls[c].saved == calls'[c].saved
    ensures Landed(order, calls) == Landed(order, calls')
  {
    if order != [] {
      LandedFrame(order[..|order| - 1], calls, calls');
    }
  }

  /** One call holds the lock: the last it was granted to, working on the current list. */
  predicate LockHeld(s: Store) {
    && (forall c :: c in s.calls && (s.calls[c].phase.Trying? || s.calls[c].phase.HasRead?) ==>
          s.holders == {c} && s.order != [] && s.order[|s.order| - 1] == c)
    && (forall c :: c in s.calls && s.calls[c].phase.HasRead? ==> s.calls[c].phase.seen == s.reflects)
  }

  predicate Orderly(s: Store) {
    && (forall c :: c in s.order ==> c in s.calls && s.calls[c].phase != Waiting)
    && (forall c :: c in s.calls && s.calls[c].saved ==> c in s.order)
    && (forall j, k :: 0 <= j < k < |s.order| ==> s.order[j] != s.order[k])
  }

  predicate Explained(s: Store, work: map<nat, Work>, size: nat) {
    && (s.members.Some? ==> |s.members.value| == size)
    && forall c :: c in s.calls && c in work && s.calls[c].phase == Returned && !s.calls[c].saved ==>
         s.calls[c].attempts >= ATTEMPTS || s.members.None? || !(0 <= work[c].index < size)
  }

  ghost predicate Exact(s: Store) {
    LockHeld(s) && Orderly(s) && s.rerun.None? && s.reflects == Landed(s.order, s.calls)
  }

  lemma {:induction false} LandedFrom(order: seq<nat>, calls: map<nat, Call>, k: nat)
    requires k < |Landed(order, calls)|
    ensures exists c :: c in order && Landed(order, calls)[k] == Patch(c) && c in calls && calls[c].saved
  {
    var n := |order| - 1;
    if k < |Landed(order[..n], calls)| {
      LandedFrom(order[..n], calls, k);
      var c :| c in order[..n] && Landed(order[..n], calls)[k] == Patch(c) && c in calls && calls[c].saved;
      assert c in order;
    } else {
      assert order[n] in order;
    }
  }

  /** The holder of the lock saves: its patch lands on top, once. */
  lemma SavingExtendsLanded(s: Store, c: nat, calls': map<nat, Call>)
    requires Exact(s) && c in s.calls && s.calls[c].phase.HasRead?
    requires calls'.Keys == s.calls.Keys && calls'[c].saved
    requires forall d :: d in s.calls && d != c ==> calls'[d] == s.calls[d]
    ensures Onto(s.calls[c].phase.seen, c) == Landed(s.order, calls')
  {
    var n := |s.order| - 1;
    var most := s.order[..n];
    assert c !in most;
    LandedFrame(most, s.calls, calls');
    if !s.calls[c].saved && s.reflects != [] && s.reflects[|s.reflects| - 1] == Patch(c) {
      LandedFrom(most, s.calls, |s.reflects| - 1);
    }
  }

  lemma AcquireKeepsOrder(s: Store, x: Store, c: nat)
    requires LockHeld(s) && Orderly(s) && c in s.calls && s.calls[c].phase == Waiting && s.holders == {}
    requires x == s.(calls := s.calls[c := s.calls[c].(phase := Trying)], holders := {c}, order := s.order + [c])
    ensures LockHeld(x) && Orderly(x)
  {}

  lemma AcquireKeepsExact(s: Store, work: map<nat, Work>, c: nat)
    requires Exact(s)
    ensures Exact(Next(s, work, true, Acquire(c)))
  {
    var s' := Next(s, work, true, Acquire(c));
    if s' != s {
      AcquireKeepsOrder(s, s', c);
      assert s'.order[..|s.order|] == s.order && s'.order[|s.order|] == c;
      LandedFrame(s.order, s.calls, s'.calls);
      assert Landed(s'.order, s'.calls) == Landed(s.order, s'.calls);
      hide Orderly, LockHeld, Landed;
    }
  }

  lemma ReadKeepsExact(s: Store, work: map<nat, Work>, c: nat, raises: bool)
    requires Exact(s)
    ensures Exact(Next(s, work, true, Read(c, raises)))
  {
    LandedFrame(s.order, s.calls, Next(s, work, true, Read(c, raises)).calls);
  }

  lemma CommitKeepsExact(s: Store, work: map<nat, Work>, c: nat, outcome: CommitOutcome)
    requires Exact(s)
    ensures Exact(Next(s, work, true, Commit(c, outcome)))
  {
    hide Onto, Patched, Landed;
    var s' := Next(s, work, true, Commit(c, outcome));
    if s' != s {
      assert s'.order == s.order && Orderly(s') && LockHeld(s');
      if s.members.None? || outcome == NotSaved {
        LandedFrame(s.order, s.calls, s'.calls);
      } else {
        hide Orderly, LockHeld;
        SavingExtendsLanded(s, c, s'.calls);
      }
    }
  }

  lemma StepKeepsExact(s: Store, work: map<nat, Work>, step: Step)
    requires Exact(s) && Patching(step)
    ensures Exact(Next(s, work, true, step))
  {
    match step
    case Acquire(c) => AcquireKeepsExact(s, work, c);
    case Read(c, raises) => ReadKeepsExact(s, work, c, raises);
    case Commit(c, outcome) => CommitKeepsExact(s, work, c, outcome);
    case Delete =>
  }

  lemma StepKeepsExplained(s: Store, work: map<nat, Work>, step: Step, first: seq<Member>)
    requires Explained(s, work, |first|) && Faithful(s, first, work)
    ensures Explained(Next(s, work, true, step), work, |first|)
  {
  }

  lemma {:induction false} LockedRunsStayExact(
    s: Store, work: map<nat, Work>, first: seq<Member>, steps: seq<Step>)
    requires Initial(s) && s.members == Some(first)
    requires forall k :: 0 <= k < |steps| ==> Patching(steps[k])
    ensures var last := Exec(s, work, true, steps);
            Exact(last) && Faithful(last, first, work) && Explained(last, work, |first|)
  {
    if steps != [] {
      var (most, step) := (steps[..|steps| - 1], steps[|steps| - 1]);
      LockedRunsStayExact(s, work, first, most);
      var mid := Exec(s, work, true, most);
      StepKeepsExact(mid, work, step);
      StepKeepsFaithful(mid, first, work, true, step);
      StepKeepsExplained(mid, work, step, first);
    }
  }

  /**
   * Under the lock no update is lost: each member is the fold, in lock order, of the patches
   * for its own index whose call saved, and a call that returned without saving had its three
   * attempts fail, or found no row, or no such member.
   */
  lemma {:induction false} NoLostUpdate(s: Store, work: map<nat, Work>, first: seq<Member>, steps: seq<Step>)
    requires Initial(s) && s.members == Some(first)
    requires forall k :: 0 <= k < |steps| ==> Patching(steps[k])
    ensures var last := Exec(s, work, true, steps);
            && (last.members.Some? ==>
                  && |last.members.value| == |first|
                  && forall i :: 0 <= i < |first| ==>
                       last.members.value[i] == Fold(first[i], i, Landed(last.order, last.calls), work))
            && (forall j, k :: 0 <= j < k < |last.order| ==> last.order[j] != last.order[k])
            && (forall c :: c in last.calls && last.calls[c].saved ==> c in last.order)
            && (forall c :: c in last.calls && c in work && last.calls[c].phase == Returned
                            && !last.calls[c].saved ==>
                  last.calls[c].attempts >= ATTEMPTS || last.members.None? || !(0 <= work[c].index < |first|))
  {
    LockedRunsStayExact(s, work, first, steps);
  }

  // -------------------------------------------------- without the lock ---

  lemma NoSteps(s: Store, work: map<nat, Work>, guarded: bool)
    ensures Exec(s, work, guarded, []) == s
  {
  }

  lemma Then(s: Store, work: map<nat, Work>, guarded: bool, steps: seq<Step>, now: Store, step: Step, next: Store)
    returns (more: seq<Step>)
    requires Exec(s, work, guarded, steps) == now && Next(now, work, guarded, step) == next
    ensures more == steps + [step] && Exec(s, work, guarded, more) == next
  {
    more := steps + [step];
    assert more[..|steps|] == steps;
  }

  const BUSY := Call(Trying, 0, false)
  const DONE := Call(Returned, 0, true)

  function Twice(p: Member, q: Member): map<nat, Work> {
    map[0 := Work(0, p), 1 := Work(1, q)]
  }

  /** Nothing stops the second unguarded call from reading before the first one writes. */
  lemma BothRead(s: Store, a: Member, b: Member, p: Member, q: Member, read: Phase) returns (steps: seq<Step>)
    requires s == Store(Some([a, b]), {}, map[0 := Call(Waiting, 0, false), 1 := Call(Waiting, 0, false)], None, [], [])
    requires read == HasRead([a, b], [])
    ensures steps == [Acquire(0), Acquire(1), Read(0, false), Read(1, false)]
    ensures Exec(s, Twice(p, q), false, steps) ==
            Store(Some([a, b]), {0, 1}, map[0 := BUSY.(phase := read), 1 := BUSY.(phase := read)], None, [], [0, 1])
  {
    hide Exec, Patched, Onto;
    var work := Twice(p, q);
    steps := [];
    NoSteps(s, work, false);
    var s1 := s.(holders := {0}, order := [0], calls := s.calls[0 := BUSY]);
    steps := Then(s, work, false, steps, s, Acquire(0), s1);
    var s2 := s.(holders := {0, 1}, order := [0, 1], calls := map[0 := BUSY, 1 := BUSY]);
    steps := Then(s, work, false, steps, s1, Acquire(1), s2);
    var s3 := s2.(calls := map[0 := BUSY.(phase := read), 1 := BUSY]);
    steps := Then(s, work, false, steps, s2, Read(0, false), s3);
    var s4 := s2.(calls := map[0 := BUSY.(phase := read), 1 := BUSY.(phase := read)]);
    steps := Then(s, work, false, steps, s3, Read(1, false), s4);
  }

  /** Two unguarded patches of two members: the second write takes the first one back. */
  lemma UnlockedLosesAnUpdate(s: Store, a: Member, b: Member, p: Member, q: Member)
    requires s == Store(Some([a, b]), {}, map[0 := Call(Waiting, 0, false), 1 := Call(Waiting, 0, false)], None, [], [])
    requires a + p != a
    ensures var last := Exec(s, Twice(p, q), false,
              [Acquire(0), Acquire(1), Read(0, false), Read(1, false), Commit(0, Saved), Commit(1, Saved)]);
            && last.calls == map[0 := DONE, 1 := DONE] && last.order == [0, 1]
            && last.members == Some([a, b + q])
            && last.members.value[0] != Fold(a, 0, Landed(last.order, last.calls), Twice(p, q))
  {
    hide Exec, Landed, Fold;
    var work := Twice(p, q);
    var read := HasRead([a, b], []);
    var steps := BothRead(s, a, b, p, q, read);
    var s4 := Exec(s, work, false, steps);
    assert [a, b][0 := a + p] == [a + p, b] && [a, b][1 := b + q] == [a, b + q];
    assert {0, 1} - {0} == {1 as nat};
    var s5 := Store(Some([a + p, b]), {1}, map[0 := DONE, 1 := BUSY.(phase := read)], None, [Patch(0)], [0, 1]);
    steps := Then(s, work, false, steps, s4, Commit(0, Saved), s5);
    var s6 := Store(Some([a, b + q]), {}, map[0 := DONE, 1 := DONE], None, [Patch(1)], [0, 1]);
    steps := Then(s, work, false, steps, s5, Commit(1, Saved), s6);
    assert steps == [Acquire(0), Acquire(1), Read(0, false), Read(1, false), Commit(0, Saved), Commit(1, Saved)];
    BothLanded(a, p, q);
  }

  lemma BothLanded(a: Member, p: Member, q: Member)
    ensures Fold(a, 0, Landed([0, 1], map[0 := DONE, 1 := DONE]), Twice(p, q)) == a + p
  {
    var (calls, order, log) := (map[0 := DONE, 1 := DONE], [0, 1], [Patch(0), Patch(1)]);
    assert order[..1] == [0] && order[..1][..0] == [] && log[..1] == [Patch(0)] && log[..1][..0] == [];
    assert Landed(order[..1][..0], calls) == [];
    assert Landed(order[..1], calls) == [Patch(0)];
    assert Landed(order, calls) == log;
    assert Fold(a, 0, log[..1], Twice(p, q)) == a + p;
  }
}
