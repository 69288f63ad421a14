/**
 * The re-run call of the API against the patches of members under way: it reads the whole list,
 * awaits, and writes it back without the lock.
 */
module RerunRace {
  import opened Wrappers
  import opened MemberLock

  predicate Patches(steps: seq<Step>) {
    forall k :: 0 <= k < |steps| ==> Patching(steps[k]) && !steps[k].Delete?
  }

  lemma {:induction false} SnapshotWaits(s: Store, work: map<nat, Work>, steps: seq<Step>)
    requires Patches(steps)
    ensures Exec(s, work, true, steps).rerun == s.rerun
    ensures Exec(s, work, true, steps).members.Some? == s.members.Some?
  {
    hide Patched, Onto;
    if steps != [] {
      SnapshotWaits(s, work, steps[..|steps| - 1]);
    }
  }

  /** The store after the read in `s` and the steps `b`, just before the call writes. */
  function BeforeWrite(s: Store, work: map<nat, Work>, b: seq<Step>): Store {
    Exec(Next(s, work, true, RerunRead), work, true, b)
  }

  function AfterWrite(s: Store, work: map<nat, Work>, b: seq<Step>): Store {
    Next(BeforeWrite(s, work, b), work, true, RerunCommit)
  }

  /** The call writes what it read, reset: whatever was patched in between is forgotten. */
  lemma RerunForgetsWhatLandedSince(s: Store, work: map<nat, Work>, b: seq<Step>)
    requires s.members.Some? && Patches(b)
    ensures BeforeWrite(s, work, b).members.Some?
    ensures AfterWrite(s, work, b).members == Some(Resets(s.members.value))
  {
    SnapshotWaits(Next(s, work, true, RerunRead), work, b);
    hide Exec;
  }

  /** A success is on record when the call writes, and gone when it has written. */
  ghost predicate Loses(s: Store, work: map<nat, Work>, b: seq<Step>) {
    var (before, after) := (BeforeWrite(s, work, b).members, AfterWrite(s, work, b).members);
    && before.Some? && after.Some?
    && exists i ::
         0 <= i < |before.value| && i < |after.value| && Succeeded(before.value[i]) && !Succeeded(after.value[i])
  }

  /** A patch that will make a success of a member that is none yet, by a call not over yet. */
  predicate Risky(s: Store, work: map<nat, Work>, c: nat) {
    && s.members.Some? && c in s.calls && c in work && s.calls[c].phase != Returned
    && 0 <= work[c].index < |s.members.value|
    && Succeeded(work[c].patch) && !Succeeded(s.members.value[work[c].index])
  }

  // ------------------------------------------------------------ nothing to lose ---

  /** No list, and no snapshot of one, has a success that `was` has not. */
  ghost predicate NoNewSuccess(x: Store, was: seq<Member>) {
    && (x.members.Some? ==> Fewer(x.members.value, was))
    && forall c :: c in x.calls && x.calls[c].phase.HasRead? ==> Fewer(x.calls[c].phase.snapshot, was)
  }

  predicate Fewer(list: seq<Member>, was: seq<Member>) {
    |list| == |was| && forall i :: 0 <= i < |list| && Succeeded(list[i]) ==> Succeeded(was[i])
  }

  ghost predicate OnlyReturns(s: Store, x: Store) {
    forall c :: c in s.calls && s.calls[c].phase == Returned ==> c in x.calls && x.calls[c].phase == Returned
  }

  lemma PatchedFewer(snapshot: seq<Member>, was: seq<Member>, w: Work)
    requires Fewer(snapshot, was)
    requires 0 <= w.index < |was| && Succeeded(w.patch) ==> Succeeded(was[w.index])
    ensures Fewer(Patched(snapshot, w), was)
  {}

  lemma StepBringsNoSuccess(s: Store, x: Store, work: map<nat, Work>, step: Step)
    requires s.members.Some? && NoNewSuccess(x, s.members.value) && OnlyReturns(s, x)
    requires x.calls.Keys == s.calls.Keys && Patches([step])
    requires forall c :: !Risky(s, work, c)
    ensures var y := Next(x, work, true, step);
            NoNewSuccess(y, s.members.value) && OnlyReturns(s, y) && y.calls.Keys == s.calls.Keys
  {
    assert Patching([step][0]);
    hide Patched, Fewer, Onto;
    match step
    case Commit(c, outcome) =>
      if c in x.calls && c in work && x.calls[c].phase.HasRead? {
        assert !Risky(s, work, c);
        PatchedFewer(x.calls[c].phase.snapshot, s.members.value, work[c]);
      }
    case _ =>
  }

  lemma {:induction false} RunBringsNoSuccess(s: Store, work: map<nat, Work>, b: seq<Step>)
    requires s.members.Some? && NoNewSuccess(s, s.members.value) && Patches(b)
    requires forall c :: !Risky(s, work, c)
    ensures var x := BeforeWrite(s, work, b);
            NoNewSuccess(x, s.members.value) && OnlyReturns(s, x) && x.calls.Keys == s.calls.Keys
  {
    if b == [] {
      hide Fewer;
    } else {
      var n := |b| - 1;
      RunBringsNoSuccess(s, work, b[..n]);
      assert Patches([b[n]]);
      StepBringsNoSuccess(s, BeforeWrite(s, work, b[..n]), work, b[n]);
      hide NoNewSuccess, OnlyReturns, Next;
    }
  }

  lemma NothingRiskyNothingLost(s: Store, work: map<nat, Work>, b: seq<Step>)
    requires s.members.Some? && NoNewSuccess(s, s.members.value) && Patches(b)
    requires forall c :: !Risky(s, work, c)
    ensures !Loses(s, work, b)
  {
    RunBringsNoSuccess(s, work, b);
    RerunForgetsWhatLandedSince(s, work, b);
    hide BeforeWrite, AfterWrite;
  }

  // ------------------------------------------------------------ something to lose ---

  lemma FirstStep(s: Store, work: map<nat, Work>, step: Step, rest: seq<Step>)
    ensures Exec(s, work, true, [step] + rest) == Exec(Next(s, work, true, step), work, true, rest)
  {
    ExecConcat(s, work, true, [step], rest);
    assert [step][..0] == [];
    assert Exec(s, work, true, [step]) == Next(s, work, true, step);
  }

  predicate Busy(s: Store, d: nat) {
    d in s.calls && (s.calls[d].phase.Trying? || s.calls[d].phase.HasRead?)
  }

  /** The lock is held by a call at work, on the current list. */
  ghost predicate Locked(s: Store, work: map<nat, Work>) {
    && s.members.Some?
    && (forall d :: d in s.holders ==> d in work && Busy(s, d))
    && (forall d: nat :: Busy(s, d) ==> s.holders == {d})
    && (forall d :: d in s.calls && s.calls[d].phase.HasRead? ==> s.calls[d].phase.snapshot == s.members.value)
  }

  /** The call `c` can still bring its success to a list of `size` members. */
  predicate Bringing(s: Store, work: map<nat, Work>, c: nat, size: nat) {
    && s.members.Some? && |s.members.value| == size
    && c in s.calls && c in work && s.calls[c].phase != Returned
    && 0 <= work[c].index < size && Succeeded(work[c].patch)
  }

  /** What a call at work does next, and what a waiting one does once the lock is free. */
  function Proceed(s: Store, c: nat): Step
    requires c in s.calls
  {
    match s.calls[c].phase
    case Waiting => Acquire(c)
    case Trying => Read(c, false)
    case _ => Commit(c, Saved)
  }

  lemma ProceedStaysLocked(s: Store, work: map<nat, Work>, d: nat)
    requires Locked(s, work) && d in s.calls && d in work && s.calls[d].phase != Returned
    requires s.calls[d].phase == Waiting ==> s.holders == {}
    ensures var x := Next(s, work, true, Proceed(s, d));
            Locked(x, work) && |x.members.value| == |s.members.value| && x.calls.Keys == s.calls.Keys
            && forall c :: c in s.calls && c != d ==> x.calls[c] == s.calls[c]
  {
    hide Onto, Succeeded;
    var x := Next(s, work, true, Proceed(s, d));
    assert s.calls[d].phase != Waiting ==> Busy(s, d);
    assert x.holders == if Busy(x, d) then {d} else {};
    forall c: nat | Busy(x, c) ensures c == d {
      assert c != d ==> Busy(s, c);
    }
    forall c | c in x.calls && x.calls[c].phase.HasRead? ensures x.calls[c].phase.snapshot == x.members.value {
      assert Busy(x, c);
    }
  }

  function Left(s: Store, c: nat): nat {
    if c !in s.calls then 0
    else
      match s.calls[c].phase
      case Waiting => 3
      case Trying => 2
      case HasRead(_, _) => 1
      case Returned => 0
  }

  /** A call with a free way gets its success on record. */
  lemma {:induction false} BringIt(s: Store, work: map<nat, Work>, c: nat) returns (b: seq<Step>)
    requires Locked(s, work) && Bringing(s, work, c, |s.members.value|)
    requires s.calls[c].phase == Waiting ==> s.holders == {}
    ensures Patches(b)
    ensures var x := Exec(s, work, true, b).members;
            x.Some? && |x.value| == |s.members.value| && Succeeded(x.value[work[c].index])
    decreases Left(s, c)
  {
    var step := Proceed(s, c);
    ProceedStaysLocked(s, work, c);
    var x := Next(s, work, true, step);
    var rest: seq<Step> := [];
    if s.calls[c].phase.HasRead? {
      assert Succeeded(x.members.value[work[c].index]);
    } else {
      rest := BringIt(x, work, c);
    }
    b := [step] + rest;
    FirstStep(s, work, step, rest);
    hide Next, Exec, Locked;
  }

  /** Whoever holds the lock finishes. */
  lemma {:induction false} FreeTheLock(s: Store, work: map<nat, Work>, c: nat, d: nat) returns (b: seq<Step>)
    requires Locked(s, work) && d in s.holders && c in s.calls && s.calls[c].phase == Waiting
    ensures Patches(b)
    ensures var x := Exec(s, work, true, b);
            Locked(x, work) && |x.members.value| == |s.members.value|
            && x.holders == {} && c in x.calls && x.calls[c].phase == Waiting
    decreases Left(s, d)
  {
    var step := Proceed(s, d);
    ProceedStaysLocked(s, work, d);
    var x := Next(s, work, true, step);
    var rest: seq<Step> := [];
    if d in x.holders {
      rest := FreeTheLock(x, work, c, d);
    }
    b := [step] + rest;
    FirstStep(s, work, step, rest);
    hide Exec;
  }

  // ------------------------------------------------------------ every reachable read ---

  ghost predicate HoldersWork(s: Store, work: map<nat, Work>) {
    forall d :: d in s.holders ==> d in work && Busy(s, d)
  }

  lemma StepKeepsHolders(s: Store, work: map<nat, Work>, step: Step)
    requires HoldersWork(s, work)
    ensures HoldersWork(Next(s, work, true, step), work)
  {
    hide Patched, Onto, Resets;
  }

  lemma {:induction false} RunsKeepHolders(s: Store, work: map<nat, Work>, steps: seq<Step>)
    requires Initial(s)
    ensures HoldersWork(Exec(s, work, true, steps), work)
  {
    if steps != [] {
      var most := steps[..|steps| - 1];
      RunsKeepHolders(s, work, most);
      StepKeepsHolders(Exec(s, work, true, most), work, steps[|steps| - 1]);
    }
  }

  /** In a run of patches under the lock, whoever has read has read what is there. */
  lemma ReachedIsLocked(s: Store, work: map<nat, Work>, first: seq<Member>, a: seq<Step>)
    requires Initial(s) && s.members == Some(first) && Patches(a)
    ensures Locked(Exec(s, work, true, a), work)
  {
    LockedRunsStayExact(s, work, first, a);
    RunsKeepHolders(s, work, a);
    SnapshotWaits(s, work, a);
    var x := Exec(s, work, true, a);
    hide Exec, Fold, Landed;
    forall d | d in x.calls && x.calls[d].phase.HasRead? ensures x.calls[d].phase.snapshot == x.members.value {
      assert x.calls[d].phase.seen == x.reflects;
    }
  }

  lemma LockedHasNoNewSuccess(s: Store, work: map<nat, Work>)
    requires Locked(s, work)
    ensures NoNewSuccess(s, s.members.value)
  {}

  /** A risky call can be run to its record before the re-run writes. */
  lemma RiskyIsLost(s: Store, work: map<nat, Work>, c: nat) returns (b: seq<Step>)
    requires Locked(s, work) && Risky(s, work, c)
    ensures Patches(b) && Loses(s, work, b)
  {
    var read := Next(s, work, true, RerunRead);
    assert Locked(read, work);
    b := [];
    var mid := read;
    if d :| d in read.holders && read.calls[c].phase == Waiting {
      b := FreeTheLock(read, work, c, d);
      mid := Exec(read, work, true, b);
    }
    var rest := BringIt(mid, work, c);
    ExecConcat(read, work, true, b, rest);
    assert Exec(read, work, true, []) == read;
    b := b + rest;
    RerunForgetsWhatLandedSince(s, work, b);
    var i := work[c].index;
    assert Succeeded(BeforeWrite(s, work, b).members.value[i]) && !Succeeded(AfterWrite(s, work, b).members.value[i]);
    hide Exec, Next, Locked;
  }

  /**
   * Exactly when a re-run call can lose a success, known when it reads: some patches before its
   * write make it lose one if and only if a call that is not over yet has a success for a member
   * that has none.
   */
  lemma RerunLosesExactly(s: Store, work: map<nat, Work>, first: seq<Member>, a: seq<Step>)
    requires Initial(s) && s.members == Some(first) && Patches(a)
    ensures var read := Exec(s, work, true, a);
            (exists b :: Patches(b) && Loses(read, work, b)) <==> exists c: nat :: Risky(read, work, c)
  {
    var read := Exec(s, work, true, a);
    ReachedIsLocked(s, work, first, a);
    hide Exec, Locked, Loses, Risky;
    LockedHasNoNewSuccess(read, work);
    if c: nat :| Risky(read, work, c) {
      var b := RiskyIsLost(read, work, c);
    } else if read.members.Some? {
      forall b | Patches(b) ensures !Loses(read, work, b) {
        NothingRiskyNothingLost(read, work, b);
      }
    }
  }

  function Only(m: Member, p: Member): map<nat, Work> {
    map[0 := Work(0, p)]
  }

  /** One member, one call that records its success between the read and the write. */
  lemma SuccessIsLost(s: Store, m: Member, p: Member) returns (before: seq<Step>, after: seq<Step>)
    requires s == Store(Some([m]), {}, map[0 := Call(Waiting, 0, false)], None, [], [])
    requires !Succeeded(m) && Succeeded(p)
    ensures before == [RerunRead, Acquire(0), Read(0, false), Commit(0, Saved)] && after == before + [RerunCommit]
    ensures Exec(s, Only(m, p), true, before).calls == map[0 := DONE]
    ensures Exec(s, Only(m, p), true, before).members == Some([m + p]) && Succeeded(m + p)
    ensures Exec(s, Only(m, p), true, after).members == Some([Reset(m)]) && !Succeeded(Reset(m))
  {
    hide Exec, Succeeded;
    var work := Only(m, p);
    before := [];
    NoSteps(s, work, true);
    var s1 := s.(rerun := Some(([m], [])));
    before := Then(s, work, true, before, s, RerunRead, s1);
    var s2 := s1.(holders := {0}, order := [0], calls := map[0 := BUSY]);
    before := Then(s, work, true, before, s1, Acquire(0), s2);
    var s3 := s2.(calls := map[0 := BUSY.(phase := HasRead([m], []))]);
    before := Then(s, work, true, before, s2, Read(0, false), s3);
    assert [m][0 := m + p] == [m + p] && {0 as nat} - {0} == {};
    var s4 := s2.(members := Some([m + p]), holders := {}, calls := map[0 := DONE], reflects := [Patch(0)]);
    before := Then(s, work, true, before, s3, Commit(0, Saved), s4);
    assert Resets([m]) == [Reset(m)] && [] + [Rerun] == [Rerun];
    var s5 := s4.(members := Some([Reset(m)]), rerun := None, reflects := [Rerun]);
    after := Then(s, work, true, before, s4, RerunCommit, s5);
    PatchedSucceeds(m, p);
  }

  lemma PatchedSucceeds(m: Member, p: Member)
    requires !Succeeded(m) && Succeeded(p)
    ensures Succeeded(m + p) && !Succeeded(Reset(m))
  {}
}
