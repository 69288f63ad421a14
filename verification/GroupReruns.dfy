/**
 * The re-run call that reads the members, awaits, and writes them back: exactly when a success
 * recorded in between can be lost, and a run in which the member is then launched again.
 */
module GroupReruns {
  import opened Wrappers
  import opened Groups
  import opened Runners
  import opened GroupRuns
  import opened GroupRecords
  import opened GroupProgress

  /** A runner `r` with a task for member `i`, and nobody in the way of its records. */
  predicate Ready(s: System, r: nat, i: nat) {
    && s.row.Some? && i < |s.row.value.members|
    && r in s.runners && s.runners[r].working && i in s.runners[r].tasks && s.runners[r].lock.None?
  }

  function TaskOf(s: System, r: nat, i: nat): Task
    requires Ready(s, r, i)
  {
    s.runners[r].tasks[i]
  }

  /** The task can still get to a success: it is past the cancel check, or the group goes on. */
  predicate OnTheWay(s: System, r: nat, i: nat)
    requires Ready(s, r, i)
  {
    var (t, task) := (s.runners[r], s.runners[r].tasks[i]);
    || MaySucceed(task)
    || (task.Gate? && s.row.value.status != GCanceled)
    || (task.Queued? && s.row.value.status != GCanceled && !t.stop && t.free > 0)
  }

  lemma OneStepTowards(s: System, r: nat, i: nat)
    requires Ready(s, r, i) && OnTheWay(s, r, i)
    ensures var x := Next(s, Member(r, i, Onward(TaskOf(s, r, i))));
            && x.reruns == s.reruns
            && if TaskOf(s, r, i).Recording? then RecordedSucceeded(x.row, i)
               else Ready(x, r, i) && OnTheWay(x, r, i) && Stage(TaskOf(x, r, i)) > Stage(TaskOf(s, r, i))
  {
  }

  /** A run to a recorded success. */
  lemma {:induction false} RunToSuccess(s: System, r: nat, i: nat) returns (steps: seq<Step>)
    requires Ready(s, r, i) && OnTheWay(s, r, i)
    ensures Quiet(steps)
    ensures Exec(s, steps).reruns == s.reruns && RecordedSucceeded(Exec(s, steps).row, i)
    decreases 7 - Stage(TaskOf(s, r, i))
  {
    var step := Member(r, i, Onward(TaskOf(s, r, i)));
    OneStepTowards(s, r, i);
    var rest: seq<Step> := [];
    if TaskOf(s, r, i).Recording? {
      assert Exec(Next(s, step), rest) == Next(s, step);
    } else {
      rest := RunToSuccess(Next(s, step), r, i);
    }
    steps := [step] + rest;
    FirstStep(s, step, rest);
  }

  /** Whoever holds the lock can leave. */
  lemma LockIsGivenBack(s: System, r: nat, i: nat, j: nat)
    requires r in s.runners && s.runners[r].working && LockFits(s.runners[r]) && s.runners[r].lock == Some(j)
    requires i in s.runners[r].tasks && MaySucceed(s.runners[r].tasks[i])
    requires s.row.Some? && i < |s.row.value.members|
    ensures var x := Next(s, Member(r, j, Leave));
            && Ready(x, r, i) && OnTheWay(x, r, i)
            && x.row == s.row && x.reruns == s.reruns
  {
  }

  lemma SuccessUnderWay(s: System, r: nat, i: nat, g0: Row) returns (steps: seq<Step>)
    requires Good(s, g0) && s.row.Some? && i < |s.row.value.members|
    requires r in s.runners && s.runners[r].working && i in s.runners[r].tasks && MaySucceed(s.runners[r].tasks[i])
    ensures Quiet(steps)
    ensures Exec(s, steps).reruns == s.reruns && RecordedSucceeded(Exec(s, steps).row, i)
  {
    if s.runners[r].lock.None? {
      steps := RunToSuccess(s, r, i);
    } else {
      var j := s.runners[r].lock.value;
      LockIsGivenBack(s, r, i, j);
      var rest := RunToSuccess(Next(s, Member(r, j, Leave)), r, i);
      steps := [Member(r, j, Leave)] + rest;
      FirstStep(s, Member(r, j, Leave), rest);
    }
  }

  lemma BegunIsReady(s: System, r: nat, i: nat)
    requires s.row.Some? && !Over(s.row.value.status) && r in s.runners && !s.runners[r].working
    requires i < |s.row.value.members| && !Terminal(s.row.value.members[i])
    ensures var x := Next(s, Begin(r));
            Ready(x, r, i) && OnTheWay(x, r, i) && x.reruns == s.reruns
  {
  }

  lemma SuccessAfterBegin(s: System, r: nat, i: nat) returns (steps: seq<Step>)
    requires s.row.Some? && !Over(s.row.value.status) && r in s.runners && !s.runners[r].working
    requires i < |s.row.value.members| && !Terminal(s.row.value.members[i])
    ensures Quiet(steps)
    ensures Exec(s, steps).reruns == s.reruns && RecordedSucceeded(Exec(s, steps).row, i)
  {
    BegunIsReady(s, r, i);
    var rest := RunToSuccess(Next(s, Begin(r)), r, i);
    steps := [Begin(r)] + rest;
    FirstStep(s, Begin(r), rest);
  }

  lemma PollAndKick(s: System, g0: Row)
    requires Good(s, g0) && s.row.Some? && !Over(s.row.value.status) && s.runners == map[]
    ensures var x := Next(Next(s, Poll(true)), Kick);
            && s.nextId in x.runners && !x.runners[s.nextId].working && x.reruns == s.reruns
            && x.row.Some? && x.row.value.members == s.row.value.members && !Over(x.row.value.status)
  {
  }

  ghost predicate NobodyWorks(s: System) {
    forall r :: r in s.runners ==> !s.runners[r].working
  }

  lemma SuccessFromNothing(s: System, i: nat, g0: Row) returns (steps: seq<Step>)
    requires Good(s, g0) && s.row.Some? && !Over(s.row.value.status) && NobodyWorks(s)
    requires i < |s.row.value.members| && !Terminal(s.row.value.members[i])
    ensures Quiet(steps)
    ensures Exec(s, steps).reruns == s.reruns && RecordedSucceeded(Exec(s, steps).row, i)
  {
    if r :| r in s.runners {
      steps := SuccessAfterBegin(s, r, i);
    } else {
      PollAndKick(s, g0);
      var mid := Next(Next(s, Poll(true)), Kick);
      var rest := SuccessAfterBegin(mid, s.nextId, i);
      FirstStep(Next(s, Poll(true)), Kick, rest);
      FirstStep(s, Poll(true), [Kick] + rest);
      steps := [Poll(true)] + ([Kick] + rest);
    }
  }

  lemma AbortEmpties(s: System, r: nat, g0: Row)
    requires Good(s, g0) && r in s.runners && AllDone(s.runners[r])
    ensures Next(s, Abort(r)) == s.(runners := map[], active := None)
  {
    assert (s.runners - {r}).Keys == {};
    assert s.runners - {r} == map[];
  }

  lemma QuietConcat(a: seq<Step>, b: seq<Step>)
    requires Quiet(a) && Quiet(b)
    ensures Quiet(a + b)
  {}

  /** The runner at work ends with nothing on record and an error, and a new one takes over. */
  lemma SuccessFromANewRunner(s: System, r: nat, i: nat, g0: Row) returns (steps: seq<Step>)
    requires Good(s, g0) && s.row.Some? && !Over(s.row.value.status) && r in s.runners && s.runners[r].working
    requires i < |s.row.value.members| && !Terminal(s.row.value.members[i])
    ensures Quiet(steps)
    ensures Exec(s, steps).reruns == s.reruns && RecordedSucceeded(Exec(s, steps).row, i)
  {
    var ending := RunToTheEnd(s, r, g0);
    var done := Exec(s, ending);
    AbortEmpties(done, r, g0);
    StepKeepsGood(done, Abort(r), g0);
    var empty := Next(done, Abort(r));
    var rest := SuccessFromNothing(empty, i, g0);
    FirstStep(done, Abort(r), rest);
    ExecConcat(s, ending, [Abort(r)] + rest);
    QuietConcat([Abort(r)], rest);
    QuietConcat(ending, [Abort(r)] + rest);
    steps := ending + ([Abort(r)] + rest);
    hide Exec, Next, Good;
  }

  lemma SuccessCanCome(s: System, i: nat, g0: Row) returns (steps: seq<Step>)
    requires Good(s, g0) && SuccessMayCome(s, i)
    ensures Quiet(steps)
    ensures Exec(s, steps).reruns == s.reruns && RecordedSucceeded(Exec(s, steps).row, i)
  {
    if r :| r in s.runners && s.runners[r].working && i in s.runners[r].tasks && MaySucceed(s.runners[r].tasks[i]) {
      steps := SuccessUnderWay(s, r, i, g0);
    } else if r :| r in s.runners && s.runners[r].working {
      steps := SuccessFromANewRunner(s, r, i, g0);
    } else {
      steps := SuccessFromNothing(s, i, g0);
    }
    hide Exec, Good, Quiet;
  }

  lemma ReadForgetsExactly(s: System, c: nat, g0: Row)
    requires Good(s, g0) && Recorded(s) && s.reruns == map[]
    requires s.row.Some? && !Refuses(s.row.value.status)
    ensures (exists steps :: Quiet(steps) && Forgets(s, c, steps)) <==> exists i: nat :: SuccessMayCome(s, i)
  {
    var read := RunNowReadStep(s, c);
    StepKeepsGood(s, RunNowRead(c), g0);
    if i: nat :| SuccessMayCome(s, i) {
      assert SuccessMayCome(read, i);
      var steps := SuccessCanCome(read, i, g0);
      assert Forgets(s, c, steps) by {
        var x := Exec(read, steps);
        assert x.reruns[c] == s.row.value.members;
        assert !RecordedSucceeded(RunNowCommitStep(x, c).row, i);
      }
    } else {
      NoSuccessMeansSealed(s, g0);
      forall steps | Quiet(steps) ensures !Forgets(s, c, steps) {
        SealedReadForgetsNothing(s, c, steps, g0);
      }
    }
    hide Good, Recorded, Exec, Sealed;
  }

  /**
   * What a re-run call can forget, known when it reads, after any careful run: some run up to its
   * write records a success that the write takes away exactly when some member may still succeed.
   */
  lemma RerunForgetsExactly(start: System, a: seq<Step>, c: nat)
    requires Initial(start) && start.row.Some? && CarefulRun(start, a)
    requires Exec(start, a).row.Some? && !Refuses(Exec(start, a).row.value.status) && Exec(start, a).reruns == map[]
    ensures (exists steps :: Quiet(steps) && Forgets(Exec(start, a), c, steps))
            <==> exists i: nat :: SuccessMayCome(Exec(start, a), i)
  {
    RunsStayGood(start, a);
    CarefulRunsStayRecorded(start, a);
    ReadForgetsExactly(Exec(start, a), c, start.row.value);
  }

  // ------------------------------------------------------------ launched a second time ---

  const ALONE := Row(GPending, [MemberStatus.Pending], 1, false)

  /** The runner of a group of one, with its only task somewhere on the way. */
  function Lone(task: Task, launched: seq<nat>): Runner {
    Begun(ALONE).(tasks := map[0 := task], launched := launched,
                  free := if task.Queued? then 1 else 0)
  }

  function LoneState(s: System, r: nat, task: Task, row: Row, launched: seq<nat>): System {
    s.(row := Some(row), runners := map[r := Lone(task, launched)])
  }

  lemma LoneBegins(s: System, r: nat)
    requires s.row == Some(ALONE) && s.runners == map[r := IDLE]
    ensures Next(s, Begin(r)) == LoneState(s, r, Queued, ALONE.(status := GRunning), [])
  {
    assert ToRun(ALONE.members) == map[0 := Queued];
  }

  lemma LoneMoves(s: System, r: nat, from: Task, to: Task, row: Row, row': Row, launched: seq<nat>, op: TaskOp)
    requires s == LoneState(s, r, from, row, launched) && !from.Launching?
    requires TaskStep(Lone(from, launched), Some(row), 0, op) ==
             (At(Lone(from, launched), 0, to).(free := if to.Queued? then 1 else 0), Some(row'))
    ensures Next(s, Member(r, 0, op)) == LoneState(s, r, to, row', launched)
  {
    assert map[0 := from][0 := to] == map[0 := to];
    hide TaskStep;
  }

  lemma LoneLaunches(s: System, r: nat, row: Row)
    requires s == LoneState(s, r, Launching, row, [])
    ensures Next(s, Member(r, 0, Launch(Started))) ==
            LoneState(s, r, Marking, row, [0]).(launches := s.launches + [0])
  {
    assert map[0 := Launching][0 := Marking] == map[0 := Marking] && [] + [0 as nat] == [0];
  }

  /** A runner of the group launches its only member, whatever was launched before. */
  lemma LoneLaunch(s: System, r: nat, p: seq<Step>, now: System) returns (more: seq<Step>)
    requires Exec(s, p) == now && now.row == Some(ALONE) && now.runners == map[r := IDLE]
    ensures more == p + [Begin(r), Member(r, 0, Acquire), Member(r, 0, CheckCanceled(false)),
                         Member(r, 0, Launch(Started))]
    ensures Exec(s, more) ==
            LoneState(now, r, Marking, ALONE.(status := GRunning), [0]).(launches := now.launches + [0])
  {
    var row := ALONE.(status := GRunning);
    LoneBegins(now, r);
    more := Then(s, p, now, Begin(r));
    var s1 := LoneState(now, r, Queued, row, []);
    LoneMoves(s1, r, Queued, Gate, row, row, [], Acquire);
    more := Then(s, more, s1, Member(r, 0, Acquire));
    var s2 := LoneState(now, r, Gate, row, []);
    LoneMoves(s2, r, Gate, Launching, row, row, [], CheckCanceled(false));
    more := Then(s, more, s2, Member(r, 0, CheckCanceled(false)));
    var s3 := LoneState(now, r, Launching, row, []);
    LoneLaunches(s3, r, row);
    more := Then(s, more, s3, Member(r, 0, Launch(Started)));
    hide Exec, Next, TaskStep;
  }

  const CANCELED := Row(GCanceled, [Running], 1, false)

  /** The launched member goes on although the group is canceled, and a re-run call reads. */
  lemma CanceledAndRead(s: System, p: seq<Step>, now: System) returns (more: seq<Step>)
    requires Exec(s, p) == now && now == LoneState(now, 0, Marking, ALONE.(status := GRunning), [0])
    ensures more == p + [Member(0, 0, Mark(true)), Cancel, RunNowRead(0)]
    ensures Exec(s, more) == LoneState(now, 0, Polling, CANCELED, [0]).(reruns := now.reruns[0 := [Running]])
  {
    var running := ALONE.(status := GRunning, members := [Running]);
    assert [MemberStatus.Pending][0 := Running] == [Running];
    LoneMoves(now, 0, Marking, Polling, ALONE.(status := GRunning), running, [0], Mark(true));
    more := Then(s, p, now, Member(0, 0, Mark(true)));
    var s1 := LoneState(now, 0, Polling, running, [0]);
    more := Then(s, more, s1, Cancel);
    var s2 := LoneState(now, 0, Polling, CANCELED, [0]);
    more := Then(s, more, s2, RunNowRead(0));
    hide Exec, TaskStep;
  }

  /** The member succeeds and is recorded, and the runner returns. */
  lemma SucceededAndRecorded(s: System, p: seq<Step>, now: System) returns (more: seq<Step>)
    requires Exec(s, p) == now && now == LoneState(now, 0, Polling, CANCELED, [0])
    ensures more == p + [Member(0, 0, Look(Ended(Succeeded))), Member(0, 0, Record(true))]
    ensures RecordedSucceeded(Exec(s, more).row, 0)
    ensures Exec(s, more) == now.(row := Some(CANCELED.(members := [Succeeded])),
              runners := map[0 := Lone(Finishing(Succeeded), [0]).(lock := Some(0))])
  {
    LoneMoves(now, 0, Polling, Recording(Succeeded, false), CANCELED, CANCELED, [0], Look(Ended(Succeeded)));
    more := Then(s, p, now, Member(0, 0, Look(Ended(Succeeded))));
    var s1 := LoneState(now, 0, Recording(Succeeded, false), CANCELED, [0]);
    LoneRecords(s1);
    more := Then(s, more, s1, Member(0, 0, Record(true)));
    hide Exec, Next, TaskStep;
  }

  lemma LoneRecords(now: System)
    requires now == LoneState(now, 0, Recording(Succeeded, false), CANCELED, [0])
    ensures Next(now, Member(0, 0, Record(true))) == now.(row := Some(CANCELED.(members := [Succeeded])),
              runners := map[0 := Lone(Finishing(Succeeded), [0]).(lock := Some(0))])
  {
    assert [Running][0 := Succeeded] == [Succeeded];
    assert map[0 := Recording(Succeeded, false)][0 := Finishing(Succeeded)] == map[0 := Finishing(Succeeded)];
  }

  lemma RunnerReturns(s: System, p: seq<Step>, now: System) returns (more: seq<Step>)
    requires Exec(s, p) == now && now.atomicDone && now.row == Some(CANCELED.(members := [Succeeded]))
    requires now.runners == map[0 := Lone(Finishing(Succeeded), [0]).(lock := Some(0))]
    ensures more == p + [Member(0, 0, Leave), Aggregate(0)]
    ensures Exec(s, more) == now.(runners := map[], active := None)
  {
    var left := Next(now, Member(0, 0, Leave));
    LoneLeaves(now);
    more := Then(s, p, now, Member(0, 0, Leave));
    more := Then(s, more, left, Aggregate(0));
    assert (left.runners - {0}).Keys == {};
    assert left.runners - {0} == map[];
    hide Exec, MemberStep, AllDone;
  }

  lemma LoneLeaves(now: System)
    requires now.runners == map[0 := Lone(Finishing(Succeeded), [0]).(lock := Some(0))]
    ensures var left := Next(now, Member(0, 0, Leave));
            && left.runners.Keys == {0} && AllDone(left.runners[0])
            && left == now.(runners := left.runners)
  {
  }

  /** The call writes back what it read, and kicks. */
  lemma RerunIsKicked(s: System, p: seq<Step>, now: System) returns (more: seq<Step>)
    requires Exec(s, p) == now && now.row == Some(CANCELED.(members := [Succeeded])) && now.runners == map[]
    requires now.active.None? && now.kicks == 0 && now.nextId == 1 && now.reruns == map[0 := [Running]]
    ensures more == p + [RunNowCommit(0), Kick]
    ensures Exec(s, more) == now.(row := Some(ALONE), runners := map[1 := IDLE], active := Some(1), nextId := 2,
                                  reruns := map[])
  {
    more := Then(s, p, now, RunNowCommit(0));
    var s1 := now.(row := Some(ALONE), kicks := 1, reruns := map[]);
    assert Reset([Running]) == [MemberStatus.Pending];
    assert Next(now, RunNowCommit(0)) == s1;
    more := Then(s, more, s1, Kick);
  }

  /** A member recorded as succeeded is launched again by a re-run that straddled the record. */
  lemma StraddlingRerunLaunchesAgain(s: System) returns (before: seq<Step>, after: seq<Step>)
    requires Initial(s) && s.row == Some(ALONE) && s.nextId == 0
    ensures |before| == 11 && before < after && |after| == 19
    ensures RecordedSucceeded(Exec(s, before).row, 0) && Exec(s, before).launches == [0]
    ensures Exec(s, after).launches == [0, 0] && !RecordedSucceeded(Exec(s, after).row, 0)
  {
    var s1 := s.(kicks := 1);
    Start(s, Poll(true), s1);
    var p := Then(s, [Poll(true)], s1, Kick);
    var now := s.(nextId := 1, active := Some(0), runners := map[0 := IDLE]);
    assert Exec(s, p) == now;
    hide Exec, Next, TaskStep;
    p := LoneLaunch(s, 0, p, now);
    now := Exec(s, p);
    p := CanceledAndRead(s, p, now);
    now := Exec(s, p);
    before := SucceededAndRecorded(s, p, now);
    p := RunnerReturns(s, before, Exec(s, before));
    p := RerunIsKicked(s, p, Exec(s, p));
    after := LoneLaunch(s, 1, p, Exec(s, p));
  }
}
