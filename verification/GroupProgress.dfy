/**
 * A runner gets to its end: as long as not all of its tasks are done one of them can move, and
 * over any run they move seven times each at most.
 */
module GroupProgress {
  import opened Wrappers
  import opened Groups
  import opened Runners
  import opened GroupRuns

  lemma OnwardMoves(t: Runner, row: Option<Row>, i: nat)
    requires t.working && i in t.tasks && !Done(t.tasks[i])
    requires t.tasks[i].Queued? ==> t.free > 0
    requires t.lock.Some? ==> t.tasks[i].Finishing?
    ensures Stage(TaskStep(t, row, i, Onward(t.tasks[i])).0.tasks[i]) > Stage(t.tasks[i])
  {}

  /** Whoever holds the lock, or else a slot, or else is not done yet. */
  lemma SomebodyIsFirst(t: Runner) returns (i: nat)
    requires t.working && !AllDone(t) && SlotsAccounted(t) && LockFits(t)
    ensures i in t.tasks && !Done(t.tasks[i])
    ensures t.tasks[i].Queued? ==> t.free > 0
    ensures t.lock.Some? ==> t.tasks[i].Finishing?
  {
    if t.lock.Some? {
      return t.lock.value;
    }
    if j: nat :| j in Where(t.tasks, Holding) {
      return j;
    }
    assert Where(t.tasks, Holding) == {};
    i :| i in t.tasks && !Done(t.tasks[i]);
  }

  /** Neither the semaphore nor the lock deadlocks: until all tasks are done, some task can go forward. */
  lemma {:induction false} SomeTaskCanMove(s: System, steps: seq<Step>, r: nat) returns (i: nat)
    requires Initial(s) && s.row.Some? && r in Exec(s, steps).runners
    requires Exec(s, steps).runners[r].working && !AllDone(Exec(s, steps).runners[r])
    ensures i in Exec(s, steps).runners[r].tasks
    ensures var (t, row) := (Exec(s, steps).runners[r], Exec(s, steps).row);
            Stage(TaskStep(t, row, i, Onward(t.tasks[i])).0.tasks[i]) > Stage(t.tasks[i])
  {
    RunsStayGood(s, steps);
    i := SomebodyIsFirst(Exec(s, steps).runners[r]);
    OnwardMoves(Exec(s, steps).runners[r], Exec(s, steps).row, i);
    hide Exec, TaskStep, Initial, LaunchedOnce, FewStragglers, SessionsFail, FirstFits, Bounded, Untroubled;
  }

  // ------------------------------------------------------------ moves run out ---

  /** How many moves the tasks below `n` have left, counting the longest way. */
  function Remaining(tasks: map<nat, Task>, n: nat): nat {
    if n == 0 then 0
    else Remaining(tasks, n - 1) + if n - 1 in tasks then 7 - Stage(tasks[n - 1]) else 0
  }

  lemma {:induction false} RemainingMoves(tasks: map<nat, Task>, i: nat, task: Task, n: nat)
    requires i in tasks
    ensures Remaining(tasks[i := task], n) ==
            Remaining(tasks, n) + if i < n then Stage(tasks[i]) - Stage(task) else 0
  {
    if n > 0 {
      RemainingMoves(tasks, i, task, n - 1);
    }
  }

  lemma {:induction false} RemainingIsBounded(tasks: map<nat, Task>, n: nat)
    ensures Remaining(tasks, n) <= 7 * n
  {
    if n > 0 {
      RemainingIsBounded(tasks, n - 1);
    }
  }

  lemma {:induction false} NothingRemains(tasks: map<nat, Task>, n: nat, i: nat)
    requires Remaining(tasks, n) == 0 && i < n && i in tasks
    ensures Done(tasks[i])
  {
    if i < n - 1 {
      NothingRemains(tasks, n - 1, i);
    }
  }

  /** A step that changes the runner moves its task on. */
  lemma MovesRise(t: Runner, row: Option<Row>, i: nat, op: TaskOp)
    requires i in t.tasks
    ensures var u := TaskStep(t, row, i, op).0;
            u == t || (i in u.tasks && Stage(u.tasks[i]) > Stage(t.tasks[i]))
  {}

  lemma MovesUseUp(t: Runner, row: Option<Row>, i: nat, op: TaskOp, n: nat)
    requires i in t.tasks ==> i < n
    ensures var u := TaskStep(t, row, i, op).0;
            u == t || Remaining(u.tasks, n) < Remaining(t.tasks, n)
  {
    StepMoves(t, row, i, op);
    var u := TaskStep(t, row, i, op).0;
    if u != t {
      MovesRise(t, row, i, op);
      RemainingMoves(t.tasks, i, u.tasks[i], n);
    }
    hide TaskStep, Stage, Remaining;
  }

  /** How often the steps change runner `r` while it is there. */
  ghost function Moves(s: System, r: nat, steps: seq<Step>): nat {
    if steps == [] then 0
    else
      var most := steps[..|steps| - 1];
      var (x, y) := (Exec(s, most).runners, Exec(s, steps).runners);
      Moves(s, r, most) + if r in x && r in y && x[r] != y[r] then 1 else 0
  }

  /** A step of anybody but its own tasks leaves a runner at work as it is. */
  lemma OnlyOwnTasksMove(s: System, step: Step, r: nat)
    requires r in s.runners && s.runners[r].working && r in Next(s, step).runners && r < s.nextId
    ensures Next(s, step).runners[r] == s.runners[r]
            || (step.Member? && Next(s, step).runners[r] == TaskStep(s.runners[r], s.row, step.index, step.op).0)
  {
    hide TaskStep, Begun, Reset;
  }

  lemma StepUsesUp(s: System, step: Step, r: nat, g0: Row)
    requires Good(s, g0) && r in s.runners && s.runners[r].working && r in Next(s, step).runners
    ensures var (t, u) := (s.runners[r], Next(s, step).runners[r]);
            u == t || Remaining(u.tasks, |g0.members|) < Remaining(t.tasks, |g0.members|)
  {
    OnlyOwnTasksMove(s, step, r);
    if step.Member? {
      MovesUseUp(s.runners[r], s.row, step.index, step.op, |g0.members|);
    }
    hide Next, TaskStep, Remaining, Orderly;
  }

  /** Over any steps, moves are paid for with what remained. */
  lemma {:induction false} MovesArePaid(s: System, a: seq<Step>, b: seq<Step>, r: nat)
    requires Initial(s) && s.row.Some?
    requires r in Exec(s, a).runners && Exec(s, a).runners[r].working && r in Exec(s, a + b).runners
    ensures var n := |s.row.value.members|;
            && Exec(s, a + b).runners[r].working
            && Moves(Exec(s, a), r, b) + Remaining(Exec(s, a + b).runners[r].tasks, n)
               <= Remaining(Exec(s, a).runners[r].tasks, n)
  {
    hide Next, Initial, Remaining;
    if b == [] {
      assert a + b == a;
    } else {
      var most := b[..|b| - 1];
      var mid := Exec(s, a + most);
      assert (a + b)[..|a + b| - 1] == a + most;
      RunsStayGood(s, a);
      RunsStayGood(s, a + most);
      RunContinues(s, a + most, [b[|b| - 1]], r);
      assert a + most + [b[|b| - 1]] == a + b;
      RunContinues(s, a, most, r);
      MovesArePaid(s, a, most, r);
      StepUsesUp(mid, b[|b| - 1], r, s.row.value);
      ExecConcat(s, a, b);
      ExecConcat(s, a, most);
      hide Good;
    }
  }

  /**
   * A runner at work makes at most seven moves for each member in all, whatever else happens;
   * once they are used up all its tasks are done. As some task can move until then, it gets to
   * its end if its tasks get their turns.
   */
  lemma {:induction false} RunnerGetsToItsEnd(s: System, a: seq<Step>, b: seq<Step>, r: nat)
    requires Initial(s) && s.row.Some?
    requires r in Exec(s, a).runners && Exec(s, a).runners[r].working && r in Exec(s, a + b).runners
    ensures Moves(Exec(s, a), r, b) <= 7 * |s.row.value.members|
    ensures Moves(Exec(s, a), r, b) == 7 * |s.row.value.members| ==> AllDone(Exec(s, a + b).runners[r])
  {
    MovesArePaid(s, a, b, r);
    RunsStayGood(s, a + b);
    var n := |s.row.value.members|;
    var after := Exec(s, a + b).runners[r];
    RemainingIsBounded(Exec(s, a).runners[r].tasks, n);
    if Remaining(after.tasks, n) == 0 {
      forall i | i in after.tasks ensures Done(after.tasks[i]) {
        NothingRemains(after.tasks, n, i);
      }
    }
    hide Exec, Remaining, Moves, Initial;
  }

  // ------------------------------------------------------------ a way to the end ---

  /** A move that brings nothing on record: it fails, raises or is not durable. */
  function Shrug(task: Task): TaskOp {
    match task
    case Queued => Acquire
    case Gate => CheckCanceled(true)
    case Launching => Launch(Broken)
    case Marking => Mark(false)
    case Polling => Look(Lost)
    case Recording(_, _) => Record(false)
    case _ => Leave
  }

  lemma ShrugMoves(t: Runner, row: Option<Row>, i: nat)
    requires t.working && i in t.tasks && !Done(t.tasks[i])
    requires t.tasks[i].Queued? ==> t.free > 0
    requires t.lock.Some? ==> t.tasks[i].Finishing?
    ensures var (u, row') := TaskStep(t, row, i, Shrug(t.tasks[i]));
            u != t && row' == row && u.launched == t.launched
  {}

  /** Only runner `r` changed on the way, and all steps are its own. */
  ghost predicate OnItsOwn(s: System, x: System, r: nat, steps: seq<Step>) {
    && x == s.(runners := x.runners) && x.runners.Keys == s.runners.Keys
    && forall k :: 0 <= k < |steps| ==> steps[k].Member? && steps[k].runner == r
  }

  /** From any state a runner at work can be run to its end, and nothing more is on record. */
  lemma {:induction false} RunToTheEnd(s: System, r: nat, g0: Row) returns (steps: seq<Step>)
    requires Good(s, g0) && r in s.runners && s.runners[r].working
    ensures var x := Exec(s, steps);
            && Good(x, g0) && OnItsOwn(s, x, r, steps) && x.runners[r].working && AllDone(x.runners[r])
    ensures |steps| <= Remaining(s.runners[r].tasks, |g0.members|)
    decreases Remaining(s.runners[r].tasks, |g0.members|)
  {
    if AllDone(s.runners[r]) {
      return [];
    }
    var i := SomebodyIsFirst(s.runners[r]);
    var step := Member(r, i, Shrug(s.runners[r].tasks[i]));
    ShrugMoves(s.runners[r], s.row, i);
    MovesUseUp(s.runners[r], s.row, i, step.op, |g0.members|);
    var x := Next(s, step);
    StepKeepsGood(s, step, g0);
    TaskKeepsRunner(s.runners[r], s.row, i, step.op, g0);
    assert OnItsOwn(s, x, r, [step]);
    hide TaskStep, Good, Shrug, RunnerOf;
    var rest := RunToTheEnd(x, r, g0);
    steps := [step] + rest;
    FirstStep(s, step, rest);
    hide Exec, Next;
  }
}
