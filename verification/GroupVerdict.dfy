/**
 * How a group ends when nobody cancels or deletes it or writes over it, and the database keeps
 * what it is told: every member terminal, a verdict that matches the members, and, one at a
 * time, nothing launched past the first failure.
 */
module GroupVerdict {
  import opened Wrappers
  import opened Groups
  import opened Runners
  import opened GroupRuns

  predicate Undisturbed(step: Step) {
    match step
    case Cancel => false
    case Delete => false
    case RunNowCommit(_) => false
    case Member(_, _, CheckCanceled(raises)) => !raises
    case Member(_, _, Mark(durable)) => durable
    case Member(_, _, Record(durable)) => durable
    case _ => true
  }

  predicate AllUndisturbed(steps: seq<Step>) {
    forall k :: 0 <= k < |steps| ==> Undisturbed(steps[k])
  }

  /** The task has yet to record a terminal status, or has recorded it. */
  predicate Owns(task: Task) {
    !task.Closing? && !task.Finishing? && !Done(task)
  }

  /** Every member is terminal or has a task that will see to it. */
  ghost predicate Covered(t: Runner, row: Option<Row>) {
    && row.Some? && row.value.status == GRunning
    && forall i: nat :: i < |row.value.members| ==>
         Terminal(row.value.members[i]) || (i in t.tasks && Owns(t.tasks[i]))
  }

  predicate Steady(t: Runner) {
    forall i :: i in t.tasks ==>
      !t.tasks[i].Crashed? && (t.tasks[i].Recording? ==> Terminal(t.tasks[i].result))
  }

  ghost predicate Driven(t: Runner, row: Option<Row>) {
    t.working ==> Covered(t, row) && Steady(t)
  }

  ghost predicate AllDriven(s: System) {
    && OneRunner(s)
    && forall r :: r in s.runners ==> Driven(s.runners[r], s.row)
  }

  lemma TaskKeepsCovered(t: Runner, row: Option<Row>, r: nat, i: nat, op: TaskOp)
    requires t.working && Covered(t, row) && Steady(t) && Undisturbed(Member(r, i, op))
    ensures Covered(TaskStep(t, row, i, op).0, TaskStep(t, row, i, op).1)
  {
  }

  lemma TaskKeepsSteady(t: Runner, row: Option<Row>, r: nat, i: nat, op: TaskOp)
    requires t.working && Covered(t, row) && Steady(t) && Undisturbed(Member(r, i, op))
    ensures Steady(TaskStep(t, row, i, op).0)
  {
  }

  lemma TaskKeepsDriven(t: Runner, row: Option<Row>, r: nat, i: nat, op: TaskOp)
    requires t.working && Driven(t, row) && Undisturbed(Member(r, i, op))
    ensures Driven(TaskStep(t, row, i, op).0, TaskStep(t, row, i, op).1)
  {
    TaskKeepsCovered(t, row, r, i, op);
    TaskKeepsSteady(t, row, r, i, op);
    hide TaskStep;
  }

  lemma StepKeepsDriven(s: System, step: Step, g0: Row)
    requires Good(s, g0) && AllDriven(s) && Undisturbed(step)
    ensures AllDriven(Next(s, step))
  {
    StepKeepsGood(s, step, g0);
    hide Good, RunnerOf, TaskStep;
    match step
    case Member(r, i, op) =>
      hide Driven;
      if r in s.runners && s.runners[r].working {
        TaskKeepsDriven(s.runners[r], s.row, r, i, op);
      } else if r in s.runners {
        IdleTask(s.runners[r], s.row, i, op);
      }
    case _ =>
  }

  lemma {:induction false} UndisturbedRunsStayDriven(s: System, steps: seq<Step>)
    requires Initial(s) && s.row.Some? && AllUndisturbed(steps)
    ensures AllDriven(Exec(s, steps))
  {
    if steps != [] {
      var most := steps[..|steps| - 1];
      UndisturbedRunsStayDriven(s, most);
      RunsStayGood(s, most);
      StepKeepsDriven(Exec(s, most), steps[|steps| - 1], s.row.value);
    }
  }

  /** The group ends with every member terminal and the status its members deserve. */
  lemma {:induction false} VerdictIsTrue(s: System, steps: seq<Step>, r: nat)
    requires Initial(s) && s.row.Some? && AllUndisturbed(steps)
    requires r in Exec(s, steps).runners && AllDone(Exec(s, steps).runners[r])
    ensures var last := Exec(s, steps + [Aggregate(r)]);
            && r !in last.runners && last.row.Some?
            && var members := last.row.value.members;
            && |members| == |s.row.value.members|
            && (forall i :: 0 <= i < |members| ==> Terminal(members[i]))
            && (last.row.value.status == GSucceeded <==>
                  members != [] && forall i :: 0 <= i < |members| ==> members[i] == Succeeded)
            && (last.row.value.status == GFailed <==>
                  forall i :: 0 <= i < |members| ==> members[i] != Succeeded)
            && (last.row.value.status in {GSucceeded, GFailed, GPartial})
  {
    UndisturbedRunsStayDriven(s, steps);
    RunsStayGood(s, steps);
    assert (steps + [Aggregate(r)])[..|steps|] == steps;
    var members := Exec(s, steps).row.value.members;
    assert forall i: nat :: i < |members| ==> Terminal(members[i]);
    assert members == [] || members[0] == Succeeded || members[0] != Succeeded;
  }

  // ------------------------------------------------------------ one at a time ---

  /** Successes, then at most one failure, then only skips once that failure stopped the group. */
  ghost predicate InOrder(t: Runner) {
    if !t.stop then
      forall k :: 0 <= k < |t.results| ==> t.results[k] == Succeeded
    else
      exists f: nat :: f < |t.results| && StopsAt(t.results, f)
  }

  predicate StopsAt(results: seq<MemberStatus>, f: nat)
    requires f < |results|
  {
    && (forall k :: 0 <= k < f ==> results[k] == Succeeded)
    && results[f] in {Failed, RolledBack}
    && (forall k :: f < k < |results| ==> results[k] == Skipped)
  }

  /** What a task that holds the slot may be about to report. */
  predicate Fits(task: Task, stop: bool) {
    && (task.Recording? || task.Closing? || task.Finishing? ==>
          task.result in {Succeeded, Failed, RolledBack, Skipped} && (stop <==> task.result == Skipped))
    && (InFlight(task) || Entering(task) ==> task.Recording? || !stop)
  }

  predicate Sequential(t: Runner) {
    && t.limit == 1 && !t.keepGoing
    && forall i :: i in t.tasks && Holding(t.tasks[i]) ==> Fits(t.tasks[i], t.stop)
  }

  lemma TaskKeepsSequence(t: Runner, row: Option<Row>, r: nat, i: nat, op: TaskOp)
    requires Undisturbed(Member(r, i, op)) && SlotsAccounted(t)
    requires row.Some? && row.value.status == GRunning
    requires Sequential(t)
    ensures Sequential(TaskStep(t, row, i, op).0)
  {
    forall j | j in t.tasks && i in t.tasks && Holding(t.tasks[j]) && Holding(t.tasks[i]) ensures j == i {
      OneHolder(t, j, i);
    }
  }

  lemma TaskKeepsOrder(t: Runner, row: Option<Row>, i: nat, op: TaskOp)
    requires Sequential(t) && InOrder(t)
    ensures InOrder(TaskStep(t, row, i, op).0)
  {
    var t' := TaskStep(t, row, i, op).0;
    if t'.results != t.results {
      if t.stop {
        var f: nat :| f < |t.results| && StopsAt(t.results, f);
        assert StopsAt(t'.results, f);
      } else if t'.stop {
        assert StopsAt(t'.results, |t.results|);
      }
    }
  }

  ghost predicate OneAtATime(s: System) {
    forall r :: r in s.runners && s.runners[r].working ==> Sequential(s.runners[r]) && InOrder(s.runners[r])
  }

  lemma FreshRunnerIsSequential(g: Row)
    requires g.concurrency <= 1 && !g.continueOnError
    ensures Sequential(Begun(g)) && InOrder(Begun(g))
  {
  }

  lemma StepKeepsOneAtATime(s: System, step: Step, g0: Row)
    requires Good(s, g0) && AllDriven(s) && OneAtATime(s) && Undisturbed(step)
    requires g0.concurrency <= 1 && !g0.continueOnError
    ensures OneAtATime(Next(s, step))
  {
    hide TaskStep, InOrder, Sequential;
    match step
    case Member(r, i, op) =>
      if r in s.runners && s.runners[r].working {
        TaskKeepsSequence(s.runners[r], s.row, r, i, op);
        TaskKeepsOrder(s.runners[r], s.row, i, op);
      } else if r in s.runners {
        IdleTask(s.runners[r], s.row, i, op);
      }
    case Begin(r) =>
      if r in s.runners && !s.runners[r].working && s.row.Some? && !Over(s.row.value.status) {
        FreshRunnerIsSequential(s.row.value);
        assert forall q :: q in Next(s, step).runners ==> q == r;
      }
    case _ =>
  }

  lemma {:induction false} UndisturbedRunsStayOneAtATime(s: System, steps: seq<Step>)
    requires Initial(s) && s.row.Some? && AllUndisturbed(steps)
    requires s.row.value.concurrency <= 1 && !s.row.value.continueOnError
    ensures OneAtATime(Exec(s, steps))
  {
    if steps != [] {
      var most := steps[..|steps| - 1];
      UndisturbedRunsStayOneAtATime(s, most);
      UndisturbedRunsStayDriven(s, most);
      RunsStayGood(s, most);
      StepKeepsOneAtATime(Exec(s, most), steps[|steps| - 1], s.row.value);
    }
  }

  /** With one slot, the results are successes, one failure, and skips from there on. */
  lemma {:induction false} FirstFailureEndsTheGroup(s: System, steps: seq<Step>, r: nat)
    requires Initial(s) && s.row.Some? && AllUndisturbed(steps)
    requires s.row.value.concurrency <= 1 && !s.row.value.continueOnError
    requires r in Exec(s, steps).runners && Exec(s, steps).runners[r].working
    ensures InOrder(Exec(s, steps).runners[r])
  {
    UndisturbedRunsStayOneAtATime(s, steps);
  }
}
