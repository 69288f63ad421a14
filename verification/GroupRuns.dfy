/**
 * What holds of a migration group in every interleaving and over runs of any length, whatever
 * is canceled, deleted, re-run, restarted or raises.
 */
module GroupRuns {
  import opened Wrappers
  import opened Groups
  import opened Runners

  // ------------------------------------------------------------ the system ---

  /** A runner of a group created as `g0`: not begun yet, or orderly and set up from the row. */
  ghost predicate RunnerOf(t: Runner, g0: Row, alive: bool) {
    if !t.working then t == IDLE else
      && Orderly(t, alive)
      && t.limit == Max(1, g0.concurrency) && t.keepGoing == g0.continueOnError
      && (forall i :: i in t.tasks ==> i < |g0.members|)
  }

  predicate RowOf(row: Option<Row>, g0: Row) {
    row.Some? ==>
      && row.value.concurrency == g0.concurrency
      && row.value.continueOnError == g0.continueOnError
      && |row.value.members| == |g0.members|
  }

  predicate OneRunner(s: System) {
    && s.atomicDone && s.callbacks == {}
    && (forall r :: r in s.runners ==> s.active == Some(r))
    && (forall r :: r in s.runners ==> r < s.nextId)
  }

  ghost predicate Good(s: System, g0: Row) {
    && OneRunner(s)
    && RowOf(s.row, g0)
    && (forall c :: c in s.reruns ==> |s.reruns[c]| == |g0.members|)
    && (forall r :: r in s.runners ==> RunnerOf(s.runners[r], g0, s.row.Some?))
  }

  lemma FreshRunner(g: Row, g0: Row)
    requires RowOf(Some(g), g0)
    ensures RunnerOf(Begun(g), g0, true)
  {
    BegunIsOrderly(g, true);
  }

  lemma TaskKeepsRunner(t: Runner, row: Option<Row>, i: nat, op: TaskOp, g0: Row)
    requires t.working && RunnerOf(t, g0, row.Some?)
    ensures TaskStep(t, row, i, op).0.working && RunnerOf(TaskStep(t, row, i, op).0, g0, row.Some?)
  {
    StaysOrderly(t, row, i, op);
    StepMoves(t, row, i, op);
    if i in t.tasks {
      StepAdvances(t, row, i, op);
    }
    hide TaskStep, Orderly;
  }

  lemma TaskKeepsRow(t: Runner, row: Option<Row>, i: nat, op: TaskOp, g0: Row)
    requires RowOf(row, g0)
    ensures RowOf(TaskStep(t, row, i, op).1, g0) && TaskStep(t, row, i, op).1.Some? == row.Some?
  {}

  lemma IdleTask(t: Runner, row: Option<Row>, i: nat, op: TaskOp)
    requires !t.working
    ensures TaskStep(t, row, i, op) == (t, row)
  {}

  lemma MemberKeepsGood(s: System, r: nat, i: nat, op: TaskOp, g0: Row)
    requires Good(s, g0)
    ensures Good(MemberStep(s, r, i, op), g0)
  {
    hide RunnerOf, RowOf, TaskStep;
    if r in s.runners && s.runners[r].working {
      TaskKeepsRow(s.runners[r], s.row, i, op, g0);
      TaskKeepsRunner(s.runners[r], s.row, i, op, g0);
    } else if r in s.runners {
      IdleTask(s.runners[r], s.row, i, op);
      assert MemberStep(s, r, i, op) == s;
    }
  }

  lemma BeginKeepsGood(s: System, r: nat, g0: Row)
    requires Good(s, g0)
    ensures Good(BeginStep(s, r), g0)
  {
    if r in s.runners && !s.runners[r].working && s.row.Some? && !Over(s.row.value.status) {
      FreshRunner(s.row.value, g0);
    }
    hide RunnerOf, Begun;
  }

  lemma AggregateKeepsGood(s: System, r: nat, g0: Row)
    requires Good(s, g0)
    ensures Good(AggregateStep(s, r), g0)
  {
    hide RunnerOf;
  }

  lemma ApiKeepsGood(s: System, step: Step, g0: Row)
    requires Good(s, g0)
    requires step.RunNow? || step.RunNowRead? || step.RunNowCommit? || step.Cancel? || step.Poll? || step.Kick?
    ensures Good(Next(s, step), g0)
  {
    assert RunnerOf(IDLE, g0, s.row.Some?);
    hide RunnerOf, Reset;
  }

  lemma DeleteKeepsGood(s: System, g0: Row)
    requires Good(s, g0)
    ensures Good(DeleteStep(s), g0)
  {
    forall r | r in s.runners && s.row.Some? ensures RunnerOf(s.runners[r], g0, false) {
      if s.runners[r].working {
        DeletionKeepsOrder(s.runners[r]);
      }
    }
    hide RunnerOf;
  }

  lemma StepKeepsGood(s: System, step: Step, g0: Row)
    requires Good(s, g0)
    ensures Good(Next(s, step), g0)
  {
    match step
    case Delete => DeleteKeepsGood(s, g0);
    case Begin(r) => BeginKeepsGood(s, r, g0);
    case Member(r, i, op) => MemberKeepsGood(s, r, i, op, g0);
    case Aggregate(r) => AggregateKeepsGood(s, r, g0);
    case Restart => assert forall r :: r !in Next(s, step).runners;
    case Abort(r) => hide RunnerOf;
    case Callback(r) =>
    case _ => ApiKeepsGood(s, step, g0);
  }

  // ------------------------------------------------------------ over whole runs ---

  lemma {:induction false} RunsStayGood(s: System, steps: seq<Step>)
    requires Initial(s) && s.row.Some?
    ensures Good(Exec(s, steps), s.row.value)
  {
    if steps != [] {
      RunsStayGood(s, steps[..|steps| - 1]);
      StepKeepsGood(Exec(s, steps[..|steps| - 1]), steps[|steps| - 1], s.row.value);
    }
  }

  /**
   * In every reachable state the members in flight are at most `max(1, concurrency)`, no
   * runner launched a member twice, and a group that stopped does not continue on errors.
   */
  lemma {:induction false} ConcurrencyIsBounded(s: System, steps: seq<Step>, r: nat)
    requires Initial(s) && s.row.Some? && r in Exec(s, steps).runners
    ensures var t := Exec(s, steps).runners[r];
            && |Where(t.tasks, InFlight)| <= Max(1, s.row.value.concurrency)
            && NoRepeats(t.launched)
            && (t.stop ==> !s.row.value.continueOnError)
  {
    RunsStayGood(s, steps);
    var t := Exec(s, steps).runners[r];
    SubsetIsSmaller(Where(t.tasks, InFlight), Where(t.tasks, Holding));
    hide Exec, FirstFailureBinds;
  }

  /** No two runners of a group are ever live in one process. */
  lemma {:induction false} RunnersAreAlone(s: System, steps: seq<Step>, q: nat, r: nat)
    requires Initial(s) && s.row.Some?
    requires q in Exec(s, steps).runners && r in Exec(s, steps).runners
    ensures q == r
  {
    RunsStayGood(s, steps);
    assert Exec(s, steps).active == Some(q);
  }

  // ------------------------------------------------------------ counting launches ---

  /** What a runner launches, its two counters count. */
  ghost predicate Counts(t: Runner, u: Runner) {
    && t.launched <= u.launched
    && (t.stop ==> u.stop && |u.launched| - |t.launched| == u.late - t.late)
    && (t.first.Some? ==> u.first == t.first && |u.launched| - |t.launched| == u.since - t.since)
  }

  lemma TaskCounts(t: Runner, row: Option<Row>, i: nat, op: TaskOp)
    ensures Counts(t, TaskStep(t, row, i, op).0)
  {
    StepLaunches(t, row, i, op);
    StepMoves(t, row, i, op);
    StepFails(t, row, i, op);
    if i in t.tasks {
      StepAdvances(t, row, i, op);
    }
    hide TaskStep;
  }

  /** A runner that is there at both ends was there all the time: numbers are not used twice. */
  ghost predicate Continues(s: System, x: System, r: nat) {
    && s.nextId <= x.nextId
    && (r in x.runners && r < s.nextId ==>
          r in s.runners && (s.runners[r].working ==> x.runners[r].working && Counts(s.runners[r], x.runners[r])))
  }

  lemma StepContinues(s: System, step: Step, r: nat, g0: Row)
    requires Good(s, g0)
    ensures Continues(s, Next(s, step), r)
  {
    if r in s.runners {
      match step
      case Member(q, i, op) =>
        TaskCounts(s.runners[r], s.row, i, op);
        if s.runners[r].working { TaskKeepsRunner(s.runners[r], s.row, i, op, g0); }
      case _ =>
    }
    hide TaskStep, RunnerOf, RowOf, Begun, Reset;
  }

  lemma {:induction false} RunContinues(s: System, a: seq<Step>, b: seq<Step>, r: nat)
    requires Initial(s) && s.row.Some?
    ensures Continues(Exec(s, a), Exec(s, a + b), r)
  {
    hide Next, Good, Initial;
    if b == [] {
      assert a + b == a;
    } else {
      var n := |b| - 1;
      var (from, mid) := (Exec(s, a), Exec(s, a + b[..n]));
      RunContinues(s, a, b[..n], r);
      RunsStayGood(s, a + b[..n]);
      StepContinues(mid, b[n], r, s.row.value);
      assert (a + b)[..|a + b| - 1] == a + b[..n];
      assert Exec(s, a + b) == Next(mid, b[n]);
      hide Exec;
    }
  }

  /** From any point at which a group has stopped, its runner launches few members more. */
  lemma {:induction false} StoppedGroupLaunchesFew(s: System, a: seq<Step>, b: seq<Step>, r: nat)
    requires Initial(s) && s.row.Some?
    requires r in Exec(s, a).runners && Exec(s, a).runners[r].stop && r in Exec(s, a + b).runners
    ensures var (before, after) := (Exec(s, a).runners[r], Exec(s, a + b).runners[r]);
            && before.launched <= after.launched
            && |after.launched| - |before.launched| <= Max(1, s.row.value.concurrency) - 1
  {
    hide Exec, Next;
    RunsStayGood(s, a);
    RunContinues(s, a, b, r);
    RunsStayGood(s, a + b);
    hide LaunchedOnce, FirstFailureBinds;
  }

  /**
   * In a group that stops on errors it does so from the first non-success on record on, unless
   * that was a launch that was refused while another slot was there.
   */
  lemma {:induction false} FirstFailureLaunchesFew(s: System, a: seq<Step>, b: seq<Step>, r: nat)
    requires Initial(s) && s.row.Some?
    requires r in Exec(s, a).runners && Exec(s, a).runners[r].first.Some? && r in Exec(s, a + b).runners
    requires !s.row.value.continueOnError
    requires !Exec(s, a).runners[r].first.value.refused || s.row.value.concurrency <= 1
    ensures var (before, after) := (Exec(s, a).runners[r], Exec(s, a + b).runners[r]);
            && before.launched <= after.launched
            && |after.launched| - |before.launched| <= Max(1, s.row.value.concurrency) - 1
  {
    hide Exec, Next;
    RunsStayGood(s, a);
    RunContinues(s, a, b, r);
    RunsStayGood(s, a + b);
    hide LaunchedOnce, FewStragglers, LockFits, SessionsFail, FirstFits;
  }
}
