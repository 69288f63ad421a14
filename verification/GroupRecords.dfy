/**
 * What becomes of a member recorded as succeeded: it stays so and is never launched again, and
 * exactly when a re-run call that reads the members and writes them back later takes that away.
 */
module GroupRecords {
  import opened Wrappers
  import opened Groups
  import opened Runners
  import opened GroupRuns

  predicate RecordedSucceeded(row: Option<Row>, i: nat) {
    row.Some? && i < |row.value.members| && row.value.members[i] == Succeeded
  }

  predicate Settled(task: Task) {
    task == Finishing(Succeeded) || task == Finished(Succeeded)
  }

  /** A runner has nothing left to do for a member on record as succeeded. */
  ghost predicate LeavesSucceeded(t: Runner, row: Option<Row>) {
    t.working ==> forall i :: i in t.tasks && RecordedSucceeded(row, i) ==> Settled(t.tasks[i])
  }

  predicate BeforeRecord(task: Task) {
    !task.Closing? && !task.Finishing? && !Done(task)
  }

  /** A task that has its record still to come is of a member without a terminal one. */
  ghost predicate RecordsFirst(t: Runner, row: Option<Row>) {
    t.working && row.Some? ==>
      forall i :: i in t.tasks && BeforeRecord(t.tasks[i]) ==>
        i < |row.value.members| && !Terminal(row.value.members[i])
  }

  /** Of the groups that are over only a canceled one has a runner at work. */
  predicate StatusFits(t: Runner, row: Option<Row>) {
    t.working && row.Some? ==> !Over(row.value.status) || row.value.status == GCanceled
  }

  /** What one step may do to the record of member `i`, given what it was. */
  ghost predicate Absorbs(before: System, after: System) {
    && (before.row.None? ==> after.row.None?)
    && (after.row.Some? ==> forall i: nat :: RecordedSucceeded(before.row, i) ==> RecordedSucceeded(after.row, i))
    && (after.launches == before.launches
        || exists i: nat ::
             after.launches == before.launches + [i] && before.row.Some? && !RecordedSucceeded(before.row, i))
  }

  // ------------------------------------------------------------ re-run calls under way ---

  /** The task may still record a success, even if the group is canceled by now. */
  predicate MaySucceed(task: Task) {
    task.Launching? || task.Marking? || task.Polling? || (task.Recording? && task.result == Succeeded)
  }

  ghost predicate NoSuccessComes(t: Runner) {
    forall i :: i in t.tasks ==> !MaySucceed(t.tasks[i])
  }

  ghost predicate AllRecorded(t: Runner) {
    forall i :: i in t.tasks ==> !BeforeRecord(t.tasks[i])
  }

  predicate AllTerminal(members: seq<MemberStatus>) {
    forall i :: 0 <= i < |members| ==> Terminal(members[i])
  }

  /** No success can be recorded until somebody runs the group again. */
  ghost predicate Sealed(s: System) {
    s.row.Some? ==>
      && (Over(s.row.value.status) || AllTerminal(s.row.value.members))
      && forall r :: r in s.runners && s.runners[r].working ==>
           NoSuccessComes(s.runners[r]) && (s.row.value.status == GCanceled || AllRecorded(s.runners[r]))
  }

  /** A snapshot knows every recorded success. */
  ghost predicate Agrees(snapshot: seq<MemberStatus>, row: Option<Row>) {
    row.Some? ==>
      && |snapshot| == |row.value.members|
      && forall i :: 0 <= i < |snapshot| ==> (snapshot[i] == Succeeded <==> RecordedSucceeded(row, i))
  }

  /** The call reads when no success can come, and no other call is under way. */
  ghost predicate Careful(s: System, step: Step) {
    match step
    case RunNow => s.reruns == map[]
    case RunNowRead(_) => s.reruns == map[] && Sealed(s)
    case _ => true
  }

  ghost predicate CarefulRun(s: System, steps: seq<Step>) {
    forall k :: 0 <= k < |steps| ==> Careful(Exec(s, steps[..k]), steps[k])
  }

  ghost predicate Pending(s: System) {
    && (forall c, d :: c in s.reruns && d in s.reruns ==> c == d)
    && (forall c :: c in s.reruns ==> Agrees(s.reruns[c], s.row) && Sealed(s))
  }

  ghost predicate Recorded(s: System) {
    Pending(s) && forall r :: r in s.runners ==> Consistent(s.runners[r], s.row)
  }

  /** The tasks of a runner and the row agree. */
  ghost predicate Consistent(t: Runner, row: Option<Row>) {
    LeavesSucceeded(t, row) && RecordsFirst(t, row) && StatusFits(t, row)
  }

  // ------------------------------------------------------------ one step ---

  lemma TaskKeepsRecords(t: Runner, row: Option<Row>, i: nat, op: TaskOp)
    requires t.working ==> SessionsFail(t)
    requires LeavesSucceeded(t, row)
    ensures var (t', row') := TaskStep(t, row, i, op);
            && LeavesSucceeded(t', row')
            && row'.Some? == row.Some?
            && (forall j: nat :: RecordedSucceeded(row, j) ==> RecordedSucceeded(row', j))
            && (t'.launched == t.launched
                || (t'.launched == t.launched + [i] && row.Some? && !RecordedSucceeded(row, i)))
  {}

  lemma TaskKeepsConsistent(t: Runner, row: Option<Row>, i: nat, op: TaskOp)
    requires (t.working ==> SessionsFail(t)) && Consistent(t, row)
    ensures Consistent(TaskStep(t, row, i, op).0, TaskStep(t, row, i, op).1)
  {
    TaskKeepsRecords(t, row, i, op);
    TaskRecordsFirst(t, row, i, op);
    TaskKeepsStatus(t, row, i, op);
    hide TaskStep, LeavesSucceeded, RecordsFirst;
  }

  lemma TaskRecordsFirst(t: Runner, row: Option<Row>, i: nat, op: TaskOp)
    requires RecordsFirst(t, row)
    ensures RecordsFirst(TaskStep(t, row, i, op).0, TaskStep(t, row, i, op).1)
  {}

  lemma TaskKeepsStatus(t: Runner, row: Option<Row>, i: nat, op: TaskOp)
    ensures var (u, row') := TaskStep(t, row, i, op);
            && u.working == t.working && row'.Some? == row.Some?
            && (row.Some? ==> row'.value.status == row.value.status)
  {}

  /** In a canceled group a task that may not succeed records no success and stays so. */
  lemma TaskStaysHopeless(t: Runner, row: Option<Row>, i: nat, op: TaskOp)
    requires NoSuccessComes(t) && row.Some? && row.value.status == GCanceled
    ensures var (t', row') := TaskStep(t, row, i, op);
            && NoSuccessComes(t') && row'.Some? && row'.value.status == GCanceled
            && |row'.value.members| == |row.value.members|
            && forall j: nat :: RecordedSucceeded(row', j) ==> RecordedSucceeded(row, j)
  {}

  /** Where everything is recorded the tasks only leave. */
  lemma TaskOnlyLeaves(t: Runner, row: Option<Row>, i: nat, op: TaskOp)
    requires AllRecorded(t)
    ensures TaskStep(t, row, i, op).1 == row && AllRecorded(TaskStep(t, row, i, op).0)
  {}

  lemma RecordedIsHopeless(t: Runner)
    requires AllRecorded(t)
    ensures NoSuccessComes(t)
  {}

  /** The same successes on record: snapshots still agree. */
  lemma AgreesStill(snapshot: seq<MemberStatus>, row: Option<Row>, row': Option<Row>)
    requires Agrees(snapshot, row) && row.Some? == row'.Some?
    requires row.Some? ==> |row'.value.members| == |row.value.members|
    requires forall i: nat :: RecordedSucceeded(row', i) <==> RecordedSucceeded(row, i)
    ensures Agrees(snapshot, row')
  {}

  lemma MemberKeepsSealed(s: System, r: nat, i: nat, op: TaskOp, g0: Row)
    requires Good(s, g0) && Recorded(s) && Sealed(s) && s.row.Some?
    ensures var x := MemberStep(s, r, i, op);
            && Sealed(x) && x.row.Some? && |x.row.value.members| == |s.row.value.members|
            && forall j: nat :: RecordedSucceeded(x.row, j) <==> RecordedSucceeded(s.row, j)
  {
    if r in s.runners {
      var t := s.runners[r];
      if !t.working {
        IdleTask(t, s.row, i, op);
      } else if AllRecorded(t) {
        TaskOnlyLeaves(t, s.row, i, op);
        RecordedIsHopeless(TaskStep(t, s.row, i, op).0);
      } else {
        TaskKeepsRecords(t, s.row, i, op);
        TaskStaysHopeless(t, s.row, i, op);
      }
      hide TaskStep, RunnerOf, LeavesSucceeded, RecordsFirst, NoSuccessComes, AllRecorded, RecordedSucceeded, Pending;
    }
  }

  lemma MemberKeepsRecords(s: System, r: nat, i: nat, op: TaskOp, g0: Row)
    requires Good(s, g0) && Recorded(s)
    ensures Recorded(MemberStep(s, r, i, op)) && Absorbs(s, MemberStep(s, r, i, op))
  {
    var x := MemberStep(s, r, i, op);
    if r in s.runners {
      if s.runners[r].working {
        TaskKeepsRecords(s.runners[r], s.row, i, op);
        TaskKeepsConsistent(s.runners[r], s.row, i, op);
      } else {
        IdleTask(s.runners[r], s.row, i, op);
      }
    }
    hide TaskStep, RunnerOf, Consistent, RecordedSucceeded;
    forall c | c in s.reruns ensures Agrees(x.reruns[c], x.row) && Sealed(x) {
      if s.row.Some? {
        MemberKeepsSealed(s, r, i, op, g0);
        AgreesStill(s.reruns[c], s.row, x.row);
      }
    }
  }

  lemma RowChangeKeepsRecords(s: System, x: System)
    requires Recorded(s) && x.runners == s.runners && x.reruns == s.reruns
    requires s.row.Some? && x.row.Some? && x.row.value.members == s.row.value.members
    requires x.row == s.row || !Over(x.row.value.status) || x.row.value.status == GCanceled
    requires Over(x.row.value.status) || !Over(s.row.value.status)
    requires s.row.value.status == GCanceled ==> x.row.value.status == GCanceled
    ensures Recorded(x)
  {}

  lemma BeginKeepsRecords(s: System, r: nat, g0: Row)
    requires Good(s, g0) && Recorded(s)
    ensures Recorded(BeginStep(s, r)) && Absorbs(s, BeginStep(s, r))
  {
    var x := BeginStep(s, r);
    if r in s.runners && !s.runners[r].working && s.row.Some? && !Over(s.row.value.status) {
      var g := s.row.value;
      assert AllTerminal(g.members) ==> ToRun(g.members) == map[];
      assert Consistent(Begun(g), x.row);
    }
    hide RunnerOf, NoSuccessComes;
  }

  lemma AggregateKeepsRecords(s: System, r: nat, g0: Row)
    requires Good(s, g0) && Recorded(s)
    ensures Recorded(AggregateStep(s, r)) && Absorbs(s, AggregateStep(s, r))
  {
    hide RunnerOf, NoSuccessComes;
  }

  /** Writing back what the call read keeps what succeeded, if no other success came in between. */
  lemma RerunKeepsRecords(s: System, members: seq<MemberStatus>, x: System)
    requires s.row.Some? && Agrees(members, s.row)
    requires forall r :: r in s.runners ==> Consistent(s.runners[r], s.row)
    requires x.runners == s.runners && x.row == Some(Rerun(s.row.value, members)) && x.reruns == map[]
    requires x.launches == s.launches
    ensures Recorded(x) && Absorbs(s, x)
  {
    forall i: nat ensures RecordedSucceeded(x.row, i) <==> RecordedSucceeded(s.row, i) {
    }
  }

  lemma ApiKeepsRecords(s: System, step: Step, g0: Row)
    requires Good(s, g0) && Recorded(s) && Careful(s, step)
    requires step.RunNow? || step.RunNowRead? || step.RunNowCommit?
    ensures Recorded(Next(s, step)) && Absorbs(s, Next(s, step))
  {
    var x := Next(s, step);
    match step
    case RunNow =>
      if x != s { RerunKeepsRecords(s, s.row.value.members, x); }
    case RunNowRead(c) =>
    case RunNowCommit(c) =>
      if c in s.reruns {
        assert forall d :: d in s.reruns ==> d == c;
        assert (s.reruns - {c}).Keys == {};
        assert x.reruns == map[];
        if s.row.Some? { RerunKeepsRecords(s, s.reruns[c], x); }
      }
  }

  lemma StepKeepsRecords(s: System, step: Step, g0: Row)
    requires Good(s, g0) && Recorded(s) && Careful(s, step)
    ensures Recorded(Next(s, step)) && Absorbs(s, Next(s, step))
  {
    var x := Next(s, step);
    match step
    case Poll(_) => if s.row.Some? { RowChangeKeepsRecords(s, x); }
    case Cancel => if s.row.Some? { RowChangeKeepsRecords(s, x); }
    case Kick => hide NoSuccessComes, RunnerOf;
    case Begin(r) => BeginKeepsRecords(s, r, g0);
    case Member(r, i, op) => MemberKeepsRecords(s, r, i, op, g0);
    case Aggregate(r) => AggregateKeepsRecords(s, r, g0);
    case Delete => hide NoSuccessComes, RunnerOf;
    case Restart =>
    case Abort(r) => hide NoSuccessComes, RunnerOf;
    case Callback(r) =>
    case _ => ApiKeepsRecords(s, step, g0);
  }

  // ------------------------------------------------------------ over whole runs ---

  lemma {:induction false} CarefulRunsStayRecorded(s: System, steps: seq<Step>)
    requires Initial(s) && s.row.Some? && CarefulRun(s, steps)
    ensures Recorded(Exec(s, steps))
  {
    if steps != [] {
      var n := |steps| - 1;
      forall k | 0 <= k < n ensures Careful(Exec(s, steps[..n][..k]), steps[..n][k]) {
        assert steps[..n][..k] == steps[..k];
      }
      CarefulRunsStayRecorded(s, steps[..n]);
      RunsStayGood(s, steps[..n]);
      StepKeepsRecords(Exec(s, steps[..n]), steps[n], s.row.value);
    }
  }

  /** From `before` to `after` the success of member `i` was kept, and it was not launched. */
  ghost predicate KeptSuccess(before: System, after: System, i: nat) {
    && (after.row.None? || RecordedSucceeded(after.row, i))
    && before.launches <= after.launches
    && i !in after.launches[|before.launches|..]
  }

  lemma KeptOnceMore(before: System, mid: System, after: System, i: nat)
    requires KeptSuccess(before, mid, i) && Absorbs(mid, after)
    ensures KeptSuccess(before, after, i)
  {
    hide RecordedSucceeded;
  }

  /**
   * A member recorded as succeeded stays so until the row is deleted, and is never launched
   * again, whatever polls, kicks, cancels, completions, failures and restarts follow, and
   * whatever re-runs that are careful about what may come between their read and their write.
   */
  lemma {:induction false} SucceededIsAbsorbing(s: System, a: seq<Step>, b: seq<Step>, i: nat)
    requires Initial(s) && s.row.Some? && CarefulRun(s, a + b)
    requires RecordedSucceeded(Exec(s, a).row, i)
    ensures KeptSuccess(Exec(s, a), Exec(s, a + b), i)
  {
    hide Next, Good, Recorded, Initial, RecordedSucceeded, Careful, Absorbs;
    if b == [] {
      assert a + b == a;
    } else {
      var most := b[..|b| - 1];
      assert (a + b)[..|a + b| - 1] == a + most && (a + b)[|a + b| - 1] == b[|b| - 1];
      CarefulPrefix(s, a + b);
      SucceededIsAbsorbing(s, a, most, i);
      RunsStayGood(s, a + most);
      CarefulRunsStayRecorded(s, a + most);
      StepKeepsRecords(Exec(s, a + most), b[|b| - 1], s.row.value);
      KeptOnceMore(Exec(s, a), Exec(s, a + most), Exec(s, a + b), i);
    }
  }

  lemma CarefulPrefix(s: System, steps: seq<Step>)
    requires steps != [] && CarefulRun(s, steps)
    ensures CarefulRun(s, steps[..|steps| - 1])
    ensures Careful(Exec(s, steps[..|steps| - 1]), steps[|steps| - 1])
  {
    var n := |steps| - 1;
    forall k | 0 <= k < n ensures Careful(Exec(s, steps[..n][..k]), steps[..n][k]) {
      assert steps[..n][..k] == steps[..k];
    }
  }

  predicate Straddles(step: Step) {
    step.RunNowRead?
  }

  lemma NoCallComes(s: System, step: Step)
    requires s.reruns == map[] && !Straddles(step)
    ensures Next(s, step).reruns == map[]
  {
    hide TaskStep, ToRun, Reset;
  }

  /** In particular where no re-run call is interrupted between its read and its write. */
  lemma {:induction false} UninterruptedRerunsAreCareful(s: System, steps: seq<Step>)
    requires Initial(s) && forall k :: 0 <= k < |steps| ==> !Straddles(steps[k])
    ensures CarefulRun(s, steps) && Exec(s, steps).reruns == map[]
  {
    hide Next;
    if steps != [] {
      var n := |steps| - 1;
      UninterruptedRerunsAreCareful(s, steps[..n]);
      NoCallComes(Exec(s, steps[..n]), steps[n]);
      CarefulOnceMore(s, steps);
    }
  }

  lemma CarefulOnceMore(s: System, steps: seq<Step>)
    requires steps != [] && CarefulRun(s, steps[..|steps| - 1])
    requires Careful(Exec(s, steps[..|steps| - 1]), steps[|steps| - 1])
    ensures CarefulRun(s, steps)
  {
    var n := |steps| - 1;
    hide Careful, Exec;
    forall k | 0 <= k < n ensures Careful(Exec(s, steps[..k]), steps[k]) {
      assert steps[..n][..k] == steps[..k] && steps[..n][k] == steps[k];
    }
  }

  // ------------------------------------------------------------ when a re-run forgets ---

  /**
   * A success of member `i` can still be recorded before the call that reads now writes: its
   * migration is under way, or the group is not over and the member may be run yet.
   */
  ghost predicate SuccessMayCome(s: System, i: nat) {
    && s.row.Some? && i < |s.row.value.members| && s.row.value.members[i] != Succeeded
    && ((exists r :: r in s.runners && s.runners[r].working
                     && i in s.runners[r].tasks && MaySucceed(s.runners[r].tasks[i]))
        || (!Over(s.row.value.status) && !Terminal(s.row.value.members[i])))
  }

  /** Steps of everybody but re-run calls. */
  predicate Quiet(steps: seq<Step>) {
    forall k :: 0 <= k < |steps| ==> !steps[k].RunNow? && !steps[k].RunNowRead? && !steps[k].RunNowCommit?
  }

  /** Call `c` reads in `s`, the steps follow, and then its write takes a recorded success away. */
  ghost predicate Forgets(s: System, c: nat, steps: seq<Step>) {
    var x := Exec(RunNowReadStep(s, c), steps);
    && x.row.Some? && c in x.reruns
    && exists i: nat :: RecordedSucceeded(x.row, i) && !RecordedSucceeded(RunNowCommitStep(x, c).row, i)
  }

  lemma NoSuccessMeansSealed(s: System, g0: Row)
    requires Good(s, g0) && Recorded(s) && s.row.Some?
    requires forall i: nat :: !SuccessMayCome(s, i)
    ensures Sealed(s)
  {
    var (members, status) := (s.row.value.members, s.row.value.status);
    if !Over(status) {
      forall i | 0 <= i < |members| ensures Terminal(members[i]) {
        assert !SuccessMayCome(s, i);
      }
    }
    forall r | r in s.runners && s.runners[r].working
      ensures NoSuccessComes(s.runners[r]) && (status == GCanceled || AllRecorded(s.runners[r]))
    {
      assert Consistent(s.runners[r], s.row) && RunnerOf(s.runners[r], g0, true);
      RunnerIsSealed(s, r, g0);
    }
    hide RunnerOf, Consistent, SuccessMayCome;
  }

  lemma RunnerIsSealed(s: System, r: nat, g0: Row)
    requires s.row.Some? && r in s.runners && s.runners[r].working
    requires |s.row.value.members| == |g0.members|
    requires Consistent(s.runners[r], s.row) && RunnerOf(s.runners[r], g0, true)
    requires forall i: nat :: !SuccessMayCome(s, i)
    ensures NoSuccessComes(s.runners[r]) && (s.row.value.status == GCanceled || AllRecorded(s.runners[r]))
  {
    var t := s.runners[r];
    forall i | i in t.tasks
      ensures !MaySucceed(t.tasks[i]) && (s.row.value.status == GCanceled || !BeforeRecord(t.tasks[i]))
    {
      assert !SuccessMayCome(s, i);
    }
  }

  lemma {:induction false} QuietStepsKeepTheCall(s: System, c: nat, steps: seq<Step>, g0: Row)
    requires Good(s, g0) && Recorded(s) && Quiet(steps)
    ensures var x := Exec(s, steps);
            Good(x, g0) && Recorded(x) && (c in x.reruns ==> c in s.reruns && x.reruns[c] == s.reruns[c])
  {
    hide Good, Recorded, Next;
    if steps != [] {
      var n := |steps| - 1;
      QuietStepsKeepTheCall(s, c, steps[..n], g0);
      StepKeepsGood(Exec(s, steps[..n]), steps[n], g0);
      StepKeepsRecords(Exec(s, steps[..n]), steps[n], g0);
      QuietStepKeepsTheCall(Exec(s, steps[..n]), c, steps[n]);
    }
  }

  lemma QuietStepKeepsTheCall(s: System, c: nat, step: Step)
    requires Quiet([step])
    ensures c in Next(s, step).reruns ==> c in s.reruns && Next(s, step).reruns[c] == s.reruns[c]
  {
    assert [step][0] == step;
    hide TaskStep, ToRun;
  }

  lemma SealedReadForgetsNothing(s: System, c: nat, steps: seq<Step>, g0: Row)
    requires Good(s, g0) && Recorded(s) && s.reruns == map[] && Sealed(s) && Quiet(steps)
    requires s.row.Some? && !Refuses(s.row.value.status)
    ensures !Forgets(s, c, steps)
  {
    var read := RunNowReadStep(s, c);
    StepKeepsGood(s, RunNowRead(c), g0);
    StepKeepsRecords(s, RunNowRead(c), g0);
    QuietStepsKeepTheCall(read, c, steps, g0);
    var x := Exec(read, steps);
    hide Good, Exec, Sealed;
  }
}
