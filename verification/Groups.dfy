/**
 * Migration groups: the group's row in the database, the runners of one process that work on
 * it, the scheduler's table of live runners, and the API calls that interfere.
 *
 * Every session block and every stretch of code between two awaits is one step, and steps of
 * different tasks interleave in any order. The scheduler's table is keyed by group and groups
 * share nothing, so the model follows one group.
 */
module Groups {
  import opened Wrappers

  // -------------------------------------------------------------------- state ---

  datatype MemberStatus = Pending | Running | Succeeded | Failed | RolledBack | Skipped

  datatype GroupStatus =
    | GScheduled | GPending | GRunning | GSucceeded | GFailed | GPartial | GCanceled

  datatype Row = Row(status: GroupStatus, members: seq<MemberStatus>, concurrency: int, continueOnError: bool)

  predicate Terminal(st: MemberStatus) {
    st == Succeeded || st == Failed || st == RolledBack || st == Skipped
  }

  predicate Over(st: GroupStatus) {
    st == GSucceeded || st == GFailed || st == GPartial || st == GCanceled
  }

  /**
   * Where a member's task is. From `Gate` to `Finishing` it holds a slot of the semaphore.
   *
   * A task that records its result goes on without an await: it gives the lock of the member
   * list back, sets the stop and leaves its slot (`Finishing`). Where the launch itself is
   * refused it returns out of an open session, which closes only after the lock was given back
   * (`Closing`), and so it does when the row is gone and there is nothing to record.
   */
  datatype Task =
    | Queued
    | Gate                                               // has a slot, saw no stop, asks whether to go on
    | Launching
    | Marking                                            // launched, records "running"
    | Polling
    | Recording(result: MemberStatus, inSession: bool)   // has a result, records it
    | Closing(result: MemberStatus)                      // recorded, lock given back, session closing
    | Finishing(result: MemberStatus)                    // recorded, still holds the lock
    | Finished(result: MemberStatus)
    | Crashed                                            // the cancel check itself failed

  /** The first member a runner recorded as neither succeeded nor skipped. */
  datatype FirstFailure = FirstFailure(index: nat, refused: bool)

  datatype Runner = Runner(
    working: bool,            // the first session block is done
    tasks: map<nat, Task>,
    limit: nat,               // slots of the semaphore
    free: nat,
    keepGoing: bool,
    stop: bool,
    lock: Option<nat>,        // the task that holds the lock of the member list
    first: Option<FirstFailure>,
    launched: seq<nat>,
    late: nat,                // launches since `stop` was set
    since: nat,               // launches since the first failure was recorded
    results: seq<MemberStatus>)

  /**
   * `kicks` counts the polls and re-runs that have decided to start a runner and not yet done
   * so; `reruns` has what re-run calls under way have read; `launches` is the history of
   * launched members over all runners and restarts.
   */
  datatype System = System(
    row: Option<Row>,
    runners: map<nat, Runner>,
    active: Option<nat>,
    kicks: nat,
    reruns: map<nat, seq<MemberStatus>>,
    callbacks: set<nat>,
    nextId: nat,
    launches: seq<nat>,
    atomicDone: bool)

  // --------------------------------------------------------------- member task ---

  datatype LaunchResult = Started | Refused | Broken

  datatype Report = StillRunning | Ended(result: MemberStatus) | Lost

  /** What a task does between two awaits, and what it meets there. */
  datatype TaskOp =
    | Acquire
    | CheckCanceled(raises: bool)
    | Launch(outcome: LaunchResult)
    | Mark(durable: bool)
    | Look(report: Report)
    | Record(durable: bool)
    | Leave

  /** `_group_update_member`: durable, or given up after three attempts. */
  function Write(row: Option<Row>, i: nat, st: MemberStatus, durable: bool): Option<Row> {
    if row.Some? && durable && i < |row.value.members| then
      Some(row.value.(members := row.value.members[i := st]))
    else
      row
  }

  function At(t: Runner, i: nat, task: Task): Runner {
    t.(tasks := t.tasks[i := task])
  }

  /** A step of member `i`'s task; an operation that is not the task's next one does nothing. */
  function TaskStep(t: Runner, row: Option<Row>, i: nat, op: TaskOp): (Runner, Option<Row>) {
    if !t.working || i !in t.tasks then
      (t, row)
    else
      match t.tasks[i]
      case Queued =>
        if !op.Acquire? || t.free == 0 then (t, row)
        else (At(t, i, if t.stop then Recording(Skipped, false) else Gate).(free := t.free - 1), row)
      case Gate =>
        if !op.CheckCanceled? then (t, row)
        else if op.raises then (At(t, i, Crashed).(free := t.free + 1), row)
        else if row.Some? && row.value.status == GCanceled then (At(t, i, Recording(Skipped, false)), row)
        else (At(t, i, Launching), row)
      case Launching =>
        if !op.Launch? then (t, row)
        else if op.outcome == Broken then (At(t, i, Recording(Failed, false)), row)
        else if row.None? then (At(t, i, Closing(Failed)), row)
        else (Launched(At(t, i, if op.outcome == Started then Marking else Recording(Failed, true)), i), row)
      case Marking =>
        if !op.Mark? || t.lock.Some? then (t, row)
        else (At(t, i, Polling), Write(row, i, Running, op.durable))
      case Polling =>
        if !op.Look? || op.report == StillRunning then (t, row)
        else (At(t, i, Recording(ResultOf(op.report), false)), row)
      case Recording(st, inSession) =>
        if !op.Record? || t.lock.Some? then (t, row)
        else
          (Noted(At(t, i, if inSession then Closing(st) else Finishing(st)), i, st, inSession)
             .(lock := if inSession then None else Some(i)),
           Write(row, i, st, op.durable))
      case Closing(st) =>
        if !op.Leave? then (t, row) else (Left(t, i, st), row)
      case Finishing(st) =>
        if !op.Leave? then (t, row) else (Left(t, i, st).(lock := None), row)
      case _ => (t, row)
  }

  function ResultOf(report: Report): MemberStatus {
    if report.Ended? && (report.result == Succeeded || report.result == RolledBack) then report.result else Failed
  }

  function Launched(t: Runner, i: nat): Runner {
    t.(launched := t.launched + [i],
       late := if t.stop then t.late + 1 else t.late,
       since := if t.first.Some? then t.since + 1 else t.since)
  }

  /** A result is recorded; the first non-success is remembered. */
  function Noted(t: Runner, i: nat, st: MemberStatus, refused: bool): Runner {
    if t.first.None? && Fails(st) then t.(first := Some(FirstFailure(i, refused))) else t
  }

  predicate Fails(st: MemberStatus) {
    st != Succeeded && st != Skipped
  }

  /** A result that makes the group stop: a non-success, unless the group continues on errors. */
  predicate Stops(t: Runner, st: MemberStatus) {
    Fails(st) && !t.keepGoing
  }

  /** The task leaves its slot, and stops the group if its result does. */
  function Left(t: Runner, i: nat, st: MemberStatus): Runner {
    At(t, i, Finished(st)).(
      free := t.free + 1,
      stop := t.stop || Stops(t, st),
      late := if t.stop then t.late else 0,
      results := t.results + [st])
  }

  predicate Done(task: Task) {
    task.Finished? || task.Crashed?
  }

  // ------------------------------------------------------------ runner and API ---

  datatype Step =
    | Poll(due: bool)                        // the scheduler reads the row
    | Kick                                   // a poll or a re-run starts a runner
    | RunNow                                 // a re-run call that nothing else interrupts
    | RunNowRead(call: nat)                  // or one that reads the members
    | RunNowCommit(call: nat)                // and later writes them back
    | Cancel
    | Delete
    | Restart                                // the process stops and starts again
    | Begin(runner: nat)                     // the runner's first session block
    | Member(runner: nat, index: nat, op: TaskOp)
    | Aggregate(runner: nat)                 // the runner's last session block
    | Abort(runner: nat)                     // the first or last session block raises
    | Callback(runner: nat)                  // the done-callback, where it is a step of its own

  const IDLE := Runner(false, map[], 1, 1, false, false, None, None, [], 0, 0, [])

  /** `kick`: a new runner unless the one on record is live. */
  function KickOff(s: System): System {
    if s.active.Some? && s.active.value in s.runners then
      s
    else
      s.(runners := s.runners[s.nextId := IDLE], active := Some(s.nextId), nextId := s.nextId + 1)
  }

  /** The runner returns; its done-callback takes the group's entry out of the table. */
  function Return(s: System, r: nat): System {
    if s.atomicDone then
      s.(runners := s.runners - {r}, active := None)
    else
      s.(runners := s.runners - {r}, callbacks := s.callbacks + {r})
  }

  function Reset(members: seq<MemberStatus>): (after: seq<MemberStatus>)
    ensures |after| == |members|
    ensures forall i :: 0 <= i < |members| ==> after[i] == if members[i] == Succeeded then Succeeded else Pending
  {
    seq(|members|, i requires 0 <= i < |members| => if members[i] == Succeeded then Succeeded else Pending)
  }

  function WithStatus(s: System, st: GroupStatus): System
    requires s.row.Some?
  {
    s.(row := Some(s.row.value.(status := st)))
  }

  function ToRun(members: seq<MemberStatus>): map<nat, Task> {
    map i: nat | i < |members| && !Terminal(members[i]) :: Queued
  }

  function Max(a: int, b: int): int {
    if a < b then b else a
  }

  function BeginStep(s: System, r: nat): System {
    if r !in s.runners || s.runners[r].working then
      s
    else if s.row.None? || Over(s.row.value.status) then
      Return(s, r)
    else
      WithStatus(s, GRunning).(runners := s.runners[r := Begun(s.row.value)])
  }

  /** A runner that has read the row. */
  function Begun(g: Row): Runner {
    var limit := Max(1, g.concurrency);
    IDLE.(working := true, tasks := ToRun(g.members), limit := limit, free := limit, keepGoing := g.continueOnError)
  }

  function Verdict(members: seq<MemberStatus>): GroupStatus {
    if members != [] && forall i :: 0 <= i < |members| ==> members[i] == Succeeded then
      GSucceeded
    else if forall i :: 0 <= i < |members| ==>
              members[i] == Failed || members[i] == RolledBack || members[i] == Skipped then
      GFailed
    else
      GPartial
  }

  predicate AllDone(t: Runner) {
    t.working && forall i :: i in t.tasks ==> Done(t.tasks[i])
  }

  function AggregateStep(s: System, r: nat): System {
    if r !in s.runners || !AllDone(s.runners[r]) then
      s
    else if s.row.None? || s.row.value.status == GCanceled then
      Return(s, r)
    else
      Return(WithStatus(s, Verdict(s.row.value.members)), r)
  }

  function MemberStep(s: System, r: nat, i: nat, op: TaskOp): System {
    if r !in s.runners then
      s
    else
      var t := s.runners[r];
      var (t', row) := TaskStep(t, s.row, i, op);
      s.(runners := s.runners[r := t'], row := row,
         launches := if t'.launched != t.launched then s.launches + [i] else s.launches)
  }

  /** The half of a scheduler pass before its commit: which groups are to be kicked. */
  function PollStep(s: System, due: bool): System {
    if s.row.None? || Over(s.row.value.status) then
      s
    else if s.active.Some? && s.active.value in s.runners then
      s
    else if s.row.value.status == GScheduled then
      if due then WithStatus(s, GPending).(kicks := s.kicks + 1) else s
    else
      s.(kicks := s.kicks + 1)
  }

  function KickStep(s: System): System {
    if s.kicks == 0 then s else KickOff(s.(kicks := s.kicks - 1))
  }

  /** The statuses a re-run call is refused for. */
  predicate Refuses(st: GroupStatus) {
    st == GRunning || st == GSucceeded
  }

  function Rerun(g: Row, members: seq<MemberStatus>): Row {
    g.(members := Reset(members), status := GPending)
  }

  function RunNowStep(s: System): System {
    if s.row.None? || Refuses(s.row.value.status) then
      s
    else
      s.(row := Some(Rerun(s.row.value, s.row.value.members)), kicks := s.kicks + 1)
  }

  function RunNowReadStep(s: System, c: nat): System {
    if s.row.None? || Refuses(s.row.value.status) then
      s
    else
      s.(reruns := s.reruns[c := s.row.value.members])
  }

  function RunNowCommitStep(s: System, c: nat): System {
    if c !in s.reruns then
      s
    else if s.row.None? then
      s.(reruns := s.reruns - {c})
    else
      s.(row := Some(Rerun(s.row.value, s.reruns[c])), kicks := s.kicks + 1, reruns := s.reruns - {c})
  }

  function CancelStep(s: System): System {
    if s.row.None? || Over(s.row.value.status) then s else WithStatus(s, GCanceled)
  }

  function DeleteStep(s: System): System {
    if s.row.None? || s.row.value.status == GRunning then s else s.(row := None)
  }

  function Next(s: System, step: Step): System {
    match step
    case Poll(due) => PollStep(s, due)
    case Kick => KickStep(s)
    case RunNow => RunNowStep(s)
    case RunNowRead(c) => RunNowReadStep(s, c)
    case RunNowCommit(c) => RunNowCommitStep(s, c)
    case Cancel => CancelStep(s)
    case Delete => DeleteStep(s)
    case Restart => s.(runners := map[], active := None, kicks := 0, reruns := map[], callbacks := {})
    case Begin(r) => BeginStep(s, r)
    case Member(r, i, op) => MemberStep(s, r, i, op)
    case Aggregate(r) => AggregateStep(s, r)
    case Abort(r) =>
      if r in s.runners && (!s.runners[r].working || AllDone(s.runners[r])) then Return(s, r) else s
    case Callback(r) =>
      if r in s.callbacks then s.(active := None, callbacks := s.callbacks - {r}) else s
  }

  function Exec(s: System, steps: seq<Step>): System {
    if steps == [] then s else Next(Exec(s, steps[..|steps| - 1]), steps[|steps| - 1])
  }

  /** A process has just started; the row may be anything. */
  predicate Initial(s: System) {
    && s.runners == map[] && s.active.None? && s.kicks == 0 && s.reruns == map[]
    && s.callbacks == {} && s.launches == []
    && s.atomicDone
  }

  lemma {:induction false} ExecConcat(s: System, a: seq<Step>, b: seq<Step>)
    ensures Exec(s, a + b) == Exec(Exec(s, a), b)
  {
    if b == [] {
      assert a + b == a;
    } else {
      var n := |b| - 1;
      assert (a + b)[..|a + b| - 1] == a + b[..n];
      ExecConcat(s, a, b[..n]);
    }
  }

  /** One step more, from a state already worked out. */
  lemma Then(s: System, steps: seq<Step>, now: System, step: Step) returns (more: seq<Step>)
    requires Exec(s, steps) == now
    ensures more == steps + [step] && Exec(s, more) == Next(now, step)
  {
    more := steps + [step];
    assert more[..|steps|] == steps;
  }

  lemma ThenTo(s: System, steps: seq<Step>, now: System, step: Step, next: System) returns (more: seq<Step>)
    requires Exec(s, steps) == now && Next(now, step) == next
    ensures more == steps + [step] && Exec(s, more) == next
  {
    more := Then(s, steps, now, step);
  }

  lemma FirstStep(s: System, step: Step, rest: seq<Step>)
    ensures Exec(s, [step] + rest) == Exec(Next(s, step), rest)
  {
    ExecConcat(s, [step], rest);
    assert Exec(s, [step]) == Next(s, step) by {
      assert [step][..0] == [];
    }
  }

  /** A run of one step. */
  lemma Start(s: System, step: Step, next: System)
    requires Next(s, step) == next
    ensures Exec(s, [step]) == next
  {
    assert [step][..0] == [];
  }
}
