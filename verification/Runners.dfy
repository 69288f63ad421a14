/** What one runner of a group keeps in every interleaving of its tasks. */
module Runners {
  import opened Wrappers
  import opened Groups

  // ------------------------------------------------------------ counting tasks ---

  predicate Holding(task: Task) {
    !task.Queued? && !Done(task)
  }

  /** Between the slot and the launch. */
  predicate Entering(task: Task) {
    task.Gate? || task.Launching?
  }

  /** Between the launch and the terminal result. */
  predicate InFlight(task: Task) {
    task.Launching? || task.Marking? || task.Polling? || task.Recording?
  }

  function Stage(task: Task): nat {
    match task
    case Queued => 0
    case Gate => 1
    case Launching => 2
    case Marking => 3
    case Polling => 4
    case Recording(_, _) => 5
    case Closing(_) => 6
    case Finishing(_) => 6
    case Finished(_) => 7
    case Crashed => 7
  }

  /** What moves a task on, and to a success where it can. */
  function Onward(task: Task): TaskOp {
    match task
    case Queued => Acquire
    case Gate => CheckCanceled(false)
    case Launching => Launch(Started)
    case Marking => Mark(true)
    case Polling => Look(Ended(Succeeded))
    case Recording(_, _) => Record(true)
    case _ => Leave
  }

  function Where(tasks: map<nat, Task>, p: Task -> bool): set<nat> {
    set i | i in tasks && p(tasks[i])
  }

  function One(b: bool): nat {
    if b then 1 else 0
  }

  lemma MovedCount(tasks: map<nat, Task>, p: Task -> bool, i: nat, task: Task)
    requires i in tasks
    ensures |Where(tasks[i := task], p)| == |Where(tasks, p)| - One(p(tasks[i])) + One(p(task))
  {
    var rest := Where(tasks, p) - {i};
    assert Where(tasks, p) == if p(tasks[i]) then rest + {i} else rest;
    assert Where(tasks[i := task], p) == if p(task) then rest + {i} else rest;
  }

  /** A task that holds its slot and is past the launch is one more than those entering. */
  lemma EnteringBesides(tasks: map<nat, Task>, i: nat)
    ensures |Where(tasks, Entering)| <= |Where(tasks, Holding)|
    ensures i in tasks && Holding(tasks[i]) && !Entering(tasks[i]) ==>
              |Where(tasks, Entering)| + 1 <= |Where(tasks, Holding)|
  {
    SubsetIsSmaller(Where(tasks, Entering), Where(tasks, Holding));
    if i in tasks && Holding(tasks[i]) && !Entering(tasks[i]) {
      SubsetIsSmaller(Where(tasks, Entering) + {i}, Where(tasks, Holding));
    }
  }

  // ------------------------------------------------------------ slots and launches ---

  predicate NoRepeats(s: seq<nat>) {
    forall j, k :: 0 <= j < k < |s| ==> s[j] != s[k]
  }

  predicate SlotsAccounted(t: Runner) {
    t.limit >= 1 && |Where(t.tasks, Holding)| + t.free == t.limit
  }

  /** Nothing is launched twice. */
  predicate LaunchedOnce(t: Runner) {
    && NoRepeats(t.launched)
    && (forall i :: i in t.tasks && (t.tasks[i].Queued? || Entering(t.tasks[i])) ==> i !in t.launched)
    && (forall k :: 0 <= k < |t.launched| ==> t.launched[k] in t.tasks)
  }

  /** Once the group stops, only members that already hold a slot still launch. */
  predicate FewStragglers(t: Runner) {
    t.stop ==> t.late + |Where(t.tasks, Entering)| <= t.limit - 1
  }

  lemma SlotsStayAccounted(t: Runner, row: Option<Row>, i: nat, op: TaskOp)
    requires SlotsAccounted(t)
    ensures SlotsAccounted(TaskStep(t, row, i, op).0)
  {
    hide Where;
    var t' := TaskStep(t, row, i, op).0;
    if t' != t {
      MovedCount(t.tasks, Holding, i, t'.tasks[i]);
    }
  }

  /** A step moves one task at most. */
  lemma StepMoves(t: Runner, row: Option<Row>, i: nat, op: TaskOp)
    ensures var u := TaskStep(t, row, i, op).0;
            u == t || (i in t.tasks && i in u.tasks && u.tasks == t.tasks[i := u.tasks[i]])
  {}

  /** Never back to before the launch, and a stop is for good. */
  lemma StepAdvances(t: Runner, row: Option<Row>, i: nat, op: TaskOp)
    requires i in t.tasks
    ensures var u := TaskStep(t, row, i, op).0;
            && i in u.tasks
            && (!(t.tasks[i].Queued? || Entering(t.tasks[i])) ==> !(u.tasks[i].Queued? || Entering(u.tasks[i])))
            && (t.stop ==> u.stop)
            && (u.working, u.limit, u.keepGoing) == (t.working, t.limit, t.keepGoing)
  {}

  /** How a step changes the launches: by nothing, or by the launch of its own member. */
  lemma StepLaunches(t: Runner, row: Option<Row>, i: nat, op: TaskOp)
    ensures var u := TaskStep(t, row, i, op).0;
            if i in t.tasks && t.tasks[i].Launching? && u.launched != t.launched then
              && u.launched == t.launched + [i] && row.Some?
              && u.late == t.late + One(t.stop) && u.since == t.since + One(t.first.Some?)
            else
              u.launched == t.launched && u.since == t.since && (t.stop ==> u.late == t.late)
  {}

  /** The first failure is recorded once, by a task that is past its launch. */
  lemma StepFails(t: Runner, row: Option<Row>, i: nat, op: TaskOp)
    ensures var u := TaskStep(t, row, i, op).0;
            if u.first == t.first then
              i in t.tasks && PastLaunch(t.tasks[i]) ==> PastLaunch(u.tasks[i])
            else
              && t.first.None? && u.first.Some? && u.first.value.index == i && u.launched == t.launched
              && i in t.tasks && PastLaunch(u.tasks[i])
  {}

  lemma LaunchEnds(t: Runner, row: Option<Row>, i: nat, op: TaskOp)
    requires i in t.tasks
    ensures var u := TaskStep(t, row, i, op).0;
            u.launched != t.launched ==> !(u.tasks[i].Queued? || Entering(u.tasks[i]))
  {}

  lemma LaunchedStaysOnce(t: Runner, row: Option<Row>, i: nat, op: TaskOp)
    requires LaunchedOnce(t)
    ensures LaunchedOnce(TaskStep(t, row, i, op).0)
  {
    StepMoves(t, row, i, op);
    StepLaunches(t, row, i, op);
    if i in t.tasks {
      StepAdvances(t, row, i, op);
      LaunchEnds(t, row, i, op);
    }
    hide TaskStep;
  }

  lemma StragglersStayFew(t: Runner, row: Option<Row>, i: nat, op: TaskOp)
    requires SlotsAccounted(t) && FewStragglers(t)
    ensures FewStragglers(TaskStep(t, row, i, op).0)
  {
    hide Where;
    var t' := TaskStep(t, row, i, op).0;
    if t' != t {
      MovedCount(t.tasks, Entering, i, t'.tasks[i]);
      MovedCount(t.tasks, Holding, i, t'.tasks[i]);
      EnteringBesides(t'.tasks, i);
    }
  }

  // ------------------------------------------------------------ after the first failure ---

  /** The lock of the member list is held from the record to the end of the slot. */
  predicate LockFits(t: Runner) {
    && (forall i :: i in t.tasks && t.tasks[i].Finishing? ==> t.lock == Some(i))
    && (t.lock.Some? ==> t.lock.value in t.tasks && t.tasks[t.lock.value].Finishing?)
  }

  /** Results on their way that were recorded, or are to be recorded, out of an open session. */
  predicate SessionsFail(t: Runner) {
    forall i :: i in t.tasks ==>
      && (t.tasks[i].Recording? && t.tasks[i].inSession ==> t.tasks[i].result == Failed)
      && (t.tasks[i].Closing? ==> t.tasks[i].result == Failed)
  }

  predicate PastLaunch(task: Task) {
    task.Closing? || task.Finishing? || task.Finished?
  }

  /** What is launched since the first failure are other members. */
  predicate FirstFits(t: Runner) {
    && t.since <= |t.launched|
    && (t.first.None? ==> t.since == 0)
    && (t.first.Some? ==>
          && t.first.value.index in t.tasks && PastLaunch(t.tasks[t.first.value.index])
          && forall k :: |t.launched| - t.since <= k < |t.launched| ==> t.launched[k] != t.first.value.index)
  }

  /**
   * A first failure that stops the group before anybody else's slot is given away: it was not
   * a refused launch, or it has the only slot.
   */
  predicate Prompt(t: Runner) {
    t.first.Some? && !t.keepGoing && (!t.first.value.refused || t.limit == 1)
  }

  /** Between the record of the first failure and the stop, no other slot is given back. */
  predicate Window(t: Runner) {
    t.first.Some? && t.first.value.index in t.tasks &&
    var f := t.first.value.index;
    && (if t.first.value.refused then t.tasks[f].Closing? else t.tasks[f].Finishing?)
    && (t.tasks[f].Closing? || t.tasks[f].Finishing? ==> Stops(t, t.tasks[f].result))
    && (forall i :: i in t.tasks && t.tasks[i].Closing? ==> i == f)
  }

  predicate Bounded(t: Runner, alive: bool) {
    if alive && !t.stop then Window(t) && t.since + |Where(t.tasks, Entering)| + t.free <= t.limit - 1
    else if alive then t.since + |Where(t.tasks, Entering)| <= t.limit - 1
    else t.since <= t.limit - 1
  }

  /** No non-success is recorded, or on its way out of its slot. */
  predicate Untroubled(t: Runner) {
    && !t.stop
    && forall i :: i in t.tasks && (t.tasks[i].Closing? || t.tasks[i].Finishing?) ==> !Fails(t.tasks[i].result)
  }

  /** `alive`: the row still exists; without it nothing is launched any more. */
  predicate FirstFailureBinds(t: Runner, alive: bool) {
    && LockFits(t) && SessionsFail(t) && FirstFits(t)
    && (alive && t.first.None? ==> Untroubled(t))
    && (Prompt(t) ==> Bounded(t, alive))
  }

  lemma LockStaysFit(t: Runner, row: Option<Row>, i: nat, op: TaskOp)
    requires LockFits(t)
    ensures LockFits(TaskStep(t, row, i, op).0)
  {
    StepMoves(t, row, i, op);
  }

  lemma SessionsStayFailing(t: Runner, row: Option<Row>, i: nat, op: TaskOp)
    requires SessionsFail(t)
    ensures SessionsFail(TaskStep(t, row, i, op).0)
  {
    StepMoves(t, row, i, op);
  }

  lemma FirstStaysFit(t: Runner, row: Option<Row>, i: nat, op: TaskOp)
    requires LaunchedOnce(t) && FirstFits(t)
    ensures FirstFits(TaskStep(t, row, i, op).0)
  {
    StepMoves(t, row, i, op);
    StepLaunches(t, row, i, op);
    StepFails(t, row, i, op);
    if i in t.tasks {
      StepAdvances(t, row, i, op);
      assert t.tasks[i].Launching? ==> !PastLaunch(t.tasks[i]);
    }
    hide TaskStep, PastLaunch;
  }

  lemma StaysUntroubled(t: Runner, row: Option<Row>, i: nat, op: TaskOp)
    requires SessionsFail(t) && row.Some? && t.first.None? && Untroubled(t)
    ensures var u := TaskStep(t, row, i, op).0;
            u.first.None? ==> Untroubled(u)
  {}

  lemma OneHolder(t: Runner, i: nat, j: nat)
    requires SlotsAccounted(t) && t.limit == 1
    requires i in t.tasks && j in t.tasks && Holding(t.tasks[i]) && Holding(t.tasks[j])
    ensures i == j
  {
    if i != j {
      assert {i, j} <= Where(t.tasks, Holding);
      SubsetIsSmaller({i, j}, Where(t.tasks, Holding));
    }
  }

  /** The first failure finds all other slots accounted for. */
  lemma FirstIsBounded(t: Runner, row: Option<Row>, i: nat, op: TaskOp)
    requires SlotsAccounted(t) && SessionsFail(t) && t.first.None? && t.since == 0 && i in t.tasks
    requires row.Some? ==> Untroubled(t)
    ensures var u := TaskStep(t, row, i, op).0;
            Prompt(u) ==> Bounded(u, row.Some?)
  {
    hide Where;
    var u := TaskStep(t, row, i, op).0;
    if u.first.Some? {
      MovedCount(t.tasks, Entering, i, u.tasks[i]);
      EnteringBesides(t.tasks, i);
    }
  }

  /** In the window a slot is taken by an entering task, or returned by one that crashed. */
  lemma WindowBalances(t: Runner, row: Option<Row>, i: nat, op: TaskOp)
    requires i in t.tasks && Window(t) && !t.stop && row.Some? && !t.tasks[i].Closing? && !t.tasks[i].Finishing?
    ensures var u := TaskStep(t, row, i, op).0;
            !u.stop && u.since + |Where(u.tasks, Entering)| + u.free <= t.since + |Where(t.tasks, Entering)| + t.free
  {
    hide Where;
    var u := TaskStep(t, row, i, op).0;
    if u != t {
      MovedCount(t.tasks, Entering, i, u.tasks[i]);
    }
  }

  lemma WindowStays(t: Runner, row: Option<Row>, i: nat, op: TaskOp)
    requires i in t.tasks && Window(t) && LockFits(t) && row.Some? && !t.stop && i != t.first.value.index
    requires t.first.value.refused ==> !t.tasks[i].Recording?
    ensures Window(TaskStep(t, row, i, op).0)
  {
  }

  /** The member that failed first leaves its slot, and stops the group. */
  lemma WindowCloses(t: Runner, row: Option<Row>, op: TaskOp)
    requires Window(t) && !t.stop
    ensures var u := TaskStep(t, row, t.first.value.index, op).0;
            u == t || (u.stop && u.since == t.since && |Where(u.tasks, Entering)| == |Where(t.tasks, Entering)|)
  {
    hide Where;
    var i := t.first.value.index;
    var u := TaskStep(t, row, i, op).0;
    if u != t {
      MovedCount(t.tasks, Entering, i, u.tasks[i]);
    }
  }

  lemma StoppedBalances(t: Runner, row: Option<Row>, i: nat, op: TaskOp)
    requires t.stop && i in t.tasks
    ensures var u := TaskStep(t, row, i, op).0;
            u.stop && u.since + |Where(u.tasks, Entering)| <= t.since + |Where(t.tasks, Entering)|
  {
    hide Where;
    var u := TaskStep(t, row, i, op).0;
    if u != t {
      MovedCount(t.tasks, Entering, i, u.tasks[i]);
    }
  }

  /** With one slot, or while the first failure holds the lock, nobody else leaves or records. */
  lemma OthersWait(t: Runner, i: nat)
    requires SlotsAccounted(t) && LockFits(t) && Window(t) && Prompt(t)
    requires i in t.tasks && i != t.first.value.index
    ensures !t.tasks[i].Closing? && !t.tasks[i].Finishing?
    ensures t.first.value.refused ==> !t.tasks[i].Recording?
  {
    if t.first.value.refused && Holding(t.tasks[i]) {
      OneHolder(t, i, t.first.value.index);
    }
  }

  lemma BoundedStays(t: Runner, row: Option<Row>, i: nat, op: TaskOp)
    requires SlotsAccounted(t) && LockFits(t) && SessionsFail(t)
    requires Prompt(t) && Bounded(t, row.Some?)
    ensures Bounded(TaskStep(t, row, i, op).0, row.Some?)
  {
    StepMoves(t, row, i, op);
    StepFails(t, row, i, op);
    StepLaunches(t, row, i, op);
    var u := TaskStep(t, row, i, op).0;
    if u != t {
      StepAdvances(t, row, i, op);
      if t.stop {
        StoppedBalances(t, row, i, op);
      } else if row.Some? && i == t.first.value.index {
        WindowCloses(t, row, op);
      } else if row.Some? {
        OthersWait(t, i);
        WindowBalances(t, row, i, op);
        WindowStays(t, row, i, op);
      }
      hide TaskStep, Window, Where;
    }
  }

  lemma FirstFailureStaysBinding(t: Runner, row: Option<Row>, i: nat, op: TaskOp)
    requires SlotsAccounted(t) && LaunchedOnce(t) && FirstFailureBinds(t, row.Some?)
    ensures FirstFailureBinds(TaskStep(t, row, i, op).0, row.Some?)
  {
    LockStaysFit(t, row, i, op);
    SessionsStayFailing(t, row, i, op);
    FirstStaysFit(t, row, i, op);
    StepMoves(t, row, i, op);
    StepFails(t, row, i, op);
    var u := TaskStep(t, row, i, op).0;
    if u != t {
      StepAdvances(t, row, i, op);
      if t.first.None? {
        FirstIsBounded(t, row, i, op);
        if row.Some? {
          StaysUntroubled(t, row, i, op);
        }
      } else if Prompt(t) {
        BoundedStays(t, row, i, op);
      }
    }
  }

  // ------------------------------------------------------------ all of it ---

  ghost predicate Orderly(t: Runner, alive: bool) {
    && SlotsAccounted(t) && LaunchedOnce(t) && FewStragglers(t) && FirstFailureBinds(t, alive)
    && (t.stop ==> !t.keepGoing)
  }

  lemma StaysOrderly(t: Runner, row: Option<Row>, i: nat, op: TaskOp)
    requires Orderly(t, row.Some?)
    ensures Orderly(TaskStep(t, row, i, op).0, row.Some?)
  {
    SlotsStayAccounted(t, row, i, op);
    LaunchedStaysOnce(t, row, i, op);
    StragglersStayFew(t, row, i, op);
    FirstFailureStaysBinding(t, row, i, op);
    StopsForAReason(t, row, i, op);
    hide TaskStep;
  }

  lemma StopsForAReason(t: Runner, row: Option<Row>, i: nat, op: TaskOp)
    requires t.stop ==> !t.keepGoing
    ensures var u := TaskStep(t, row, i, op).0; u.stop ==> !u.keepGoing
  {}

  lemma BegunIsOrderly(g: Row, alive: bool)
    ensures Orderly(Begun(g), alive)
  {
    assert Where(Begun(g).tasks, Holding) == {};
  }

  /** When the row is deleted nothing gets worse. */
  lemma DeletionKeepsOrder(t: Runner)
    requires Orderly(t, true)
    ensures Orderly(t, false)
  {}
}
