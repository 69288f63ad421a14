/** Accounts of a run: which compensations it owes, and what an idle world would have done. */
module Accounts {
  import opened Wrappers
  import opened Steps
  import opened Environment
  import opened Safety

  /**
   * How often the calls happened that compensations answer to: stops of the source that
   * reported success, starts of the source, creations of the destination VM that returned a
   * reference, deletions of a destination VM.
   */
  datatype Tally = Tally(stops: nat, starts: nat, creates: nat, deletes: nat)

  const NOTHING := Tally(0, 0, 0, 0)

  function Count(t: Tally, e: Event): Tally {
    match e
    case StopSource(reply) => if reply == Returned(true) then t.(stops := t.stops + 1) else t
    case StartSource(_) => t.(starts := t.starts + 1)
    case CreateVm(reply, ref) => if reply == Returned(true) && ref != "" then t.(creates := t.creates + 1) else t
    case DeleteVm(_, _) => t.(deletes := t.deletes + 1)
    case _ => t
  }

  function TallyOf(log: seq<Event>): Tally {
    if log == [] then NOTHING else Count(TallyOf(log[..|log| - 1]), log[|log| - 1])
  }

  lemma TallySnoc(log: seq<Event>, e: Event)
    ensures TallyOf(log + [e]) == Count(TallyOf(log), e)
  {}

  // ----------------------------------------------------------- compensations ---

  /** Stop the half-built VM, best effort, then delete it with its new disks. */
  function TeardownDest(w: World, ref: Ref): Undone<World> {
    var w1 := StopDestVm(w, ref).0;
    var (w2, reply) := DeleteDestVm(w1, ref);
    Undone(w2, reply.Raised?)
  }

  function RestartSource(w: World): Undone<World> {
    var (w1, reply) := StartSourceVm(w);
    Undone(w1, reply.Raised?)
  }

  function TeardownEntry(ref: Ref): Entry<World> {
    Entry("stop + delete destination VM " + ref + " (free its new disks)", (w: World) => TeardownDest(w, ref))
  }

  function RestartEntry(): Entry<World> {
    Entry("restart source VM", (w: World) => RestartSource(w))
  }

  /** The rollback stack of a run: the destination VM if it made one, then the source if it stopped it. */
  function Owed(created: bool, ref: Ref, stopped: bool): seq<Entry<World>> {
    (if created then [TeardownEntry(ref)] else []) + (if stopped then [RestartEntry()] else [])
  }

  lemma TeardownIsSafe(w: World, ref: Ref)
    requires Safe(w)
    ensures var x := TeardownDest(w, ref).world; Safe(x) && Alone(w, x)
  {
    var w1 := StopDestVm(w, ref).0;
    StopVmIsSafe(w, ref);
    DeleteVmIsSafe(w1, ref);
    AloneTransitive(w, w1, DeleteDestVm(w1, ref).0);
  }

  /** Only the deletion counts, and it is of that VM. */
  lemma TeardownCounts(w: World, ref: Ref)
    ensures var x := TeardownDest(w, ref).world;
            && TallyOf(x.log) == TallyOf(w.log).(deletes := TallyOf(w.log).deletes + 1)
            && Deletes(w.log, x.log, ref)
  {
    var (w1, r) := StopDestVm(w, ref);
    var (w2, q) := DeleteDestVm(w1, ref);
    assert w1.log == w.log + [StopVm(ref, r)] && w2.log == w1.log + [DeleteVm(ref, q)];
    TallySnoc(w.log, StopVm(ref, r));
    TallySnoc(w1.log, DeleteVm(ref, q));
  }

  lemma RestartCounts(w: World)
    ensures var x := RestartSource(w).world;
            && TallyOf(x.log) == TallyOf(w.log).(starts := TallyOf(w.log).starts + 1)
            && forall ref :: Deletes(w.log, x.log, ref)
  {
    TallySnoc(w.log, StartSource(Now(w).reply));
    assert RestartSource(w).world.log == w.log + [StartSource(Now(w).reply)];
  }

  /** Every VM deleted between two states of the log is `ref`. */
  ghost predicate Deletes(log: seq<Event>, after: seq<Event>, ref: Ref) {
    log <= after && forall i :: |log| <= i < |after| && after[i].DeleteVm? ==> after[i].ref == ref
  }

  lemma DeletesTransitive(a: seq<Event>, b: seq<Event>, c: seq<Event>, ref: Ref)
    requires Deletes(a, b, ref) && Deletes(b, c, ref)
    ensures Deletes(a, c, ref)
  {}

  lemma UnwindTop(below: seq<Entry<World>>, top: Entry<World>, w: World)
    ensures UnwindAll(below + [top], w).world == UnwindAll(below, top.undo(w).world).world
  {}

  /** What unwinding the stack of a run does, compensation by compensation. */
  function PayDebt(w: World, created: bool, ref: Ref, stopped: bool): World {
    var w1 := if stopped then RestartSource(w).world else w;
    if created then TeardownDest(w1, ref).world else w1
  }

  lemma UnwindingIsPaying(w: World, created: bool, ref: Ref, stopped: bool)
    ensures UnwindAll(Owed(created, ref, stopped), w).world == PayDebt(w, created, ref, stopped)
  {
    var below := Owed(created, ref, false);
    var w1 := if stopped then RestartSource(w).world else w;
    if stopped {
      assert Owed(created, ref, true) == below + [RestartEntry()];
      UnwindTop(below, RestartEntry(), w);
    } else {
      assert Owed(created, ref, false) == below;
    }
    if created {
      assert below == [] + [TeardownEntry(ref)];
      UnwindTop([], TeardownEntry(ref), w1);
    } else {
      assert below == [];
    }
  }

  lemma PayingIsSafe(w: World, created: bool, ref: Ref, stopped: bool)
    requires Safe(w)
    ensures var x := PayDebt(w, created, ref, stopped); Safe(x) && Alone(w, x)
  {
    var w1 := if stopped then RestartSource(w).world else w;
    if stopped {
      StartSourceIsSafe(w);
    } else {
      AloneReflexive(w);
    }
    if created {
      TeardownIsSafe(w1, ref);
      AloneTransitive(w, w1, TeardownDest(w1, ref).world);
    }
  }

  /**
   * Unwinding starts the source once iff it owes that, and deletes the destination VM once
   * iff it owes that; it deletes no other VM.
   */
  lemma PayingCounts(w: World, created: bool, ref: Ref, stopped: bool)
    ensures var x := PayDebt(w, created, ref, stopped);
            var before := TallyOf(w.log);
            && TallyOf(x.log) == before.(starts := before.starts + (if stopped then 1 else 0),
                                         deletes := before.deletes + (if created then 1 else 0))
            && Deletes(w.log, x.log, ref)
  {
    hide TeardownDest, RestartSource;
    var w1 := if stopped then RestartSource(w).world else w;
    if stopped {
      RestartCounts(w);
    }
    if created {
      TeardownCounts(w1, ref);
      DeletesTransitive(w.log, w1.log, TeardownDest(w1, ref).world.log, ref);
    }
  }

  // --------------------------------------------------------------- idle world ---

  /** The world after `n` steps of the environment in which nobody calls anything. */
  function Idle(w: World, n: nat): World {
    if n == 0 then w else Tick(Idle(w, n - 1))
  }

  /** So far the run has not been felt: the site is what it would be had nobody called anything. */
  ghost predicate Unfelt(start: World, w: World) {
    && w.owned == start.owned && w.oracle == start.oracle
    && w.clock >= start.clock
    && w.site == Idle(start, w.clock - start.clock).site
    && w.log == start.log
  }

  lemma {:induction false} IdleKeeps(w: World, n: nat)
    ensures Idle(w, n).owned == w.owned && Idle(w, n).oracle == w.oracle
    ensures Idle(w, n).clock == w.clock + n && Idle(w, n).log == w.log
  {
    if n != 0 {
      IdleKeeps(w, n - 1);
    }
  }

  lemma ReadingIsUnfelt(start: World, w: World)
    requires Unfelt(start, w)
    ensures Unfelt(start, Tick(w))
  {
    IdleKeeps(start, w.clock - start.clock);
  }
}
