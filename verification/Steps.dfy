/**
 * Rollback bookkeeping of a migration.
 *
 * A compensating action is a closure over the world it acts on: it maps a world
 * to the world it leaves behind and says whether it raised.
 */
module Steps {

  datatype Undone<+S> = Undone(world: S, raised: bool)

  datatype Entry<!S> = Entry(title: string, undo: S -> Undone<S>)

  datatype Unwound<+S> = Unwound(world: S, failures: seq<string>)

  /** What unwinding `entries` from `world` leaves, top of the stack first. */
  ghost function UnwindAll<S>(entries: seq<Entry<S>>, world: S): Unwound<S> {
    if entries == [] then
      Unwound(world, [])
    else
      var last := entries[|entries| - 1];
      var u := last.undo(world);
      var rest := UnwindAll(entries[..|entries| - 1], u.world);
      Unwound(rest.world, (if u.raised then [last.title] else []) + rest.failures)
  }

  /**
   * `run` records an unwinding: run[k] is the world before the k-th compensation,
   * which is the k-th entry counted from the top of the stack.
   */
  ghost predicate RunsInReverse<S>(entries: seq<Entry<S>>, run: seq<S>) {
    && 1 <= |run| <= |entries| + 1
    && forall k :: 0 <= k < |run| - 1 ==>
         run[k + 1] == entries[|entries| - 1 - k].undo(run[k]).world
  }

  /** The labels that raised along such a run, in the order the run met them. */
  ghost function Raised<S>(entries: seq<Entry<S>>, run: seq<S>): seq<string>
    requires 1 <= |run| <= |entries| + 1
    decreases |run|
  {
    if |run| == 1 then
      []
    else
      var e := entries[|entries| + 1 - |run|];
      Raised(entries, run[..|run| - 1])
      + (if e.undo(run[|run| - 2]).raised then [e.title] else [])
  }

  /** Unwinding `was` from `world` has come to `after` with `left` still on the stack. */
  ghost predicate Unwinding<S>(was: seq<Entry<S>>, world: S, left: seq<Entry<S>>,
                               after: S, failures: seq<string>, run: seq<S>) {
    && 1 <= |run| && |left| + |run| == |was| + 1
    && left == was[..|left|]
    && RunsInReverse(was, run)
    && run[0] == world && run[|run| - 1] == after
    && failures == Raised(was, run)
    && UnwindAll(was, world).world == UnwindAll(left, after).world
    && UnwindAll(was, world).failures == failures + UnwindAll(left, after).failures
  }

  lemma UnwindingStep<S>(was: seq<Entry<S>>, world: S, left: seq<Entry<S>>,
                         after: S, failures: seq<string>, run: seq<S>)
    requires Unwinding(was, world, left, after, failures, run) && left != []
    ensures var e := left[|left| - 1];
            var u := e.undo(after);
            Unwinding(was, world, left[..|left| - 1], u.world,
                      if u.raised then failures + [e.title] else failures, run + [u.world])
  {
    var e := left[|left| - 1];
    var u := e.undo(after);
    var rest := UnwindAll(left[..|left| - 1], u.world);
    var longer := run + [u.world];
    assert longer[..|longer| - 1] == run;
    assert e == was[|was| - |run|];
    assert failures + ([e.title] + rest.failures) == failures + [e.title] + rest.failures;
    assert failures + ([] + rest.failures) == failures + rest.failures;
    assert Raised(was, longer) == failures + (if u.raised then [e.title] else []);
    assert RunsInReverse(was, longer);
  }

  /** A LIFO stack of compensating actions. */
  class RollbackStack<!S> {
    var entries: seq<Entry<S>>

    constructor ()
      ensures entries == []
    {
      entries := [];
    }

    method Push(title: string, undo: S -> Undone<S>)
      modifies this
      ensures entries == old(entries) + [Entry(title, undo)]
    {
      entries := entries + [Entry(title, undo)];
    }

    method Clear()
      modifies this
      ensures entries == []
    {
      entries := [];
    }

    /**
     * Runs every compensation, top of the stack first, whatever the earlier ones did.
     * The ghost result is the sequence of worlds the compensations ran in.
     */
    method Unwind(world: S) returns (after: S, failures: seq<string>, ghost run: seq<S>)
      modifies this
      ensures entries == []
      ensures RunsInReverse(old(entries), run) && |run| == |old(entries)| + 1
      ensures run[0] == world && run[|run| - 1] == after
      ensures failures == Raised(old(entries), run)
      ensures UnwindAll(old(entries), world) == Unwound(after, failures)
    {
      ghost var was := entries;
      after, failures, run := world, [], [world];
      while entries != []
        invariant Unwinding(was, world, entries, after, failures, run)
        decreases |entries|
      {
        UnwindingStep(was, world, entries, after, failures, run);
        var entry := entries[|entries| - 1];
        entries := entries[..|entries| - 1];
        var u := entry.undo(after);
        after, run := u.world, run + [u.world];
        if u.raised {
          failures := failures + [entry.title];
        }
      }
    }
  }

  /** Applies the forward steps of a saga one after the other. */
  ghost function DoAll<S>(steps: seq<S -> S>, world: S): S {
    if steps == [] then world else steps[|steps| - 1](DoAll(steps[..|steps| - 1], world))
  }

  /** Each compensation undoes the step it was pushed for, and does not raise. */
  ghost predicate Inverts<S(!new)>(entries: seq<Entry<S>>, steps: seq<S -> S>) {
    && |entries| == |steps|
    && forall i, x :: 0 <= i < |entries| ==> entries[i].undo(steps[i](x)) == Undone(x, false)
  }

  /** If every undo inverts its step, unwinding restores the world before the first push. */
  lemma {:induction false} UnwindRestores<S(!new)>(entries: seq<Entry<S>>, steps: seq<S -> S>, world: S)
    requires Inverts(entries, steps)
    ensures UnwindAll(entries, DoAll(steps, world)) == Unwound(world, [])
  {
    if entries != [] {
      var n := |entries| - 1;
      var before := DoAll(steps[..n], world);
      assert entries[n].undo(steps[n](before)) == Undone(before, false);
      UnwindRestores(entries[..n], steps[..n], world);
    }
  }
}
