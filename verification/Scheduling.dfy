/**
 * The scheduler and the group calls of the API over all groups at once: loops over rows and the
 * table of live runners, each shown to be the one-group steps of `Groups`, group by group.
 */
module Scheduling {
  import opened Wrappers
  import opened Groups

  predicate IsLive(s: System) {
    s.active.Some? && s.active.value in s.runners
  }

  /** A scheduler pass as one group sees it: the poll, and the kick if it asked for one. */
  function CycleStep(s: System, due: bool): System {
    var polled := PollStep(s, due);
    if Asks(s, due) then KickStep(polled) else polled
  }

  /** The groups a pass kicks: due, or found interrupted. */
  predicate Asks(s: System, due: bool) {
    PollStep(s, due).kicks > s.kicks
  }

  lemma AskingIsIdle(s: System, due: bool)
    ensures Asks(s, due) ==> !IsLive(PollStep(s, due))
  {}

  lemma {:induction false} CountDistinct(s: seq<string>)
    requires forall i, j :: 0 <= i < j < |s| ==> s[i] != s[j]
    ensures |set g | g in s| == |s|
  {
    if s != [] {
      var n := |s| - 1;
      CountDistinct(s[..n]);
      assert (set g | g in s) == (set g | g in s[..n]) + {s[n]};
    }
  }

  class GroupScheduler {
    var groups: map<string, System>

    constructor (groups: map<string, System>)
      ensures this.groups == groups
    {
      this.groups := groups;
    }

    /** The single launch path: never a second runner next to a live one on record. */
    method Kick(group: string) returns (started: bool)
      requires group in groups && groups[group].kicks > 0
      modifies this
      ensures groups == old(groups)[group := KickStep(old(groups)[group])]
      ensures started <==> !IsLive(old(groups)[group])
    {
      var s := groups[group].(kicks := groups[group].kicks - 1);
      started := !IsLive(s);
      if started {
        s := s.(runners := s.runners[s.nextId := IDLE], active := Some(s.nextId), nextId := s.nextId + 1);
      }
      groups := groups[group := s];
    }

    /** The first loop: what is due becomes pending, and what has no live runner is to be kicked. */
    method PollRows(rows: seq<string>, due: set<string>) returns (toLaunch: seq<string>)
      requires forall g :: g in rows ==> g in groups
      requires forall i, j :: 0 <= i < j < |rows| ==> rows[i] != rows[j]
      modifies this
      ensures groups.Keys == old(groups).Keys
      ensures forall g :: g in groups ==>
                groups[g] == if g in rows then PollStep(old(groups)[g], g in due) else old(groups)[g]
      ensures forall g :: g in toLaunch <==> g in rows && Asks(old(groups)[g], g in due)
      ensures forall i, j :: 0 <= i < j < |toLaunch| ==> toLaunch[i] != toLaunch[j]
    {
      toLaunch := [];
      for i := 0 to |rows|
        invariant groups.Keys == old(groups).Keys
        invariant forall g :: g in groups ==>
                    groups[g] == if g in rows[..i] then PollStep(old(groups)[g], g in due) else old(groups)[g]
        invariant forall g :: g in toLaunch <==> g in rows[..i] && Asks(old(groups)[g], g in due)
        invariant forall j, k :: 0 <= j < k < |toLaunch| ==> toLaunch[j] != toLaunch[k]
      {
        var g := rows[i];
        var s := groups[g];
        assert rows[..i + 1] == rows[..i] + [g];
        assert g !in rows[..i];
        if s.row.Some? && !Over(s.row.value.status) && !IsLive(s)
           && (s.row.value.status != GScheduled || g in due) {
          if s.row.value.status == GScheduled {
            s := WithStatus(s, GPending);
          }
          groups := groups[g := s.(kicks := s.kicks + 1)];
          toLaunch := toLaunch + [g];
        }
        assert groups[g] == PollStep(old(groups)[g], g in due);
      }
      assert rows[..|rows|] == rows;
    }

    /** The second loop: every group that was asked for gets a runner. */
    method KickAll(toLaunch: seq<string>) returns (launched: nat)
      requires forall g :: g in toLaunch ==> g in groups && groups[g].kicks > 0 && !IsLive(groups[g])
      requires forall i, j :: 0 <= i < j < |toLaunch| ==> toLaunch[i] != toLaunch[j]
      modifies this
      ensures groups.Keys == old(groups).Keys && launched == |toLaunch|
      ensures forall g :: g in groups ==>
                groups[g] == if g in toLaunch then KickStep(old(groups)[g]) else old(groups)[g]
    {
      launched := 0;
      hide KickStep, IsLive;
      for i := 0 to |toLaunch|
        invariant groups.Keys == old(groups).Keys && launched == i
        invariant forall g :: g in groups ==>
                    groups[g] == if g in toLaunch[..i] then KickStep(old(groups)[g]) else old(groups)[g]
      {
        var g := toLaunch[i];
        assert toLaunch[..i + 1] == toLaunch[..i] + [g];
        assert g !in toLaunch[..i];
        var started := Kick(g);
        launched := launched + if started then 1 else 0;
      }
      assert toLaunch[..|toLaunch|] == toLaunch;
    }

    /** One pass: each group takes its own step, and exactly the groups that ask get a runner. */
    method RunSchedulerCycle(rows: seq<string>, due: set<string>) returns (launched: nat)
      requires forall g :: g in rows ==> g in groups
      requires forall i, j :: 0 <= i < j < |rows| ==> rows[i] != rows[j]
      modifies this
      ensures groups.Keys == old(groups).Keys
      ensures forall g :: g in groups ==>
                groups[g] == if g in rows then CycleStep(old(groups)[g], g in due) else old(groups)[g]
      ensures launched == |set g | g in rows && Asks(old(groups)[g], g in due)|
    {
      ghost var was := groups;
      var toLaunch := PollRows(rows, due);
      forall g | g in toLaunch ensures groups[g].kicks > 0 && !IsLive(groups[g]) {
        AskingIsIdle(was[g], g in due);
      }
      hide PollStep, KickStep, IsLive;
      launched := KickAll(toLaunch);
      CountDistinct(toLaunch);
      assert (set g | g in toLaunch) == set g | g in rows && Asks(was[g], g in due);
    }

    /** `run_migration_group_now`: everything that did not succeed is to run again. */
    method RunNow(group: string) returns (code: nat)
      modifies this
      ensures group !in old(groups) || old(groups)[group].row.None? ==> code == 404 && groups == old(groups)
      ensures group in old(groups) && old(groups)[group].row.Some? ==>
                && groups == old(groups)[group := if code == 202 then KickStep(RunNowStep(old(groups)[group]))
                                                  else old(groups)[group]]
                && (code == 202 <==> old(groups)[group].row.value.status !in {GRunning, GSucceeded})
                && (code == 409 <==> old(groups)[group].row.value.status in {GRunning, GSucceeded})
    {
      if group !in groups || groups[group].row.None? {
        return 404;
      }
      var s := groups[group];
      var g := s.row.value;
      if g.status == GRunning || g.status == GSucceeded {
        return 409;
      }
      var members: seq<MemberStatus> := [];
      for i := 0 to |g.members|
        invariant members == Reset(g.members)[..i]
      {
        members := members + [if g.members[i] == Succeeded then Succeeded else Pending];
      }
      assert members == Reset(g.members);
      groups := groups[group := s.(row := Some(g.(members := members, status := GPending)), kicks := s.kicks + 1)];
      var _ := Kick(group);
      code := 202;
    }

    method Cancel(group: string) returns (code: nat)
      modifies this
      ensures group !in old(groups) || old(groups)[group].row.None? ==> code == 404 && groups == old(groups)
      ensures group in old(groups) && old(groups)[group].row.Some? ==>
                && groups == old(groups)[group := CancelStep(old(groups)[group])]
                && code == if Over(old(groups)[group].row.value.status) then 409 else 202
    {
      if group !in groups || groups[group].row.None? {
        return 404;
      }
      var s := groups[group];
      if Over(s.row.value.status) {
        return 409;
      }
      groups := groups[group := WithStatus(s, GCanceled)];
      code := 202;
    }

    method Delete(group: string) returns (code: nat)
      modifies this
      ensures group in old(groups) ==> groups == old(groups)[group := DeleteStep(old(groups)[group])]
      ensures group !in old(groups) ==> groups == old(groups)
      ensures code == 409 <==>
                group in old(groups) && old(groups)[group].row.Some? && old(groups)[group].row.value.status == GRunning
    {
      if group !in groups || groups[group].row.None? {
        return 204;
      }
      var s := groups[group];
      if s.row.value.status == GRunning {
        return 409;
      }
      groups := groups[group := s.(row := None)];
      code := 204;
    }
  }
}
