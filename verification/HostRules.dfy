/** What registering a pool's hosts keeps, changes and refuses. */
module HostRules {
  import opened Wrappers
  import opened Text
  import opened Hosts
  import opened Sorting

  /** A host is in at most one group. */
  ghost predicate OneGroup(a: State) {
    forall g, h, host :: g in a.groups && h in a.groups && host in a.groups[g] && host in a.groups[h] ==> g == h
  }

  /** An initiator is owned by at most one host. */
  ghost predicate OneOwner(a: State) {
    forall g, h, x :: g in a.hosts && h in a.hosts && x in Owned(a.hosts[g]) && x in Owned(a.hosts[h]) ==> g == h
  }

  ghost predicate Named(a: State) {
    InStep(a) && [] !in a.hosts && [] !in a.groups
  }

  predicate Disjoint(specs: seq<HostSpec>) {
    forall i, j :: 0 <= i < j < |specs| ==> Wanted(specs[i].ports) !! Wanted(specs[j].ports)
  }

  predicate AllTrimmed(specs: seq<HostSpec>) {
    forall i :: 0 <= i < |specs| ==> Trimmed(specs[i].ports)
  }

  // ------------------------------------------------------------ conflicts ---

  /** The group the first phase reads for entry `i`, if any. */
  function GroupAt(a: State, plan: seq<Option<string>>, i: nat): Option<string>
    requires i < |plan|
  {
    if Real(plan[i]) && Real(GroupOf(a, plan[i].value)) then GroupOf(a, plan[i].value) else None
  }

  lemma {:induction false} SeenAreTheGroups(a: State, plan: seq<Option<string>>, k: nat)
    requires k <= |plan|
    ensures forall g :: g in Seen(a, plan, k) <==> exists i: nat :: i < k && GroupAt(a, plan, i) == Some(g)
    ensures forall i, j :: 0 <= i < j < |Seen(a, plan, k)| ==> Seen(a, plan, k)[i] != Seen(a, plan, k)[j]
  {
    if k > 0 {
      SeenAreTheGroups(a, plan, k - 1);
      forall g | g in Seen(a, plan, k) ensures exists i: nat :: i < k && GroupAt(a, plan, i) == Some(g) {
        if g in Seen(a, plan, k - 1) {
          var i: nat :| i < k - 1 && GroupAt(a, plan, i) == Some(g);
        } else {
          assert GroupAt(a, plan, k - 1) == Some(g);
        }
      }
    }
  }

  predicate Clash(a: State, plan: seq<Option<string>>, i: nat, j: nat)
    requires i < |plan| && j < |plan|
  {
    GroupAt(a, plan, i).Some? && GroupAt(a, plan, j).Some? && GroupAt(a, plan, i) != GroupAt(a, plan, j)
  }

  lemma TwoSeenClash(a: State, plan: seq<Option<string>>)
    requires |Seen(a, plan, |plan|)| > 1
    ensures exists i: nat, j: nat :: i < j < |plan| && Clash(a, plan, i, j)
  {
    var seen := Seen(a, plan, |plan|);
    SeenAreTheGroups(a, plan, |plan|);
    hide Seen, GroupAt;
    assert seen[0] in seen && seen[1] in seen;
    var i: nat :| i < |plan| && GroupAt(a, plan, i) == Some(seen[0]);
    var j: nat :| j < |plan| && GroupAt(a, plan, j) == Some(seen[1]);
    assert Clash(a, plan, i, j) && Clash(a, plan, j, i) && i != j;
  }

  lemma ClashingAreSeen(a: State, plan: seq<Option<string>>, i: nat, j: nat)
    requires i < j < |plan| && Clash(a, plan, i, j)
    ensures |Seen(a, plan, |plan|)| > 1
  {
    var seen := Seen(a, plan, |plan|);
    SeenAreTheGroups(a, plan, |plan|);
    hide Seen, GroupAt;
    assert GroupAt(a, plan, i).value in seen && GroupAt(a, plan, j).value in seen;
  }

  /** The host that entry `i` matched, if any, is of this group. */
  ghost predicate InGroup(a: State, plan: seq<Option<string>>, i: nat, group: string, host: string)
    requires i < |plan|
  {
    plan[i] == Some(host) && GroupAt(a, plan, i) == Some(group)
  }

  lemma {:induction false} HostsInAreMatched(a: State, plan: seq<Option<string>>, group: string, k: nat, h: string)
    requires k <= |plan| && group != []
    ensures h in HostsIn(a, plan, group, k) <==> exists i: nat :: i < k && InGroup(a, plan, i, group, h)
  {
    hide GroupOf;
    if k > 0 {
      HostsInAreMatched(a, plan, group, k - 1, h);
      assert InGroup(a, plan, k - 1, group, h) <==>
             Real(plan[k - 1]) && plan[k - 1].value == h && GroupOf(a, plan[k - 1].value) == Some(group);
    }
  }

  function Groups(spread: seq<(string, seq<string>)>): seq<string> {
    seq(|spread|, k requires 0 <= k < |spread| => spread[k].0)
  }

  /** Told in a conflict: every group of a matched host, in order, with its matched hosts. */
  ghost predicate TellsAll(a: State, plan: seq<Option<string>>, spread: seq<(string, seq<string>)>) {
    && Rising(Groups(spread))
    && (forall g :: g in Groups(spread) <==> exists i: nat :: i < |plan| && GroupAt(a, plan, i) == Some(g))
    && (forall k, h :: 0 <= k < |spread| ==>
          (h in spread[k].1 <==> exists i: nat :: i < |plan| && InGroup(a, plan, i, spread[k].0, h)))
  }

  lemma SpreadOfNames(a: State, plan: seq<Option<string>>, groups: seq<string>)
    requires [] !in groups
    ensures var spread := Spread(a, plan, groups);
            && Groups(spread) == groups
            && (forall k, h :: 0 <= k < |spread| ==>
                  (h in spread[k].1 <==> exists i: nat :: i < |plan| && InGroup(a, plan, i, spread[k].0, h)))
  {
    var spread := Spread(a, plan, groups);
    hide InGroup;
    forall k, h | 0 <= k < |spread|
      ensures h in spread[k].1 <==> exists i: nat :: i < |plan| && InGroup(a, plan, i, spread[k].0, h)
    {
      assert groups[k] in groups;
      HostsInAreMatched(a, plan, groups[k], |plan|, h);
    }
  }

  lemma SpreadTellsAll(a: State, plan: seq<Option<string>>)
    ensures TellsAll(a, plan, Spread(a, plan, SortNames(Seen(a, plan, |plan|))))
  {
    var seen := Seen(a, plan, |plan|);
    SeenAreTheGroups(a, plan, |plan|);
    SeenAreReal(a, plan, |plan|);
    DistinctNamesRise(seen);
    hide Seen, GroupAt, SortNames, InGroup, Spread, Groups, Rising;
    assert [] !in SortNames(seen);
    SpreadOfNames(a, plan, SortNames(seen));
  }

  /**
   * A conflict is reported exactly when matched hosts are in two groups; it tells them all and
   * changes nothing.
   */
  lemma ConflictMeansTwoGroups(a: State, requested: string, specs: seq<HostSpec>)
    ensures var (after, result) := Register(a, requested, specs);
            var plan := Plan(a, specs);
            && (result.Conflict? <==> exists i: nat, j: nat :: i < j < |specs| && Clash(a, plan, i, j))
            && (result.Conflict? ==> after == a && TellsAll(a, plan, result.spread))
  {
    var plan := Plan(a, specs);
    SpreadTellsAll(a, plan);
    hide Seen, Clash, Plan, Created, WithGroup, Picked, Names, TellsAll, Spread, SortNames;
    if |Seen(a, plan, |specs|)| > 1 {
      TwoSeenClash(a, plan);
    }
    if i: nat, j: nat :| i < j < |specs| && Clash(a, plan, i, j) {
      ClashingAreSeen(a, plan, i, j);
    }
  }

  // ------------------------------------------------------------ what is created ---

  predicate Fresh(a: State, specs: seq<HostSpec>, i: nat)
    requires i < |specs|
  {
    !Real(Find(a, specs[i].ports))
  }

  /** Initiator `x` comes to host `h` with one of the first `k` unmatched entries. */
  ghost predicate Brought(a: State, specs: seq<HostSpec>, k: nat, h: string, x: Initiator)
    requires k <= |specs|
  {
    exists i: nat :: i < k && Fresh(a, specs, i) && specs[i].name == h && x in Owned(specs[i].ports)
  }

  ghost predicate IsNew(a: State, specs: seq<HostSpec>, k: nat, h: string)
    requires k <= |specs|
  {
    exists i: nat :: i < k && Fresh(a, specs, i) && specs[i].name == h
  }

  ghost predicate Owns(h: Ports, x: Initiator) {
    match x
    case Iqn(n) => exists s :: s in h.iqns && Lower(s) == n
    case Wwn(n) => exists s :: s in h.wwns && NormWwn(s) == n
    case Nqn(n) => exists s :: s in h.nqns && Lower(s) == n
  }

  lemma OwnedAreOwned(h: Ports)
    ensures forall x :: x in Owned(h) <==> Owns(h, x)
  {}

  /** The initiators of a request end up on the host, next to those it had. */
  lemma MergingOwns(h: Ports, ports: Ports)
    ensures Owned(Ports(AddAll(h.iqns, ports.iqns), AddAll(h.wwns, ports.wwns), AddAll(h.nqns, ports.nqns)))
            == Owned(h) + Owned(ports)
  {
    var merged := Ports(AddAll(h.iqns, ports.iqns), AddAll(h.wwns, ports.wwns), AddAll(h.nqns, ports.nqns));
    OwnedAreOwned(h);
    OwnedAreOwned(ports);
    OwnedAreOwned(merged);
    hide Owned, Lower, NormWwn;
    forall x ensures Owns(merged, x) <==> Owns(h, x) || Owns(ports, x) {
      match x
      case Iqn(n) =>
      case Wwn(n) =>
      case Nqn(n) =>
    }
  }

  lemma WithHostOwns(a: State, name: string, ports: Ports)
    ensures var b := WithHost(a, name, ports);
            && b.hosts.Keys == a.hosts.Keys + {name}
            && (forall h :: h in a.hosts && h != name ==> b.hosts[h] == a.hosts[h])
            && Owned(b.hosts[name]) == (if name in a.hosts then Owned(a.hosts[name]) else {}) + Owned(ports)
  {
    hide Owned, AddAll;
    if name in a.hosts {
      MergingOwns(a.hosts[name], ports);
    } else {
      MergingOwns(Ports([], [], []), ports);
      NothingOwned();
    }
  }

  lemma NothingOwned()
    ensures Owned(Ports([], [], [])) == {}
  {
  }

  lemma NewOneMore(a: State, specs: seq<HostSpec>, k: nat, h: string)
    requires k < |specs|
    ensures IsNew(a, specs, k + 1, h) <==> IsNew(a, specs, k, h) || (Fresh(a, specs, k) && specs[k].name == h)
  {
    hide Fresh;
    if IsNew(a, specs, k + 1, h) {
      var i: nat :| i < k + 1 && Fresh(a, specs, i) && specs[i].name == h;
      assert i < k || i == k;
    }
    if IsNew(a, specs, k, h) {
      var i: nat :| i < k && Fresh(a, specs, i) && specs[i].name == h;
      assert i < k + 1;
    }
  }

  lemma BroughtOneMore(a: State, specs: seq<HostSpec>, k: nat, h: string, x: Initiator)
    requires k < |specs|
    ensures Brought(a, specs, k + 1, h, x) <==>
            Brought(a, specs, k, h, x) || (Fresh(a, specs, k) && specs[k].name == h && x in Owned(specs[k].ports))
  {
    hide Owned, Fresh;
    if Brought(a, specs, k + 1, h, x) {
      var i: nat :| i < k + 1 && Fresh(a, specs, i) && specs[i].name == h && x in Owned(specs[i].ports);
      assert i < k || i == k;
    }
    if Brought(a, specs, k, h, x) {
      var i: nat :| i < k && Fresh(a, specs, i) && specs[i].name == h && x in Owned(specs[i].ports);
      assert i < k + 1;
    }
  }

  lemma {:induction false} CreatedKeepsGroups(a: State, specs: seq<HostSpec>, k: nat)
    requires k <= |specs|
    ensures var b := Created(a, specs, Plan(a, specs), k);
            && b.groups == a.groups && b.groupOrder == a.groupOrder
            && a.order <= b.order
            && (InStep(a) ==> InStep(b))
  {
    hide Plan, AddAll, Find;
    if k > 0 {
      CreatedKeepsGroups(a, specs, k - 1);
    }
  }

  /** Exactly the unmatched entries make a host. */
  lemma {:induction false} CreatedHosts(a: State, specs: seq<HostSpec>, k: nat)
    requires k <= |specs|
    ensures forall h :: h in Created(a, specs, Plan(a, specs), k).hosts <==> h in a.hosts || IsNew(a, specs, k, h)
  {
    hide Find, AddAll;
    if k > 0 {
      CreatedHosts(a, specs, k - 1);
      forall h ensures IsNew(a, specs, k, h) <==>
                       IsNew(a, specs, k - 1, h) || (Fresh(a, specs, k - 1) && specs[k - 1].name == h) {
        NewOneMore(a, specs, k - 1, h);
      }
      hide IsNew, Brought;
    }
  }

  /** And bring initiators to the host of their name. */
  lemma {:induction false} CreatedOwned(a: State, specs: seq<HostSpec>, k: nat, h: string, x: Initiator)
    requires k <= |specs|
    ensures var b := Created(a, specs, Plan(a, specs), k);
            h in b.hosts && x in Owned(b.hosts[h]) <==>
            (h in a.hosts && x in Owned(a.hosts[h])) || Brought(a, specs, k, h, x)
  {
    hide Find, Owned, WithHost, Plan;
    if k > 0 {
      CreatedOwned(a, specs, k - 1, h, x);
      BroughtOneMore(a, specs, k - 1, h, x);
      hide IsNew, Brought;
      if Fresh(a, specs, k - 1) {
        WithHostOwns(Created(a, specs, Plan(a, specs), k - 1), specs[k - 1].name, specs[k - 1].ports);
      }
    }
  }

  // ------------------------------------------------------------ one owner ---

  /** An unmatched request wants nothing that any host of the array owns. */
  lemma FreshOwnsNothing(a: State, specs: seq<HostSpec>, i: nat, h: string)
    requires i < |specs| && Named(a) && Fresh(a, specs, i) && h in a.hosts
    ensures Wanted(specs[i].ports) !! Owned(a.hosts[h])
  {
    FirstMatchFits(a.order, a.hosts, Wanted(specs[i].ports));
    hide Wanted, Owned;
    assert h in a.order && !Matches(a.hosts[h], Wanted(specs[i].ports));
    forall x | x in Wanted(specs[i].ports) ensures x !in Owned(a.hosts[h]) {
      assert x !in Wanted(specs[i].ports) * Owned(a.hosts[h]);
    }
  }

  /** Host `h` has initiator `x`, or a new entry brings it there. */
  ghost predicate Takes(a: State, specs: seq<HostSpec>, h: string, x: Initiator) {
    (h in a.hosts && x in Owned(a.hosts[h])) || Brought(a, specs, |specs|, h, x)
  }

  /** No new entry asks, as it is given, for an initiator that a host of another name takes. */
  ghost predicate OwnersFree(a: State, specs: seq<HostSpec>) {
    forall i: nat, h, x ::
      i < |specs| && Fresh(a, specs, i) && x in Owned(specs[i].ports) && Takes(a, specs, h, x) ==> h == specs[i].name
  }

  lemma CreatedTakes(a: State, specs: seq<HostSpec>, h: string, x: Initiator)
    ensures var b := Created(a, specs, Plan(a, specs), |specs|);
            h in b.hosts && x in Owned(b.hosts[h]) <==> Takes(a, specs, h, x)
  {
    CreatedOwned(a, specs, |specs|, h, x);
    hide Created, Owned, Brought;
  }

  lemma BroughtIsAlone(a: State, specs: seq<HostSpec>, g: string, h: string, x: Initiator)
    requires OwnersFree(a, specs) && Brought(a, specs, |specs|, g, x) && Takes(a, specs, h, x)
    ensures g == h
  {
    hide Owned, Fresh, Takes;
    var i: nat :| i < |specs| && Fresh(a, specs, i) && specs[i].name == g && x in Owned(specs[i].ports);
  }

  lemma FreeMeansOneTaker(a: State, specs: seq<HostSpec>, g: string, h: string, x: Initiator)
    requires OneOwner(a) && OwnersFree(a, specs) && Takes(a, specs, g, x) && Takes(a, specs, h, x)
    ensures g == h
  {
    hide Owned, Brought, OwnersFree;
    if Brought(a, specs, |specs|, g, x) {
      BroughtIsAlone(a, specs, g, h, x);
    } else if Brought(a, specs, |specs|, h, x) {
      BroughtIsAlone(a, specs, h, g, x);
    }
  }

  lemma FreshTakes(a: State, specs: seq<HostSpec>, i: nat, x: Initiator)
    requires i < |specs| && Fresh(a, specs, i) && x in Owned(specs[i].ports)
    ensures Takes(a, specs, specs[i].name, x)
  {
    hide Owned, Fresh;
    assert Brought(a, specs, |specs|, specs[i].name, x);
  }

  /**
   * Registration keeps every initiator with one owner exactly when no new host is asked for with
   * an initiator, as given, that a host of another name takes.
   */
  lemma OneOwnerIsKept(a: State, requested: string, specs: seq<HostSpec>)
    requires OneOwner(a) && Register(a, requested, specs).1.Registered?
    ensures OneOwner(Register(a, requested, specs).0) <==> OwnersFree(a, specs)
  {
    var b := Created(a, specs, Plan(a, specs), |specs|);
    var after := Register(a, requested, specs).0;
    assert after.hosts == b.hosts;
    forall h, x ensures h in b.hosts && x in Owned(b.hosts[h]) <==> Takes(a, specs, h, x) {
      CreatedTakes(a, specs, h, x);
    }
    hide Owned, Created, Register, Fresh, Takes;
    if OwnersFree(a, specs) {
      forall g, h, x | g in b.hosts && h in b.hosts && x in Owned(b.hosts[g]) && x in Owned(b.hosts[h])
        ensures g == h
      {
        FreeMeansOneTaker(a, specs, g, h, x);
      }
    } else {
      var i: nat, h, x :| i < |specs| && Fresh(a, specs, i) && x in Owned(specs[i].ports)
        && Takes(a, specs, h, x) && h != specs[i].name;
      FreshTakes(a, specs, i, x);
    }
  }

  /** Trimmed requests for different initiators, in an array that has names, are free. */
  lemma TrimmedAndDisjointAreFree(a: State, specs: seq<HostSpec>)
    requires Named(a) && AllTrimmed(specs) && Disjoint(specs)
    ensures OwnersFree(a, specs)
  {
    hide Owned, Wanted, Find;
    forall i: nat, h, x | i < |specs| && Fresh(a, specs, i) && x in Owned(specs[i].ports) && Takes(a, specs, h, x)
      ensures h == specs[i].name
    {
      TrimmedIsWanted(specs[i].ports);
      if Brought(a, specs, |specs|, h, x) {
        var j: nat :| j < |specs| && Fresh(a, specs, j) && specs[j].name == h && x in Owned(specs[j].ports);
        TrimmedIsWanted(specs[j].ports);
        assert i == j;
      } else {
        FreshOwnsNothing(a, specs, i, h);
      }
    }
  }

  // ------------------------------------------------------------ groups ---

  /** Only the effective group changes: it gains exactly the returned hosts, all of which exist. */
  lemma OnlyTheEffectiveGroupGrows(a: State, requested: string, specs: seq<HostSpec>)
    requires Named(a)
    ensures var (after, result) := Register(a, requested, specs);
            result.Registered? ==>
              && InStep(after)
              && after.groups.Keys == a.groups.Keys + {result.group}
              && (forall g :: g in a.groups && g != result.group ==> after.groups[g] == a.groups[g])
              && (forall h :: h in after.groups[result.group] <==>
                    h in result.hosts || (result.group in a.groups && h in a.groups[result.group]))
              && (forall h :: h in a.hosts ==> h in after.hosts)
              && (forall h :: h in result.hosts ==> h in after.hosts)
              && |result.hosts| == |specs|
  {
    hide Wanted, Matches, Seen, AddAll;
    CreatedKeepsGroups(a, specs, |specs|);
    CreatedHosts(a, specs, |specs|);
    var b := Created(a, specs, Plan(a, specs), |specs|);
    forall i: nat | i < |specs| ensures Names(specs, Plan(a, specs))[i] in b.hosts {
      FirstMatchFits(a.order, a.hosts, Wanted(specs[i].ports));
      if Fresh(a, specs, i) {
        assert IsNew(a, specs, |specs|, specs[i].name);
      }
    }
  }

  /** Where the source may put a host in a second group: an unmatched name already in one. */
  ghost predicate NamesFree(a: State, specs: seq<HostSpec>, effective: string) {
    forall i: nat, g ::
      i < |specs| && Fresh(a, specs, i) && g in a.groups && specs[i].name in a.groups[g] ==> g == effective
  }

  /** A matched host is in no group but the effective one. */
  lemma MatchedHostsFit(a: State, requested: string, specs: seq<HostSpec>, i: nat, g: string)
    requires Named(a) && OneGroup(a) && Register(a, requested, specs).1.Registered?
    requires i < |specs| && !Fresh(a, specs, i)
    requires g in a.groups && Find(a, specs[i].ports).value in a.groups[g]
    ensures g == Effective(a, requested, specs)
  {
    var plan := Plan(a, specs);
    var host := plan[i].value;
    FirstGroupFits(a.groupOrder, a.groups, host);
    FirstMatchFits(a.order, a.hosts, Wanted(specs[i].ports));
    SeenAreTheGroups(a, plan, |specs|);
    assert g in a.groupOrder && host in a.hosts;
    assert GroupAt(a, plan, i) == Some(g);
    assert g in Seen(a, plan, |specs|);
  }

  /**
   * Registration keeps every host in at most one group exactly when no name it creates a host
   * under is already a member of another group.
   */
  lemma OneGroupIsKept(a: State, requested: string, specs: seq<HostSpec>)
    requires Named(a) && OneGroup(a) && Register(a, requested, specs).1.Registered?
    ensures OneGroup(Register(a, requested, specs).0) <==> NamesFree(a, specs, Effective(a, requested, specs))
  {
    hide Wanted, Owned, Find, Seen, AddAll;
    OnlyTheEffectiveGroupGrows(a, requested, specs);
    var (after, result) := Register(a, requested, specs);
    var (group, plan) := (result.group, Plan(a, specs));
    assert group == Effective(a, requested, specs) && result.hosts == Names(specs, plan);
    hide Register, Created, Effective;
    if NamesFree(a, specs, group) {
      forall g, host | g in a.groups && host in a.groups[g] && host in result.hosts ensures g == group {
        var i: nat :| i < |specs| && host == NameOf(specs[i], plan[i]);
        if !Fresh(a, specs, i) {
          MatchedHostsFit(a, requested, specs, i, g);
        }
      }
    } else {
      var i: nat, g :| i < |specs| && Fresh(a, specs, i) && g in a.groups && specs[i].name in a.groups[g] && g != group;
      assert result.hosts[i] == specs[i].name;
      assert specs[i].name in after.groups[g] && specs[i].name in after.groups[group];
    }
  }

  // ------------------------------------------------------------ the second call ---

  /** What the source asks of a registration for a repeat to be a no-op. */
  ghost predicate WellPosed(a: State, requested: string, specs: seq<HostSpec>) {
    && Named(a) && OneGroup(a) && OneOwner(a) && AllTrimmed(specs) && Disjoint(specs)
    && (forall i :: 0 <= i < |specs| ==> specs[i].name != [] && Wanted(specs[i].ports) != {})
    && NamesFree(a, specs, Effective(a, requested, specs))
  }

  /** Other entries' new initiators do not matter to the search for entry `i`. */
  lemma SearchIsUndisturbed(a: State, specs: seq<HostSpec>, i: nat, h: string)
    requires AllTrimmed(specs) && Disjoint(specs) && i < |specs| && h in a.hosts && !Fresh(a, specs, i)
    ensures var b := Created(a, specs, Plan(a, specs), |specs|);
            h in b.hosts && Matches(b.hosts[h], Wanted(specs[i].ports)) == Matches(a.hosts[h], Wanted(specs[i].ports))
  {
    hide Wanted, Owned, Find;
    var b := Created(a, specs, Plan(a, specs), |specs|);
    CreatedHosts(a, specs, |specs|);
    forall x | x in Wanted(specs[i].ports) ensures x in Owned(b.hosts[h]) <==> x in Owned(a.hosts[h]) {
      CreatedOwned(a, specs, |specs|, h, x);
      if Brought(a, specs, |specs|, h, x) {
        var j: nat :| j < |specs| && Fresh(a, specs, j) && specs[j].name == h && x in Owned(specs[j].ports);
        TrimmedIsWanted(specs[j].ports);
        assert i != j;
      }
    }
    assert Wanted(specs[i].ports) * Owned(b.hosts[h]) == Wanted(specs[i].ports) * Owned(a.hosts[h]);
  }

  lemma MatchedIsFound(a: State, specs: seq<HostSpec>, i: nat)
    requires Named(a) && AllTrimmed(specs) && Disjoint(specs) && i < |specs| && !Fresh(a, specs, i)
    ensures var b := Created(a, specs, Plan(a, specs), |specs|);
            FirstMatch(b.order, b.hosts, Wanted(specs[i].ports)) == Find(a, specs[i].ports)
  {
    hide Owned, Wanted, Matches, Created, FirstMatch, Plan, AllTrimmed, Disjoint;
    var b := Created(a, specs, Plan(a, specs), |specs|);
    assert a.order <= b.order by { CreatedKeepsGroups(a, specs, |specs|); }
    forall h | h in a.order
      ensures h in a.hosts && h in b.hosts
      ensures Matches(a.hosts[h], Wanted(specs[i].ports)) == Matches(b.hosts[h], Wanted(specs[i].ports))
    {
      SearchIsUndisturbed(a, specs, i, h);
    }
    SameSearch(a, b, Wanted(specs[i].ports));
  }

  lemma SameSearch(a: State, b: State, want: set<Initiator>)
    requires a.order <= b.order && FirstMatch(a.order, a.hosts, want).Some?
    requires forall h :: h in a.order ==>
               h in a.hosts && h in b.hosts && Matches(a.hosts[h], want) == Matches(b.hosts[h], want)
    ensures FirstMatch(b.order, b.hosts, want) == FirstMatch(a.order, a.hosts, want)
  {
    FirstMatchStays(a.order, b.order[|a.order|..], a.hosts, b.hosts, want);
    assert a.order + b.order[|a.order|..] == b.order;
  }

  /** A repeat finds, for every entry, the host the first call returned for it. */
  lemma SecondPlanFindsAll(a: State, requested: string, specs: seq<HostSpec>, i: nat)
    requires WellPosed(a, requested, specs) && i < |specs|
    requires Register(a, requested, specs).1.Registered?
    ensures Find(Register(a, requested, specs).0, specs[i].ports) == Some(Names(specs, Plan(a, specs))[i])
    ensures Names(specs, Plan(a, specs))[i] != []
  {
    if Fresh(a, specs, i) {
      TrimmedAndDisjointAreFree(a, specs);
      OneOwnerIsKept(a, requested, specs);
      hide FirstMatch, Owned, Wanted, Seen, AddAll, NamesFree, Effective, OneGroup, Created;
      FreshIsFound(a, specs, i);
    } else {
      hide FirstMatch, Owned, Wanted, Seen, AddAll, NamesFree, Effective, OneGroup, Created;
      MatchedIsFound(a, specs, i);
    }
  }

  lemma FreshIsFound(a: State, specs: seq<HostSpec>, i: nat)
    requires Named(a) && AllTrimmed(specs) && i < |specs| && Fresh(a, specs, i) && Wanted(specs[i].ports) != {}
    requires OneOwner(Created(a, specs, Plan(a, specs), |specs|))
    ensures var b := Created(a, specs, Plan(a, specs), |specs|);
            FirstMatch(b.order, b.hosts, Wanted(specs[i].ports)) == Some(specs[i].name)
  {
    var b := Created(a, specs, Plan(a, specs), |specs|);
    var want := Wanted(specs[i].ports);
    CreatedKeepsGroups(a, specs, |specs|);
    CreatedHosts(a, specs, |specs|);
    assert IsNew(a, specs, |specs|, specs[i].name);
    TrimmedIsWanted(specs[i].ports);
    hide Owned, Wanted, Find, FirstMatch, Created;
    forall x | x in want ensures x in Owned(b.hosts[specs[i].name]) {
      CreatedOwned(a, specs, |specs|, specs[i].name, x);
    }
    FirstMatchFits(b.order, b.hosts, want);
    var x :| x in want;
    assert x in want * Owned(b.hosts[specs[i].name]);
    assert Matches(b.hosts[specs[i].name], want);
    var found := FirstMatch(b.order, b.hosts, want);
    var y :| y in want * Owned(b.hosts[found.value]);
    assert y in Owned(b.hosts[specs[i].name]);
  }

  lemma {:induction false} AllMatchedCreatesNothing(a: State, specs: seq<HostSpec>, plan: seq<Option<string>>, k: nat)
    requires k <= |specs| == |plan|
    requires forall i :: 0 <= i < |plan| ==> Real(plan[i])
    ensures Created(a, specs, plan, k) == a
    ensures Picked(specs, plan, k, false) == [] && Picked(specs, plan, k, true) == Names(specs, plan)[..k]
  {
    if k > 0 {
      AllMatchedCreatesNothing(a, specs, plan, k - 1);
    }
  }

  lemma {:induction false} OneGroupSeen(b: State, plan: seq<Option<string>>, group: string, k: nat)
    requires k <= |plan|
    requires forall i :: 0 <= i < |plan| ==> Real(plan[i]) && GroupOf(b, plan[i].value) == Some(group)
    ensures Seen(b, plan, k) == if group == [] || k == 0 then [] else [group]
  {
    hide GroupOf;
    if k > 0 {
      OneGroupSeen(b, plan, group, k - 1);
    }
  }

  lemma {:induction false} SeenAreReal(a: State, plan: seq<Option<string>>, k: nat)
    requires k <= |plan|
    ensures forall i :: 0 <= i < |Seen(a, plan, k)| ==> Seen(a, plan, k)[i] != []
  {
    hide GroupOf;
    if k > 0 {
      SeenAreReal(a, plan, k - 1);
    }
  }

  /** Every returned host is read back as a member of the effective group. */
  lemma ReadBack(b: State, group: string, host: string)
    requires InStep(b) && OneGroup(b) && group in b.groups && host in b.groups[group]
    ensures GroupOf(b, host) == Some(group)
  {
    FirstGroupFits(b.groupOrder, b.groups, host);
    assert group in b.groupOrder;
  }

  /** A request whose hosts are all there, in one group, is answered without a change. */
  lemma AllThere(b: State, requested: string, specs: seq<HostSpec>, names: seq<string>, group: string)
    requires |names| == |specs| && group in b.groups
    requires forall i :: 0 <= i < |specs| ==>
               && Find(b, specs[i].ports) == Some(names[i]) && names[i] != []
               && GroupOf(b, names[i]) == Some(group) && names[i] in b.groups[group]
    requires specs == [] || group == [] ==> group == requested
    ensures Register(b, requested, specs) ==
            (b, Registered(group, names, specs != [] && group != requested, [], names))
  {
    hide Find, GroupOf, Created, Picked, AddAll;
    var plan := Plan(b, specs);
    AllMatchedCreatesNothing(b, specs, plan, |specs|);
    OneGroupSeen(b, plan, group, |specs|);
    assert Names(specs, plan) == names && names[..|specs|] == names;
    assert WithGroup(b, group, names) == b;
  }

  /** A second call with the same request creates nothing and changes nothing. */
  lemma SecondCallIsANoOp(a: State, requested: string, specs: seq<HostSpec>)
    requires WellPosed(a, requested, specs)
    requires Register(a, requested, specs).1.Registered?
    ensures var (after, result) := Register(a, requested, specs);
            Register(after, requested, specs) == (after, result.(created := [], reused := result.hosts))
  {
    var (after, result) := Register(a, requested, specs);
    SeenAreReal(a, Plan(a, specs), |specs|);
    assert specs == [] ==> Seen(a, Plan(a, specs), |specs|) == [];
    hide Find, Created, Seen, OneGroup, NamesFree, GroupOf, AddAll, Picked, Wanted;
    OnlyTheEffectiveGroupGrows(a, requested, specs);
    OneGroupIsKept(a, requested, specs);
    forall i: nat | i < |specs|
      ensures Find(after, specs[i].ports) == Some(result.hosts[i]) && result.hosts[i] != []
      ensures GroupOf(after, result.hosts[i]) == Some(result.group)
    {
      SecondPlanFindsAll(a, requested, specs, i);
      ReadBack(after, result.group, result.hosts[i]);
    }
    AllThere(after, requested, specs, result.hosts, result.group);
    assert result.adopted == (specs != [] && result.group != requested);
  }

  /** One unmatched name that is already in another group is enough to put a host in two. */
  lemma TakenNameBreaksOneGroup(host: string, other: string, requested: string, iqn: string)
    requires host != [] && other != [] && other != requested && iqn != [] && Strip(iqn) == iqn
    ensures var a := State([host], map[host := Ports([], [], [])], [other], map[other := [host]]);
            var specs := [HostSpec(host, Ports([iqn], [], []))];
            && OneGroup(a) && Register(a, requested, specs).1.Registered?
            && !OneGroup(Register(a, requested, specs).0)
  {
    var a := State([host], map[host := Ports([], [], [])], [other], map[other := [host]]);
    var specs := [HostSpec(host, Ports([iqn], [], []))];
    assert Owned(Ports([], [], [])) == {};
    FirstMatchFits(a.order, a.hosts, Wanted(specs[0].ports));
    var plan := Plan(a, specs);
    assert plan == [None];
    assert Seen(a, plan, 1) == [];
    assert Fresh(a, specs, 0) && specs[0].name in a.groups[other];
    OneGroupIsKept(a, requested, specs);
  }
}
