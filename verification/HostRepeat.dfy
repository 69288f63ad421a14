/**
 * Registering the same hosts again, whatever the request: initiators may be missing, untrimmed
 * or asked for twice, and names may be empty.
 */
module HostRepeat {
  import opened Wrappers
  import opened Hosts
  import opened HostRules
  import Text

  // ------------------------------------------------------------ searching again ---

  /** A host found among more hosts with more initiators, and that matched before, was found before. */
  lemma {:induction false} FoundBefore(
    order: seq<string>, more: seq<string>, hosts: map<string, Ports>, hosts': map<string, Ports>,
    want: set<Initiator>, h: string)
    requires forall k :: k in order ==>
               k in hosts && k in hosts' && (Matches(hosts[k], want) ==> Matches(hosts'[k], want))
    requires FirstMatch(order + more, hosts', want) == Some(h)
    requires h in order && Matches(hosts[h], want)
    ensures FirstMatch(order, hosts, want) == Some(h)
  {
    hide Matches;
    var k := order[0];
    assert (order + more)[0] == k && (order + more)[1..] == order[1..] + more;
    if !Matches(hosts'[k], want) {
      FoundBefore(order[1..], more, hosts, hosts', want, h);
    }
  }

  /** If a host of the old order matches now, the one found is of the old order. */
  lemma {:induction false} FoundEarly(
    order: seq<string>, more: seq<string>, hosts': map<string, Ports>, want: set<Initiator>, g: string)
    requires g in order && g in hosts' && Matches(hosts'[g], want)
    ensures FirstMatch(order + more, hosts', want).Some? && FirstMatch(order + more, hosts', want).value in order
  {
    hide Matches;
    var k := order[0];
    assert (order + more)[0] == k && (order + more)[1..] == order[1..] + more;
    if !(k in hosts' && Matches(hosts'[k], want)) {
      FoundEarly(order[1..], more, hosts', want, g);
    }
  }

  function Made(a: State, specs: seq<HostSpec>): State {
    Created(a, specs, Plan(a, specs), |specs|)
  }

  /** Hosts keep their initiators, so what matched still matches. */
  lemma StillMatches(a: State, specs: seq<HostSpec>, h: string, want: set<Initiator>)
    requires h in a.hosts && Matches(a.hosts[h], want)
    ensures h in Made(a, specs).hosts && Matches(Made(a, specs).hosts[h], want)
  {
    var x :| x in want * Owned(a.hosts[h]);
    CreatedHosts(a, specs, |specs|);
    CreatedOwned(a, specs, |specs|, h, x);
    hide Owned, Created, Brought, IsNew;
    assert x in want * Owned(Made(a, specs).hosts[h]);
  }

  /** Whatever a repeat finds for an entry, the first call returned for some entry. */
  lemma FoundIsReturned(a: State, specs: seq<HostSpec>, i: nat, h: string)
    requires Named(a) && i < |specs| && Find(Made(a, specs), specs[i].ports) == Some(h)
    ensures h in Names(specs, Plan(a, specs))
  {
    var b := Made(a, specs);
    var want := Wanted(specs[i].ports);
    CreatedKeepsGroups(a, specs, |specs|);
    FirstMatchFits(b.order, b.hosts, want);
    var x :| x in want * Owned(b.hosts[h]);
    CreatedOwned(a, specs, |specs|, h, x);
    hide Owned, Wanted, Created, FirstMatch;
    if Brought(a, specs, |specs|, h, x) {
      var j: nat :| j < |specs| && Fresh(a, specs, j) && specs[j].name == h;
      assert Names(specs, Plan(a, specs))[j] == h;
    } else {
      assert x in want * Owned(a.hosts[h]);
      MatchedIsReturned(a, specs, i, h);
    }
  }

  /** `b` has the hosts of `a` first, and what matched still matches. */
  ghost predicate Grows(a: State, b: State, want: set<Initiator>) {
    && a.order <= b.order
    && forall k :: k in a.order ==>
         k in a.hosts && k in b.hosts && (Matches(a.hosts[k], want) ==> Matches(b.hosts[k], want))
  }

  lemma MadeGrows(a: State, specs: seq<HostSpec>, want: set<Initiator>)
    requires InStep(a)
    ensures Grows(a, Made(a, specs), want)
  {
    CreatedKeepsGroups(a, specs, |specs|);
    CreatedHosts(a, specs, |specs|);
    hide Matches, Created, IsNew;
    forall k | k in a.order && Matches(a.hosts[k], want) ensures Matches(Made(a, specs).hosts[k], want) {
      StillMatches(a, specs, k, want);
    }
  }

  lemma FoundBeforeIn(a: State, b: State, want: set<Initiator>, h: string)
    requires Grows(a, b, want) && FirstMatch(b.order, b.hosts, want) == Some(h)
    requires h in a.order && Matches(a.hosts[h], want)
    ensures FirstMatch(a.order, a.hosts, want) == Some(h)
  {
    hide Matches, FirstMatch;
    assert a.order + b.order[|a.order|..] == b.order;
    FoundBefore(a.order, b.order[|a.order|..], a.hosts, b.hosts, want, h);
  }

  lemma FoundEarlyIn(a: State, b: State, want: set<Initiator>, g: string)
    requires Grows(a, b, want) && g in a.order && Matches(a.hosts[g], want)
    ensures FirstMatch(b.order, b.hosts, want).Some? && FirstMatch(b.order, b.hosts, want).value in a.order
  {
    hide Matches, FirstMatch;
    assert a.order + b.order[|a.order|..] == b.order;
    FoundEarly(a.order, b.order[|a.order|..], b.hosts, want, g);
  }

  lemma MatchedIsReturned(a: State, specs: seq<HostSpec>, i: nat, h: string)
    requires Named(a) && i < |specs| && Find(Made(a, specs), specs[i].ports) == Some(h)
    requires h in a.hosts && Matches(a.hosts[h], Wanted(specs[i].ports))
    ensures h in Names(specs, Plan(a, specs))
  {
    MadeGrows(a, specs, Wanted(specs[i].ports));
    FoundBeforeIn(a, Made(a, specs), Wanted(specs[i].ports), h);
    hide Wanted, Matches, Made, FirstMatch, Grows;
    assert Names(specs, Plan(a, specs))[i] == h;
  }

  /** An entry that matched is found again under a real name. */
  lemma MatchedIsFoundAgain(a: State, specs: seq<HostSpec>, i: nat)
    requires Named(a) && i < |specs| && !Fresh(a, specs, i)
    ensures Real(Find(Made(a, specs), specs[i].ports))
  {
    FirstMatchFits(a.order, a.hosts, Wanted(specs[i].ports));
    MadeGrows(a, specs, Wanted(specs[i].ports));
    FoundEarlyIn(a, Made(a, specs), Wanted(specs[i].ports), Find(a, specs[i].ports).value);
    hide Wanted, Matches, Made, FirstMatch, Grows;
  }

  // ------------------------------------------------------------ creating again ---

  predicate Holds(h: Ports, ports: Ports) {
    && (forall s :: s in ports.iqns ==> s in h.iqns)
    && (forall s :: s in ports.wwns ==> s in h.wwns)
    && (forall s :: s in ports.nqns ==> s in h.nqns)
  }

  lemma {:induction false} CreatedHolds(a: State, specs: seq<HostSpec>, k: nat, i: nat)
    requires i < k <= |specs| && Fresh(a, specs, i)
    ensures var b := Created(a, specs, Plan(a, specs), k);
            specs[i].name in b.hosts && Holds(b.hosts[specs[i].name], specs[i].ports)
  {
    hide Find, AddAll;
    if i < k - 1 {
      CreatedHolds(a, specs, k - 1, i);
    }
  }

  lemma HoldingChangesNothing(b: State, name: string, ports: Ports)
    requires name in b.hosts && Holds(b.hosts[name], ports)
    ensures WithHost(b, name, ports) == b
  {
    hide AddAll;
  }

  lemma {:induction false} NothingToCreate(b: State, specs: seq<HostSpec>, plan: seq<Option<string>>, k: nat)
    requires k <= |specs| == |plan|
    requires forall i :: 0 <= i < |specs| && !Real(plan[i]) ==>
               specs[i].name in b.hosts && Holds(b.hosts[specs[i].name], specs[i].ports)
    ensures Created(b, specs, plan, k) == b
  {
    hide WithHost, Holds;
    if k > 0 {
      NothingToCreate(b, specs, plan, k - 1);
      if !Real(plan[k - 1]) {
        HoldingChangesNothing(b, specs[k - 1].name, specs[k - 1].ports);
      }
    }
  }

  lemma {:induction false} OnlyThatGroupSeen(b: State, plan: seq<Option<string>>, group: string, k: nat)
    requires k <= |plan|
    requires forall i :: 0 <= i < |plan| && Real(plan[i]) ==> GroupOf(b, plan[i].value) == Some(group)
    ensures Seen(b, plan, k) == if group != [] && exists i :: 0 <= i < k && Real(plan[i]) then [group] else []
  {
    hide GroupOf;
    if k > 0 {
      OnlyThatGroupSeen(b, plan, group, k - 1);
    }
  }

  /** If the effective group was adopted, some entry had matched. */
  lemma AdoptedWasMatched(a: State, requested: string, specs: seq<HostSpec>)
    requires Effective(a, requested, specs) != requested
    ensures Effective(a, requested, specs) != [] && exists i: nat :: i < |specs| && !Fresh(a, specs, i)
  {
    var plan := Plan(a, specs);
    var seen := Seen(a, plan, |specs|);
    SeenAreReal(a, plan, |specs|);
    SeenAreTheGroups(a, plan, |specs|);
    hide Seen;
    assert seen[0] in seen;
    var i: nat :| i < |specs| && GroupAt(a, plan, i) == Some(seen[0]);
    assert !Fresh(a, specs, i);
  }

  // ------------------------------------------------------------ the second call ---

  /** What is found for an entry is a member of the group, or it asks for a host that is there. */
  predicate Answered(b: State, spec: HostSpec, group: string) {
    var f := Find(b, spec.ports);
    && group in b.groups && NameOf(spec, f) in b.groups[group]
    && (Real(f) ==> GroupOf(b, f.value) == Some(group))
    && (!Real(f) ==> spec.name in b.hosts && Holds(b.hosts[spec.name], spec.ports))
  }

  lemma RepeatIsAnswered(a: State, requested: string, specs: seq<HostSpec>, i: nat)
    requires Named(a) && OneGroup(a) && Register(a, requested, specs).1.Registered? && i < |specs|
    requires NamesFree(a, specs, Effective(a, requested, specs))
    ensures var (after, result) := Register(a, requested, specs);
            && Answered(after, specs[i], result.group)
            && (!Fresh(a, specs, i) ==> Real(Find(after, specs[i].ports)))
  {
    var (after, result) := Register(a, requested, specs);
    var b := Made(a, specs);
    assert after.order == b.order && after.hosts == b.hosts && result.hosts == Names(specs, Plan(a, specs));
    var f := Find(b, specs[i].ports);
    assert Find(after, specs[i].ports) == f;
    OnlyTheEffectiveGroupGrows(a, requested, specs);
    OneGroupIsKept(a, requested, specs);
    if Real(f) {
      FoundIsReturned(a, specs, i, f.value);
      ReadBack(after, result.group, f.value);
    } else {
      if !Fresh(a, specs, i) {
        MatchedIsFoundAgain(a, specs, i);
      }
      CreatedHolds(a, specs, |specs|, i);
      assert result.hosts[i] == specs[i].name;
    }
    hide Register, Created, Find, GroupOf, OneGroup, NamesFree, Holds;
  }

  ghost predicate AllAnswered(b: State, specs: seq<HostSpec>, group: string) {
    group in b.groups && forall i :: 0 <= i < |specs| ==> Answered(b, specs[i], group)
  }

  lemma AnsweredCreatesNothing(b: State, specs: seq<HostSpec>, group: string)
    requires AllAnswered(b, specs, group)
    ensures Created(b, specs, Plan(b, specs), |specs|) == b
    ensures WithGroup(b, group, Names(specs, Plan(b, specs))) == b
  {
    hide Find, GroupOf, Holds, AddAll, Created;
    forall i | 0 <= i < |specs| ensures Answered(b, specs[i], group) {}
    NothingToCreate(b, specs, Plan(b, specs), |specs|);
    forall n | n in Names(specs, Plan(b, specs)) ensures n in b.groups[group] {
      var i :| 0 <= i < |specs| && Names(specs, Plan(b, specs))[i] == n;
      assert Answered(b, specs[i], group);
    }
  }

  lemma AnsweredSeesTheGroup(b: State, specs: seq<HostSpec>, group: string)
    requires AllAnswered(b, specs, group)
    ensures Seen(b, Plan(b, specs), |specs|) ==
            if group != [] && exists i :: 0 <= i < |specs| && Real(Plan(b, specs)[i]) then [group] else []
  {
    hide Find, GroupOf, Holds, Seen;
    forall i | 0 <= i < |specs| && Real(Plan(b, specs)[i]) ensures GroupOf(b, Plan(b, specs)[i].value) == Some(group) {
      assert Answered(b, specs[i], group);
    }
    OnlyThatGroupSeen(b, Plan(b, specs), group, |specs|);
  }

  /** With this, the whole repeat is answered without a change. */
  lemma AnsweredChangesNothing(b: State, requested: string, specs: seq<HostSpec>, group: string)
    requires AllAnswered(b, specs, group)
    requires group == requested || (group != [] && exists i :: 0 <= i < |specs| && Real(Plan(b, specs)[i]))
    ensures Unchanged(b, requested, specs, group)
  {
    AnsweredCreatesNothing(b, specs, group);
    AnsweredSeesTheGroup(b, specs, group);
    hide AllAnswered, Find, WithGroup, Created, Seen, Picked, Plan, Names;
  }

  /** The call leaves the array as it is, and tells this group and the entries it finds nothing for. */
  predicate Unchanged(b: State, requested: string, specs: seq<HostSpec>, group: string) {
    var (again, answer) := Register(b, requested, specs);
    && again == b && answer.Registered? && answer.group == group
    && answer.created == Picked(specs, Plan(b, specs), |specs|, false)
  }

  /**
   * A second call with the same request changes nothing on the array, and uses the same group,
   * provided the first one put no host in a second group.
   */
  lemma SecondCallChangesNothing(a: State, requested: string, specs: seq<HostSpec>)
    requires Named(a) && OneGroup(a) && Register(a, requested, specs).1.Registered?
    requires NamesFree(a, specs, Effective(a, requested, specs))
    ensures var (after, result) := Register(a, requested, specs);
            Unchanged(after, requested, specs, result.group)
  {
    var (after, result) := Register(a, requested, specs);
    assert result.group == Effective(a, requested, specs);
    OnlyTheEffectiveGroupGrows(a, requested, specs);
    hide Register, Effective, OneGroup, NamesFree, Find, Answered, Created, Fresh, Unchanged, Named;
    forall i | 0 <= i < |specs|
      ensures Answered(after, specs[i], result.group) && (!Fresh(a, specs, i) ==> Real(Plan(after, specs)[i]))
    {
      RepeatIsAnswered(a, requested, specs, i);
    }
    if result.group != requested {
      AdoptedWasMatched(a, requested, specs);
    }
    AnsweredChangesNothing(after, requested, specs, result.group);
  }

  // ------------------------------------------------------------ what is created again ---

  /** An entry that a repeat finds: it matched, or wants an initiator that a new entry brings. */
  ghost predicate FindsItself(a: State, specs: seq<HostSpec>, i: nat)
    requires i < |specs|
  {
    !Fresh(a, specs, i) || exists j: nat :: j < |specs| && Fresh(a, specs, j)
                                            && Wanted(specs[i].ports) * Owned(specs[j].ports) != {}
  }

  lemma FoundAgainExactly(a: State, specs: seq<HostSpec>, i: nat)
    requires Named(a) && i < |specs|
    requires forall j :: 0 <= j < |specs| && Fresh(a, specs, j) ==> specs[j].name != []
    ensures Real(Find(Made(a, specs), specs[i].ports)) <==> FindsItself(a, specs, i)
  {
    var b := Made(a, specs);
    var want := Wanted(specs[i].ports);
    var f := Find(b, specs[i].ports);
    CreatedKeepsGroups(a, specs, |specs|);
    CreatedHosts(a, specs, |specs|);
    FirstMatchFits(b.order, b.hosts, want);
    FirstMatchFits(a.order, a.hosts, want);
    hide Owned, Wanted, Created, FirstMatch;
    if !Fresh(a, specs, i) {
      MatchedIsFoundAgain(a, specs, i);
    } else if FindsItself(a, specs, i) {
      var j: nat :| j < |specs| && Fresh(a, specs, j) && want * Owned(specs[j].ports) != {};
      var x :| x in want * Owned(specs[j].ports);
      FreshTakes(a, specs, j, x);
      CreatedTakes(a, specs, specs[j].name, x);
      assert x in want * Owned(b.hosts[specs[j].name]);
      assert specs[j].name in b.order && Matches(b.hosts[specs[j].name], want);
    } else if f.Some? {
      var x :| x in want * Owned(b.hosts[f.value]);
      CreatedTakes(a, specs, f.value, x);
      FoundWasThere(a, specs, i, f.value, x);
    }
  }

  lemma FoundWasThere(a: State, specs: seq<HostSpec>, i: nat, h: string, x: Initiator)
    requires Named(a) && i < |specs| && x in Wanted(specs[i].ports) && Takes(a, specs, h, x)
    ensures FindsItself(a, specs, i)
  {
    hide Owned, Wanted;
    if Brought(a, specs, |specs|, h, x) {
      var j: nat :| j < |specs| && Fresh(a, specs, j) && x in Owned(specs[j].ports);
      assert x in Wanted(specs[i].ports) * Owned(specs[j].ports);
    } else if Fresh(a, specs, i) {
      FreshOwnsNothing(a, specs, i, h);
    }
  }

  lemma {:induction false} NonePicked(specs: seq<HostSpec>, plan: seq<Option<string>>, k: nat)
    requires k <= |specs| == |plan|
    ensures Picked(specs, plan, k, false) == [] <==> forall i :: 0 <= i < k ==> Real(plan[i])
  {
    if k > 0 {
      NonePicked(specs, plan, k - 1);
    }
  }

  /**
   * It creates nothing exactly when every entry matched, or wants an initiator that a new entry
   * brings: one without initiators, or with an untrimmed one only, is created anew each time.
   */
  lemma SecondCallCreatesNothingExactly(a: State, requested: string, specs: seq<HostSpec>)
    requires Named(a) && OneGroup(a) && Register(a, requested, specs).1.Registered?
    requires NamesFree(a, specs, Effective(a, requested, specs))
    requires forall j :: 0 <= j < |specs| && Fresh(a, specs, j) ==> specs[j].name != []
    ensures var answer := Register(Register(a, requested, specs).0, requested, specs).1;
            answer.Registered? && (answer.created == [] <==> forall i: nat :: i < |specs| ==> FindsItself(a, specs, i))
  {
    var (after, result) := Register(a, requested, specs);
    var b := Made(a, specs);
    assert after.order == b.order && after.hosts == b.hosts;
    SecondCallChangesNothing(a, requested, specs);
    NonePicked(specs, Plan(after, specs), |specs|);
    forall i: nat | i < |specs| ensures Real(Plan(after, specs)[i]) <==> FindsItself(a, specs, i) {
      FoundAgainExactly(a, specs, i);
      assert Find(after, specs[i].ports) == Find(b, specs[i].ports);
    }
    hide Register, Created, FindsItself, Find, Picked, OneGroup, NamesFree, Effective;
  }

  // ------------------------------------------------------------ requests that show it ---

  const EMPTY := State([], map[], [], map[])

  lemma EmptyIsFresh(specs: seq<HostSpec>, requested: string)
    ensures Named(EMPTY) && OneGroup(EMPTY) && OneOwner(EMPTY)
    ensures forall i: nat :: i < |specs| ==> Fresh(EMPTY, specs, i)
    ensures Register(EMPTY, requested, specs).1.Registered?
    ensures NamesFree(EMPTY, specs, Effective(EMPTY, requested, specs))
  {
    forall i: nat | i < |specs| ensures Fresh(EMPTY, specs, i) {
      assert Find(EMPTY, specs[i].ports) == None;
    }
    OnlyThatGroupSeen(EMPTY, Plan(EMPTY, specs), requested, |specs|);
    assert forall i: nat :: i < |specs| ==> Fresh(EMPTY, specs, i);
  }

  /** Two new hosts with one initiator between them both own it. */
  lemma SharedInitiatorBreaksOneOwner(g: string, h: string, iqn: string, requested: string)
    requires g != h
    ensures var specs := [HostSpec(g, Ports([iqn], [], [])), HostSpec(h, Ports([iqn], [], []))];
            !OneOwner(Register(EMPTY, requested, specs).0)
  {
    var specs := [HostSpec(g, Ports([iqn], [], [])), HostSpec(h, Ports([iqn], [], []))];
    EmptyIsFresh(specs, requested);
    var x := Iqn(Text.Lower(iqn));
    assert iqn in specs[0].ports.iqns && iqn in specs[1].ports.iqns;
    assert x in Owned(specs[0].ports) && x in Owned(specs[1].ports);
    FreshTakes(EMPTY, specs, 1, x);
    OneOwnerIsKept(EMPTY, requested, specs);
    hide Owned, Register, OneOwner, Fresh, Takes;
    assert specs[0].name == g && specs[1].name == h;
  }

  /** A host without initiators is created again by every call. */
  lemma WithoutInitiatorsIsCreatedAgain(name: string, requested: string)
    requires name != []
    ensures var specs := [HostSpec(name, Ports([], [], []))];
            var answer := Register(Register(EMPTY, requested, specs).0, requested, specs).1;
            answer.Registered? && answer.created != []
  {
    var specs := [HostSpec(name, Ports([], [], []))];
    EmptyIsFresh(specs, requested);
    SecondCallCreatesNothingExactly(EMPTY, requested, specs);
    assert Wanted(specs[0].ports) == {};
    assert !FindsItself(EMPTY, specs, 0);
    hide Register, FindsItself;
  }
}
