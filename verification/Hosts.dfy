/**
 * Hosts and host groups of the in-memory FlashArray client, and the two-phase registration of
 * a pool's hosts that every connector goes through.
 */
module Hosts {
  import opened Wrappers
  import opened Text
  import opened Sorting

  /** The three initiator lists of a host, or of a request for one. */
  datatype Ports = Ports(iqns: seq<string>, wwns: seq<string>, nqns: seq<string>)

  datatype HostSpec = HostSpec(name: string, ports: Ports)

  /** `order` and `groupOrder` are the insertion orders of the two dictionaries. */
  datatype State = State(
    order: seq<string>, hosts: map<string, Ports>,
    groupOrder: seq<string>, groups: map<string, seq<string>>)

  datatype Registration =
    | Registered(group: string, hosts: seq<string>, adopted: bool, created: seq<string>, reused: seq<string>)
    | Conflict(spread: seq<(string, seq<string>)>)

  // ------------------------------------------------------------ initiators ---

  datatype Initiator = Iqn(name: string) | Wwn(name: string) | Nqn(name: string)

  /** Lower case, without ':', '-' and blanks. */
  function NormWwn(s: string): string {
    if s == [] then []
    else (if s[0] in ":- " then [] else [LowerChar(s[0])]) + NormWwn(s[1..])
  }

  function Owned(h: Ports): set<Initiator> {
    (set s | s in h.iqns :: Iqn(Lower(s))) + (set s | s in h.wwns :: Wwn(NormWwn(s)))
    + (set s | s in h.nqns :: Nqn(Lower(s)))
  }

  function Wanted(h: Ports): set<Initiator> {
    (set s | s in h.iqns && Strip(s) != [] :: Iqn(Lower(Strip(s))))
    + (set s | s in h.wwns && Strip(s) != [] :: Wwn(NormWwn(s)))
    + (set s | s in h.nqns && Strip(s) != [] :: Nqn(Lower(Strip(s))))
  }

  predicate Trimmed(h: Ports) {
    && (forall s :: s in h.iqns ==> s != [] && Strip(s) == s)
    && (forall s :: s in h.wwns ==> Strip(s) != [])
    && (forall s :: s in h.nqns ==> s != [] && Strip(s) == s)
  }

  lemma TrimmedIsWanted(h: Ports)
    requires Trimmed(h)
    ensures Wanted(h) == Owned(h)
  {}

  predicate Matches(h: Ports, want: set<Initiator>) {
    want * Owned(h) != {}
  }

  // ------------------------------------------------------------ the operations ---

  /** The new values at the end, each once. */
  function AddAll(list: seq<string>, vals: seq<string>): (r: seq<string>)
    ensures forall x :: x in r <==> x in list || x in vals
    ensures (forall x :: x in vals ==> x in list) ==> r == list
    decreases |vals|
  {
    if vals == [] then list
    else AddAll(if vals[0] in list then list else list + [vals[0]], vals[1..])
  }

  function FirstMatch(order: seq<string>, hosts: map<string, Ports>, want: set<Initiator>): Option<string> {
    if order == [] then None
    else if order[0] in hosts && Matches(hosts[order[0]], want) then Some(order[0])
    else FirstMatch(order[1..], hosts, want)
  }

  function FirstGroup(order: seq<string>, groups: map<string, seq<string>>, host: string): Option<string> {
    if order == [] then None
    else if order[0] in groups && host in groups[order[0]] then Some(order[0])
    else FirstGroup(order[1..], groups, host)
  }

  function Find(a: State, want: Ports): Option<string> {
    FirstMatch(a.order, a.hosts, Wanted(want))
  }

  function GroupOf(a: State, host: string): Option<string> {
    FirstGroup(a.groupOrder, a.groups, host)
  }

  function WithHost(a: State, name: string, ports: Ports): State {
    var h := if name in a.hosts then a.hosts[name] else Ports([], [], []);
    var merged := Ports(AddAll(h.iqns, ports.iqns), AddAll(h.wwns, ports.wwns), AddAll(h.nqns, ports.nqns));
    a.(order := if name in a.hosts then a.order else a.order + [name], hosts := a.hosts[name := merged])
  }

  function WithGroup(a: State, name: string, members: seq<string>): State {
    var g := if name in a.groups then a.groups[name] else [];
    a.(groupOrder := if name in a.groups then a.groupOrder else a.groupOrder + [name],
       groups := a.groups[name := AddAll(g, members)])
  }

  /** `list.remove` */
  function RemoveFirst(list: seq<string>, x: string): seq<string> {
    if list == [] then []
    else if list[0] == x then list[1..]
    else [list[0]] + RemoveFirst(list[1..], x)
  }

  function WithoutMember(a: State, group: string, host: string): State {
    if group in a.groups && host in a.groups[group] then
      a.(groups := a.groups[group := RemoveFirst(a.groups[group], host)])
    else a
  }

  function WithoutHost(a: State, host: string): State {
    if host in a.hosts then a.(order := RemoveFirst(a.order, host), hosts := a.hosts - {host}) else a
  }

  function MembersOf(a: State, group: string): seq<string> {
    if group in a.groups then a.groups[group] else []
  }

  /** Python's truth of a name: neither missing nor empty. */
  predicate Real(name: Option<string>) {
    name.Some? && name.value != []
  }

  // ------------------------------------------------------------ registration ---

  function Plan(a: State, specs: seq<HostSpec>): (plan: seq<Option<string>>)
    ensures |plan| == |specs|
    ensures forall i :: 0 <= i < |specs| ==> plan[i] == Find(a, specs[i].ports)
  {
    seq(|specs|, i requires 0 <= i < |specs| => Find(a, specs[i].ports))
  }

  /** The groups of the first `k` matched hosts, as first seen. */
  function Seen(a: State, plan: seq<Option<string>>, k: nat): seq<string>
    requires k <= |plan|
  {
    if k == 0 then []
    else
      var before := Seen(a, plan, k - 1);
      if Real(plan[k - 1]) && Real(GroupOf(a, plan[k - 1].value))
         && GroupOf(a, plan[k - 1].value).value !in before then
        before + [GroupOf(a, plan[k - 1].value).value]
      else before
  }

  /** The matched hosts of a group among the first `k` entries. */
  function HostsIn(a: State, plan: seq<Option<string>>, group: string, k: nat): seq<string>
    requires k <= |plan|
  {
    if k == 0 then []
    else HostsIn(a, plan, group, k - 1)
         + if Real(plan[k - 1]) && GroupOf(a, plan[k - 1].value) == Some(group) then [plan[k - 1].value] else []
  }

  /** Each of the groups with its matched hosts. */
  function Spread(a: State, plan: seq<Option<string>>, groups: seq<string>): seq<(string, seq<string>)> {
    seq(|groups|, i requires 0 <= i < |groups| => (groups[i], HostsIn(a, plan, groups[i], |plan|)))
  }

  /** The array once the first `k` entries that matched nothing have their host. */
  function Created(a: State, specs: seq<HostSpec>, plan: seq<Option<string>>, k: nat): State
    requires k <= |specs| == |plan|
  {
    if k == 0 then a
    else
      var b := Created(a, specs, plan, k - 1);
      if Real(plan[k - 1]) then b else WithHost(b, specs[k - 1].name, specs[k - 1].ports)
  }

  function NameOf(spec: HostSpec, match_: Option<string>): string {
    if Real(match_) then match_.value else spec.name
  }

  function Names(specs: seq<HostSpec>, plan: seq<Option<string>>): seq<string>
    requires |specs| == |plan|
  {
    seq(|specs|, i requires 0 <= i < |specs| => NameOf(specs[i], plan[i]))
  }

  /** The names, among the first `k`, that matched (`yes`) or did not. */
  function Picked(specs: seq<HostSpec>, plan: seq<Option<string>>, k: nat, yes: bool): seq<string>
    requires k <= |specs| == |plan|
  {
    if k == 0 then []
    else Picked(specs, plan, k - 1, yes)
         + if Real(plan[k - 1]) == yes then [NameOf(specs[k - 1], plan[k - 1])] else []
  }

  function Effective(a: State, requested: string, specs: seq<HostSpec>): string {
    var seen := Seen(a, Plan(a, specs), |specs|);
    if seen == [] then requested else seen[0]
  }

  function Register(a: State, requested: string, specs: seq<HostSpec>): (State, Registration) {
    var plan := Plan(a, specs);
    var seen := Seen(a, plan, |specs|);
    if |seen| > 1 then
      (a, Conflict(Spread(a, plan, SortNames(seen))))
    else
      var group := if seen == [] then requested else seen[0];
      var names := Names(specs, plan);
      (WithGroup(Created(a, specs, plan, |specs|), group, names),
       Registered(group, names, seen != [] && group != requested,
                  Picked(specs, plan, |specs|, false), Picked(specs, plan, |specs|, true)))
  }

  /** The client object. */
  class HostArray {
    var order: seq<string>
    var hosts: map<string, Ports>
    var groupOrder: seq<string>
    var groups: map<string, seq<string>>

    constructor ()
      ensures View() == State([], map[], [], map[])
    {
      order, hosts, groupOrder, groups := [], map[], [], map[];
    }

    function View(): State
      reads this
    {
      State(order, hosts, groupOrder, groups)
    }

    method FindHostByInitiator(want: Ports) returns (name: Option<string>)
      ensures name == Find(View(), want)
    {
      var keys := Wanted(want);
      if keys == {} {
        NothingMatches(order, hosts);
        return None;
      }
      for i := 0 to |order|
        invariant Find(View(), want) == FirstMatch(order[i..], hosts, keys)
      {
        if order[i] in hosts && keys * Owned(hosts[order[i]]) != {} {
          return Some(order[i]);
        }
      }
      name := None;
    }

    method GetHostGroup(host: string) returns (group: Option<string>)
      ensures group == if host in hosts then GroupOf(View(), host) else None
    {
      if host !in hosts {
        return None;
      }
      for i := 0 to |groupOrder|
        invariant GroupOf(View(), host) == FirstGroup(groupOrder[i..], groups, host)
      {
        if groupOrder[i] in groups && host in groups[groupOrder[i]] {
          return Some(groupOrder[i]);
        }
      }
      group := None;
    }

    method CreateHost(name: string, ports: Ports)
      modifies this
      ensures View() == WithHost(old(View()), name, ports)
    {
      var h := if name in hosts then hosts[name] else Ports([], [], []);
      if name !in hosts {
        order := order + [name];
      }
      var iqns := AddMissing(h.iqns, ports.iqns);
      var wwns := AddMissing(h.wwns, ports.wwns);
      var nqns := AddMissing(h.nqns, ports.nqns);
      hosts := hosts[name := Ports(iqns, wwns, nqns)];
    }

    method CreateHostGroup(name: string, members: seq<string>)
      modifies this
      ensures View() == WithGroup(old(View()), name, members)
    {
      var g := if name in groups then groups[name] else [];
      if name !in groups {
        groupOrder := groupOrder + [name];
      }
      var all := AddMissing(g, members);
      groups := groups[name := all];
    }

    method RemoveHostFromGroup(name: string, host: string)
      modifies this
      ensures View() == WithoutMember(old(View()), name, host)
    {
      if name in groups && host in groups[name] {
        groups := groups[name := RemoveFirst(groups[name], host)];
      }
    }

    method DeleteHost(name: string)
      modifies this
      ensures View() == WithoutHost(old(View()), name)
    {
      if name in hosts {
        order := RemoveFirst(order, name);
        hosts := hosts - {name};
      }
    }

    /** The first phase, which only reads: whom each entry matches, and where that host belongs. */
    method MatchHosts(specs: seq<HostSpec>)
      returns (plan: seq<Option<string>>, seen: seq<string>, groupsSeen: map<string, seq<string>>)
      ensures plan == Plan(View(), specs) && seen == Seen(View(), plan, |specs|)
      ensures SeenIn(View(), plan, |specs|, seen, groupsSeen)
    {
      hide Find, GroupOf, Matches, FirstMatch, Wanted, Owned, SeenIn;
      plan, seen, groupsSeen := [], [], map[];
      ghost var wanted := Plan(View(), specs);
      NothingSeen(View(), wanted);
      for i := 0 to |specs|
        invariant plan == wanted[..i]
        invariant seen == Seen(View(), wanted, i) && SeenIn(View(), wanted, i, seen, groupsSeen)
      {
        var existing := FindHostByInitiator(specs[i].ports);
        var cur: Option<string> := None;
        if Real(existing) {
          FindFits(View(), specs[i].ports);
          cur := GetHostGroup(existing.value);
        }
        OneMoreSeen(View(), wanted, i, seen, groupsSeen);
        if Real(cur) {
          var before := if cur.value in groupsSeen then groupsSeen[cur.value] else [];
          seen := if cur.value in groupsSeen then seen else seen + [cur.value];
          groupsSeen := groupsSeen[cur.value := before + [existing.value]];
        }
        plan := plan + [existing];
      }
      assert plan == wanted;
    }

    /** First match every host and see where it belongs; only then, and only without a
      * conflict, create what is missing and fill the group. */
    method RegisterHostGroup(requested: string, specs: seq<HostSpec>) returns (result: Registration)
      modifies this
      ensures (View(), result) == Register(old(View()), requested, specs)
    {
      hide WithHost, WithGroup, Find, Plan, Seen, SeenIn, HostsIn;
      var plan, seen, groupsSeen := MatchHosts(specs);
      var distinct := SortNames(seen);
      SortedNames(seen);
      hide SortNames;
      if |distinct| > 1 {
        var spread := SpreadOver(View(), plan, distinct, seen, groupsSeen);
        return Conflict(spread);
      }
      assert seen != [] ==> seen == [seen[0]] && seen[0] in distinct;
      var group := if distinct == [] then requested else distinct[0];
      var adopted := distinct != [] && group != requested;
      var names: seq<string>, created: seq<string>, reused: seq<string> := [], [], [];
      for i := 0 to |specs|
        invariant View() == Created(old(View()), specs, plan, i)
        invariant names == Names(specs, plan)[..i]
        invariant created == Picked(specs, plan, i, false)
        invariant reused == Picked(specs, plan, i, true)
      {
        if Real(plan[i]) {
          reused := reused + [plan[i].value];
          names := names + [plan[i].value];
        } else {
          CreateHost(specs[i].name, specs[i].ports);
          created := created + [specs[i].name];
          names := names + [specs[i].name];
        }
      }
      assert names == Names(specs, plan);
      CreateHostGroup(group, names);
      result := Registered(group, names, adopted, created, reused);
    }
  }

  /** The dictionary of the groups seen, with their matched hosts. */
  ghost predicate SeenIn(
    a: State, plan: seq<Option<string>>, k: nat, seen: seq<string>, groupsSeen: map<string, seq<string>>)
    requires k <= |plan|
  {
    && (forall g :: g in seen <==> g in groupsSeen) && [] !in groupsSeen
    && (forall g :: g in groupsSeen ==> groupsSeen[g] == HostsIn(a, plan, g, k))
    && (forall g :: g !in groupsSeen && g != [] ==> HostsIn(a, plan, g, k) == [])
  }

  lemma NothingSeen(a: State, plan: seq<Option<string>>)
    ensures SeenIn(a, plan, 0, [], map[])
  {}

  lemma OneMoreSeen(
    a: State, plan: seq<Option<string>>, k: nat, seen: seq<string>, groupsSeen: map<string, seq<string>>)
    requires k < |plan| && SeenIn(a, plan, k, seen, groupsSeen) && seen == Seen(a, plan, k)
    ensures var here := if Real(plan[k]) then GroupOf(a, plan[k].value) else None;
            if Real(here) then
              var before := if here.value in groupsSeen then groupsSeen[here.value] else [];
              var more := if here.value in groupsSeen then seen else seen + [here.value];
              && more == Seen(a, plan, k + 1)
              && SeenIn(a, plan, k + 1, more, groupsSeen[here.value := before + [plan[k].value]])
            else seen == Seen(a, plan, k + 1) && SeenIn(a, plan, k + 1, seen, groupsSeen)
  {
    hide GroupOf;
    var here := if Real(plan[k]) then GroupOf(a, plan[k].value) else None;
    forall g | g != []
      ensures HostsIn(a, plan, g, k + 1) == HostsIn(a, plan, g, k) + if here == Some(g) then [plan[k].value] else []
    {}
    hide HostsIn;
  }

  method SpreadOver(
    a: State, plan: seq<Option<string>>, groups: seq<string>,
    ghost seen: seq<string>, groupsSeen: map<string, seq<string>>)
    returns (spread: seq<(string, seq<string>)>)
    requires SeenIn(a, plan, |plan|, seen, groupsSeen) && forall g :: g in groups ==> g in seen
    ensures spread == Spread(a, plan, groups)
  {
    hide HostsIn;
    spread := [];
    for i := 0 to |groups|
      invariant spread == Spread(a, plan, groups)[..i]
    {
      assert groups[i] in groups;
      spread := spread + [(groups[i], groupsSeen[groups[i]])];
    }
  }

  method AddMissing(list: seq<string>, vals: seq<string>) returns (r: seq<string>)
    ensures r == AddAll(list, vals)
  {
    r := list;
    for i := 0 to |vals|
      invariant AddAll(r, vals[i..]) == AddAll(list, vals)
    {
      if vals[i] !in r {
        r := r + [vals[i]];
      }
    }
  }

  /** The insertion orders list exactly the dictionaries' keys. */
  ghost predicate InStep(a: State) {
    && (forall h :: h in a.order <==> h in a.hosts)
    && (forall g :: g in a.groupOrder <==> g in a.groups)
  }

  // ------------------------------------------------------------ searching ---

  lemma {:induction false} NothingMatches(order: seq<string>, hosts: map<string, Ports>)
    ensures FirstMatch(order, hosts, {}) == None
  {
    if order != [] {
      NothingMatches(order[1..], hosts);
    }
  }

  /** A search finds a host exactly when some host owns a wanted initiator. */
  lemma {:induction false} FirstMatchFits(order: seq<string>, hosts: map<string, Ports>, want: set<Initiator>)
    ensures var found := FirstMatch(order, hosts, want);
            && (found.Some? ==> found.value in order && found.value in hosts && Matches(hosts[found.value], want))
            && (found.None? ==> forall h :: h in order && h in hosts ==> !Matches(hosts[h], want))
  {
    if order != [] {
      FirstMatchFits(order[1..], hosts, want);
    }
  }

  lemma FindFits(a: State, want: Ports)
    ensures Find(a, want).Some? ==> Find(a, want).value in a.hosts
  {
    FirstMatchFits(a.order, a.hosts, Wanted(want));
  }

  /** More hosts at the end, and initiators nobody asked for, do not change what is found. */
  lemma {:induction false} FirstMatchStays(
    order: seq<string>, more: seq<string>, hosts: map<string, Ports>, hosts': map<string, Ports>, want: set<Initiator>)
    requires FirstMatch(order, hosts, want).Some?
    requires forall h :: h in order ==> h in hosts && h in hosts' && Matches(hosts[h], want) == Matches(hosts'[h], want)
    ensures FirstMatch(order + more, hosts', want) == FirstMatch(order, hosts, want)
  {
    if !(order[0] in hosts && Matches(hosts[order[0]], want)) {
      FirstMatchStays(order[1..], more, hosts, hosts', want);
      assert (order + more)[1..] == order[1..] + more;
    }
  }

  lemma {:induction false} FirstGroupFits(order: seq<string>, groups: map<string, seq<string>>, host: string)
    ensures var found := FirstGroup(order, groups, host);
            && (found.Some? ==> found.value in order && found.value in groups && host in groups[found.value])
            && (found.None? ==> forall g :: g in order && g in groups ==> host !in groups[g])
  {
    if order != [] {
      FirstGroupFits(order[1..], groups, host);
    }
  }
}
