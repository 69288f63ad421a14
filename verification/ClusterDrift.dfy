/**
 * Drift between the nodes of an HPE VME cluster and the members of its host group on the
 * array: who is known to be whom, and the pruning of hosts whose node is gone.
 */
module ClusterDrift {
  import opened Wrappers
  import opened Hosts
  import opened Sorting

  datatype Node = Node(name: string, host: string)

  // ------------------------------------------------------------ names ---

  predicate IsNameChar(c: char) {
    'A' <= c <= 'Z' || 'a' <= c <= 'z' || '0' <= c <= '9' || c == '-'
  }

  function Hyphenated(s: string): (r: string)
    ensures |r| == |s| && forall k :: 0 <= k < |s| ==> r[k] == if IsNameChar(s[k]) then s[k] else '-'
  {
    seq(|s|, k requires 0 <= k < |s| => if IsNameChar(s[k]) then s[k] else '-')
  }

  function TrimLeft(s: string): string {
    if s != [] && s[0] == '-' then TrimLeft(s[1..]) else s
  }

  function TrimRight(s: string): string {
    if s != [] && s[|s| - 1] == '-' then TrimRight(s[..|s| - 1]) else s
  }

  const FALLBACK := "vme-host"

  function FaName(raw: string): string {
    var s := TrimRight(TrimLeft(Hyphenated(raw)));
    if s == [] then FALLBACK else s
  }

  predicate ValidName(s: string) {
    s != [] && s[0] != '-' && s[|s| - 1] != '-' && forall k :: 0 <= k < |s| ==> IsNameChar(s[k])
  }

  lemma {:induction false} TrimLeftKeeps(s: string)
    requires forall k :: 0 <= k < |s| ==> IsNameChar(s[k])
    ensures var r := TrimLeft(s);
            (forall k :: 0 <= k < |r| ==> IsNameChar(r[k])) && (r != [] ==> r[0] != '-')
  {
    if s != [] && s[0] == '-' { TrimLeftKeeps(s[1..]); }
  }

  lemma {:induction false} TrimRightKeeps(s: string)
    requires forall k :: 0 <= k < |s| ==> IsNameChar(s[k])
    requires s != [] ==> s[0] != '-'
    ensures var r := TrimRight(s);
            (forall k :: 0 <= k < |r| ==> IsNameChar(r[k])) && (r != [] ==> r[0] != '-' && r[|r| - 1] != '-')
  {
    if s != [] && s[|s| - 1] == '-' { TrimRightKeeps(s[..|s| - 1]); }
  }

  /** Whatever the node is called, its host name is one the array accepts. */
  lemma NamesAreValid(raw: string)
    ensures ValidName(FaName(raw))
  {
    TrimLeftKeeps(Hyphenated(raw));
    TrimRightKeeps(TrimLeft(Hyphenated(raw)));
  }

  /** A name the array accepts is left as it is. */
  lemma ValidNamesStay(s: string)
    requires ValidName(s)
    ensures FaName(s) == s
  {}

  /** Every name a node may already be registered under. */
  function Candidates(group: string, node: Node): set<string> {
    {FaName(group + "-" + node.name), FaName(group + "-vme"), FaName(node.name)}
    + if node.host != "" then {FaName(node.host)} else {}
  }

  function Expected(group: string, nodes: seq<Node>): set<string> {
    if nodes == [] then {}
    else Expected(group, nodes[..|nodes| - 1]) + Candidates(group, nodes[|nodes| - 1])
  }

  ghost predicate NamedBy(group: string, nodes: seq<Node>, c: string) {
    exists i :: 0 <= i < |nodes| && c in Candidates(group, nodes[i])
  }

  lemma {:induction false} ExpectedAreCandidates(group: string, nodes: seq<Node>, c: string)
    ensures c in Expected(group, nodes) <==> NamedBy(group, nodes, c)
  {
    hide Candidates;
    if nodes != [] {
      var n := |nodes| - 1;
      ExpectedAreCandidates(group, nodes[..n], c);
      assert NamedBy(group, nodes[..n], c) ==> NamedBy(group, nodes, c) by {
        if NamedBy(group, nodes[..n], c) {
          var i :| 0 <= i < n && c in Candidates(group, nodes[..n][i]);
          assert c in Candidates(group, nodes[i]);
        }
      }
      if i :| 0 <= i < n && c in Candidates(group, nodes[i]) {
        assert c in Candidates(group, nodes[..n][i]);
      }
    }
  }

  // ------------------------------------------------------------ assessment ---

  /** The dictionary of candidates, keyed by node name: the last node of a name wins. */
  function Known(group: string, nodes: seq<Node>): map<string, set<string>> {
    if nodes == [] then map[]
    else Known(group, nodes[..|nodes| - 1])[nodes[|nodes| - 1].name := Candidates(group, nodes[|nodes| - 1])]
  }

  function LastNamed(nodes: seq<Node>, name: string): (k: int)
    ensures -1 <= k < |nodes|
    ensures k >= 0 ==> nodes[k].name == name
    ensures forall j :: k < j < |nodes| ==> nodes[j].name != name
  {
    if nodes == [] then -1
    else if nodes[|nodes| - 1].name == name then |nodes| - 1
    else LastNamed(nodes[..|nodes| - 1], name)
  }

  /** What the assessment takes a node of this name to be known by. */
  function KnownAs(group: string, nodes: seq<Node>, name: string): set<string> {
    var k := LastNamed(nodes, name);
    if k < 0 then {} else Candidates(group, nodes[k])
  }

  lemma {:induction false} KnownIsTheLast(group: string, nodes: seq<Node>, name: string)
    ensures name in Known(group, nodes) <==> LastNamed(nodes, name) >= 0
    ensures name in Known(group, nodes) ==> Known(group, nodes)[name] == KnownAs(group, nodes, name)
  {
    hide Candidates;
    if nodes != [] {
      KnownIsTheLast(group, nodes[..|nodes| - 1], name);
    }
  }

  /** The members that the first `k` nodes are taken to be known by. */
  function Claimed(group: string, nodes: seq<Node>, members: set<string>, k: nat): set<string>
    requires k <= |nodes|
  {
    if k == 0 then {}
    else Claimed(group, nodes, members, k - 1) + KnownAs(group, nodes, nodes[k - 1].name) * members
  }

  /** Of the first `k` nodes, those not a member under any known name. */
  function Unclaimed(group: string, nodes: seq<Node>, members: set<string>, k: nat): seq<Node>
    requires k <= |nodes|
  {
    if k == 0 then []
    else Unclaimed(group, nodes, members, k - 1)
         + if KnownAs(group, nodes, nodes[k - 1].name) * members == {} then [nodes[k - 1]] else []
  }

  lemma EveryNodeIsKnown(group: string, nodes: seq<Node>, k: nat)
    requires k < |nodes|
    ensures nodes[k].name in Known(group, nodes)
    ensures Known(group, nodes)[nodes[k].name] == KnownAs(group, nodes, nodes[k].name)
  {}

  method KnownNames(group: string, nodes: seq<Node>) returns (known: map<string, set<string>>)
    ensures known == Known(group, nodes)
  {
    known := map[];
    for i := 0 to |nodes|
      invariant known == Known(group, nodes[..i])
    {
      assert nodes[..i + 1][..i] == nodes[..i];
      known := known[nodes[i].name := Candidates(group, nodes[i])];
    }
    assert nodes[..|nodes|] == nodes;
  }

  function SetOf(list: seq<string>): set<string> {
    set m | m in list
  }

  /** Of the first `k` nodes, those that are a member under a known name. */
  function Configured(group: string, nodes: seq<Node>, members: set<string>, k: nat): seq<Node>
    requires k <= |nodes|
  {
    if k == 0 then []
    else Configured(group, nodes, members, k - 1)
         + if KnownAs(group, nodes, nodes[k - 1].name) * members != {} then [nodes[k - 1]] else []
  }

  lemma {:induction false} ConfiguredAreMembers(group: string, nodes: seq<Node>, members: set<string>, k: nat, n: Node)
    requires k <= |nodes|
    ensures n in Configured(group, nodes, members, k) <==>
            n in nodes[..k] && KnownAs(group, nodes, n.name) * members != {}
  {
    hide KnownAs;
    if k > 0 {
      ConfiguredAreMembers(group, nodes, members, k - 1, n);
      assert nodes[..k] == nodes[..k - 1] + [nodes[k - 1]];
    }
  }

  lemma {:induction false} UnclaimedAreNoMembers(group: string, nodes: seq<Node>, members: set<string>, k: nat, n: Node)
    requires k <= |nodes|
    ensures n in Unclaimed(group, nodes, members, k) <==>
            n in nodes[..k] && KnownAs(group, nodes, n.name) * members == {}
  {
    hide KnownAs;
    if k > 0 {
      UnclaimedAreNoMembers(group, nodes, members, k - 1, n);
      assert nodes[..k] == nodes[..k - 1] + [nodes[k - 1]];
    }
  }

  /** Who is known to be whom, node by node. */
  method MatchNodes(group: string, nodes: seq<Node>, members: set<string>)
    returns (claimed: set<string>, configured: seq<Node>)
    ensures claimed == Claimed(group, nodes, members, |nodes|)
    ensures configured == Configured(group, nodes, members, |nodes|)
  {
    var known := KnownNames(group, nodes);
    claimed, configured := {}, [];
    hide KnownAs, Known;
    for i := 0 to |nodes|
      invariant claimed == Claimed(group, nodes, members, i)
      invariant configured == Configured(group, nodes, members, i)
    {
      EveryNodeIsKnown(group, nodes, i);
      var matching := known[nodes[i].name] * members;
      claimed := claimed + matching;
      if matching != {} {
        configured := configured + [nodes[i]];
      }
    }
  }

  function AssessedDeparted(group: string, nodes: seq<Node>, members: set<string>): set<string> {
    members - Claimed(group, nodes, members, |nodes|)
  }

  /** A member is claimed exactly when some node is taken to be known by it. */
  lemma {:induction false} ClaimedIsKnown(group: string, nodes: seq<Node>, members: set<string>, k: nat, c: string)
    requires k <= |nodes|
    ensures c in Claimed(group, nodes, members, k) <==>
            c in members && exists i :: 0 <= i < k && c in KnownAs(group, nodes, nodes[i].name)
  {
    hide KnownAs;
    if k > 0 {
      ClaimedIsKnown(group, nodes, members, k - 1, c);
    }
  }

  // ------------------------------------------------------------ pruning ---

  function Departed(members: seq<string>, expected: set<string>): seq<string> {
    if members == [] then []
    else (if members[0] in expected then [] else [members[0]]) + Departed(members[1..], expected)
  }

  function Kept(members: seq<string>, expected: set<string>): seq<string> {
    if members == [] then []
    else (if members[0] in expected then [members[0]] else []) + Kept(members[1..], expected)
  }

  lemma {:induction false} DepartedOrKept(members: seq<string>, expected: set<string>)
    ensures forall m :: m in Departed(members, expected) <==> m in members && m !in expected
    ensures forall m :: m in Kept(members, expected) <==> m in members && m in expected
  {
    if members != [] {
      DepartedOrKept(members[1..], expected);
      assert members == [members[0]] + members[1..];
    }
  }

  /** The array once the first `k` hosts of `gone` are out of the group and deleted. */
  function Dropped(a: State, group: string, gone: seq<string>, k: nat): State
    requires k <= |gone|
  {
    if k == 0 then a
    else WithoutHost(WithoutMember(Dropped(a, group, gone, k - 1), group, gone[k - 1]), gone[k - 1])
  }

  /** The array after pruning, and the hosts that are gone from the cluster. */
  function Pruned(a: State, group: string, expected: set<string>, applyRemovals: bool): State {
    var gone := Departed(MembersOf(a, group), expected);
    if applyRemovals then Dropped(a, group, gone, |gone|) else a
  }

  /** `_prune_departed_fa_hosts` */
  method PruneDepartedFaHosts(fa: HostArray, group: string, expectedHosts: set<string>, applyRemovals: bool)
    returns (departed: seq<string>, removed: seq<string>)
    modifies fa
    ensures group == "" ==> departed == removed == [] && fa.View() == old(fa.View())
    ensures var gone := Departed(MembersOf(old(fa.View()), group), expectedHosts - {""});
            group != "" ==> departed == SortNames(gone) && removed == if applyRemovals then gone else []
    ensures group != "" ==> fa.View() == Pruned(old(fa.View()), group, expectedHosts - {""}, applyRemovals)
  {
    hide WithoutMember, WithoutHost, MembersOf, SortNames, Dropped;
    departed, removed := [], [];
    if group == "" {
      return;
    }
    var members, expected := MembersOf(fa.View(), group), expectedHosts - {""};
    var gone := NotExpected(members, expected);
    departed := SortNames(gone);
    if applyRemovals {
      removed := DropHosts(fa, group, gone);
    }
  }

  method NotExpected(members: seq<string>, expected: set<string>) returns (gone: seq<string>)
    ensures gone == Departed(members, expected)
  {
    gone := [];
    for i := 0 to |members|
      invariant gone + Departed(members[i..], expected) == Departed(members, expected)
    {
      assert members[i..][1..] == members[i + 1..];
      if members[i] !in expected {
        gone := gone + [members[i]];
      }
    }
  }

  /** Out of the group and off the array, one by one. */
  method DropHosts(fa: HostArray, group: string, gone: seq<string>) returns (removed: seq<string>)
    modifies fa
    ensures removed == gone && fa.View() == Dropped(old(fa.View()), group, gone, |gone|)
  {
    hide WithoutMember, WithoutHost;
    removed := [];
    for i := 0 to |gone|
      invariant removed == gone[..i]
      invariant fa.View() == Dropped(old(fa.View()), group, gone, i)
    {
      fa.RemoveHostFromGroup(group, gone[i]);
      fa.DeleteHost(gone[i]);
      removed := removed + [gone[i]];
    }
  }

  lemma {:induction false} EveryCandidateIsNamed(group: string, nodes: seq<Node>)
    ensures "" !in Expected(group, nodes)
  {
    if nodes != [] {
      var last := nodes[|nodes| - 1];
      EveryCandidateIsNamed(group, nodes[..|nodes| - 1]);
      NamesAreValid(group + "-" + last.name);
      NamesAreValid(group + "-vme");
      NamesAreValid(last.name);
      NamesAreValid(last.host);
      hide FaName;
    }
  }

  /** The pruning half of `reconcile_cluster`. */
  method ReconcileRemovals(fa: HostArray, group: string, nodes: seq<Node>, applyRemovals: bool)
    returns (departed: seq<string>, removed: seq<string>)
    requires group != ""
    modifies fa
    ensures var gone := Departed(MembersOf(old(fa.View()), group), Expected(group, nodes));
            departed == SortNames(gone) && removed == if applyRemovals then gone else []
    ensures fa.View() == Pruned(old(fa.View()), group, Expected(group, nodes), applyRemovals)
  {
    hide Candidates, Pruned, Departed, MembersOf, SortNames;
    var expected: set<string> := {};
    for i := 0 to |nodes|
      invariant expected == Expected(group, nodes[..i]) && fa.View() == old(fa.View())
    {
      assert nodes[..i + 1][..i] == nodes[..i];
      expected := expected + Candidates(group, nodes[i]);
    }
    assert nodes[..|nodes|] == nodes;
    EveryCandidateIsNamed(group, nodes);
    hide Expected;
    assert expected - {""} == expected;
    departed, removed := PruneDepartedFaHosts(fa, group, expected, applyRemovals);
  }

  // ------------------------------------------------------------ what pruning leaves ---

  function RemoveAll(list: seq<string>, gone: seq<string>, k: nat): seq<string>
    requires k <= |gone|
  {
    if k == 0 then list else RemoveFirst(RemoveAll(list, gone, k - 1), gone[k - 1])
  }

  lemma {:induction false} RemoveFirstAfter(kept: seq<string>, x: string, rest: seq<string>)
    requires x !in kept
    ensures RemoveFirst(kept + [x] + rest, x) == kept + rest
  {
    var list := kept + [x] + rest;
    if kept == [] {
      assert list[0] == x && list[1..] == rest;
    } else {
      assert list[0] == kept[0] && list[1..] == kept[1..] + [x] + rest;
      RemoveFirstAfter(kept[1..], x, rest);
    }
  }

  lemma {:induction false} RemoveAllStep(list: seq<string>, x: string, gone: seq<string>, k: nat)
    requires k <= |gone|
    ensures RemoveAll(list, [x] + gone, k + 1) == RemoveAll(RemoveFirst(list, x), gone, k)
  {
    if k == 0 {
      assert RemoveAll(list, [x] + gone, 1) == RemoveFirst(RemoveAll(list, [x] + gone, 0), ([x] + gone)[0]);
    } else {
      RemoveAllStep(list, x, gone, k - 1);
      assert ([x] + gone)[k] == gone[k - 1];
    }
  }

  /** One member more is either kept or departed. */
  lemma OneMemberMore(x: string, rest: seq<string>, expected: set<string>)
    ensures Departed([x] + rest, expected) ==
            if x in expected then Departed(rest, expected) else [x] + Departed(rest, expected)
    ensures Kept([x] + rest, expected) == if x in expected then [x] + Kept(rest, expected) else Kept(rest, expected)
  {
    assert ([x] + rest)[1..] == rest;
  }

  lemma NobodyLeaves(kept: seq<string>, expected: set<string>)
    ensures RemoveAll(kept, Departed([], expected), |Departed([], expected)|) == kept + Kept([], expected)
  {
    assert kept + [] == kept;
  }

  /** Taking out the departed one by one leaves exactly the expected members, in order. */
  lemma {:induction false} RemovingLeavesKept(kept: seq<string>, rest: seq<string>, expected: set<string>)
    requires forall m :: m in kept ==> m in expected
    ensures var gone := Departed(rest, expected);
            RemoveAll(kept + rest, gone, |gone|) == kept + Kept(rest, expected)
    decreases |rest|
  {
    hide Departed, Kept, RemoveAll;
    if rest == [] {
      NobodyLeaves(kept, expected);
      assert kept + rest == kept;
    } else {
      var (x, more) := (rest[0], rest[1..]);
      var later := Departed(more, expected);
      OneMemberMore(x, more, expected);
      assert rest == [x] + more;
      if x in expected {
        RemovingLeavesKept(kept + [x], more, expected);
        assert kept + rest == kept + [x] + more;
        assert kept + [x] + Kept(more, expected) == kept + Kept(rest, expected);
      } else {
        assert kept + rest == kept + [x] + more;
        RemoveFirstAfter(kept, x, more);
        RemoveAllStep(kept + rest, x, later, |later|);
        RemovingLeavesKept(kept, more, expected);
      }
    }
  }

  lemma {:induction false} DroppedIs(a: State, group: string, gone: seq<string>, k: nat)
    requires k <= |gone|
    ensures var b := Dropped(a, group, gone, k);
            && b.groups.Keys == a.groups.Keys && b.groupOrder == a.groupOrder
            && (forall g :: g in a.groups && g != group ==> b.groups[g] == a.groups[g])
            && MembersOf(b, group) == RemoveAll(MembersOf(a, group), gone, k)
            && (forall h :: h in b.hosts <==> h in a.hosts && h !in gone[..k])
            && (forall h :: h in b.hosts ==> b.hosts[h] == a.hosts[h])
  {
    if k > 0 {
      DroppedIs(a, group, gone, k - 1);
      assert gone[..k] == gone[..k - 1] + [gone[k - 1]];
      RemoveAbsent(MembersOf(Dropped(a, group, gone, k - 1), group), gone[k - 1]);
    }
  }

  lemma {:induction false} RemoveAbsent(list: seq<string>, x: string)
    ensures x !in list ==> RemoveFirst(list, x) == list
  {
    if list != [] {
      RemoveAbsent(list[1..], x);
    }
  }

  /**
   * With removals the group becomes its members that are expected, in order, and the array
   * loses exactly the departed hosts; nothing else changes.
   */
  lemma PruningLeavesTheExpected(a: State, group: string, nodes: seq<Node>)
    ensures var (members, expected) := (MembersOf(a, group), Expected(group, nodes));
            var b := Pruned(a, group, expected, true);
            && MembersOf(b, group) == Kept(members, expected)
            && (forall m :: m in MembersOf(b, group) <==> m in members && NamedBy(group, nodes, m))
            && (forall g :: g in a.groups && g != group ==> g in b.groups && b.groups[g] == a.groups[g])
            && (forall h :: h in b.hosts <==> h in a.hosts && !(h in members && !NamedBy(group, nodes, h)))
            && (forall h :: h in b.hosts ==> b.hosts[h] == a.hosts[h])
  {
    var (members, expected) := (MembersOf(a, group), Expected(group, nodes));
    var gone := Departed(members, expected);
    DroppedIs(a, group, gone, |gone|);
    RemovingLeavesKept([], members, expected);
    assert [] + members == members && [] + Kept(members, expected) == Kept(members, expected);
    assert gone[..|gone|] == gone;
    DepartedOrKept(members, expected);
    hide NamedBy, Departed, Kept, Dropped, Expected, RemoveAll;
    forall h ensures h in expected <==> NamedBy(group, nodes, h) {
      ExpectedAreCandidates(group, nodes, h);
    }
  }

  // ------------------------------------------------------------ assessment and pruning ---

  /** No node's own host name is lost behind a later node of the same name. */
  ghost predicate NothingHidden(group: string, nodes: seq<Node>) {
    forall i :: 0 <= i < |nodes| && nodes[i].host != "" ==> SomeKnown(group, nodes, FaName(nodes[i].host))
  }

  ghost predicate SomeKnown(group: string, nodes: seq<Node>, c: string) {
    exists i :: 0 <= i < |nodes| && c in KnownAs(group, nodes, nodes[i].name)
  }

  lemma ClaimedIsSomeKnown(group: string, nodes: seq<Node>, members: set<string>, c: string)
    ensures c in Claimed(group, nodes, members, |nodes|) <==> c in members && SomeKnown(group, nodes, c)
  {
    ClaimedIsKnown(group, nodes, members, |nodes|, c);
  }

  lemma OwnHostIsNamed(group: string, nodes: seq<Node>, i: nat)
    requires i < |nodes| && nodes[i].host != ""
    ensures NamedBy(group, nodes, FaName(nodes[i].host))
  {}

  lemma KnownIsNamed(group: string, nodes: seq<Node>, c: string)
    requires SomeKnown(group, nodes, c)
    ensures NamedBy(group, nodes, c)
  {}

  lemma NamedIsKnown(group: string, nodes: seq<Node>, c: string)
    requires NamedBy(group, nodes, c) && NothingHidden(group, nodes)
    ensures SomeKnown(group, nodes, c)
  {}

  /**
   * The assessment reports as departed what pruning would remove, on every membership, exactly
   * when no node's host name is hidden behind a later node of the same name.
   */
  lemma AssessAgreesWithPrune(group: string, nodes: seq<Node>)
    ensures (forall members: set<string> ::
               AssessedDeparted(group, nodes, members) == members - Expected(group, nodes))
            <==> NothingHidden(group, nodes)
  {
    hide Candidates, KnownAs, Claimed, Expected, SomeKnown, NamedBy, FaName;
    forall members: set<string>, c
      ensures c in Claimed(group, nodes, members, |nodes|) <==> c in members && SomeKnown(group, nodes, c)
    {
      ClaimedIsSomeKnown(group, nodes, members, c);
    }
    forall c ensures c in Expected(group, nodes) <==> NamedBy(group, nodes, c) {
      ExpectedAreCandidates(group, nodes, c);
    }
    if NothingHidden(group, nodes) {
      forall members: set<string>
        ensures AssessedDeparted(group, nodes, members) == members - Expected(group, nodes)
      {
        forall c | c in members ensures SomeKnown(group, nodes, c) <==> NamedBy(group, nodes, c) {
          if SomeKnown(group, nodes, c) { KnownIsNamed(group, nodes, c); }
          if NamedBy(group, nodes, c) { NamedIsKnown(group, nodes, c); }
        }
      }
    } else {
      var i :| 0 <= i < |nodes| && nodes[i].host != "" && !SomeKnown(group, nodes, FaName(nodes[i].host));
      var c := FaName(nodes[i].host);
      OwnHostIsNamed(group, nodes, i);
      assert c in AssessedDeparted(group, nodes, {c});
      assert c !in {c} - Expected(group, nodes);
    }
  }

  /** Distinct node names hide nothing. */
  lemma DistinctNamesHideNothing(group: string, nodes: seq<Node>)
    requires forall i, j :: 0 <= i < j < |nodes| ==> nodes[i].name != nodes[j].name
    ensures NothingHidden(group, nodes)
  {}

  const TWINS := [Node("n", "a"), Node("n", "b")]

  lemma TwinsAreKnownAs()
    ensures KnownAs("g", TWINS, "n") == {"g-n", "g-vme", "n", "b"}
    ensures "a" in Candidates("g", TWINS[0])
  {
    ValidNamesStay("a");
    ValidNamesStay("b");
    ValidNamesStay("n");
    ValidNamesStay("g-n");
    ValidNamesStay("g-vme");
    hide FaName;
    assert "g" + "-" + "n" == "g-n" && "g" + "-vme" == "g-vme";
    assert LastNamed(TWINS, "n") == 1;
  }

  /** Two nodes of one name on two hosts: the first host is reported departed, and never pruned. */
  lemma DuplicateNamesDisagree()
    ensures "a" in AssessedDeparted("g", TWINS, {"a"}) && "a" in Expected("g", TWINS)
  {
    TwinsAreKnownAs();
    hide KnownAs, Candidates;
    ClaimedIsKnown("g", TWINS, {"a"}, 2, "a");
    ExpectedAreCandidates("g", TWINS, "a");
    assert NamedBy("g", TWINS, "a");
  }
}
