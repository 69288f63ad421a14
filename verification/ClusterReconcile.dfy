/**
 * Reconciling an HPE VME cluster with its host group: assess the nodes, register the hosts of
 * the new ones that are ready, and prune the hosts whose node is gone.
 */
module ClusterReconcile {
  import opened Wrappers
  import opened Text
  import opened Sorting
  import opened Hosts
  import opened HostRules
  import opened ClusterDrift
  import opened ClusterReady

  /** `hostWwns` are configured for the node that the connector is connected to. */
  datatype Config = Config(proto: Protocol, group: string, hostWwns: seq<string>, connHost: string)

  datatype NewHost = NewHost(node: string, host: string, reasons: seq<Reason>)

  datatype Assessment = Assessment(nodes: seq<string>, newHosts: seq<NewHost>, departed: seq<string>)

  datatype Summary = Summary(
    nodes: seq<string>, newHosts: seq<NewHost>, configured: seq<string>, notReady: seq<string>,
    departed: seq<string>, removed: seq<string>)

  /** There is a host group to keep in step. */
  predicate Blocks(cfg: Config) {
    !cfg.proto.Nfs? && cfg.group != ""
  }

  // ------------------------------------------------------------ assessment ---

  function FaHostName(group: string, node: string, single: bool): string {
    FaName(if single then group + "-vme" else group + "-" + node)
  }

  function NodeNames(nodes: seq<Node>): seq<string> {
    seq(|nodes|, i requires 0 <= i < |nodes| => nodes[i].name)
  }

  function Verdict(cfg: Config, site: Site, baseline: set<string>, single: bool, node: Node): NewHost {
    NewHost(node.name, FaHostName(cfg.group, node.name, single), Reasons(site, cfg.proto, node.host, baseline))
  }

  function Verdicts(cfg: Config, site: Site, baseline: set<string>, single: bool, nodes: seq<Node>): seq<NewHost> {
    seq(|nodes|, i requires 0 <= i < |nodes| => Verdict(cfg, site, baseline, single, nodes[i]))
  }

  /** The members that nobody claims, each once. */
  function Unknown(members: seq<string>, claimed: set<string>): (r: seq<string>)
    ensures forall m :: m in r <==> m in members && m !in claimed
    ensures forall i, j :: 0 <= i < j < |r| ==> r[i] != r[j]
  {
    if members == [] then []
    else
      var (rest, last) := (Unknown(members[..|members| - 1], claimed), members[|members| - 1]);
      if last in claimed || last in rest then rest else rest + [last]
  }

  function NewNodes(a: State, group: string, nodes: seq<Node>): seq<Node> {
    Unclaimed(group, nodes, SetOf(MembersOf(a, group)), |nodes|)
  }

  function GroupBaseline(a: State, cfg: Config, site: Site, nodes: seq<Node>): Option<set<string>> {
    BaselineOf(site, cfg.proto, Configured(cfg.group, nodes, SetOf(MembersOf(a, cfg.group)), |nodes|))
  }

  /** What the assessment reports of a group on the array; nothing if asking a member raises. */
  function Assess(a: State, cfg: Config, site: Site, nodes: seq<Node>): Option<Assessment> {
    var (members, baseline) := (MembersOf(a, cfg.group), GroupBaseline(a, cfg, site, nodes));
    if baseline.None? then None
    else
      Some(Assessment(
        NodeNames(nodes),
        Verdicts(cfg, site, baseline.value, |nodes| == 1, NewNodes(a, cfg.group, nodes)),
        SortNames(Unknown(members, Claimed(cfg.group, nodes, SetOf(members), |nodes|)))))
  }

  /** The departed are told in order, each once: the members that no node is known by. */
  lemma AssessedInOrder(a: State, cfg: Config, site: Site, nodes: seq<Node>)
    requires Assess(a, cfg, site, nodes).Some?
    ensures var departed := Assess(a, cfg, site, nodes).value.departed;
            && Rising(departed)
            && SetOf(departed) == AssessedDeparted(cfg.group, nodes, SetOf(MembersOf(a, cfg.group)))
  {
    var members := MembersOf(a, cfg.group);
    DistinctNamesRise(Unknown(members, Claimed(cfg.group, nodes, SetOf(members), |nodes|)));
    hide Claimed, Unknown, SortNames;
  }

  method FindUnknown(members: seq<string>, claimed: set<string>) returns (unknown: seq<string>)
    ensures unknown == Unknown(members, claimed)
  {
    unknown := [];
    for i := 0 to |members|
      invariant unknown == Unknown(members[..i], claimed)
    {
      assert members[..i + 1][..i] == members[..i];
      if members[i] !in claimed && members[i] !in unknown {
        unknown := unknown + [members[i]];
      }
    }
    assert members[..|members|] == members;
  }

  /** The verdicts on the nodes that are not configured. */
  method ScoreNew(
    cfg: Config, site: Site, baseline: set<string>, nodes: seq<Node>, configured: seq<Node>, ghost members: set<string>)
    returns (newHosts: seq<NewHost>)
    requires configured == Configured(cfg.group, nodes, members, |nodes|)
    ensures newHosts ==
            Verdicts(cfg, site, baseline, |nodes| == 1, Unclaimed(cfg.group, nodes, members, |nodes|))
  {
    hide KnownAs, FaName, Reasons;
    newHosts := [];
    for i := 0 to |nodes|
      invariant newHosts == Verdicts(cfg, site, baseline, |nodes| == 1, Unclaimed(cfg.group, nodes, members, i))
    {
      ConfiguredAreMembers(cfg.group, nodes, members, |nodes|, nodes[i]);
      assert nodes[i] in nodes[..|nodes|];
      if nodes[i] !in configured {
        var reasons := ScoreNode(site, cfg.proto, nodes[i].host, baseline);
        newHosts := newHosts + [NewHost(nodes[i].name, FaHostName(cfg.group, nodes[i].name, |nodes| == 1), reasons)];
      }
    }
  }

  /** The read-only half: who left the cluster, and which nodes are not members yet. */
  method AssessCluster(fa: HostArray?, cfg: Config, site: Site, nodes: seq<Node>) returns (r: Option<Assessment>)
    ensures r == if fa != null && Blocks(cfg) then Assess(fa.View(), cfg, site, nodes)
                 else Some(Assessment(NodeNames(nodes), [], []))
  {
    if fa == null || !Blocks(cfg) {
      return Some(Assessment(NodeNames(nodes), [], []));
    }
    hide Claimed, Configured, Unclaimed, Verdicts, BaselineOf, MembersOf, Unknown, SortNames;
    var members := MembersOf(fa.View(), cfg.group);
    var claimed, configured := MatchNodes(cfg.group, nodes, SetOf(members));
    var unknown := FindUnknown(members, claimed);
    var baseline := BaselineSubnets(site, cfg.proto, configured);
    if baseline.None? {
      return None;
    }
    var newHosts := ScoreNew(cfg, site, baseline.value, nodes, configured, SetOf(members));
    r := Some(Assessment(NodeNames(nodes), newHosts, SortNames(unknown)));
  }

  // ------------------------------------------------------------ registration ---

  /** What asking the nodes for their initiators gives: the requests, a refusal, or an exception. */
  datatype Asked = Specs(specs: seq<HostSpec>) | NoInitiator | NoAnswer

  /** How registering ends: with an exception, a refusal, nothing to do, or the array's answer. */
  datatype Attempt = Raised | Refused | NotNeeded | Done(registration: Registration)

  function HexDigits(s: string): string {
    if s == [] then []
    else (if '0' <= s[0] <= '9' || 'a' <= s[0] <= 'f' then [s[0]] else []) + HexDigits(s[1..])
  }

  function Paired(digits: string): string {
    if |digits| <= 2 then digits else digits[..2] + ":" + Paired(digits[2..])
  }

  function NormalizeWwn(raw: string): string {
    var s := Lower(Strip(raw));
    var token := if StartsWith(s, "0x") then s[2..] else s;
    if ':' !in token && |HexDigits(token)| == 16 then Paired(HexDigits(token)) else token
  }

  function AskNode(cfg: Config, site: Site, node: Node): Asked {
    var name := FaHostName(cfg.group, node.name, false);
    var own := if node.host == cfg.connHost then cfg.hostWwns else [];
    if cfg.proto.Fc? && own != [] then Specs([HostSpec(name, Ports([], own, []))])
    else if node.host !in site.found then NoAnswer
    else
      var found := site.found[node.host];
      if !HasInitiator(cfg.proto, found) then NoInitiator
      else if IsNvme(cfg.proto) then Specs([HostSpec(name, Ports([], own, [found.nqn]))])
      else if cfg.proto.Fc? then
        Specs([HostSpec(name,
          Ports([], seq(|found.wwns|, i requires 0 <= i < |found.wwns| => NormalizeWwn(found.wwns[i])), []))])
      else Specs([HostSpec(name, Ports([found.iqn], own, []))])
  }

  /** Node by node; the first one that does not answer, or has no initiator, ends it. */
  function AskNodes(cfg: Config, site: Site, nodes: seq<Node>, k: nat): (r: Asked)
    requires k <= |nodes|
    ensures r.Specs? ==> |r.specs| == k
  {
    if k == 0 then Specs([])
    else
      match AskNodes(cfg, site, nodes, k - 1)
      case Specs(specs) =>
        (match AskNode(cfg, site, nodes[k - 1])
         case Specs(more) => Specs(specs + more)
         case other => other)
      case other => other
  }

  function RegisterNodes(a: State, cfg: Config, site: Site, nodes: seq<Node>): (State, Attempt) {
    if cfg.group == "" then (a, Refused)
    else if cfg.proto.Nfs? then (a, NotNeeded)
    else
      match AskNodes(cfg, site, nodes, |nodes|)
      case NoAnswer => (a, Raised)
      case NoInitiator => (a, Refused)
      case Specs(specs) => var (b, registration) := Register(a, cfg.group, specs); (b, Done(registration))
  }

  /** `register_hosts` of these nodes of a cluster */
  method RegisterHosts(fa: HostArray, cfg: Config, site: Site, nodes: seq<Node>) returns (attempt: Attempt)
    modifies fa
    ensures (fa.View(), attempt) == RegisterNodes(old(fa.View()), cfg, site, nodes)
  {
    hide Register, AskNode;
    if cfg.group == "" {
      return Refused;
    }
    if cfg.proto.Nfs? {
      return NotNeeded;
    }
    var specs: seq<HostSpec> := [];
    for i := 0 to |nodes|
      invariant fa.View() == old(fa.View()) && AskNodes(cfg, site, nodes, i) == Specs(specs)
    {
      match AskNode(cfg, site, nodes[i]) {
        case NoAnswer => StoppedAsking(cfg, site, nodes, i + 1, |nodes|); return Raised;
        case NoInitiator => StoppedAsking(cfg, site, nodes, i + 1, |nodes|); return Refused;
        case Specs(more) => specs := specs + more;
      }
    }
    var registration := fa.RegisterHostGroup(cfg.group, specs);
    attempt := Done(registration);
  }

  lemma {:induction false} StoppedAsking(cfg: Config, site: Site, nodes: seq<Node>, k: nat, n: nat)
    requires k <= n <= |nodes| && !AskNodes(cfg, site, nodes, k).Specs?
    ensures AskNodes(cfg, site, nodes, n) == AskNodes(cfg, site, nodes, k)
  {
    hide AskNode;
    if k < n {
      StoppedAsking(cfg, site, nodes, k, n - 1);
    }
  }

  // ------------------------------------------------------------ reconciling ---

  /** The nodes behind the first `k` new hosts that are ready, looked up by name: the last of a name. */
  function ReadyNodes(newHosts: seq<NewHost>, listed: seq<Node>, k: nat): seq<Node>
    requires k <= |newHosts|
  {
    if k == 0 then []
    else
      var (h, last) := (newHosts[k - 1], LastNamed(listed, newHosts[k - 1].node));
      ReadyNodes(newHosts, listed, k - 1) + if h.reasons == [] && last >= 0 then [listed[last]] else []
  }

  function NotReady(newHosts: seq<NewHost>): seq<string> {
    if newHosts == [] then []
    else
      var (rest, last) := (NotReady(newHosts[..|newHosts| - 1]), newHosts[|newHosts| - 1]);
      if last.reasons != [] then rest + [last.node] else rest
  }

  /** Registration of the chosen nodes, if there are any. */
  function Configure(a: State, cfg: Config, site: Site, chosen: seq<Node>): (State, Attempt) {
    if chosen == [] then (a, NotNeeded) else RegisterNodes(a, cfg, site, chosen)
  }

  /**
   * `assessed`, `listed` and `current` are the nodes as the three listings of the call tell them.
   * Nothing is reported if it raises.
   */
  function Reconcile(
    a: State, cfg: Config, site: Site, assessed: seq<Node>, listed: seq<Node>, current: seq<Node>, apply: bool)
    : (State, Option<Summary>)
  {
    match Assess(a, cfg, site, assessed)
    case None => (a, None)
    case Some(s) =>
      var chosen := ReadyNodes(s.newHosts, listed, |s.newHosts|);
      var (b, attempt) := Configure(a, cfg, site, chosen);
      if attempt.Raised? then (b, None)
      else
        var expected := Expected(cfg.group, current);
        var gone := Departed(MembersOf(b, cfg.group), expected);
        (Pruned(b, cfg.group, expected, apply),
         Some(Summary(s.nodes, s.newHosts, NodeNames(chosen), NotReady(s.newHosts), SortNames(gone),
                      if apply then gone else [])))
  }

  predicate Looked(listed: seq<Node>, name: string, n: Node) {
    LastNamed(listed, name) >= 0 && listed[LastNamed(listed, name)] == n
  }

  lemma LastOneMore(listed: seq<Node>, i: nat, name: string)
    requires i < |listed|
    ensures LastNamed(listed[..i + 1], name) == if listed[i].name == name then i else LastNamed(listed[..i], name)
  {
    assert listed[..i + 1][..i] == listed[..i];
  }

  /** The dictionary of the nodes by name, in which a later node replaces an earlier one. */
  method ByName(listed: seq<Node>) returns (byName: map<string, Node>)
    ensures forall n :: n in byName <==> LastNamed(listed, n) >= 0
    ensures forall n :: n in byName ==> byName[n] == listed[LastNamed(listed, n)]
  {
    hide LastNamed;
    byName := map[];
    assert listed[..|listed|] == listed;
    for i := 0 to |listed|
      invariant forall n :: n in byName <==> LastNamed(listed[..i], n) >= 0
      invariant forall n :: n in byName ==> byName[n] == listed[LastNamed(listed[..i], n)]
    {
      forall n ensures LastNamed(listed[..i + 1], n) == if listed[i].name == n then i else LastNamed(listed[..i], n) {
        LastOneMore(listed, i, n);
      }
      byName := byName[listed[i].name := listed[i]];
    }
  }

  method PickReady(newHosts: seq<NewHost>, listed: seq<Node>) returns (chosen: seq<Node>, notReady: seq<string>)
    ensures chosen == ReadyNodes(newHosts, listed, |newHosts|) && notReady == NotReady(newHosts)
  {
    hide LastNamed;
    var byName := ByName(listed);
    chosen, notReady := [], [];
    for i := 0 to |newHosts|
      invariant chosen == ReadyNodes(newHosts, listed, i) && notReady == NotReady(newHosts[..i])
    {
      assert newHosts[..i + 1][..i] == newHosts[..i];
      if newHosts[i].reasons != [] {
        notReady := notReady + [newHosts[i].node];
      } else if newHosts[i].node in byName {
        chosen := chosen + [byName[newHosts[i].node]];
      }
    }
    assert newHosts[..|newHosts|] == newHosts;
  }

  /** `reconcile_cluster` */
  method ReconcileCluster(
    fa: HostArray?, cfg: Config, site: Site, assessed: seq<Node>, listed: seq<Node>, current: seq<Node>, apply: bool)
    returns (r: Option<Summary>)
    modifies fa
    ensures fa != null && Blocks(cfg) ==>
              (fa.View(), r) == Reconcile(old(fa.View()), cfg, site, assessed, listed, current, apply)
    ensures fa != null && !Blocks(cfg) ==> fa.View() == old(fa.View())
    ensures fa == null || !Blocks(cfg) ==> r == Some(Summary(NodeNames(assessed), [], [], [], [], []))
  {
    hide Assess, ReadyNodes, NotReady, RegisterNodes, Departed, Pruned, Expected, SortNames, MembersOf;
    var assessment := AssessCluster(fa, cfg, site, assessed);
    if assessment.None? {
      return None;
    }
    var s := assessment.value;
    if fa == null || !Blocks(cfg) {
      return Some(Summary(s.nodes, s.newHosts, [], [], s.departed, []));
    }
    var chosen, notReady := PickReady(s.newHosts, listed);
    if chosen != [] {
      var attempt := RegisterHosts(fa, cfg, site, chosen);
      if attempt.Raised? {
        return None;
      }
    }
    var departed, removed := ReconcileRemovals(fa, cfg.group, current, apply);
    r := Some(Summary(s.nodes, s.newHosts, NodeNames(chosen), notReady, departed, removed));
  }

  // ------------------------------------------------------------ who is configured ---

  /** No new node is hidden behind a later node of its name on another host. */
  ghost predicate NoneShadowed(newNodes: seq<Node>, listed: seq<Node>) {
    forall n :: n in newNodes && LastNamed(listed, n.name) >= 0 ==> listed[LastNamed(listed, n.name)].host == n.host
  }

  lemma {:induction false} ReadyNodesAre(newHosts: seq<NewHost>, listed: seq<Node>, k: nat, n: Node)
    requires k <= |newHosts|
    ensures n in ReadyNodes(newHosts, listed, k) <==>
            exists i :: 0 <= i < k && newHosts[i].reasons == [] && Looked(listed, newHosts[i].node, n)
  {
    if k > 0 {
      ReadyNodesAre(newHosts, listed, k - 1, n);
    }
  }

  /** The nodes that reconciling picks to be registered. */
  function Chosen(a: State, cfg: Config, site: Site, assessed: seq<Node>, listed: seq<Node>): seq<Node>
    requires Assess(a, cfg, site, assessed).Some?
  {
    var newHosts := Assess(a, cfg, site, assessed).value.newHosts;
    ReadyNodes(newHosts, listed, |newHosts|)
  }

  ghost predicate OnlyReady(a: State, cfg: Config, site: Site, assessed: seq<Node>, listed: seq<Node>) {
    Assess(a, cfg, site, assessed).Some? ==>
      forall n :: n in Chosen(a, cfg, site, assessed, listed) ==>
        Ready(site, cfg.proto, n.host, GroupBaseline(a, cfg, site, assessed).value)
  }

  lemma ChosenAre(a: State, cfg: Config, site: Site, assessed: seq<Node>, listed: seq<Node>, n: Node)
    requires Assess(a, cfg, site, assessed).Some?
    ensures n in Chosen(a, cfg, site, assessed, listed) <==>
            exists m :: m in NewNodes(a, cfg.group, assessed) && Looked(listed, m.name, n)
                        && Ready(site, cfg.proto, m.host, GroupBaseline(a, cfg, site, assessed).value)
  {
    var newNodes := NewNodes(a, cfg.group, assessed);
    var baseline := GroupBaseline(a, cfg, site, assessed).value;
    var newHosts := Assess(a, cfg, site, assessed).value.newHosts;
    assert newHosts == Verdicts(cfg, site, baseline, |assessed| == 1, newNodes);
    ReadyNodesAre(newHosts, listed, |newHosts|, n);
    hide NewNodes, Assess, GroupBaseline, Ready, Reasons, Looked, ReadyNodes, FaName;
    forall i | 0 <= i < |newNodes|
      ensures newHosts[i].reasons == [] <==> Ready(site, cfg.proto, newNodes[i].host, baseline)
    {
      ReadyExactlyWithoutReasons(site, cfg.proto, newNodes[i].host, baseline);
    }
    assert forall i :: 0 <= i < |newNodes| ==> newHosts[i].node == newNodes[i].name && newNodes[i] in newNodes;
  }

  /** A site where only this host answers, with every initiator. */
  function OnlyHost(host: string): Site {
    Site([], map[host := Found("i", "n", ["w"])], map[host := []])
  }

  /** Whatever the hosts tell, only ready nodes are picked to be registered, exactly if no new node is shadowed. */
  lemma OnlyReadyArePicked(a: State, cfg: Config, assessed: seq<Node>, listed: seq<Node>)
    ensures (forall site :: OnlyReady(a, cfg, site, assessed, listed))
            <==> NoneShadowed(NewNodes(a, cfg.group, assessed), listed)
  {
    var newNodes := NewNodes(a, cfg.group, assessed);
    if NoneShadowed(newNodes, listed) {
      forall site ensures OnlyReady(a, cfg, site, assessed, listed) {
        if Assess(a, cfg, site, assessed).Some? {
          forall n | n in Chosen(a, cfg, site, assessed, listed)
            ensures Ready(site, cfg.proto, n.host, GroupBaseline(a, cfg, site, assessed).value)
          {
            ChosenAre(a, cfg, site, assessed, listed, n);
          }
        }
      }
    } else {
      var m :| m in newNodes && LastNamed(listed, m.name) >= 0 && listed[LastNamed(listed, m.name)].host != m.host;
      var n := listed[LastNamed(listed, m.name)];
      var site := OnlyHost(m.host);
      assert GroupBaseline(a, cfg, site, assessed) == Some({});
      ChosenAre(a, cfg, site, assessed, listed, n);
      assert Looked(listed, m.name, n) && Ready(site, cfg.proto, m.host, {});
      assert !Ready(site, cfg.proto, n.host, {});
      assert !OnlyReady(a, cfg, site, assessed, listed);
    }
  }

  /** Both hosts answer, and only the first one is in the network of the portals. */
  const TWIN_SITE := Site(
    ["p"], map["a" := Found("i", "", []), "b" := Found("j", "", [])],
    map["a" := [Some(Subnet("net", {"p"}))], "b" := []])

  const NO_HOSTS := State([], map[], [], map[])

  lemma FirstTwinIsReady()
    ensures Ready(TWIN_SITE, Iscsi, "a", {}) && !Ready(TWIN_SITE, Iscsi, "b", {})
  {
    assert Some(Subnet("net", {"p"})) in TWIN_SITE.nics["a"] && "p" in TWIN_SITE.portals;
    assert Reaches(Some(Subnet("net", {"p"})), TWIN_SITE.portals);
  }

  lemma TwinsAreNew(cfg: Config)
    ensures TWINS[0] in NewNodes(NO_HOSTS, cfg.group, TWINS) && LastNamed(TWINS, "n") == 1
    ensures GroupBaseline(NO_HOSTS, cfg, TWIN_SITE, TWINS) == Some({})
  {
    var none := SetOf(MembersOf(NO_HOSTS, cfg.group));
    assert none == {};
    UnclaimedAreNoMembers(cfg.group, TWINS, none, 2, TWINS[0]);
    hide KnownAs;
    assert TWINS[0] in TWINS[..2];
    assert Configured(cfg.group, TWINS, none, 0) == [];
    assert Configured(cfg.group, TWINS, none, 1) == [];
    assert Configured(cfg.group, TWINS, none, 2) == [];
  }

  /** Of two new nodes of one name only the first one is ready, and the second one is registered. */
  lemma NotReadyTwinIsRegistered(cfg: Config)
    requires cfg.proto.Iscsi? && cfg.group != ""
    ensures var a := NO_HOSTS;
            && Assess(a, cfg, TWIN_SITE, TWINS).Some? && TWINS[1] in Chosen(a, cfg, TWIN_SITE, TWINS, TWINS)
            && !Ready(TWIN_SITE, Iscsi, TWINS[1].host, {})
            && RegisterNodes(a, cfg, TWIN_SITE, [TWINS[1]]).1.Done?
  {
    FirstTwinIsReady();
    TwinsAreNew(cfg);
    assert HasInitiator(Iscsi, TWIN_SITE.found["b"]);
    assert AskNode(cfg, TWIN_SITE, TWINS[1]).Specs?;
    hide Ready, Reasons, FaName, Register, NewNodes, GroupBaseline, Chosen, AskNode;
    assert AskNodes(cfg, TWIN_SITE, [TWINS[1]], 0) == Specs([]);
    ChosenAre(NO_HOSTS, cfg, TWIN_SITE, TWINS, TWINS, TWINS[1]);
    assert Looked(TWINS, TWINS[0].name, TWINS[1]);
  }

  // ------------------------------------------------------------ what registration does ---

  lemma {:induction false} ReadyNodesAnswer(cfg: Config, site: Site, nodes: seq<Node>, k: nat)
    requires k <= |nodes|
    requires forall i :: 0 <= i < |nodes| ==>
               nodes[i].host in site.found && HasInitiator(cfg.proto, site.found[nodes[i].host])
    ensures AskNodes(cfg, site, nodes, k).Specs?
  {
    if k > 0 {
      ReadyNodesAnswer(cfg, site, nodes, k - 1);
    }
  }

  lemma {:induction false} AskedUnderTheirNames(cfg: Config, site: Site, nodes: seq<Node>, k: nat)
    requires k <= |nodes| && AskNodes(cfg, site, nodes, k).Specs?
    ensures forall i :: 0 <= i < k ==>
              AskNodes(cfg, site, nodes, k).specs[i].name == FaHostName(cfg.group, nodes[i].name, false)
  {
    hide FaName;
    if k > 0 {
      AskedUnderTheirNames(cfg, site, nodes, k - 1);
    }
  }

  /** Ready nodes are registered, unless their hosts are in two groups, and then nothing changed. */
  lemma ReadyNodesAreRegistered(a: State, cfg: Config, site: Site, nodes: seq<Node>, baseline: set<string>)
    requires Blocks(cfg)
    requires forall n :: n in nodes ==> Ready(site, cfg.proto, n.host, baseline)
    ensures var (b, attempt) := RegisterNodes(a, cfg, site, nodes);
            && attempt.Done? && AskNodes(cfg, site, nodes, |nodes|).Specs?
            && var specs := AskNodes(cfg, site, nodes, |nodes|).specs;
               && (b, attempt.registration) == Register(a, cfg.group, specs)
               && (attempt.registration.Conflict? ==> b == a)
               && (attempt.registration.Conflict? <==>
                     exists i: nat, j: nat :: i < j < |specs| && Clash(a, Plan(a, specs), i, j))
  {
    hide OnStorageNetwork;
    forall i | 0 <= i < |nodes|
      ensures nodes[i].host in site.found && HasInitiator(cfg.proto, site.found[nodes[i].host])
    {
      assert nodes[i] in nodes && Ready(site, cfg.proto, nodes[i].host, baseline);
    }
    hide HasInitiator, Register, Clash, Plan;
    ReadyNodesAnswer(cfg, site, nodes, |nodes|);
    ConflictMeansTwoGroups(a, cfg.group, AskNodes(cfg, site, nodes, |nodes|).specs);
  }

  // ------------------------------------------------------------ what pruning takes back ---

  /** These nodes are registered with these requests, and without a conflict. */
  ghost predicate Went(a: State, cfg: Config, site: Site, nodes: seq<Node>, specs: seq<HostSpec>) {
    && Blocks(cfg) && AskNodes(cfg, site, nodes, |nodes|) == Specs(specs)
    && Register(a, cfg.group, specs).1.Registered?
  }

  /** The host that request `i` is registered under. */
  function HostFor(a: State, specs: seq<HostSpec>, i: nat): string
    requires i < |specs|
  {
    NameOf(specs[i], Find(a, specs[i].ports))
  }

  /** That host is on the array, and in the group it was put in. */
  predicate StaysIn(c: State, a: State, cfg: Config, specs: seq<HostSpec>, i: nat)
    requires i < |specs|
  {
    HostFor(a, specs, i) in c.hosts && HostFor(a, specs, i) in MembersOf(c, Effective(a, cfg.group, specs))
  }

  /** That host is called by a name of a current node, or is kept out of the pruned group. */
  ghost predicate Recognised(a: State, cfg: Config, specs: seq<HostSpec>, current: seq<Node>, i: nat)
    requires i < |specs|
  {
    || NamedBy(cfg.group, current, HostFor(a, specs, i))
    || (Effective(a, cfg.group, specs) != cfg.group && HostFor(a, specs, i) !in MembersOf(a, cfg.group))
  }

  lemma StaysExactly(a: State, cfg: Config, specs: seq<HostSpec>, current: seq<Node>, i: nat, apply: bool)
    requires Named(a) && Register(a, cfg.group, specs).1.Registered? && i < |specs|
    ensures var c := Pruned(Register(a, cfg.group, specs).0, cfg.group, Expected(cfg.group, current), apply);
            && (StaysIn(c, a, cfg, specs, i) <==> !apply || Recognised(a, cfg, specs, current, i))
            && (StaysIn(c, a, cfg, specs, i) <==> HostFor(a, specs, i) in c.hosts)
  {
    var (b, registration) := Register(a, cfg.group, specs);
    assert registration.group == Effective(a, cfg.group, specs);
    assert registration.hosts == Names(specs, Plan(a, specs));
    OnlyTheEffectiveGroupGrows(a, cfg.group, specs);
    PruningLeavesTheExpected(b, cfg.group, current);
    assert Pruned(b, cfg.group, Expected(cfg.group, current), false) == b;
    hide Register, Effective, Pruned, NamedBy, Expected, Find, Kept, Departed;
    assert registration.hosts[i] in registration.hosts;
  }

  lemma OwnNameIsNamed(group: string, current: seq<Node>, n: Node)
    requires n in current
    ensures NamedBy(group, current, FaHostName(group, n.name, false))
  {
    hide FaName;
    var i :| 0 <= i < |current| && current[i] == n;
    assert FaHostName(group, n.name, false) in Candidates(group, current[i]);
  }

  /** A host that is created for a current node is recognised. */
  lemma CreatedIsRecognised(
    a: State, cfg: Config, site: Site, nodes: seq<Node>, specs: seq<HostSpec>, current: seq<Node>, i: nat)
    requires Went(a, cfg, site, nodes, specs) && i < |specs| && Fresh(a, specs, i) && nodes[i] in current
    ensures Recognised(a, cfg, specs, current, i)
  {
    AskedUnderTheirNames(cfg, site, nodes, |nodes|);
    OwnNameIsNamed(cfg.group, current, nodes[i]);
    hide Find, NamedBy, FaName, Register, Effective;
  }

  /** What a call that registers these nodes makes of the array. */
  lemma ReconcileIs(
    a: State, cfg: Config, site: Site, assessed: seq<Node>, listed: seq<Node>, current: seq<Node>,
    specs: seq<HostSpec>, apply: bool)
    requires Assess(a, cfg, site, assessed).Some? && Chosen(a, cfg, site, assessed, listed) != []
    requires Went(a, cfg, site, Chosen(a, cfg, site, assessed, listed), specs)
    ensures var (c, r) := Reconcile(a, cfg, site, assessed, listed, current, apply);
            && c == Pruned(Register(a, cfg.group, specs).0, cfg.group, Expected(cfg.group, current), apply)
            && r.Some? && r.value.configured == NodeNames(Chosen(a, cfg, site, assessed, listed))
  {
    hide Assess, Register, Pruned, Expected, AskNodes, ReadyNodes;
  }

  /** Nodes are reported as configured also if their registration was refused and changed nothing. */
  lemma RefusedIsReportedConfigured(
    a: State, cfg: Config, site: Site, assessed: seq<Node>, listed: seq<Node>, current: seq<Node>, apply: bool)
    requires Blocks(cfg) && Assess(a, cfg, site, assessed).Some? && Chosen(a, cfg, site, assessed, listed) != []
    ensures var attempt := RegisterNodes(a, cfg, site, Chosen(a, cfg, site, assessed, listed)).1;
            var (c, r) := Reconcile(a, cfg, site, assessed, listed, current, apply);
            && (r.Some? <==> !attempt.Raised?)
            && (r.Some? ==> r.value.configured == NodeNames(Chosen(a, cfg, site, assessed, listed)))
            && (attempt.Refused? || (attempt.Done? && attempt.registration.Conflict?) ==>
                  c == Pruned(a, cfg.group, Expected(cfg.group, current), apply))
  {
    hide Assess, Pruned, Expected, ReadyNodes, Find, Created, WithGroup, AskNodes, Seen;
  }

  /**
   * Reconciling keeps every host it registered if it does not apply removals. With removals it
   * keeps exactly those that are recognised, as the ones created for current nodes are, and
   * deletes the others.
   */
  lemma ReconcileKeepsExactly(
    a: State, cfg: Config, site: Site, assessed: seq<Node>, listed: seq<Node>, current: seq<Node>,
    specs: seq<HostSpec>, apply: bool)
    requires Named(a) && Assess(a, cfg, site, assessed).Some? && Chosen(a, cfg, site, assessed, listed) != []
    requires Went(a, cfg, site, Chosen(a, cfg, site, assessed, listed), specs)
    ensures var (nodes, c) :=
              (Chosen(a, cfg, site, assessed, listed), Reconcile(a, cfg, site, assessed, listed, current, apply).0);
            && (forall i: nat :: i < |specs| ==>
                  && (StaysIn(c, a, cfg, specs, i) <==> !apply || Recognised(a, cfg, specs, current, i))
                  && (StaysIn(c, a, cfg, specs, i) <==> HostFor(a, specs, i) in c.hosts))
            && (forall i: nat :: i < |specs| && Fresh(a, specs, i) && nodes[i] in current ==>
                  Recognised(a, cfg, specs, current, i))
  {
    var nodes := Chosen(a, cfg, site, assessed, listed);
    ReconcileIs(a, cfg, site, assessed, listed, current, specs, apply);
    hide Assess, Chosen, Reconcile, Register, Pruned, Expected, StaysIn, Recognised, Find, HostFor;
    forall i: nat | i < |specs|
      ensures var c := Reconcile(a, cfg, site, assessed, listed, current, apply).0;
              && (StaysIn(c, a, cfg, specs, i) <==> !apply || Recognised(a, cfg, specs, current, i))
              && (StaysIn(c, a, cfg, specs, i) <==> HostFor(a, specs, i) in c.hosts)
    {
      StaysExactly(a, cfg, specs, current, i, apply);
    }
    forall i: nat | i < |specs| && Fresh(a, specs, i) && nodes[i] in current
      ensures Recognised(a, cfg, specs, current, i)
    {
      CreatedIsRecognised(a, cfg, site, nodes, specs, current, i);
    }
  }

  lemma UnrecognisedIsDeleted(
    a: State, cfg: Config, site: Site, assessed: seq<Node>, listed: seq<Node>, current: seq<Node>,
    specs: seq<HostSpec>, i: nat)
    requires Named(a) && Assess(a, cfg, site, assessed).Some? && Chosen(a, cfg, site, assessed, listed) != []
    requires Went(a, cfg, site, Chosen(a, cfg, site, assessed, listed), specs)
    requires i < |specs| && !Recognised(a, cfg, specs, current, i)
    ensures var (c, r) := Reconcile(a, cfg, site, assessed, listed, current, true);
            && HostFor(a, specs, i) !in c.hosts
            && r.Some? && r.value.configured == NodeNames(Chosen(a, cfg, site, assessed, listed))
  {
    ReconcileIs(a, cfg, site, assessed, listed, current, specs, true);
    ReconcileKeepsExactly(a, cfg, site, assessed, listed, current, specs, true);
    hide Assess, Chosen, Went, Recognised, Reconcile, HostFor, Register, Pruned, StaysIn;
  }

  /** A node whose host was created in the group is not new to the next assessment. */
  lemma CreatedIsNotNewAgain(
    a: State, cfg: Config, site: Site, nodes: seq<Node>, specs: seq<HostSpec>, i: nat, c: State, later: seq<Node>)
    requires Went(a, cfg, site, nodes, specs) && i < |specs| && Fresh(a, specs, i)
    requires Effective(a, cfg.group, specs) == cfg.group && StaysIn(c, a, cfg, specs, i)
    ensures nodes[i] !in NewNodes(c, cfg.group, later)
  {
    AskedUnderTheirNames(cfg, site, nodes, |nodes|);
    OwnNameIsKnown(c, cfg.group, later, nodes[i]);
    hide Find, Register, Effective, FaName, MembersOf, NewNodes;
  }

  lemma OwnNameIsKnown(c: State, group: string, later: seq<Node>, n: Node)
    requires FaHostName(group, n.name, false) in MembersOf(c, group)
    ensures n !in NewNodes(c, group, later)
  {
    hide FaName;
    var members := SetOf(MembersOf(c, group));
    UnclaimedAreNoMembers(group, later, members, |later|, n);
    hide Unclaimed, MembersOf;
    if n in later {
      assert FaHostName(group, n.name, false) in KnownAs(group, later, n.name) * members;
    }
  }

  // ------------------------------------------------------------ a host that is taken back ---

  const KNOWN := State(["esx"], map["esx" := Ports(["i"], [], [])], [], map[])
  const SITE := OnlyHost("h")
  const NODES := [Node("n", "h")]

  lemma KnownIsNamed()
    ensures Named(KNOWN) && "esx" in KNOWN.hosts && NodeNames(NODES) == ["n"]
  {}

  lemma NewNodeIsChosen(cfg: Config)
    requires cfg == Config(Iscsi, "g", [], "")
    ensures Assess(KNOWN, cfg, SITE, NODES).Some? && Chosen(KNOWN, cfg, SITE, NODES, NODES) == NODES
  {
    assert SetOf(MembersOf(KNOWN, "g")) == {};
    assert NewNodes(KNOWN, "g", NODES) == NODES by { hide FaName; }
    assert GroupBaseline(KNOWN, cfg, SITE, NODES) == Some({});
    ReadyExactlyWithoutReasons(SITE, Iscsi, "h", {});
    assert LastNamed(NODES, "n") == 0;
    hide Reasons, FaName;
  }

  lemma NoNodeIsCalledEsx()
    ensures FaHostName("g", "n", false) == "g-n" && !NamedBy("g", NODES, "esx")
  {
    ValidNamesStay("h");
    ValidNamesStay("n");
    ValidNamesStay("g-n");
    ValidNamesStay("g-vme");
    hide FaName;
    assert "g" + "-" + "n" == "g-n" && "g" + "-vme" == "g-vme";
    assert Candidates("g", NODES[0]) == {"g-n", "g-vme", "n", "h"};
  }

  const REQUESTS := [HostSpec("g-n", Ports(["i"], [], []))]

  lemma EsxIsFound()
    ensures Find(KNOWN, REQUESTS[0].ports) == Some("esx")
  {
    assert "i" in REQUESTS[0].ports.iqns && "i" in Ports(["i"], [], []).iqns;
    assert Iqn(Lower("i")) in Wanted(REQUESTS[0].ports) * Owned(Ports(["i"], [], []));
    assert Matches(KNOWN.hosts["esx"], Wanted(REQUESTS[0].ports));
    hide Matches, Wanted;
  }

  lemma NodeIsAsked(cfg: Config)
    requires cfg == Config(Iscsi, "g", [], "")
    ensures AskNodes(cfg, SITE, NODES, 1) == Specs(REQUESTS)
  {
    NoNodeIsCalledEsx();
    hide FaName, NamedBy;
  }

  lemma EsxIsReused(cfg: Config)
    requires cfg == Config(Iscsi, "g", [], "")
    ensures HostFor(KNOWN, REQUESTS, 0) == "esx" && Effective(KNOWN, "g", REQUESTS) == "g"
    ensures Went(KNOWN, cfg, SITE, NODES, REQUESTS)
  {
    EsxIsFound();
    NodeIsAsked(cfg);
    hide Find, Created, WithGroup, AskNodes;
    assert Seen(KNOWN, Plan(KNOWN, REQUESTS), 1) == [];
  }

  lemma EsxIsNotRecognised(cfg: Config)
    requires cfg == Config(Iscsi, "g", [], "")
    ensures !Recognised(KNOWN, cfg, REQUESTS, NODES, 0)
  {
    NoNodeIsCalledEsx();
    EsxIsReused(cfg);
    hide HostFor, NamedBy, Effective, Went;
  }

  /** A host known to the array by another name is registered for the new node, and deleted at once. */
  lemma ReusedHostIsDeleted(cfg: Config)
    requires cfg == Config(Iscsi, "g", [], "")
    ensures var (c, r) := Reconcile(KNOWN, cfg, SITE, NODES, NODES, NODES, true);
            "esx" in KNOWN.hosts && r.Some? && r.value.configured == ["n"] && "esx" !in c.hosts
  {
    KnownIsNamed();
    NewNodeIsChosen(cfg);
    EsxIsReused(cfg);
    EsxIsNotRecognised(cfg);
    hide Assess, Chosen, Went, Recognised, Reconcile, HostFor, Named, NodeNames, Effective, NamedBy, Register, FaName;
    UnrecognisedIsDeleted(KNOWN, cfg, SITE, NODES, NODES, NODES, REQUESTS, 0);
  }
}
