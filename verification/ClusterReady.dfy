/**
 * Whether a new node of a cluster is ready to be configured, as far as its host and the array
 * tell.
 */
module ClusterReady {
  import opened Wrappers
  import opened ClusterDrift

  datatype Protocol = Iscsi | Fc | NvmeTcp | NvmeFc | NvmeRoce | Nfs

  predicate IsNvme(proto: Protocol) {
    proto.NvmeTcp? || proto.NvmeFc? || proto.NvmeRoce?
  }

  /** Protocols with portals, which a host reaches through a network card. */
  predicate IsIp(proto: Protocol) {
    proto.Iscsi? || proto.NvmeTcp?
  }

  /** The initiators a host tells; an empty name is none. */
  datatype Found = Found(iqn: string, nqn: string, wwns: seq<string>)

  /** A network, and the portals of the array that are in it. */
  datatype Subnet = Subnet(cidr: string, inside: set<string>)

  /**
   * What can be found out: the array's portals for the protocol, and the initiators and the
   * networks of the cards that each host tells. A host without an entry raises.
   */
  datatype Site = Site(portals: seq<string>, found: map<string, Found>, nics: map<string, seq<Option<Subnet>>>)

  datatype Reason = Unreachable | NoNqn | NoWwns | NoIqn | NoStorageNic | OtherSubnet

  // ------------------------------------------------------------ storage networks ---

  predicate Reaches(nic: Option<Subnet>, portals: seq<string>) {
    nic.Some? && exists p :: p in portals && p in nic.value.inside
  }

  function Reaching(nics: seq<Option<Subnet>>, portals: seq<string>): set<string> {
    set n | n in nics && Reaches(n, portals) :: n.value.cidr
  }

  method StorageSubnets(nics: seq<Option<Subnet>>, portals: seq<string>) returns (subnets: set<string>)
    ensures subnets == Reaching(nics, portals)
  {
    subnets := {};
    for i := 0 to |nics|
      invariant subnets == Reaching(nics[..i], portals)
    {
      var reached := false;
      if nics[i].Some? {
        for k := 0 to |portals|
          invariant reached <==> exists p :: p in portals[..k] && p in nics[i].value.inside
        {
          reached := reached || portals[k] in nics[i].value.inside;
        }
        assert portals[..|portals|] == portals;
      }
      if reached {
        subnets := subnets + {nics[i].value.cidr};
      }
      assert nics[..i + 1] == nics[..i] + [nics[i]];
    }
    assert nics[..|nics|] == nics;
  }

  /** The storage networks of the first configured node that has any; asking may raise. */
  function Baseline(site: Site, configured: seq<Node>): Option<set<string>> {
    if configured == [] then Some({})
    else if configured[0].host !in site.nics then None
    else
      var subnets := Reaching(site.nics[configured[0].host], site.portals);
      if subnets != {} then Some(subnets) else Baseline(site, configured[1..])
  }

  function BaselineOf(site: Site, proto: Protocol, configured: seq<Node>): Option<set<string>> {
    if !IsIp(proto) || site.portals == [] then Some({}) else Baseline(site, configured)
  }

  method BaselineSubnets(site: Site, proto: Protocol, configured: seq<Node>) returns (subnets: Option<set<string>>)
    ensures subnets == BaselineOf(site, proto, configured)
  {
    hide Reaching;
    if !IsIp(proto) || site.portals == [] {
      return Some({});
    }
    for i := 0 to |configured|
      invariant Baseline(site, configured[i..]) == Baseline(site, configured)
    {
      if configured[i].host !in site.nics {
        return None;
      }
      var own := StorageSubnets(site.nics[configured[i].host], site.portals);
      if own != {} {
        return Some(own);
      }
      assert configured[i..][1..] == configured[i + 1..];
    }
    subnets := Some({});
  }

  // ------------------------------------------------------------ the verdict ---

  predicate HasInitiator(proto: Protocol, found: Found) {
    if IsNvme(proto) then found.nqn != "" else if proto.Fc? then found.wwns != [] else found.iqn != ""
  }

  predicate Answers(site: Site, proto: Protocol, host: string) {
    host in site.found && (IsIp(proto) ==> host in site.nics)
  }

  /** A card in one of the portals' networks, and in one of the other nodes' if they have any. */
  predicate OnStorageNetwork(site: Site, host: string, baseline: set<string>)
    requires host in site.nics
  {
    && (exists n :: n in site.nics[host] && Reaches(n, site.portals))
    && (baseline != {} ==>
          exists n :: n in site.nics[host] && Reaches(n, site.portals) && n.value.cidr in baseline)
  }

  predicate Ready(site: Site, proto: Protocol, host: string, baseline: set<string>) {
    && Answers(site, proto, host) && HasInitiator(proto, site.found[host])
    && (IsIp(proto) && site.portals != [] ==> OnStorageNetwork(site, host, baseline))
  }

  /** What speaks against a host: nothing exactly if it is ready, and only that it is out of reach if it is. */
  ghost predicate Scored(site: Site, proto: Protocol, host: string, baseline: set<string>, reasons: seq<Reason>) {
    && (reasons == [] <==> Ready(site, proto, host, baseline))
    && (Unreachable in reasons <==> !Answers(site, proto, host))
    && (Unreachable in reasons ==> reasons == [Unreachable])
    && (NoStorageNic in reasons ==> OtherSubnet !in reasons)
  }

  function InitiatorReasons(proto: Protocol, found: Found): seq<Reason> {
    if HasInitiator(proto, found) then []
    else [if IsNvme(proto) then NoNqn else if proto.Fc? then NoWwns else NoIqn]
  }

  function Reasons(site: Site, proto: Protocol, host: string, baseline: set<string>): seq<Reason> {
    if !Answers(site, proto, host) then [Unreachable]
    else
      InitiatorReasons(proto, site.found[host])
      + if !IsIp(proto) || site.portals == [] then []
        else
          var matched := Reaching(site.nics[host], site.portals);
          if matched == {} then [NoStorageNic]
          else if baseline != {} && matched * baseline == {} then [OtherSubnet]
          else []
  }

  /** `_score_node` with `score_host_readiness` */
  method ScoreNode(site: Site, proto: Protocol, host: string, baseline: set<string>) returns (reasons: seq<Reason>)
    ensures reasons == Reasons(site, proto, host, baseline)
  {
    hide Reaching;
    if host !in site.found || (IsIp(proto) && host !in site.nics) {
      return [Unreachable];
    }
    reasons := [];
    if IsNvme(proto) {
      if site.found[host].nqn == "" { reasons := reasons + [NoNqn]; }
    } else if proto.Fc? {
      if site.found[host].wwns == [] { reasons := reasons + [NoWwns]; }
    } else {
      if site.found[host].iqn == "" { reasons := reasons + [NoIqn]; }
    }
    if IsIp(proto) && site.portals != [] {
      var matched := StorageSubnets(site.nics[host], site.portals);
      if matched == {} {
        reasons := reasons + [NoStorageNic];
      } else if baseline != {} && matched * baseline == {} {
        reasons := reasons + [OtherSubnet];
      }
    }
  }

  /** Nothing speaks against a host exactly if it is ready. */
  lemma ReadyExactlyWithoutReasons(site: Site, proto: Protocol, host: string, baseline: set<string>)
    ensures Scored(site, proto, host, baseline, Reasons(site, proto, host, baseline))
  {
    if Answers(site, proto, host) && IsIp(proto) {
      var (nics, portals) := (site.nics[host], site.portals);
      if n :| n in nics && Reaches(n, portals) {
        assert n.value.cidr in Reaching(nics, portals);
      }
      if n :| n in nics && Reaches(n, portals) && n.value.cidr in baseline {
        assert n.value.cidr in Reaching(nics, portals) * baseline;
      }
      if c :| c in Reaching(nics, portals) * baseline {
        var n :| n in nics && Reaches(n, portals) && n.value.cidr == c;
      }
    }
  }
}
