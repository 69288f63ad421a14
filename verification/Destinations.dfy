/**
 * Which hypervisors a VM can migrate to: the endpoint that judges all of them with remembered
 * array reads, the per-pair check it speeds up, and the check a submitted pair goes through.
 */
module Destinations {
  import opened Wrappers
  import opened Text

  /** `arrayId` is empty when no array is associated. */
  datatype Hypervisor = Hypervisor(id: string, connectorKey: string, arrayId: string)

  datatype Link = Link(name: string, kind: string)

  /** A connector without an array, a failure anywhere on the way, or an answer. */
  datatype Read<T> = NoArray | Fails | Got(value: T)

  /** What the arrays answer, a function of the array's id. */
  datatype Fleet = Fleet(
    supports: string -> bool,
    names: string -> Read<string>,
    links: string -> Read<seq<Link>>)

  datatype Reason =
    | NoDestination | NoSource | SourceHasNoArray | DestinationHasNoArray
    | SameArray | Connected(array: string) | MustBeAuthorized(array: string)

  datatype Entry = Entry(
    id: string, eligible: bool, reason: Reason, crossArray: bool,
    connectionExists: bool, needsAuthorization: bool, destArrayName: string)

  datatype Verdict = Accepted | Rejected(code: nat)

  /** Only a replication connection can move a volume; fleet management cannot. */
  predicate IsReplication(kind: string) {
    Contains(Lower(Strip(kind)), "replication")
  }

  predicate Reaches(links: seq<Link>, name: string) {
    exists k :: 0 <= k < |links| && links[k].name == name && IsReplication(links[k].kind)
  }

  // ------------------------------------------------------------ the per-pair check ---

  /** `_array_connection_status` */
  function ConnectionStatus(fleet: Fleet, source: Hypervisor, dest: Hypervisor): (bool, string) {
    match (fleet.links(source.arrayId), fleet.names(dest.arrayId))
    case (Got(links), Got(name)) => (Reaches(links, name), name)
    case _ => (false, "")
  }

  /** `_validate_pair` */
  function ValidatePair(fleet: Fleet, source: Hypervisor, dest: Hypervisor, authorized: bool): Verdict {
    if source.id == dest.id then Rejected(400)
    else if !fleet.supports(source.connectorKey) then Rejected(400)
    else if !fleet.supports(dest.connectorKey) then Rejected(400)
    else if source.arrayId == "" || dest.arrayId == "" then Rejected(400)
    else if source.arrayId != dest.arrayId && !authorized && !ConnectionStatus(fleet, source, dest).0 then Rejected(409)
    else Accepted
  }

  // ------------------------------------------------------------ the endpoint ---

  /** The verdict on one candidate, given the remote name and the source's connections. */
  function Judge(fleet: Fleet, source: Hypervisor, hv: Hypervisor, name: string, links: seq<Link>): Entry {
    var no := Entry(hv.id, false, NoDestination, false, false, false, "");
    if !fleet.supports(hv.connectorKey) then no
    else if !fleet.supports(source.connectorKey) then no.(reason := NoSource)
    else if source.arrayId == "" then no.(reason := SourceHasNoArray)
    else if hv.arrayId == "" then no.(reason := DestinationHasNoArray)
    else if source.arrayId == hv.arrayId then no.(eligible := true, reason := SameArray)
    else
      var connected := name != "" && Reaches(links, name);
      Entry(hv.id, true, if connected then Connected(name) else MustBeAuthorized(name),
            true, connected, !connected, name)
  }

  function NameOf(fleet: Fleet, arrayId: string): string {
    match fleet.names(arrayId)
    case Got(name) => name
    case _ => ""
  }

  function LinksOf(fleet: Fleet, source: Hypervisor): seq<Link> {
    match fleet.links(source.arrayId)
    case Got(links) => links
    case _ => []
  }

  /** The entry a fresh read of both arrays would give. */
  function FreshEntry(fleet: Fleet, source: Hypervisor, hv: Hypervisor): Entry {
    Judge(fleet, source, hv, NameOf(fleet, hv.arrayId), LinksOf(fleet, source))
  }

  /** The entries of all hypervisors but the source, in order. */
  function FreshEntries(fleet: Fleet, source: Hypervisor, rows: seq<Hypervisor>): seq<Entry> {
    if rows == [] then []
    else
      var (before, hv) := (FreshEntries(fleet, source, rows[..|rows| - 1]), rows[|rows| - 1]);
      if hv.id == source.id then before else before + [FreshEntry(fleet, source, hv)]
  }

  /** Whether judging this candidate needs the arrays at all. */
  predicate CrossArray(fleet: Fleet, source: Hypervisor, hv: Hypervisor) {
    && fleet.supports(hv.connectorKey) && fleet.supports(source.connectorKey)
    && source.arrayId != "" && hv.arrayId != "" && source.arrayId != hv.arrayId
  }

  /** One run of the endpoint, with what it remembers and what it reads. */
  class Lookup {
    const fleet: Fleet
    const source: Hypervisor
    var sourceLinks: Option<seq<Link>>
    var destNames: map<string, string>
    var sourceReads: nat
    var nameReads: seq<string>

    constructor (fleet: Fleet, source: Hypervisor)
      ensures this.fleet == fleet && this.source == source
      ensures Valid() && sourceReads == 0 && nameReads == []
    {
      this.fleet, this.source := fleet, source;
      sourceLinks, destNames, sourceReads, nameReads := None, map[], 0, [];
    }

    /** What is remembered is what a fresh read would say, and was read once. */
    predicate Valid()
      reads this
    {
      && (sourceLinks.Some? ==> sourceLinks.value == LinksOf(fleet, source))
      && (forall a :: a in destNames ==> destNames[a] == NameOf(fleet, a))
      && sourceReads == (if sourceLinks.Some? then 1 else 0)
      && (forall k :: 0 <= k < |nameReads| ==> nameReads[k] in destNames)
      && (forall j, k :: 0 <= j < k < |nameReads| ==> nameReads[j] != nameReads[k])
    }

    /** One of the first `n` candidates is on array `a` and can only be judged by its name. */
    predicate NeededBy(rows: seq<Hypervisor>, n: nat, a: string)
      requires n <= |rows|
    {
      exists k :: 0 <= k < n && rows[k].arrayId == a && CrossArray(fleet, source, rows[k])
    }

    method DestArrayName(hv: Hypervisor) returns (name: string)
      requires Valid()
      modifies this
      ensures Valid() && name == NameOf(fleet, hv.arrayId)
      ensures (sourceLinks, sourceReads) == old((sourceLinks, sourceReads))
      ensures nameReads == old(nameReads) + if hv.arrayId in old(destNames) then [] else [hv.arrayId]
    {
      if hv.arrayId in destNames {
        return destNames[hv.arrayId];
      }
      name := "";
      nameReads := nameReads + [hv.arrayId];
      var read := fleet.names(hv.arrayId);
      if read.Got? {
        name := read.value;
      }
      destNames := destNames[hv.arrayId := name];
    }

    method SourceConnections() returns (links: seq<Link>)
      requires Valid()
      modifies this
      ensures Valid() && links == LinksOf(fleet, source)
      ensures (destNames, nameReads) == old((destNames, nameReads))
    {
      if sourceLinks.None? {
        var read := fleet.links(source.arrayId);
        sourceReads := sourceReads + 1;
        sourceLinks := Some(if read.Got? then read.value else []);
      }
      links := sourceLinks.value;
    }

    /** Each entry is what fresh reads would give; no array is asked the same thing twice. */
    method MigrationDestinations(rows: seq<Hypervisor>) returns (entries: seq<Entry>)
      requires Valid() && sourceReads == 0 && nameReads == []
      modifies this
      ensures entries == FreshEntries(fleet, source, rows)
      ensures sourceReads <= 1
      ensures forall j, k :: 0 <= j < k < |nameReads| ==> nameReads[j] != nameReads[k]
      ensures forall a :: a in nameReads ==> NeededBy(rows, |rows|, a)
    {
      hide Reaches;
      entries := [];
      for i := 0 to |rows|
        invariant Valid()
        invariant entries == FreshEntries(fleet, source, rows[..i])
        invariant forall a :: a in nameReads ==> NeededBy(rows, i, a)
      {
        assert rows[..i + 1][..i] == rows[..i];
        var hv := rows[i];
        if hv.id == source.id {
          continue;
        }
        var name, links := "", [];
        if CrossArray(fleet, source, hv) {
          name := DestArrayName(hv);
          if name != "" {
            links := SourceConnections();
          }
        }
        entries := entries + [Judge(fleet, source, hv, name, links)];
      }
      assert rows[..|rows|] == rows;
    }
  }

  // ------------------------------------------------------------ the two agree ---

  /** An array that answers with an empty name, and a connection to no name that replicates. */
  predicate Nameless(fleet: Fleet, source: Hypervisor, dest: Hypervisor) {
    fleet.names(dest.arrayId) == Got("") && Reaches(LinksOf(fleet, source), "")
  }

  /** The remembered answer is the per-pair answer, except between nameless arrays. */
  lemma MemoAgreesWithThePair(fleet: Fleet, source: Hypervisor, dest: Hypervisor)
    requires CrossArray(fleet, source, dest)
    ensures FreshEntry(fleet, source, dest).connectionExists == ConnectionStatus(fleet, source, dest).0
            <==> !Nameless(fleet, source, dest)
  {}

  /**
   * A submitted pair is accepted exactly when the endpoint offers it and any authorization it
   * asks for is given; only between nameless arrays it is accepted without the one asked for.
   */
  lemma SubmitAgreesWithTheOffer(fleet: Fleet, source: Hypervisor, dest: Hypervisor, authorized: bool)
    requires source.id != dest.id
    ensures var entry := FreshEntry(fleet, source, dest);
            var offered := entry.eligible && (authorized || !entry.needsAuthorization);
            (ValidatePair(fleet, source, dest, authorized).Accepted? <==> offered)
            <==> !(CrossArray(fleet, source, dest) && Nameless(fleet, source, dest) && !authorized)
  {}

  /** The number of candidates among the first `k` hypervisors. */
  function Before(source: Hypervisor, rows: seq<Hypervisor>, k: nat): nat
    requires k <= |rows|
  {
    if k == 0 then 0 else Before(source, rows, k - 1) + if rows[k - 1].id == source.id then 0 else 1
  }

  /** Every hypervisor but the source has its own place in the list, in order; nobody else has. */
  lemma {:induction false} EveryCandidateIsListed(fleet: Fleet, source: Hypervisor, rows: seq<Hypervisor>)
    ensures |FreshEntries(fleet, source, rows)| == Before(source, rows, |rows|)
    ensures forall k :: 0 <= k < |rows| && rows[k].id != source.id ==>
              && Before(source, rows, k) < |FreshEntries(fleet, source, rows)|
              && FreshEntries(fleet, source, rows)[Before(source, rows, k)] == FreshEntry(fleet, source, rows[k])
  {
    hide FreshEntry;
    if rows != [] {
      var n := |rows| - 1;
      EveryCandidateIsListed(fleet, source, rows[..n]);
      forall k | 0 <= k <= n ensures Before(source, rows, k) == Before(source, rows[..n], k) {
        BeforeIsLocal(source, rows, n, k);
      }
      assert forall k :: 0 <= k < n ==> rows[..n][k] == rows[k];
    }
  }

  lemma {:induction false} BeforeIsLocal(source: Hypervisor, rows: seq<Hypervisor>, n: nat, k: nat)
    requires k <= n <= |rows|
    ensures Before(source, rows, k) == Before(source, rows[..n], k)
  {
    if k > 0 {
      BeforeIsLocal(source, rows, n, k - 1);
    }
  }

  /** Two arrays, the one without a name, and a replication connection to no name. */
  function NamelessFleet(): Fleet {
    Fleet((key: string) => true, (a: string) => Got(""), (a: string) => Got([Link("", ASYNC)]))
  }

  /** The pair check finds the nameless array connected; the endpoint asks for authorization. */
  lemma NamelessArraysDisagree()
    ensures var (source, dest) := (Hypervisor("s", "k", "a"), Hypervisor("d", "k", "b"));
            && ConnectionStatus(NamelessFleet(), source, dest).0
            && ValidatePair(NamelessFleet(), source, dest, false).Accepted?
            && !FreshEntry(NamelessFleet(), source, dest).connectionExists
            && FreshEntry(NamelessFleet(), source, dest).needsAuthorization
  {
    AsyncReplicates();
    hide IsReplication;
    var links := [Link("", ASYNC)];
    assert links[0].name == "" && IsReplication(links[0].kind);
    assert Reaches(links, "");
  }

  const ASYNC := "async-replication"

  lemma AsyncReplicates()
    ensures IsReplication(ASYNC)
  {
    assert ASYNC == "async-" + "replication";
    assert StripLeft(ASYNC) == ASYNC && StripRight(ASYNC) == ASYNC;
    assert Lower(ASYNC) == ASYNC;
    assert OccursAt(ASYNC, "replication", 6);
  }
}
