/**
 * HPE VME destinations: the appliance provisions all disks of an instance at once, and the
 * connector works out afterwards which array volume belongs to which source disk.
 */
module HpeDisks {
  import opened Wrappers
  import opened Text
  import opened Spec
  import opened Sorting

  // ------------------------------------------------------------ WWIDs ---

  const OUI := "624a937"
  const WWID := "3624a9370"

  function Trimmed(serial: string): string {
    Lower(Strip(serial))
  }

  /** The serial without blanks around it, in lower case and without a leading "0x". */
  function Bare(serial: string): string {
    var s := Trimmed(serial);
    if StartsWith(s, "0x") then s[2..] else s
  }

  function ScsiWwid(serial: string): string {
    var bare := Bare(serial);
    if StartsWith(bare, OUI) then "3" + bare else WWID + bare
  }

  function SerialFromWwid(wwid: string): string {
    var w := AfterLastSlash(Trimmed(wwid));
    if StartsWith(w, WWID) then w[|WWID|..]
    else if StartsWith(w, WWID[1..]) then w[|WWID| - 1..]
    else w
  }

  /** Lower-case hexadecimal, as the array prints serials. */
  predicate Hex(s: string) {
    forall k :: 0 <= k < |s| ==> '0' <= s[k] <= '9' || 'a' <= s[k] <= 'f'
  }

  const MAPPER := "/dev/mapper/"

  lemma {:induction false} NoSlashInside(prefix: string, s: string)
    requires forall k :: 0 <= k < |s| ==> s[k] != '/'
    ensures AfterLastSlash(prefix + "/" + s) == s
  {
    var all := prefix + "/" + s;
    if s == [] {
      assert all[|all| - 1] == '/';
    } else {
      NoSlashInside(prefix, s[..|s| - 1]);
      assert all[..|all| - 1] == prefix + "/" + s[..|s| - 1];
    }
  }

  lemma TrimIsIdle(s: string)
    requires forall k :: 0 <= k < |s| ==> !IsSpace(s[k]) && LowerChar(s[k]) == s[k]
    ensures Trimmed(s) == s
  {}

  /** What the multipath device of a WWID is read as. */
  lemma DeviceIsWwid(wwid: string)
    requires Hex(wwid) && wwid != []
    ensures AfterLastSlash(Trimmed(MAPPER + wwid)) == wwid
  {
    var path := MAPPER + wwid;
    TrimIsIdle(path);
    assert path == "/dev/mapper" + "/" + wwid;
    NoSlashInside("/dev/mapper", wwid);
  }

  lemma WwidIsHex(serial: string)
    requires Hex(Bare(serial))
    ensures Hex(ScsiWwid(serial)) && ScsiWwid(serial) != []
  {
    assert Hex(WWID) && Hex("3");
    hide Bare;
  }

  /**
   * The multipath name of a volume, however its serial is written, gives the bare serial back
   * unless that carries the vendor prefix.
   */
  lemma SerialRoundTrip(serial: string)
    requires Hex(Bare(serial))
    ensures SerialFromWwid(MAPPER + ScsiWwid(serial)) == Bare(serial) <==> !StartsWith(Bare(serial), OUI)
  {
    WwidIsHex(serial);
    var (bare, wwid) := (Bare(serial), ScsiWwid(serial));
    DeviceIsWwid(wwid);
    assert wwid == if StartsWith(bare, OUI) then "3" + bare else WWID + bare;
    hide Hex, ScsiWwid, Trimmed, AfterLastSlash, Bare;
    if StartsWith(bare, OUI) {
      assert |wwid| == |bare| + 1;
      assert !StartsWith(wwid, WWID[1..]) by { assert wwid[0] == '3' != WWID[1..][0]; }
    } else {
      assert wwid[..|WWID|] == WWID && wwid[|WWID|..] == bare;
    }
  }

  /** A serial as the array prints it is bare. */
  lemma HexIsBare(serial: string)
    requires Hex(serial)
    ensures Bare(serial) == serial
  {
    TrimIsIdle(serial);
    if |serial| >= 2 {
      assert serial[..2][1] == serial[1] != "0x"[1];
    }
  }

  const PREFIXED := "624a9370ab"

  /** A serial with the vendor prefix comes back without it. */
  lemma PrefixedSerialIsCut()
    ensures SerialFromWwid(MAPPER + ScsiWwid(PREFIXED)) == "ab" != PREFIXED
  {
    HexIsBare(PREFIXED);
    assert StartsWith(PREFIXED, OUI) by { assert PREFIXED[..7] == OUI; }
    WwidIsHex(PREFIXED);
    DeviceIsWwid(ScsiWwid(PREFIXED));
    hide Bare, Trimmed, Hex, AfterLastSlash;
    var wwid := "3" + PREFIXED;
    assert wwid == WWID + "ab";
    assert wwid[..|WWID|] == WWID && wwid[|WWID|..] == "ab";
    assert |PREFIXED| != |"ab"|;
  }

  // ------------------------------------------------------------ what is posted ---

  /** A volume of the instance as posted: whole units of 10^9 bytes. */
  datatype Posted = Posted(root: bool, title: string, gb: nat)

  const UNIT: nat := 1000000000

  function SizeOf(d: DiskSpec): nat {
    if d.identity.sizeBytes.Some? then d.identity.sizeBytes.value else 0
  }

  /** `max(1, -(-size // 1000**3))` */
  function Units(size: int): (gb: nat)
    ensures gb >= 1 && gb * UNIT >= size
    ensures forall n: nat :: n >= 1 && n * UNIT >= size ==> gb <= n
  {
    var up := -((-size) / UNIT);
    if up < 1 then 1 else up
  }

  function BootFirst(d: DiskSpec): Key {
    (if d.boot then 0 else 1, d.order)
  }

  function Ordered(disks: seq<DiskSpec>): seq<DiskSpec> {
    SortBy(disks, BootFirst)
  }

  function PostedAs(d: DiskSpec, first: bool): Posted {
    var root := d.boot || first;
    Posted(root, if root then "root" else "data-" + DecimalOf(d.order), Units(SizeOf(d)))
  }

  function DecimalOf(n: int): string {
    if n < 0 then "-" + Decimal(-n) else Decimal(n)
  }

  /** The volumes part of the provisioning request. */
  method PostVolumes(disks: seq<DiskSpec>) returns (ordered: seq<DiskSpec>, volumes: seq<Posted>)
    ensures ordered == Ordered(disks)
    ensures |volumes| == |ordered|
    ensures forall k :: 0 <= k < |volumes| ==> volumes[k] == PostedAs(ordered[k], k == 0)
  {
    ordered := Ordered(disks);
    volumes := [];
    for k := 0 to |ordered|
      invariant |volumes| == k
      invariant forall j :: 0 <= j < k ==> volumes[j] == PostedAs(ordered[j], j == 0)
    {
      var d := ordered[k];
      var gb := Units(SizeOf(d));
      if d.boot || k == 0 {
        volumes := volumes + [Posted(true, "root", gb)];
      } else {
        volumes := volumes + [Posted(false, "data-" + DecimalOf(d.order), gb)];
      }
    }
  }

  /** The first posted volume belongs to a boot disk if there is one, and is a root volume. */
  lemma BootDiskComesFirst(disks: seq<DiskSpec>, k: nat)
    requires k < |disks| && disks[k].boot
    ensures Ordered(disks) != [] && Ordered(disks)[0].boot
  {
    var ordered := Ordered(disks);
    SortAscends(disks, BootFirst);
    assert disks[k] in multiset(ordered);
    var j :| 0 <= j < |ordered| && ordered[j] == disks[k];
    assert !Below(BootFirst(ordered[j]), BootFirst(ordered[0]));
  }

  // ------------------------------------------------------------ what comes back ---

  datatype InstanceVolume = InstanceVolume(id: int, displayOrder: int, externalId: string)

  /** What the appliance reports, and how the array answers a search by serial. */
  datatype Report = Report(volumes: seq<InstanceVolume>, storage: map<int, string>, find: string -> Option<string>)

  function Display(v: InstanceVolume): Key {
    (v.displayOrder, 0)
  }

  function ExternalOf(report: Report, v: InstanceVolume): string {
    if v.id in report.storage && report.storage[v.id] != "" then report.storage[v.id] else v.externalId
  }

  /** The array volume behind an instance volume; none if nothing, or an empty name, is found. */
  function Resolve(report: Report, v: InstanceVolume): Option<string> {
    var serial := SerialFromWwid(ExternalOf(report, v));
    if serial == "" then None
    else
      var name := report.find(serial);
      if name == Some("") then None else name
  }

  /** The first `n` disks of `ordered` with the volumes found for them, later ones winning. */
  function Mapping(ordered: seq<DiskSpec>, names: seq<string>, n: nat): map<int, string>
    requires n <= |ordered| && n <= |names|
  {
    if n == 0 then map[] else Mapping(ordered, names, n - 1)[ordered[n - 1].order := names[n - 1]]
  }

  class Connector {
    var provisioned: map<int, string>

    constructor ()
      ensures provisioned == map[]
    {
      provisioned := map[];
    }

    /** Pairs the disks with the instance's volumes, both in order; stops at the first it cannot resolve. */
    method CacheProvisionedDisks(ordered: seq<DiskSpec>, report: Report)
      returns (outcome: Outcome, ghost names: seq<string>)
      modifies this
      ensures |names| <= |ordered| && |names| <= |report.volumes|
      ensures var sorted := SortBy(report.volumes, Display);
              && (forall k :: 0 <= k < |names| ==> Resolve(report, sorted[k]) == Some(names[k]))
              && (outcome.Raise? ==>
                    |names| < |ordered| && |names| < |sorted| && Resolve(report, sorted[|names|]).None?)
              && (outcome.Fine? ==> |names| == |ordered| || |names| == |sorted|)
      ensures provisioned == Mapping(ordered, names, |names|)
    {
      var sorted := SortBy(report.volumes, Display);
      hide SortBy, Resolve;
      provisioned := map[];
      names := [];
      for k := 0 to |ordered|
        invariant |names| == k <= |sorted|
        invariant forall j :: 0 <= j < k ==> Resolve(report, sorted[j]) == Some(names[j])
        invariant provisioned == Mapping(ordered, names, k)
      {
        if k >= |sorted| {
          return Fine, names;
        }
        var fa := Resolve(report, sorted[k]);
        if fa.None? {
          return Raise("Could not resolve the FlashArray volume"), names;
        }
        MappingFrame(ordered, names, names + [fa.value], k);
        names := names + [fa.value];
        provisioned := provisioned[ordered[k].order := fa.value];
      }
      outcome := Fine;
    }

    /** The end of `create_vm`, on an appliance that keeps the posted order: nothing is left unresolved. */
    method ResolveInstance(disks: seq<DiskSpec>, ghost posted: seq<Posted>, ghost made: seq<Made>, report: Report)
      returns (outcome: Outcome)
      requires PostedFor(disks, posted) && KeepsOrder(posted, made, report)
      modifies this
      ensures outcome.Fine? && provisioned == Mapping(Ordered(disks), NamesOf(made), |disks|)
    {
      assert |made| == |posted| == |disks|;
      hide Resolve, SortBy, Mapping, KeepsOrder;
      ghost var names;
      outcome, names := CacheProvisionedDisks(Ordered(disks), report);
      NothingUnresolved(posted, made, report, names, outcome.Raise?);
      assert |names| == |disks|;
    }

    method CreateManagedDisk(order: int) returns (outcome: Outcome, volume: string)
      ensures outcome.Fine? <==> order in provisioned && provisioned[order] != ""
      ensures outcome.Fine? ==> volume == provisioned[order]
    {
      if order in provisioned && provisioned[order] != "" {
        return Fine, provisioned[order];
      }
      return Raise("No provisioned FlashArray volume cached"), "";
    }
  }

  lemma {:induction false} MappingFrame(ordered: seq<DiskSpec>, names: seq<string>, names': seq<string>, n: nat)
    requires n <= |ordered| && n <= |names| && n <= |names'| && names[..n] == names'[..n]
    ensures Mapping(ordered, names, n) == Mapping(ordered, names', n)
  {
    if n > 0 {
      assert names[n - 1] == names[..n][n - 1];
      assert names[..n - 1] == names[..n][..n - 1] && names'[..n - 1] == names'[..n][..n - 1];
      MappingFrame(ordered, names, names', n - 1);
    }
  }

  // ------------------------------------------------------------ the appliance ---

  /** A volume the appliance made for one posted entry. */
  datatype Made = Made(id: int, display: int, serial: string, name: string, bytes: nat)

  function Reported(m: Made): InstanceVolume {
    InstanceVolume(m.id, m.display, "")
  }

  function AllReported(made: seq<Made>): (r: seq<InstanceVolume>)
    ensures |r| == |made| && forall k :: 0 <= k < |made| ==> r[k] == Reported(made[k])
  {
    seq(|made|, k requires 0 <= k < |made| => Reported(made[k]))
  }

  /** What the array finds for a proper serial, without the vendor prefix. */
  function Found(serial: string, report: Report): Option<string> {
    var bare := Bare(serial);
    if bare == "" || !Hex(bare) || StartsWith(bare, OUI) then None else report.find(bare)
  }

  /**
   * The appliance makes one volume of the posted size for each entry and numbers them in the
   * posted order; it may list them in any order.
   */
  ghost predicate KeepsOrder(posted: seq<Posted>, made: seq<Made>, report: Report) {
    && |made| == |posted|
    && (forall i, j :: 0 <= i < j < |made| ==> made[i].display < made[j].display && made[i].name != made[j].name)
    && (forall k :: 0 <= k < |made| ==>
          && made[k].bytes >= posted[k].gb * UNIT
          && made[k].name != "" && Found(made[k].serial, report) == Some(made[k].name)
          && made[k].id in report.storage && report.storage[made[k].id] == MAPPER + ScsiWwid(made[k].serial))
    && multiset(report.volumes) == multiset(AllReported(made))
  }

  /** Sorted by display order, the report gives back the volumes in the posted order. */
  lemma ReportIsRead(posted: seq<Posted>, made: seq<Made>, report: Report)
    requires KeepsOrder(posted, made, report)
    ensures var sorted := SortBy(report.volumes, Display);
            && |sorted| == |made|
            && forall k :: 0 <= k < |made| ==> Resolve(report, sorted[k]) == Some(made[k].name)
  {
    SortRecovers(report.volumes, AllReported(made), Display);
    forall k | 0 <= k < |made| ensures Resolve(report, Reported(made[k])) == Some(made[k].name) {
      SerialRoundTrip(made[k].serial);
    }
  }

  /** Reading the report pairs every entry with its volume and cannot stop early. */
  lemma NothingUnresolved(posted: seq<Posted>, made: seq<Made>, report: Report, names: seq<string>, stopped: bool)
    requires KeepsOrder(posted, made, report)
    requires |names| <= |posted| && |names| <= |report.volumes|
    requires var sorted := SortBy(report.volumes, Display);
             && (forall k :: 0 <= k < |names| ==> Resolve(report, sorted[k]) == Some(names[k]))
             && (stopped ==> |names| < |posted| && |names| < |sorted| && Resolve(report, sorted[|names|]).None?)
             && (!stopped ==> |names| == |posted| || |names| == |sorted|)
    ensures !stopped && names == NamesOf(made)
  {
    ReportIsRead(posted, made, report);
    assert |made| == |posted|;
    hide Resolve, SortBy, KeepsOrder;
    assert forall k :: 0 <= k < |names| ==> names[k] == NamesOf(made)[k];
  }

  // ------------------------------------------------------------ the mapping ---

  predicate DistinctOrders(disks: seq<DiskSpec>) {
    forall i, j :: 0 <= i < j < |disks| ==> disks[i].order != disks[j].order
  }

  lemma {:induction false} LastOneWins(ordered: seq<DiskSpec>, names: seq<string>, n: nat, k: nat)
    requires n <= |ordered| && n <= |names| && k < n
    requires forall j :: k < j < n ==> ordered[j].order != ordered[k].order
    ensures ordered[k].order in Mapping(ordered, names, n)
    ensures Mapping(ordered, names, n)[ordered[k].order] == names[k]
  {
    if k < n - 1 {
      LastOneWins(ordered, names, n - 1, k);
    }
  }

  function Without<T>(s: seq<T>, p: nat): (r: seq<T>)
    requires p < |s|
    ensures |r| == |s| - 1
    ensures multiset(r) == multiset(s) - multiset{s[p]}
  {
    assert s == s[..p] + [s[p]] + s[p + 1..];
    s[..p] + s[p + 1..]
  }

  lemma {:induction false} DistinctOrdersPermute(a: seq<DiskSpec>, b: seq<DiskSpec>)
    requires multiset(a) == multiset(b) && DistinctOrders(a)
    ensures DistinctOrders(b)
    decreases |b|
  {
    if b != [] {
      var n := |b| - 1;
      assert b == b[..n] + [b[n]];
      assert b[n] in multiset(a);
      var p: nat :| p < |a| && a[p] == b[n];
      var rest := Without(a, p);
      RestDiffers(a, p);
      assert multiset(rest) == multiset(b[..n]);
      DistinctOrdersPermute(rest, b[..n]);
      forall i | 0 <= i < n ensures b[i].order != b[n].order {
        assert b[..n][i] in multiset(rest);
      }
      assert forall i, j :: 0 <= i < j < n ==> b[..n][i].order != b[..n][j].order;
    }
  }

  lemma RestDiffers(a: seq<DiskSpec>, p: nat)
    requires DistinctOrders(a) && p < |a|
    ensures DistinctOrders(Without(a, p))
    ensures forall d :: d in Without(a, p) ==> d.order != a[p].order
  {
  }

  predicate Covers(disks: seq<DiskSpec>, cache: map<int, string>) {
    forall i :: 0 <= i < |disks| ==> disks[i].order in cache
  }

  ghost predicate Injective(disks: seq<DiskSpec>, cache: map<int, string>)
    requires Covers(disks, cache)
  {
    forall i, j :: 0 <= i < j < |disks| ==> cache[disks[i].order] != cache[disks[j].order]
  }

  function NamesOf(made: seq<Made>): (names: seq<string>)
    ensures |names| == |made| && forall k :: 0 <= k < |made| ==> names[k] == made[k].name
  {
    seq(|made|, k requires 0 <= k < |made| => made[k].name)
  }

  /** What `PostVolumes` posts. */
  ghost predicate PostedFor(disks: seq<DiskSpec>, posted: seq<Posted>) {
    |posted| == |disks| && forall k :: 0 <= k < |posted| ==> posted[k] == PostedAs(Ordered(disks)[k], k == 0)
  }

  /** Which made volume a disk is mapped to, when orders are distinct. */
  lemma MappedTo(disks: seq<DiskSpec>, posted: seq<Posted>, made: seq<Made>, report: Report, i: nat)
    returns (k: nat)
    requires DistinctOrders(disks) && i < |disks| && PostedFor(disks, posted)
    requires KeepsOrder(posted, made, report)
    ensures k < |made| && Ordered(disks)[k] == disks[i] && made[k].bytes >= SizeOf(disks[i])
    ensures var cache := Mapping(Ordered(disks), NamesOf(made), |disks|);
            disks[i].order in cache && cache[disks[i].order] == made[k].name
  {
    var ordered := Ordered(disks);
    DistinctOrdersPermute(disks, ordered);
    assert disks[i] in multiset(ordered);
    k :| k < |ordered| && ordered[k] == disks[i];
    LastOneWins(ordered, NamesOf(made), |ordered|, k);
    assert posted[k].gb * UNIT >= SizeOf(ordered[k]);
  }

  /** The disk is mapped to a made volume of at least its size. */
  ghost predicate Served(d: DiskSpec, cache: map<int, string>, made: seq<Made>) {
    && d.order in cache
    && exists k :: 0 <= k < |made| && made[k].name == cache[d.order] && made[k].bytes >= SizeOf(d)
  }

  lemma TwoDisksTwoVolumes(disks: seq<DiskSpec>, posted: seq<Posted>, made: seq<Made>, report: Report, i: nat, j: nat)
    requires DistinctOrders(disks) && i < j < |disks| && PostedFor(disks, posted) && KeepsOrder(posted, made, report)
    ensures var cache := Mapping(Ordered(disks), NamesOf(made), |disks|);
            && Served(disks[i], cache, made) && Served(disks[j], cache, made)
            && cache[disks[i].order] != cache[disks[j].order]
  {
    assert forall k, l :: 0 <= k < l < |made| ==> made[k].name != made[l].name;
    hide KeepsOrder, PostedFor, Mapping;
    var k := MappedTo(disks, posted, made, report, i);
    var l := MappedTo(disks, posted, made, report, j);
    assert k != l;
  }

  /**
   * Each source disk is given a volume of its own, at least its size, exactly when no two disks
   * have the same order: two that do are copied over each other.
   */
  lemma EachDiskHasItsOwnVolume(disks: seq<DiskSpec>, posted: seq<Posted>, made: seq<Made>, report: Report)
    requires PostedFor(disks, posted) && KeepsOrder(posted, made, report)
    ensures var cache := Mapping(Ordered(disks), NamesOf(made), |disks|);
            && (Covers(disks, cache) && Injective(disks, cache) <==> DistinctOrders(disks))
            && (DistinctOrders(disks) ==> forall i :: 0 <= i < |disks| ==> Served(disks[i], cache, made))
  {
    assert |Ordered(disks)| == |disks| && |posted| == |made|;
    hide KeepsOrder, PostedFor, Mapping, Ordered, NamesOf;
    var cache := Mapping(Ordered(disks), NamesOf(made), |disks|);
    if DistinctOrders(disks) {
      forall i: nat | i < |disks| ensures Served(disks[i], cache, made) {
        var k := MappedTo(disks, posted, made, report, i);
      }
      assert Covers(disks, cache);
      hide Served;
      forall i: nat, j: nat | i < j < |disks| ensures cache[disks[i].order] != cache[disks[j].order] {
        TwoDisksTwoVolumes(disks, posted, made, report, i, j);
      }
    }
  }

  // ------------------------------------------------------------ two disks, one volume ---

  const TWINS := [
    DiskSpec(DiskIdentity("a", None, Some(1)), "scsi", 0, true, ""),
    DiskSpec(DiskIdentity("b", None, Some(1)), "scsi", 0, false, "")]

  const TWIN_VOLUMES := [Made(1, 0, "aa", "va", UNIT), Made(2, 1, "bb", "vb", UNIT)]

  /** An appliance that keeps the posted order and lists its volumes the other way round. */
  function TwinReport(): Report {
    Report([InstanceVolume(2, 1, ""), InstanceVolume(1, 0, "")],
           map[1 := MAPPER + ScsiWwid("aa"), 2 := MAPPER + ScsiWwid("bb")],
           (serial: string) => if serial == "aa" then Some("va") else if serial == "bb" then Some("vb") else None)
  }

  lemma TwinsAreOrdered()
    ensures Ordered(TWINS) == TWINS
    ensures PostedFor(TWINS, [Posted(true, "root", 1), Posted(false, "data-0", 1)])
  {
    assert TWINS[1..] == [TWINS[1]] && TWINS[1..][1..] == [];
    assert SortBy(TWINS[1..], BootFirst) == [TWINS[1]];
    assert Units(1) == 1;
    assert "data-" + Decimal(0) == "data-0";
  }

  lemma TwinsAreFound()
    ensures Found("aa", TwinReport()) == Some("va") && Found("bb", TwinReport()) == Some("vb")
  {
    HexIsBare("aa");
    HexIsBare("bb");
    hide Bare;
  }

  lemma TwinsAreReported()
    ensures multiset(TwinReport().volumes) == multiset(AllReported(TWIN_VOLUMES))
  {
    assert AllReported(TWIN_VOLUMES) == [InstanceVolume(1, 0, ""), InstanceVolume(2, 1, "")];
  }

  lemma TwinsAreKept()
    ensures KeepsOrder([Posted(true, "root", 1), Posted(false, "data-0", 1)], TWIN_VOLUMES, TwinReport())
  {
    TwinsAreFound();
    TwinsAreReported();
    assert "va" != "vb" by { assert "va"[1] != "vb"[1]; }
    hide Found, ScsiWwid, AllReported, Hex;
  }

  /** Two disks of one order: both are mapped to the second volume. */
  lemma SameOrderSharesAVolume()
    ensures var posted := [Posted(true, "root", 1), Posted(false, "data-0", 1)];
            && PostedFor(TWINS, posted) && KeepsOrder(posted, TWIN_VOLUMES, TwinReport())
            && Mapping(Ordered(TWINS), NamesOf(TWIN_VOLUMES), 2) == map[0 := "vb"]
            && !Injective(TWINS, Mapping(Ordered(TWINS), NamesOf(TWIN_VOLUMES), 2))
  {
    TwinsAreOrdered();
    TwinsAreKept();
    hide KeepsOrder, PostedFor, Ordered;
    var names := NamesOf(TWIN_VOLUMES);
    assert Mapping(TWINS, names, 0) == map[];
    assert Mapping(TWINS, names, 1) == map[0 := "va"];
    assert Mapping(TWINS, names, 2) == map[0 := "vb"];
  }
}
