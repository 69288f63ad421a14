/**
 * The keys under which the SMAPIv3 plugin presents array volumes and snapshots as virtual
 * disks, and how a key leads back to the array object.
 */
module VdiKeys {
  import opened Wrappers
  import opened Text

  /** A volume or a volume snapshot on the array, with its two tags if it carries them. */
  datatype Obj = Obj(
    name: string, serial: string, provisioned: nat, vdiName: Option<string>, vdiDesc: Option<string>, destroyed: bool)

  datatype Vdi = Vdi(
    key: string, uuid: string, name: string, description: string, readWrite: bool,
    virtualSize: nat, physicalUtilisation: nat, uri: seq<string>)

  function Prefix(sr: string): string {
    sr + "-"
  }

  function CutPrefix(s: string, prefix: string): string {
    if StartsWith(s, prefix) then s[|prefix|..] else s
  }

  /** `s.split("/", 1)[1]` */
  function AfterFirstSlash(s: string): string
    requires '/' in s
  {
    if s[0] == '/' then s[1..] else AfterFirstSlash(s[1..])
  }

  predicate IsSnapshotKey(key: string) {
    '.' in AfterLastSlash(key)
  }

  predicate IsVgroupKey(key: string) {
    '/' in key
  }

  /** The array object a key stands for. */
  function ObjName(sr: string, key: string): string {
    if IsSnapshotKey(key) || IsVgroupKey(key) then key else Prefix(sr) + key
  }

  // ------------------------------------------------------------ devices ---

  const OUI := "624a937"
  const PURE_OUI := "624a9370"

  function Bare(serial: string): string {
    var s := Lower(serial);
    if StartsWith(s, "0x") then s[2..] else s
  }

  function Vendored(bare: string): string {
    if StartsWith(bare, OUI) then bare else PURE_OUI + bare
  }

  function ScsiWwid(serial: string): string {
    "3" + Vendored(Bare(serial))
  }

  /** The multipath device of a volume; `nvme` for the two NVMe protocols. */
  function DevicePath(serial: string, nvme: bool): string {
    if nvme then "/dev/mapper/eui." + Lower(serial) else "/dev/mapper/" + ScsiWwid(serial)
  }

  function Uri(serial: string, nvme: bool): seq<string> {
    if serial == "" then [] else ["purefa://" + DevicePath(serial, nvme)]
  }

  /** `s` is `t` with the vendor prefix that the device name of `t` is given. */
  predicate Spelled(s: string, t: string) {
    !StartsWith(t, OUI) && s == PURE_OUI + t
  }

  /** Two volumes share a device exactly when they share the serial, one perhaps with the vendor prefix. */
  lemma DevicesTellVolumesApart(s: string, t: string, nvme: bool)
    requires s != "" && t != ""
    ensures !nvme ==> (Uri(s, nvme) == Uri(t, nvme) <==>
                         || Bare(s) == Bare(t) || Spelled(Bare(s), Bare(t)) || Spelled(Bare(t), Bare(s)))
    ensures nvme ==> (Uri(s, nvme) == Uri(t, nvme) <==> Lower(s) == Lower(t))
  {
    hide Bare, Lower;
    var head := "purefa://" + if nvme then "/dev/mapper/eui." else "/dev/mapper/";
    var (a, b) := if nvme then (Lower(s), Lower(t)) else (ScsiWwid(s), ScsiWwid(t));
    assert Uri(s, nvme)[0] == head + a && Uri(t, nvme)[0] == head + b;
    assert (head + a)[|head|..] == a && (head + b)[|head|..] == b;
    if !nvme {
      WwidsTellSerialsApart(s, t);
    }
  }

  lemma VendoredTellApart(s: string, t: string)
    ensures Vendored(s) == Vendored(t) <==> s == t || Spelled(s, t) || Spelled(t, s)
  {
    assert (PURE_OUI + s)[..|OUI|] == OUI && (PURE_OUI + t)[..|OUI|] == OUI;
    assert (PURE_OUI + s)[|PURE_OUI|..] == s && (PURE_OUI + t)[|PURE_OUI|..] == t;
    hide StartsWith;
  }

  lemma WwidsTellSerialsApart(s: string, t: string)
    ensures ScsiWwid(s) == ScsiWwid(t) <==>
            || Bare(s) == Bare(t) || Spelled(Bare(s), Bare(t)) || Spelled(Bare(t), Bare(s))
  {
    VendoredTellApart(Bare(s), Bare(t));
    assert ScsiWwid(s)[1..] == Vendored(Bare(s)) && ScsiWwid(t)[1..] == Vendored(Bare(t));
    hide Bare, Vendored, Spelled;
  }

  // ------------------------------------------------------------ virtual disks ---

  function SnapToVdi(snap: Obj): Vdi {
    Vdi(snap.name, snap.name, snap.name, "snapshot", false, snap.provisioned, 0, [])
  }

  /** The key and the uuid under which a volume is presented. */
  function KeyOf(sr: string, name: string): string {
    if IsVgroupKey(name) then name else CutPrefix(name, Prefix(sr))
  }

  function UuidOf(sr: string, name: string): string {
    CutPrefix(if IsVgroupKey(name) then AfterFirstSlash(name) else name, Prefix(sr))
  }

  function VolToVdi(sr: string, vol: Obj, nvme: bool): Vdi {
    Vdi(KeyOf(sr, vol.name), UuidOf(sr, vol.name), vol.vdiName.GetOr(UuidOf(sr, vol.name)), vol.vdiDesc.GetOr(""),
        true, vol.provisioned, vol.provisioned, Uri(vol.serial, nvme))
  }

  function MemberName(sr: string, uuid: string): string {
    sr + "/" + Prefix(sr) + uuid
  }

  // ------------------------------------------------------------ the listing ---

  /** Live objects whose name starts with the prefix, in the array's order. */
  function Listed(objs: seq<Obj>, prefix: string): seq<Obj> {
    if objs == [] then []
    else
      var (rest, last) := (Listed(objs[..|objs| - 1], prefix), objs[|objs| - 1]);
      if !last.destroyed && StartsWith(last.name, prefix) then rest + [last] else rest
  }

  /** What of the array could be read: without the volume group, or with only some snapshots. */
  datatype Readable = Readable(members: bool, snapshots: bool, memberSnapshots: bool)

  function ListedVolumes(sr: string, volumes: seq<Obj>, can: Readable): seq<Obj> {
    Listed(volumes, Prefix(sr)) + if can.members then Listed(volumes, sr + "/") else []
  }

  function ListedSnapshots(sr: string, snapshots: seq<Obj>, can: Readable): seq<Obj> {
    if !can.snapshots then []
    else Listed(snapshots, Prefix(sr)) + if can.memberSnapshots then Listed(snapshots, sr + "/") else []
  }

  ghost predicate Presents(sr: string, vols: seq<Obj>, snaps: seq<Obj>, nvme: bool, out: seq<Vdi>) {
    && |out| == |vols| + |snaps|
    && (forall k :: 0 <= k < |vols| ==> out[k] == VolToVdi(sr, vols[k], nvme))
    && (forall k :: 0 <= k < |snaps| ==> out[|vols| + k] == SnapToVdi(snaps[k]))
  }

  /** One virtual disk for each listed volume, then for each listed snapshot. */
  method Ls(sr: string, volumes: seq<Obj>, snapshots: seq<Obj>, can: Readable, nvme: bool) returns (out: seq<Vdi>)
    ensures Presents(sr, ListedVolumes(sr, volumes, can), ListedSnapshots(sr, snapshots, can), nvme, out)
  {
    hide VolToVdi, SnapToVdi;
    out := [];
    var vols := ListedVolumes(sr, volumes, can);
    for k := 0 to |vols|
      invariant |out| == k && forall j :: 0 <= j < k ==> out[j] == VolToVdi(sr, vols[j], nvme)
    {
      out := out + [VolToVdi(sr, vols[k], nvme)];
    }
    var snaps := ListedSnapshots(sr, snapshots, can);
    for k := 0 to |snaps|
      invariant |out| == |vols| + k
      invariant forall j :: 0 <= j < |vols| ==> out[j] == VolToVdi(sr, vols[j], nvme)
      invariant forall j :: 0 <= j < k ==> out[|vols| + j] == SnapToVdi(snaps[j])
    {
      out := out + [SnapToVdi(snaps[k])];
    }
  }

  // ------------------------------------------------------------ keys lead back ---

  lemma {:induction false} NoSlashIsLastPart(s: string)
    requires '/' !in s
    ensures AfterLastSlash(s) == s
  {
    if s != [] {
      NoSlashIsLastPart(s[..|s| - 1]);
    }
  }

  lemma SlashPrefixHasASlash(sr: string, name: string)
    ensures StartsWith(name, sr + "/") ==> '/' in name
  {
    if StartsWith(name, sr + "/") {
      assert name[..|sr| + 1][|sr|] == '/';
    }
  }

  /** The key of a listed volume leads back to it unless it stands alone and has a dot. */
  lemma VolumeKeyLeadsBack(sr: string, vol: Obj, nvme: bool)
    requires StartsWith(vol.name, Prefix(sr)) || StartsWith(vol.name, sr + "/")
    ensures ObjName(sr, VolToVdi(sr, vol, nvme).key) == vol.name <==> '/' in vol.name || '.' !in vol.name[|sr| + 1..]
  {
    hide Uri;
    var name := vol.name;
    SlashPrefixHasASlash(sr, name);
    if '/' !in name {
      var rest := name[|sr| + 1..];
      assert name == Prefix(sr) + rest;
      NoSlashIsLastPart(rest);
    }
  }

  /** The key of a snapshot is its name; it leads back because snapshot names have a dot. */
  lemma SnapshotKeyLeadsBack(sr: string, snap: Obj)
    ensures ObjName(sr, SnapToVdi(snap).key) == snap.name <==> '.' in snap.name || '/' in snap.name
  {
    var name := snap.name;
    if '/' !in name {
      NoSlashIsLastPart(name);
      assert |Prefix(sr) + name| > |name|;
    }
  }

  predicate Distinct(objs: seq<Obj>) {
    forall i, j :: 0 <= i < j < |objs| ==> objs[i].name != objs[j].name
  }

  /** A listing has each live object with the prefix, once, and nothing else. */
  lemma {:induction false} ListedExactly(objs: seq<Obj>, prefix: string)
    requires Distinct(objs)
    ensures forall o :: o in Listed(objs, prefix) <==> o in objs && !o.destroyed && StartsWith(o.name, prefix)
    ensures Distinct(Listed(objs, prefix))
  {
    if objs != [] {
      var n := |objs| - 1;
      ListedExactly(objs[..n], prefix);
      assert objs == objs[..n] + [objs[n]];
      var rest := Listed(objs[..n], prefix);
      forall k | 0 <= k < |rest| ensures rest[k].name != objs[n].name {
        assert rest[k] in rest && rest[k] in objs[..n];
      }
    }
  }

  /** No object is listed under both prefixes. */
  lemma PrefixesAreDisjoint(sr: string, name: string)
    ensures !(StartsWith(name, Prefix(sr)) && StartsWith(name, sr + "/"))
  {
    if StartsWith(name, Prefix(sr)) {
      assert name[|sr|] == name[..|sr| + 1][|sr|] == Prefix(sr)[|sr|];
    }
    if StartsWith(name, sr + "/") {
      assert name[|sr|] == name[..|sr| + 1][|sr|] == (sr + "/")[|sr|];
    }
  }

  lemma BothPrefixesDistinct(sr: string, objs: seq<Obj>)
    requires Distinct(objs)
    ensures Distinct(Listed(objs, Prefix(sr)) + Listed(objs, sr + "/"))
  {
    var (a, b) := (Listed(objs, Prefix(sr)), Listed(objs, sr + "/"));
    ListedExactly(objs, Prefix(sr));
    ListedExactly(objs, sr + "/");
    hide Listed, StartsWith;
    forall i, j | 0 <= i < |a| && 0 <= j < |b| ensures a[i].name != b[j].name {
      assert a[i] in a && b[j] in b;
      PrefixesAreDisjoint(sr, a[i].name);
    }
  }

  /** Names the array gives: volumes of their own without a dot, snapshots with one. */
  predicate WellNamed(volumes: seq<Obj>, snapshots: seq<Obj>) {
    && Distinct(volumes) && Distinct(snapshots)
    && (forall o :: o in volumes ==> '.' !in o.name)
    && (forall o :: o in snapshots ==> '.' in o.name)
  }

  /** The live objects in the repository's namespace. */
  predicate Visible(sr: string, objs: seq<Obj>, o: Obj) {
    o in objs && !o.destroyed && (StartsWith(o.name, Prefix(sr)) || StartsWith(o.name, sr + "/"))
  }

  const EVERYTHING := Readable(true, true, true)

  /**
   * Every listed object is live and of the repository, and listed once; when everything can be
   * read, every such object is listed.
   */
  lemma ListsEveryObjectOnce(sr: string, volumes: seq<Obj>, snapshots: seq<Obj>, can: Readable)
    requires WellNamed(volumes, snapshots)
    ensures var (vols, snaps) := (ListedVolumes(sr, volumes, can), ListedSnapshots(sr, snapshots, can));
            && Distinct(vols) && Distinct(snaps)
            && (forall o :: o in vols ==> Visible(sr, volumes, o))
            && (forall o :: o in snaps ==> Visible(sr, snapshots, o))
            && (can == EVERYTHING ==>
                  && (forall o :: Visible(sr, volumes, o) ==> o in vols)
                  && (forall o :: Visible(sr, snapshots, o) ==> o in snaps))
  {
    hide StartsWith, Listed;
    BothPrefixesDistinct(sr, volumes);
    BothPrefixesDistinct(sr, snapshots);
    ListedExactly(volumes, Prefix(sr));
    ListedExactly(volumes, sr + "/");
    ListedExactly(snapshots, Prefix(sr));
    ListedExactly(snapshots, sr + "/");
  }

  lemma EachKeyLeadsBack(sr: string, vols: seq<Obj>, snaps: seq<Obj>, nvme: bool, out: seq<Vdi>)
    requires Presents(sr, vols, snaps, nvme, out)
    requires forall o :: o in vols ==>
               '.' !in o.name && (StartsWith(o.name, Prefix(sr)) || StartsWith(o.name, sr + "/"))
    requires forall o :: o in snaps ==> '.' in o.name
    ensures forall k :: 0 <= k < |out| ==> ObjName(sr, out[k].key) == (vols + snaps)[k].name
  {
    hide ObjName, VolToVdi, SnapToVdi, StartsWith;
    forall k | 0 <= k < |out| ensures ObjName(sr, out[k].key) == (vols + snaps)[k].name {
      var o := (vols + snaps)[k];
      if k < |vols| {
        assert o in vols;
        VolumeKeyLeadsBack(sr, o, nvme);
      } else {
        assert o in snaps && out[|vols| + (k - |vols|)] == SnapToVdi(o);
        SnapshotKeyLeadsBack(sr, o);
      }
    }
  }

  /**
   * Whatever could be read, every key leads back to the object it was listed for, so no two keys
   * are equal.
   */
  lemma KeysRoundTrip(
    sr: string, volumes: seq<Obj>, snapshots: seq<Obj>, can: Readable, nvme: bool, out: seq<Vdi>)
    requires WellNamed(volumes, snapshots)
    requires Presents(sr, ListedVolumes(sr, volumes, can), ListedSnapshots(sr, snapshots, can), nvme, out)
    ensures var objs := ListedVolumes(sr, volumes, can) + ListedSnapshots(sr, snapshots, can);
            && |out| == |objs|
            && (forall k :: 0 <= k < |out| ==> ObjName(sr, out[k].key) == objs[k].name)
    ensures forall i, j :: 0 <= i < j < |out| ==> out[i].key != out[j].key
  {
    ListsEveryObjectOnce(sr, volumes, snapshots, can);
    var (vols, snaps) := (ListedVolumes(sr, volumes, can), ListedSnapshots(sr, snapshots, can));
    hide ListedVolumes, ListedSnapshots, ObjName, StartsWith;
    EachKeyLeadsBack(sr, vols, snaps, nvme, out);
    hide Presents;
    forall i, j | 0 <= i < j < |out| ensures (vols + snaps)[i].name != (vols + snaps)[j].name {
      if i < |vols| <= j {
        assert vols[i] in vols && snaps[j - |vols|] in snaps;
      }
    }
  }

  /** A stand-alone volume with a dot in its name is listed under a key that means something else. */
  lemma DottedVolumeIsLost()
    ensures KeyOf("sr", "sr-a.b") == "a.b" && ObjName("sr", "a.b") == "a.b" != "sr-a.b"
  {
    assert "sr-a.b"[..3] == "sr-" && "sr-a.b"[3..] == "a.b";
    NoSlashIsLastPart("a.b");
    assert "a.b"[1] == '.';
  }

  lemma {:induction false} FirstSlashSplits(head: string, tail: string)
    requires '/' !in head
    ensures AfterFirstSlash(head + "/" + tail) == tail
  {
    var s := head + "/" + tail;
    assert s[|head|] == '/';
    if head != [] {
      assert s[0] == head[0] && s[1..] == head[1..] + "/" + tail;
      FirstSlashSplits(head[1..], tail);
    }
  }

  /** A new member volume is listed under its own name, with the uuid it was created for. */
  lemma MemberKeepsItsUuid(sr: string, uuid: string)
    requires '/' !in sr
    ensures UuidOf(sr, MemberName(sr, uuid)) == uuid
    ensures ObjName(sr, KeyOf(sr, MemberName(sr, uuid))) == MemberName(sr, uuid)
  {
    var tail := Prefix(sr) + uuid;
    assert MemberName(sr, uuid) == sr + "/" + tail;
    FirstSlashSplits(sr, tail);
    assert MemberName(sr, uuid)[|sr|] == '/';
    assert StartsWith(tail, Prefix(sr)) && tail[|Prefix(sr)|..] == uuid;
  }
}
