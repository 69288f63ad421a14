/** What holds between two steps of a migration, as long as it can still be rolled back. */
module Progress {
  import opened Wrappers
  import opened Spec
  import opened Volumes
  import opened Steps
  import opened Environment
  import opened Safety
  import opened Accounts

  /** The images on record are those of the captured disks that are live volumes. */
  ghost predicate Captures(w: World, spec: Option<VmSpec>) {
    match spec
    case None => w.images == map[]
    case Some(s) => BackingVolumes(s) <= w.owned && w.images.Keys == BackingVolumes(s) * w.site.vols.Keys
  }

  /** The rollback stack holds exactly the compensations that the log calls for. */
  ghost predicate Debt(w: World, ref: Option<Ref>, entries: seq<Entry<World>>) {
    Owing(TallyOf(w.log), ref, entries)
  }

  ghost predicate Owing(t: Tally, ref: Option<Ref>, entries: seq<Entry<World>>) {
    && t.starts == 0 && t.deletes == 0 && t.stops <= 1 && t.creates <= 1
    && (t.creates == 1 ==> ref.Some?)
    && entries == Owed(t.creates == 1, if ref.Some? then ref.value else "", t.stops == 1)
  }

  lemma NothingIsOwing(ref: Option<Ref>, entries: seq<Entry<World>>)
    ensures Owing(NOTHING, ref, entries) <==> entries == []
  {}

  lemma CreationIsOwing(was: Option<Ref>, ref: Ref, entries: seq<Entry<World>>)
    requires Owing(NOTHING, was, entries)
    ensures Owing(NOTHING.(creates := 1), Some(ref), entries + [TeardownEntry(ref)])
    ensures forall r :: Owing(NOTHING, r, entries)
  {}

  lemma StopIsOwing(t: Tally, ref: Option<Ref>, entries: seq<Entry<World>>)
    requires Owing(t, ref, entries) && t.stops == 0
    ensures Owing(t.(stops := 1), ref, entries + [RestartEntry()])
  {}

  /** The run can still be rolled back: the source is alone, and all debts are on the stack. */
  ghost predicate Going(start: World, w: World, spec: Option<VmSpec>, ref: Option<Ref>,
                        entries: seq<Entry<World>>, dry: bool) {
    && start.log == [] && TallyOf(start.log) == NOTHING
    && Safe(w) && Alone(start, w)
    && Captures(w, spec)
    && Debt(w, ref, entries)
    && (dry ==> Unfelt(start, w))
  }

  /** A call that leaves the source alone goes on, with what is owed after it. */
  lemma CallOwes(start: World, w: World, x: World, spec: Option<VmSpec>, was: Option<Ref>, entries: seq<Entry<World>>,
                 ref: Option<Ref>, owed: seq<Entry<World>>)
    requires Going(start, w, spec, was, entries, false)
    requires Safe(x) && Alone(w, x) && x.images == w.images && Owing(TallyOf(x.log), ref, owed)
    ensures Going(start, x, spec, ref, owed, false)
  {
    hide Safe, Alone, Captures, Owing, TallyOf, Unfelt;
    AloneTransitive(start, w, x);
    CapturesSurvives(w, x, spec);
  }

  lemma GoingOwes(start: World, w: World, spec: Option<VmSpec>, ref: Option<Ref>, entries: seq<Entry<World>>, dry: bool)
    requires Going(start, w, spec, ref, entries, dry)
    ensures Safe(w) && Alone(start, w) && Owing(TallyOf(w.log), ref, entries)
  {
    hide Safe, Alone, Captures, Owing, TallyOf, Unfelt;
  }

  lemma CallGoes(start: World, w: World, x: World, spec: Option<VmSpec>, ref: Option<Ref>,
                 entries: seq<Entry<World>>)
    requires Going(start, w, spec, ref, entries, false)
    requires Safe(x) && Alone(w, x) && x.images == w.images && TallyOf(x.log) == TallyOf(w.log)
    ensures Going(start, x, spec, ref, entries, false)
  {
    hide Going, Safe, Alone, Owing, TallyOf;
    GoingOwes(start, w, spec, ref, entries, false);
    CallOwes(start, w, x, spec, ref, entries, ref, entries);
  }

  lemma CapturesSurvives(w: World, x: World, spec: Option<VmSpec>)
    requires Captures(w, spec) && Alone(w, x) && x.images == w.images
    ensures Captures(x, spec)
  {}

  lemma GoingIsSafe(start: World, w: World, spec: Option<VmSpec>, ref: Option<Ref>,
                    entries: seq<Entry<World>>, dry: bool)
    requires Going(start, w, spec, ref, entries, dry)
    ensures Safe(w) && Alone(start, w)
  {}

  lemma ReadGoes(start: World, w: World, spec: Option<VmSpec>, ref: Option<Ref>,
                 entries: seq<Entry<World>>, dry: bool, r: Ref)
    requires Going(start, w, spec, ref, entries, dry)
    ensures Going(start, Tick(w), spec, ref, entries, dry) && Gentle(w, Tick(w), r)
  {
    TickIsSafe(w, r);
    CallGoes(start, w, Tick(w), spec, ref, entries);
    if dry {
      ReadingIsUnfelt(start, w);
    }
  }

  lemma OwnsItsVolumes(start: World, w: World, spec: VmSpec, ref: Option<Ref>,
                       entries: seq<Entry<World>>, dry: bool, k: nat)
    requires Going(start, w, Some(spec), ref, entries, dry) && k < |spec.disks|
    ensures VolumeOf(spec.disks[k]) in w.owned
  {}

  lemma CaptureGoes(start: World, w: World, ref: Option<Ref>, entries: seq<Entry<World>>, dry: bool)
    requires Going(start, w, None, ref, entries, dry)
    ensures var (x, spec) := CaptureVmSpec(w); Going(start, x, spec, ref, entries, dry)
  {
    hide Going, Gentle, Drift;
    ReadGoes(start, w, None, ref, entries, dry, "");
    var (x, spec) := CaptureVmSpec(w);
    if spec.Some? {
      CapturedGoes(start, Tick(w), x, spec.value, ref, entries, dry);
    }
  }

  lemma CapturedGoes(start: World, t: World, x: World, spec: VmSpec, ref: Option<Ref>,
                     entries: seq<Entry<World>>, dry: bool)
    requires Going(start, t, None, ref, entries, dry) && BackingVolumes(spec) <= t.owned
    requires x == t.(images := x.images, trail := [t.site])
    requires x.images.Keys == BackingVolumes(spec) * t.site.vols.Keys
    requires forall v :: v in x.images ==> x.images[v] == t.site.vols[v].content
    ensures Going(start, x, Some(spec), ref, entries, dry)
  {
    hide Safe, Alone;
    CapturedIsSafe(t, x);
    SameSiteIsAlone(start, t, x);
  }

  lemma CapturedIsSafe(t: World, x: World)
    requires Safe(t)
    requires x == t.(images := x.images, trail := [t.site]) && x.images.Keys <= t.owned * t.site.vols.Keys
    requires forall v :: v in x.images ==> x.images[v] == t.site.vols[v].content
    ensures Safe(x)
  {}

  lemma SameSiteIsAlone(start: World, t: World, x: World)
    requires Alone(start, t) && x == t.(images := x.images, trail := x.trail)
    ensures Alone(start, x)
  {}

  /** Serial and size default to what the array reports. */
  function Filled(disk: DiskSpec, vol: Volume): (r: DiskSpec)
    ensures r == disk.(identity := r.identity) && VolumeOf(r) == VolumeOf(disk)
  {
    var id := disk.identity;
    disk.(identity := id.(
      serial := if id.serial.Some? then id.serial else vol.serial,
      sizeBytes := if id.sizeBytes.Some? && id.sizeBytes.value != 0 then id.sizeBytes else vol.size))
  }

  function WithFilled(spec: VmSpec, k: nat, vol: Volume): VmSpec
    requires k < |spec.disks|
  {
    spec.(disks := spec.disks[k := Filled(spec.disks[k], vol)])
  }

  /** Filling in the serial and size of a disk changes nothing else. */
  lemma FillGoes(start: World, w: World, spec: VmSpec, k: nat, vol: Volume, ref: Option<Ref>,
                 entries: seq<Entry<World>>, dry: bool)
    requires k < |spec.disks| && Going(start, w, Some(spec), ref, entries, dry)
    ensures var filled := WithFilled(spec, k, vol);
            && Going(start, w, Some(filled), ref, entries, dry)
            && filled == spec.(disks := filled.disks) && SameDisks(spec.disks, filled.disks)
            && VolumeOf(filled.disks[k]) == VolumeOf(spec.disks[k])
  {
    SameVolumes(spec, WithFilled(spec, k, vol));
  }

  lemma RenameGoes(start: World, w: World, spec: VmSpec, name: string, ref: Option<Ref>,
                   entries: seq<Entry<World>>, dry: bool)
    requires Going(start, w, Some(spec), ref, entries, dry)
    ensures Going(start, w, Some(spec.(name := name)), ref, entries, dry)
  {}

  /** As long as nothing is owed, the reference of the destination VM may be settled. */
  lemma RefGoes(start: World, w: World, spec: Option<VmSpec>, was: Option<Ref>, ref: Option<Ref>,
                entries: seq<Entry<World>>, dry: bool)
    requires Going(start, w, spec, was, entries, dry) && TallyOf(w.log).creates == 0
    ensures Going(start, w, spec, ref, entries, dry)
  {}

  lemma SameVolumes(a: VmSpec, b: VmSpec)
    requires |a.disks| == |b.disks|
    requires forall k :: 0 <= k < |a.disks| ==> VolumeOf(a.disks[k]) == VolumeOf(b.disks[k])
    ensures BackingVolumes(a) == BackingVolumes(b)
  {}

  lemma CreateIsLogged(w: World)
    ensures var (x, reply, ref) := CreateDestVm(w);
            x.log == w.log + [CreateVm(reply, ref)] && x.images == w.images
  {}

  lemma StopIsLogged(w: World)
    ensures var (x, reply) := StopSourceVm(w);
            x.log == w.log + [StopSource(reply)] && x.images == w.images
  {}

  lemma CopyIsLogged(w: World, source: string, dest: string)
    ensures var (x, reply) := CopyVolume(w, source, dest);
            x.log == w.log + [CopyData(source, dest, reply)] && x.images == w.images
  {
    hide Copy;
  }

  lemma StartIsLogged(w: World, ref: Ref)
    ensures var (x, reply) := StartDestVm(w, ref);
            x.log == w.log + [StartVm(ref, reply)] && x.images == w.images
  {}

  lemma DiskIsLogged(w: World, ref: Ref)
    ensures var x := CreateManagedDisk(w, ref).0;
            && |x.log| == |w.log| + 1 && x.log == w.log + [x.log[|w.log|]]
            && x.log[|w.log|].CreateDisk? && x.images == w.images
  {}

  /** `create_vm` was called: if it returned a reference, the VM must be torn down on failure. */
  lemma CreateGoes(start: World, w: World, spec: Option<VmSpec>, was: Option<Ref>, entries: seq<Entry<World>>)
    requires Going(start, w, spec, was, entries, false)
    requires TallyOf(w.log) == NOTHING
    ensures var (x, reply, ref) := CreateDestVm(w);
            && (reply == Returned(true) && ref != "" ==>
                  && Going(start, x, spec, Some(ref), entries + [TeardownEntry(ref)], false)
                  && TallyOf(x.log) == NOTHING.(creates := 1)
                  && ref in x.site.dest && !x.site.dest[ref].running)
            && (reply == Returned(true) && ref == "" ==> Going(start, x, spec, Some(ref), entries, false))
            && (reply != Returned(true) ==> Going(start, x, spec, was, entries, false))
  {
    hide Going, Safe, Alone, CreateDestVm, Owing, TeardownEntry, TallyOf;
    GoingOwes(start, w, spec, was, entries, false);
    CreateIsLogged(w);
    CreateVmIsSafe(w);
    var (x, reply, ref) := CreateDestVm(w);
    CreationIsOwing(was, ref, entries);
    TallySnoc(w.log, CreateVm(reply, ref));
    if reply == Returned(true) && ref != "" {
      CallOwes(start, w, x, spec, was, entries, Some(ref), entries + [TeardownEntry(ref)]);
    } else {
      CallOwes(start, w, x, spec, was, entries, was, entries);
      CallOwes(start, w, x, spec, was, entries, Some(ref), entries);
    }
  }

  lemma CreationStopsNothing(w: World)
    ensures TallyOf(CreateDestVm(w).0.log).stops == TallyOf(w.log).stops
  {
    CreateIsLogged(w);
    hide CreateDestVm, TallyOf;
    var (x, reply, ref) := CreateDestVm(w);
    TallySnoc(w.log, CreateVm(reply, ref));
  }

  lemma CreateIsAlone(start: World, w: World, spec: Option<VmSpec>, was: Option<Ref>, entries: seq<Entry<World>>)
    requires Going(start, w, spec, was, entries, false)
    ensures Alone(w, CreateDestVm(w).0)
  {
    CreateVmIsSafe(w);
  }

  /** `stop_vm` of the source: if it reported success, the source must be restarted on failure. */
  lemma StopGoes(start: World, w: World, spec: Option<VmSpec>, ref: Option<Ref>, entries: seq<Entry<World>>, r: Ref)
    requires Going(start, w, spec, ref, entries, false)
    requires TallyOf(w.log).stops == 0
    ensures var (x, reply) := StopSourceVm(w);
            && Gentle(w, x, r)
            && TallyOf(x.log).creates == TallyOf(w.log).creates
            && Going(start, x, spec, ref,
                     if reply == Returned(true) then entries + [RestartEntry()] else entries, false)
  {
    hide Going, Safe, Alone, Calm, StopSourceVm, Owing, RestartEntry, TallyOf;
    GoingOwes(start, w, spec, ref, entries, false);
    StopIsLogged(w);
    StopSourceIsSafe(w, r);
    StopIsOwing(TallyOf(w.log), ref, entries);
    var (x, reply) := StopSourceVm(w);
    TallySnoc(w.log, StopSource(reply));
    CallOwes(start, w, x, spec, ref, entries, ref,
             if reply == Returned(true) then entries + [RestartEntry()] else entries);
  }

  lemma CreateDiskGoes(start: World, w: World, spec: Option<VmSpec>, ref: Ref, entries: seq<Entry<World>>)
    requires Going(start, w, spec, Some(ref), entries, false)
    ensures var x := CreateManagedDisk(w, ref).0;
            Going(start, x, spec, Some(ref), entries, false) && TallyOf(x.log) == TallyOf(w.log)
  {
    hide Going, Safe, Alone, Calm, CreateManagedDisk, TallyOf;
    GoingOwes(start, w, spec, Some(ref), entries, false);
    DiskIsLogged(w, ref);
    CreateDiskIsSafe(w, ref);
    var x := CreateManagedDisk(w, ref).0;
    TallySnoc(w.log, x.log[|w.log|]);
    CallGoes(start, w, x, spec, Some(ref), entries);
  }

  lemma CopyGoes(start: World, w: World, spec: Option<VmSpec>, ref: Ref, entries: seq<Entry<World>>,
                 source: string, dest: string)
    requires Going(start, w, spec, Some(ref), entries, false)
    requires ref in w.site.dest && dest in w.site.dest[ref].disks
    ensures var x := CopyVolume(w, source, dest).0;
            Going(start, x, spec, Some(ref), entries, false) && TallyOf(x.log) == TallyOf(w.log)
  {
    hide Going, Safe, Alone, Calm, CopyVolume, TallyOf;
    GoingOwes(start, w, spec, Some(ref), entries, false);
    CopyIsLogged(w, source, dest);
    CopyIsSafe(w, source, dest, ref);
    var (x, reply) := CopyVolume(w, source, dest);
    TallySnoc(w.log, CopyData(source, dest, reply));
    CallGoes(start, w, x, spec, Some(ref), entries);
  }

  lemma StartGoes(start: World, w: World, spec: Option<VmSpec>, ref: Ref, entries: seq<Entry<World>>)
    requires Going(start, w, spec, Some(ref), entries, false)
    ensures var x := StartDestVm(w, ref).0;
            && Going(start, x, spec, Some(ref), entries, false) && Keeps(w, x, ref, {})
            && TallyOf(x.log) == TallyOf(w.log)
  {
    hide Going, Safe, Alone, Keeps, StartDestVm, TallyOf;
    GoingOwes(start, w, spec, Some(ref), entries, false);
    StartIsLogged(w, ref);
    StartVmIsSafe(w, ref);
    var (x, reply) := StartDestVm(w, ref);
    TallySnoc(w.log, StartVm(ref, reply));
    CallGoes(start, w, x, spec, Some(ref), entries);
  }

  // --------------------------------------------------------- copies in progress ---

  /** The volumes of the disks, in order. */
  function VolumesOf(disks: seq<DiskSpec>): (names: seq<string>)
    ensures |names| == |disks|
    ensures forall k :: 0 <= k < |disks| ==> names[k] == VolumeOf(disks[k])
  {
    seq(|disks|, k requires 0 <= k < |disks| => VolumeOf(disks[k]))
  }

  /** Each destination disk holds what its source disk held at the instant the source halted. */
  ghost predicate Mirrored(w: World, ref: Ref, from: seq<string>, to: seq<string>) {
    && |from| == |to| && ref in w.site.dest
    && forall k :: 0 <= k < |to| ==>
         && from[k] in w.halted && to[k] in w.site.dest[ref].disks && to[k] in w.site.vols
         && w.site.vols[to[k]].content == w.halted[from[k]].content
  }

  /** The same, but for what the destination's own guest has written since. */
  ghost predicate Descended(w: World, ref: Ref, from: seq<string>, to: seq<string>) {
    && |from| == |to| && ref in w.site.dest
    && forall k :: 0 <= k < |to| ==>
         && from[k] in w.halted && to[k] in w.site.dest[ref].disks && to[k] in w.site.vols
         && w.halted[from[k]].content <= w.site.vols[to[k]].content
  }

  lemma MirroredSurvives(w: World, x: World, ref: Ref, from: seq<string>, to: seq<string>, but: set<string>)
    requires Mirrored(w, ref, from, to) && Calm(w, x, ref, but)
    requires !SourceRuns(w.site) && !w.site.dest[ref].running
    requires forall k :: 0 <= k < |to| ==> to[k] !in but
    ensures Mirrored(x, ref, from, to) && !x.site.dest[ref].running
  {}

  lemma DescendedSurvives(w: World, x: World, ref: Ref, from: seq<string>, to: seq<string>)
    requires Descended(w, ref, from, to) && Keeps(w, x, ref, {}) && !SourceRuns(w.site)
    ensures Descended(x, ref, from, to)
  {}

  /** Each disk still has the serial it was created with. */
  ghost predicate Identified(w: World, ref: Ref, to: seq<string>) {
    forall k :: 0 <= k < |to| ==>
      && to[k] in w.site.vols && w.site.vols[to[k]].serial.Some?
      && CreateDisk(ref, Some(to[k]), w.site.vols[to[k]].serial) in w.log
  }

  /** Each copy from `from` to `to` returned before entry `end` of the log. */
  ghost predicate CopiesLogged(log: seq<Event>, end: nat, from: seq<string>, to: seq<string>)
    requires end <= |log|
  {
    |from| == |to| && forall k :: 0 <= k < |from| ==> CopyLogged(log, end, from[k], to[k])
  }

  ghost predicate CopyLogged(log: seq<Event>, end: nat, source: string, dest: string)
    requires end <= |log|
  {
    exists c, ok :: 0 <= c < end && log[c] == CopyData(source, dest, Returned(ok))
  }

  lemma CopiesStayLogged(log: seq<Event>, end: nat, longer: seq<Event>, end': nat,
                         from: seq<string>, to: seq<string>)
    requires log <= longer && end <= |log| && end <= end' <= |longer|
    requires CopiesLogged(log, end, from, to)
    ensures CopiesLogged(longer, end', from, to)
  {}

  lemma IdentifiedSurvives(w: World, x: World, ref: Ref, to: seq<string>, but: set<string>)
    requires Identified(w, ref, to) && Keeps(w, x, ref, but) && w.log <= x.log
    requires ref in w.site.dest
    requires forall k :: 0 <= k < |to| ==> to[k] !in but && to[k] in w.site.dest[ref].disks
    ensures Identified(x, ref, to)
  {}

  /** The source is off, and what it was when it went off is on the destination, also off. */
  ghost predicate Frozen(w: World, ref: Ref, from: seq<string>, to: seq<string>) {
    && w.site.source.Some? && !SourceRuns(w.site)
    && Mirrored(w, ref, from, to) && !w.site.dest[ref].running
  }

  /** The disks made so far are copies of the source disks, on volumes of the destination VM. */
  ghost predicate Built(w: World, ref: Ref, from: seq<string>, to: seq<string>, frozen: bool) {
    && Carried(w.site, ref, w.images, from, to)
    && CopiesLogged(w.log, |w.log|, from, to)
    && Identified(w, ref, to)
    && (frozen ==> Frozen(w, ref, from, to))
  }

  lemma BuiltSurvives(w: World, x: World, ref: Ref, from: seq<string>, to: seq<string>, frozen: bool,
                      but: set<string>)
    requires Built(w, ref, from, to, frozen) && Calm(w, x, ref, but) && w.log <= x.log
    requires x.site.source.Some? == w.site.source.Some?
    requires forall k :: 0 <= k < |to| ==> to[k] !in but
    ensures Built(x, ref, from, to, frozen)
  {}

  lemma NothingBuilt(w: World, ref: Ref, frozen: bool)
    requires ref in w.site.dest ==>
               frozen ==> w.site.source.Some? && !SourceRuns(w.site) && !w.site.dest[ref].running
    ensures ref in w.site.dest ==> Built(w, ref, [], [], frozen)
  {}

  lemma BuiltWeaker(w: World, ref: Ref, from: seq<string>, to: seq<string>, frozen: bool, wanted: bool)
    requires Built(w, ref, from, to, frozen) && (wanted ==> frozen)
    ensures Built(w, ref, from, to, wanted)
  {}

  lemma BuiltGently(w: World, x: World, ref: Ref, from: seq<string>, to: seq<string>, frozen: bool, on: bool)
    requires Built(w, ref, from, to, frozen) && Gentle(w, x, ref)
    ensures Delivered(x, ref, from, to, frozen, on)
  {
    BuiltSurvives(w, x, ref, from, to, frozen, {});
    BuiltIsDelivered(x, ref, from, to, frozen, on);
  }

  /** A new managed disk, not among the ones already built. */
  ghost predicate DiskReady(w: World, ref: Ref, dest: string, to: seq<string>) {
    && ref in w.site.dest && dest in w.site.dest[ref].disks
    && dest in w.site.vols && w.site.vols[dest].serial.Some?
    && CreateDisk(ref, Some(dest), w.site.vols[dest].serial) in w.log
    && dest !in to
  }

  lemma DiskCreated(w: World, ref: Ref, from: seq<string>, to: seq<string>, frozen: bool)
    requires Safe(w) && Built(w, ref, from, to, frozen)
    ensures var (x, made) := CreateManagedDisk(w, ref);
            && Safe(x) && Alone(w, x)
            && (made.Some? ==> Built(x, ref, from, to, frozen) && DiskReady(x, ref, made.value, to))
  {
    hide Safe, Calm;
    CreateDiskIsSafe(w, ref);
    var (x, made) := CreateManagedDisk(w, ref);
    if made.Some? {
      BuiltSurvives(w, x, ref, from, to, frozen, {});
      assert x.log[|w.log|] == CreateDisk(ref, made, x.site.vols[made.value].serial);
    }
  }

  /** A disk onto which its source was just copied joins the disks built so far. */
  lemma DiskJoins(w: World, ref: Ref, from: seq<string>, to: seq<string>, frozen: bool, source: string, dest: string)
    requires Safe(w) && Built(w, ref, from, to, frozen) && DiskReady(w, ref, dest, to)
    requires CopyLogged(w.log, |w.log|, source, dest)
    requires source in w.site.vols ==> w.site.vols[dest].content == w.site.vols[source].content
    requires frozen ==> source in w.owned && source in w.site.vols
    ensures Built(w, ref, from + [source], to + [dest], frozen)
  {
    forall k | 0 <= k < |from| + 1 ensures CopyLogged(w.log, |w.log|, (from + [source])[k], (to + [dest])[k]) {
      if k < |from| {
        assert CopyLogged(w.log, |w.log|, from[k], to[k]);
      }
    }
  }

  lemma DiskCopied(w: World, ref: Ref, from: seq<string>, to: seq<string>, frozen: bool, source: string, dest: string)
    requires Safe(w) && Built(w, ref, from, to, frozen) && DiskReady(w, ref, dest, to)
    requires frozen ==> source in w.owned && source in w.site.vols
    ensures var (x, reply) := CopyVolume(w, source, dest);
            && Safe(x) && Alone(w, x)
            && (reply.Returned? ==> Built(x, ref, from + [source], to + [dest], frozen))
  {
    CopyIsSafe(w, source, dest, ref);
    var (x, reply) := CopyVolume(w, source, dest);
    if reply.Returned? {
      assert Safe(x);
      CopyStaysReady(w, source, dest, ref, to);
      BuiltSurvives(w, x, ref, from, to, frozen, {dest});
      assert x.log[|w.log|] == CopyData(source, dest, Returned(reply.success));
      assert CopyLogged(x.log, |x.log|, source, dest);
      DiskJoins(x, ref, from, to, frozen, source, dest);
    }
  }

  lemma CopyStaysReady(w: World, source: string, dest: string, ref: Ref, to: seq<string>)
    requires Safe(w) && DiskReady(w, ref, dest, to) && CopyVolume(w, source, dest).1.Returned?
    ensures var x := CopyVolume(w, source, dest).0;
            && DiskReady(x, ref, dest, to)
            && (source in x.site.vols ==> x.site.vols[dest].content == x.site.vols[source].content)
  {
    CopyMovesData(w, source, dest);
  }

  // ------------------------------------------------------------------ delivery ---

  /**
   * The destination has what was to be copied. If the source was quiesced (`frozen`), that is
   * what it held when it stopped, exactly so unless the destination was powered on (`on`).
   */
  ghost predicate Delivered(w: World, ref: Ref, from: seq<string>, to: seq<string>, frozen: bool, on: bool) {
    && Carried(w.site, ref, w.images, from, to)
    && CopiesLogged(w.log, |w.log|, from, to)
    && Identified(w, ref, to)
    && (frozen ==>
          && !SourceRuns(w.site)
          && Descended(w, ref, from, to)
          && (!on ==> Mirrored(w, ref, from, to) && !w.site.dest[ref].running))
  }

  lemma BuiltIsDelivered(w: World, ref: Ref, from: seq<string>, to: seq<string>, frozen: bool, on: bool)
    requires Built(w, ref, from, to, frozen)
    ensures Delivered(w, ref, from, to, frozen, on)
  {}

  lemma DeliveredSurvives(w: World, x: World, ref: Ref, from: seq<string>, to: seq<string>, frozen: bool, on: bool)
    requires Delivered(w, ref, from, to, frozen, on) && Keeps(w, x, ref, {}) && w.log <= x.log
    requires !on ==> Calm(w, x, ref, {})
    ensures Delivered(x, ref, from, to, frozen, on)
  {
    CarriedSurvives(w.site, x.site, ref, w.images, from, to);
    CopiesStayLogged(w.log, |w.log|, x.log, |x.log|, from, to);
    IdentifiedSurvives(w, x, ref, to, {});
    if frozen {
      DescendedSurvives(w, x, ref, from, to);
      if !on {
        MirroredSurvives(w, x, ref, from, to, {});
      }
    }
  }

  /** With everything delivered the source may go. */
  lemma DeliveredTakesOver(start: World, w: World, spec: VmSpec, own: Option<Ref>, entries: seq<Entry<World>>,
                           ref: Ref, to: seq<string>, frozen: bool, on: bool)
    requires Going(start, w, Some(spec), own, entries, false)
    requires Delivered(w, ref, VolumesOf(spec.disks), to, frozen, on)
    ensures TakenOver(w, ref, VolumesOf(spec.disks), to)
    ensures forall k :: 0 <= k < |spec.disks| ==> VolumeOf(spec.disks[k]) in w.owned
  {}

  /** The images on record are of the captured volumes that were live when the run began. */
  lemma CapturedAtStart(start: World, w: World, spec: VmSpec, ref: Option<Ref>, entries: seq<Entry<World>>, dry: bool)
    requires Going(start, w, Some(spec), ref, entries, dry)
    ensures w.images.Keys == BackingVolumes(spec) * start.site.vols.Keys
  {}

  // ---------------------------------------------------------------- commit point ---

  /** A volume is deleted only after all copies and a successful removal of the source VM. */
  ghost predicate DeletesLast(log: seq<Event>, from: seq<string>, to: seq<string>) {
    forall p :: 0 <= p < |log| && log[p].DeleteVolume? ==>
      && CopiesLogged(log, p, from, to)
      && exists q :: 0 <= q < p && log[q] == DeleteSource(Returned(true))
  }

  /** The log of a run without any deletion of a volume. */
  ghost predicate NothingDeleted(log: seq<Event>) {
    forall p :: 0 <= p < |log| ==> !log[p].DeleteVolume?
  }

  lemma GoingDeletesNothing(start: World, w: World, spec: Option<VmSpec>, ref: Option<Ref>,
                            entries: seq<Entry<World>>, dry: bool)
    requires Going(start, w, spec, ref, entries, dry)
    ensures NothingDeleted(w.log)
  {}

  lemma DeletionsComeLast(before: seq<Event>, log: seq<Event>, from: seq<string>, to: seq<string>)
    requires NothingDeleted(before) && CopiesLogged(before, |before|, from, to)
    requires before + [DeleteSource(Returned(true))] <= log
    ensures DeletesLast(log, from, to)
  {
    forall p | 0 <= p < |log| && log[p].DeleteVolume?
      ensures CopiesLogged(log, p, from, to) && exists q :: 0 <= q < p && log[q] == DeleteSource(Returned(true))
    {
      assert p > |before| by {
        assert (before + [DeleteSource(Returned(true))])[..|before|] == before;
        assert forall i :: 0 <= i < |before| ==> log[i] == before[i];
        assert log[|before|] == DeleteSource(Returned(true));
      }
      CopiesStayLogged(before, |before|, log, p, from, to);
      assert log[|before|] == DeleteSource(Returned(true));
    }
  }

  lemma StillNothingDeleted(before: seq<Event>, e: Event, from: seq<string>, to: seq<string>)
    requires NothingDeleted(before) && !e.DeleteVolume?
    ensures DeletesLast(before + [e], from, to)
  {}

  lemma DeliveredLogsCopies(w: World, ref: Ref, from: seq<string>, to: seq<string>, frozen: bool, on: bool)
    requires Delivered(w, ref, from, to, frozen, on)
    ensures CopiesLogged(w.log, |w.log|, from, to)
  {}

  /** What holds from the commit point on, whatever the cleanup of the source runs into. */
  ghost predicate Committed(w: World, ref: Ref, from: seq<string>, to: seq<string>, frozen: bool, on: bool) {
    TakenOver(w, ref, from, to) && Delivered(w, ref, from, to, frozen, on)
  }

  lemma TickStaysCommitted(w: World, ref: Ref, from: seq<string>, to: seq<string>, frozen: bool, on: bool)
    requires Committed(w, ref, from, to, frozen, on)
    ensures Committed(Tick(w), ref, from, to, frozen, on)
  {
    TickKeepsOver(w, ref, from, to);
    DeliveredSurvives(w, Tick(w), ref, from, to, frozen, on);
  }

  lemma DeleteSourceStaysCommitted(w: World, ref: Ref, from: seq<string>, to: seq<string>, frozen: bool, on: bool)
    requires Committed(w, ref, from, to, frozen, on)
    ensures var x := DeleteSourceVm(w).0;
            Committed(x, ref, from, to, frozen, on) && TallyOf(x.log) == TallyOf(w.log)
            && x.images == w.images && x.owned == w.owned
  {
    var (x, reply) := DeleteSourceVm(w);
    DeleteSourceKeepsOver(w, ref, from, to);
    DeliveredSurvives(w, x, ref, from, to, frozen, on);
    TallySnoc(w.log, DeleteSource(reply));
  }

  lemma DisconnectStaysCommitted(w: World, group: string, v: string,
                                 ref: Ref, from: seq<string>, to: seq<string>, frozen: bool, on: bool)
    requires Committed(w, ref, from, to, frozen, on)
    ensures var x := DisconnectVolume(w, group, v).0;
            && Committed(x, ref, from, to, frozen, on)
            && TallyOf(x.log) == TallyOf(w.log) && x.images == w.images && x.owned == w.owned
  {
    var (x, reply) := DisconnectVolume(w, group, v);
    DisconnectKeepsOver(w, group, v, ref, from, to);
    DeliveredSurvives(w, x, ref, from, to, frozen, on);
    TallySnoc(w.log, Disconnect(group, v, reply));
  }

  lemma EradicateStaysCommitted(w: World, v: string,
                                ref: Ref, from: seq<string>, to: seq<string>, frozen: bool, on: bool)
    requires Committed(w, ref, from, to, frozen, on) && v in w.owned
    ensures var x := EradicateVolume(w, v).0;
            && Committed(x, ref, from, to, frozen, on)
            && TallyOf(x.log) == TallyOf(w.log) && x.images == w.images && x.owned == w.owned
  {
    var (x, reply) := EradicateVolume(w, v);
    EradicateKeepsOver(w, v, ref, from, to);
    DeliveredSurvives(w, x, ref, from, to, frozen, on);
    TallySnoc(w.log, DeleteVolume(v, reply));
  }

  lemma DeliveredIsCommitted(start: World, w: World, spec: VmSpec, own: Option<Ref>, entries: seq<Entry<World>>,
                             ref: Ref, to: seq<string>, frozen: bool, on: bool)
    requires Going(start, w, Some(spec), own, entries, false)
    requires Delivered(w, ref, VolumesOf(spec.disks), to, frozen, on)
    ensures Committed(w, ref, VolumesOf(spec.disks), to, frozen, on)
    ensures DeletesLast(w.log, VolumesOf(spec.disks), to)
  {
    hide Delivered;
    DeliveredTakesOver(start, w, spec, own, entries, ref, to, frozen, on);
    GoingDeletesNothing(start, w, Some(spec), own, entries, false);
  }

  /** As long as a run can be rolled back nothing has been undone, and a dry run owes nothing. */
  lemma OwesNoUndoing(start: World, w: World, spec: Option<VmSpec>, ref: Option<Ref>,
                      entries: seq<Entry<World>>, dry: bool)
    requires Going(start, w, spec, ref, entries, dry)
    ensures TallyOf(w.log).starts == 0 && TallyOf(w.log).deletes == 0
    ensures dry ==> entries == []
  {}

  /**
   * Rolling back from `w` to `x` left the source alone; it started the source exactly as often
   * as the run had stopped it, and deleted exactly the VM the run had created.
   */
  ghost predicate RolledBack(start: World, w: World, x: World, ref: Ref, dry: bool) {
    && Safe(x) && Alone(start, x) && x.images == w.images
    && (dry ==> Unfelt(start, x))
    && (var before, after := TallyOf(w.log), TallyOf(x.log);
        after == Tally(before.stops, before.stops, before.creates, before.creates))
    && Deletes(w.log, x.log, ref)
  }

  lemma RollingBack(start: World, w: World, spec: Option<VmSpec>, own: Option<Ref>,
                    entries: seq<Entry<World>>, dry: bool)
    requires Going(start, w, spec, own, entries, dry)
    ensures RolledBack(start, w, UnwindAll(entries, w).world, if own.Some? then own.value else "", dry)
  {
    hide Safe, Alone, Captures, TallyOf;
    var t := TallyOf(w.log);
    var created, stopped := t.creates == 1, t.stops == 1;
    var ref := if own.Some? then own.value else "";
    UnwindingIsPaying(w, created, ref, stopped);
    PayingIsSafe(w, created, ref, stopped);
    PayingCounts(w, created, ref, stopped);
    PayingKeepsImages(w, created, ref, stopped);
    AloneTransitive(start, w, PayDebt(w, created, ref, stopped));
    NoTallyInEmptyLog(start);
  }

  lemma NoTallyInEmptyLog(w: World)
    ensures w.log == [] ==> TallyOf(w.log) == NOTHING
  {}

  lemma PayingKeepsImages(w: World, created: bool, ref: Ref, stopped: bool)
    ensures PayDebt(w, created, ref, stopped).images == w.images
  {
    var w1 := if stopped then RestartSource(w).world else w;
    assert w1.images == w.images;
    assert TeardownDest(w1, ref).world.images == w1.images;
    hide RestartSource, TeardownDest;
  }

  /**
   * The log of a run that was rolled back: every stop of the source was answered by a start,
   * the created VM was deleted, no other VM was, and no volume was deleted through the array.
   */
  ghost predicate AllUndone(log: seq<Event>, ref: Ref) {
    var t := TallyOf(log);
    && t.starts == t.stops <= 1 && t.deletes == t.creates <= 1
    && (forall i :: 0 <= i < |log| && log[i].DeleteVm? ==> log[i].ref == ref)
    && NothingDeleted(log)
  }

  lemma StartsEmpty(start: World, w: World, spec: Option<VmSpec>, ref: Option<Ref>,
                    entries: seq<Entry<World>>, dry: bool)
    requires Going(start, w, spec, ref, entries, dry)
    ensures start.log == [] && TallyOf(start.log) == NOTHING
  {}

  lemma GoingIsUnfelt(start: World, w: World, spec: Option<VmSpec>, ref: Option<Ref>,
                      entries: seq<Entry<World>>, dry: bool)
    ensures Going(start, w, spec, ref, entries, dry) && dry ==> Unfelt(start, w)
  {}

  /** At every point of a dry run the site is what it would be had nothing run, and nothing is owed. */
  lemma DryRunOwesNothing(start: World, w: World, spec: Option<VmSpec>, ref: Option<Ref>,
                          entries: seq<Entry<World>>)
    requires Going(start, w, spec, ref, entries, true)
    ensures entries == [] && w.log == [] && w.site == Idle(start, w.clock - start.clock).site
  {
    hide Going, Owing, TallyOf, Idle;
    DryRunIsUnfelt(start, w, spec, ref, entries);
    NothingIsOwing(ref, entries);
  }

  lemma DryRunIsUnfelt(start: World, w: World, spec: Option<VmSpec>, ref: Option<Ref>, entries: seq<Entry<World>>)
    requires Going(start, w, spec, ref, entries, true)
    ensures start.log == [] && TallyOf(start.log) == NOTHING && Unfelt(start, w) && Debt(w, ref, entries)
  {
    hide Safe, Alone, Captures, TallyOf, Unfelt, Debt;
  }

  lemma RolledBackUndoes(start: World, w: World, spec: Option<VmSpec>, own: Option<Ref>,
                         entries: seq<Entry<World>>, x: World, dry: bool)
    requires Going(start, w, spec, own, entries, dry)
    requires RolledBack(start, w, x, if own.Some? then own.value else "", dry)
    ensures Safe(x) && Alone(start, x) && x.images == w.images && (dry ==> Unfelt(start, x))
    ensures AllUndone(x.log, if own.Some? then own.value else "")
  {
    hide Safe, Captures, TallyOf;
    NoDeletionsYet(w.log);
    assert forall i :: 0 <= i < |w.log| ==> x.log[i] == w.log[i];
    assert forall p :: 0 <= p < |x.log| ==> !Touches(x.log[p], start.owned);
  }

  lemma {:induction false} NoDeletionsYet(log: seq<Event>)
    ensures TallyOf(log).deletes == 0 ==> forall i :: 0 <= i < |log| ==> !log[i].DeleteVm?
  {
    if log != [] {
      NoDeletionsYet(log[..|log| - 1]);
    }
  }

  lemma SafeKeepsTrail(w: World)
    requires Safe(w)
    ensures forall i :: 0 <= i < |w.trail| ==> Kept(w.trail[i], w.images)
  {}

  lemma CommittedKeepsTrail(w: World, ref: Ref, from: seq<string>, to: seq<string>, frozen: bool, on: bool)
    requires Committed(w, ref, from, to, frozen, on)
    ensures forall i :: 0 <= i < |w.trail| ==> Kept(w.trail[i], w.images)
    ensures Delivered(w, ref, from, to, frozen, on)
  {}
}
