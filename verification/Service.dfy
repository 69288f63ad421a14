/**
 * The cold-migration orchestrator: it builds a VM at the destination, copies the source disks
 * onto its volumes, and only then, for a move, removes the source. Both hypervisors are on the
 * same array. Progress messages and phase hooks are not part of the model.
 */
module Migrate {
  import opened Wrappers
  import opened Text
  import opened Spec
  import opened Volumes
  import opened Steps
  import opened Environment
  import opened Safety
  import opened Accounts
  import opened Progress
  import DestName

  datatype Mode = MoveVm | CopyVm

  /** What the orchestrator asks of a connector before any call. */
  datatype Endpoint = Endpoint(
    supportsMigrate: bool,
    hasArray: bool,
    hostGroup: string,
    mock: bool,
    managesPresentation: bool)

  datatype Options = Options(
    mode: Mode,
    shutdownSource: bool,
    powerOn: Option<bool>,
    dryRun: bool,
    migrationId: string,  // empty unless somebody sets it
    pollAttempts: int,
    startAttempts: int,
    startPollAttempts: int)

  datatype OpResult = OpResult(success: bool, message: string, rollbackFailures: seq<string>)

  /** The destination disks mirror the spec: same number, order and boot flags, own identities. */
  ghost predicate SameLayout(spec: seq<DiskSpec>, made: seq<DiskSpec>) {
    && |made| == |spec|
    && forall k :: 0 <= k < |spec| ==>
         && made[k].order == spec[k].order && made[k].boot == spec[k].boot
         && made[k].bus == spec[k].bus && made[k].sourceRef == spec[k].sourceRef
  }

  lemma LayoutGrows(disks: seq<DiskSpec>, k: nat, made: seq<DiskSpec>, next: DiskSpec)
    requires k < |disks| && SameLayout(disks[..k], made)
    requires next.order == disks[k].order && next.boot == disks[k].boot
    requires next.bus == disks[k].bus && next.sourceRef == disks[k].sourceRef
    ensures SameLayout(disks[..k + 1], made + [next])
    ensures VolumesOf(disks[..k + 1]) == VolumesOf(disks[..k]) + [VolumeOf(disks[k])]
    ensures VolumesOf(made + [next]) == VolumesOf(made) + [VolumeOf(next)]
  {}

  /** The first `n` of these are live volumes of the source. */
  ghost predicate Live(w: World, names: seq<string>, n: nat) {
    n <= |names| && forall j :: 0 <= j < n ==> names[j] in w.owned && names[j] in w.site.vols
  }

  lemma LiveSurvives(w: World, x: World, names: seq<string>, n: nat)
    requires Live(w, names, n) && Alone(w, x)
    ensures Live(x, names, n)
  {}

  /** Between capture and copy nothing disturbs a source that was shut down. */
  lemma RestsBeforeCopy(start: World, w: World, x: World, y: World, names: seq<string>, ref: Ref)
    requires Alone(start, y) && start.site.source.Some? && Alone(w, x) && Gentle(x, y, ref)
    requires Live(w, names, |names|) && !SourceRuns(y.site)
    requires ref in x.site.dest && !x.site.dest[ref].running
    ensures y.site.source.Some? && Live(y, names, |names|)
    ensures ref in y.site.dest && !y.site.dest[ref].running
  {}

  class MigrationService {
    const src: Endpoint
    const dst: Endpoint
    const networkMap: map<string, string>
    const options: Options
    const rollback: RollbackStack<World>
    ghost const start: World

    var world: World
    var spec: Option<VmSpec>
    var destVmRef: Option<Ref>
    var destDisks: seq<DiskSpec>
    var sourceWasRunning: bool
    var poweredOn: bool

    /** A run begins with an empty log in a world whose VMs have live disks of their own. */
    constructor (src: Endpoint, dst: Endpoint, networkMap: map<string, string>, options: Options, world: World)
      requires WellFormed(world.site, world.owned)
      ensures Valid() && fresh(rollback)
      ensures start == world.(halted := world.site.vols, log := [], images := map[], trail := [])
      ensures this.world == start && spec.None? && destVmRef.None? && destDisks == []
      ensures this.src == src && this.dst == dst && this.networkMap == networkMap && this.options == options
    {
      this.src, this.dst, this.networkMap, this.options := src, dst, networkMap, options;
      var w := world.(halted := world.site.vols, log := [], images := map[], trail := []);
      rollback := new RollbackStack<World>();
      start := w;
      this.world := w;
      spec, destVmRef, destDisks := None, None, [];
      sourceWasRunning, poweredOn := false, false;
    }

    ghost predicate Valid()
      reads this, rollback
    {
      Going(start, world, spec, destVmRef, rollback.entries, options.dryRun)
    }

    /** The reference of the destination VM, once there is one. */
    function Dest(): Ref
      reads `destVmRef
    {
      if destVmRef.Some? then destVmRef.value else ""
    }

    /** A read of a connector or of the array: the environment moves, and an answer comes back. */
    method Read() returns (a: Answer)
      requires Valid()
      modifies `world
      ensures Valid() && Gentle(old(world), world, Dest())
      ensures world == Tick(old(world)) && a == Now(old(world)) && world.log == old(world).log
    {
      ReadGoes(start, world, spec, destVmRef, rollback.entries, options.dryRun, Dest());
      a := Now(world);
      world := Tick(world);
    }

    /** A read that must report success. */
    method Check(message: string) returns (o: Outcome)
      requires Valid()
      modifies `world
      ensures Valid() && Gentle(old(world), world, Dest())
      ensures world == Tick(old(world)) && world.log == old(world).log
    {
      var a := Read();
      return if a.reply == Returned(true) then Fine else Raise(message);
    }

    // ------------------------------------------------------------------ steps ---

    method Preflight() returns (o: Outcome)
      requires Valid()
      modifies `world
      ensures Valid() && world.log == old(world).log
      ensures o.Fine? ==> src.supportsMigrate && src.hasArray && dst.supportsMigrate && dst.hasArray
      ensures o.Fine? ==> dst.managesPresentation || dst.hostGroup != ""
    {
      hide Going, Gentle, Tick;
      if !src.supportsMigrate {
        return Raise("source connector cannot act as a migration source");
      }
      if !src.hasArray {
        return Raise("source hypervisor has no associated FlashArray");
      }
      :- Check("source connection invalid");
      if !dst.supportsMigrate {
        return Raise("destination connector cannot act as a destination");
      }
      if !dst.hasArray {
        return Raise("destination hypervisor has no associated FlashArray");
      }
      :- Check("destination connection invalid");
      if !dst.managesPresentation && dst.hostGroup == "" {
        return Raise("destination hypervisor has no FlashArray host group configured");
      }
      if dst.hostGroup != "" {
        var ready := Read();
        if ready.reply.Raised? || (!ready.reply.success && !dst.mock) {
          return Raise("destination not ready");
        }
      }
      var ids := Read();
      if ids.reply.Raised? {
        return Raise("destination networks could not be listed");
      }
      var names := Read();
      if names.reply.Raised? {
        return Raise("destination networks could not be listed");
      }
      if exists n :: n in networkMap && networkMap[n] != "" && networkMap[n] !in ids.names + names.names {
        return Raise("destination network(s) not found");
      }
      return Fine;
    }

    method CaptureSpec() returns (o: Outcome)
      requires Valid() && spec.None?
      modifies `world, `spec
      ensures Valid() && world.log == old(world).log
      ensures o.Fine? ==> spec.Some? && spec.value.disks != []
      ensures o.Fine? ==> forall nic :: nic in spec.value.nics ==> nic.sourceNetwork in networkMap
    {
      hide Going;
      CaptureGoes(start, world, destVmRef, rollback.entries, options.dryRun);
      var (w, captured) := CaptureVmSpec(world);
      world := w;
      if captured.None? {
        return Raise("the source VM could not be captured");
      }
      spec := captured;
      if spec.value.disks == [] {
        return Raise("source VM has no FlashArray-backed disks to migrate");
      }
      for i := 0 to |spec.value.nics|
        invariant forall j :: 0 <= j < i ==> spec.value.nics[j].sourceNetwork in networkMap
      {
        if spec.value.nics[i].sourceNetwork !in networkMap {
          return Raise("no destination network mapping for source NIC");
        }
      }
      return Fine;
    }

    /** The base hook stages nothing; it may fail. */
    method PrepareSourceDisks() returns (o: Outcome)
      requires Valid() && spec.Some?
      modifies `world
      ensures Valid() && world.log == old(world).log
    {
      if options.dryRun {
        return Fine;
      }
      var a := Read();
      return if a.reply.Raised? then Raise("source disks could not be prepared") else Fine;
    }

    /** `get_volume`: absent, soft-destroyed, or found. */
    method GetVolume(name: string) returns (o: Outcome, vol: Option<Volume>)
      requires Valid()
      modifies `world
      ensures Valid() && Gentle(old(world), world, Dest()) && world.log == old(world).log
      ensures o.Fine? && !src.mock ==> vol.Some?
      ensures vol.Some? ==> name in world.site.vols
    {
      hide Going, Gentle, Tick, Now;
      var a := Read();
      if a.reply.Raised? {
        return Raise("the array could not be read"), None;
      }
      if name in world.site.vols {
        return Fine, Some(world.site.vols[name]);
      }
      o := if a.effect then Raise("FlashArray volume is destroyed")
           else if src.mock then Fine
           else Raise("FlashArray volume not found");
      vol := None;
    }

    /** The serial and size of the k-th disk are filled in from its volume. */
    method ResolveVolume(k: nat) returns (o: Outcome)
      requires Valid() && spec.Some? && k < |spec.value.disks|
      modifies `world, `spec
      ensures Valid() && world.log == old(world).log && Alone(old(world), world)
      ensures spec.Some? && spec.value == old(spec).value.(disks := spec.value.disks)
      ensures SameDisks(old(spec).value.disks, spec.value.disks)
      ensures o.Fine? && !src.mock ==>
                VolumeOf(spec.value.disks[k]) in world.site.vols && VolumeOf(spec.value.disks[k]) in world.owned
    {
      OwnsItsVolumes(start, world, spec.value, destVmRef, rollback.entries, options.dryRun, k);
      SameDisksReflexive(spec.value.disks);
      hide Going, Alone, Calm, SameDisks, WithFilled, VolumeOf;
      ghost var before := world;
      var vol;
      o, vol := GetVolume(VolumeOf(spec.value.disks[k]));
      OwnedStays(before, world);
      if vol.Some? {
        FillGoes(start, world, spec.value, k, vol.value, destVmRef, rollback.entries, options.dryRun);
        spec := Some(WithFilled(spec.value, k, vol.value));
      }
    }

    method ResolveVolumes() returns (o: Outcome)
      requires Valid() && spec.Some?
      modifies `world, `spec
      ensures Valid() && world.log == old(world).log
      ensures spec.Some? && spec.value == old(spec).value.(disks := spec.value.disks)
      ensures SameDisks(old(spec).value.disks, spec.value.disks)
      ensures o.Fine? && !src.mock ==> Live(world, VolumesOf(spec.value.disks), |spec.value.disks|)
    {
      hide Going, Alone;
      ghost var names := VolumesOf(spec.value.disks);
      for k := 0 to |spec.value.disks|
        invariant Valid() && world.log == old(world).log
        invariant spec.Some? && spec.value == old(spec).value.(disks := spec.value.disks)
        invariant SameDisks(old(spec).value.disks, spec.value.disks)
        invariant VolumesOf(spec.value.disks) == names
        invariant !src.mock ==> Live(world, names, k)
      {
        ghost var before := world;
        :- ResolveVolume(k);
        if !src.mock {
          LiveSurvives(before, world, names, k);
        }
      }
      return Fine;
    }

    /** What tells the destination VM from others when those could not be listed. */
    function Suffix(): (suffix: string)
      ensures suffix != "" && (options.migrationId != "" ==> suffix <= options.migrationId && |suffix| <= 8)
    {
      if options.migrationId == "" then "mig"
      else if |options.migrationId| < 8 then options.migrationId
      else options.migrationId[..8]
    }

    /** `_ensure_unique_dest_name`: never the name of a VM listed at the destination. */
    method EnsureUniqueDestName()
      requires Valid() && spec.Some?
      modifies `world, `spec
      ensures Valid() && world.log == old(world).log
      ensures spec.Some? && spec.value == old(spec).value.(name := spec.value.name)
      ensures Alone(old(world), world)
      ensures var a := Now(old(world));
              if a.reply.Raised? then spec.value.name == old(spec).value.name + "-" + Suffix()
              else spec.value.name !in a.names && DestName.IsFreshName(spec.value.name, old(spec).value.name, a.names)
    {
      hide Going, Alone, Calm, Tick, DestName.IsFreshName;
      var base := spec.value.name;
      var a := Read();
      var name := base + "-" + Suffix();
      if a.reply.Returned? {
        name := DestName.UniqueName(base, a.names);
      }
      RenameGoes(start, world, spec.value, name, destVmRef, rollback.entries, options.dryRun);
      spec := Some(spec.value.(name := name));
    }

    /** The call itself: a VM that was created under a reference has its teardown on the stack. */
    method CallCreateVm() returns (o: Outcome)
      requires Valid() && !options.dryRun && TallyOf(world.log) == NOTHING
      modifies `world, `destVmRef, rollback
      ensures Valid() && TallyOf(world.log).stops == 0
      ensures Alone(old(world), world)
      ensures o.Fine? ==> destVmRef.Some? && Dest() in world.site.dest && !world.site.dest[Dest()].running
    {
      CreateGoes(start, world, spec, destVmRef, rollback.entries);
      CreateIsAlone(start, world, spec, destVmRef, rollback.entries);
      CreationStopsNothing(world);
      hide Going, Alone, Environment.CreateDestVm;
      var (w, reply, ref) := Environment.CreateDestVm(world);
      world := w;
      if reply != Returned(true) {
        return Raise("failed to create destination VM");
      }
      destVmRef := Some(ref);
      if ref == "" {
        return Raise("destination create_vm did not return a vm_ref");
      }
      rollback.Push(TeardownEntry(ref).title, (w: World) => TeardownDest(w, ref));
      return Fine;
    }

    method CreateDestVm() returns (o: Outcome)
      requires Valid() && spec.Some? && TallyOf(world.log) == NOTHING
      modifies `world, `spec, `destVmRef, rollback
      ensures Valid() && TallyOf(world.log).stops == 0
      ensures spec.Some? && spec.value == old(spec).value.(name := spec.value.name)
      ensures Alone(old(world), world)
      ensures o.Fine? ==> destVmRef.Some?
      ensures o.Fine? && !options.dryRun ==> Dest() in world.site.dest && !world.site.dest[Dest()].running
    {
      hide Going, Alone, Calm, DestName.IsFreshName, TallyOf;
      ghost var before := world;
      EnsureUniqueDestName();
      if options.dryRun {
        RefGoes(start, world, spec, destVmRef, Some("dry-run-" + spec.value.name), rollback.entries, options.dryRun);
        destVmRef := Some("dry-run-" + spec.value.name);
        return Fine;
      }
      ghost var named := world;
      o := CallCreateVm();
      AloneTransitive(before, named, world);
    }

    /** What the source reports; `None` when the call raised. */
    method ReadSourcePower() returns (p: Option<Power>)
      requires Valid()
      modifies `world
      ensures Valid() && Gentle(old(world), world, Dest()) && world.log == old(world).log
      ensures world.truthful && p.Some? ==> p == Some(if SourceRuns(world.site) then Running else Stopped)
    {
      hide Going, Gentle;
      var (w, reading) := SourcePower(world);
      var _ := Read();
      p := reading;
    }

    /** `_await_power` of the source: an unknown state is taken for the one awaited. */
    method AwaitSourceStopped() returns (o: Outcome)
      requires Valid()
      modifies `world
      ensures Valid() && Gentle(old(world), world, Dest()) && world.log == old(world).log
      ensures o.Fine? && world.truthful && !src.mock ==> !SourceRuns(world.site)
    {
      hide Going, Gentle;
      GentleReflexive(world, Dest());
      if src.mock {
        return Fine;
      }
      var attempts := if options.pollAttempts < 1 then 1 else options.pollAttempts;
      for i := 0 to attempts
        invariant Valid() && Gentle(old(world), world, Dest()) && world.log == old(world).log
      {
        ghost var before := world;
        var p := ReadSourcePower();
        GentleTransitive(old(world), before, world, Dest());
        if p.None? {
          return Raise("power state could not be read");
        }
        if p.value == Stopped || p.value == Unknown {
          return Fine;
        }
      }
      return Raise("VM did not reach power state 'stopped'");
    }

    /** Powers the source off for a clean copy: always for a move, on request for a copy. */
    method QuiesceSource() returns (o: Outcome)
      requires Valid() && TallyOf(world.log).stops == 0
      modifies `world, `sourceWasRunning, rollback
      ensures Valid() && Gentle(old(world), world, Dest())
      ensures o.Fine? && Quiesces() && Observes() && world.truthful ==> !SourceRuns(world.site)
    {
      hide Going, Gentle;
      GentleReflexive(world, Dest());
      if !Quiesces() {
        return Fine;
      }
      var state := ReadSourcePower();
      if state.None? {
        return Raise("power state could not be read");
      }
      sourceWasRunning := state.value != Stopped;
      if !sourceWasRunning || options.dryRun {
        return Fine;
      }
      ghost var read := world;
      StopGoes(start, world, spec, destVmRef, rollback.entries, Dest());
      var (w, reply) := StopSourceVm(world);
      world := w;
      GentleTransitive(old(world), read, world, Dest());
      if reply != Returned(true) {
        return Raise("failed to stop source for a clean copy");
      }
      rollback.Push(RestartEntry().title, (w: World) => RestartSource(w));
      ghost var stopped := world;
      o := AwaitSourceStopped();
      GentleTransitive(old(world), stopped, world, Dest());
    }

    /** This run shuts the source down before it copies. */
    predicate Quiesces() {
      options.mode == MoveVm || options.shutdownSource
    }

    /** Power states of the source are really polled. */
    predicate Observes() {
      !src.mock && !options.dryRun
    }

    /** One managed disk, then the source data on top of it. */
    method BuildDisk(disk: DiskSpec, ghost from: seq<string>, ghost to: seq<string>, ghost frozen: bool)
      returns (o: Outcome, made: string)
      requires Valid() && !options.dryRun && destVmRef.Some?
      requires Built(world, Dest(), from, to, frozen)
      requires frozen ==> VolumeOf(disk) in world.owned && VolumeOf(disk) in world.site.vols
      modifies `world
      ensures Valid() && Alone(old(world), world)
      ensures TallyOf(world.log) == TallyOf(old(world).log)
      ensures o.Fine? ==> Built(world, Dest(), from + [VolumeOf(disk)], to + [made], frozen)
    {
      GoingIsSafe(start, world, spec, destVmRef, rollback.entries, options.dryRun);
      hide Going, Alone, Safe, Built;
      var source := VolumeOf(disk);
      var w0 := world;
      DiskCreated(w0, Dest(), from, to, frozen);
      CreateDiskGoes(start, w0, spec, Dest(), rollback.entries);
      var (w1, name) := CreateManagedDisk(w0, Dest());
      world := w1;
      if name.None? {
        return Raise("managed disk could not be created"), "";
      }
      made := name.value;
      OwnedStays(w0, w1);
      DiskCopied(w1, Dest(), from, to, frozen, source, made);
      CopyGoes(start, w1, spec, Dest(), rollback.entries, source, made);
      var (w2, reply) := CopyVolume(w1, source, made);
      AloneTransitive(w0, w1, w2);
      world := w2;
      o := if reply.Raised? then Raise("copy failed") else Fine;
    }

    /** The source is off, so are the disks it will be copied from, and so is the destination VM. */
    ghost predicate Resting(names: seq<string>)
      reads `world, `destVmRef
    {
      && world.site.source.Some? && !SourceRuns(world.site)
      && Live(world, names, |names|)
      && (Dest() in world.site.dest ==> !world.site.dest[Dest()].running)
    }

    /** The first `k` disks are done. */
    ghost predicate HalfBuilt(k: nat, frozen: bool)
      reads `world, `spec, `destVmRef, `destDisks
    {
      && spec.Some? && k <= |spec.value.disks|
      && SameLayout(spec.value.disks[..k], destDisks)
      && (!options.dryRun ==>
            Built(world, Dest(), VolumesOf(spec.value.disks[..k]), VolumesOf(destDisks), frozen))
      && (frozen ==> Live(world, VolumesOf(spec.value.disks), |spec.value.disks|))
    }

    method BuildNext(k: nat, ghost frozen: bool) returns (o: Outcome)
      requires Valid() && destVmRef.Some? && HalfBuilt(k, frozen) && k < |spec.value.disks|
      modifies `world, `destDisks
      ensures Valid() && TallyOf(world.log) == TallyOf(old(world).log)
      ensures o.Fine? ==> HalfBuilt(k + 1, frozen)
    {
      hide Going, Alone, Safe, Built, SameLayout;
      var disk := spec.value.disks[k];
      ghost var w0, was := world, destDisks;
      var volume := "dry-run-dest-" + Dest() + "-disk"
                    + (if disk.order < 0 then "-" + Decimal(-disk.order) else Decimal(disk.order));
      if !options.dryRun {
        o, volume := BuildDisk(disk, VolumesOf(spec.value.disks[..k]), VolumesOf(destDisks), frozen);
        if o.Raise? {
          return;
        }
        OwnedStays(w0, world);
      }
      var made := DiskSpec(DiskIdentity(volume, None, None), disk.bus, disk.order, disk.boot, disk.sourceRef);
      destDisks := destDisks + [made];
      LayoutGrows(spec.value.disks, k, was, made);
      return Fine;
    }

    method BuildDestinationDisks() returns (o: Outcome)
      requires Valid() && spec.Some? && destVmRef.Some?
      requires !options.dryRun ==> Dest() in world.site.dest
      modifies `world, `destDisks
      ensures Valid() && TallyOf(world.log) == TallyOf(old(world).log)
      ensures o.Fine? ==> SameLayout(spec.value.disks, destDisks)
      ensures o.Fine? && !options.dryRun ==>
                Built(world, Dest(), VolumesOf(spec.value.disks), VolumesOf(destDisks),
                      old(Resting(VolumesOf(spec.value.disks))))
    {
      hide Going, Built;
      ghost var frozen := Resting(VolumesOf(spec.value.disks));
      destDisks := [];
      NothingBuilt(world, Dest(), frozen);
      assert VolumesOf(spec.value.disks[..0]) == [] == VolumesOf(destDisks);
      for k := 0 to |spec.value.disks|
        invariant Valid() && TallyOf(world.log) == TallyOf(old(world).log)
        invariant HalfBuilt(k, frozen)
      {
        :- BuildNext(k, frozen);
      }
      assert spec.value.disks[..|spec.value.disks|] == spec.value.disks;
      return Fine;
    }

    /** `_finalize_dest_disks` and `_set_boot`: hooks of the destination that move no data. */
    method DestinationHook(message: string) returns (o: Outcome)
      requires Valid()
      modifies `world
      ensures Valid() && Gentle(old(world), world, Dest()) && world.log == old(world).log
    {
      hide Going, Gentle;
      GentleReflexive(world, Dest());
      if options.dryRun {
        return Fine;
      }
      o := Check(message);
    }

    /** An explicit option wins; else a move restores the source's power state, a copy stays off. */
    predicate ShouldPowerOn()
      reads `sourceWasRunning
    {
      if options.powerOn.Some? then options.powerOn.value else options.mode == MoveVm && sourceWasRunning
    }

    method ReadDestPower() returns (p: Option<Power>)
      requires Valid()
      modifies `world
      ensures Valid() && Gentle(old(world), world, Dest()) && world.log == old(world).log
      ensures world.truthful && p == Some(Running) ==> Dest() in world.site.dest && world.site.dest[Dest()].running
    {
      hide Going, Gentle;
      var (w, reading) := DestPower(world, Dest());
      var _ := Read();
      p := reading;
    }

    /** Polls after one start: did the VM come up? */
    method AwaitDestRunning() returns (o: Outcome, up: bool)
      requires Valid()
      modifies `world
      ensures Valid() && Gentle(old(world), world, Dest()) && world.log == old(world).log
      ensures up ==> o.Fine? && (world.truthful ==> Dest() in world.site.dest && world.site.dest[Dest()].running)
    {
      hide Going, Gentle;
      GentleReflexive(world, Dest());
      var polls := if options.startPollAttempts < 0 then 0 else options.startPollAttempts;
      for j := 0 to polls
        invariant Valid() && Gentle(old(world), world, Dest()) && world.log == old(world).log
      {
        ghost var before := world;
        var p := ReadDestPower();
        GentleTransitive(old(world), before, world, Dest());
        if p.None? {
          return Raise("power state could not be read"), false;
        }
        if p.value == Running {
          return Fine, true;
        }
      }
      return Fine, false;
    }

    /** One `start_vm`; a failure that does not raise is only reported. */
    method StartDest() returns (o: Outcome)
      requires Valid() && destVmRef.Some? && !options.dryRun
      modifies `world
      ensures Valid() && Keeps(old(world), world, Dest(), {})
      ensures old(world).log <= world.log && TallyOf(world.log) == TallyOf(old(world).log)
    {
      hide Going, Keeps;
      StartGoes(start, world, spec, Dest(), rollback.entries);
      var (w, reply) := StartDestVm(world, Dest());
      world := w;
      o := if reply.Raised? then Raise("start_vm raised") else Fine;
    }

    method PowerOnDest() returns (o: Outcome)
      requires Valid() && destVmRef.Some?
      modifies `world, `poweredOn
      ensures Valid() && Keeps(old(world), world, Dest(), {})
      ensures old(world).log <= world.log && TallyOf(world.log) == TallyOf(old(world).log)
      ensures poweredOn <==> ShouldPowerOn()
      ensures !poweredOn ==> world == old(world)
      ensures o.Fine? && poweredOn && !options.dryRun && !dst.mock && world.truthful ==>
                Dest() in world.site.dest && world.site.dest[Dest()].running
    {
      hide Going, Keeps, Gentle;
      KeepsReflexive(world, Dest());
      poweredOn := ShouldPowerOn();
      if !poweredOn || options.dryRun {
        return Fine;
      }
      if dst.mock {
        o := StartDest();
        return;
      }
      var attempts := if options.startAttempts < 0 then 0 else options.startAttempts;
      for i := 0 to attempts
        invariant Valid() && Keeps(old(world), world, Dest(), {}) && poweredOn
        invariant old(world).log <= world.log && TallyOf(world.log) == TallyOf(old(world).log)
      {
        ghost var before := world;
        o := StartDest();
        KeepsTransitive(old(world), before, world, Dest(), {});
        if o.Raise? {
          return;
        }
        ghost var started := world;
        var up;
        o, up := AwaitDestRunning();
        GentleKeeps(old(world), started, world, Dest());
        if o.Raise? || up {
          return;
        }
      }
      return Raise("destination VM did not reach running");
    }

    /** The volumes of the source disks and of the destination disks, in order. */
    ghost function From(): seq<string>
      reads `spec
    {
      if spec.Some? then VolumesOf(spec.value.disks) else []
    }

    ghost function To(): seq<string>
      reads `destDisks
    {
      VolumesOf(destDisks)
    }

    /** Disconnects and eradicates one source volume; errors are warnings. */
    method RemoveSourceVolume(disk: DiskSpec, ghost frozen: bool)
      requires Committed(world, Dest(), From(), To(), frozen, poweredOn)
      requires VolumeOf(disk) in world.owned
      modifies `world
      ensures Committed(world, Dest(), From(), To(), frozen, poweredOn)
      ensures old(world).log <= world.log && TallyOf(world.log) == TallyOf(old(world).log)
      ensures world.images == old(world).images && world.owned == old(world).owned
    {
      hide Committed, TallyOf;
      var volume := VolumeOf(disk);
      if volume != "" && src.hasArray {
        var reply := Returned(true);
        if src.hostGroup != "" {
          DisconnectStaysCommitted(world, src.hostGroup, volume, Dest(), From(), To(), frozen, poweredOn);
          var (w, disconnected) := DisconnectVolume(world, src.hostGroup, volume);
          world, reply := w, disconnected;
        }
        if reply.Returned? {
          EradicateStaysCommitted(world, volume, Dest(), From(), To(), frozen, poweredOn);
          var (w, _) := EradicateVolume(world, volume);
          world := w;
        }
      }
    }

    /**
     * The commit point: remove the source VM, and once it is gone, its volumes. Nothing here
     * fails the migration any more.
     */
    method FinalizeMove(ghost frozen: bool)
      requires Valid() && spec.Some? && destVmRef.Some?
      requires !options.dryRun ==> Delivered(world, Dest(), From(), To(), frozen, poweredOn)
      modifies `world
      ensures options.dryRun ==> world == old(world)
      ensures !options.dryRun ==> Committed(world, Dest(), From(), To(), frozen, poweredOn)
      ensures !options.dryRun ==> DeletesLast(world.log, From(), To())
      ensures TallyOf(world.log) == TallyOf(old(world).log) && world.images == old(world).images
    {
      hide Going, Delivered, TakenOver, DeletesLast, Committed, Safe, Alone;
      if options.dryRun {
        return;
      }
      ghost var before := world.log;
      DeliveredTakesOver(start, world, spec.value, destVmRef, rollback.entries, Dest(), To(), frozen, poweredOn);
      GoingDeletesNothing(start, world, spec, destVmRef, rollback.entries, options.dryRun);
      DeliveredLogsCopies(world, Dest(), From(), To(), frozen, poweredOn);
      DeleteSourceStaysCommitted(world, Dest(), From(), To(), frozen, poweredOn);
      var (w, reply) := DeleteSourceVm(world);
      world := w;
      if reply != Returned(true) {
        StillNothingDeleted(before, DeleteSource(reply), From(), To());
        return;
      }
      for k := 0 to |spec.value.disks|
        invariant Committed(world, Dest(), From(), To(), frozen, poweredOn)
        invariant before + [DeleteSource(Returned(true))] <= world.log
        invariant TallyOf(world.log) == TallyOf(old(world).log)
        invariant world.images == old(world).images && world.owned == old(world).owned
      {
        RemoveSourceVolume(spec.value.disks[k], frozen);
      }
      DeletionsComeLast(before, world.log, From(), To());
    }

    /** The source is observed, exists, and is shut down for the copy. */
    ghost predicate Clean() {
      Quiesces() && Observes() && start.truthful && start.site.source.Some?
    }

    /** The destination VM with copies of all source disks. */
    method BuildDestination() returns (o: Outcome)
      requires Valid() && spec.Some? && TallyOf(world.log) == NOTHING
      requires !src.mock ==> Live(world, From(), |From()|)
      modifies `world, `spec, `destVmRef, `destDisks, `sourceWasRunning, rollback
      ensures Valid() && spec.Some?
      ensures spec.value == old(spec).value.(name := spec.value.name)
      ensures o.Fine? ==> destVmRef.Some? && SameLayout(spec.value.disks, destDisks)
      ensures o.Fine? && !options.dryRun ==> Built(world, Dest(), From(), To(), Clean())
    {
      hide Going, Gentle, Alone, Calm, Built, SameLayout, Live;
      ghost var w0 := world;
      :- CreateDestVm();
      ghost var w1 := world;
      :- QuiesceSource();
      GoingIsSafe(start, world, spec, destVmRef, rollback.entries, options.dryRun);
      ghost var resting := Resting(From());
      if Clean() {
        RestsBeforeCopy(start, w0, w1, world, From(), Dest());
      }
      GentleKeepsVm(w1, world, Dest());
      :- BuildDestinationDisks();
      if !options.dryRun {
        BuiltWeaker(world, Dest(), From(), To(), resting, Clean());
      }
      return Fine;
    }

    /** The copied disks become a bootable VM, which is powered on if it should be. */
    method DeliverDestination() returns (o: Outcome)
      requires Valid() && destVmRef.Some?
      requires !options.dryRun ==> Built(world, Dest(), From(), To(), Clean())
      modifies `world, `poweredOn
      ensures Valid()
      ensures o.Fine? && !options.dryRun ==> Delivered(world, Dest(), From(), To(), Clean(), poweredOn)
      ensures old(world).log <= world.log && TallyOf(world.log) == TallyOf(old(world).log)
    {
      hide Going, Gentle, Built, Delivered, Keeps, Calm;
      ghost var w0 := world;
      :- DestinationHook("failed to finalize destination disks");
      ghost var w1 := world;
      :- DestinationHook("failed to set boot order");
      GentleTransitive(w0, w1, world, Dest());
      ghost var w2 := world;
      o := PowerOnDest();
      if !options.dryRun && o.Fine? {
        BuiltGently(w0, w2, Dest(), From(), To(), Clean(), poweredOn);
        CalmReflexive(w2, Dest());
        DeliveredSurvives(w2, world, Dest(), From(), To(), Clean(), poweredOn);
      }
    }

    /** The steps of a run up to and including the commit point. */
    method Attempt() returns (o: Outcome)
      requires Valid() && spec.None? && TallyOf(world.log) == NOTHING
      modifies `world, `spec, `destVmRef, `destDisks, `sourceWasRunning, `poweredOn, rollback
      ensures o.Raise? || options.dryRun || options.mode == CopyVm ==> Valid()
      ensures o.Fine? ==> spec.Some? && destVmRef.Some? && SameLayout(spec.value.disks, destDisks)
      ensures spec.Some? ==> world.images.Keys == BackingVolumes(spec.value) * start.site.vols.Keys
      ensures o.Fine? ==> TallyOf(world.log).starts == 0 && TallyOf(world.log).deletes == 0
      ensures o.Fine? && !options.dryRun ==> Committed(world, Dest(), From(), To(), Clean(), poweredOn)
      ensures o.Fine? && !options.dryRun ==> DeletesLast(world.log, From(), To())
    {
      hide Going, Committed, Delivered, DeletesLast, SameLayout;
      :- Preflight();
      o := CaptureSpec();
      if spec.Some? {
        CapturedAtStart(start, world, spec.value, destVmRef, rollback.entries, options.dryRun);
      }
      if o.Raise? {
        return;
      }
      o := ReadySource();
      if o.Fine? {
        o := BuildDestination();
      }
      if o.Fine? {
        o := DeliverDestination();
      }
      CapturedAtStart(start, world, spec.value, destVmRef, rollback.entries, options.dryRun);
      if o.Raise? {
        return;
      }
      OwesNoUndoing(start, world, spec, destVmRef, rollback.entries, options.dryRun);
      if options.mode == MoveVm {
        FinalizeMove(Clean());
      } else if !options.dryRun {
        DeliveredIsCommitted(start, world, spec.value, destVmRef, rollback.entries,
                             Dest(), To(), Clean(), poweredOn);
      }
    }

    /** The source disks, staged and found on the array. */
    method ReadySource() returns (o: Outcome)
      requires Valid() && spec.Some?
      modifies `world, `spec
      ensures Valid() && world.log == old(world).log && spec.Some?
      ensures o.Fine? && !src.mock ==> Live(world, From(), |From()|)
    {
      hide Going, Live;
      :- PrepareSourceDisks();
      o := ResolveVolumes();
    }

    /** `_cleanup_scratch`: the base hook touches nothing, and its failure is only reported. */
    method CleanupScratch(ghost committed: bool)
      requires !committed ==> Safe(world) && Alone(start, world)
      requires committed ==> Committed(world, Dest(), From(), To(), Clean(), poweredOn)
      modifies `world
      ensures !committed ==> Safe(world) && Alone(start, world)
      ensures committed ==> Committed(world, Dest(), From(), To(), Clean(), poweredOn)
      ensures old(Alone(start, world) && Safe(world)) ==> Alone(start, world)
      ensures old(Unfelt(start, world)) ==> Unfelt(start, world)
      ensures world.log == old(world).log && world.images == old(world).images
    {
      hide Safe, Alone, Committed, Unfelt;
      if spec.None? {
        return;
      }
      ghost var w := world;
      if Safe(w) && Alone(start, w) {
        TickIsSafe(w, "");
        AloneTransitive(start, w, Tick(w));
      }
      if Unfelt(start, w) {
        ReadingIsUnfelt(start, w);
      }
      if committed {
        TickStaysCommitted(w, Dest(), From(), To(), Clean(), poweredOn);
      }
      world := Tick(world);
    }

    /** Undoes everything the run has done, most recent step first. */
    method RollBack() returns (failures: seq<string>)
      requires Valid()
      modifies `world, rollback
      ensures rollback.entries == []
      ensures RolledBack(start, old(world), world, Dest(), options.dryRun)
      ensures options.dryRun ==> world == old(world) && failures == []
    {
      if options.dryRun {
        DryRunOwesNothing(start, world, spec, destVmRef, rollback.entries);
      }
      hide Going, RolledBack;
      RollingBack(start, world, spec, destVmRef, rollback.entries, options.dryRun);
      ghost var run;
      world, failures, run := rollback.Unwind(world);
    }

    /**
     * A whole run, whatever the environment answers.
     * - In every state since the capture, each captured image or a descendant is on a live volume.
     * - A failed run, a copy and a dry run leave the source VM and its volumes alone.
     * - A failed run starts the source once iff it had stopped it, and deletes its destination VM,
     *   and no other VM, once iff it had created it. A run that succeeds does neither.
     * - Volumes are deleted only after all copies and a successful removal of the source VM, and
     *   only in runs that succeed.
     * - A dry run is not felt at all, and has nothing to roll back.
     * - What a successful run leaves on the destination is what `Delivered` says.
     */
    method Run() returns (r: OpResult)
      requires Valid() && spec.None? && world == start
      modifies this, rollback
      ensures rollback.entries == []
      ensures spec.Some? ==> world.images.Keys == BackingVolumes(spec.value) * start.site.vols.Keys
      ensures forall i :: 0 <= i < |world.trail| ==> Kept(world.trail[i], world.images)
      ensures !r.success || options.mode == CopyVm || options.dryRun ==> Alone(start, world)
      ensures options.dryRun ==> Unfelt(start, world) && r.rollbackFailures == []
      ensures !r.success ==> AllUndone(world.log, Dest())
      ensures r.success ==> TallyOf(world.log).starts == 0 && TallyOf(world.log).deletes == 0
      ensures r.success ==> spec.Some? && SameLayout(spec.value.disks, destDisks)
      ensures r.success && !options.dryRun ==> DeletesLast(world.log, From(), To())
      ensures r.success && !options.dryRun ==> Delivered(world, Dest(), From(), To(), Clean(), poweredOn)
    {
      hide Going, Alone, Committed, Delivered, DeletesLast, SameLayout;
      hide RolledBack, Unfelt, Safe, TakenOver, AllUndone, TallyOf;
      StartsEmpty(start, world, spec, destVmRef, rollback.entries, options.dryRun);
      var o := Attempt();
      if o.Raise? {
        ghost var w, own, entries := world, destVmRef, rollback.entries;
        var failures := RollBack();
        RolledBackUndoes(start, w, spec, own, entries, world, options.dryRun);
        CleanupScratch(false);
        SafeKeepsTrail(world);
        return OpResult(false, "migration failed and was rolled back: " + o.message, failures);
      }
      if options.dryRun || options.mode == CopyVm {
        GoingIsSafe(start, world, spec, destVmRef, rollback.entries, options.dryRun);
      }
      GoingIsUnfelt(start, world, spec, destVmRef, rollback.entries, options.dryRun);
      CleanupScratch(!options.dryRun);
      if options.dryRun {
        SafeKeepsTrail(world);
      } else {
        CommittedKeepsTrail(world, Dest(), From(), To(), Clean(), poweredOn);
      }
      rollback.Clear();
      return OpResult(true, if options.mode == MoveVm then "move complete" else "copy complete", []);
    }
  }
}
