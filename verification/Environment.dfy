/**
 * The world a migration acts on: one FlashArray, the source VM, the destination's VMs,
 * and an adversary.
 *
 * Every connector or array call first lets the environment take a step (running guests
 * write to their disks, guests may halt on their own) and then does what the connector
 * contract allows, as the adversary's next answer chooses: return success or failure,
 * or raise, with or without having had its effect.
 */
module Environment {
  import opened Wrappers
  import opened Spec
  import opened Volumes

  type Ref = string

  datatype Vm = Vm(running: bool, disks: set<string>)

  datatype Power = Running | Stopped | Unknown | Other

  /** The physical state: volumes, their host-group connections, and the VMs. */
  datatype Site = Site(vols: Store, conns: set<(string, string)>, source: Option<Vm>, dest: map<Ref, Vm>)

  datatype Reply = Raised | Returned(success: bool)

  /** One answer of the adversary; each call reads the parts it needs. */
  datatype Answer = Answer(
    reply: Reply,
    effect: bool,
    power: Power,
    ref: string,
    size: nat,
    spec: VmSpec,
    names: set<string>,
    writes: map<string, Content>,
    sourceHalts: bool,
    halts: set<Ref>,
    freed: set<string>)

  /** The mutating calls of a run, in order, with their replies. */
  datatype Event =
    | StopSource(reply: Reply)
    | StartSource(reply: Reply)
    | DeleteSource(reply: Reply)
    | CreateVm(reply: Reply, ref: string)
    | StopVm(ref: string, reply: Reply)
    | StartVm(ref: string, reply: Reply)
    | DeleteVm(ref: string, reply: Reply)
    | CreateDisk(ref: string, made: Option<string>, serial: Option<Serial>)
    | CopyData(source: string, dest: string, reply: Reply)
    | Disconnect(group: string, volume: string, reply: Reply)
    | DeleteVolume(volume: string, reply: Reply)

  /**
   * `owned` names the dedicated volumes of the source VM. `halted` is the array as it was
   * at the last instant the source VM went from running to stopped. `images` holds what the
   * captured disks contained when they were captured, and `trail` every state of the site
   * since then.
   */
  datatype World = World(
    site: Site,
    owned: set<string>,
    halted: Store,
    truthful: bool,
    oracle: nat -> Answer,
    clock: nat,
    log: seq<Event>,
    images: map<string, Content>,
    trail: seq<Site>)

  // ------------------------------------------------------------ environment ---

  predicate SourceRuns(s: Site) {
    s.source.Some? && s.source.value.running
  }

  /** Some running guest has this volume as a disk. */
  predicate Writable(s: Site, owned: set<string>, v: string) {
    || (SourceRuns(s) && v in owned)
    || exists r :: r in s.dest && s.dest[r].running && v in s.dest[r].disks
  }

  /** Running guests write, and some of them halt. */
  function Drift(s: Site, owned: set<string>, a: Answer): (d: Site) {
    var vols := map v | v in s.vols ::
                  if v in a.writes && Writable(s, owned, v)
                  then s.vols[v].(content := s.vols[v].content + a.writes[v])
                  else s.vols[v];
    var source :=
      if s.source.Some? && a.sourceHalts then Some(s.source.value.(running := false)) else s.source;
    var dest := map r | r in s.dest :: s.dest[r].(running := s.dest[r].running && r !in a.halts);
    Site(vols, s.conns, source, dest)
  }

  /** The state of the site changes to `s`; a source that stops now is remembered as it stops. */
  function Move(w: World, s: Site): World {
    w.(site := s,
       halted := if SourceRuns(w.site) && !SourceRuns(s) then s.vols else w.halted,
       trail := w.trail + [s])
  }

  function Now(w: World): Answer {
    w.oracle(w.clock)
  }

  /** One step of the environment. Every call begins with it; a read is nothing else. */
  function Tick(w: World): World {
    Move(w, Drift(w.site, w.owned, Now(w))).(clock := w.clock + 1)
  }

  function Logged(w: World, e: Event): World {
    w.(log := w.log + [e])
  }

  // ------------------------------------------------------------- source side ---

  /**
   * `capture_vm_spec`: every disk it reports is a volume of the source VM; anything else
   * raises. The images of the disks that are live are what must not be lost from now on.
   */
  function CaptureVmSpec(w: World): (World, Option<VmSpec>) {
    var w1 := Tick(w);
    var spec := Now(w).spec;
    if Now(w).reply.Raised? || !(BackingVolumes(spec) <= w.owned) then
      (w1, None)
    else
      var images := map v | v in BackingVolumes(spec) && v in w1.site.vols :: w1.site.vols[v].content;
      (w1.(images := images, trail := [w1.site]), Some(spec))
  }

  /** `power_state` of the source: what is true, or in an untruthful world anything. */
  function SourcePower(w: World): (World, Option<Power>) {
    var w1 := Tick(w);
    (w1, if Now(w).reply.Raised? then None
         else if w.truthful then Some(if SourceRuns(w1.site) then Running else Stopped)
         else Some(Now(w).power))
  }

  function SetSourcePower(w: World, on: bool): World {
    if w.site.source.Some? then
      Move(w, w.site.(source := Some(w.site.source.value.(running := on))))
    else
      w
  }

  function StopSourceVm(w: World): (World, Reply) {
    var w1 := if Now(w).effect then SetSourcePower(Tick(w), false) else Tick(w);
    (Logged(w1, StopSource(Now(w).reply)), Now(w).reply)
  }

  function StartSourceVm(w: World): (World, Reply) {
    var w1 := if Now(w).effect then SetSourcePower(Tick(w), true) else Tick(w);
    (Logged(w1, StartSource(Now(w).reply)), Now(w).reply)
  }

  /** `delete_vm(keep_disks=True)`: the definition may go, the volumes stay. */
  function DeleteSourceVm(w: World): (World, Reply) {
    var w1 := Tick(w);
    var w2 := if Now(w).effect then Move(w1, w1.site.(source := None)) else w1;
    (Logged(w2, DeleteSource(Now(w).reply)), Now(w).reply)
  }

  // -------------------------------------------------------- destination side ---

  /** `create_vm`: a new VM without disks, powered off, under a reference not used before. */
  function CreateDestVm(w: World): (World, Reply, string) {
    var w1 := Tick(w);
    var ref := Now(w).ref;
    var reply := if ref in w1.site.dest then Raised else Now(w).reply;
    var made := reply == Returned(true) || Now(w).effect;
    var w2 := if made && ref != "" && ref !in w1.site.dest
              then Move(w1, w1.site.(dest := w1.site.dest[ref := Vm(false, {})])) else w1;
    (Logged(w2, CreateVm(reply, ref)), reply, ref)
  }

  function SetDestPower(w: World, ref: Ref, on: bool): World {
    if ref in w.site.dest then
      Move(w, w.site.(dest := w.site.dest[ref := w.site.dest[ref].(running := on)]))
    else
      w
  }

  function StopDestVm(w: World, ref: Ref): (World, Reply) {
    var w1 := if Now(w).effect then SetDestPower(Tick(w), ref, false) else Tick(w);
    (Logged(w1, StopVm(ref, Now(w).reply)), Now(w).reply)
  }

  function StartDestVm(w: World, ref: Ref): (World, Reply) {
    var w1 := if Now(w).effect then SetDestPower(Tick(w), ref, true) else Tick(w);
    (Logged(w1, StartVm(ref, Now(w).reply)), Now(w).reply)
  }

  /** `delete_vm(keep_disks=False)`: the VM may go, and any of its own disks with it. */
  function DeleteDestVm(w: World, ref: Ref): (World, Reply) {
    var w1 := Tick(w);
    var a := Now(w);
    var w2 :=
      if ref in w1.site.dest then
        var freed := a.freed * w1.site.dest[ref].disks;
        var dest := if a.effect then w1.site.dest - {ref}
                    else w1.site.dest[ref := w1.site.dest[ref].(disks := w1.site.dest[ref].disks - freed)];
        Move(w1, w1.site.(vols := w1.site.vols - freed, dest := dest))
      else
        w1;
    (Logged(w2, DeleteVm(ref, a.reply)), a.reply)
  }

  /** `power_state` of a destination VM, likewise. */
  function DestPower(w: World, ref: Ref): (World, Option<Power>) {
    var w1 := Tick(w);
    (w1, if Now(w).reply.Raised? then None
         else if w.truthful then
           Some(if ref in w1.site.dest && w1.site.dest[ref].running then Running else Stopped)
         else Some(Now(w).power))
  }

  /**
   * `create_managed_disk`: a new blank volume in the destination plugin's own namespace,
   * attached to the VM and connected to its hosts. It may be left behind when the call raises.
   */
  function CreateManagedDisk(w: World, ref: Ref): (World, Option<string>) {
    var w1 := Tick(w);
    var a := Now(w);
    var name := a.ref;
    if ref !in w1.site.dest || name in w1.site.vols || name in w1.owned then
      (Logged(w1, CreateDisk(ref, None, None)), None)
    else if a.reply.Raised? && !a.effect then
      (Logged(w1, CreateDisk(ref, None, None)), None)
    else
      var serial := Some(Assigned(a.spec.name));
      var vm := w1.site.dest[ref];
      var w2 := Move(w1, w1.site.(vols := w1.site.vols[name := Volume(Some(a.size), serial, [])],
                                  conns := w1.site.conns + {(a.spec.name, name)},
                                  dest := w1.site.dest[ref := vm.(disks := vm.disks + {name})]));
      if a.reply.Raised? then
        (Logged(w2, CreateDisk(ref, None, None)), None)
      else
        (Logged(w2, CreateDisk(ref, Some(name), serial)), Some(name))
  }

  // -------------------------------------------------------------- array side ---

  /** `copy_volume(overwrite=True)`; raising tells nothing about whether the copy was made. */
  function CopyVolume(w: World, source: string, dest: string): (World, Reply) {
    var w1 := Tick(w);
    var done := !Now(w).reply.Raised? || Now(w).effect;
    var w2 := if done then Move(w1, w1.site.(vols := Copy(w1.site.vols, source, dest, true))) else w1;
    (Logged(w2, CopyData(source, dest, Now(w).reply)), Now(w).reply)
  }

  function DisconnectVolume(w: World, group: string, volume: string): (World, Reply) {
    var w1 := Tick(w);
    var done := !Now(w).reply.Raised? || Now(w).effect;
    var w2 := if done then Move(w1, w1.site.(conns := w1.site.conns - {(group, volume)})) else w1;
    (Logged(w2, Disconnect(group, volume, Now(w).reply)), Now(w).reply)
  }

  /** `delete_volume(eradicate=True)` */
  function EradicateVolume(w: World, volume: string): (World, Reply) {
    var w1 := Tick(w);
    var done := !Now(w).reply.Raised? || Now(w).effect;
    var w2 := if done then Move(w1, w1.site.(vols := w1.site.vols - {volume})) else w1;
    (Logged(w2, DeleteVolume(volume, Now(w).reply)), Now(w).reply)
  }
}
