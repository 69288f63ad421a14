/** The normalized VM description that one hypervisor captures and another rebuilds. */
module Spec {
  import opened Wrappers

  /** A volume serial: one the array assigned, or the digest the mock array derives from a name. */
  datatype Serial = Assigned(text: string) | Digest(name: string)

  datatype DiskIdentity = DiskIdentity(faVolume: string, serial: Option<Serial>, sizeBytes: Option<nat>)

  datatype DiskSpec = DiskSpec(identity: DiskIdentity, bus: string, order: int, boot: bool, sourceRef: string)

  datatype NicSpec = NicSpec(mac: string, sourceNetwork: string)

  datatype VmSpec = VmSpec(name: string, disks: seq<DiskSpec>, nics: seq<NicSpec>)

  function VolumeOf(d: DiskSpec): string {
    d.identity.faVolume
  }

  /** The names of the array volumes that back the disks of a VM. */
  function BackingVolumes(spec: VmSpec): set<string> {
    set k | 0 <= k < |spec.disks| :: VolumeOf(spec.disks[k])
  }

  /** The same disks up to serial and size, which `_resolve_volumes` fills in. */
  ghost predicate SameDisks(a: seq<DiskSpec>, b: seq<DiskSpec>) {
    && |a| == |b|
    && forall k :: 0 <= k < |a| ==>
         a[k].(identity := b[k].identity) == b[k] && VolumeOf(a[k]) == VolumeOf(b[k])
  }

  lemma SameDisksReflexive(a: seq<DiskSpec>)
    ensures SameDisks(a, a)
  {}
}
