/** The volumes of a FlashArray, with the copy semantics of the in-memory client. */
module Volumes {
  import opened Wrappers
  import opened Spec

  /** What was ever written to a volume, oldest first: a longer log descends from its prefixes. */
  type Content = seq<nat>

  datatype Volume = Volume(size: Option<nat>, serial: Option<Serial>, content: Content)

  type Store = map<string, Volume>

  const BLANK := Volume(None, None, [])

  /** `copy_volume`: the data and size of `source` land on `dest`. */
  function Copy(vols: Store, source: string, dest: string, overwrite: bool): (after: Store)
    ensures after.Keys == vols.Keys + {dest}
    ensures forall v :: v in vols && v != dest ==> after[v] == vols[v]
  {
    var image := if source in vols then vols[source] else BLANK;
    var kept :=
      if overwrite && dest in vols && vols[dest].serial.Some? then
        image.(serial := vols[dest].serial)
      else if image.serial.None? then
        image.(serial := Some(Digest(dest)))
      else
        image;
    vols[dest := kept]
  }

  /** Overwriting an existing volume moves the data and leaves its name and serial as they were. */
  lemma OverwriteKeepsIdentity(vols: Store, source: string, dest: string)
    requires source in vols && dest in vols && vols[dest].serial.Some?
    ensures var after := Copy(vols, source, dest, true);
            && after[dest] == vols[source].(serial := vols[dest].serial)
            && after.Keys == vols.Keys
            && after[source].content == vols[source].content
  {}

  /** The volumes of the in-memory array, changed in place. */
  class MockVolumes {
    var volumes: Store

    constructor (volumes: Store)
      ensures this.volumes == volumes
    {
      this.volumes := volumes;
    }

    /** The data moves; an overwritten volume keeps its serial, and no other volume changes. */
    method CopyVolume(source: string, dest: string, overwrite: bool)
      modifies this
      ensures volumes == Copy(old(volumes), source, dest, overwrite)
      ensures source in old(volumes) ==> volumes[dest].content == old(volumes)[source].content
      ensures overwrite && dest in old(volumes) && old(volumes)[dest].serial.Some? ==>
                volumes[dest].serial == old(volumes)[dest].serial
      ensures forall v :: v in old(volumes) && v != dest ==> v in volumes && volumes[v] == old(volumes)[v]
    {
      var existing := if dest in volumes then Some(volumes[dest]) else None;
      var image := if source in volumes then volumes[source] else BLANK;
      volumes := volumes[dest := image];
      if overwrite && existing.Some? && existing.value.serial.Some? {
        volumes := volumes[dest := image.(serial := existing.value.serial)];
      } else if volumes[dest].serial.None? {
        volumes := volumes[dest := image.(serial := Some(Digest(dest)))];
      }
    }
  }
}
