/**
 * What the calls of World keep: the source VM and its volumes (until a move removes them),
 * the volumes of the destination VM, and the images captured at the start.
 */
module Safety {
  import opened Wrappers
  import opened Spec
  import opened Volumes
  import opened Environment

  /** VMs have live disks of their own, and none of the source VM's. */
  ghost predicate WellFormed(s: Site, owned: set<string>) {
    && (forall r :: r in s.dest ==> s.dest[r].disks <= s.vols.Keys && s.dest[r].disks !! owned)
    && (forall r, q :: r in s.dest && q in s.dest && r != q ==> s.dest[r].disks !! s.dest[q].disks)
  }

  /** Every image, or a descendant of it, is in some live volume. */
  ghost predicate Kept(s: Site, images: map<string, Content>) {
    forall v :: v in images ==> exists u :: u in s.vols && images[v] <= s.vols[u].content
  }

  /** As long as the source is stopped its volumes are what they were when it stopped. */
  ghost predicate Still(w: World) {
    w.site.source.Some? && !SourceRuns(w.site) ==>
      forall v :: v in w.owned && v in w.site.vols ==>
        v in w.halted && w.site.vols[v].content == w.halted[v].content
  }

  ghost predicate Sound(w: World) {
    && WellFormed(w.site, w.owned)
    && Still(w)
    && w.images.Keys <= w.owned
    && (w.trail != [] ==> w.trail[|w.trail| - 1] == w.site)
    && forall i :: 0 <= i < |w.trail| ==> Kept(w.trail[i], w.images)
  }

  /** The captured images are still in the volumes they were captured from. */
  ghost predicate SourceHolds(w: World) {
    forall v :: v in w.images ==> v in w.site.vols && w.images[v] <= w.site.vols[v].content
  }

  ghost predicate Safe(w: World) {
    Sound(w) && SourceHolds(w)
  }

  /** Calls that overwrite or disconnect a source volume, delete the source VM, or delete any volume. */
  predicate Touches(e: Event, owned: set<string>) {
    match e
    case DeleteSource(_) => true
    case CopyData(_, dest, _) => dest in owned
    case Disconnect(_, volume, _) => volume in owned
    case DeleteVolume(_, _) => true
    case _ => false
  }

  /** The source volumes are the same volumes, and differ only by what the source guest wrote. */
  ghost predicate SourceStep(s: Site, t: Site, owned: set<string>) {
    && s.source.Some? == t.source.Some?
    && (forall v :: v in owned ==> (v in s.vols <==> v in t.vols))
    && (forall v :: v in owned && v in s.vols ==>
          && s.vols[v].content <= t.vols[v].content
          && t.vols[v] == s.vols[v].(content := t.vols[v].content))
    && (forall g, v :: v in owned ==> ((g, v) in s.conns <==> (g, v) in t.conns))
  }

  /** From `w` to `x` the source VM and its volumes were left alone. */
  ghost predicate Alone(w: World, x: World) {
    && w.owned == x.owned && w.oracle == x.oracle && w.truthful == x.truthful
    && SourceStep(w.site, x.site, w.owned)
    && w.log <= x.log
    && forall i :: |w.log| <= i < |x.log| ==> !Touches(x.log[i], w.owned)
  }

  lemma OwnedStays(w: World, x: World)
    requires Alone(w, x)
    ensures x.owned == w.owned && forall v :: v in w.owned ==> (v in x.site.vols <==> v in w.site.vols)
  {}

  lemma AloneReflexive(w: World)
    ensures Alone(w, w)
  {}

  lemma AloneTransitive(w: World, x: World, y: World)
    requires Alone(w, x) && Alone(x, y)
    ensures Alone(w, y)
  {}

  /** The destination VM kept its disks with all their data; `but` may be overwritten. */
  ghost predicate SiteKeeps(s: Site, t: Site, ref: Ref, but: set<string>) {
    ref in s.dest ==>
      && ref in t.dest
      && s.dest[ref].disks <= t.dest[ref].disks
      && forall v :: v in s.dest[ref].disks && v in s.vols && v !in but ==>
           && v in t.vols
           && s.vols[v].content <= t.vols[v].content
           && t.vols[v] == s.vols[v].(content := t.vols[v].content)
  }

  /** And, as the VM is off, it stays off and not even its guest writes. */
  ghost predicate SiteQuiet(s: Site, t: Site, ref: Ref, but: set<string>) {
    ref in s.dest && ref in t.dest && !s.dest[ref].running ==>
      && !t.dest[ref].running
      && forall v :: v in s.dest[ref].disks && v in s.vols && v !in but ==>
           v in t.vols && t.vols[v] == s.vols[v]
  }

  /** From `w` to `x` nothing is lost on the destination, and a stopped source stays stopped. */
  ghost predicate Keeps(w: World, x: World, ref: Ref, but: set<string>) {
    && (!SourceRuns(w.site) ==> !SourceRuns(x.site) && x.halted == w.halted)
    && w.images == x.images && w.owned == x.owned && w.truthful == x.truthful
    && SiteKeeps(w.site, x.site, ref, but)
  }

  ghost predicate Calm(w: World, x: World, ref: Ref, but: set<string>) {
    Keeps(w, x, ref, but) && SiteQuiet(w.site, x.site, ref, but)
  }

  lemma KeepsTransitive(w: World, x: World, y: World, ref: Ref, but: set<string>)
    requires Keeps(w, x, ref, but) && Keeps(x, y, ref, but)
    ensures Keeps(w, y, ref, but)
  {}

  lemma KeepsReflexive(w: World, ref: Ref)
    ensures Keeps(w, w, ref, {})
  {}

  lemma CalmReflexive(w: World, ref: Ref)
    ensures Calm(w, w, ref, {})
  {}

  /** Both at once: what any call does that neither starts nor overwrites anything. */
  ghost predicate Gentle(w: World, x: World, ref: Ref) {
    Alone(w, x) && Calm(w, x, ref, {})
  }

  lemma GentleReflexive(w: World, ref: Ref)
    ensures Gentle(w, w, ref)
  {}

  lemma GentleTransitive(w: World, x: World, y: World, ref: Ref)
    requires Gentle(w, x, ref) && Gentle(x, y, ref)
    ensures Gentle(w, y, ref)
  {}

  lemma GentleKeepsVm(w: World, x: World, ref: Ref)
    requires Gentle(w, x, ref)
    ensures ref in w.site.dest ==> ref in x.site.dest
  {}

  lemma GentleKeeps(w: World, x: World, y: World, ref: Ref)
    requires Keeps(w, x, ref, {}) && Gentle(x, y, ref)
    ensures Keeps(w, y, ref, {})
  {}

  // ------------------------------------------------------------------- moves ---

  /** A change of the site that leaves the source alone. */
  ghost predicate Harmless(s: Site, t: Site, owned: set<string>) {
    && WellFormed(t, owned)
    && SourceStep(s, t, owned)
    && (!SourceRuns(s) && !SourceRuns(t) ==>
          forall v :: v in owned && v in s.vols ==> t.vols[v] == s.vols[v])
  }

  /** Any such change keeps the world safe. */
  lemma MoveIsSafe(w: World, s: Site)
    requires Safe(w) && Harmless(w.site, s, w.owned)
    ensures Safe(Move(w, s)) && Alone(w, Move(w, s))
  {
    var x := Move(w, s);
    forall v | v in x.images
      ensures v in s.vols && x.images[v] <= s.vols[v].content
    {
      assert x.images[v] <= w.site.vols[v].content <= s.vols[v].content;
    }
    assert Kept(s, x.images);
    forall i | 0 <= i < |x.trail| ensures Kept(x.trail[i], x.images) {
      if i < |w.trail| {
        assert x.trail[i] == w.trail[i];
      }
    }
  }

  lemma DriftIsGentle(s: Site, owned: set<string>, a: Answer)
    requires WellFormed(s, owned)
    ensures var d := Drift(s, owned, a);
            && WellFormed(d, owned)
            && SourceStep(s, d, owned)
            && (SourceRuns(d) ==> SourceRuns(s))
            && d.vols.Keys == s.vols.Keys && d.dest.Keys == s.dest.Keys
            && (!SourceRuns(s) ==> forall v :: v in owned && v in s.vols ==> d.vols[v] == s.vols[v])
  {}

  lemma DriftIsHarmless(s: Site, owned: set<string>, a: Answer)
    requires WellFormed(s, owned)
    ensures Harmless(s, Drift(s, owned, a), owned)
  {}

  lemma SafeIsWellFormed(w: World)
    requires Safe(w)
    ensures WellFormed(w.site, w.owned)
  {}

  /** A step of the environment alone. */
  lemma TickIsSafe(w: World, ref: Ref)
    requires Safe(w)
    ensures Safe(Tick(w)) && Alone(w, Tick(w)) && Calm(w, Tick(w), ref, {})
  {
    hide Safe, Alone, Calm, Drift, Harmless, WellFormed;
    SafeIsWellFormed(w);
    var d := Drift(w.site, w.owned, Now(w));
    DriftIsHarmless(w.site, w.owned, Now(w));
    TickIsCalm(w, ref);
    MoveIsSafe(w, d);
    ClockIsSafe(w, Move(w, d), w.clock + 1);
  }

  lemma ClockIsSafe(w: World, m: World, clock: nat)
    requires Safe(m) && Alone(w, m)
    ensures Safe(m.(clock := clock)) && Alone(w, m.(clock := clock))
  {}

  lemma DriftIsQuiet(s: Site, owned: set<string>, a: Answer, ref: Ref)
    requires WellFormed(s, owned)
    ensures SiteKeeps(s, Drift(s, owned, a), ref, {}) && SiteQuiet(s, Drift(s, owned, a), ref, {})
  {}

  lemma TickIsCalm(w: World, ref: Ref)
    requires WellFormed(w.site, w.owned)
    ensures Calm(w, Tick(w), ref, {})
  {
    DriftIsGentle(w.site, w.owned, Now(w));
    DriftIsQuiet(w.site, w.owned, Now(w), ref);
  }

  lemma LogIsSafe(w: World, e: Event)
    requires Safe(w) && !Touches(e, w.owned)
    ensures Safe(Logged(w, e)) && Alone(w, Logged(w, e))
  {}

  /** A call is a step of the environment to `t`, then at most a harmless change to `s`. */
  lemma CallIsSafe(w: World, t: World, s: Site, m: World, e: Event)
    requires Safe(t) && Alone(w, t) && !Touches(e, t.owned)
    requires m == t || (m == Move(t, s) && Harmless(t.site, s, t.owned))
    ensures Safe(Logged(m, e)) && Alone(w, Logged(m, e))
  {
    if m != t {
      MoveIsSafe(t, s);
      AloneTransitive(w, t, m);
    }
    LogIsSafe(m, e);
    AloneTransitive(w, m, Logged(m, e));
  }

  lemma CalmWeaker(w: World, x: World, ref: Ref, but: set<string>)
    requires Calm(w, x, ref, {})
    ensures Calm(w, x, ref, but)
  {}

  lemma CallKeeps(w: World, t: World, s: Site, m: World, e: Event, ref: Ref, but: set<string>)
    requires Keeps(w, t, ref, but)
    requires m == t || (m == Move(t, s) && SiteKeeps(t.site, s, ref, but) && (SourceRuns(s) ==> SourceRuns(t.site)))
    ensures Keeps(w, Logged(m, e), ref, but)
  {}

  lemma CallIsCalm(w: World, t: World, s: Site, m: World, e: Event, ref: Ref, but: set<string>)
    requires Calm(w, t, ref, but)
    requires m == t || (m == Move(t, s) && (SourceRuns(s) ==> SourceRuns(t.site))
                        && SiteKeeps(t.site, s, ref, but) && SiteQuiet(t.site, s, ref, but))
    ensures Calm(w, Logged(m, e), ref, but)
  {}

  // ------------------------------------------- calls before the commit point ---

  function WithSourcePower(s: Site, on: bool): Site
    requires s.source.Some?
  {
    s.(source := Some(s.source.value.(running := on)))
  }

  lemma SourcePowerIsHarmless(s: Site, owned: set<string>, on: bool, ref: Ref)
    requires WellFormed(s, owned) && s.source.Some?
    ensures var t := WithSourcePower(s, on);
            Harmless(s, t, owned) && SiteKeeps(s, t, ref, {}) && SiteQuiet(s, t, ref, {})
  {}

  lemma StopSourceIsSafe(w: World, ref: Ref)
    requires Safe(w)
    ensures var x := StopSourceVm(w).0; Safe(x) && Alone(w, x) && Calm(w, x, ref, {})
  {
    hide Safe, Alone, Keeps, Calm, Harmless, WellFormed, SiteKeeps, SiteQuiet;
    TickIsSafe(w, ref);
    SafeIsWellFormed(Tick(w));
    var t, e := Tick(w), StopSource(Now(w).reply);
    var s := if t.site.source.Some? then WithSourcePower(t.site, false) else t.site;
    if t.site.source.Some? {
      SourcePowerIsHarmless(t.site, t.owned, false, ref);
    }
    var m := if Now(w).effect then SetSourcePower(t, false) else t;
    CallIsSafe(w, t, s, m, e);
    CallIsCalm(w, t, s, m, e, ref, {});
  }

  lemma StartSourceIsSafe(w: World)
    requires Safe(w)
    ensures var x := StartSourceVm(w).0; Safe(x) && Alone(w, x)
  {
    hide Safe, Alone, Keeps, Calm, Harmless, WellFormed, SiteKeeps, SiteQuiet;
    TickIsSafe(w, "");
    SafeIsWellFormed(Tick(w));
    var t, e := Tick(w), StartSource(Now(w).reply);
    var s := if t.site.source.Some? then WithSourcePower(t.site, true) else t.site;
    if t.site.source.Some? {
      SourcePowerIsHarmless(t.site, t.owned, true, "");
    }
    var m := if Now(w).effect then SetSourcePower(t, true) else t;
    CallIsSafe(w, t, s, m, e);
  }

  function WithVm(s: Site, ref: Ref, vm: Vm): Site {
    s.(dest := s.dest[ref := vm])
  }

  lemma AddVmIsHarmless(s: Site, owned: set<string>, ref: Ref)
    requires WellFormed(s, owned) && ref !in s.dest
    ensures Harmless(s, WithVm(s, ref, Vm(false, {})), owned)
  {}

  lemma CreateVmIsSafe(w: World)
    requires Safe(w)
    ensures var (x, reply, ref) := CreateDestVm(w);
            && Safe(x) && Alone(w, x)
            && (reply == Returned(true) && ref != "" ==> ref in x.site.dest && !x.site.dest[ref].running)
  {
    hide Safe, Alone, Keeps, Calm, Harmless, WellFormed, SiteKeeps, SiteQuiet;
    TickIsSafe(w, "");
    SafeIsWellFormed(Tick(w));
    var t, ref := Tick(w), Now(w).ref;
    var s := WithVm(t.site, ref, Vm(false, {}));
    var reply := if ref in t.site.dest then Raised else Now(w).reply;
    var m := if (reply == Returned(true) || Now(w).effect) && ref != "" && ref !in t.site.dest
             then Move(t, s) else t;
    if ref !in t.site.dest {
      AddVmIsHarmless(t.site, t.owned, ref);
    }
    CallIsSafe(w, t, s, m, CreateVm(reply, ref));
  }

  lemma PowerIsHarmless(s: Site, owned: set<string>, ref: Ref, on: bool)
    requires WellFormed(s, owned) && ref in s.dest
    ensures Harmless(s, WithVm(s, ref, s.dest[ref].(running := on)), owned)
  {}

  lemma StopVmIsSafe(w: World, ref: Ref)
    requires Safe(w)
    ensures var x := StopDestVm(w, ref).0; Safe(x) && Alone(w, x)
  {
    hide Safe, Alone, Keeps, Calm, Harmless, WellFormed, SiteKeeps, SiteQuiet;
    TickIsSafe(w, ref);
    SafeIsWellFormed(Tick(w));
    var t := Tick(w);
    var s := if ref in t.site.dest then WithVm(t.site, ref, t.site.dest[ref].(running := false)) else t.site;
    if ref in t.site.dest {
      PowerIsHarmless(t.site, t.owned, ref, false);
    }
    var m := if Now(w).effect then SetDestPower(t, ref, false) else t;
    CallIsSafe(w, t, s, m, StopVm(ref, Now(w).reply));
  }

  lemma StartVmIsSafe(w: World, ref: Ref)
    requires Safe(w)
    ensures var x := StartDestVm(w, ref).0; Safe(x) && Alone(w, x) && Keeps(w, x, ref, {})
  {
    hide Safe, Alone, Calm, Harmless, WellFormed;
    TickIsSafe(w, ref);
    SafeIsWellFormed(Tick(w));
    var t := Tick(w);
    var s := if ref in t.site.dest then WithVm(t.site, ref, t.site.dest[ref].(running := true)) else t.site;
    if ref in t.site.dest {
      PowerIsHarmless(t.site, t.owned, ref, true);
    }
    var m := if Now(w).effect then SetDestPower(t, ref, true) else t;
    CallIsSafe(w, t, s, m, StartVm(ref, Now(w).reply));
    CallKeeps(w, t, s, m, StartVm(ref, Now(w).reply), ref, {});
  }

  lemma FreeingIsHarmless(s: Site, owned: set<string>, ref: Ref, freed: set<string>)
    requires WellFormed(s, owned) && ref in s.dest && freed <= s.dest[ref].disks
    ensures var left := s.vols - freed;
            && Harmless(s, s.(vols := left, dest := s.dest - {ref}), owned)
            && Harmless(s, s.(vols := left,
                              dest := s.dest[ref := s.dest[ref].(disks := s.dest[ref].disks - freed)]), owned)
  {
    assert forall r :: r in s.dest && r != ref ==> s.dest[r].disks !! freed;
  }

  lemma DeleteVmIsSafe(w: World, ref: Ref)
    requires Safe(w)
    ensures var x := DeleteDestVm(w, ref).0; Safe(x) && Alone(w, x)
  {
    hide Safe, Alone, Keeps, Calm, Harmless, WellFormed, SiteKeeps, SiteQuiet;
    TickIsSafe(w, ref);
    SafeIsWellFormed(Tick(w));
    var t, a := Tick(w), Now(w);
    var e := DeleteVm(ref, a.reply);
    if ref in t.site.dest {
      var freed := a.freed * t.site.dest[ref].disks;
      FreeingIsHarmless(t.site, t.owned, ref, freed);
      var dest := if a.effect then t.site.dest - {ref}
                  else t.site.dest[ref := t.site.dest[ref].(disks := t.site.dest[ref].disks - freed)];
      var s := t.site.(vols := t.site.vols - freed, dest := dest);
      CallIsSafe(w, t, s, Move(t, s), e);
    } else {
      CallIsSafe(w, t, t.site, t, e);
    }
  }

  /** `s` with a new blank volume attached to a VM of the destination. */
  function WithDisk(s: Site, ref: Ref, name: string, vol: Volume, group: string): Site
    requires ref in s.dest
  {
    s.(vols := s.vols[name := vol],
       conns := s.conns + {(group, name)},
       dest := s.dest[ref := s.dest[ref].(disks := s.dest[ref].disks + {name})])
  }

  lemma AddDiskIsHarmless(s: Site, owned: set<string>, ref: Ref, name: string, vol: Volume, group: string)
    requires WellFormed(s, owned) && ref in s.dest && name !in s.vols && name !in owned
    ensures var d := WithDisk(s, ref, name, vol, group);
            Harmless(s, d, owned) && SiteKeeps(s, d, ref, {}) && SiteQuiet(s, d, ref, {})
  {}

  /** A managed disk is a new blank volume of the destination VM, and of no other. */
  lemma CreateDiskIsSafe(w: World, ref: Ref)
    requires Safe(w)
    ensures var (x, made) := CreateManagedDisk(w, ref);
            && Safe(x) && Alone(w, x) && Calm(w, x, ref, {})
            && (made.Some? ==>
                  && made.value !in w.site.vols && made.value !in w.owned
                  && ref in x.site.dest && made.value in x.site.dest[ref].disks
                  && made.value in x.site.vols && x.site.vols[made.value].serial.Some?
                  && x.log == w.log + [CreateDisk(ref, made, x.site.vols[made.value].serial)])
  {
    hide Safe, Alone, Keeps, Calm, Harmless, WellFormed, SiteKeeps, SiteQuiet;
    TickIsSafe(w, ref);
    SafeIsWellFormed(Tick(w));
    var t, a := Tick(w), Now(w);
    var name, vol := a.ref, Volume(Some(a.size), Some(Assigned(a.spec.name)), []);
    if ref in t.site.dest && name !in t.site.vols && name !in t.owned && (a.effect || a.reply.Returned?) {
      var s := WithDisk(t.site, ref, name, vol, a.spec.name);
      AddDiskIsHarmless(t.site, t.owned, ref, name, vol, a.spec.name);
      var made := if a.reply.Raised? then None else Some(name);
      var e := CreateDisk(ref, made, if made.Some? then vol.serial else None);
      CallIsSafe(w, t, s, Move(t, s), e);
      CallIsCalm(w, t, s, Move(t, s), e, ref, {});
    } else {
      CallIsSafe(w, t, t.site, t, CreateDisk(ref, None, None));
      CallIsCalm(w, t, t.site, t, CreateDisk(ref, None, None), ref, {});
    }
  }

  lemma OverwriteIsHarmless(s: Site, owned: set<string>, source: string, dest: string, ref: Ref)
    requires WellFormed(s, owned) && ref in s.dest && dest in s.dest[ref].disks
    ensures var d := s.(vols := Copy(s.vols, source, dest, true));
            Harmless(s, d, owned) && SiteKeeps(s, d, ref, {dest}) && SiteQuiet(s, d, ref, {dest})
  {}

  lemma CalmKeepsDisk(w: World, t: World, dest: string, ref: Ref)
    requires Calm(w, t, ref, {}) && ref in w.site.dest && dest in w.site.dest[ref].disks
    ensures ref in t.site.dest && dest in t.site.dest[ref].disks
  {}

  /** Copying onto a volume of the destination VM leaves everything else as it was. */
  lemma CopyIsSafe(w: World, source: string, dest: string, ref: Ref)
    requires Safe(w) && ref in w.site.dest && dest in w.site.dest[ref].disks
    ensures var (x, reply) := CopyVolume(w, source, dest);
            && Safe(x) && Alone(w, x) && Calm(w, x, ref, {dest})
  {
    hide Safe, Alone, Keeps, Calm, Harmless, WellFormed, SiteKeeps, SiteQuiet;
    TickIsSafe(w, ref);
    SafeIsWellFormed(Tick(w));
    var t := Tick(w);
    var s := t.site.(vols := Copy(t.site.vols, source, dest, true));
    CalmKeepsDisk(w, t, dest, ref);
    OverwriteIsHarmless(t.site, t.owned, source, dest, ref);
    var m := if !Now(w).reply.Raised? || Now(w).effect then Move(t, s) else t;
    CallIsSafe(w, t, s, m, CopyData(source, dest, Now(w).reply));
    CalmWeaker(w, t, ref, {dest});
    CallIsCalm(w, t, s, m, CopyData(source, dest, Now(w).reply), ref, {dest});
  }

  /** A copy that returned put the source's data on the destination volume, which is still itself. */
  lemma CopyMovesData(w: World, source: string, dest: string)
    requires WellFormed(w.site, w.owned) && dest in w.site.vols && CopyVolume(w, source, dest).1.Returned?
    ensures var x := CopyVolume(w, source, dest).0;
            && dest in x.site.vols
            && (w.site.vols[dest].serial.Some? ==> x.site.vols[dest].serial == w.site.vols[dest].serial)
            && (source in w.site.vols ==>
                  source in x.site.vols && x.site.vols[dest].content == x.site.vols[source].content)
  {}

  // -------------------------------------------- calls from the commit point on ---

  /** The k-th destination disk holds at least the image captured from the k-th source disk. */
  ghost predicate Carried(s: Site, ref: Ref, images: map<string, Content>, from: seq<string>, to: seq<string>) {
    && ref in s.dest && |from| == |to|
    && forall k :: 0 <= k < |from| ==>
         && to[k] in s.dest[ref].disks && to[k] in s.vols
         && (from[k] in images ==> images[from[k]] <= s.vols[to[k]].content)
  }

  ghost predicate Covered(images: map<string, Content>, from: seq<string>) {
    forall v :: v in images ==> v in from
  }

  lemma CarriedIsKept(s: Site, ref: Ref, images: map<string, Content>, from: seq<string>, to: seq<string>)
    requires Carried(s, ref, images, from, to) && Covered(images, from)
    ensures Kept(s, images)
  {}

  lemma CarriedSurvives(s: Site, t: Site, ref: Ref, images: map<string, Content>,
                        from: seq<string>, to: seq<string>)
    requires Carried(s, ref, images, from, to) && SiteKeeps(s, t, ref, {})
    ensures Carried(t, ref, images, from, to)
  {}

  /** The destination has taken over: the source is no longer needed. */
  ghost predicate TakenOver(w: World, ref: Ref, from: seq<string>, to: seq<string>) {
    Sound(w) && Carried(w.site, ref, w.images, from, to) && Covered(w.images, from)
  }

  /** A change of the site that may take the source, but nothing from the destination VM. */
  ghost predicate Spares(s: Site, t: Site, owned: set<string>, ref: Ref) {
    && WellFormed(t, owned)
    && SiteKeeps(s, t, ref, {}) && SiteQuiet(s, t, ref, {})
    && (SourceRuns(t) ==> SourceRuns(s))
    && (t.source.Some? && !SourceRuns(t) ==>
          && s.source.Some?
          && (!SourceRuns(s) ==>
                forall v :: v in owned && v in t.vols ==> v in s.vols && t.vols[v] == s.vols[v]))
  }

  lemma MoveIsSound(w: World, s: Site, ref: Ref, from: seq<string>, to: seq<string>)
    requires TakenOver(w, ref, from, to) && Spares(w.site, s, w.owned, ref)
    ensures TakenOver(Move(w, s), ref, from, to)
  {
    CarriedSurvives(w.site, s, ref, w.images, from, to);
    CarriedIsKept(s, ref, w.images, from, to);
    var x := Move(w, s);
    forall i | 0 <= i < |x.trail| ensures Kept(x.trail[i], x.images) {
      if i < |w.trail| {
        assert x.trail[i] == w.trail[i];
      }
    }
  }

  lemma DriftSpares(s: Site, owned: set<string>, a: Answer, ref: Ref)
    requires WellFormed(s, owned)
    ensures Spares(s, Drift(s, owned, a), owned, ref)
  {
    DriftIsGentle(s, owned, a);
    DriftIsQuiet(s, owned, a, ref);
  }

  lemma ClockIsSound(m: World, clock: nat, ref: Ref, from: seq<string>, to: seq<string>)
    requires TakenOver(m, ref, from, to)
    ensures TakenOver(m.(clock := clock), ref, from, to)
  {}

  lemma TickKeepsOver(w: World, ref: Ref, from: seq<string>, to: seq<string>)
    requires TakenOver(w, ref, from, to)
    ensures TakenOver(Tick(w), ref, from, to) && Calm(w, Tick(w), ref, {})
  {
    var d := Drift(w.site, w.owned, Now(w));
    DriftSpares(w.site, w.owned, Now(w), ref);
    MoveIsSound(w, d, ref, from, to);
    TickIsCalm(w, ref);
    hide Drift, Move, Calm, Spares;
    ClockIsSound(Move(w, d), w.clock + 1, ref, from, to);
  }

  /** From the commit point on: a step of the environment to `t`, then at most a change that spares. */
  lemma CallKeepsOver(w: World, t: World, s: Site, m: World, e: Event, ref: Ref, from: seq<string>, to: seq<string>)
    requires Calm(w, t, ref, {}) && TakenOver(t, ref, from, to) && Spares(t.site, s, t.owned, ref)
    requires m == t || m == Move(t, s)
    ensures TakenOver(Logged(m, e), ref, from, to) && Calm(w, Logged(m, e), ref, {})
  {
    MoveIsSound(t, s, ref, from, to);
    CallIsCalm(w, t, s, m, e, ref, {});
    hide Calm;
  }

  lemma TakingSourceSpares(s: Site, owned: set<string>, group: string, v: string, ref: Ref)
    requires WellFormed(s, owned)
    ensures Spares(s, s.(source := None), owned, ref)
    ensures Spares(s, s.(conns := s.conns - {(group, v)}), owned, ref)
    ensures v in owned ==> Spares(s, s.(vols := s.vols - {v}), owned, ref)
  {}

  lemma DeleteSourceKeepsOver(w: World, ref: Ref, from: seq<string>, to: seq<string>)
    requires TakenOver(w, ref, from, to)
    ensures var x := DeleteSourceVm(w).0; TakenOver(x, ref, from, to) && Calm(w, x, ref, {})
  {
    TickKeepsOver(w, ref, from, to);
    var t := Tick(w);
    TakingSourceSpares(t.site, t.owned, "", "", ref);
    hide TakenOver, Calm, Spares;
    var s := t.site.(source := None);
    var m := if Now(w).effect then Move(t, s) else t;
    CallKeepsOver(w, t, s, m, DeleteSource(Now(w).reply), ref, from, to);
  }

  lemma DisconnectKeepsOver(w: World, group: string, v: string, ref: Ref, from: seq<string>, to: seq<string>)
    requires TakenOver(w, ref, from, to)
    ensures var x := DisconnectVolume(w, group, v).0; TakenOver(x, ref, from, to) && Calm(w, x, ref, {})
  {
    TickKeepsOver(w, ref, from, to);
    var t := Tick(w);
    TakingSourceSpares(t.site, t.owned, group, v, ref);
    hide TakenOver, Calm, Spares;
    var s := t.site.(conns := t.site.conns - {(group, v)});
    var m := if !Now(w).reply.Raised? || Now(w).effect then Move(t, s) else t;
    CallKeepsOver(w, t, s, m, Disconnect(group, v, Now(w).reply), ref, from, to);
  }

  /** Eradicating a volume of the source takes nothing from the destination. */
  lemma EradicateKeepsOver(w: World, v: string, ref: Ref, from: seq<string>, to: seq<string>)
    requires TakenOver(w, ref, from, to) && v in w.owned
    ensures var x := EradicateVolume(w, v).0; TakenOver(x, ref, from, to) && Calm(w, x, ref, {})
  {
    TickKeepsOver(w, ref, from, to);
    var t := Tick(w);
    TakingSourceSpares(t.site, t.owned, "", v, ref);
    hide TakenOver, Calm, Spares;
    var s := t.site.(vols := t.site.vols - {v});
    var m := if !Now(w).reply.Raised? || Now(w).effect then Move(t, s) else t;
    CallKeepsOver(w, t, s, m, DeleteVolume(v, Now(w).reply), ref, from, to);
  }
}
