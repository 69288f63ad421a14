/** The Nutanix connector as the object it is: a cache of ETags that its calls update. */
module Prism {
  import opened Wrappers
  import opened Etags
  import EtagTraces
  import EtagRules
  import Text

  /** With a kind script from here on, a settled connector stays settled and is refused nothing. */
  ghost predicate Kept(script: Script, was: State, now: State) {
    EtagRules.Settled(was) && EtagRules.Kind(script, was.asked) ==>
      EtagRules.Settled(now) && EtagRules.Kind(script, now.asked) && EtagRules.Unrefused(was, now)
  }

  lemma CallKeeps(script: Script, was: State, call: Call)
    ensures Kept(script, was, Do(was, script, call))
  {
    if EtagRules.Settled(was) && EtagRules.Kind(script, was.asked) {
      EtagTraces.FollowsSelf(was, script);
      EtagRules.FineDo(was, script, was, call);
    }
    hide Do, EtagRules.Settled, EtagRules.Kind;
  }

  class Connector {
    const script: Script
    var etags: map<string, Tag>
    var server: Server
    var asked: nat

    /** Nothing is cached and nothing is at work: no request can be refused. */
    constructor (script: Script, versions: map<string, Tag>, strict: bool)
      ensures this.script == script
      ensures View() == State(map[], Server(versions, versions.Keys, map[], strict, 0), 0)
      ensures EtagRules.Settled(View())
    {
      this.script := script;
      etags, server, asked := map[], Server(versions, versions.Keys, map[], strict, 0), 0;
    }

    function View(): State
      reads this
    {
      State(etags, server, asked)
    }

    /** One HTTP request: replay the cached ETag, then record, drop or keep it by the reply. */
    method Api(req: Request) returns (result: Result<Reply>)
      modifies this
      ensures (View(), result) == Etags.Api(old(View()), script, req)
    {
      var ans := script(asked);
      var key := KeyOf(req);
      var ifMatch := None;
      if key.Some? && key.value in etags {
        ifMatch := Some(etags[key.value]);
      }
      server := Advance(server, ans);
      asked := asked + 1;
      if ans.delivery.Declined? {
        return Failed(Status(500));
      }
      if ans.delivery.Down? {
        return Failed(NoReply);
      }
      var served := Serve(server, req, ifMatch, ans, asked - 1);
      server, result := served.0, served.1;
      if ans.delivery.Lost? {
        return Failed(NoReply);
      }
      if result.Done? && key.Some? {
        if result.value.tag.Some? {
          etags := etags[key.value := result.value.tag.value];
        } else if req.Mutate? {
          etags := etags - {key.value};
        }
      }
    }

    method FindVm(vm: string) returns (result: Result<Reply>)
      modifies this
      ensures (View(), result) == Etags.FindVm(old(View()), script, vm)
    {
      result := Api(GetVm(vm));
      if result.Done? && result.value.empty {
        result := Failed(Invalid);
      }
    }

    method EnsureVmEtag(vm: string) returns (result: Result<()>)
      modifies this
      ensures (View(), result) == EnsureEtag(old(View()), script, vm)
    {
      hide Etags.Api;
      if vm in etags {
        return Done(());
      }
      var got := FindVm(vm);
      result := if got.Done? then Done(()) else Failed(got.fault);
    }

    /** Polls the task until it ends, a poll fails, or the deadline passes. */
    method AwaitTask(task: nat) returns (result: Result<()>)
      modifies this
      ensures (View(), result) == Await(old(View()), script, task, POLLS)
    {
      hide Etags.Api;
      var polls := POLLS;
      while true
        invariant Await(View(), script, task, polls) == Await(old(View()), script, task, POLLS)
        decreases polls
      {
        var got := Api(GetTask(task));
        if got.Failed? {
          return Failed(got.fault);
        }
        if got.value.progress != Unfinished {
          return if got.value.progress == Ended then Done(()) else Failed(TaskFailed);
        }
        if polls == 0 {
          return Failed(TimedOut);
        }
        polls := polls - 1;
      }
    }

    method Mutation(vm: string, deletes: bool) returns (result: Result<()>)
      modifies this
      ensures (View(), result) == Change(old(View()), script, vm, deletes)
    {
      hide Etags.Api, Await;
      var got := Api(Mutate(vm, deletes));
      if got.Failed? {
        return Failed(got.fault);
      }
      result := Done(());
      if got.value.task.Some? {
        result := AwaitTask(got.value.task.value);
      }
    }

    method StopVm(vm: string, force: bool) returns (result: Result<()>)
      modifies this
      ensures (View(), result) == Stop(old(View()), script, vm, force)
      ensures Kept(script, old(View()), View())
    {
      hide Change, EnsureEtag, Etags.FindVm, Kept;
      CallKeeps(script, View(), Etags.StopVm(vm, force));
      var ready := EnsureVmEtag(vm);
      if ready.Failed? {
        return ready;
      }
      result := Mutation(vm, false);
      if result.Failed? && !force {
        var again := FindVm(vm);
        if again.Failed? {
          return Failed(again.fault);
        }
        result := Mutation(vm, false);
      }
    }

    method StartVm(vm: string) returns (result: Result<()>)
      modifies this
      ensures (View(), result) == EnsuredChange(old(View()), script, vm, false)
      ensures Kept(script, old(View()), View())
    {
      hide Change, EnsureEtag, Kept;
      CallKeeps(script, View(), Etags.StartVm(vm));
      var ready := EnsureVmEtag(vm);
      if ready.Failed? {
        return ready;
      }
      result := Mutation(vm, false);
    }

    method NamedContainer(containers: seq<Container>, wanted: string) returns (id: Option<string>)
      ensures id == Named(containers, wanted)
    {
      for i := 0 to |containers|
        invariant Named(containers, wanted) == Named(containers[i..], wanted)
      {
        if containers[i].name == wanted || containers[i].id == wanted {
          return Some(containers[i].id);
        }
      }
      id := None;
    }

    method HousingOf(disks: seq<Disk>) returns (container: Option<string>)
      ensures container == Housing(disks)
    {
      for i := 0 to |disks|
        invariant Housing(disks) == Housing(disks[i..])
      {
        if disks[i].container != "" {
          return Some(disks[i].container);
        }
      }
      container := None;
    }

    method TargetContainer(vm: string, wanted: string) returns (result: Result<string>)
      modifies this
      ensures (View(), result) == Target(old(View()), script, vm, wanted)
    {
      hide Etags.Api, Named, Housing;
      if wanted != "" {
        var listed := Api(Other);
        if listed.Failed? {
          return Failed(listed.fault);
        }
        var found := NamedContainer(listed.value.containers, wanted);
        return OrInvalid(found);
      }
      var got := FindVm(vm);
      if got.Failed? {
        return Failed(got.fault);
      }
      var house := HousingOf(got.value.disks);
      if house.Some? {
        return Done(house.value);
      }
      var all := Api(Other);
      if all.Failed? {
        return Failed(all.fault);
      }
      result := if |all.value.containers| == 1 then Done(all.value.containers[0].id) else Failed(Invalid);
    }

    method FindDisk(disks: seq<Disk>, order: int, bus: string) returns (disk: Option<Disk>)
      ensures disk == DiskAt(disks, order, bus)
    {
      for i := 0 to |disks|
        invariant DiskAt(disks, order, bus) == DiskAt(disks[i..], order, bus)
      {
        if disks[i].index == order && Text.Lower(AhvBus(bus)) == Text.Lower(disks[i].bus) {
          return Some(disks[i]);
        }
      }
      disk := None;
    }

    /** Adds a disk and returns the name of the array volume behind it. */
    method CreateManagedDisk(vm: string, order: int, bus: string, wanted: string, resolve: string -> Option<string>)
      returns (result: Result<string>)
      modifies this
      ensures (View(), result) == AddDisk(old(View()), script, vm, order, bus, wanted, resolve)
      ensures Kept(script, old(View()), View())
    {
      hide Change, EnsureEtag, Etags.FindVm, Target, DiskAt, Kept;
      CallKeeps(script, View(), AddManagedDisk(vm, order, bus, wanted, resolve));
      var ready := EnsureVmEtag(vm);
      if ready.Failed? {
        return Failed(ready.fault);
      }
      var container := TargetContainer(vm, wanted);
      if container.Failed? {
        return container;
      }
      var added := Mutation(vm, false);
      if added.Failed? {
        return Failed(added.fault);
      }
      var back := FindVm(vm);
      if back.Failed? {
        return Failed(back.fault);
      }
      var disk := FindDisk(back.value.disks, order, bus);
      result := VolumeOf(disk, resolve);
    }

    method DeleteVm(vm: string, keepDisks: bool) returns (result: Result<()>)
      modifies this
      ensures (View(), result) == Delete(old(View()), script, vm, keepDisks)
      ensures Kept(script, old(View()), View())
    {
      hide Change, EnsureEtag, Kept;
      CallKeeps(script, View(), Etags.DeleteVm(vm, keepDisks));
      if keepDisks {
        return Failed(Invalid);
      }
      var ready := EnsureVmEtag(vm);
      if ready.Failed? {
        return ready;
      }
      result := Mutation(vm, true);
    }

    /** Removes the disks that are asked for one by one, with a fresh ETag for each. */
    method DetachDisks(vm: string, disks: seq<Disk>, wanted: set<string>) returns (result: Result<seq<string>>)
      modifies this
      ensures (View(), result) == DetachEach(old(View()), script, vm, disks, wanted, [])
    {
      hide Change, Etags.FindVm, Asked;
      var gone: seq<string> := [];
      for i := 0 to |disks|
        invariant DetachEach(View(), script, vm, disks[i..], wanted, gone) ==
                  DetachEach(old(View()), script, vm, disks, wanted, [])
      {
        if Asked(disks[i], wanted) {
          var did := Mutation(vm, false);
          if did.Failed? {
            return Failed(did.fault);
          }
          var back := FindVm(vm);
          if back.Failed? {
            return Failed(back.fault);
          }
          gone := gone + [if disks[i].volume != "" then disks[i].volume else disks[i].extId];
        }
      }
      result := Done(gone);
    }

    method DetachVolumes(vm: string, wanted: set<string>) returns (result: Result<seq<string>>)
      modifies this
      ensures (View(), result) == Detach(old(View()), script, vm, wanted)
      ensures Kept(script, old(View()), View())
    {
      hide Etags.FindVm, DetachEach, Kept;
      CallKeeps(script, View(), Etags.DetachVolumes(vm, wanted));
      var back := FindVm(vm);
      if back.Failed? {
        return Failed(back.fault);
      }
      result := DetachDisks(vm, back.value.disks, wanted);
    }
  }
}
