# Verified model of the migration back end

The program moves virtual machines between hypervisors that keep their disks on a FlashArray.
This project models its stateful core in Dafny and proves what it is meant to keep, over every
answer of the hypervisors and the array, every interleaving and every length of run.
`dafny verify dfyconfig.toml` checks all of it.

## What is modelled

**The cold migration** (`Environment`, `Safety`, `Accounts`, `Progress`, `Service`, with `Spec`,
`Volumes`, `Steps` and `DestName`). `World` is one array, the source VM, the VMs of the
destination and an adversary. Each call of a connector or the array first lets running guests
write to their disks and halt, and then returns success or failure or raises, with or without
having had its effect, as an arbitrary oracle decides. `MigrationService` is the orchestrator as
an object that updates its fields, with every step as a method, its polling loops and its rollback
stack. `Going` is the invariant of a run that can still be rolled back, `Delivered` and `Committed`
are what holds after the commit point, and `Run` states what a whole run does.

**Migration groups** (`Groups`, `Runners`, `GroupRuns`, `GroupRecords`, `GroupReruns`,
`GroupProgress`, `GroupVerdict`, `GroupLimits`, `GroupCallbacks`, `Scheduling`, `MemberLock`,
`RerunRace`). The
runner's member tasks, the scheduler, the API calls and process restarts are a step relation in
which every stretch between two awaits is one step; a poll or a re-run decides and kicks in
separate steps, and a re-run call may read and write in separate steps. A task holds the lock of
the member list from the record of its result until it leaves its slot, as there is no await in
between; only where the launch itself is refused the code returns out of an open session
(`service.py:936-951`), and the lock is given back before the session closes and the group is
stopped. `Scheduling` has the scheduler and the API calls as methods over all groups and shows
that each group takes the steps of the one-group relation. `MemberLock` splits the update of the
shared member list into its read and its write.

**Array and platform state machines.** `Hosts` and `HostRules`: host groups on the array.
`HostRepeat` is about a repeated request. `Etags`, `EtagTraces`, `EtagRules` and `Prism`: the
ETag cache of the Nutanix connector. `Destinations`: the eligibility endpoint with remembered
reads against the per-pair check. `Sorting` and `HpeDisks`: which array volume belongs to which
disk of an HPE VME instance. `ClusterDrift`, `ClusterReady` and `ClusterReconcile`: assessing the
nodes of an HPE VME cluster, registering the new ones that are ready, and pruning the hosts that
are gone. `VdiKeys`: the virtual disks of the SMAPIv3 plugin. `Text` and `Wrappers` are shared.

A method that changes state is proved against a function of the old state, and the properties are
lemmas about that function. `Prism.Connector`, `Hosts.HostArray` and `Scheduling.GroupScheduler`
are of this kind.

## Where the source does not keep a property

Each is shown by a lemma at a concrete input, state or run, and comes with the exact condition
under which the property holds.

- *One live runner.* The done-callback of a runner drops the group's entry even when a newer
  runner has taken its place. With the callback as a step of its own a second live runner is
  reachable (`SplitCallbackBreaksIt`). It cannot happen as long as no runner is started while a
  callback is pending (`PromptCallbacksKeepRunnersAlone`), and can always happen once one was
  (`OverlapMakesTwoRunners`).
- *Succeeded is kept by a re-run.* A re-run call reads the members and writes them back without
  the lock. A success recorded in between is gone (`SuccessIsLost`), and the member is launched a
  second time (`StraddlingRerunLaunchesAgain`). What can be lost is known at the read: on the
  list, exactly when a patch call that is not over has a success for a member without one
  (`RerunLosesExactly`); in a group, exactly when a task on its way may record one, or the group is
  not over and a member is not terminal (`RerunForgetsExactly`). That no task holds a slot at the
  read is not enough in a group that is still to run: its runner may begin, or end and be replaced,
  before the write (`SuccessFromNothing`, `SuccessFromANewRunner`).
- *The stop on errors.* Counted from the first non-success on record, a new group is held to
  `max(1, concurrency) - 1` further launches exactly when it has no more members than slots, or
  stops on errors and has one slot (`HeldExactlyWhen`). A group that continues on errors launches
  all the others; in one that stops, after a refused launch other members can succeed and make room
  before the group is stopped (`LargeGroupIsNotHeld`). In a group that stops on errors the bound
  holds counted from the stop (`StoppedGroupLaunchesFew`), and after a first non-success that was
  no refused launch (`FirstFailureLaunchesFew`).
- *One group per host.* Registration puts a host in two groups exactly when an unmatched entry has
  the name of a member of another group (`OneGroupIsKept`, `TakenNameBreaksOneGroup`).
- *One owner per initiator.* It is kept exactly when no new host is asked for with an initiator,
  as given, that a host of another name takes (`OneOwnerIsKept`,
  `SharedInitiatorBreaksOneOwner`).
- *A repeat creates nothing* exactly when every unmatched entry wants an initiator that an
  unmatched entry brings (`SecondCallCreatesNothingExactly`, `WithoutInitiatorsIsCreatedAgain`).
- *No 412.* With a script that loses no reply and echoes no ETag, whose reads bring one and whose
  tasks end in time, a refusal is possible exactly when a cached ETag is stale already or a task is
  at work that will leave its VM with another version (`RefusedExactlyWhenEndangered`). A lost
  reply, an ETag on the reply to a mutation, and a task given up on lead there; the last one makes
  the fallback of `stop_vm` itself fail (`LostReplyIsRefusedNext`, `EchoedEtagIsRefusedNext`,
  `LateShutdownIsRefused`). A read without an ETag leaves the next mutation with none, and that
  gets 428 (`BareReadIsRefusedNext`). As reads replay the ETag too, a server that evaluates
  `If-Match` on reads refuses them as well, and no sequence of calls ever gets rid of a stale ETag
  (`StaleIsNeverHealed`).
- *The endpoint agrees with the pair check* exactly unless the destination array answers with an
  empty name and the source has a replication connection to no name (`MemoAgreesWithThePair`,
  `NamelessArraysDisagree`).
- *A serial survives its WWID* exactly unless it starts with the vendor prefix `624a937`
  (`SerialRoundTrip`, `PrefixedSerialIsCut`).
- *Each disk has its own volume* exactly when the disk orders are distinct
  (`EachDiskHasItsOwnVolume`, `SameOrderSharesAVolume`).
- *Assessment and pruning agree.* The assessment keys nodes by name, so of two nodes with one name
  it only knows the last one's host; pruning knows both (`AssessAgreesWithPrune`,
  `DuplicateNamesDisagree`).
- *Only ready nodes are registered.* The ready nodes are looked up by name again, so whatever the
  hosts tell only ready ones are picked exactly when no new node is hidden behind a later node of
  its name on another host (`OnlyReadyArePicked`, `NotReadyTwinIsRegistered`).
- *Reconciling keeps what it registers.* With removals it keeps exactly the hosts that are called by
  a name of a current node or are kept out of the pruned group; a host that was re-used for a new
  node under any other name is deleted in the same call (`ReconcileKeepsExactly`,
  `ReusedHostIsDeleted`). The nodes are reported as configured also if their registration was
  refused (`RefusedIsReportedConfigured`), which for ready nodes it is exactly when their hosts are
  in two groups (`ReadyNodesAreRegistered`).
- *A volume key leads back to its volume* exactly unless the volume stands alone and has a dot in
  its name (`VolumeKeyLeadsBack`, `DottedVolumeIsLost`).

The class comment of the orchestrator says that a move reboots onto the same volume; the code
copies onto new volumes and removes the source afterwards, and the model follows the code.

## Model

| member | source | states |
|---|---|---|
| Migrate.MigrationService.Run | backend/phif/migrate/service.py:140-207 | over a whole run and all answers: captured images are in a live volume in every state; a failed, copy or dry run leaves the source VM and its volumes alone; a failed run has answered its stop of the source with one start and its created VM with one deletion, and deleted nothing else; volumes are deleted last, after all copies and a successful removal of the source; a successful run delivered the copies, and a clean one holds what the source held when it stopped |
| Migrate.MigrationService.constructor | backend/phif/migrate/service.py:41-84 | a run starts with nothing done, nothing owed and the invariant in place |
| Migrate.MigrationService.Attempt | backend/phif/migrate/service.py:152-174 | the steps up to the commit point either raise with everything still undoable, or end committed |
| Migrate.MigrationService.Preflight | backend/phif/migrate/service.py:210-262 | reads only; success implies both connectors can migrate, both have an array, and the destination has a host group or presents volumes itself |
| Migrate.MigrationService.CaptureSpec | backend/phif/migrate/service.py:264-279 | success implies at least one disk and a mapping for every NIC |
| Migrate.MigrationService.PrepareSourceDisks | backend/phif/migrate/service.py:281-293 | with the base hook nothing but time passes, and a dry run skips even that |
| Migrate.MigrationService.GetVolume | backend/phif/migrate/service.py:312-325 | success outside mock mode means the volume is live |
| Migrate.MigrationService.ResolveVolume | backend/phif/migrate/service.py:312-328 | on success outside mock mode the disk's volume is live and the source's; only serial and size of disks are filled in |
| Migrate.MigrationService.ResolveVolumes | backend/phif/migrate/service.py:306-328 | on success outside mock mode every disk's volume is live; the disks are otherwise as captured |
| Migrate.MigrationService.EnsureUniqueDestName | backend/phif/migrate/service.py:330-357 | the chosen name is the base name or its least free number, or base and migration id (or "mig") when listing failed |
| Migrate.MigrationService.CallCreateVm | backend/phif/migrate/service.py:388-403 | success leaves a new powered-off VM under a reference, with its teardown on the stack; the source is left alone |
| Migrate.MigrationService.CreateDestVm | backend/phif/migrate/service.py:359-403 | names the VM and creates it; a dry run only names it |
| Migrate.MigrationService.QuiesceSource | backend/phif/migrate/service.py:418-441 | when the source is to be quiesced and is truthfully observed, success means it is stopped |
| Migrate.MigrationService.AwaitSourceStopped | backend/phif/migrate/service.py:116-137 | a bounded poll that succeeds, in a truthful world, only on a stopped source |
| Migrate.MigrationService.BuildDisk | backend/phif/migrate/service.py:476-507 | one more destination volume holds its source's data under its own serial |
| Migrate.MigrationService.BuildNext | backend/phif/migrate/service.py:466-507 | the next destination disk has its source's order, boot flag, bus and reference, and in a real run its data |
| Migrate.MigrationService.BuildDestinationDisks | backend/phif/migrate/service.py:443-507 | same number, order and boot flags as the spec, and every volume a copy; exact copies if the source was at rest |
| Migrate.MigrationService.DestinationHook | backend/phif/migrate/service.py:509-518 | the destination's hooks move no data and a dry run does not call them |
| Migrate.MigrationService.PowerOnDest | backend/phif/migrate/service.py:616-660 | the destination is powered on exactly if it should be, and success of a real, truthful run means it runs |
| Migrate.MigrationService.AwaitDestRunning | backend/phif/migrate/service.py:648-656 | reports up only if the VM runs |
| Migrate.MigrationService.RemoveSourceVolume | backend/phif/migrate/service.py:708-724 | taking away one source volume, or failing to, loses nothing of the destination |
| Migrate.MigrationService.FinalizeMove | backend/phif/migrate/service.py:662-724 | cannot fail the run; keeps what was delivered; deletes volumes only after the source VM was removed; owes no undoing |
| Migrate.MigrationService.CleanupScratch | backend/phif/migrate/service.py:295-304 | keeps whatever held before, and its failure changes no result |
| Migrate.MigrationService.RollBack | backend/phif/migrate/service.py:181-188 | empties the stack and pays exactly what is owed; in a dry run that is nothing, and nothing fails |
| Migrate.RestsBeforeCopy | backend/phif/migrate/service.py:418-443 | nothing disturbs a stopped source between the shutdown and the copies |
| Steps.RollbackStack.Push | backend/phif/migrate/steps.py:32-33 | a compensation goes on top |
| Steps.RollbackStack.Clear | backend/phif/migrate/steps.py:35-37 | nothing is owed any more |
| Steps.RollbackStack.Unwind | backend/phif/migrate/steps.py:43-60 | runs each entry once in reverse order whatever raises, returns exactly the labels that raised in that order, and empties the stack |
| Steps.UnwindRestores | backend/phif/migrate/steps.py:43-60 | if every undo inverts its step and none raises, the world is the one before the first push |
| Accounts.UnwindingIsPaying | backend/phif/migrate/service.py:388-441 | unwinding first restarts the source and then tears the destination down, if owed |
| Accounts.PayingCounts | backend/phif/migrate/service.py:388-441 | one start iff owed, one deletion iff owed, of that VM only |
| Accounts.PayingIsSafe | backend/phif/migrate/service.py:405-416 | no compensation touches a source volume or loses an image |
| Accounts.TeardownCounts | backend/phif/migrate/service.py:405-416 | the deletion is attempted once even if the stop raised |
| Progress.RolledBackUndoes | backend/phif/migrate/service.py:177-188 | after unwinding every stop has its start, every creation its deletion, and no volume was deleted |
| Progress.DryRunOwesNothing | backend/phif/migrate/service.py:90-98 | at every point of a dry run the stack is empty, no mutating call was made and the site is what it would have been anyway |
| Progress.CreateGoes | backend/phif/migrate/service.py:388-403 | the teardown is owed exactly if creation succeeded and returned a reference |
| Progress.StopGoes | backend/phif/migrate/service.py:434-439 | the restart is owed exactly if the stop reported success |
| Progress.DiskCopied | backend/phif/migrate/service.py:501-507 | copying onto a new disk keeps the earlier copies and adds one |
| Progress.DeliveredTakesOver | backend/phif/migrate/service.py:662-672 | before the commit point the destination alone already has every captured image |
| Progress.DeletionsComeLast | backend/phif/migrate/service.py:687-724 | every volume deletion comes after all copies and after a successful removal of the source |
| Progress.DeleteSourceStaysCommitted | backend/phif/migrate/service.py:681-690 | whatever the removal of the source answers, the destination keeps its copies |
| Progress.EradicateStaysCommitted | backend/phif/migrate/service.py:716-719 | eradicating a source volume keeps the destination's copies |
| Progress.CommittedKeepsTrail | backend/phif/migrate/service.py:662-724 | once committed, no state of the run ever had an image in no volume |
| Safety.MoveIsSafe | backend/phif/migrate/service.py:140-151 | a change that leaves the source alone keeps every image |
| Safety.TickIsSafe | backend/phif/migrate/service.py:140-151 | guests that write and halt lose no image and disturb no stopped disk |
| Safety.CopyIsSafe | backend/phif/flasharray/client.py:1080-1091 | an overwrite of a destination disk leaves source, images and the other disks alone, also when it raises |
| Safety.CreateDiskIsSafe | backend/phif/connectors/base.py:762-774 | a new managed disk is fresh, so it harms nothing, also when the call raises |
| Safety.DeleteVmIsSafe | backend/phif/connectors/base.py:813-818 | deleting the destination VM frees only its own disks |
| Safety.EradicateKeepsOver | backend/phif/migrate/service.py:716-719 | eradicating a source volume takes nothing from the destination |
| DestName.UniqueName | backend/phif/migrate/service.py:347-354 | terminates and yields a name that is not taken: the base name, or the least free number up to the number of names |
| DestName.FreshNameIsUnique | backend/phif/migrate/service.py:347-354 | that description fits one name only |
| DestName.NumberedInjective | backend/phif/migrate/service.py:350-352 | different numbers give different names |
| DestName.Tried | backend/phif/migrate/service.py:350-352 | n tries are n + 1 different names, so the search ends |
| Text.DecimalInjective | backend/phif/migrate/service.py:350-352 | decimal suffixes are distinct |
| Volumes.MockVolumes.CopyVolume | backend/phif/flasharray/client.py:1080-1091 | the dictionary becomes the copy function of what it was: the data moves, an overwritten volume keeps its serial, no other volume changes |
| Volumes.OverwriteKeepsIdentity | backend/phif/flasharray/client.py:1080-1091 | overwriting moves the data and keeps the target's name and serial |
| Groups.Reset | backend/phif/api/migrations.py:474-483 | a re-run resets exactly what did not succeed |
| GroupRuns.ConcurrencyIsBounded | backend/phif/migrate/service.py:1000-1024 | in every reachable state at most max(1, concurrency) members are in flight, no runner launched a member twice, and a group that stopped does not continue on errors |
| GroupRuns.StoppedGroupLaunchesFew | backend/phif/migrate/service.py:1003-1018 | from any point after the stop on, whatever happens, the runner launches at most max(1, concurrency) - 1 members more |
| GroupRuns.FirstFailureLaunchesFew | backend/phif/migrate/service.py:1003-1018 | in a group that stops on errors so it does from any point after the first non-success on record, also if cancel checks raise or the row is deleted, unless that was a refused launch and there is more than one slot |
| GroupLimits.HeldExactlyWhen | backend/phif/migrate/service.py:936-1018 | over all runs of a new group, at most max(1, concurrency) - 1 members are launched after the first non-success on record iff it has no more members than slots, or stops on errors and has one slot |
| GroupLimits.LargeGroupIsNotHeld | backend/phif/migrate/service.py:936-1018 | every larger group that continues on errors or has two slots has a run in which a recorded non-success is followed by more launches than that |
| GroupRuns.RunnersAreAlone | backend/phif/jobs/scheduler.py:40-53 | a group never has two live runners in a process, when a runner's end and its callback are one step |
| GroupRecords.SucceededIsAbsorbing | backend/phif/migrate/service.py:985-1024 | over all polls, kicks, cancels, completions, failures, restarts and re-run calls that are uninterrupted or read when no success can come before their write, a member recorded as succeeded stays so and is never launched again |
| GroupRecords.UninterruptedRerunsAreCareful | backend/phif/api/migrations.py:466-493 | re-run calls with no other step between their read and their write are of that kind |
| GroupRecords.StepKeepsRecords | backend/phif/api/migrations.py:466-493 | every such step keeps the recorded successes and what calls under way know of them |
| GroupRecords.TaskKeepsRecords | backend/phif/migrate/service.py:923-973 | no step of a task takes back a recorded success, and none launches a member that has one |
| GroupReruns.RerunForgetsExactly | backend/phif/api/migrations.py:466-490 | after any careful run, with no other re-run call under way, some run between a re-run's read and its write makes it take a success away iff, at the read, some member may still succeed |
| GroupReruns.StraddlingRerunLaunchesAgain | backend/phif/api/migrations.py:466-493 | a run of 19 steps in which a member recorded as succeeded is launched again |
| GroupReruns.SuccessFromNothing | backend/phif/jobs/scheduler.py:56-80 | in a group that nobody works on and that is not over, any member that is not terminal can still be run to a success |
| GroupReruns.SuccessFromANewRunner | backend/phif/migrate/service.py:985-1022 | so it can while a runner works on such a group, as that one may end without a record and be replaced |
| GroupReruns.RunToSuccess | backend/phif/migrate/service.py:1003-1024 | a task on its way can be run to a recorded success |
| Runners.SlotsStayAccounted | backend/phif/migrate/service.py:1000-1004 | tasks that hold a slot and free slots add up to the limit |
| Runners.LaunchedStaysOnce | backend/phif/migrate/service.py:1003-1024 | no task launches twice |
| Runners.StragglersStayFew | backend/phif/migrate/service.py:1004-1018 | only tasks between the slot and the launch can launch after the stop |
| Runners.FirstFailureStaysBinding | backend/phif/migrate/service.py:887-912 | from the record to the stop the lock is held, so no other task records, leaves its slot or makes room, except after a refused launch |
| Runners.BoundedStays | backend/phif/migrate/service.py:1003-1018 | launches since the first failure, tasks about to launch and free slots stay below the limit |
| Runners.OneHolder | backend/phif/migrate/service.py:1000-1004 | with one slot at most one task is past it |
| GroupRuns.StepKeepsGood | backend/phif/migrate/service.py:976-1042 | the system invariant survives every step of every participant |
| GroupVerdict.VerdictIsTrue | backend/phif/migrate/service.py:1025-1041 | if nobody cancels, deletes or writes back an older list, and writes land, the last block finds every member terminal and records succeeded iff there are members and all succeeded, failed iff none did, else partial |
| GroupProgress.SomeTaskCanMove | backend/phif/migrate/service.py:1000-1022 | until all tasks are done some task can go forward: neither the semaphore nor the lock deadlocks |
| GroupProgress.RunnerGetsToItsEnd | backend/phif/migrate/service.py:1000-1022 | in any run a runner at work makes at most seven moves for each member, and when they are used up all its tasks are done |
| GroupProgress.RunToTheEnd | backend/phif/migrate/service.py:1000-1022 | from any state a runner at work can be run to its end by its own steps, with nothing more on record |
| GroupVerdict.FirstFailureEndsTheGroup | backend/phif/migrate/service.py:1003-1018 | with one slot and stop on errors the results are successes, one failure, then only skips |
| GroupCallbacks.SplitCallbackBreaksIt | backend/phif/jobs/scheduler.py:48-52 | with the callback as a step of its own, nine steps lead to two live runners |
| GroupCallbacks.PromptCallbacksKeepRunnersAlone | backend/phif/jobs/scheduler.py:48-52 | with split callbacks, at most one runner is live as long as none is started while a callback is pending |
| GroupCallbacks.OverlapMakesTwoRunners | backend/phif/jobs/scheduler.py:48-52 | once one was, three steps make two live runners, whatever state the group is in |
| Scheduling.GroupScheduler.Kick | backend/phif/jobs/scheduler.py:40-53 | starts a runner iff none is live on record, and tells which |
| Scheduling.GroupScheduler.RunSchedulerCycle | backend/phif/jobs/scheduler.py:56-80 | each group takes its own poll and kick, untouched by the others, and exactly the due or interrupted groups are launched |
| Scheduling.GroupScheduler.RunNow | backend/phif/api/migrations.py:461-493 | 404, 409 and 202 exactly in their cases; on 202 what did not succeed is pending and a runner is kicked |
| Scheduling.GroupScheduler.Cancel | backend/phif/api/migrations.py:497-509 | 404, 409 and 202 exactly in their cases; only the group's status changes |
| Scheduling.GroupScheduler.Delete | backend/phif/api/migrations.py:513-521 | refused with 409 exactly while the group runs |
| MemberLock.NoLostUpdate | backend/phif/migrate/service.py:887-912 | under the lock each member is the fold, in lock order, of exactly the patches for it that were saved; a call that saved nothing failed three times or found no row or member |
| MemberLock.RunsStayFaithful | backend/phif/migrate/service.py:895-909 | in any interleaving, locked or not, the list is the fold of what it reflects |
| MemberLock.UnlockedLosesAnUpdate | backend/phif/migrate/service.py:871-876 | without the lock two patches of two members lose one |
| RerunRace.RerunForgetsWhatLandedSince | backend/phif/api/migrations.py:466-490 | the re-run call writes back what it read, reset, whatever was patched in between |
| RerunRace.RerunLosesExactly | backend/phif/api/migrations.py:466-490 | from any reachable read, some patches before the write make the call lose a success iff a call that is not over, for a member in range, has a success for a member without one |
| RerunRace.SuccessIsLost | backend/phif/api/migrations.py:466-490 | one member and one call: the success is saved and, five steps on, gone |
| MemberLock.StepKeepsFaithful | backend/phif/migrate/service.py:895-912 | every read, write, retry and reset keeps lists equal to the folds they stand for |
| MemberLock.SavingExtendsLanded | backend/phif/migrate/service.py:900-907 | a save by the holder of the lock lands its patch once, on top of all others, also when it is retried after an unclear commit |
| Hosts.HostArray.FindHostByInitiator | backend/phif/flasharray/client.py:872-885 | the first host that owns a wanted initiator |
| Hosts.HostArray.GetHostGroup | backend/phif/flasharray/client.py:896-908 | the first group that has the host |
| Hosts.HostArray.CreateHost | backend/phif/flasharray/client.py:862-870 | creates or extends the host, each initiator once |
| Hosts.HostArray.CreateHostGroup | backend/phif/flasharray/client.py:913-920 | creates or extends the group, each member once |
| Hosts.HostArray.RegisterHostGroup | backend/phif/flasharray/client.py:1185-1247 | the result and the new array are those of the registration function of the old array, a conflict with every group in order and its matched hosts |
| Hosts.FirstMatchFits | backend/phif/flasharray/client.py:872-885 | a host is found exactly if some host owns a wanted initiator |
| HostRules.ConflictMeansTwoGroups | backend/phif/flasharray/client.py:1205-1228 | a conflict is returned iff two matched hosts are in different groups; it tells every such group once, in order, with exactly its matched hosts, and nothing changed |
| HostRules.OneOwnerIsKept | backend/phif/flasharray/client.py:1233-1245 | an initiator stays owned by at most one host iff no new host is asked for with an initiator, as given, that a host of another name has or is given |
| HostRules.TrimmedAndDisjointAreFree | backend/phif/flasharray/client.py:872-885 | trimmed requests for different initiators are of that kind |
| HostRepeat.SharedInitiatorBreaksOneOwner | backend/phif/flasharray/client.py:1236-1245 | two new hosts of one request with one initiator between them both own it |
| HostRepeat.WithoutInitiatorsIsCreatedAgain | backend/phif/flasharray/client.py:1236-1245 | a host without initiators is created again by the second call |
| HostRules.OneGroupIsKept | backend/phif/flasharray/client.py:1230-1247 | a host stays in at most one group iff no name a host is created under is in another group |
| HostRules.TakenNameBreaksOneGroup | backend/phif/flasharray/client.py:1236-1245 | a request whose unmatched name is in another group puts that host in two |
| HostRules.OnlyTheEffectiveGroupGrows | backend/phif/flasharray/client.py:1230-1247 | the effective group gains exactly the returned hosts, which all exist, and other groups stay as they are |
| HostRules.MatchedHostsFit | backend/phif/flasharray/client.py:1205-1230 | a matched host is in no group but the effective one |
| HostRepeat.SecondCallChangesNothing | backend/phif/flasharray/client.py:1185-1247 | for any request whose first call put no host in a second group, the same call again finds no conflict, uses the same group and changes nothing on the array |
| HostRepeat.SecondCallCreatesNothingExactly | backend/phif/flasharray/client.py:1233-1247 | it creates nothing iff every unmatched entry wants an initiator that an unmatched entry brings |
| HostRepeat.FoundIsReturned | backend/phif/flasharray/client.py:872-885 | what the second call finds for an entry, the first call returned for some entry |
| HostRules.SecondCallIsANoOp | backend/phif/flasharray/client.py:1185-1247 | for requests with trimmed and disjoint initiators and names the second answer is the first one, with nothing created |
| HostRules.CreatedOwned | backend/phif/flasharray/client.py:1233-1243 | a host owns what it owned and what unmatched entries of its name bring |
| HostRules.MergingOwns | backend/phif/flasharray/client.py:862-870 | merging keeps every initiator and adds the requested ones |
| EtagRules.RefusedExactlyWhenEndangered | backend/phif/connectors/nutanix/connector.py:263-313 | from any state, some calls and some script that loses no reply, echoes no ETag, brings one with every read and ends its tasks in time lead to a 412 or 428 iff a cached ETag is stale or a task at work will leave its VM with another version |
| EtagRules.NothingIsEverRefused | backend/phif/connectors/nutanix/connector.py:263-313 | so with such a script no call sequence of a connector that starts with an empty cache is ever refused, whatever fails on the way |
| EtagRules.FineDo | backend/phif/connectors/nutanix/connector.py:818-1194 | each call keeps a settled state settled |
| EtagRules.MutatingIsNotRefused | backend/phif/connectors/nutanix/connector.py:281-300 | a mutation with a cached ETag is not refused for it, and drops it |
| EtagRules.WaitingEndsSettled | backend/phif/connectors/nutanix/connector.py:325-355 | waiting for a timely task leaves nothing at work |
| EtagRules.FineStop | backend/phif/connectors/nutanix/connector.py:818-842 | a shutdown with its fallback keeps the state settled |
| EtagRules.FineAdd | backend/phif/connectors/nutanix/connector.py:991-1048 | so does adding a disk, whatever the container comes from |
| EtagRules.FineDetach | backend/phif/connectors/nutanix/connector.py:1178-1192 | so does removing any disks |
| EtagRules.LostReplyIsRefusedNext | backend/phif/connectors/nutanix/connector.py:284-300 | after a lost reply the next mutation gets 412 |
| EtagRules.EchoedEtagIsRefusedNext | backend/phif/connectors/nutanix/connector.py:291-294 | an ETag taken from a mutation reply is stale when its task ends |
| EtagRules.LateShutdownIsRefused | backend/phif/connectors/nutanix/connector.py:826-841 | a shutdown task given up on that ends after the VM was read again makes the fallback fail with 412 |
| EtagRules.BareReadIsRefusedNext | backend/phif/connectors/nutanix/connector.py:291-313 | after a read without an ETag the next mutation gets 428 |
| EtagTraces.StaleIsNeverHealed | backend/phif/connectors/nutanix/connector.py:281-294 | against a server that evaluates If-Match on reads, after any calls a stale ETag is still cached and the next request for its VM fails |
| EtagTraces.ReadHealsIfLenient | backend/phif/connectors/nutanix/connector.py:288-294 | against one that does not, the next answered read of the VM with an ETag caches its version |
| EtagTraces.CallsStayTidy | backend/phif/connectors/nutanix/connector.py:263-300 | whatever is answered, cached ETags and tasks are of VMs that were once there |
| Prism.Connector.Api | backend/phif/connectors/nutanix/connector.py:263-300 | replays the cached ETag, then records, drops or keeps it as the reply says |
| Prism.Connector.FindVm | backend/phif/connectors/nutanix/connector.py:636-643 | reads the VM, caching its ETag; an empty reply is an error |
| Prism.Connector.EnsureVmEtag | backend/phif/connectors/nutanix/connector.py:302-313 | reads the VM only if no ETag is cached |
| Prism.Connector.AwaitTask | backend/phif/connectors/nutanix/connector.py:325-355 | polls to the end of the task, a failed poll or the deadline |
| Prism.Connector.StopVm | backend/phif/connectors/nutanix/connector.py:818-842 | guest shutdown, then after any failure a re-read and a power-off; keeps a settled state settled |
| Prism.Connector.StartVm | backend/phif/connectors/nutanix/connector.py:844-852 | never sends a mutation without an ETag; keeps a settled state settled |
| Prism.Connector.TargetContainer | backend/phif/connectors/nutanix/connector.py:1060-1095 | the configured container by name or id, else that of the VM's first disk that tells one, else the only one, else an error |
| Prism.Connector.CreateManagedDisk | backend/phif/connectors/nutanix/connector.py:960-1048 | adds the disk, waits, reads the VM back and returns the volume of the first disk at that index and bus, by the array's name for it; keeps a settled state settled |
| Prism.Connector.DeleteVm | backend/phif/connectors/nutanix/connector.py:1109-1123 | refuses to keep disks; otherwise deletes and keeps a settled state settled |
| Prism.Connector.DetachVolumes | backend/phif/connectors/nutanix/connector.py:1150-1194 | removes exactly the disks whose leaf name is asked for, or all, one by one with a fresh ETag each, and names them; keeps a settled state settled |
| Destinations.Lookup.MigrationDestinations | backend/phif/api/migrations.py:151-246 | every entry is what fresh reads would give, in row order; the source is read at most once and each needed array once |
| Destinations.Lookup.DestArrayName | backend/phif/api/migrations.py:177-189 | the name a fresh read gives, read once per array |
| Destinations.Lookup.SourceConnections | backend/phif/api/migrations.py:191-200 | the connections a fresh read gives, read once |
| Destinations.MemoAgreesWithThePair | backend/phif/api/migrations.py:68-82 | reported as connected iff the per-pair check says so, except exactly between nameless arrays |
| Destinations.SubmitAgreesWithTheOffer | backend/phif/api/migrations.py:365-385 | a pair is accepted iff offered and authorized where asked, with the same exact exception |
| Destinations.EveryCandidateIsListed | backend/phif/api/migrations.py:202-242 | every hypervisor but the source has its own place in the list, in row order, and there are no other places |
| Destinations.NamelessArraysDisagree | backend/phif/api/migrations.py:68-82 | two arrays that disagree: connected for the pair check, in need of authorization for the endpoint |
| Sorting.SortIsStable | backend/phif/connectors/hpevme/connector.py:1853 | entries with equal keys keep their order |
| Sorting.SortRecovers | backend/phif/connectors/hpevme/connector.py:1938-1939 | sorting any shuffle of distinct display orders gives the one posted order |
| HpeDisks.SerialRoundTrip | backend/phif/connectors/hpevme/connector.py:684-701 | the multipath name of a hexadecimal serial, in any case and with blanks or 0x around it, gives the bare serial back iff it does not carry the vendor prefix |
| HpeDisks.PrefixedSerialIsCut | backend/phif/connectors/hpevme/connector.py:1746-1754 | a serial with the vendor prefix comes back without it |
| HpeDisks.Units | backend/phif/connectors/hpevme/connector.py:1876 | the least whole number of 10^9 bytes, at least one, that holds the disk |
| HpeDisks.PostVolumes | backend/phif/connectors/hpevme/connector.py:1853-1880 | one posted volume per disk, in boot-first order, root for boot disks and the first |
| HpeDisks.BootDiskComesFirst | backend/phif/connectors/hpevme/connector.py:1853 | if any disk boots, the first posted volume belongs to a boot disk |
| HpeDisks.Connector.CacheProvisionedDisks | backend/phif/connectors/hpevme/connector.py:1932-1958 | pairs disks and volumes in order and stops exactly at the first volume it cannot resolve |
| HpeDisks.Connector.ResolveInstance | backend/phif/connectors/hpevme/connector.py:1906-1911 | on an appliance that keeps the posted order every disk is paired with the volume made for it |
| HpeDisks.Connector.CreateManagedDisk | backend/phif/connectors/hpevme/connector.py:1995-2012 | the paired volume, or an error exactly if there is none |
| HpeDisks.EachDiskHasItsOwnVolume | backend/phif/connectors/hpevme/connector.py:1945-1956 | every disk has a volume of its own, at least its size, iff the disk orders are distinct |
| HpeDisks.SameOrderSharesAVolume | backend/phif/connectors/hpevme/connector.py:1945-1956 | two disks of one order, on an appliance that keeps the posted order, share a volume |
| HpeDisks.ReportIsRead | backend/phif/connectors/hpevme/connector.py:1938-1949 | reading the report gives the made volumes in posted order, however it lists them |
| ClusterDrift.NamesAreValid | backend/phif/connectors/hpevme/connector.py:704-715 | every derived host name is one the array accepts |
| ClusterDrift.ValidNamesStay | backend/phif/connectors/hpevme/connector.py:704-715 | a name the array accepts is left as it is |
| ClusterDrift.PruneDepartedFaHosts | backend/phif/connectors/base.py:949-977 | departed are the members not expected, told in order; without removals nothing changes, with them they are dropped one by one; without a group nothing is done |
| ClusterDrift.ReconcileRemovals | backend/phif/connectors/hpevme/connector.py:2293-2304 | expected is the union of all nodes' candidate names |
| ClusterDrift.PruningLeavesTheExpected | backend/phif/connectors/base.py:960-977 | with removals the group is its expected members in order, and the array loses exactly the departed hosts |
| ClusterDrift.AssessAgreesWithPrune | backend/phif/connectors/hpevme/connector.py:2136-2155 | assessment and pruning name the same departed hosts on every membership iff no node's host is hidden behind a later node of its name |
| ClusterDrift.DistinctNamesHideNothing | backend/phif/connectors/hpevme/connector.py:2142-2143 | distinct node names hide nothing |
| ClusterDrift.DuplicateNamesDisagree | backend/phif/connectors/hpevme/connector.py:2142-2143 | two nodes of one name: a member is assessed as departed and never pruned |
| ClusterDrift.KnownIsTheLast | backend/phif/connectors/hpevme/connector.py:2142-2143 | of several nodes with one name the last one is known |
| ClusterReady.BaselineSubnets | backend/phif/connectors/hpevme/connector.py:2184-2215 | the storage networks of the first configured node that has any; raises iff a configured node before it cannot be asked |
| ClusterReady.ScoreNode | backend/phif/connectors/base.py:900-947 | the reasons against a new node, in order |
| ClusterReady.ReadyExactlyWithoutReasons | backend/phif/connectors/base.py:900-947 | there are none iff the host answers, has the initiator of the protocol, and where portals are known has a card in their network, and in one of the configured nodes'; being out of reach is the only reason where it is one |
| ClusterReconcile.AssessCluster | backend/phif/connectors/hpevme/connector.py:2108-2182 | departed are the members no node is known by; new are the nodes known by no member, each with its host name and verdict; raises iff the baseline does |
| ClusterReconcile.AssessedInOrder | backend/phif/connectors/hpevme/connector.py:2147-2155 | the departed are told each once and in order |
| ClusterReconcile.RegisterHosts | backend/phif/connectors/hpevme/connector.py:884-1034 | asks node by node; the first one that does not answer raises, the first one without an initiator refuses, else the array's registration is made |
| ClusterReconcile.ReconcileCluster | backend/phif/connectors/hpevme/connector.py:2245-2318 | the summary and the new array are those of assessing, registering the ready nodes and pruning, each with its own listing of the nodes |
| ClusterReconcile.OnlyReadyArePicked | backend/phif/connectors/hpevme/connector.py:2277-2292 | whatever the hosts tell, only ready nodes are picked to be registered iff no new node is hidden behind a later node of its name on another host |
| ClusterReconcile.NotReadyTwinIsRegistered | backend/phif/connectors/hpevme/connector.py:2277-2292 | of two new nodes of one name the first one is ready, and the second one is registered |
| ClusterReconcile.ReadyNodesAreRegistered | backend/phif/connectors/hpevme/connector.py:2277-2292 | ready nodes are registered unless two of their hosts are in different groups, and then nothing changed |
| ClusterReconcile.RefusedIsReportedConfigured | backend/phif/connectors/hpevme/connector.py:2277-2292 | the picked nodes are reported as configured also if their registration was refused and left the array to the pruning |
| ClusterReconcile.ReconcileKeepsExactly | backend/phif/connectors/hpevme/connector.py:2277-2304 | a registered host stays on the array and in its group iff no removals are applied, or it is called by a name of a current node, or it is kept out of the pruned group; else it is deleted; hosts created for current nodes stay |
| ClusterReconcile.ReusedHostIsDeleted | backend/phif/connectors/hpevme/connector.py:2277-2304 | a host the array knows by another name is registered for a new node and deleted by the same call |
| ClusterReconcile.CreatedIsNotNewAgain | backend/phif/connectors/hpevme/connector.py:2142-2154 | a node whose host was created in the group is not new to the next assessment |
| VdiKeys.Ls | backend/phif/connectors/xcpng/files/smapiv3/org.xen.xapi.storage.purefa/sr.py:223-245 | one virtual disk per listed volume, then per listed snapshot, with its key, names, sizes and device |
| VdiKeys.VolumeKeyLeadsBack | backend/phif/connectors/xcpng/files/smapiv3/org.xen.xapi.storage.purefa/sr.py:134-152 | the key of a listed volume leads back to it iff it is a group member or has no dot |
| VdiKeys.SnapshotKeyLeadsBack | backend/phif/connectors/xcpng/files/smapiv3/org.xen.xapi.storage.purefa/sr.py:71-107 | a snapshot's key leads back to it iff its name has a dot or a slash |
| VdiKeys.KeysRoundTrip | backend/phif/connectors/xcpng/files/smapiv3/org.xen.xapi.storage.purefa/sr.py:96-171 | whatever listings could be read, every listed key leads back to its object, and no two keys are equal |
| VdiKeys.DottedVolumeIsLost | backend/phif/connectors/xcpng/files/smapiv3/org.xen.xapi.storage.purefa/sr.py:134-152 | a stand-alone volume with a dot whose key leads elsewhere |
| VdiKeys.ListsEveryObjectOnce | backend/phif/connectors/xcpng/files/smapiv3/org.xen.xapi.storage.purefa/purefa_fa.py:495-549 | the listings have only live objects of the repository, each once, and all of them when everything could be read |
| VdiKeys.PrefixesAreDisjoint | backend/phif/connectors/xcpng/files/smapiv3/org.xen.xapi.storage.purefa/sr.py:223-240 | no object is listed under both prefixes |
| VdiKeys.MemberKeepsItsUuid | backend/phif/connectors/xcpng/files/smapiv3/org.xen.xapi.storage.purefa/sr.py:56-58 | a new group member is listed under its own name and uuid |
| VdiKeys.DevicesTellVolumesApart | backend/phif/connectors/xcpng/files/smapiv3/org.xen.xapi.storage.purefa/purefa_fa.py:145-159 | two volumes have one device iff they have one serial, in any case, which for SCSI may be written with 0x or with the vendor prefix |

## Left out

- Cross-array migrations: replication is awaited by a sleep, so the code promises nothing to prove; source and destination share an array.
- `convert_to_vmfs`, staging of VMFS disks and `cleanup_migration_scratch` of vSphere: the hooks are the base class's.
- Progress messages and phase hooks: they are taken not to raise.
- HPE-style destinations in the whole-run model: `create_managed_disk` returns a new volume, as the base class says; that the HPE mapping gives each disk its own volume is proved beside it.
- Real time: polls and deadlines are counts, sleeps are steps of the environment.
- The spelling of power states: a connector answers running, stopped, unknown or something else.
- vCPUs, memory, firmware and NIC details of a VM: carried along, never decided on.
- Messages: the texts of errors and results are shortened.
- Job rows and `reconcile_orphaned_jobs`: a restart drops the runners of the process; what a launched migration reports afterwards is arbitrary.
- Groups: tasks of a group are one step relation rather than a class, because their order is arbitrary; the scheduler and the API calls on top of it are methods.
- HostRepeat.SecondCallCreatesNothingExactly: asks for names of the entries that are created, and like `SecondCallChangesNothing` for an array whose hosts and groups have names.
- HostRules.SecondCallIsANoOp: asks for trimmed, non-empty and disjoint initiators; `HostRepeat` has the general statements.
- The real array client: its search for hosts and its error handling wrap a vendor library that is not part of this model.
- EtagRules.RefusedExactlyWhenEndangered: the connector is the only writer of the VM, ids of VMs are not used twice, and no ETag is an empty string.
- Text.Lower: ASCII letters only, where Python lowers all letters.
- GroupReruns.RerunForgetsExactly: asks that no other re-run call is between its read and its write when this one reads.
- ClusterReconcile.ReconcileCluster: outside dry runs; host connectivity is set up without touching the array and is taken not to raise, and a host gives the same answer each time it is asked in one call.
- ClusterReconcile.ReconcileKeepsExactly: for an array whose hosts and groups have names.
- ClusterReady.ReadyExactlyWithoutReasons: networks are given with the portals they hold, as addresses are parsed by a library; protocols are the six that are known.
- VdiKeys.Ls: a failure of the first listing raises and lists nothing.
- NFS clusters: they have no host group to drift.
- Nutanix, HPE and other connectors' transport, inventory and wizards: calls into systems not shown, or user interface.
