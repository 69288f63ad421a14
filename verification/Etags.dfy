/**
 * The ETag cache of the Nutanix connector against a Prism Central that demands `If-Match`.
 *
 * A mutation is accepted at once and its task ends later, moving the VM's version both times.
 * What Prism Central does is scripted: answer `n` says what happens around the `n`-th request.
 */
module Etags {
  import opened Wrappers
  import opened Text

  type Tag = nat

  datatype Task = Task(vm: string, deletes: bool, fails: bool, over: bool)

  /**
   * `known` are the ids ever given to a VM. A `strict` server evaluates `If-Match` on reads as
   * well, as section 13.1.1 of RFC 9110 has it. `refused` counts answers 412 and 428.
   */
  datatype Server = Server(
    versions: map<string, Tag>, known: set<string>, tasks: map<nat, Task>, strict: bool, refused: nat)

  datatype Delivery =
    | Answered
    | Declined  // an error status, and no effect
    | Down      // no reply, and no effect
    | Lost      // served, but the reply never arrives

  datatype Disk = Disk(index: int, bus: string, volume: string, extId: string, container: string)

  datatype Container = Container(id: string, name: string)

  /** `born` appears before the request is served, `finish` end before it. */
  datatype Answer = Answer(
    born: Option<string>, finish: set<nat>, delivery: Delivery,
    slow: bool,    // a mutation becomes a task; otherwise it is done at once
    fails: bool,   // how that task ends
    echo: bool,    // the reply to a mutation carries an ETag
    empty: bool,   // the reply to a read has no data
    bare: bool,    // the reply to a read carries no ETag
    disks: seq<Disk>, containers: seq<Container>)

  type Script = nat -> Answer

  datatype Request =
    | GetVm(vm: string)
    | Mutate(vm: string, deletes: bool)
    | GetTask(task: nat)
    | Other

  datatype Progress = Unfinished | Ended | Broken

  datatype Reply = Reply(
    tag: Option<Tag>, task: Option<nat>, empty: bool, progress: Progress,
    disks: seq<Disk>, containers: seq<Container>)

  datatype Fault = Status(code: nat) | NoReply | TaskFailed | TimedOut | Invalid

  datatype Result<T> = Done(value: T) | Failed(fault: Fault)

  datatype State = State(etags: map<string, Tag>, server: Server, asked: nat)

  const POLLS: nat := 300  // a 600 second deadline, a poll every 2 seconds

  // ------------------------------------------------------------ the server ---

  /** Task `t` ends now and touches `vm`. */
  predicate EndsOn(server: Server, finish: set<nat>, t: nat, vm: string) {
    t in finish && t in server.tasks && !server.tasks[t].over && server.tasks[t].vm == vm
  }

  predicate Touched(server: Server, finish: set<nat>, vm: string) {
    exists t :: t in server.tasks && EndsOn(server, finish, t, vm)
  }

  predicate Removes(task: Task) {
    task.deletes && !task.fails
  }

  predicate Removed(server: Server, finish: set<nat>, vm: string) {
    exists t :: t in server.tasks && EndsOn(server, finish, t, vm) && Removes(server.tasks[t])
  }

  function Advance(server: Server, ans: Answer): Server {
    var moved := map vm | vm in server.versions && !Removed(server, ans.finish, vm) ::
      server.versions[vm] + if Touched(server, ans.finish, vm) then 1 else 0;
    var tasks := map t | t in server.tasks :: server.tasks[t].(over := server.tasks[t].over || t in ans.finish);
    if ans.born.Some? && ans.born.value !in server.known then
      server.(versions := moved[ans.born.value := 0], tasks := tasks, known := server.known + {ans.born.value})
    else
      server.(versions := moved, tasks := tasks)
  }

  /** The mutation is taken: at once, or as a task with the number of the request. */
  function Accept(server: Server, vm: string, deletes: bool, ans: Answer, number: nat): Server
    requires vm in server.versions
  {
    if ans.slow then
      server.(versions := server.versions[vm := server.versions[vm] + 1],
              tasks := server.tasks[number := Task(vm, deletes, ans.fails, false)])
    else if deletes then
      server.(versions := server.versions - {vm})
    else
      server.(versions := server.versions[vm := server.versions[vm] + 1])
  }

  function Refuse(server: Server, code: nat): (Server, Result<Reply>) {
    (server.(refused := server.refused + 1), Failed(Status(code)))
  }

  function Plain(ans: Answer): Reply {
    Reply(None, None, ans.empty, Unfinished, ans.disks, ans.containers)
  }

  function Serve(server: Server, req: Request, ifMatch: Option<Tag>, ans: Answer, number: nat)
    : (Server, Result<Reply>)
  {
    match req
    case GetVm(vm) =>
      if vm !in server.versions then (server, Failed(Status(404)))
      else if server.strict && ifMatch.Some? && ifMatch.value != server.versions[vm] then Refuse(server, 412)
      else (server, Done(Plain(ans).(tag := if ans.bare then None else Some(server.versions[vm]))))
    case Mutate(vm, deletes) =>
      if vm !in server.versions then (server, Failed(Status(404)))
      else if ifMatch.None? then Refuse(server, 428)
      else if ifMatch.value != server.versions[vm] then Refuse(server, 412)
      else
        var after := Accept(server, vm, deletes, ans, number);
        (after, Done(Plain(ans).(tag := if ans.echo && vm in after.versions then Some(after.versions[vm]) else None,
                                 task := if ans.slow then Some(number) else None)))
    case GetTask(t) =>
      (server, Done(Plain(ans).(progress := ProgressOf(server, t))))
    case Other =>
      (server, Done(Plain(ans)))
  }

  function ProgressOf(server: Server, t: nat): Progress {
    if t !in server.tasks || !server.tasks[t].over then Unfinished
    else if server.tasks[t].fails then Broken
    else Ended
  }

  // ------------------------------------------------------------ the connector ---

  function KeyOf(req: Request): Option<string> {
    match req
    case GetVm(vm) => Some(vm)
    case Mutate(vm, _) => Some(vm)
    case _ => None
  }

  function IfMatch(s: State, req: Request): Option<Tag> {
    var key := KeyOf(req);
    if key.Some? && key.value in s.etags then Some(s.etags[key.value]) else None
  }

  /** What the cache is after a reply. */
  function Cached(etags: map<string, Tag>, req: Request, reply: Reply): map<string, Tag> {
    var key := KeyOf(req);
    if key.None? then etags
    else if reply.tag.Some? then etags[key.value := reply.tag.value]
    else if req.Mutate? then etags - {key.value}
    else etags
  }

  function Api(s: State, script: Script, req: Request): (State, Result<Reply>) {
    var ans := script(s.asked);
    var server := Advance(s.server, ans);
    var s1 := s.(server := server, asked := s.asked + 1);
    var (after, result) := Serve(server, req, IfMatch(s, req), ans, s.asked);
    match ans.delivery
    case Declined => (s1, Failed(Status(500)))
    case Down => (s1, Failed(NoReply))
    case Lost => (s1.(server := after), Failed(NoReply))
    case Answered =>
      if result.Failed? then (s1.(server := after), result)
      else (s1.(server := after, etags := Cached(s.etags, req, result.value)), result)
  }

  function FindVm(s: State, script: Script, vm: string): (State, Result<Reply>) {
    var (s1, got) := Api(s, script, GetVm(vm));
    (s1, if got.Done? && got.value.empty then Failed(Invalid) else got)
  }

  /** Reads the VM unless its ETag is cached. */
  function EnsureEtag(s: State, script: Script, vm: string): (State, Result<()>) {
    if vm in s.etags then (s, Done(()))
    else
      var (s1, got) := FindVm(s, script, vm);
      (s1, if got.Done? then Done(()) else Failed(got.fault))
  }

  function Await(s: State, script: Script, task: nat, polls: nat): (State, Result<()>)
    decreases polls
  {
    var (s1, got) := Api(s, script, GetTask(task));
    if got.Failed? then (s1, Failed(got.fault))
    else if got.value.progress == Ended then (s1, Done(()))
    else if got.value.progress == Broken then (s1, Failed(TaskFailed))
    else if polls == 0 then (s1, Failed(TimedOut))
    else Await(s1, script, task, polls - 1)
  }

  /** A mutation and the wait for its task. */
  function Change(s: State, script: Script, vm: string, deletes: bool): (State, Result<()>) {
    var (s1, got) := Api(s, script, Mutate(vm, deletes));
    if got.Failed? then (s1, Failed(got.fault))
    else if got.value.task.None? then (s1, Done(()))
    else Await(s1, script, got.value.task.value, POLLS)
  }

  function EnsuredChange(s: State, script: Script, vm: string, deletes: bool): (State, Result<()>) {
    var (s1, got) := EnsureEtag(s, script, vm);
    if got.Failed? then (s1, got) else Change(s1, script, vm, deletes)
  }

  /** A guest shutdown falls back to a power-off, after reading the VM again. */
  function Stop(s: State, script: Script, vm: string, force: bool): (State, Result<()>) {
    var (s1, got) := EnsureEtag(s, script, vm);
    if got.Failed? then (s1, got) else
      var (s2, first) := Change(s1, script, vm, false);
      if first.Done? || force then (s2, first) else
        var (s3, again) := FindVm(s2, script, vm);
        if again.Failed? then (s3, Failed(again.fault)) else Change(s3, script, vm, false)
  }

  // ------------------------------------------------------------ disks ---

  /** The bus types of AHV; it has no virtio. */
  function AhvBus(bus: string): string {
    var b := Lower(bus);
    if b == "ide" then "IDE" else if b == "sata" then "SATA" else if b == "nvme" then "NVME" else "SCSI"
  }

  /** The id of the first container with this name or id. */
  function Named(containers: seq<Container>, wanted: string): Option<string> {
    if containers == [] then None
    else if containers[0].name == wanted || containers[0].id == wanted then Some(containers[0].id)
    else Named(containers[1..], wanted)
  }

  /** The container of the first disk that tells one. */
  function Housing(disks: seq<Disk>): Option<string> {
    if disks == [] then None
    else if disks[0].container != "" then Some(disks[0].container)
    else Housing(disks[1..])
  }

  /** The container of a new disk: the configured one, the VM's own, or the only one. */
  function Target(s: State, script: Script, vm: string, wanted: string): (State, Result<string>) {
    if wanted != "" then
      var (s1, got) := Api(s, script, Other);
      (s1, if got.Failed? then Failed(got.fault) else OrInvalid(Named(got.value.containers, wanted)))
    else
      var (s1, got) := FindVm(s, script, vm);
      if got.Failed? then (s1, Failed(got.fault))
      else if Housing(got.value.disks).Some? then (s1, Done(Housing(got.value.disks).value))
      else
        var (s2, all) := Api(s1, script, Other);
        (s2, if all.Failed? then Failed(all.fault)
             else if |all.value.containers| == 1 then Done(all.value.containers[0].id)
             else Failed(Invalid))
  }

  function OrInvalid(o: Option<string>): Result<string> {
    match o
    case Some(x) => Done(x)
    case None => Failed(Invalid)
  }

  /** The first disk read back at this address. */
  function DiskAt(disks: seq<Disk>, order: int, bus: string): Option<Disk> {
    if disks == [] then None
    else if disks[0].index == order && Lower(AhvBus(bus)) == Lower(disks[0].bus) then Some(disks[0])
    else DiskAt(disks[1..], order, bus)
  }

  /** The volume of the new disk, by the name the array knows it under if it knows it. */
  function VolumeOf(disk: Option<Disk>, resolve: string -> Option<string>): Result<string> {
    if disk.None? || disk.value.volume == "" then Failed(Invalid)
    else
      match resolve(disk.value.volume)
      case Some(name) => Done(name)
      case None => Done(disk.value.volume)
  }

  function AddDisk(
    s: State, script: Script, vm: string, order: int, bus: string, wanted: string, resolve: string -> Option<string>)
    : (State, Result<string>)
  {
    var (s1, got) := EnsureEtag(s, script, vm);
    if got.Failed? then (s1, Failed(got.fault)) else
      var (s2, container) := Target(s1, script, vm, wanted);
      if container.Failed? then (s2, container) else
        var (s3, added) := Change(s2, script, vm, false);
        if added.Failed? then (s3, Failed(added.fault)) else
          var (s4, back) := FindVm(s3, script, vm);
          (s4, if back.Failed? then Failed(back.fault)
               else VolumeOf(DiskAt(back.value.disks, order, bus), resolve))
  }

  function Delete(s: State, script: Script, vm: string, keepDisks: bool): (State, Result<()>) {
    if keepDisks then (s, Failed(Invalid)) else EnsuredChange(s, script, vm, true)
  }

  /** `s.split("::")[-1]`, where `part` is what came after the last separator so far. */
  function Leaf(s: string, part: string): string {
    if s == [] then part
    else if |s| >= 2 && s[..2] == "::" then Leaf(s[2..], [])
    else Leaf(s[1..], part + [s[0]])
  }

  /** The disk is to go: it is asked for, or all are, and it can be named. */
  predicate Asked(disk: Disk, wanted: set<string>) {
    (wanted == {} || exists w :: w in wanted && Leaf(w, []) == Leaf(disk.volume, [])) && disk.extId != ""
  }

  /** One disk after the other, reading the VM back in between; `gone` are those done. */
  function DetachEach(s: State, script: Script, vm: string, disks: seq<Disk>, wanted: set<string>, gone: seq<string>)
    : (State, Result<seq<string>>)
    decreases |disks|
  {
    if disks == [] then (s, Done(gone))
    else if !Asked(disks[0], wanted) then DetachEach(s, script, vm, disks[1..], wanted, gone)
    else
      var (s1, did) := Change(s, script, vm, false);
      if did.Failed? then (s1, Failed(did.fault)) else
        var (s2, back) := FindVm(s1, script, vm);
        if back.Failed? then (s2, Failed(back.fault))
        else
          DetachEach(s2, script, vm, disks[1..], wanted,
                     gone + [if disks[0].volume != "" then disks[0].volume else disks[0].extId])
  }

  function Detach(s: State, script: Script, vm: string, wanted: set<string>): (State, Result<seq<string>>) {
    var (s1, got) := FindVm(s, script, vm);
    if got.Failed? then (s1, Failed(got.fault)) else DetachEach(s1, script, vm, got.value.disks, wanted, [])
  }

  // ------------------------------------------------------------ the calls ---

  datatype Call =
    | Power(vm: string)
    | StopVm(vm: string, force: bool)
    | StartVm(vm: string)
    | AddManagedDisk(vm: string, order: int, bus: string, container: string, resolve: string -> Option<string>)
    | DeleteVm(vm: string, keepDisks: bool)
    | DetachVolumes(vm: string, wanted: set<string>)

  function Do(s: State, script: Script, call: Call): State {
    match call
    case Power(vm) => FindVm(s, script, vm).0
    case StopVm(vm, force) => Stop(s, script, vm, force).0
    case StartVm(vm) => EnsuredChange(s, script, vm, false).0
    case AddManagedDisk(vm, order, bus, container, resolve) =>
      AddDisk(s, script, vm, order, bus, container, resolve).0
    case DeleteVm(vm, keepDisks) => Delete(s, script, vm, keepDisks).0
    case DetachVolumes(vm, wanted) => Detach(s, script, vm, wanted).0
  }

  function DoAll(s: State, script: Script, calls: seq<Call>): State {
    if calls == [] then s else Do(DoAll(s, script, calls[..|calls| - 1]), script, calls[|calls| - 1])
  }
}
