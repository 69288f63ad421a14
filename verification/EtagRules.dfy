/** When the ETag cache is right: exactly when no request can be refused with 412 or 428. */
module EtagRules {
  import opened Wrappers
  import opened Etags
  import opened EtagTraces

  // ------------------------------------------------------------ kind scripts ---

  /** If request `n` becomes a task, the task ends before the polls are given up. */
  ghost predicate Timely(script: Script, n: nat) {
    script(n).slow && script(n).delivery.Answered? ==> exists m: nat :: EndsAt(script, n, m)
  }

  /** It ends before request `m`, and the polls until then are answered. */
  ghost predicate EndsAt(script: Script, n: nat, m: nat) {
    && n < m <= n + 1 + POLLS && n in script(m).finish
    && AnsweredUntil(script, n + 1, m)
  }

  ghost predicate AnsweredUntil(script: Script, n: nat, m: nat) {
    forall k: nat :: n <= k < m ==> script(k).delivery.Answered?
  }

  /**
   * From request `start` on no reply to a served request is lost, replies to reads of a VM have an
   * ETag and those to mutations have none, and tasks are timely. Requests may still fail, and
   * earlier tasks end whenever they do.
   */
  ghost predicate Kind(script: Script, start: nat) {
    forall n: nat :: n >= start ==> KindAt(script, n)
  }

  ghost predicate KindAt(script: Script, n: nat) {
    !script(n).echo && !script(n).bare && !script(n).delivery.Lost? && Timely(script, n)
  }

  // ------------------------------------------------------------ settled states ---

  /** A cached ETag that is not the version of its VM. */
  predicate Stale(s: State, vm: string) {
    vm in s.etags && vm in s.server.versions && s.etags[vm] != s.server.versions[vm]
  }

  /** A task at work that will move the version of a VM, and leave the VM there. */
  predicate AtWork(s: State, t: nat) {
    && t in s.server.tasks && !s.server.tasks[t].over && !Removes(s.server.tasks[t])
    && s.server.tasks[t].vm in s.server.versions
  }

  ghost predicate Settled(s: State) {
    Tidy(s) && (forall vm :: !Stale(s, vm)) && (forall t: nat :: !AtWork(s, t))
  }

  /** Settled but for the task `t`, of a VM whose ETag is not cached. */
  ghost predicate Waiting(s: State, t: nat) {
    && Tidy(s) && (forall vm :: !Stale(s, vm)) && (forall u: nat :: u != t ==> !AtWork(s, u))
    && t in s.server.tasks && s.server.tasks[t].vm !in s.etags
  }

  function Later(s: State, ans: Answer): State {
    s.(server := Advance(s.server, ans), asked := s.asked + 1)
  }

  /** A VM that stays is only touched by tasks at work on it. */
  lemma OnlyWorkTouches(s: State, ans: Answer, vm: string)
    requires vm in s.server.versions && !Removed(s.server, ans.finish, vm)
    ensures Touched(s.server, ans.finish, vm) ==> exists u: nat :: AtWork(s, u) && s.server.tasks[u].vm == vm
  {
    if Touched(s.server, ans.finish, vm) {
      var u :| u in s.server.tasks && EndsOn(s.server, ans.finish, u, vm);
      assert AtWork(s, u);
    }
  }

  lemma TimeKeepsWaiting(s: State, ans: Answer, t: nat)
    requires Waiting(s, t)
    ensures Waiting(Later(s, ans), t) && Later(s, ans).server.refused == s.server.refused
    ensures t in ans.finish ==> Settled(Later(s, ans))
  {
    TimeStaysTidy(s, ans);
    var x := Later(s, ans);
    forall vm ensures !Stale(x, vm) {
      assert !Stale(s, vm);
      if vm in s.etags && vm in x.server.versions {
        OnlyWorkTouches(s, ans, vm);
      }
    }
    forall u: nat | u != t || t in ans.finish ensures !AtWork(x, u) {
      assert u != t ==> !AtWork(s, u);
    }
  }

  lemma TimeKeepsSettled(s: State, ans: Answer)
    requires Settled(s)
    ensures Settled(Later(s, ans)) && Later(s, ans).server.refused == s.server.refused
  {
    TimeStaysTidy(s, ans);
    var x := Later(s, ans);
    forall vm ensures !Stale(x, vm) {
      assert !Stale(s, vm);
      if vm in s.etags && vm in x.server.versions {
        OnlyWorkTouches(s, ans, vm);
      }
    }
    forall u: nat ensures !AtWork(x, u) {
      assert !AtWork(s, u);
    }
  }

  // ------------------------------------------------------------ requests ---

  /** Nothing was refused from `s` to `x`. */
  predicate Unrefused(s: State, x: State) {
    x.server.refused == s.server.refused
  }

  lemma ReadKeepsSettled(s: State, script: Script, req: Request)
    requires Settled(s) && !req.Mutate?
    ensures var (x, got) := Api(s, script, req);
            && Settled(x) && Unrefused(s, x) && s.etags.Keys <= x.etags.Keys && x.asked == s.asked + 1
            && (req.GetVm? && got.Done? && !script(s.asked).bare ==> req.vm in x.etags)
  {
    var mid := Later(s, script(s.asked));
    TimeKeepsSettled(s, script(s.asked));
    ApiStaysTidy(s, script, req);
    assert req.GetVm? ==> !Stale(mid, req.vm);
    hide Advance, Removes;
    var x := Api(s, script, req).0;
    forall vm ensures !Stale(x, vm) {
      assert !Stale(mid, vm);
    }
    forall t: nat ensures !AtWork(x, t) {
      assert !AtWork(mid, t);
    }
  }

  lemma PollKeepsWaiting(s: State, script: Script, t: nat)
    requires Waiting(s, t)
    ensures var (x, got) := Api(s, script, GetTask(t));
            && Waiting(x, t) && Unrefused(s, x) && x.asked == s.asked + 1
            && (t in script(s.asked).finish ==> Settled(x) && (got.Done? ==> got.value.progress != Unfinished))
            && (got.Done? && got.value.progress != Unfinished ==> Settled(x))
            && (script(s.asked).delivery.Answered? ==> got.Done?)
  {
    TimeKeepsWaiting(s, script(s.asked), t);
    ApiStaysTidy(s, script, GetTask(t));
    var mid := Later(s, script(s.asked));
    hide Advance, Removes, Tidy;
    var x := Api(s, script, GetTask(t)).0;
    assert x == mid;
  }

  /** With a cached ETag a mutation is not refused for it, and the ETag it used is dropped. */
  lemma MutatingIsNotRefused(s: State, script: Script, vm: string, deletes: bool)
    requires Settled(s) && vm in s.etags && !script(s.asked).echo && !script(s.asked).delivery.Lost?
    ensures var (x, got) := Api(s, script, Mutate(vm, deletes));
            && Unrefused(s, x)
            && if got.Done? && got.value.task.Some? then
                 && got.value.task.value == s.asked && x.asked == s.asked + 1 && Waiting(x, s.asked)
                 && script(s.asked).slow && script(s.asked).delivery.Answered?
               else Settled(x)
  {
    var ans := script(s.asked);
    var mid := Later(s, ans);
    TimeKeepsSettled(s, ans);
    ApiStaysTidy(s, script, Mutate(vm, deletes));
    assert !Stale(mid, vm);
    hide Advance, Removes, Tidy;
    var x := Api(s, script, Mutate(vm, deletes)).0;
    forall v ensures !Stale(x, v) {
      assert !Stale(mid, v);
    }
    forall t: nat | t != s.asked ensures !AtWork(x, t) {
      assert !AtWork(mid, t);
    }
    assert !AtWork(mid, s.asked);
  }

  lemma AnsweredOn(script: Script, n: nat, m: nat)
    requires AnsweredUntil(script, n, m) && n <= m
    ensures n < m ==> script(n).delivery.Answered? && AnsweredUntil(script, n + 1, m)
  {}

  lemma AwaitOnce(s: State, script: Script, t: nat, polls: nat)
    ensures var (x, got) := Api(s, script, GetTask(t));
            Await(s, script, t, polls).0 ==
            if got.Done? && got.value.progress == Unfinished && polls > 0 then Await(x, script, t, polls - 1).0 else x
  {
    var (x, got) := Api(s, script, GetTask(t));
    hide Api;
    assert got.Done? ==> got.value.progress.Unfinished? || got.value.progress.Ended? || got.value.progress.Broken?;
  }

  /** Waiting sees the task end, and then nothing is at work. */
  lemma {:induction false} WaitingEndsSettled(s: State, script: Script, t: nat, polls: nat, m: nat)
    requires Waiting(s, t) && s.asked <= m <= s.asked + polls && t in script(m).finish
    requires AnsweredUntil(script, s.asked, m)
    ensures Settled(Await(s, script, t, polls).0) && Unrefused(s, Await(s, script, t, polls).0)
    decreases polls
  {
    hide Api, Await, Waiting, Settled, AnsweredUntil;
    PollKeepsWaiting(s, script, t);
    AnsweredOn(script, s.asked, m);
    AwaitOnce(s, script, t, polls);
    var (x, got) := Api(s, script, GetTask(t));
    if s.asked < m && got.Done? && got.value.progress == Unfinished {
      WaitingEndsSettled(x, script, t, polls - 1, m);
    }
  }

  lemma ChangeKeepsSettled(s: State, script: Script, vm: string, deletes: bool)
    requires Settled(s) && vm in s.etags && Kind(script, s.asked)
    ensures Settled(Change(s, script, vm, deletes).0) && Unrefused(s, Change(s, script, vm, deletes).0)
  {
    assert KindAt(script, s.asked);
    MutatingIsNotRefused(s, script, vm, deletes);
    hide Api, Settled, Await, Waiting;
    var (x, got) := Api(s, script, Mutate(vm, deletes));
    if got.Done? && got.value.task.Some? {
      var m: nat :| EndsAt(script, s.asked, m);
      WaitingEndsSettled(x, script, s.asked, POLLS, m);
    }
  }

  // ------------------------------------------------------------ calls ---

  /** Requests are only ever added. */
  lemma {:induction false} RequestsAreCounted(s: State, script: Script, reqs: seq<Request>)
    ensures ApiAll(s, script, reqs).asked == s.asked + |reqs|
  {
    if reqs != [] {
      RequestsAreCounted(s, script, reqs[..|reqs| - 1]);
    }
  }

  lemma FollowingIsLater(s: State, script: Script, x: State)
    requires Follows(s, script, x)
    ensures x.asked >= s.asked
    ensures Kind(script, s.asked) ==> Kind(script, x.asked)
  {
    var reqs :| ApiAll(s, script, reqs) == x;
    RequestsAreCounted(s, script, reqs);
  }

  /** The state is settled, comes from `s`, and nothing was refused in between. */
  ghost predicate Fine(s: State, script: Script, x: State) {
    Settled(x) && Unrefused(s, x) && Follows(s, script, x) && Kind(script, x.asked)
  }

  lemma FineChange(s: State, script: Script, x: State, vm: string, deletes: bool)
    requires Fine(s, script, x) && vm in x.etags
    ensures Fine(s, script, Change(x, script, vm, deletes).0)
  {
    ChangeKeepsSettled(x, script, vm, deletes);
    FollowsChange(s, script, x, vm, deletes);
    FollowsSelf(x, script);
    FollowsChange(x, script, x, vm, deletes);
    FollowingIsLater(x, script, Change(x, script, vm, deletes).0);
    hide Change, Settled, Follows, Kind;
  }

  lemma FineRead(s: State, script: Script, x: State, req: Request)
    requires Fine(s, script, x) && !req.Mutate?
    ensures var (y, got) := Api(x, script, req);
            && Fine(s, script, y) && x.etags.Keys <= y.etags.Keys
            && (req.GetVm? && got.Done? ==> req.vm in y.etags)
  {
    assert KindAt(script, x.asked);
    ReadKeepsSettled(x, script, req);
    FollowsApi(s, script, x, req);
    hide Api, Settled, Follows;
  }

  lemma FineEnsure(s: State, script: Script, x: State, vm: string)
    requires Fine(s, script, x)
    ensures var (y, got) := EnsureEtag(x, script, vm);
            Fine(s, script, y) && (got.Done? ==> vm in y.etags)
  {
    hide Api, Fine;
    FineRead(s, script, x, GetVm(vm));
  }

  lemma FineStop(s: State, script: Script, x: State, vm: string, force: bool)
    requires Fine(s, script, x)
    ensures Fine(s, script, Stop(x, script, vm, force).0)
  {
    hide Fine, EnsureEtag, Change, Api;
    FineEnsure(s, script, x, vm);
    var (x1, got) := EnsureEtag(x, script, vm);
    if got.Done? {
      FineChange(s, script, x1, vm, false);
      var x2 := Change(x1, script, vm, false).0;
      FineRead(s, script, x2, GetVm(vm));
      if FindVm(x2, script, vm).1.Done? {
        FineChange(s, script, FindVm(x2, script, vm).0, vm, false);
      }
    }
  }

  lemma FineTarget(s: State, script: Script, x: State, vm: string, wanted: string)
    requires Fine(s, script, x)
    ensures var y := Target(x, script, vm, wanted).0;
            Fine(s, script, y) && x.etags.Keys <= y.etags.Keys
  {
    hide Fine, Api, Named, Housing;
    FineRead(s, script, x, Other);
    FineRead(s, script, x, GetVm(vm));
    FineRead(s, script, FindVm(x, script, vm).0, Other);
  }

  lemma FineAdd(s: State, script: Script, x: State, call: Call)
    requires Fine(s, script, x) && call.AddManagedDisk?
    ensures Fine(s, script, Do(x, script, call))
  {
    hide Fine, EnsureEtag, Change, Api, Target;
    FineEnsure(s, script, x, call.vm);
    var (x1, got) := EnsureEtag(x, script, call.vm);
    if got.Done? {
      FineTarget(s, script, x1, call.vm, call.container);
      var x2 := Target(x1, script, call.vm, call.container).0;
      FineChange(s, script, x2, call.vm, false);
      FineRead(s, script, Change(x2, script, call.vm, false).0, GetVm(call.vm));
    }
  }

  lemma {:induction false} FineDetach(
    s: State, script: Script, x: State, vm: string, disks: seq<Disk>, wanted: set<string>, gone: seq<string>)
    requires Fine(s, script, x) && vm in x.etags
    ensures Fine(s, script, DetachEach(x, script, vm, disks, wanted, gone).0)
    decreases |disks|
  {
    hide Fine, Change, Api, Asked;
    if disks != [] {
      FineDetach(s, script, x, vm, disks[1..], wanted, gone);
      FineChange(s, script, x, vm, false);
      var x1 := Change(x, script, vm, false).0;
      FineRead(s, script, x1, GetVm(vm));
      var (x2, back) := FindVm(x1, script, vm);
      if back.Done? {
        FineDetach(s, script, x2, vm, disks[1..], wanted,
                   gone + [if disks[0].volume != "" then disks[0].volume else disks[0].extId]);
      }
    }
  }

  lemma FineDo(s: State, script: Script, x: State, call: Call)
    requires Fine(s, script, x)
    ensures Fine(s, script, Do(x, script, call))
  {
    hide Fine, Change, Api, Stop, AddDisk, EnsureEtag, DetachEach;
    match call
    case Power(vm) => FineRead(s, script, x, GetVm(vm));
    case StopVm(vm, force) => FineStop(s, script, x, vm, force);
    case StartVm(vm) =>
      FineEnsure(s, script, x, vm);
      if EnsureEtag(x, script, vm).1.Done? { FineChange(s, script, EnsureEtag(x, script, vm).0, vm, false); }
    case AddManagedDisk(_, _, _, _, _) => FineAdd(s, script, x, call);
    case DeleteVm(vm, keepDisks) =>
      FineEnsure(s, script, x, vm);
      if EnsureEtag(x, script, vm).1.Done? { FineChange(s, script, EnsureEtag(x, script, vm).0, vm, true); }
    case DetachVolumes(vm, wanted) =>
      FineRead(s, script, x, GetVm(vm));
      var (x1, got) := FindVm(x, script, vm);
      if got.Done? { FineDetach(s, script, x1, vm, got.value.disks, wanted, []); }
  }

  lemma {:induction false} FineDoAll(s: State, script: Script, calls: seq<Call>)
    requires Settled(s) && Kind(script, s.asked)
    ensures Fine(s, script, DoAll(s, script, calls))
  {
    hide Do;
    if calls == [] {
      FollowsSelf(s, script);
    } else {
      FineDoAll(s, script, calls[..|calls| - 1]);
      FineDo(s, script, DoAll(s, script, calls[..|calls| - 1]), calls[|calls| - 1]);
      hide Fine;
    }
  }

  // ------------------------------------------------------------ exactly when ---

  /** Something is there to be refused for: a stale ETag, or a task that will make one stale. */
  ghost predicate Endangered(s: State) {
    (exists vm :: Stale(s, vm)) || (exists t: nat :: AtWork(s, t))
  }

  const PLAIN := Answer(None, {}, Answered, false, false, false, false, false, [], [])

  lemma NothingHappens(server: Server)
    ensures Advance(server, PLAIN) == server
  {
    assert forall vm :: vm in server.versions ==> !Touched(server, {}, vm) && !Removed(server, {}, vm);
    assert Advance(server, PLAIN).versions == server.versions;
    assert Advance(server, PLAIN).tasks == server.tasks;
  }

  lemma TaskEnds(server: Server, t: nat)
    requires t in server.tasks && !server.tasks[t].over && !Removes(server.tasks[t])
    requires server.tasks[t].vm in server.versions
    ensures var after := Advance(server, PLAIN.(finish := {t}));
            && after.tasks == server.tasks[t := server.tasks[t].(over := true)]
            && server.tasks[t].vm in after.versions
            && after.versions[server.tasks[t].vm] == server.versions[server.tasks[t].vm] + 1
            && after.refused == server.refused && after.known == server.known && after.strict == server.strict
  {
    var vm := server.tasks[t].vm;
    assert EndsOn(server, {t}, t, vm) && Touched(server, {t}, vm);
    assert !Removed(server, {t}, vm);
    assert Advance(server, PLAIN.(finish := {t})).tasks == server.tasks[t := server.tasks[t].(over := true)];
  }

  /** A mutation replayed with an ETag that is not the version is refused. */
  lemma StaleIsRefused(s: State, script: Script, vm: string)
    requires vm in s.etags && vm in Advance(s.server, script(s.asked)).versions && script(s.asked).delivery.Answered?
    requires s.etags[vm] != Advance(s.server, script(s.asked)).versions[vm]
    ensures var x := Do(s, script, StartVm(vm));
            x.server.refused == Advance(s.server, script(s.asked)).refused + 1 && !Unrefused(s, x)
  {
    assert Api(s, script, Mutate(vm, false)).1 == Failed(Status(412));
    hide Advance;
    RefusedStays(s.server, script(s.asked));
  }

  lemma RefusedStays(server: Server, ans: Answer)
    ensures Advance(server, ans).refused == server.refused
  {}

  /** A script in which nothing happens but that `ends` end before request `at`. */
  function QuietScript(at: nat, ends: set<nat>): Script {
    n => if n == at then PLAIN.(finish := ends) else PLAIN
  }

  lemma QuietIsKind(at: nat, ends: set<nat>, start: nat)
    ensures Kind(QuietScript(at, ends), start)
  {
    forall n: nat | n >= start ensures KindAt(QuietScript(at, ends), n) {
    }
  }

  /** A read brings the version that a task at work is about to move. */
  lemma WorkIsRefused(s: State, t: nat)
    requires AtWork(s, t) && forall vm :: !Stale(s, vm)
    ensures var vm := s.server.tasks[t].vm;
            !Unrefused(s, DoAll(s, QuietScript(s.asked + 1, {t}), [Power(vm), StartVm(vm)]))
  {
    var vm := s.server.tasks[t].vm;
    var script := QuietScript(s.asked + 1, {t});
    NothingHappens(s.server);
    TaskEnds(s.server, t);
    assert !Stale(s, vm);
    hide Advance;
    var x := Do(s, script, Power(vm));
    assert x.server == s.server && vm in x.etags && x.etags[vm] == s.server.versions[vm] && x.asked == s.asked + 1;
    StaleIsRefused(x, script, vm);
    TwoCalls(s, script, Power(vm), StartVm(vm));
    hide Do;
  }

  lemma TwoCalls(s: State, script: Script, a: Call, b: Call)
    ensures DoAll(s, script, [a]) == Do(s, script, a)
    ensures DoAll(s, script, [a, b]) == Do(Do(s, script, a), script, b)
  {
    hide Do;
    assert [a, b][..1] == [a] && [a][..0] == [];
  }

  lemma StaleVmIsRefused(s: State, vm: string)
    requires Stale(s, vm)
    ensures !Unrefused(s, DoAll(s, QuietScript(s.asked, {}), [StartVm(vm)]))
  {
    NothingHappens(s.server);
    StaleIsRefused(s, QuietScript(s.asked, {}), vm);
    TwoCalls(s, QuietScript(s.asked, {}), StartVm(vm), StartVm(vm));
    hide Do;
  }

  /**
   * From any tidy state, some kind script and some calls lead to a refusal with 412 or 428 if and
   * only if a cached ETag is stale already, or a task at work will leave its VM with another
   * version.
   */
  lemma RefusedExactlyWhenEndangered(s: State)
    requires Tidy(s)
    ensures (exists script, calls :: Kind(script, s.asked) && !Unrefused(s, DoAll(s, script, calls)))
            <==> Endangered(s)
  {
    if vm :| Stale(s, vm) {
      StaleVmIsRefused(s, vm);
      QuietIsKind(s.asked, {}, s.asked);
    } else if t: nat :| AtWork(s, t) {
      WorkIsRefused(s, t);
      QuietIsKind(s.asked + 1, {t}, s.asked);
    } else {
      forall script, calls | Kind(script, s.asked) ensures Unrefused(s, DoAll(s, script, calls)) {
        FineDoAll(s, script, calls);
      }
    }
    hide DoAll, Kind, AtWork, Stale;
  }

  /** A connector that has called nothing is not endangered, whatever the VMs. */
  lemma {:induction false} NothingIsEverRefused(s: State, script: Script, calls: seq<Call>)
    requires Tidy(s) && s.etags == map[] && s.server.tasks == map[]
    requires Kind(script, s.asked)
    ensures var x := DoAll(s, script, calls);
            Unrefused(s, x) && !Endangered(x) && Kind(script, x.asked)
  {
    assert forall vm :: !Stale(s, vm);
    assert forall t: nat :: !AtWork(s, t);
    FineDoAll(s, script, calls);
    hide DoAll;
  }

  // ------------------------------------------------------------ how it comes to that ---

  const SLOW := PLAIN.(slow := true)

  lemma SameTime(server: Server, ans: Answer)
    requires ans.finish == {} && ans.born.None?
    ensures Advance(server, ans) == server
  {
    NothingHappens(server);
    assert Advance(server, ans) == Advance(server, PLAIN);
  }

  /** The reply to a power-on is lost: the next one replays a stale ETag. */
  lemma LostReplyIsRefusedNext(s: State, script: Script, vm: string)
    requires Settled(s) && vm in s.etags && vm in s.server.versions
    requires script(s.asked) == PLAIN.(delivery := Lost) && script(s.asked + 1) == PLAIN
    ensures var once := Do(s, script, StartVm(vm));
            Stale(once, vm) && !Unrefused(once, Do(once, script, StartVm(vm)))
  {
    assert !Stale(s, vm);
    SameTime(s.server, script(s.asked));
    hide Advance;
    var (x, got) := Api(s, script, Mutate(vm, false));
    assert x.server.versions[vm] == s.server.versions[vm] + 1 && got == Failed(NoReply);
    assert Do(s, script, StartVm(vm)) == x;
    SameTime(x.server, script(x.asked));
    StaleIsRefused(x, script, vm);
  }

  /** A read that brings no ETag leaves the next mutation without one: 428. */
  lemma BareReadIsRefusedNext(s: State, script: Script, vm: string)
    requires vm !in s.etags && vm in s.server.versions
    requires script(s.asked) == PLAIN.(bare := true) && script(s.asked + 1) == PLAIN
    ensures var (x, got) := EnsuredChange(s, script, vm, false);
            got == Failed(Status(428)) && !Unrefused(s, x)
  {
    SameTime(s.server, script(s.asked));
    SameTime(s.server, script(s.asked + 1));
    hide Advance;
    var (s1, got) := FindVm(s, script, vm);
    assert s1 == s.(asked := s.asked + 1) && got.Done?;
    assert Api(s1, script, Mutate(vm, false)).1 == Failed(Status(428));
  }

  lemma EndedTaskIsSeen(s: State, script: Script, t: nat)
    requires t in s.server.tasks && !s.server.tasks[t].over && !Removes(s.server.tasks[t])
    requires s.server.tasks[t].vm in s.server.versions && !s.server.tasks[t].fails
    requires script(s.asked) == PLAIN.(finish := {t})
    ensures Await(s, script, t, POLLS) == (Later(s, PLAIN.(finish := {t})), Done(()))
  {
    TaskEnds(s.server, t);
    hide Advance;
  }

  /** An ETag on the reply to a mutation is cached, and stale once the task ends. */
  lemma EchoedEtagIsRefusedNext(s: State, script: Script, vm: string)
    requires Settled(s) && vm in s.etags && vm in s.server.versions
    requires script(s.asked) == SLOW.(echo := true)
    requires script(s.asked + 1) == PLAIN.(finish := {s.asked}) && script(s.asked + 2) == PLAIN
    ensures var once := Do(s, script, StartVm(vm));
            Stale(once, vm) && !Unrefused(once, Do(once, script, StartVm(vm)))
  {
    assert !Stale(s, vm);
    SameTime(s.server, script(s.asked));
    hide Advance, Await;
    var (s1, got) := Api(s, script, Mutate(vm, false));
    assert s1.etags[vm] == s1.server.versions[vm] && got.Done? && got.value.task == Some(s.asked);
    TaskEnds(s1.server, s.asked);
    EndedTaskIsSeen(s1, script, s.asked);
    var s2 := Await(s1, script, s.asked, POLLS).0;
    assert Do(s, script, StartVm(vm)) == s2;
    SameTime(s2.server, script(s2.asked));
    StaleIsRefused(s2, script, vm);
  }

  /** A mutation is taken, and the first poll of its task gets no reply. */
  lemma PollIsLost(s: State, script: Script, vm: string)
    requires Settled(s) && vm in s.etags && vm in s.server.versions
    requires script(s.asked) == SLOW && script(s.asked + 1) == PLAIN.(delivery := Down)
    ensures Change(s, script, vm, false) ==
            (State(s.etags - {vm}, Accept(s.server, vm, false, SLOW, s.asked), s.asked + 2), Failed(NoReply))
  {
    assert !Stale(s, vm);
    SameTime(s.server, script(s.asked));
    var s1 := Api(s, script, Mutate(vm, false)).0;
    SameTime(s1.server, script(s1.asked));
    hide Advance;
  }

  /**
   * A guest shutdown that outlives its poll and ends after the VM was read again makes the
   * power-off that `stop_vm` falls back to fail.
   */
  lemma LateShutdownIsRefused(s: State, script: Script, vm: string)
    requires Settled(s) && vm in s.etags && vm in s.server.versions
    requires script(s.asked) == SLOW && script(s.asked + 1) == PLAIN.(delivery := Down)
    requires script(s.asked + 2) == PLAIN && script(s.asked + 3) == PLAIN.(finish := {s.asked})
    ensures Stop(s, script, vm, false).1 == Failed(Status(412))
  {
    PollIsLost(s, script, vm);
    var s2 := Change(s, script, vm, false).0;
    SameTime(s2.server, script(s2.asked));
    hide Advance, Await;
    var (s3, back) := FindVm(s2, script, vm);
    assert s3.server == s2.server && s3.etags[vm] == s2.server.versions[vm] && back.Done?;
    TaskEnds(s3.server, s.asked);
    assert Api(s3, script, Mutate(vm, false)).1 == Failed(Status(412));
  }
}
