/**
 * Calls of the connector as sequences of requests: what holds after any of them, whatever the
 * server answers, and the ETag that no call ever gets rid of.
 */
module EtagTraces {
  import opened Wrappers
  import opened Etags

  // ------------------------------------------------------------ what always holds ---

  /** Ids are not used twice, and tasks have the numbers of earlier requests. */
  predicate Tidy(s: State) {
    && s.server.versions.Keys <= s.server.known && s.etags.Keys <= s.server.known
    && forall t :: t in s.server.tasks ==> t < s.asked && s.server.tasks[t].vm in s.server.known
  }

  function ApiAll(s: State, script: Script, reqs: seq<Request>): State {
    if reqs == [] then s else Api(ApiAll(s, script, reqs[..|reqs| - 1]), script, reqs[|reqs| - 1]).0
  }

  lemma {:induction false} ApiConcat(s: State, script: Script, a: seq<Request>, b: seq<Request>)
    ensures ApiAll(s, script, a + b) == ApiAll(ApiAll(s, script, a), script, b)
  {
    hide Api;
    if b == [] {
      assert a + b == a;
    } else {
      assert (a + b)[..|a + b| - 1] == a + b[..|b| - 1];
      ApiConcat(s, script, a, b[..|b| - 1]);
    }
  }

  /** The state comes from another by requests, which may be many. */
  ghost predicate Follows(s: State, script: Script, x: State) {
    exists reqs :: ApiAll(s, script, reqs) == x
  }

  lemma FollowsSelf(s: State, script: Script)
    ensures Follows(s, script, s)
  {
    assert ApiAll(s, script, []) == s;
  }

  lemma FollowsApi(s: State, script: Script, x: State, req: Request)
    requires Follows(s, script, x)
    ensures Follows(s, script, Api(x, script, req).0)
  {
    hide Api;
    var reqs :| ApiAll(s, script, reqs) == x;
    assert (reqs + [req])[..|reqs|] == reqs;
    assert ApiAll(s, script, reqs + [req]) == Api(x, script, req).0;
  }

  lemma {:induction false} FollowsAwait(s: State, script: Script, x: State, task: nat, polls: nat)
    requires Follows(s, script, x)
    ensures Follows(s, script, Await(x, script, task, polls).0)
    decreases polls
  {
    hide Api, Follows;
    FollowsApi(s, script, x, GetTask(task));
    if polls > 0 {
      FollowsAwait(s, script, Api(x, script, GetTask(task)).0, task, polls - 1);
    }
  }

  lemma FollowsChange(s: State, script: Script, x: State, vm: string, deletes: bool)
    requires Follows(s, script, x)
    ensures Follows(s, script, Change(x, script, vm, deletes).0)
  {
    hide Api, Follows, Await;
    FollowsApi(s, script, x, Mutate(vm, deletes));
    var (x1, got) := Api(x, script, Mutate(vm, deletes));
    if got.Done? && got.value.task.Some? {
      FollowsAwait(s, script, x1, got.value.task.value, POLLS);
    }
  }

  lemma {:induction false} FollowsDetach(
    s: State, script: Script, x: State, vm: string, disks: seq<Disk>, wanted: set<string>, gone: seq<string>)
    requires Follows(s, script, x)
    ensures Follows(s, script, DetachEach(x, script, vm, disks, wanted, gone).0)
    decreases |disks|
  {
    hide Api, Follows, Change, Asked;
    if disks != [] {
      FollowsDetach(s, script, x, vm, disks[1..], wanted, gone);
      FollowsChange(s, script, x, vm, false);
      var x1 := Change(x, script, vm, false).0;
      FollowsApi(s, script, x1, GetVm(vm));
      var x2 := FindVm(x1, script, vm).0;
      FollowsDetach(s, script, x2, vm, disks[1..], wanted,
                    gone + [if disks[0].volume != "" then disks[0].volume else disks[0].extId]);
    }
  }

  lemma FollowsEnsure(s: State, script: Script, x: State, vm: string)
    requires Follows(s, script, x)
    ensures Follows(s, script, EnsureEtag(x, script, vm).0)
  {
    hide Api, Follows;
    FollowsApi(s, script, x, GetVm(vm));
  }

  lemma FollowsTarget(s: State, script: Script, x: State, vm: string, wanted: string)
    requires Follows(s, script, x)
    ensures Follows(s, script, Target(x, script, vm, wanted).0)
  {
    hide Api, Follows, Named, Housing;
    FollowsApi(s, script, x, Other);
    FollowsApi(s, script, x, GetVm(vm));
    FollowsApi(s, script, FindVm(x, script, vm).0, Other);
  }

  lemma FollowsStop(s: State, script: Script, x: State, vm: string, force: bool)
    requires Follows(s, script, x)
    ensures Follows(s, script, Stop(x, script, vm, force).0)
  {
    hide Api, Follows, Change, EnsureEtag;
    FollowsEnsure(s, script, x, vm);
    var x1 := EnsureEtag(x, script, vm).0;
    FollowsChange(s, script, x1, vm, false);
    var x2 := Change(x1, script, vm, false).0;
    FollowsApi(s, script, x2, GetVm(vm));
    FollowsChange(s, script, FindVm(x2, script, vm).0, vm, false);
  }

  lemma FollowsAdd(s: State, script: Script, x: State, call: Call)
    requires Follows(s, script, x) && call.AddManagedDisk?
    ensures Follows(s, script, Do(x, script, call))
  {
    hide Api, Follows, Change, EnsureEtag, Target;
    FollowsEnsure(s, script, x, call.vm);
    var x1 := EnsureEtag(x, script, call.vm).0;
    FollowsTarget(s, script, x1, call.vm, call.container);
    var x2 := Target(x1, script, call.vm, call.container).0;
    FollowsChange(s, script, x2, call.vm, false);
    FollowsApi(s, script, Change(x2, script, call.vm, false).0, GetVm(call.vm));
  }

  /** A call is nothing but requests. */
  lemma FollowsDo(s: State, script: Script, x: State, call: Call)
    requires Follows(s, script, x)
    ensures Follows(s, script, Do(x, script, call))
  {
    hide Api, Follows, Change, EnsureEtag, Stop, AddDisk, DetachEach;
    match call
    case Power(vm) => FollowsApi(s, script, x, GetVm(vm));
    case StopVm(vm, force) => FollowsStop(s, script, x, vm, force);
    case StartVm(vm) =>
      FollowsEnsure(s, script, x, vm);
      FollowsChange(s, script, EnsureEtag(x, script, vm).0, vm, false);
    case AddManagedDisk(_, _, _, _, _) => FollowsAdd(s, script, x, call);
    case DeleteVm(vm, keepDisks) =>
      FollowsEnsure(s, script, x, vm);
      FollowsChange(s, script, EnsureEtag(x, script, vm).0, vm, true);
    case DetachVolumes(vm, wanted) =>
      FollowsApi(s, script, x, GetVm(vm));
      var (x1, got) := FindVm(x, script, vm);
      if got.Done? { FollowsDetach(s, script, x1, vm, got.value.disks, wanted, []); }
  }

  lemma {:induction false} FollowsAll(s: State, script: Script, calls: seq<Call>)
    ensures Follows(s, script, DoAll(s, script, calls))
  {
    hide Follows, Do;
    if calls == [] {
      FollowsSelf(s, script);
    } else {
      FollowsAll(s, script, calls[..|calls| - 1]);
      FollowsDo(s, script, DoAll(s, script, calls[..|calls| - 1]), calls[|calls| - 1]);
    }
  }

  lemma ApiStaysTidy(s: State, script: Script, req: Request)
    requires Tidy(s)
    ensures Tidy(Api(s, script, req).0)
  {
    TimeStaysTidy(s, script(s.asked));
    var server := Advance(s.server, script(s.asked));
    ServingStaysTidy(server, req, IfMatch(s, req), script(s.asked), s.asked);
    hide Advance, Serve;
  }

  lemma ServingStaysTidy(server: Server, req: Request, ifMatch: Option<Tag>, ans: Answer, number: nat)
    requires server.versions.Keys <= server.known
    ensures var (after, result) := Serve(server, req, ifMatch, ans, number);
            && after.versions.Keys <= after.known && after.known == server.known
            && (forall t :: t in after.tasks ==>
                  || (t in server.tasks && after.tasks[t] == server.tasks[t])
                  || (t == number && after.tasks[t].vm in after.known))
            && (result.Done? && KeyOf(req).Some? ==> KeyOf(req).value in server.known)
  {}

  lemma TimeStaysTidy(s: State, ans: Answer)
    requires Tidy(s)
    ensures Tidy(s.(server := Advance(s.server, ans), asked := s.asked + 1))
  {}

  lemma {:induction false} RequestsStayTidy(s: State, script: Script, reqs: seq<Request>)
    requires Tidy(s)
    ensures Tidy(ApiAll(s, script, reqs))
  {
    hide Api, Tidy;
    if reqs != [] {
      RequestsStayTidy(s, script, reqs[..|reqs| - 1]);
      ApiStaysTidy(ApiAll(s, script, reqs[..|reqs| - 1]), script, reqs[|reqs| - 1]);
    }
  }

  /** Whatever the server answers, over any calls. */
  lemma CallsStayTidy(s: State, script: Script, calls: seq<Call>)
    requires Tidy(s)
    ensures Tidy(DoAll(s, script, calls))
  {
    FollowsAll(s, script, calls);
    var reqs :| ApiAll(s, script, reqs) == DoAll(s, script, calls);
    RequestsStayTidy(s, script, reqs);
  }

  // ------------------------------------------------------------ a stale ETag stays ---

  /** The cached ETag of a VM is behind, or its VM is gone for good. */
  predicate Stuck(s: State, vm: string, tag: Tag) {
    && s.server.strict && vm in s.server.known
    && vm in s.etags && s.etags[vm] == tag
    && (vm in s.server.versions ==> tag < s.server.versions[vm])
  }

  lemma TimeStaysStuck(s: State, ans: Answer, vm: string, tag: Tag)
    requires Stuck(s, vm, tag)
    ensures Stuck(s.(server := Advance(s.server, ans)), vm, tag)
  {}

  /** Reads replay the ETag as well, so they are refused and bring no other. */
  lemma RequestStaysStuck(s: State, script: Script, req: Request, vm: string, tag: Tag)
    requires Stuck(s, vm, tag)
    ensures var (x, got) := Api(s, script, req);
            Stuck(x, vm, tag) && (KeyOf(req) == Some(vm) ==> got.Failed?)
  {
    TimeStaysStuck(s, script(s.asked), vm, tag);
    hide Advance;
  }

  lemma {:induction false} RequestsStayStuck(s: State, script: Script, reqs: seq<Request>, vm: string, tag: Tag)
    requires Stuck(s, vm, tag)
    ensures Stuck(ApiAll(s, script, reqs), vm, tag)
  {
    hide Api, Stuck;
    if reqs != [] {
      RequestsStayStuck(s, script, reqs[..|reqs| - 1], vm, tag);
      RequestStaysStuck(ApiAll(s, script, reqs[..|reqs| - 1]), script, reqs[|reqs| - 1], vm, tag);
    }
  }

  /**
   * Against a strict server a stale ETag is never healed: after any calls, on whatever VMs and
   * whatever the server answers, it is still cached, and the next request for its VM fails.
   */
  lemma StaleIsNeverHealed(s: State, script: Script, calls: seq<Call>, vm: string, tag: Tag, req: Request)
    requires Stuck(s, vm, tag) && KeyOf(req) == Some(vm)
    ensures var x := DoAll(s, script, calls);
            Stuck(x, vm, tag) && Api(x, script, req).1.Failed?
  {
    FollowsAll(s, script, calls);
    var reqs :| ApiAll(s, script, reqs) == DoAll(s, script, calls);
    RequestsStayStuck(s, script, reqs, vm, tag);
    RequestStaysStuck(DoAll(s, script, calls), script, req, vm, tag);
  }

  /** A server that does not look at `If-Match` on reads heals it with the next answered one. */
  lemma ReadHealsIfLenient(s: State, script: Script, vm: string)
    requires !s.server.strict && script(s.asked).delivery.Answered? && !script(s.asked).bare
    requires vm in Advance(s.server, script(s.asked)).versions
    ensures var x := Api(s, script, GetVm(vm)).0;
            vm in x.etags && vm in x.server.versions && x.etags[vm] == x.server.versions[vm]
  {}
}
