/**
 * The done-callback that takes a returned runner's entry out of the scheduler's table, as a step
 * of its own: exactly when it lets a second live runner start.
 */
module GroupCallbacks {
  import opened Wrappers
  import opened Groups

  /**
   * Were the end of a runner and its done-callback two steps, a re-run between them would lose
   * its entry in the table and the next poll would start a second live runner.
   */
  lemma SplitCallbackBreaksIt(s: System)
    requires s.runners == map[] && s.active.None? && s.kicks == 0 && s.callbacks == {} && !s.atomicDone && s.nextId == 0
    requires s.row.Some? && s.row.value.status == GPending
    ensures var steps := [Poll(true), Kick, Cancel, Begin(0), RunNow, Kick, Callback(0), Poll(true), Kick];
            1 in Exec(s, steps).runners && 2 in Exec(s, steps).runners
  {
    hide Exec, MemberStep, AggregateStep, ToRun, Reset;
    var p: seq<Step> := [];
    NoSteps(s);
    var s1 := s.(kicks := 1);
    p := ThenTo(s, p, s, Poll(true), s1);
    var s2 := s.(runners := map[0 := IDLE], active := Some(0), nextId := 1);
    p := ThenTo(s, p, s1, Kick, s2);
    var s3 := WithStatus(s2, GCanceled);
    p := ThenTo(s, p, s2, Cancel, s3);
    var s4 := s3.(runners := map[], callbacks := {0});
    p := ThenTo(s, p, s3, Begin(0), s4);
    p := SecondRunnerIsLaunched(s, p, s4);
    assert p == [Poll(true), Kick, Cancel, Begin(0), RunNow, Kick, Callback(0), Poll(true), Kick];
  }

  /** The second half: the re-run is launched, the late callback drops its entry, and a poll launches again. */
  lemma SecondRunnerIsLaunched(s: System, p: seq<Step>, s4: System) returns (more: seq<Step>)
    requires Exec(s, p) == s4 && s4.row.Some? && s4.row.value.status == GCanceled
    requires s4.runners == map[] && s4.active == Some(0) && s4.callbacks == {0} && s4.nextId == 1 && s4.kicks == 0
    ensures more == p + [RunNow, Kick, Callback(0), Poll(true), Kick]
    ensures 1 in Exec(s, more).runners && 2 in Exec(s, more).runners
  {
    hide Exec, MemberStep, AggregateStep, BeginStep, ToRun, Reset;
    var s5 := WithStatus(s4, GPending).(kicks := 1);
    s5 := s5.(row := Some(s5.row.value.(members := Reset(s4.row.value.members))));
    more := ThenTo(s, p, s4, RunNow, s5);
    var s6 := s5.(runners := map[1 := IDLE], active := Some(1), nextId := 2, kicks := 0);
    more := ThenTo(s, more, s5, Kick, s6);
    var s7 := s6.(active := None, callbacks := {});
    more := ThenTo(s, more, s6, Callback(0), s7);
    var s8 := s7.(kicks := 1);
    more := ThenTo(s, more, s7, Poll(true), s8);
    var s9 := s8.(runners := map[1 := IDLE, 2 := IDLE], active := Some(2), nextId := 3, kicks := 0);
    more := ThenTo(s, more, s8, Kick, s9);
    assert more == p + [RunNow, Kick, Callback(0), Poll(true), Kick];
  }

  /** A runner is live while the callback of an earlier one is still to come. */
  predicate Overlaps(s: System) {
    s.runners != map[] && s.callbacks != {}
  }

  predicate Apart(s: System) {
    && !Overlaps(s)
    && (forall r :: r in s.runners ==> s.active == Some(r))
  }

  /** As long as callbacks run before the next launch, at most one runner is live. */
  lemma {:induction false} PromptCallbacksKeepRunnersAlone(s: System, steps: seq<Step>)
    requires s.runners == map[] && !s.atomicDone
    requires forall k :: 0 <= k <= |steps| ==> !Overlaps(Exec(s, steps[..k]))
    ensures Exec(s, steps).atomicDone == s.atomicDone && Apart(Exec(s, steps))
    ensures forall q, r :: q in Exec(s, steps).runners && r in Exec(s, steps).runners ==> q == r
  {
    hide Next, Overlaps;
    assert steps[..|steps|] == steps;
    if steps != [] {
      var n := |steps| - 1;
      forall k | 0 <= k <= n ensures !Overlaps(Exec(s, steps[..n][..k])) {
        assert steps[..n][..k] == steps[..k];
      }
      PromptCallbacksKeepRunnersAlone(s, steps[..n]);
      StepKeepsApart(Exec(s, steps[..n]), steps[n]);
    }
  }

  lemma StepKeepsApart(s: System, step: Step)
    requires !s.atomicDone ==> Apart(s)
    requires !Overlaps(Next(s, step))
    ensures Next(s, step).atomicDone == s.atomicDone
    ensures !s.atomicDone ==> Apart(Next(s, step))
  {
    hide TaskStep, ToRun, Reset;
  }

  /** And once they overlap, a poll or a re-run makes two live runners, whatever the group's state. */
  lemma OverlapMakesTwoRunners(s: System, r: nat, c: nat)
    requires r in s.runners && c in s.callbacks && s.nextId !in s.runners
    requires s.row.Some? && s.row.value.status != GSucceeded
    ensures var more := [Callback(c), if Over(s.row.value.status) then RunNow else Poll(true), Kick];
            r in Exec(s, more).runners && s.nextId in Exec(s, more).runners && r != s.nextId
  {
    hide Exec, MemberStep, AggregateStep, BeginStep, PollStep, RunNowStep, KickStep;
    var p: seq<Step> := [];
    NoSteps(s);
    var s1 := s.(active := None, callbacks := s.callbacks - {c});
    p := ThenTo(s, p, s, Callback(c), s1);
    var asks := if Over(s.row.value.status) then RunNow else Poll(true);
    LaunchWithoutEntry(s1);
    p := ThenTo(s, p, s1, asks, Next(s1, asks));
    p := ThenTo(s, p, Next(s1, asks), Kick, Next(Next(s1, asks), Kick));
    assert p == [Callback(c), asks, Kick];
  }

  /** With no entry in the table, a re-run or a poll launches a runner next to those there are. */
  lemma LaunchWithoutEntry(s: System)
    requires s.active.None? && s.row.Some? && s.row.value.status != GSucceeded
    ensures var asked := Next(s, if Over(s.row.value.status) then RunNow else Poll(true));
            Next(asked, Kick).runners == s.runners[s.nextId := IDLE]
  {}

  lemma NoSteps(s: System)
    ensures Exec(s, []) == s
  {
  }
}
