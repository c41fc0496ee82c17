/**
  What a restart of the manager is to the session: how it ends, and when a watcher receives the report
  of the old lifecycle in its course.
 */
module ManagerRestart {
  import opened Text
  import opened Supervision
  import opened Lifecycle
  import opened LifecycleWitnesses
  import S = Session

  // ---- a restart in a run ----

  /** A restart that finds the core ready at step a, stops it from step s on and starts it again at step r;
      the operations lock keeps other calls out. */
  ghost predicate IsRestart(ss: seq<State>, steps: seq<Step>, a: nat, s: nat, r: nat) {
    && |ss| == |steps| + 1 && a < s < r < |steps|
    && steps[a].RestartChecks? && IsReady(ss[a]) && steps[s].StopBegins? && steps[r].StartBegins?
    && (forall c :: a < c < r ==> !steps[c].StartBegins?)
    && ss[r].call.Between?
  }

  /** The monitor gives the lifecycle up. */
  predicate FailsAt(s: State, t: State) {
    s.monitor != Ending(true) && t.monitor == Ending(true)
  }

  ghost predicate Fails(ss: seq<State>, a: nat, b: nat) {
    exists d :: a <= d < b && d + 1 < |ss| && FailsNext(ss, d)
  }

  ghost predicate FailsNext(ss: seq<State>, d: nat)
    requires d + 1 < |ss|
  {
    FailsAt(ss[d], ss[d + 1])
  }

  ghost predicate Takes(steps: seq<Step>, a: nat, b: nat) {
    exists c :: a <= c < b && c < |steps| && steps[c].TakesReport?
  }

  /** What is known of the old lifecycle in the course of a restart. */
  predicate Track(s: State, failed: bool, taken: bool) {
    && s.reported
    && (s.isRunning ==> !taken && s.doneSent == 0 && s.done == 0 && (failed <==> if s.stopClosed then s.late else s.monitor == Ending(true)))
    && (!s.isRunning ==> (s.doneSent == 1 <==> failed) && (taken <==> failed && s.done == 0) && s.done <= s.doneSent <= 1)
  }

  predicate Stopped(s: State) { s.isRunning ==> s.stopClosed }

  // ---- one step ----

  lemma RunningFacts(auto: bool, s: State)
    requires Inv(auto, s)
    ensures s.isRunning ==> s.doneSent == 0 && s.done == 0 && s.stopping == s.stopClosed
    ensures s.isRunning && s.stopClosed ==> s.late == (s.monitor == Ending(true))
    ensures s.isRunning && s.monitor == Ending(false) ==> s.stopClosed
    ensures s.isRunning <==> !s.monitor.Absent?
    ensures s.done <= 1 && s.doneSent <= 1
    ensures IsReady(s) && s.call.Idle? ==> s.reported && !s.monitor.Ending? && !s.stopClosed
  {
    hide AttemptsInv, PastInv;
  }

  lemma TrackAttempt(auto: bool, s: State, step: Step, failed: bool, taken: bool)
    requires Inv(auto, s) && Can(auto, s, step) && AttemptStep(step) && Track(s, failed, taken)
    ensures Track(After(auto, s, step), failed, taken) && !FailsAt(s, After(auto, s, step))
    ensures Stopped(s) ==> Stopped(After(auto, s, step))
  {
    RunningFacts(auto, s);
    AttemptStepFlags(auto, s, step);
    hide After, Can, Inv;
  }

  lemma TrackEnd(auto: bool, s: State, failed: bool, taken: bool)
    requires Inv(auto, s) && s.monitor.Ending? && Track(s, failed, taken)
    ensures var t := End(s, s.monitor.failed); Track(t, failed, taken) && !FailsAt(s, t) && Stopped(t)
  {
    RunningFacts(auto, s);
    CloseOwnerLength(s);
    hide Inv, CloseOwner;
  }

  lemma TrackRelaunch(auto: bool, s: State, launches: bool, failed: bool, taken: bool)
    requires Inv(auto, s) && s.monitor.Relaunching? && Track(s, failed, taken)
    ensures var t := Relaunch(s, launches);
            Track(t, failed || FailsAt(s, t), taken) && (Stopped(s) ==> !FailsAt(s, t) && Stopped(t))
  {
    RunningFacts(auto, s);
    CloseOwnerLength(s);
    hide Inv, CloseOwner;
  }

  lemma TrackStop(auto: bool, s: State, failed: bool, taken: bool)
    requires Inv(auto, s) && Track(s, failed, taken)
    ensures var t := ShutDown(s); Track(t, failed, taken) && !FailsAt(s, t) && Stopped(t)
  {
    RunningFacts(auto, s);
    hide Inv;
  }

  lemma TrackReleased(auto: bool, s: State, failed: bool, taken: bool)
    requires s.call.Closing? && Track(s, failed, taken)
    ensures var t := Released(s); Track(t, failed, taken) && !FailsAt(s, t) && (Stopped(s) ==> Stopped(t))
  {
    CloseOwnerLength(s);
    hide CloseOwner;
  }

  /** The other steps change one flag or the place of the monitor. */
  lemma TrackOther(auto: bool, s: State, step: Step, failed: bool, taken: bool)
    requires Inv(auto, s) && Can(auto, s, step) && !AttemptStep(step) && Track(s, failed, taken)
    requires !step.StartBegins? && !step.Ends? && !step.Relaunches? && !step.StopBegins? && !step.StopCloses?
    ensures var t := After(auto, s, step);
      && Track(t, failed || FailsAt(s, t), taken || step.TakesReport?)
      && (Stopped(s) ==> !FailsAt(s, t) && Stopped(t))
  {
    RunningFacts(auto, s);
    hide Inv, CloseOwner, CanHappen, Happens, IsGone, StartUp, ShutDown, Relaunch, End, SetAttempt, Last, IsReady;
  }

  lemma TrackStep(auto: bool, s: State, step: Step, failed: bool, taken: bool)
    requires Inv(auto, s) && Can(auto, s, step) && !step.StartBegins? && Track(s, failed, taken)
    ensures var t := After(auto, s, step);
      && Track(t, failed || FailsAt(s, t), taken || step.TakesReport?)
      && (Stopped(s) ==> !FailsAt(s, t)) && (Stopped(s) || step.StopBegins? ==> Stopped(t))
  {
    if AttemptStep(step) {
      TrackAttempt(auto, s, step, failed, taken);
      hide After, Inv, Track;
    } else {
      hide Inv, Track, FailsAt, Stopped, End, Relaunch, ShutDown, CloseOwner;
      if step.Ends? {
        TrackEnd(auto, s, failed, taken);
      } else if step.Relaunches? {
        TrackRelaunch(auto, s, step.launches, failed, taken);
      } else if step.StopBegins? {
        TrackStop(auto, s, failed, taken);
      } else if step.StopCloses? {
        TrackReleased(auto, s, failed, taken);
      } else {
        TrackOther(auto, s, step, failed, taken);
      }
    }
  }

  // ---- the whole restart ----

  lemma TrackBegins(auto: bool, s: State)
    requires Inv(auto, s) && IsReady(s) && s.call.Idle?
    ensures Track(s, false, false)
  {
    RunningFacts(auto, s);
    hide Inv;
  }

  lemma FailsMore(ss: seq<State>, a: nat, c: nat)
    requires a <= c && c + 1 < |ss|
    ensures Fails(ss, a, c + 1) <==> Fails(ss, a, c) || FailsAt(ss[c], ss[c + 1])
  {
    hide FailsAt;
    if FailsAt(ss[c], ss[c + 1]) { assert FailsNext(ss, c); }
  }

  lemma TakesMore(steps: seq<Step>, a: nat, c: nat)
    requires a <= c < |steps|
    ensures Takes(steps, a, c + 1) <==> Takes(steps, a, c) || steps[c].TakesReport?
  {
  }

  lemma {:induction false} TrackRun(auto: bool, ss: seq<State>, steps: seq<Step>, a: nat, s: nat, r: nat, c: nat)
    requires Lifecycle.IsRun(auto, ss, steps) && Inv(auto, ss[0]) && IsRestart(ss, steps, a, s, r) && a <= c <= r
    ensures Track(ss[c], Fails(ss, a, if c < s then c else s), Takes(steps, a, c)) && (c > s ==> Stopped(ss[c]))
    decreases c
  {
    hide Inv, After, Can, Track, Fails, Takes, Stopped, IsReady, FailsAt;
    if c == a {
      InvAlways(auto, ss, steps, a);
      assert Can(auto, ss[a], steps[a]);
      assert ss[a].call.Idle? by { CheckIdle(auto, ss[a], steps[a]); }
      TrackBegins(auto, ss[a]);
      NothingYet(ss, steps, a);
    } else {
      var b := c - 1;
      TrackRun(auto, ss, steps, a, s, r, b);
      InvAlways(auto, ss, steps, b);
      assert Can(auto, ss[b], steps[b]) && ss[b + 1] == After(auto, ss[b], steps[b]);
      TrackStep(auto, ss[b], steps[b], Fails(ss, a, if b < s then b else s), Takes(steps, a, b));
      TakesMore(steps, a, b);
      if b < s { FailsMore(ss, a, b); }
      if b == s { StopKeepsMonitor(auto, ss[b], steps[b]); }
    }
  }

  lemma CheckIdle(auto: bool, s: State, step: Step)
    requires Can(auto, s, step) && step.RestartChecks?
    ensures s.call.Idle?
  {
  }

  lemma NothingYet(ss: seq<State>, steps: seq<Step>, a: nat)
    ensures !Fails(ss, a, a) && !Takes(steps, a, a)
  {
  }

  lemma StopKeepsMonitor(auto: bool, s: State, step: Step)
    requires Can(auto, s, step) && step.StopBegins?
    ensures !FailsAt(s, After(auto, s, step))
  {
  }

  /** A watcher receives the old lifecycle's report in the course of a restart exactly when the monitor
      gave up between the two sections of Restart - after the core was found ready and before the stop -
      and no report is left for the new start to drain. */
  lemma TakenIff(auto: bool, ss: seq<State>, steps: seq<Step>, a: nat, s: nat, r: nat)
    requires Lifecycle.IsRun(auto, ss, steps) && Inv(auto, ss[0]) && IsRestart(ss, steps, a, s, r)
    ensures Takes(steps, a, r) <==> Fails(ss, a, s) && ss[r].done == 0
    ensures Fails(ss, a, s) <==> ss[r].doneSent == 1
  {
    hide Takes, Fails, IsReady;
    TrackRun(auto, ss, steps, a, s, r, r);
    InvAlways(auto, ss, steps, r);
    assert !ss[r].isRunning by { hide AttemptsInv, PastInv, MonitorInv, ChannelsInv; }
  }

  // ---- what the session sees ----

  /** The restart's start returns at step b. */
  ghost predicate Returns(ss: seq<State>, steps: seq<Step>, r: nat, b: nat) {
    && |ss| == |steps| + 1 && r < b < |steps| && steps[b].StartReturns? && ss[b].call.Awaiting? && ss[b].started.Some?
  }

  /** How the session's reload takes such a restart to end. */
  ghost function BounceOf(ss: seq<State>, steps: seq<Step>, a: nat, r: nat, b: nat): S.Bounce
    requires Returns(ss, steps, r, b)
  {
    if ss[b].started.value then S.Bounced(Takes(steps, a, r)) else S.BounceFails(false)
  }

  /** Restart returns nil with a core taken to be up, or an error with every process gone; and the watcher
      has the old report in the first case exactly when the monitor gave up between Restart's ready check
      and its stop, and the new start found no report to drain. */
  lemma BounceIs(auto: bool, ss: seq<State>, steps: seq<Step>, a: nat, s: nat, r: nat, b: nat)
    requires Lifecycle.IsRun(auto, ss, steps) && Inv(auto, ss[0]) && IsRestart(ss, steps, a, s, r) && Returns(ss, steps, r, b)
    ensures BounceOf(ss, steps, a, r, b) == S.Bounced(true) <==> ss[b].started.value && Fails(ss, a, s) && ss[r].done == 0
    ensures BounceOf(ss, steps, a, r, b).Bounced? ==> ss[b].first < |ss[b].attempts| && Up(ss[b].attempts[ss[b].first])
    ensures BounceOf(ss, steps, a, r, b).BounceFails? ==> !ss[b].isRunning && forall i :: 0 <= i < |ss[b].attempts| ==> IsGone(ss[b].attempts[i].sup)
  {
    hide Takes, Fails, IsRestart;
    TakenIff(auto, ss, steps, a, s, r);
    InvAlways(auto, ss, steps, b);
    StartOutcome(auto, ss[b]);
  }

  lemma StartOutcome(auto: bool, s: State)
    requires Inv(auto, s) && s.call.Awaiting? && s.started.Some?
    ensures s.started.value ==> s.first < |s.attempts| && Up(s.attempts[s.first])
    ensures !s.started.value ==> !s.isRunning && forall i :: 0 <= i < |s.attempts| ==> IsGone(s.attempts[i].sup)
  {
    hide MonitorInv;
    forall i | 0 <= i < |s.attempts| && !s.isRunning ensures IsGone(s.attempts[i].sup) {
      assert AttemptInv(s.attempts[i]);
    }
  }

  /** A restart that cannot launch the core fails with every process gone, too.  One whose stop gives up
      may leave the core alive or not. */
  lemma LaunchFails(auto: bool, ss: seq<State>, steps: seq<Step>, a: nat, s: nat, r: nat)
    requires Lifecycle.IsRun(auto, ss, steps) && Inv(auto, ss[0]) && IsRestart(ss, steps, a, s, r) && steps[r] == StartBegins(false)
    ensures var t := ss[r + 1];
            t.call.Idle? && !t.isRunning && forall i :: 0 <= i < |t.attempts| ==> IsGone(t.attempts[i].sup)
  {
    InvAlways(auto, ss, steps, r);
    InvAlways(auto, ss, steps, r + 1);
    var t := ss[r + 1];
    assert Can(auto, ss[r], steps[r]) && t == After(auto, ss[r], steps[r]);
    assert !t.isRunning && t.call.Idle? by {
      CloseOwnerLength(ss[r]);
      hide AttemptsInv, PastInv, MonitorInv, ChannelsInv, CloseOwner;
    }
    hide MonitorInv, ChannelsInv, CallInv, After;
    forall i | 0 <= i < |t.attempts| ensures IsGone(t.attempts[i].sup) {
      assert AttemptInv(t.attempts[i]);
    }
  }

  // ---- such a restart ----

  lemma Grow(auto: bool, ss: seq<State>, steps: seq<Step>, step: Step, t: State) returns (ss': seq<State>, steps': seq<Step>)
    requires Lifecycle.IsRun(auto, ss, steps) && Can(auto, ss[|steps|], step) && After(auto, ss[|steps|], step) == t
    ensures Lifecycle.IsRun(auto, ss', steps') && ss' == ss + [t] && steps' == steps + [step]
  {
    hide Can, After;
    ss', steps' := ss + [t], steps + [step];
    forall i | 0 <= i < |steps'| ensures Can(auto, ss'[i], steps'[i]) && ss'[i + 1] == After(auto, ss'[i], steps'[i]) {
      if i < |steps| {
        assert Can(auto, ss[i], steps[i]) && ss[i + 1] == After(auto, ss[i], steps[i]);
      }
    }
  }

  /** The crashed lifecycle has ended, and its report has been taken. */
  function Over(call: Call): State {
    Dying().(isRunning := false, ready := false, cmd := None, owner := None, lifecycleDone := true, doneSent := 1,
             monitor := Absent, attempts := [Gone()], call := call)
  }

  function Gone(): Attempt { Attempt(Reaping().(owned := false), Some(Alive), true, false, Some(true)) }

  /** The monitor has given the crashed lifecycle up. */
  function GivenUp(): State {
    Dying().(call := Checked, ready := false, cmd := None, monitor := Ending(true))
  }

  /** The ready check finds the core ready, and then the monitor sees its exit. */
  lemma CrashSlipsIn() returns (ss: seq<State>, steps: seq<Step>)
    ensures Lifecycle.IsRun(false, ss, steps) && |steps| == 4 && ss[0] == Dying() && ss[4] == GivenUp()
    ensures steps == [RestartChecks, SeesExit, CleansUp, Decides]
  {
    var s0 := Dying();
    ss, steps := [s0], [];
    var s1 := s0.(call := Checked);
    ss, steps := Grow(false, ss, steps, RestartChecks, s1);
    var s2 := s1.(monitor := Exiting(false));
    ss, steps := Grow(false, ss, steps, SeesExit, s2);
    var s3 := s2.(ready := false, cmd := None, monitor := Deciding(false));
    ss, steps := Grow(false, ss, steps, CleansUp, s3);
    ss, steps := Grow(false, ss, steps, Decides, GivenUp());
  }

  /** It reports the failure, and the watcher takes the report, before the stop finds nothing to stop. */
  lemma ReportTaken(ss: seq<State>, steps: seq<Step>) returns (ss': seq<State>, steps': seq<Step>)
    requires Lifecycle.IsRun(false, ss, steps) && |steps| == 4 && ss[4] == GivenUp()
    ensures Lifecycle.IsRun(false, ss', steps') && |steps'| == 6 && ss'[..5] == ss && ss'[6] == Over(Checked)
    ensures steps' == steps + [Ends, TakesReport]
  {
    EndsOver();
    hide Over, Dying, After;
    ss', steps' := Grow(false, ss, steps, Ends, Over(Checked).(done := 1));
    ss', steps' := Grow(false, ss', steps', TakesReport, Over(Checked));
  }

  lemma EndsOver()
    ensures Can(false, GivenUp(), Ends) && After(false, GivenUp(), Ends) == Over(Checked).(done := 1)
    ensures var s := Over(Checked).(done := 1); Can(false, s, TakesReport) && After(false, s, TakesReport) == Over(Checked)
  {
  }

  /** A new lifecycle after it. */
  function Again(monitor: Monitor, a: Attempt): State {
    Trying(monitor, a).(cmd := Some(1), owner := Some(1), first := 1, attempts := [Gone(), a])
  }

  lemma StartsAgain(ss: seq<State>, steps: seq<Step>) returns (ss': seq<State>, steps': seq<Step>)
    requires Lifecycle.IsRun(false, ss, steps) && |steps| == 6 && ss[6] == Over(Checked)
    ensures Lifecycle.IsRun(false, ss', steps') && |steps'| == 9 && ss'[..7] == ss && ss'[7] == Over(Between)
    ensures steps' == steps + [StopBegins, StartBegins(true), SupervisorDoes(1, Boots(true))]
    ensures ss'[9] == Again(Window, Attempt(Healthy(), None, false, false, None))
  {
    ss', steps' := Grow(false, ss, steps, StopBegins, Over(Between));
    var l := Again(Window, Attempt(Launched(), None, false, false, None));
    ss', steps' := Grow(false, ss', steps', StartBegins(true), l);
    ss', steps' := Grow(false, ss', steps', SupervisorDoes(1, Boots(true)), Again(Window, Attempt(Healthy(), None, false, false, None)));
  }

  lemma ComesUpAgain(ss: seq<State>, steps: seq<Step>) returns (ss': seq<State>, steps': seq<Step>)
    requires Lifecycle.IsRun(false, ss, steps) && |steps| == 9 && ss[9] == Again(Window, Attempt(Healthy(), None, false, false, None))
    ensures Lifecycle.IsRun(false, ss', steps') && |steps'| == 14 && ss'[..10] == ss && steps'[..9] == steps
    ensures Returns(ss', steps', 7, 13) && ss'[13].started == Some(true)
  {
    var a := Attempt(Healthy(), Some(Alive), false, false, None);
    ss', steps' := Grow(false, ss, steps, TimerFires, Again(Window, a));
    var u := a.(look := Some(true));
    ss', steps' := Grow(false, ss', steps', SeesUp, Again(FoundUp, u));
    ss', steps' := Grow(false, ss', steps', SetsReady, Again(Reporting, u).(ready := true));
    var t := Again(Watching, u).(ready := true, reported := true, started := Some(true), startedSent := 1);
    ss', steps' := Grow(false, ss', steps', Reports, t);
    ss', steps' := Grow(false, ss', steps', StartReturns, t.(started := None, call := Idle));
  }

  lemma HandingOver() returns (ss: seq<State>, steps: seq<Step>)
    ensures Lifecycle.IsRun(false, ss, steps) && |steps| == 14 && ss[0] == Dying() && ss[7] == Over(Between)
    ensures steps[..9] == [RestartChecks, SeesExit, CleansUp, Decides, Ends, TakesReport, StopBegins, StartBegins(true), SupervisorDoes(1, Boots(true))]
    ensures Returns(ss, steps, 7, 13) && ss[13].started == Some(true)
  {
    hide Lifecycle.IsRun, Dying, Over, GivenUp, Again, Healthy, Returns;
    ss, steps := CrashSlipsIn();
    ss, steps := ReportTaken(ss, steps);
    var front := ss;
    ss, steps := StartsAgain(ss, steps);
    assert ss[0] == Dying() by { assert ss[0] == ss[..7][0] == front[0]; }
    front := ss;
    ss, steps := ComesUpAgain(ss, steps);
    assert ss[0] == ss[..10][0] == front[0] && ss[7] == ss[..10][7] == front[7];
  }

  /** A run, continued from one that begins at the initial state, in which Restart returns nil and a
      watcher receives the report of the crash that the restart has covered up. */
  lemma RestartHandsOver()
    ensures exists ss, steps, a, s, r, b ::
      && Lifecycle.IsRun(false, ss, steps) && Reachable(false, ss[0]) && IsRestart(ss, steps, a, s, r)
      && Returns(ss, steps, r, b) && BounceOf(ss, steps, a, r, b) == S.Bounced(true)
  {
    DyingReachable();
    var ss, steps := HandingOver();
    assert IsReady(ss[0]) && ss[7].call.Between?;
    hide Reachable, Lifecycle.IsRun, Returns, Dying, Over, IsReady;
    FirstSteps(steps);
    assert IsRestart(ss, steps, 0, 6, 7);
  }

  lemma FirstSteps(steps: seq<Step>)
    requires |steps| == 14
    requires steps[..9] == [RestartChecks, SeesExit, CleansUp, Decides, Ends, TakesReport, StopBegins, StartBegins(true), SupervisorDoes(1, Boots(true))]
    ensures steps[0].RestartChecks? && steps[6].StopBegins? && steps[7].StartBegins?
    ensures (forall c :: 0 < c < 7 ==> !steps[c].StartBegins?) && Takes(steps, 0, 7)
  {
    assert forall c :: 0 <= c < 9 ==> steps[c] == steps[..9][c];
    assert steps[5].TakesReport?;
  }
}
