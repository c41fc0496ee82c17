/** When the monitor starts the core again, and when it gives the lifecycle up. */
module LifecycleRetries {
  import opened Text
  import opened Supervision
  import opened Lifecycle

  /** What the monitor decides after an exit, in terms of what was recorded of the attempt: it stops when
      asked to; otherwise it tries again exactly with automatic restart, after a child that was taken to
      be up, and with fewer than three attempts made; otherwise it fails. */
  lemma DecisionIff(auto: bool, s: State)
    requires Inv(auto, s) && s.monitor.Deciding?
    ensures s.attempts != []
    ensures var t := Decided(auto, s);
      && (t.monitor == Ending(false) <==> s.stopClosed)
      && (t.monitor == Backoff <==> !s.stopClosed && auto && Last(s).look == Some(true) && |s.attempts| - s.first < 3)
      && (t.monitor == Ending(true) <==> !s.stopClosed && (!auto || Last(s).look == Some(false) || |s.attempts| - s.first == 3))
      && t == s.(monitor := t.monitor)
  {
    hide AttemptsInv, PastInv, ChannelsInv, CallInv;
  }

  /** From the back-off only a stop keeps the monitor from the next launch. */
  lemma BackoffLaunches(auto: bool, s: State, step: Step)
    requires Inv(auto, s) && Can(auto, s, step)
    ensures s.monitor.Backoff? ==>
      var t := After(auto, s, step);
      t.monitor == Backoff || t.monitor == Relaunching || (t.monitor == Ending(false) && s.stopClosed)
    ensures s.monitor.Relaunching? ==>
      var t := After(auto, s, step);
      if step.Relaunches? then
        (t.monitor == Ending(false) <==> s.stopClosed)
        && (t.monitor == Window <==> !s.stopClosed && step.launches)
        && (t.monitor == Window ==> |t.attempts| == |s.attempts| + 1 && Last(t).sup == Launched() && Last(t).look.None?)
        && (t.monitor == Ending(true) <==> !s.stopClosed && !step.launches)
      else t.monitor == Relaunching
  {
    InvRunning(auto, s);
    hide Inv;
    if AttemptStep(step) {
      AttemptStepFlags(auto, s, step);
      hide After;
    } else {
      CloseOwnerLength(s);
      hide CloseOwner, End, CanHappen, Happens, IsGone, Disowned;
    }
  }

  lemma InvRunning(auto: bool, s: State)
    requires Inv(auto, s)
    ensures s.monitor.Backoff? || s.monitor.Relaunching? ==> s.isRunning
  {
    hide AttemptsInv, PastInv, ChannelsInv, CallInv;
  }

  // ---- why a lifecycle fails ----

  /** The last launch that the lifecycle in ss[i] asked for did not come about. */
  ghost predicate LaunchFailed(ss: seq<State>, steps: seq<Step>, i: nat)
    requires |ss| == |steps| + 1 && i <= |steps|
  {
    exists d :: 0 <= d < i && steps[d] == Relaunches(false) && SameAttempt(ss[d], ss[i])
  }

  predicate SameAttempt(s: State, t: State) {
    t.first == s.first && |t.attempts| == |s.attempts|
  }

  /** Three children, or one that exited in its window, or a launch that failed; or no automatic restart. */
  ghost predicate MayFail(auto: bool, ss: seq<State>, steps: seq<Step>, i: nat)
    requires |ss| == |steps| + 1 && i <= |steps|
  {
    var s := ss[i];
    && s.attempts != []
    && (!auto || |s.attempts| - s.first == 3 || Last(s).look == Some(false) || LaunchFailed(ss, steps, i))
  }

  /** As long as the monitor is on its way out its last attempt stays what it is. */
  lemma EndingKeeps(auto: bool, s: State, step: Step)
    requires Inv(auto, s) && Can(auto, s, step) && s.monitor == Ending(true) && After(auto, s, step).monitor == Ending(true)
    ensures var t := After(auto, s, step);
      SameAttempt(s, t) && s.attempts != [] && t.attempts != [] && Last(t).look == Last(s).look
  {
    InvFacts(auto, s);
    hide Inv;
    if AttemptStep(step) {
      AttemptStepsLaunchNothing(auto, s, step);
      LookStaysPut(auto, s, step);
      hide After, Can;
    } else {
      OthersKeepEnding(auto, s, step);
    }
  }

  /** The last attempt is the same one, and what the monitor found is unchanged. */
  predicate SameLast(s: State, t: State) {
    SameAttempt(s, t) && s.attempts != [] && t.attempts != [] && Last(t).look == Last(s).look
  }

  lemma OthersKeepEnding(auto: bool, s: State, step: Step)
    requires Can(auto, s, step) && !AttemptStep(step) && s.isRunning && s.attempts != []
    requires s.monitor == Ending(true) && After(auto, s, step).monitor == Ending(true)
    ensures SameLast(s, After(auto, s, step))
  {
    hide SameLast, CloseOwner, CanHappen, Happens, IsGone, IsReady, SetAttempt, Launch, Decide, ShutDown, StartUp, End;
    if step.StopCloses? {
      ReleasedLast(s);
    } else if step.StartBegins? {
      RefusedLast(s, step.launches);
    } else if step.StopBegins? {
      ShutDownLast(s);
    } else if step.Ends? {
      EndMonitor(s, s.monitor.failed);
    } else {
      AlikeLast(s, After(auto, s, step));
    }
  }

  lemma AlikeLast(s: State, t: State)
    requires t.attempts == s.attempts && t.first == s.first && s.attempts != []
    ensures SameLast(s, t)
  {
  }

  lemma ReleasedLast(s: State)
    requires s.call.Closing? && s.attempts != []
    ensures SameLast(s, Released(s))
  {
    CloseOwnerLooks(s);
    hide CloseOwner;
  }

  lemma RefusedLast(s: State, launches: bool)
    requires s.isRunning && s.attempts != []
    ensures SameLast(s, StartUp(s, launches))
  {
    hide CloseOwner, Begun;
  }

  lemma ShutDownLast(s: State)
    requires s.attempts != []
    ensures SameLast(s, ShutDown(s))
  {
  }

  lemma EndMonitor(s: State, failed: bool)
    ensures End(s, failed).monitor == Absent
  {
    hide CloseOwner, Published;
  }

  lemma CloseOwnerLooks(s: State)
    ensures var t := CloseOwner(s);
      && t == s.(owner := None, attempts := t.attempts) && |t.attempts| == |s.attempts|
      && forall i :: 0 <= i < |s.attempts| ==> t.attempts[i].look == s.attempts[i].look
  {
  }

  lemma LookStaysPut(auto: bool, s: State, step: Step)
    requires Can(auto, s, step) && AttemptStep(step) && s.monitor == Ending(true) && s.attempts != []
    ensures var t := After(auto, s, step); t.attempts != [] && Last(t).look == Last(s).look
  {
    hide CanHappen, Happens, IsGone, SetAttempt, Last;
    if step.WaitReturns? {
      var i := step.attempt;
      SetKeepsLook(s, i, s.attempts[i].(waited := true, early := s.attempts[i].atClose.None?));
    } else if step.SupervisorDoes? {
      var i := step.attempt;
      SetKeepsLook(s, i, s.attempts[i].(sup := Happens(s.attempts[i].sup, step.event)));
    }
  }

  lemma SetKeepsLook(s: State, i: nat, a: Attempt)
    requires i < |s.attempts| && a.look == s.attempts[i].look
    ensures var t := SetAttempt(s, i, a); t.attempts != [] && Last(t).look == Last(s).look
  {
  }

  /** The steps by which the monitor gives up. */
  lemma GivesUp(auto: bool, s: State, step: Step)
    requires Inv(auto, s) && Can(auto, s, step) && s.monitor != Ending(true) && After(auto, s, step).monitor == Ending(true)
    ensures s.isRunning && !s.stopClosed && s.attempts != []
    ensures step.Decides? || step == Relaunches(false)
    ensures var t := After(auto, s, step);
      && SameAttempt(s, t) && t.attempts != []
      && (step.Decides? ==> Last(t) == Last(s) && (!auto || Last(s).look == Some(false) || |s.attempts| - s.first == 3))
  {
    InvFacts(auto, s);
    if step.Decides? { DecisionIff(auto, s); }
    if step.Relaunches? { BackoffLaunches(auto, s, step); InvRunning(auto, s); }
    RunningIffPresent(auto, s);
    hide Inv;
    if AttemptStep(step) {
      AttemptStepFlags(auto, s, step);
      hide After;
    } else {
      CloseOwnerLength(s);
      hide CloseOwner, CanHappen, Happens, IsGone, IsReady, Decide;
    }
  }

  lemma RunningIffPresent(auto: bool, s: State)
    requires Inv(auto, s)
    ensures s.isRunning <==> !s.monitor.Absent?
  {
    hide AttemptsInv, PastInv, ChannelsInv, CallInv;
  }

  /** In every run: a lifecycle that fails with automatic restart has had three children, or its last one
      exited in its window, or its last launch failed. */
  lemma {:induction false} FailsOnlyWhen(auto: bool, ss: seq<State>, steps: seq<Step>, i: nat)
    requires Lifecycle.IsRun(auto, ss, steps) && ss[0] == Initial() && i <= |steps| && ss[i].monitor == Ending(true)
    ensures MayFail(auto, ss, steps, i)
  {
    hide Inv, After, Can;
    InitialInv(auto);
    if i > 0 {
      var d := i - 1;
      InvAlways(auto, ss, steps, d);
      assert Can(auto, ss[d], steps[d]) && ss[d + 1] == After(auto, ss[d], steps[d]);
      if ss[d].monitor == Ending(true) {
        FailsOnlyWhen(auto, ss, steps, d);
        EndingKeeps(auto, ss[d], steps[d]);
        if LaunchFailed(ss, steps, d) {
          var c :| 0 <= c < d && steps[c] == Relaunches(false) && SameAttempt(ss[c], ss[d]);
          assert steps[c] == Relaunches(false) && SameAttempt(ss[c], ss[i]);
        }
      } else {
        GivesUp(auto, ss[d], steps[d]);
        if steps[d] == Relaunches(false) { assert SameAttempt(ss[d], ss[i]); }
      }
    }
  }

  /** So it is in the end, when the failure is reported: to start if the first child did not come up,
      otherwise to the consumer of done. */
  lemma FailureReported(auto: bool, ss: seq<State>, steps: seq<Step>, d: nat)
    requires Lifecycle.IsRun(auto, ss, steps) && ss[0] == Initial() && d < |steps| && steps[d].Ends?
    ensures var s, t := ss[d], ss[d + 1];
      && !t.isRunning && t.lifecycleDone && t.first == s.first
      && (s.monitor == Ending(true) ==>
            && MayFail(auto, ss, steps, d)
            && (if s.first < |s.attempts| && Up(s.attempts[s.first]) then t.done == 1 && t.doneSent == 1
                else t.started == Some(false) && t.doneSent == 0))
      && (s.monitor == Ending(false) ==> s.stopClosed && t.doneSent == 0)
  {
    InitialInv(auto);
    InvAlways(auto, ss, steps, d);
    assert Can(auto, ss[d], steps[d]) && ss[d + 1] == After(auto, ss[d], steps[d]);
    if ss[d].monitor == Ending(true) { FailsOnlyWhen(auto, ss, steps, d); }
    hide MayFail;
    EndPublishes(auto, ss[d]);
    hide Inv, End;
  }

  lemma EndPublishes(auto: bool, s: State)
    requires Inv(auto, s) && s.monitor.Ending?
    ensures var t := End(s, s.monitor.failed);
      && !t.isRunning && t.lifecycleDone && t.first == s.first && s.first < |s.attempts|
      && (s.monitor.failed ==> if Up(s.attempts[s.first]) then t.done == 1 && t.doneSent == 1 else t.started == Some(false) && t.doneSent == 0)
      && (!s.monitor.failed ==> s.stopClosed && t.doneSent == 0)
  {
    EndingReported(auto, s);
    CloseOwnerLength(s);
    hide Inv, CloseOwner;
  }

  lemma EndingReported(auto: bool, s: State)
    requires Inv(auto, s) && s.monitor.Ending?
    ensures s.first < |s.attempts| && s.done == 0 && s.doneSent == 0
    ensures s.reported <==> Up(s.attempts[s.first])
    ensures !s.monitor.failed ==> s.stopClosed
  {
    hide AttemptsInv, PastInv;
  }
}
