/** Runs of the process manager that one would not expect, from the very beginning. */
module LifecycleWitnesses {
  import opened Text
  import opened Supervision
  import opened Lifecycle

  /** Some run from the initial state leads to s. */
  ghost predicate Reachable(auto: bool, s: State) {
    exists ss, steps :: LeadsTo(auto, ss, steps, s)
  }

  ghost predicate LeadsTo(auto: bool, ss: seq<State>, steps: seq<Step>, s: State) {
    Lifecycle.IsRun(auto, ss, steps) && ss[0] == Initial() && ss[|steps|] == s
  }

  lemma StartsReachable(auto: bool)
    ensures Reachable(auto, Initial())
  {
    var steps: seq<Step> := [];
    assert LeadsTo(auto, [Initial()], steps, Initial());
  }

  lemma StepReachable(auto: bool, s: State, step: Step)
    requires Reachable(auto, s) && Can(auto, s, step)
    ensures Reachable(auto, After(auto, s, step))
  {
    hide Can, After;
    var ss, steps :| LeadsTo(auto, ss, steps, s);
    var ss', steps' := ss + [After(auto, s, step)], steps + [step];
    forall i | 0 <= i < |steps'| ensures Can(auto, ss'[i], steps'[i]) && ss'[i + 1] == After(auto, ss'[i], steps'[i]) {
      if i < |steps| {
        assert Can(auto, ss[i], steps[i]) && ss[i + 1] == After(auto, ss[i], steps[i]);
      }
    }
    assert LeadsTo(auto, ss', steps', After(auto, s, step));
  }

  /** The child starts, dies and is reaped inside its window, before Wait returns. */
  function Reaping(): Supervisor {
    Supervisor(Exited(1), Reaped, true, 0, 0, false)
  }

  function Healthy(): Supervisor {
    Supervisor(Serving, Alive, true, 0, 0, false)
  }

  /** A first attempt under way. */
  function Trying(monitor: Monitor, a: Attempt): State {
    State(true, false, false, Some(0), Some(0), false, false, 0, 0, None, 0, false, monitor, 0, [a], false, Awaiting)
  }

  lemma FirstAttempt(auto: bool)
    ensures Reachable(auto, Trying(Window, Attempt(Healthy(), None, false, false, None)))
  {
    StartsReachable(auto);
    StepReachable(auto, Initial(), StartBegins(true));
    var s := Trying(Window, Attempt(Launched(), None, false, false, None));
    assert After(auto, Initial(), StartBegins(true)) == s;
    StepReachable(auto, s, SupervisorDoes(0, Boots(true)));
    assert After(auto, s, SupervisorDoes(0, Boots(true))) == Trying(Window, Attempt(Healthy(), None, false, false, None));
  }

  lemma LookedUp(auto: bool, sup: Supervisor)
    requires Reachable(auto, Trying(Window, Attempt(sup, None, false, false, None)))
    ensures Reachable(auto, Trying(FoundUp, Attempt(sup, Some(sup.child), false, false, Some(true))))
  {
    hide Reachable;
    var a := Attempt(sup, None, false, false, None);
    StepReachable(auto, Trying(Window, a), TimerFires);
    var b := a.(atClose := Some(sup.child));
    assert After(auto, Trying(Window, a), TimerFires) == Trying(Window, b);
    StepReachable(auto, Trying(Window, b), SeesUp);
    assert After(auto, Trying(Window, b), SeesUp) == Trying(FoundUp, b.(look := Some(true)));
  }

  /** After the look the child is taken to be up, and start is told so. */
  lemma TakenUp(auto: bool, sup: Supervisor)
    requires Reachable(auto, Trying(Window, Attempt(sup, None, false, false, None)))
    ensures Reachable(auto, Trying(Watching, Attempt(sup, Some(sup.child), false, false, Some(true))).(
                              ready := true, started := Some(true), startedSent := 1, reported := true))
  {
    hide Reachable;
    LookedUp(auto, sup);
    var c := Attempt(sup, Some(sup.child), false, false, Some(true));
    StepReachable(auto, Trying(FoundUp, c), SetsReady);
    var s := Trying(Reporting, c).(ready := true);
    assert After(auto, Trying(FoundUp, c), SetsReady) == s;
    StepReachable(auto, s, Reports);
  }

  lemma DiesInWindow(auto: bool)
    ensures Reachable(auto, Trying(Window, Attempt(Reaping(), None, false, false, None)))
  {
    hide Reachable;
    FirstAttempt(auto);
    var s := Trying(Window, Attempt(Healthy(), None, false, false, None));
    StepReachable(auto, s, SupervisorDoes(0, ChildDies));
    var dead := Trying(Window, Attempt(Healthy().(child := Dead), None, false, false, None));
    assert After(auto, s, SupervisorDoes(0, ChildDies)) == dead;
    StepReachable(auto, dead, SupervisorDoes(0, Reaps(1)));
    assert After(auto, dead, SupervisorDoes(0, Reaps(1))) == Trying(Window, Attempt(Reaping(), None, false, false, None));
  }

  /** Start returns nil and IsRunning holds for a child that died in its window and has been reaped,
      because Wait had not returned when the monitor looked. */
  lemma StartSucceedsWithDeadChild(auto: bool)
    ensures exists s ::
      && Reachable(auto, s) && Can(auto, s, StartReturns) && s.started == Some(true) && IsReady(s)
      && |s.attempts| == 1 && s.attempts[0].sup.child == Reaped && s.attempts[0].atClose == Some(Reaped)
  {
    hide Reachable;
    DiesInWindow(auto);
    TakenUp(auto, Reaping());
    var t := Trying(Watching, Attempt(Reaping(), Some(Reaped), false, false, Some(true))).(
      ready := true, started := Some(true), startedSent := 1, reported := true);
    assert Reachable(auto, t) && Can(auto, t, StartReturns) && IsReady(t);
  }

  /** A foreground manager whose core has crashed after a successful start: the monitor has decided to
      fail, and nobody has asked to stop. */
  function Crashed(): State {
    Trying(Ending(true), Attempt(Reaping(), Some(Alive), true, false, Some(true))).(
      cmd := None, startedSent := 1, reported := true, call := Idle)
  }

  /** The same manager before: the child is gone and Wait has returned, but the monitor has not looked. */
  function Dying(): State {
    Trying(Watching, Attempt(Reaping(), Some(Alive), true, false, Some(true))).(
      ready := true, startedSent := 1, reported := true, call := Idle)
  }

  lemma DyingReachable()
    ensures Reachable(false, Dying())
  {
    FirstAttempt(false);
    TakenUp(false, Healthy());
    var a := Attempt(Healthy(), Some(Alive), false, false, Some(true));
    var s := Trying(Watching, a).(ready := true, started := Some(true), startedSent := 1, reported := true);
    StepReachable(false, s, StartReturns);
    var s1 := s.(started := None, call := Idle);
    StepReachable(false, s1, SupervisorDoes(0, ChildDies));
    var s2 := s1.(attempts := [a.(sup := Healthy().(child := Dead))]);
    assert After(false, s1, SupervisorDoes(0, ChildDies)) == s2;
    StepReachable(false, s2, SupervisorDoes(0, Reaps(1)));
    var s3 := s1.(attempts := [a.(sup := Reaping())]);
    assert After(false, s2, SupervisorDoes(0, Reaps(1))) == s3;
    StepReachable(false, s3, WaitReturns(0));
    assert After(false, s3, WaitReturns(0)) == Dying();
  }

  lemma CrashReachable()
    ensures Reachable(false, Crashed())
  {
    DyingReachable();
    var s := Dying();
    StepReachable(false, s, SeesExit);
    var s1 := s.(monitor := Exiting(false));
    StepReachable(false, s1, CleansUp);
    var s2 := s1.(ready := false, cmd := None, monitor := Deciding(false));
    assert After(false, s1, CleansUp) == s2;
    StepReachable(false, s2, Decides);
  }

  /** A stop of that manager returns nil, and the report of the crash is in the buffer. */
  lemma StopPublishesACrash()
    ensures Reachable(false, Crashed()) && Can(false, Crashed(), StopBegins)
    ensures var t := After(false, Crashed(), StopBegins);
      && t.stopClosed && t.call == Joining(false) && Can(false, t, Ends)
      && (var v := After(false, t, Ends);
          && Reachable(false, v) && Can(false, v, StopReturns) && v.first == t.first && v.done == 1 && v.doneSent == 1)
  {
    hide After, Inv, Reachable;
    CrashReachable();
    var s := Crashed();
    ReachableInv(false, s);
    CrashIsPublished(false, s);
    StepReachable(false, s, StopBegins);
    var t := After(false, s, StopBegins);
    assert t.call == Joining(false) && t.stopClosed && Can(false, t, Ends) by { CrashStops(); }
    StepReachable(false, t, Ends);
    assert After(false, t, Ends).first == t.first by { EndLength(t, true); CrashStops(); }
  }

  lemma CrashStops()
    ensures After(false, Crashed(), StopBegins) == Crashed().(stopping := true, stopClosed := true, late := true, call := Joining(false))
    ensures var t := After(false, Crashed(), StopBegins); Can(false, t, Ends) && After(false, t, Ends) == End(t, true)
  {
  }

  lemma ReachableInv(auto: bool, s: State)
    requires Reachable(auto, s)
    ensures Inv(auto, s)
  {
    hide Inv;
    var ss, steps :| LeadsTo(auto, ss, steps, s);
    InitialInv(auto);
    InvAlways(auto, ss, steps, |steps|);
  }

  // ---- three children ----

  /** A lifecycle with automatic restart, up and unwatched by any call: the attempts before, and the current one. */
  function Upkeep(monitor: Monitor, before: seq<Attempt>, a: Attempt): State {
    State(true, false, false, Some(|before|), Some(|before|), false, false, 0, 0, None, 1, true, monitor, 0, before + [a], false, Idle)
  }

  function ServingAttempt(): Attempt { Attempt(Healthy(), Some(Alive), false, false, Some(true)) }

  function ExitedAttempt(): Attempt { Attempt(Reaping(), Some(Alive), true, false, Some(true)) }

  function ClosedAttempt(): Attempt { ExitedAttempt().(sup := Reaping().(owned := false)) }

  lemma FirstUp()
    ensures Reachable(true, Upkeep(Watching, [], ServingAttempt()).(ready := true))
  {
    FirstAttempt(true);
    TakenUp(true, Healthy());
    var s := Trying(Watching, ServingAttempt()).(ready := true, started := Some(true), startedSent := 1, reported := true);
    StepReachable(true, s, StartReturns);
    assert After(true, s, StartReturns) == Upkeep(Watching, [], ServingAttempt()).(ready := true);
  }

  /** The child of an attempt exits by itself, and Wait returns. */
  lemma ChildExits(before: seq<Attempt>)
    requires Reachable(true, Upkeep(Watching, before, ServingAttempt()).(ready := true))
    ensures Reachable(true, Upkeep(Watching, before, ExitedAttempt()).(ready := true))
  {
    hide Reachable;
    var n := |before|;
    var s := Upkeep(Watching, before, ServingAttempt()).(ready := true);
    StepReachable(true, s, SupervisorDoes(n, ChildDies));
    var s1 := Upkeep(Watching, before, ServingAttempt().(sup := Healthy().(child := Dead))).(ready := true);
    assert After(true, s, SupervisorDoes(n, ChildDies)) == s1;
    StepReachable(true, s1, SupervisorDoes(n, Reaps(1)));
    var s2 := Upkeep(Watching, before, ServingAttempt().(sup := Reaping())).(ready := true);
    assert After(true, s1, SupervisorDoes(n, Reaps(1))) == s2;
    StepReachable(true, s2, WaitReturns(n));
    assert After(true, s2, WaitReturns(n)) == Upkeep(Watching, before, ExitedAttempt()).(ready := true);
  }

  /** The monitor backs off. */
  lemma BacksOff(before: seq<Attempt>)
    requires |before| < 2 && Reachable(true, Upkeep(Watching, before, ExitedAttempt()).(ready := true))
    ensures Reachable(true, Upkeep(Relaunching, before, ExitedAttempt()).(cmd := None))
  {
    hide Reachable;
    var s := Upkeep(Watching, before, ExitedAttempt()).(ready := true);
    StepReachable(true, s, SeesExit);
    var s1 := s.(monitor := Exiting(false));
    StepReachable(true, s1, CleansUp);
    var s2 := Upkeep(Deciding(false), before, ExitedAttempt()).(cmd := None);
    assert After(true, s1, CleansUp) == s2;
    StepReachable(true, s2, Decides);
    var s3 := Upkeep(Backoff, before, ExitedAttempt()).(cmd := None);
    assert After(true, s2, Decides) == s3;
    StepReachable(true, s3, BackoffOver);
    assert After(true, s3, BackoffOver) == Upkeep(Relaunching, before, ExitedAttempt()).(cmd := None);
  }

  lemma LaunchesAgain(before: seq<Attempt>)
    requires Reachable(true, Upkeep(Relaunching, before, ExitedAttempt()).(cmd := None))
    ensures Reachable(true, Upkeep(Window, before + [ClosedAttempt()], Attempt(Healthy(), None, false, false, None)))
  {
    hide Reachable;
    var s := Upkeep(Relaunching, before, ExitedAttempt()).(cmd := None);
    StepReachable(true, s, Relaunches(true));
    var l := Upkeep(Window, before + [ClosedAttempt()], Attempt(Launched(), None, false, false, None));
    assert After(true, s, Relaunches(true)) == l;
    var n := |before| + 1;
    StepReachable(true, l, SupervisorDoes(n, Boots(true)));
    assert After(true, l, SupervisorDoes(n, Boots(true))) == Upkeep(Window, before + [ClosedAttempt()], Attempt(Healthy(), None, false, false, None));
  }

  lemma ComesUp(before: seq<Attempt>)
    requires Reachable(true, Upkeep(Window, before, Attempt(Healthy(), None, false, false, None)))
    ensures Reachable(true, Upkeep(Watching, before, ServingAttempt()).(ready := true))
  {
    hide Reachable;
    var a := Attempt(Healthy(), None, false, false, None);
    StepReachable(true, Upkeep(Window, before, a), TimerFires);
    var b := a.(atClose := Some(Alive));
    assert After(true, Upkeep(Window, before, a), TimerFires) == Upkeep(Window, before, b);
    StepReachable(true, Upkeep(Window, before, b), SeesUp);
    assert After(true, Upkeep(Window, before, b), SeesUp) == Upkeep(FoundUp, before, ServingAttempt());
    StepReachable(true, Upkeep(FoundUp, before, ServingAttempt()), SetsReady);
    var s := Upkeep(Reporting, before, ServingAttempt()).(ready := true);
    assert After(true, Upkeep(FoundUp, before, ServingAttempt()), SetsReady) == s;
    StepReachable(true, s, Reports);
  }

  lemma NextUp(before: seq<Attempt>)
    requires |before| < 2 && Reachable(true, Upkeep(Watching, before, ServingAttempt()).(ready := true))
    ensures Reachable(true, Upkeep(Watching, before + [ClosedAttempt()], ServingAttempt()).(ready := true))
  {
    hide Reachable;
    ChildExits(before);
    BacksOff(before);
    LaunchesAgain(before);
    ComesUp(before + [ClosedAttempt()]);
  }

  /** With automatic restart a core that exits by itself is started again, and once more: a run from the
      initial state to a third child that is up. */
  lemma ThreeChildren()
    ensures exists s ::
      Reachable(true, s) && IsReady(s) && s.first == 0 && |s.attempts| == 3 && s.attempts[2].sup.child == Alive
      && s.attempts[0].sup.child == Reaped && s.attempts[1].sup.child == Reaped && !s.stopClosed
  {
    hide Reachable;
    FirstUp();
    NextUp([]);
    NextUp([] + [ClosedAttempt()]);
    var s := Upkeep(Watching, [] + [ClosedAttempt()] + [ClosedAttempt()], ServingAttempt()).(ready := true);
    assert Reachable(true, s) && IsReady(s);
  }
}
