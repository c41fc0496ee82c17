/**
  The process manager: a start or stop call, the monitor goroutine of the current lifecycle, and the
  supervisors it has launched, as one step system.  A step is one section under the manager's mutex,
  one channel operation, or one event of the environment.
 */
module Lifecycle {
  import opened Text
  import opened Supervision

  const MAX_ATTEMPTS := 3

  /** One launched command, and what the monitor has seen of it. */
  datatype Attempt = Attempt(
    sup: Supervisor,
    atClose: Option<Child>,   // its child at the moment its startup window closed
    waited: bool,             // Wait has returned
    early: bool,              // ... before the window closed
    look: Option<bool>)       // what the monitor found when it looked: whether Wait was still pending

  /** The monitor takes the child to be up. */
  predicate Up(a: Attempt) { a.look == Some(true) }

  /** Where the monitor is. */
  datatype Monitor =
    | Absent | Window | FoundUp | Reporting | Watching | Exiting(early: bool) | Deciding(early: bool)
    | Backoff | Relaunching | Ending(failed: bool)

  /** Where the call that holds the operations lock is; `again` marks a restart. */
  datatype Call = Idle | Checked | Awaiting | Closing(again: bool) | Joining(again: bool) | Between

  datatype State = State(
    isRunning: bool, ready: bool, stopping: bool, cmd: Option<nat>, owner: Option<nat>,
    stopClosed: bool, lifecycleDone: bool,       // the channels of the current lifecycle
    done: nat, doneSent: nat,                    // reports in the buffer of done, and sent by this lifecycle
    started: Option<bool>, startedSent: nat,     // the same for started; the value says whether it is nil
    reported: bool, monitor: Monitor,
    first: nat, attempts: seq<Attempt>,          // this lifecycle's attempts are those from `first` on
    late: bool,                                  // the stop came after the monitor had decided to fail
    call: Call)

  datatype Step =
    | StartBegins(launches: bool) | StartReturns
    | RestartChecks
    | StopBegins | StopCloses | StopReturns | StopGivesUp
    | TimerFires | WaitReturns(attempt: nat)
    | SeesEarlyExit | SeesUp | SetsReady | Reports | SeesExit | CleansUp | Decides
    | BackoffStopped | BackoffOver | Relaunches(launches: bool) | Ends
    | TakesReport                                // the consumer of done
    | SupervisorDoes(attempt: nat, event: Event)

  function Initial(): State {
    State(false, false, false, None, None, false, true, 0, 0, None, 0, false, Absent, 0, [], false, Idle)
  }

  // ---- pieces ----

  function Count(s: State): int { |s.attempts| - s.first }

  function Last(s: State): Attempt
    requires s.attempts != []
  {
    s.attempts[|s.attempts| - 1]
  }

  function SetAttempt(s: State, i: nat, a: Attempt): (t: State)
    requires i < |s.attempts|
    ensures |t.attempts| == |s.attempts| && t == s.(attempts := t.attempts)
  {
    s.(attempts := s.attempts[i := a])
  }

  /** platformProcess.close. */
  function CloseOwner(s: State): State {
    s.(owner := None, attempts := Disowned(s.attempts, s.owner))
  }

  function Disowned(attempts: seq<Attempt>, owner: Option<nat>): (r: seq<Attempt>)
    ensures |r| == |attempts|
  {
    if owner.Some? && owner.value < |attempts| then
      var i := owner.value;
      attempts[i := attempts[i].(sup := attempts[i].sup.(owned := false))]
    else attempts
  }

  /** startCommand. */
  function Launch(s: State): State {
    s.(attempts := s.attempts + [Attempt(Launched(), None, false, false, None)],
       owner := Some(|s.attempts|), cmd := Some(|s.attempts|))
  }

  predicate IsReady(s: State) { s.isRunning && s.ready && !s.stopping }

  // ---- steps ----

  predicate Can(auto: bool, s: State, step: Step) {
    match step
    case StartBegins(_) => s.call.Idle? || s.call.Between?
    case StartReturns => s.call.Awaiting? && s.started.Some?
    case RestartChecks => s.call.Idle?
    case StopBegins => s.call.Idle? || s.call.Checked?
    case StopCloses => s.call.Closing?
    case StopReturns => s.call.Joining? && s.lifecycleDone
    case StopGivesUp => s.call.Joining?
    case TimerFires => s.monitor.Window? && s.attempts != [] && Last(s).atClose.None?
    case WaitReturns(i) => i < |s.attempts| && IsGone(s.attempts[i].sup) && !s.attempts[i].waited
    case SeesEarlyExit => s.monitor.Window? && s.attempts != [] && Last(s).waited
    case SeesUp => s.monitor.Window? && s.attempts != [] && Last(s).atClose.Some? && !Last(s).waited
    case SetsReady => s.monitor.FoundUp?
    case Reports => s.monitor.Reporting?
    case SeesExit => s.monitor.Watching? && s.attempts != [] && Last(s).waited
    case CleansUp => s.monitor.Exiting?
    case Decides => s.monitor.Deciding?
    case BackoffStopped => s.monitor.Backoff? && s.stopClosed
    case BackoffOver => s.monitor.Backoff?
    case Relaunches(_) => s.monitor.Relaunching?
    case Ends => s.monitor.Ending?
    case TakesReport => s.done > 0
    case SupervisorDoes(i, e) => i < |s.attempts| && e != OwnerCloses && CanHappen(s.attempts[i].sup, e)
  }

  /** start, under the mutex. */
  function StartUp(s: State, launches: bool): State {
    if s.isRunning then s.(call := Idle)
    else if !launches then CloseOwner(s).(call := Idle)
    else
      Begun(CloseOwner(s), |s.attempts|)
  }

  /** A new lifecycle, with fresh channels and an empty buffer of reports. */
  function Begun(s: State, first: nat): State {
    Launch(s).(
      isRunning := true, stopping := false, stopClosed := false, lifecycleDone := false,
      done := 0, doneSent := 0, started := None, startedSent := 0, reported := false, late := false,
      monitor := Window, first := first, call := Awaiting)
  }

  /** stop, under the mutex. */
  function ShutDown(s: State): State {
    var again := s.call.Checked?;
    if !s.isRunning then s.(call := if again then Between else Idle)
    else if s.stopping then s.(call := Joining(again))
    else s.(stopping := true, stopClosed := true, late := s.monitor == Ending(true),
            call := if s.cmd.None? then Joining(again) else Closing(again))
  }

  function Report(s: State): State {
    if s.reported then s.(monitor := Watching)
    else s.(monitor := Watching, reported := true, started := Some(true), startedSent := s.startedSent + 1)
  }

  /** stop, after the mutex: the owner's end is closed. */
  function Released(s: State): State
    requires s.call.Closing?
  {
    CloseOwner(s).(call := Joining(s.call.again))
  }

  function Readied(s: State): State { s.(ready := true, monitor := Reporting) }

  function CleanedUp(s: State): State
    requires s.monitor.Exiting?
  {
    s.(ready := false, cmd := None, monitor := Deciding(s.monitor.early))
  }

  function Decided(auto: bool, s: State): State
    requires s.monitor.Deciding?
  {
    s.(monitor := Decide(auto, s, s.monitor.early))
  }

  /** The monitor's decision after an exit. */
  function Decide(auto: bool, s: State, early: bool): Monitor {
    if s.stopClosed then Ending(false)
    else if early || !auto then Ending(true)
    else if Count(s) >= MAX_ATTEMPTS then Ending(true)
    else Backoff
  }

  function Relaunch(s: State, launches: bool): State {
    if s.stopClosed then s.(monitor := Ending(false))
    else if !launches then CloseOwner(s).(monitor := Ending(true))
    else Launch(CloseOwner(s)).(monitor := Window)
  }

  function Flagless(s: State): State {
    CloseOwner(s).(isRunning := false, stopping := false, cmd := None)
  }

  /** The one value start waits for, or the report of a core that had come up. */
  function Published(s: State, failed: bool): State {
    if !s.reported then s.(started := Some(!failed), startedSent := s.startedSent + 1)
    else if failed then s.(done := s.done + 1, doneSent := s.doneSent + 1)
    else s
  }

  /** The monitor's last section. */
  function End(s: State, failed: bool): State {
    Published(Flagless(s), failed).(lifecycleDone := true, monitor := Absent)
  }

  function After(auto: bool, s: State, step: Step): State
    requires Can(auto, s, step)
  {
    match step
    case StartBegins(launches) => StartUp(s, launches)
    case StartReturns => s.(started := None, call := Idle)
    case RestartChecks => s.(call := if IsReady(s) then Checked else Idle)
    case StopBegins => ShutDown(s)
    case StopCloses => Released(s)
    case StopReturns => s.(call := if s.call.again then Between else Idle)
    case StopGivesUp => s.(call := Idle)
    case TimerFires => SetAttempt(s, |s.attempts| - 1, Last(s).(atClose := Some(Last(s).sup.child)))
    case WaitReturns(i) => SetAttempt(s, i, s.attempts[i].(waited := true, early := s.attempts[i].atClose.None?))
    case SeesEarlyExit => SetAttempt(s, |s.attempts| - 1, Last(s).(look := Some(false))).(monitor := Exiting(true))
    case SeesUp => SetAttempt(s, |s.attempts| - 1, Last(s).(look := Some(true))).(monitor := FoundUp)
    case SetsReady => Readied(s)
    case Reports => Report(s)
    case SeesExit => s.(monitor := Exiting(false))
    case CleansUp => CleanedUp(s)
    case Decides => Decided(auto, s)
    case BackoffStopped => s.(monitor := Ending(false))
    case BackoffOver => s.(monitor := Relaunching)
    case Relaunches(launches) => Relaunch(s, launches)
    case Ends => End(s, s.monitor.failed)
    case TakesReport => s.(done := s.done - 1)
    case SupervisorDoes(i, e) => SetAttempt(s, i, s.attempts[i].(sup := Happens(s.attempts[i].sup, e)))
  }

  // ---- the invariant ----

  predicate AttemptInv(a: Attempt) {
    && SupInv(a.sup)
    && (a.waited ==> IsGone(a.sup))
    && (Up(a) ==> a.atClose.Some? && !a.early)
    && (a.atClose == Some(Dead) || a.atClose == Some(Reaped) ==> a.sup.child.Dead? || a.sup.child.Reaped?)
    && (a.early ==> a.waited)
  }

  ghost predicate AttemptsInv(attempts: seq<Attempt>, owner: Option<nat>) {
    && (forall i :: 0 <= i < |attempts| ==> AttemptInv(attempts[i]))
    && (forall i :: 0 <= i < |attempts| ==> (attempts[i].sup.owned ==> owner == Some(i)))
    && (owner.Some? ==> owner.value + 1 == |attempts|)
  }

  /** Every attempt but the last was waited for, and every one but the last of a lifecycle was taken
      to be up. */
  ghost predicate PastInv(attempts: seq<Attempt>, first: nat, isRunning: bool) {
    && first <= |attempts|
    && (forall i :: 0 <= i < |attempts| - 1 ==> attempts[i].waited)
    && (forall i :: first <= i < |attempts| - 1 ==> Up(attempts[i]))
    && (attempts != [] && !isRunning ==> attempts[|attempts| - 1].waited)
  }

  predicate MonitorInv(auto: bool, s: State) {
    && (s.isRunning <==> !s.monitor.Absent?) && s.lifecycleDone == !s.isRunning
    && (s.isRunning ==> 1 <= Count(s) <= MAX_ATTEMPTS && (!auto ==> Count(s) == 1))
    && (s.cmd.Some? ==> s.isRunning && s.cmd.value + 1 == |s.attempts|)
    && (s.ready ==> s.monitor.Reporting? || s.monitor.Watching? || s.monitor == Exiting(false))
    && (s.isRunning ==>
          match s.monitor
          case Absent => true
          case Window => Last(s).look.None? && s.cmd.Some?
          case FoundUp => Up(Last(s))
          case Reporting => Up(Last(s))
          case Watching => Up(Last(s)) && s.reported
          case Exiting(early) => Last(s).waited && (if early then Last(s).look == Some(false) else Up(Last(s)) && s.reported)
          case Deciding(early) => Last(s).waited && (if early then Last(s).look == Some(false) else Up(Last(s)) && s.reported)
          case Backoff => Last(s).waited && Up(Last(s)) && auto && Count(s) < MAX_ATTEMPTS && s.reported
          case Relaunching => Last(s).waited && Up(Last(s)) && auto && Count(s) < MAX_ATTEMPTS && s.reported
          case Ending(failed) => Last(s).waited && (!failed ==> s.stopClosed))
  }

  predicate ChannelsInv(s: State) {
    && s.doneSent <= 1 && s.startedSent <= 1 && s.done <= 1
    && (s.isRunning ==>
          && s.done == 0 && s.doneSent == 0
          && s.startedSent == (if s.reported then 1 else 0)
          && s.stopping == s.stopClosed
          && (!s.call.Awaiting? ==> s.reported))
    && (s.reported ==> s.first < |s.attempts| && Up(s.attempts[s.first]))
    && (s.stopClosed ==> s.reported)
    && (!s.isRunning ==> !s.stopping)
    && (!s.isRunning && s.first < |s.attempts| ==> s.startedSent == 1)
    && (s.isRunning && !s.reported ==> Count(s) == 1 && (Up(s.attempts[s.first]) ==> s.monitor.FoundUp? || s.monitor.Reporting?))
    && (!s.isRunning && s.first < |s.attempts| ==> (s.reported <==> Up(s.attempts[s.first])))
    && (s.doneSent > 0 ==> s.reported)
    && (s.stopClosed && s.monitor.Ending? ==> s.late == s.monitor.failed)
    && (s.late ==> s.stopClosed)
    && (s.stopClosed && !s.isRunning ==> (s.doneSent == 1 <==> s.late))
    && (s.stopClosed && s.isRunning && !s.monitor.Ending? ==> !s.late)
  }

  predicate CallInv(s: State) {
    && (s.call.Awaiting? ==>
          && !s.stopClosed && s.first < |s.attempts|
          && (s.startedSent == 1 <==> s.started.Some?)
          && (s.started.Some? ==> s.started.value == s.reported))
    && (s.call.Closing? || s.call.Joining? ==> (s.isRunning ==> s.stopClosed) && s.first < |s.attempts|)
    && (s.call.Between? ==> !s.isRunning)
  }

  ghost predicate Inv(auto: bool, s: State) {
    AttemptsInv(s.attempts, s.owner) && PastInv(s.attempts, s.first, s.isRunning) && MonitorInv(auto, s) && ChannelsInv(s) && CallInv(s)
  }

  lemma InitialInv(auto: bool)
    ensures Inv(auto, Initial())
  {
  }

  /** One attempt changes in what neither the monitor nor the channels have looked at yet. */
  lemma AttemptChanges(auto: bool, s: State, i: nat, a: Attempt)
    requires Inv(auto, s) && i < |s.attempts| && AttemptInv(a)
    requires s.attempts[i].waited ==> a.waited
    requires a.look == s.attempts[i].look && (a.sup.owned ==> s.attempts[i].sup.owned)
    ensures Inv(auto, s.(attempts := s.attempts[i := a]))
  {
    hide AttemptInv;
    var t := s.(attempts := s.attempts[i := a]);
    assert AttemptsInv(t.attempts, t.owner) && PastInv(t.attempts, t.first, t.isRunning);
    hide AttemptsInv, PastInv;
    assert MonitorInv(auto, t);
    hide MonitorInv;
  }

  lemma AttemptStepInv(a: Attempt, e: Event)
    requires AttemptInv(a) && CanHappen(a.sup, e) && e != OwnerCloses
    ensures AttemptInv(a.(sup := Happens(a.sup, e))) && Happens(a.sup, e).owned == a.sup.owned
  {
  }

  lemma LookKeeps(auto: bool, s: State, step: Step)
    requires Inv(auto, s) && Can(auto, s, step) && (step.SeesUp? || step.SeesEarlyExit?)
    ensures Inv(auto, After(auto, s, step))
  {
    assert AttemptInv(Last(s).(look := Some(step.SeesUp?))) by { hide SupInv; }
    LookedKeeps(auto, s, step.SeesUp?);
    hide Inv, AttemptInv, IsGone, StartUp, ShutDown, Relaunch, End, Report, CloseOwner, Decide;
  }

  lemma LookedKeeps(auto: bool, s: State, up: bool)
    requires Inv(auto, s) && s.monitor.Window? && s.attempts != [] && (up <==> !Last(s).waited)
    requires AttemptInv(Last(s).(look := Some(up)))
    ensures Inv(auto, SetAttempt(s, |s.attempts| - 1, Last(s).(look := Some(up))).(monitor := if up then FoundUp else Exiting(true)))
  {
    hide AttemptInv;
    var t := SetAttempt(s, |s.attempts| - 1, Last(s).(look := Some(up))).(monitor := if up then FoundUp else Exiting(true));
    assert AttemptsInv(t.attempts, t.owner) && PastInv(t.attempts, t.first, t.isRunning);
    hide AttemptsInv, PastInv;
    assert MonitorInv(auto, t);
    hide MonitorInv;
  }

  /** Closing the owner's end changes only whether it is open. */
  lemma CloseOwnerIs(s: State)
    requires AttemptsInv(s.attempts, s.owner)
    ensures var t := CloseOwner(s);
      && t == s.(owner := None, attempts := t.attempts) && |t.attempts| == |s.attempts| && AttemptsInv(t.attempts, None)
      && (forall i :: 0 <= i < |s.attempts| ==>
            t.attempts[i].waited == s.attempts[i].waited && t.attempts[i].look == s.attempts[i].look && !t.attempts[i].sup.owned)
  {
    if s.owner.Some? {
      ReleasedInv(s.attempts[s.owner.value]);
    }
    hide AttemptInv;
    assert forall i :: 0 <= i < |s.attempts| ==> (s.attempts[i].sup.owned ==> s.owner == Some(i));
  }

  lemma ReleasedInv(a: Attempt)
    requires AttemptInv(a)
    ensures AttemptInv(a.(sup := a.sup.(owned := false)))
  {
  }

  lemma CloseOwnerKeeps(auto: bool, s: State)
    requires Inv(auto, s)
    ensures Inv(auto, CloseOwner(s))
  {
    hide AttemptInv, AttemptsInv;
    CloseOwnerIs(s);
    hide CloseOwner;
    var t := CloseOwner(s);
    assert PastInv(t.attempts, t.first, t.isRunning);
    hide PastInv;
    assert MonitorInv(auto, t);
    hide MonitorInv;
  }

  lemma LaunchIs(s: State, first: nat)
    requires AttemptsInv(s.attempts, None) && first <= |s.attempts|
    requires forall i :: 0 <= i < |s.attempts| ==> s.attempts[i].waited
    requires forall i :: first <= i < |s.attempts| ==> Up(s.attempts[i])
    ensures AttemptsInv(Launch(s).attempts, Launch(s).owner) && PastInv(Launch(s).attempts, first, true)
  {
  }

  /** A new lifecycle has an open stop channel and no stale report, and holds the only open owner's end. */
  lemma StartUpIs(auto: bool, s: State)
    requires Inv(auto, s) && !s.isRunning
    ensures var t := StartUp(s, true);
      && !t.stopClosed && t.done == 0 && |t.attempts| == |s.attempts| + 1
      && forall i :: 0 <= i < |s.attempts| ==> !t.attempts[i].sup.owned
  {
    CloseOwnerIs(s);
    hide Inv, CloseOwner, AttemptsInv;
  }

  lemma StartKeeps(auto: bool, s: State, launches: bool)
    requires Inv(auto, s) && Can(auto, s, StartBegins(launches))
    ensures Inv(auto, StartUp(s, launches))
  {
    CloseOwnerKeeps(auto, s);
    var c := CloseOwner(s);
    if !s.isRunning && launches {
      CloseOwnerIs(s);
      LaunchIs(c, |c.attempts|);
      hide AttemptsInv, PastInv, CloseOwner;
    } else {
      hide AttemptsInv, PastInv, CloseOwner;
      CloseOwnerIs(s);
    }
  }

  lemma RelaunchKeeps(auto: bool, s: State, launches: bool)
    requires Inv(auto, s) && s.monitor.Relaunching?
    ensures Inv(auto, Relaunch(s, launches))
  {
    CloseOwnerKeeps(auto, s);
    CloseOwnerIs(s);
    var c := CloseOwner(s);
    if s.stopClosed {
      GivesUpKeeps(auto, s);
    } else if !launches {
      hide CloseOwner, Inv;
      GivesUpKeeps(auto, c);
    } else {
      LaunchIs(c, c.first);
      hide CloseOwner, Inv, AttemptsInv, PastInv, Launch;
      NextAttemptKeeps(auto, c);
    }
  }

  lemma GivesUpKeeps(auto: bool, s: State)
    requires Inv(auto, s) && s.monitor.Relaunching?
    ensures Inv(auto, s.(monitor := Ending(!s.stopClosed)))
  {
    hide AttemptsInv, PastInv;
  }

  lemma NextAttemptKeeps(auto: bool, s: State)
    requires Inv(auto, s) && s.monitor.Relaunching? && !s.stopClosed
    requires AttemptsInv(Launch(s).attempts, Launch(s).owner) && PastInv(Launch(s).attempts, s.first, true)
    ensures Inv(auto, Launch(s).(monitor := Window))
  {
    hide AttemptsInv, PastInv;
    var t := Launch(s).(monitor := Window);
    assert MonitorInv(auto, t);
    hide MonitorInv;
  }

  lemma EndKeeps(auto: bool, s: State)
    requires Inv(auto, s) && s.monitor.Ending?
    ensures Inv(auto, End(s, s.monitor.failed))
  {
    CloseOwnerKeeps(auto, s);
    CloseOwnerIs(s);
    var c := CloseOwner(s);
    assert PastInv(c.attempts, c.first, false);
    hide AttemptsInv, PastInv, CloseOwner;
    EndedKeeps(auto, c);
  }

  lemma EndedKeeps(auto: bool, c: State)
    requires Inv(auto, c) && c.monitor.Ending? && PastInv(c.attempts, c.first, false)
    ensures Inv(auto, Published(c.(isRunning := false, stopping := false, cmd := None), c.monitor.failed).(lifecycleDone := true, monitor := Absent))
  {
    hide AttemptsInv, PastInv;
    var t := Published(c.(isRunning := false, stopping := false, cmd := None), c.monitor.failed).(lifecycleDone := true, monitor := Absent);
    assert MonitorInv(auto, t);
    assert CallInv(t);
    hide MonitorInv, CallInv;
  }

  lemma MonitorStepKeeps(auto: bool, s: State, step: Step)
    requires Inv(auto, s) && Can(auto, s, step)
    requires step.SetsReady? || step.SeesExit? || step.CleansUp? || step.Decides? || step.BackoffStopped? || step.BackoffOver?
    ensures Inv(auto, After(auto, s, step))
  {
    hide AttemptsInv, PastInv;
  }

  lemma CallStepKeeps(auto: bool, s: State, step: Step)
    requires Inv(auto, s) && Can(auto, s, step)
    requires step.StartReturns? || step.RestartChecks? || step.StopBegins? || step.StopReturns? || step.StopGivesUp? || step.TakesReport?
    ensures Inv(auto, After(auto, s, step))
  {
    hide AttemptsInv, PastInv;
    var t := After(auto, s, step);
    assert MonitorInv(auto, t);
    assert ChannelsInv(t);
    assert CallInv(t);
  }

  lemma ReportKeeps(auto: bool, s: State)
    requires Inv(auto, s) && Can(auto, s, Reports)
    ensures Inv(auto, Report(s))
  {
    hide AttemptsInv;
    assert Up(s.attempts[s.first]);
  }

  lemma StepKeeps(auto: bool, s: State, step: Step)
    requires Inv(auto, s) && Can(auto, s, step)
    ensures Inv(auto, After(auto, s, step))
  {
    hide Inv, StartUp, ShutDown, Relaunch, End, Report, CloseOwner, Decide, AttemptInv, IsReady;
    match step {
      case StartBegins(launches) => StartKeeps(auto, s, launches);
      case StopCloses => StopClosesKeeps(auto, s);
      case TimerFires => AttemptStepKeeps(auto, s, step, |s.attempts| - 1);
      case WaitReturns(i) => AttemptStepKeeps(auto, s, step, i);
      case SupervisorDoes(i, e) => AttemptStepKeeps(auto, s, step, i);
      case SeesUp => LookKeeps(auto, s, step);
      case Reports => ReportKeeps(auto, s);
      case Relaunches(launches) => RelaunchKeeps(auto, s, launches);
      case Ends => EndKeeps(auto, s);
      case SeesEarlyExit => LookKeeps(auto, s, step);
      case SetsReady => MonitorStepKeeps(auto, s, step);
      case SeesExit => MonitorStepKeeps(auto, s, step);
      case CleansUp => MonitorStepKeeps(auto, s, step);
      case Decides => MonitorStepKeeps(auto, s, step);
      case BackoffStopped => MonitorStepKeeps(auto, s, step);
      case BackoffOver => MonitorStepKeeps(auto, s, step);
      case _ => CallStepKeeps(auto, s, step);
    }
  }

  lemma ShutDownKeeps(auto: bool, s: State)
    requires Inv(auto, s) && (s.call.Idle? || s.call.Checked?)
    ensures Inv(auto, ShutDown(s))
  {
    hide Inv, ShutDown;
    CallStepKeeps(auto, s, StopBegins);
  }

  lemma MonitorSectionKeeps(auto: bool, s: State)
    requires Inv(auto, s)
    ensures s.monitor.FoundUp? ==> Inv(auto, Readied(s))
    ensures s.monitor.Exiting? ==> Inv(auto, CleanedUp(s))
    ensures s.monitor.Deciding? ==> Inv(auto, Decided(auto, s))
  {
    hide Inv, Readied, CleanedUp, Decided;
    if s.monitor.FoundUp? { MonitorStepKeeps(auto, s, SetsReady); }
    if s.monitor.Exiting? { MonitorStepKeeps(auto, s, CleansUp); }
    if s.monitor.Deciding? { MonitorStepKeeps(auto, s, Decides); }
  }

  lemma StopClosesKeeps(auto: bool, s: State)
    requires Inv(auto, s) && Can(auto, s, StopCloses)
    ensures Inv(auto, Released(s))
  {
    CloseOwnerKeeps(auto, s);
    CloseOwnerIs(s);
    hide AttemptsInv, PastInv, CloseOwner, MonitorInv, ChannelsInv;
    JoiningKeeps(auto, CloseOwner(s));
  }

  lemma JoiningKeeps(auto: bool, s: State)
    requires Inv(auto, s) && s.call.Closing?
    ensures Inv(auto, s.(call := Joining(s.call.again)))
  {
    hide AttemptsInv, PastInv;
  }

  lemma AttemptSeenInv(a: Attempt)
    requires AttemptInv(a)
    ensures IsGone(a.sup) && !a.waited ==> AttemptInv(a.(waited := true, early := a.atClose.None?))
    ensures a.atClose.None? ==> AttemptInv(a.(atClose := Some(a.sup.child)))
  {
    hide SupInv;
  }

  lemma AttemptStepKeeps(auto: bool, s: State, step: Step, i: nat)
    requires Inv(auto, s) && Can(auto, s, step) && i < |s.attempts|
    requires (step.SupervisorDoes? && step.attempt == i) || (step.WaitReturns? && step.attempt == i) || (step.TimerFires? && i == |s.attempts| - 1)
    ensures Inv(auto, After(auto, s, step))
  {
    var a := s.attempts[i];
    assert AttemptInv(a);
    AttemptSeenInv(a);
    if step.SupervisorDoes? { AttemptStepInv(a, step.event); }
    hide Inv, SupInv, AttemptInv, IsGone, Happens, CanHappen, StartUp, ShutDown, Relaunch, End, Report, CloseOwner, Decide;
    match step {
      case SupervisorDoes(_, e) => AttemptChanges(auto, s, i, a.(sup := Happens(a.sup, e)));
      case WaitReturns(_) => AttemptChanges(auto, s, i, a.(waited := true, early := a.atClose.None?));
      case TimerFires => AttemptChanges(auto, s, i, a.(atClose := Some(a.sup.child)));
    }
  }

  /** What the invariant says of the channels and of the owner's ends. */
  lemma InvFacts(auto: bool, s: State)
    requires Inv(auto, s)
    ensures s.isRunning ==> s.attempts != [] && s.startedSent == (if s.reported then 1 else 0) && s.doneSent == 0
    ensures !s.isRunning && s.first < |s.attempts| ==> s.startedSent == 1 && s.doneSent <= 1 && (s.doneSent == 1 ==> s.reported)
    ensures s.monitor.FoundUp? || s.monitor.Reporting? ==> s.attempts != [] && Up(Last(s))
    ensures forall i :: 0 <= i < |s.attempts| && s.attempts[i].sup.owned ==> s.owner == Some(i)
    ensures s.monitor.Ending? ==> s.first < |s.attempts|
    ensures s.monitor.Ending? || s.monitor.Reporting? ==> s.isRunning
  {
    hide AttemptInv;
  }

  /** The monitor's last section reports once: to start, or a failure to the consumer of done. */
  lemma EndIs(auto: bool, s: State)
    requires Inv(auto, s) && s.monitor.Ending?
    ensures var t := End(s, s.monitor.failed);
      && !t.isRunning && t.lifecycleDone && t.startedSent == 1 && t.doneSent <= 1 && (t.doneSent == 1 ==> t.reported)
  {
    EndKeeps(auto, s);
    InvFacts(auto, s);
    InvFacts(auto, End(s, s.monitor.failed));
    CloseOwnerLength(s);
    hide Inv, CloseOwner;
  }

  // ---- runs ----

  ghost predicate IsRun(auto: bool, ss: seq<State>, steps: seq<Step>) {
    && |ss| == |steps| + 1
    && forall i :: 0 <= i < |steps| ==> Can(auto, ss[i], steps[i]) && ss[i + 1] == After(auto, ss[i], steps[i])
  }

  lemma {:induction false} InvAlways(auto: bool, ss: seq<State>, steps: seq<Step>, i: nat)
    requires IsRun(auto, ss, steps) && Inv(auto, ss[0]) && i <= |steps|
    ensures Inv(auto, ss[i])
  {
    hide Inv, After, Can;
    if i > 0 {
      InvAlways(auto, ss, steps, i - 1);
      assert Can(auto, ss[i - 1], steps[i - 1]) && ss[i - 1 + 1] == After(auto, ss[i - 1], steps[i - 1]);
      StepKeeps(auto, ss[i - 1], steps[i - 1]);
    }
  }

  // ---- launching ----

  /** A lifecycle launches at most three children, one without automatic restart, and every attempt
      after the first follows one that was taken to be up after its window and whose supervisor is
      gone. */
  lemma LaunchesBounded(auto: bool, ss: seq<State>, steps: seq<Step>, i: nat, n: nat)
    requires IsRun(auto, ss, steps) && Inv(auto, ss[0]) && i <= |steps| && ss[i].isRunning
    ensures 1 <= |ss[i].attempts| - ss[i].first <= (if auto then MAX_ATTEMPTS else 1)
    ensures ss[i].first <= n < |ss[i].attempts| - 1 ==>
      var a := ss[i].attempts[n];
      Up(a) && a.atClose.Some? && !a.early && a.waited && IsGone(a.sup)
  {
    hide Can, After;
    InvAlways(auto, ss, steps, i);
    if ss[i].first <= n < |ss[i].attempts| - 1 { assert AttemptInv(ss[i].attempts[n]); }
  }

  lemma CloseOwnerLength(s: State)
    ensures var t := CloseOwner(s);
            t == s.(owner := None, attempts := t.attempts) && |t.attempts| == |s.attempts|
  {
    hide Disowned;
  }

  predicate AttemptStep(step: Step) {
    step.SupervisorDoes? || step.WaitReturns? || step.TimerFires? || step.SeesUp? || step.SeesEarlyExit?
  }

  lemma AttemptStepsLaunchNothing(auto: bool, s: State, step: Step)
    requires Can(auto, s, step) && AttemptStep(step)
    ensures var t := After(auto, s, step);
      && |t.attempts| == |s.attempts| && t.first == s.first && t.stopClosed == s.stopClosed && t.late == s.late
      && t.startedSent == s.startedSent && t.doneSent == s.doneSent
  {
    hide CanHappen, Happens, IsGone, SetAttempt, Last, StartUp, ShutDown, Relaunch, End, Report, CloseOwner, Decide;
    match step {
      case TimerFires =>
      case WaitReturns(_) =>
      case SeesUp =>
      case SeesEarlyExit =>
      case SupervisorDoes(_, _) =>
    }
  }

  /** A step of one attempt touches only that, and the place of a monitor that sees it. */
  predicate SameFlags(s: State, t: State) {
    && t == s.(attempts := t.attempts, monitor := t.monitor)
    && (t.monitor == s.monitor || (s.monitor.Window? && !t.monitor.Ending?))
  }

  lemma AttemptStepFlags(auto: bool, s: State, step: Step)
    requires Can(auto, s, step) && AttemptStep(step)
    ensures SameFlags(s, After(auto, s, step))
  {
    hide CanHappen, Happens, IsGone, Last, SetAttempt, StartUp, ShutDown, Relaunch, End, Report, CloseOwner, Decide, SameFlags;
    match step {
      case TimerFires => SetFlags(s, |s.attempts| - 1, Last(s).(atClose := Some(Last(s).sup.child)), s.monitor);
      case WaitReturns(i) => SetFlags(s, i, s.attempts[i].(waited := true, early := s.attempts[i].atClose.None?), s.monitor);
      case SeesUp => SetFlags(s, |s.attempts| - 1, Last(s).(look := Some(true)), FoundUp);
      case SeesEarlyExit => SetFlags(s, |s.attempts| - 1, Last(s).(look := Some(false)), Exiting(true));
      case SupervisorDoes(i, e) => SetFlags(s, i, s.attempts[i].(sup := Happens(s.attempts[i].sup, e)), s.monitor);
    }
  }

  lemma SetFlags(s: State, i: nat, a: Attempt, monitor: Monitor)
    requires i < |s.attempts| && (monitor == s.monitor || (s.monitor.Window? && !monitor.Ending?))
    ensures SameFlags(s, SetAttempt(s, i, a).(monitor := monitor))
    ensures monitor == s.monitor ==> SetAttempt(s, i, a).(monitor := monitor) == SetAttempt(s, i, a)
  {
  }

  /** Only two steps launch anything. */
  lemma OthersLaunchNothing(auto: bool, s: State, step: Step)
    requires Can(auto, s, step) && !step.StartBegins? && !step.Relaunches?
    ensures LaunchesNothing(s, After(auto, s, step))
  {
    if AttemptStep(step) {
      hide After;
      AttemptStepsLaunchNothing(auto, s, step);
    } else {
      hide CloseOwner, CanHappen, Happens, End, Decide, IsGone, IsReady, SetAttempt, Last, ShutDown, LaunchesNothing;
      if step.StopBegins? {
        ShutDownLaunchesNothing(s);
      } else if step.StopCloses? {
        ReleasedLaunchesNothing(s);
      } else if step.Ends? {
        EndLaunchesNothing(s, s.monitor.failed);
      } else {
        SameAttempts(s, After(auto, s, step));
      }
    }
  }

  predicate LaunchesNothing(s: State, t: State) {
    |t.attempts| == |s.attempts| && t.first == s.first && (s.stopClosed ==> t.stopClosed)
  }

  lemma SameAttempts(s: State, t: State)
    requires t.attempts == s.attempts && t.first == s.first && t.stopClosed == s.stopClosed
    ensures LaunchesNothing(s, t)
  {
  }

  lemma ShutDownLaunchesNothing(s: State)
    ensures LaunchesNothing(s, ShutDown(s))
  {
  }

  lemma ReleasedLaunchesNothing(s: State)
    requires s.call.Closing?
    ensures LaunchesNothing(s, Released(s))
  {
    CloseOwnerLength(s);
    hide CloseOwner;
  }

  lemma EndLaunchesNothing(s: State, failed: bool)
    ensures LaunchesNothing(s, End(s, failed))
  {
    EndLength(s, failed);
    hide End;
  }

  lemma EndLength(s: State, failed: bool)
    ensures var t := End(s, failed);
      && |t.attempts| == |s.attempts| && t.first == s.first && t.stopClosed == s.stopClosed && t.late == s.late
      && t.reported == s.reported && !t.isRunning
      && t.startedSent == s.startedSent + (if s.reported then 0 else 1)
      && t.doneSent == s.doneSent + (if s.reported && failed then 1 else 0)
  {
    CloseOwnerLength(s);
    hide CloseOwner;
  }

  lemma StartLaunches(s: State, launches: bool)
    ensures var t := StartUp(s, launches);
      && (|t.attempts| == |s.attempts| || (|t.attempts| == |s.attempts| + 1 && !s.isRunning && t.first == |s.attempts|))
      && (|t.attempts| == |s.attempts| ==> t.first == s.first && t.stopClosed == s.stopClosed)
  {
    CloseOwnerLength(s);
    hide CloseOwner;
  }

  lemma RelaunchLaunches(auto: bool, s: State, launches: bool)
    requires MonitorInv(auto, s) && s.monitor.Relaunching?
    ensures var t := Relaunch(s, launches);
      && (|t.attempts| == |s.attempts| || (|t.attempts| == |s.attempts| + 1 && !s.stopClosed && auto && Up(Last(s))))
      && t.first == s.first && t.stopClosed == s.stopClosed
  {
    CloseOwnerLength(s);
    hide CloseOwner;
  }

  /** A step launches a child only to start a lifecycle, or in one that nobody has asked to stop. */
  lemma LaunchSteps(auto: bool, s: State, step: Step)
    requires Inv(auto, s) && Can(auto, s, step)
    ensures var t := After(auto, s, step);
      && |s.attempts| <= |t.attempts| <= |s.attempts| + 1
      && (|t.attempts| > |s.attempts| ==>
            || (step.StartBegins? && !s.isRunning && t.first == |s.attempts|)
            || (step.Relaunches? && !s.stopClosed && auto && s.attempts != [] && Up(Last(s)) && t.first == s.first))
      && (t.first == s.first ==> (s.stopClosed ==> t.stopClosed && |t.attempts| == |s.attempts|))
      && s.first <= t.first
  {
    hide StartUp, Relaunch, AttemptsInv;
    if step.StartBegins? {
      StartLaunches(s, step.launches);
    } else if step.Relaunches? {
      RelaunchLaunches(auto, s, step.launches);
    } else {
      hide After, Inv;
      OthersLaunchNothing(auto, s, step);
    }
  }

  /** No resurrection: once the stop channel of a lifecycle is closed, it launches nothing any more,
      in any interleaving, for as long as no new lifecycle is started. */
  lemma {:induction false} NoResurrection(auto: bool, ss: seq<State>, steps: seq<Step>, a: nat, b: nat)
    requires IsRun(auto, ss, steps) && Inv(auto, ss[0]) && a <= b <= |steps|
    requires ss[a].stopClosed && ss[b].first == ss[a].first
    ensures ss[b].stopClosed && |ss[b].attempts| == |ss[a].attempts|
    decreases b
  {
    hide Inv, After, Can;
    if a < b {
      FirstGrows(auto, ss, steps, a, b - 1);
      InvAlways(auto, ss, steps, b - 1);
      assert Can(auto, ss[b - 1], steps[b - 1]) && ss[b - 1 + 1] == After(auto, ss[b - 1], steps[b - 1]);
      LaunchSteps(auto, ss[b - 1], steps[b - 1]);
      NoResurrection(auto, ss, steps, a, b - 1);
    }
  }

  lemma {:induction false} FirstGrows(auto: bool, ss: seq<State>, steps: seq<Step>, a: nat, b: nat)
    requires IsRun(auto, ss, steps) && Inv(auto, ss[0]) && a <= b <= |steps|
    ensures ss[a].first <= ss[b].first
    decreases b
  {
    hide Inv, After, Can;
    if a < b {
      FirstGrows(auto, ss, steps, a, b - 1);
      InvAlways(auto, ss, steps, b - 1);
      assert Can(auto, ss[b - 1], steps[b - 1]) && ss[b - 1 + 1] == After(auto, ss[b - 1], steps[b - 1]);
      LaunchSteps(auto, ss[b - 1], steps[b - 1]);
    }
  }

  // ---- what the calls report ----

  const NEW_ATTEMPT := Attempt(Launched(), None, false, false, None)

  /** Apart from what happens to single attempts, a step closes the owner's end or launches. */
  lemma OtherAttempts(auto: bool, s: State, step: Step)
    requires Can(auto, s, step) && !AttemptStep(step)
    ensures LaunchesOrCloses(s, After(auto, s, step))
  {
    hide CloseOwner, Decide, IsGone, IsReady, CanHappen, Happens, StartUp, Relaunch, ShutDown, End, SetAttempt, Last, LaunchesOrCloses;
    if step.StartBegins? {
      StartAttempts(s, step.launches);
    } else if step.Relaunches? {
      RelaunchAttempts(s, step.launches);
    } else if step.StopBegins? {
      ShutDownAttempts(s);
    } else if step.StopCloses? {
      ReleasedAttempts(s);
    } else if step.Ends? {
      EndAttempts(s, s.monitor.failed);
    } else {
      AttemptsAlike(s, After(auto, s, step));
    }
  }

  lemma AttemptsAlike(s: State, t: State)
    requires t.attempts == s.attempts
    ensures LaunchesOrCloses(s, t)
  {
  }

  lemma ShutDownAttempts(s: State)
    ensures LaunchesOrCloses(s, ShutDown(s))
  {
    hide CloseOwner;
  }

  lemma ReleasedAttempts(s: State)
    requires s.call.Closing?
    ensures LaunchesOrCloses(s, Released(s))
  {
    hide CloseOwner;
  }

  predicate LaunchesOrCloses(s: State, t: State) {
    t.attempts == s.attempts || t.attempts == CloseOwner(s).attempts || t.attempts == CloseOwner(s).attempts + [NEW_ATTEMPT]
  }

  lemma StartAttempts(s: State, launches: bool)
    ensures LaunchesOrCloses(s, StartUp(s, launches))
  {
    hide CloseOwner;
  }

  lemma RelaunchAttempts(s: State, launches: bool)
    ensures LaunchesOrCloses(s, Relaunch(s, launches))
  {
    hide CloseOwner;
  }

  lemma EndAttempts(s: State, failed: bool)
    ensures LaunchesOrCloses(s, End(s, failed))
  {
    hide CloseOwner;
  }

  lemma LookStays(auto: bool, s: State, step: Step, n: nat)
    requires Inv(auto, s) && Can(auto, s, step) && n < |s.attempts| && s.attempts[n].look.Some?
    ensures n < |After(auto, s, step).attempts| && After(auto, s, step).attempts[n].look == s.attempts[n].look
  {
    hide AttemptInv, AttemptsInv, PastInv, ChannelsInv, CallInv, After, Can, CloseOwner;
    if AttemptStep(step) {
      LookAttempt(auto, s, step, n);
    } else {
      CloseOwnerIs(s);
      OtherAttempts(auto, s, step);
    }
  }

  lemma LookAttempt(auto: bool, s: State, step: Step, n: nat)
    requires MonitorInv(auto, s) && Can(auto, s, step) && AttemptStep(step) && n < |s.attempts| && s.attempts[n].look.Some?
    ensures n < |After(auto, s, step).attempts| && After(auto, s, step).attempts[n].look == s.attempts[n].look
  {
    hide CanHappen, Happens, IsGone, StartUp, ShutDown, Relaunch, End, Report, CloseOwner, Decide;
    match step {
      case TimerFires =>
      case WaitReturns(_) =>
      case SeesUp =>
      case SeesEarlyExit =>
      case SupervisorDoes(_, _) =>
    }
  }

  lemma {:induction false} LookStaysInRuns(auto: bool, ss: seq<State>, steps: seq<Step>, a: nat, b: nat, n: nat)
    requires IsRun(auto, ss, steps) && Inv(auto, ss[0]) && a <= b <= |steps|
    requires n < |ss[a].attempts| && ss[a].attempts[n].look.Some?
    ensures n < |ss[b].attempts| && ss[b].attempts[n].look == ss[a].attempts[n].look
    decreases b
  {
    hide Inv, After, Can;
    if a < b {
      LookStaysInRuns(auto, ss, steps, a, b - 1, n);
      InvAlways(auto, ss, steps, b - 1);
      assert Can(auto, ss[b - 1], steps[b - 1]) && ss[b - 1 + 1] == After(auto, ss[b - 1], steps[b - 1]);
      LookStays(auto, ss[b - 1], steps[b - 1], n);
    }
  }

  /** The monitor looks at the first child of a lifecycle. */
  predicate FirstLook(s: State, step: Step) {
    (step.SeesUp? || step.SeesEarlyExit?) && s.attempts != [] && Count(s) == 1
  }

  lemma LookIs(auto: bool, s: State, step: Step)
    requires Inv(auto, s) && Can(auto, s, step) && FirstLook(s, step)
    ensures var t := After(auto, s, step);
      && t.first == s.first < |t.attempts|
      && t.attempts[s.first].look == Some(!Last(s).waited)
      && (!Last(s).waited ==> Last(s).atClose.Some?)
  {
    hide Inv, CanHappen, Happens, IsGone, StartUp, ShutDown, Relaunch, End, Report, CloseOwner, Decide;
    if step.SeesUp? {
      assert After(auto, s, step).attempts == s.attempts[|s.attempts| - 1 := Last(s).(look := Some(true))];
    } else {
      assert After(auto, s, step).attempts == s.attempts[|s.attempts| - 1 := Last(s).(look := Some(false))];
    }
  }

  lemma SuccessIs(auto: bool, s: State)
    requires Inv(auto, s) && s.first < |s.attempts| && s.startedSent == 1
    ensures s.reported <==> Up(s.attempts[s.first])
    ensures s.call.Awaiting? ==> s.started == Some(s.reported)
  {
    hide AttemptsInv, PastInv, MonitorInv;
  }

  /** Start returns nil exactly when Wait had not returned when the monitor looked at the first child,
      and then only after the window has closed.  So the child was alive at that moment, unless it died
      in the window and Wait was still pending at the look. */
  lemma StartNilIff(auto: bool, ss: seq<State>, steps: seq<Step>, a: nat, b: nat)
    requires IsRun(auto, ss, steps) && Inv(auto, ss[0]) && a < b < |steps|
    requires FirstLook(ss[a], steps[a]) && steps[b].StartReturns? && ss[b].first == ss[a].first
    ensures ss[b].started == Some(!Last(ss[a]).waited)
    ensures ss[b].started == Some(true) ==> Last(ss[a]).atClose.Some?
  {
    SuccessIff(auto, ss, steps, a, b);
    InvAlways(auto, ss, steps, b);
    assert Can(auto, ss[b], steps[b]);
    hide AttemptsInv, PastInv, MonitorInv, ChannelsInv, After, Can;
    assert ss[b].startedSent == 1;
    SuccessIs(auto, ss[b]);
    InvAlways(auto, ss, steps, a);
    LookIs(auto, ss[a], steps[a]);
  }

  /** A lifecycle reports success exactly when Wait had not returned at that look. */
  lemma SuccessIff(auto: bool, ss: seq<State>, steps: seq<Step>, a: nat, b: nat)
    requires IsRun(auto, ss, steps) && Inv(auto, ss[0]) && a < b <= |steps|
    requires FirstLook(ss[a], steps[a]) && ss[b].first == ss[a].first
    ensures ss[b].first < |ss[b].attempts| && (Up(ss[b].attempts[ss[b].first]) <==> !Last(ss[a]).waited)
    ensures ss[b].startedSent == 1 ==> (ss[b].reported <==> !Last(ss[a]).waited)
  {
    hide Inv, After, Can;
    InvAlways(auto, ss, steps, a);
    assert Can(auto, ss[a], steps[a]) && ss[a + 1] == After(auto, ss[a], steps[a]);
    LookIs(auto, ss[a], steps[a]);
    LookStaysInRuns(auto, ss, steps, a + 1, b, ss[a].first);
    InvAlways(auto, ss, steps, b);
    if ss[b].startedSent == 1 { SuccessIs(auto, ss[b]); }
  }

  /** A stop that finds a command closes the owner's end before it waits for anything: until then it can
      neither return nor give up. */
  lemma {:induction false} StopReleasesFirst(auto: bool, ss: seq<State>, steps: seq<Step>, a: nat, b: nat)
    requires IsRun(auto, ss, steps) && Inv(auto, ss[0]) && a < b < |steps|
    requires steps[a].StopBegins? && ss[a].isRunning && !ss[a].stopping && ss[a].cmd.Some?
    requires steps[b].StopReturns? || steps[b].StopGivesUp?
    requires forall c :: a < c < b ==> !steps[c].StopReturns? && !steps[c].StopGivesUp?
    ensures exists c :: a < c < b && steps[c].StopCloses? && AllReleased(ss[c + 1])
  {
    hide Inv, After, Can;
    if forall c :: a < c < b ==> !steps[c].StopCloses? {
      StaysClosing(auto, ss, steps, a, b);
      assert Can(auto, ss[b], steps[b]);
      ClosingWaits(auto, ss[b], steps[b]);
    } else {
      var c :| a < c < b && steps[c].StopCloses?;
      InvAlways(auto, ss, steps, c);
      assert Can(auto, ss[c], steps[c]) && ss[c + 1] == After(auto, ss[c], steps[c]);
      ClosedReleases(auto, ss[c], steps[c]);
    }
  }

  predicate AllReleased(s: State) {
    forall i :: 0 <= i < |s.attempts| ==> !s.attempts[i].sup.owned
  }

  lemma {:induction false} StaysClosing(auto: bool, ss: seq<State>, steps: seq<Step>, a: nat, b: nat)
    requires IsRun(auto, ss, steps) && a < b <= |steps|
    requires steps[a].StopBegins? && ss[a].isRunning && !ss[a].stopping && ss[a].cmd.Some?
    requires forall c :: a < c < b ==> !steps[c].StopCloses?
    ensures ss[b].call.Closing?
    decreases b
  {
    hide After, Can;
    assert Can(auto, ss[b - 1], steps[b - 1]) && ss[b - 1 + 1] == After(auto, ss[b - 1], steps[b - 1]);
    if a < b - 1 {
      StaysClosing(auto, ss, steps, a, b - 1);
      ClosingStep(auto, ss[b - 1], steps[b - 1]);
    } else {
      StopEntersClosing(auto, ss[a], steps[a]);
    }
  }

  lemma StopEntersClosing(auto: bool, s: State, step: Step)
    requires Can(auto, s, step) && step.StopBegins? && s.isRunning && !s.stopping && s.cmd.Some?
    ensures After(auto, s, step).call.Closing?
  {
  }

  lemma ClosingStep(auto: bool, s: State, step: Step)
    requires Can(auto, s, step) && s.call.Closing? && !step.StopCloses?
    ensures After(auto, s, step).call.Closing?
  {
    if AttemptStep(step) {
      AttemptStepFlags(auto, s, step);
    } else {
      MonitorStepCall(auto, s, step);
    }
    hide After, Can;
  }

  predicate MonitorStep(step: Step) {
    step.SetsReady? || step.Reports? || step.SeesExit? || step.CleansUp? || step.Decides? || step.BackoffStopped? || step.BackoffOver?
    || step.Relaunches? || step.Ends? || step.TakesReport?
  }

  lemma ClosingCan(auto: bool, s: State, step: Step)
    requires Can(auto, s, step) && s.call.Closing? && !step.StopCloses? && !AttemptStep(step)
    ensures MonitorStep(step)
  {
    hide CanHappen, IsGone;
  }

  lemma MonitorStepCall(auto: bool, s: State, step: Step)
    requires Can(auto, s, step) && s.call.Closing? && !step.StopCloses? && !AttemptStep(step)
    ensures After(auto, s, step).call == s.call
  {
    ClosingCan(auto, s, step);
    hide CanHappen, Happens, IsGone, CloseOwner, Decide, IsReady, SetAttempt, Last, End, StartUp, ShutDown, Relaunch;
    if step.Ends? {
      EndCall(s, s.monitor.failed);
    } else if step.Relaunches? {
      RelaunchCall(s, step.launches);
    }
  }

  lemma RelaunchCall(s: State, launches: bool)
    ensures Relaunch(s, launches).call == s.call
  {
    CloseOwnerLength(s);
    hide CloseOwner;
  }

  lemma EndCall(s: State, failed: bool)
    ensures End(s, failed).call == s.call
  {
    CloseOwnerLength(s);
    hide CloseOwner;
  }

  lemma ClosingWaits(auto: bool, s: State, step: Step)
    requires Can(auto, s, step) && s.call.Closing?
    ensures !step.StopReturns? && !step.StopGivesUp?
  {
  }

  lemma ClosedReleases(auto: bool, s: State, step: Step)
    requires Inv(auto, s) && Can(auto, s, step) && step.StopCloses?
    ensures AllReleased(After(auto, s, step))
  {
    CloseOwnerIs(s);
    hide CloseOwner, AttemptsInv;
  }

  // ---- windows that close on a dead child ----

  /** Wait is prompt: whenever a window closes on a child that is not alive, Wait has returned. */
  ghost predicate PromptWaits(ss: seq<State>, steps: seq<Step>)
    requires |ss| == |steps| + 1
  {
    forall i :: 0 <= i < |steps| && steps[i].TimerFires? && ss[i].attempts != [] ==>
      Last(ss[i]).sup.child.Alive? || Last(ss[i]).waited
  }

  /** A child taken to be up was alive when its window closed. */
  predicate IsHonest(a: Attempt) {
    && (a.atClose.Some? ==> a.atClose == Some(Alive) || a.waited)
    && (Up(a) ==> a.atClose == Some(Alive))
  }

  ghost predicate Honest(attempts: seq<Attempt>) {
    forall i :: 0 <= i < |attempts| ==> IsHonest(attempts[i])
  }

  lemma HonestStep(auto: bool, s: State, step: Step)
    requires Inv(auto, s) && Can(auto, s, step) && Honest(s.attempts)
    requires step.TimerFires? ==> Last(s).sup.child.Alive? || Last(s).waited
    ensures Honest(After(auto, s, step).attempts)
  {
    hide AttemptInv, AttemptsInv, PastInv, ChannelsInv, CallInv;
    if AttemptStep(step) {
      HonestAttempt(auto, s, step);
    } else {
      OtherAttempts(auto, s, step);
      CloseOwnerHonest(s);
      assert IsHonest(NEW_ATTEMPT);
      hide After, CloseOwner, IsHonest, Inv, Can;
    }
  }

  lemma HonestAttempt(auto: bool, s: State, step: Step)
    requires Can(auto, s, step) && AttemptStep(step) && Honest(s.attempts)
    requires step.TimerFires? ==> Last(s).sup.child.Alive? || Last(s).waited
    ensures Honest(After(auto, s, step).attempts)
  {
    hide CanHappen, Happens, IsGone;
    match step {
      case TimerFires => HonestAt(s.attempts, |s.attempts| - 1, Last(s).(atClose := Some(Last(s).sup.child)));
      case WaitReturns(i) => HonestAt(s.attempts, i, s.attempts[i].(waited := true, early := s.attempts[i].atClose.None?));
      case SeesEarlyExit => HonestAt(s.attempts, |s.attempts| - 1, Last(s).(look := Some(false)));
      case SeesUp => HonestAt(s.attempts, |s.attempts| - 1, Last(s).(look := Some(true)));
      case SupervisorDoes(i, e) => HonestAt(s.attempts, i, s.attempts[i].(sup := Happens(s.attempts[i].sup, e)));
    }
  }

  lemma HonestAt(attempts: seq<Attempt>, i: nat, a: Attempt)
    requires i < |attempts| && (IsHonest(attempts[i]) ==> IsHonest(a))
    ensures Honest(attempts) ==> Honest(attempts[i := a])
  {
    hide IsHonest;
  }

  lemma CloseOwnerHonest(s: State)
    requires Honest(s.attempts)
    ensures Honest(CloseOwner(s).attempts)
  {
    if s.owner.Some? && s.owner.value < |s.attempts| {
      var i := s.owner.value;
      HonestAt(s.attempts, i, s.attempts[i].(sup := s.attempts[i].sup.(owned := false)));
    }
    hide Honest;
  }

  /** If Wait is prompt, every child taken to be up was alive when its window closed; in particular
      Start then returns nil only for a child that outlived its window. */
  lemma {:induction false} PromptMeansHonest(auto: bool, ss: seq<State>, steps: seq<Step>, i: nat)
    requires IsRun(auto, ss, steps) && ss[0] == Initial() && PromptWaits(ss, steps) && i <= |steps|
    ensures Honest(ss[i].attempts)
  {
    InitialInv(auto);
    hide Inv, After, Can, Honest;
    if i == 0 {
      assert Honest([]) by { NothingHonest(); }
    } else {
      PromptMeansHonest(auto, ss, steps, i - 1);
      InvAlways(auto, ss, steps, i - 1);
      assert Can(auto, ss[i - 1], steps[i - 1]) && ss[i - 1 + 1] == After(auto, ss[i - 1], steps[i - 1]);
      if steps[i - 1].TimerFires? { TimerHasAttempt(auto, ss[i - 1], steps[i - 1]); }
      HonestStep(auto, ss[i - 1], steps[i - 1]);
    }
  }

  lemma NothingHonest()
    ensures Honest([])
  {
  }

  lemma TimerHasAttempt(auto: bool, s: State, step: Step)
    requires Can(auto, s, step) && step.TimerFires?
    ensures s.attempts != []
  {
  }

  /** And if it is not, the monitor may take the dead child to be up. */
  lemma LateWaitMisleads(auto: bool, s: State)
    requires Inv(auto, s) && Can(auto, s, TimerFires) && !Last(s).sup.child.Alive? && !Last(s).waited
    ensures var t := After(auto, s, TimerFires);
      && Can(auto, t, SeesUp)
      && (var u := After(auto, t, SeesUp); u.attempts != [] && Up(Last(u)) && Last(u).atClose != Some(Alive))
  {
    hide AttemptInv, AttemptsInv, PastInv, ChannelsInv, CallInv;
  }

  /** When stop returns nil the lifecycle has ended: no supervisor is left, no owner's end is open,
      and a supervisor that was not slain has reaped its child. */
  lemma StopNilMeansReaped(auto: bool, ss: seq<State>, steps: seq<Step>, i: nat, n: nat)
    requires IsRun(auto, ss, steps) && Inv(auto, ss[0]) && i < |steps|
    requires steps[i].StopReturns? || (steps[i].StopBegins? && !ss[i].isRunning)
    ensures !ss[i].isRunning && ss[i].lifecycleDone && ss[i].cmd.None? && !IsReady(ss[i])
    ensures n < |ss[i].attempts| ==>
      var sup := ss[i].attempts[n].sup;
      IsGone(sup) && (sup.phase.Slain? || sup.child.Unstarted? || sup.child.Reaped?)
  {
    InvAlways(auto, ss, steps, i);
    assert Can(auto, ss[i], steps[i]);
    if n < |ss[i].attempts| { assert AttemptInv(ss[i].attempts[n]); }
  }

  /** IsRunning means that the current child was taken to be up after its window, and that nobody has
      asked to stop. */
  lemma ReadyMeansUp(auto: bool, ss: seq<State>, steps: seq<Step>, i: nat)
    requires IsRun(auto, ss, steps) && Inv(auto, ss[0]) && i <= |steps| && IsReady(ss[i])
    ensures ss[i].attempts != [] && !ss[i].stopClosed && Up(Last(ss[i])) && Last(ss[i]).atClose.Some? && !Last(ss[i]).early
  {
    InvAlways(auto, ss, steps, i);
    assert AttemptInv(Last(ss[i]));
  }

  /** started gets exactly one value per lifecycle and done at most one, after a reported success; no
      send ever blocks, and the stop channel is never closed twice. */
  lemma ChannelsAreUsedOnce(auto: bool, ss: seq<State>, steps: seq<Step>, i: nat)
    requires IsRun(auto, ss, steps) && Inv(auto, ss[0]) && i < |steps|
    ensures var s, t := ss[i], ss[i + 1];
      && (steps[i].Ends? ==> t.startedSent == 1 && t.doneSent <= 1 && (t.doneSent == 1 ==> s.reported))
      && (t.startedSent > s.startedSent ==> s.startedSent == 0 && s.started.None?)
      && (t.doneSent > s.doneSent ==> s.done == 0)
      && (steps[i].StopBegins? && s.isRunning && !s.stopping ==> !s.stopClosed)
  {
    hide After, Can, AttemptsInv, PastInv, MonitorInv;
    InvAlways(auto, ss, steps, i);
    assert Can(auto, ss[i], steps[i]) && ss[i + 1] == After(auto, ss[i], steps[i]);
    StepKeeps(auto, ss[i], steps[i]);
    SendsFind(auto, ss[i], steps[i]);
    if ss[i].isRunning && !ss[i].reported { assert ss[i].call.Awaiting?; }
  }

  lemma SendsFind(auto: bool, s: State, step: Step)
    requires Inv(auto, s) && Can(auto, s, step)
    ensures Sends(s, After(auto, s, step))
    ensures step.Ends? ==> var t := After(auto, s, step); !t.isRunning && t.first < |t.attempts| && t.reported == s.reported
  {
    InvFacts(auto, s);
    hide Inv;
    if step.Ends? {
      EndSends(s, s.monitor.failed);
      hide End, Sends;
    } else if AttemptStep(step) {
      hide After;
      AttemptStepsLaunchNothing(auto, s, step);
    } else {
      hide After;
      OtherSends(auto, s, step);
    }
  }

  lemma OtherSends(auto: bool, s: State, step: Step)
    requires Can(auto, s, step) && !AttemptStep(step) && !step.Ends? && (step.Reports? ==> s.isRunning)
    ensures Sends(s, After(auto, s, step))
  {
    hide CloseOwner, CanHappen, Happens, Decide, IsGone, IsReady, StartUp, ShutDown, Relaunch, Report, SetAttempt, Last, Sends;
    if step.StartBegins? {
      StartSends(s, step.launches);
    } else if step.Relaunches? {
      RelaunchSends(s, step.launches);
    } else if step.StopBegins? {
      ShutDownSends(s);
    } else if step.StopCloses? {
      ReleasedSends(s);
    } else if step.Reports? {
      ReportSends(s);
    } else {
      SendsAlike(s, After(auto, s, step));
    }
  }

  /** Only a first report of a running lifecycle, or its end, sends anything. */
  predicate Sends(s: State, t: State) {
    (t.startedSent > s.startedSent ==> !s.reported && s.isRunning) && (t.doneSent > s.doneSent ==> s.isRunning)
  }

  lemma SendsAlike(s: State, t: State)
    requires t.startedSent <= s.startedSent && t.doneSent <= s.doneSent
    ensures Sends(s, t)
  {
  }

  lemma ShutDownSends(s: State)
    ensures Sends(s, ShutDown(s))
  {
  }

  lemma ReleasedSends(s: State)
    requires s.call.Closing?
    ensures Sends(s, Released(s))
  {
    CloseOwnerLength(s);
    hide CloseOwner;
  }

  lemma ReportSends(s: State)
    requires s.isRunning
    ensures Sends(s, Report(s))
  {
  }

  lemma EndSends(s: State, failed: bool)
    requires s.isRunning && s.first < |s.attempts|
    ensures var t := End(s, failed); Sends(s, t) && !t.isRunning && t.first < |t.attempts| && t.reported == s.reported
  {
    EndLength(s, failed);
    hide End;
  }

  lemma StartSends(s: State, launches: bool)
    ensures Sends(s, StartUp(s, launches))
  {
    CloseOwnerLength(s);
    hide CloseOwner;
  }

  lemma RelaunchSends(s: State, launches: bool)
    ensures Sends(s, Relaunch(s, launches))
  {
    CloseOwnerLength(s);
    hide CloseOwner;
  }

  // ---- an intentional stop and the report of a crash ----

  /** A stopped lifecycle publishes a terminal error exactly when the monitor had already decided to
      fail before the stop came. */
  lemma StopPublishesIff(auto: bool, ss: seq<State>, steps: seq<Step>, a: nat, b: nat)
    requires IsRun(auto, ss, steps) && Inv(auto, ss[0]) && a < b <= |steps|
    requires steps[a].StopBegins? && ss[a].isRunning && !ss[a].stopping
    requires ss[b].first == ss[a].first && !ss[b].isRunning
    ensures ss[b].doneSent == 1 <==> ss[a].monitor == Ending(true)
  {
    hide Inv, After, Can;
    assert Can(auto, ss[a], steps[a]) && ss[a + 1] == After(auto, ss[a], steps[a]);
    StopSetsLate(auto, ss[a], steps[a]);
    LateStays(auto, ss, steps, a + 1, b);
    InvAlways(auto, ss, steps, b);
    LateDecides(auto, ss[b]);
  }

  lemma LateDecides(auto: bool, s: State)
    requires Inv(auto, s) && s.stopClosed && !s.isRunning
    ensures s.doneSent == 1 <==> s.late
  {
    hide AttemptsInv, PastInv;
  }

  lemma StopSetsLate(auto: bool, s: State, step: Step)
    requires Can(auto, s, step) && step.StopBegins? && s.isRunning && !s.stopping
    ensures var t := After(auto, s, step);
            t.stopClosed && t.first == s.first && t.late == (s.monitor == Ending(true))
  {
  }

  lemma LateStep(auto: bool, s: State, step: Step)
    requires Inv(auto, s) && Can(auto, s, step) && s.stopClosed && After(auto, s, step).first == s.first
    ensures After(auto, s, step).late == s.late && After(auto, s, step).stopClosed
  {
    hide AttemptInv, AttemptsInv, CloseOwner, CanHappen, Happens, End, Decide, IsGone, IsReady, StartUp, Relaunch;
    if AttemptStep(step) {
      hide After;
      AttemptStepsLaunchNothing(auto, s, step);
    } else if step.StartBegins? {
      StartLate(s, step.launches);
    } else if step.Relaunches? {
      RelaunchLate(s, step.launches);
    } else if step.StopCloses? {
      CloseOwnerLength(s);
    } else if step.Ends? {
      EndLength(s, s.monitor.failed);
    }
  }

  lemma StartLate(s: State, launches: bool)
    requires s.first < |s.attempts| && StartUp(s, launches).first == s.first
    ensures StartUp(s, launches).late == s.late && StartUp(s, launches).stopClosed == s.stopClosed
  {
    CloseOwnerLength(s);
    hide CloseOwner;
  }

  lemma RelaunchLate(s: State, launches: bool)
    ensures Relaunch(s, launches).late == s.late && Relaunch(s, launches).stopClosed == s.stopClosed
  {
    CloseOwnerLength(s);
    hide CloseOwner;
  }

  lemma {:induction false} LateStays(auto: bool, ss: seq<State>, steps: seq<Step>, a: nat, b: nat)
    requires IsRun(auto, ss, steps) && Inv(auto, ss[0]) && a <= b <= |steps|
    requires ss[a].stopClosed && ss[b].first == ss[a].first
    ensures ss[b].stopClosed && ss[b].late == ss[a].late
    decreases b
  {
    hide Inv, After, Can;
    if a < b {
      FirstGrows(auto, ss, steps, a, b - 1);
      InvAlways(auto, ss, steps, b - 1);
      assert Can(auto, ss[b - 1], steps[b - 1]) && ss[b - 1 + 1] == After(auto, ss[b - 1], steps[b - 1]);
      LaunchSteps(auto, ss[b - 1], steps[b - 1]);
      LateStays(auto, ss, steps, a, b - 1);
      LateStep(auto, ss[b - 1], steps[b - 1]);
    }
  }

  /** A call that stops a core whose crash the monitor is about to report returns nil, and the report
      is in the buffer. */
  lemma CrashIsPublished(auto: bool, s: State)
    requires Inv(auto, s) && s.monitor == Ending(true) && s.call.Idle? && !s.stopping
    ensures Can(auto, s, StopBegins)
    ensures var t := After(auto, s, StopBegins);
      && (t.call.Closing? || t.call.Joining?) && (t.call.Closing? ==> Can(auto, t, StopCloses))
      && (var u := if t.call.Closing? then After(auto, t, StopCloses) else t;
          && Can(auto, u, Ends)
          && (var v := After(auto, u, Ends); Can(auto, v, StopReturns) && v.done == 1 && v.doneSent == 1))
  {
    hide AttemptsInv, PastInv, CloseOwner, Published, End;
    var t := After(auto, s, StopBegins);
    CloseOwnerLength(t);
    ReportsCrash(t);
    if t.call.Closing? { ReportsCrash(Released(t)); }
  }

  lemma ReportsCrash(s: State)
    requires s.reported && s.done == 0 && s.doneSent == 0
    ensures var v := End(s, true);
            v.done == 1 && v.doneSent == 1 && v.lifecycleDone && v.call == s.call
  {
    CloseOwnerLength(s);
    hide CloseOwner;
  }
}
