/** The process manager as it is programmed: one method for each section under its mutex. */
module ProcessManager {
  import opened Text
  import opened Supervision
  import L = Lifecycle
  import R = LifecycleRetries

  type Attempt = L.Attempt

  /** The channels of the current lifecycle, what the monitor has sent, and whether it has reported a
      successful start. */
  datatype Channels = Channels(
    stopClosed: bool, lifecycleDone: bool, done: nat, doneSent: nat,
    started: Option<bool>, startedSent: nat, reported: bool, late: bool)

  class Manager {
    const autoRestart: bool

    var isRunning: bool
    var ready: bool
    var stopping: bool
    var cmd: Option<nat>
    var owner: Option<nat>
    var channels: Channels
    var attempts: seq<Attempt>
    var first: nat
    var monitor: L.Monitor
    var call: L.Call

    ghost function View(): L.State
      reads this
    {
      L.State(isRunning, ready, stopping, cmd, owner, channels.stopClosed, channels.lifecycleDone,
              channels.done, channels.doneSent, channels.started, channels.startedSent,
              channels.reported, monitor, first, attempts, channels.late, call)
    }

    ghost predicate Valid()
      reads this
    {
      L.Inv(autoRestart, View())
    }

    constructor (autoRestart: bool)
      ensures Valid() && View() == L.Initial() && this.autoRestart == autoRestart
    {
      this.autoRestart := autoRestart;
      isRunning, ready, stopping, cmd, owner := false, false, false, None, None;
      channels := Channels(false, true, 0, 0, None, 0, false, false);
      attempts, first, monitor, call := [], 0, L.Absent, L.Idle;
      new;
      L.InitialInv(autoRestart);
    }

    /** platformProcess.close. */
    method CloseOwner()
      requires owner.Some? ==> owner.value < |attempts|
      modifies this`owner, this`attempts
      ensures View() == L.CloseOwner(old(View()))
    {
      if owner.Some? {
        var i := owner.value;
        attempts := attempts[i := attempts[i].(sup := attempts[i].sup.(owned := false))];
        owner := None;
      }
    }

    /** startCommand, when the supervisor comes up. */
    method StartCommand()
      modifies this`owner, this`attempts, this`cmd
      ensures View() == L.Launch(old(View()))
    {
      var i := |attempts|;
      attempts := attempts + [L.Attempt(Launched(), None, false, false, None)];
      owner := Some(i);
      cmd := Some(i);
    }

    method CloseStopChan(late: bool)
      requires !channels.stopClosed
      modifies this`channels
      ensures channels == old(channels).(stopClosed := true, late := late)
    {
      channels := channels.(stopClosed := true, late := late);
    }

    /** A channel of capacity one; a send to a full one would block the mutex for good. */
    method SendDone()
      requires channels.done == 0
      modifies this`channels
      ensures channels == old(channels).(done := 1, doneSent := old(channels).doneSent + 1)
    {
      channels := channels.(done := channels.done + 1, doneSent := channels.doneSent + 1);
    }

    method SendStarted(isNil: bool)
      requires channels.started.None?
      modifies this`channels
      ensures channels == old(channels).(started := Some(isNil), startedSent := old(channels).startedSent + 1)
    {
      channels := channels.(started := Some(isNil), startedSent := channels.startedSent + 1);
    }

    /** start, up to waiting for the report of the monitor. */
    method Start(launches: bool) returns (waits: bool)
      requires Valid() && (call.Idle? || call.Between?)
      modifies this
      ensures Valid() && View() == L.StartUp(old(View()), launches)
      ensures waits == (launches && !old(isRunning))
      // a new lifecycle has an open stop channel and no stale report, and holds the only open owner's end
      ensures waits ==> !channels.stopClosed && channels.done == 0 && |attempts| == |old(attempts)| + 1
      ensures waits ==> forall i :: 0 <= i < |old(attempts)| ==> !attempts[i].sup.owned
    {
      ghost var before := View();
      L.StartKeeps(autoRestart, before, launches);
      if !isRunning { L.StartUpIs(autoRestart, before); }
      assert owner.Some? ==> owner.value < |attempts|;
      hide L.Inv;
      if isRunning {
        call := L.Idle;
        return false;
      }
      hide L.CloseOwner, L.Begun;
      Open(launches);
      return launches;
    }

    /** The section once no lifecycle is running. */
    method Open(launches: bool)
      requires owner.Some? ==> owner.value < |attempts|
      modifies this
      ensures View() == if launches then L.Begun(L.CloseOwner(old(View())), |old(attempts)|) else L.CloseOwner(old(View())).(call := L.Idle)
    {
      L.CloseOwnerLength(View());
      hide L.CloseOwner, L.Begun;
      CloseOwner();
      if launches {
        Begin(|attempts|);
      } else {
        call := L.Idle;
      }
    }

    method Begin(n: nat)
      modifies this
      ensures View() == L.Begun(old(View()), n)
    {
      StartCommand();
      EnterLifecycle(n);
    }

    method EnterLifecycle(n: nat)
      modifies this`isRunning, this`stopping, this`channels, this`monitor, this`first, this`call
      ensures View() == old(View()).(
        isRunning := true, stopping := false, stopClosed := false, lifecycleDone := false,
        done := 0, doneSent := 0, started := None, startedSent := 0, reported := false, late := false,
        monitor := L.Window, first := n, call := L.Awaiting)
    {
      channels := Channels(false, false, 0, 0, None, 0, false, false);
      isRunning, stopping := true, false;
      monitor, first, call := L.Window, n, L.Awaiting;
    }

    /** stop, up to waiting for the end of the lifecycle; nil when there is nothing to stop. */
    method Stop() returns (waits: bool)
      requires Valid() && (call.Idle? || call.Checked?)
      modifies this
      ensures Valid() && View() == L.ShutDown(old(View()))
      ensures waits == old(isRunning)
      ensures waits ==> channels.stopClosed
      ensures attempts == old(attempts) && channels.done == old(channels).done
    {
      L.ShutDownKeeps(autoRestart, View());
      assert isRunning ==> stopping == channels.stopClosed;
      hide L.Inv;
      var again := call.Checked?;
      if !isRunning {
        call := if again then L.Between else L.Idle;
        return false;
      }
      if stopping {
        call := L.Joining(again);
        return true;
      }
      stopping := true;
      CloseStopChan(monitor == L.Ending(true));
      call := if cmd.None? then L.Joining(again) else L.Closing(again);
      return true;
    }

    /** platformProcess.stop, up to waiting. */
    method StopProcess()
      requires Valid() && call.Closing?
      modifies this
      ensures Valid() && View() == L.Released(old(View()))
      ensures forall i :: 0 <= i < |attempts| ==> !attempts[i].sup.owned
    {
      L.CloseOwnerIs(View());
      L.StopClosesKeeps(autoRestart, View());
      assert owner.Some? ==> owner.value < |attempts|;
      hide L.Inv, L.CloseOwner;
      ghost var before := View();
      CloseOwner();
      L.CloseOwnerLength(before);
      call := L.Joining(call.again);
    }

    /** monitor: the child is up. */
    method Ready()
      requires Valid() && monitor.FoundUp?
      modifies this
      ensures Valid() && View() == L.Readied(old(View()))
      ensures attempts != [] && L.Up(attempts[|attempts| - 1]) && (isRunning && !stopping ==> IsReady())
    {
      L.MonitorSectionKeeps(autoRestart, View());
      L.InvFacts(autoRestart, View());
      hide L.Inv;
      ready := true;
      monitor := L.Reporting;
    }

    /** monitor: the first success is reported to start. */
    method Report()
      requires Valid() && monitor.Reporting?
      modifies this
      ensures Valid() && View() == L.Report(old(View()))
      ensures channels.reported && (old(channels).reported ==> channels == old(channels))
    {
      L.ReportKeeps(autoRestart, View());
      assert !channels.reported ==> channels.started.None?;
      hide L.Inv;
      if !channels.reported {
        SendStarted(true);
        channels := channels.(reported := true);
      }
      monitor := L.Watching;
    }

    /** monitor: after the child's exit. */
    method CleanUp()
      requires Valid() && monitor.Exiting?
      modifies this
      ensures Valid() && View() == L.CleanedUp(old(View()))
      ensures !IsReady() && cmd.None?
    {
      L.MonitorSectionKeeps(autoRestart, View());
      hide L.Inv;
      ready := false;
      cmd := None;
      monitor := L.Deciding(monitor.early);
    }

    /** monitor: give up, fail, or try again. */
    method Decide()
      requires Valid() && monitor.Deciding?
      modifies this
      ensures Valid() && View() == L.Decided(autoRestart, old(View()))
      ensures attempts != [] && attempts == old(attempts) && channels == old(channels)
      ensures monitor == L.Ending(false) <==> channels.stopClosed
      ensures monitor == L.Backoff <==>
        !channels.stopClosed && autoRestart && attempts[|attempts| - 1].look == Some(true) && |attempts| - first < 3
      ensures monitor == L.Ending(true) <==>
        !channels.stopClosed && (!autoRestart || attempts[|attempts| - 1].look == Some(false) || |attempts| - first == 3)
    {
      R.DecisionIff(autoRestart, View());
      L.MonitorSectionKeeps(autoRestart, View());
      hide L.Inv;
      var early := monitor.early;
      if channels.stopClosed {
        monitor := L.Ending(false);
      } else if early || !autoRestart {
        monitor := L.Ending(true);
      } else if |attempts| - first >= L.MAX_ATTEMPTS {
        monitor := L.Ending(true);
      } else {
        monitor := L.Backoff;
      }
    }

    /** monitor: the next attempt, unless somebody has asked to stop. */
    method Relaunch(launches: bool)
      requires Valid() && monitor.Relaunching?
      modifies this
      ensures Valid() && View() == L.Relaunch(old(View()), launches)
      ensures |attempts| == |old(attempts)| + if launches && !channels.stopClosed then 1 else 0
      ensures monitor == if channels.stopClosed then L.Ending(false) else if launches then L.Window else L.Ending(true)
    {
      L.RelaunchKeeps(autoRestart, View(), launches);
      assert owner.Some? ==> owner.value < |attempts|;
      hide L.Inv, L.CloseOwner;
      if channels.stopClosed {
        monitor := L.Ending(false);
        return;
      }
      ghost var before := View();
      CloseOwner();
      L.CloseOwnerLength(before);
      if !launches {
        monitor := L.Ending(true);
        return;
      }
      StartCommand();
      monitor := L.Window;
    }

    /** monitor: the end of the lifecycle. */
    method End()
      requires Valid() && monitor.Ending?
      modifies this
      ensures Valid() && View() == L.End(old(View()), old(monitor).failed)
      ensures !isRunning && channels.lifecycleDone && channels.startedSent == 1 && channels.doneSent <= 1
      ensures channels.doneSent == 1 ==> channels.reported
    {
      L.InvFacts(autoRestart, View());
      L.EndKeeps(autoRestart, View());
      assert owner.Some? ==> owner.value < |attempts|;
      assert channels.done == 0 && (!channels.reported ==> channels.started.None?);
      L.EndIs(autoRestart, View());
      hide L.Inv, L.End;
      Close(monitor.failed);
    }

    /** The section itself. */
    method Close(failed: bool)
      requires owner.Some? ==> owner.value < |attempts|
      requires channels.done == 0 && (!channels.reported ==> channels.started.None?)
      modifies this
      ensures View() == L.End(old(View()), failed)
    {
      hide L.Published, L.Flagless;
      ClearFlags();
      PublishEnd(failed);
      LeaveLifecycle();
    }

    method ClearFlags()
      requires owner.Some? ==> owner.value < |attempts|
      modifies this
      ensures View() == L.Flagless(old(View()))
      ensures channels == old(channels)
    {
      CloseOwner();
      isRunning, stopping, cmd := false, false, None;
    }

    /** The one value start waits for, or the report of a core that had come up. */
    method PublishEnd(failed: bool)
      requires channels.done == 0 && (!channels.reported ==> channels.started.None?)
      modifies this`channels
      ensures View() == L.Published(old(View()), failed)
    {
      if !channels.reported {
        SendStarted(!failed);
      } else if failed {
        SendDone();
      }
    }

    method LeaveLifecycle()
      modifies this`channels, this`monitor
      ensures View() == old(View()).(lifecycleDone := true, monitor := L.Absent)
    {
      channels := channels.(lifecycleDone := true);
      monitor := L.Absent;
    }

    /** IsRunning. */
    predicate IsReady()
      reads this
    {
      isRunning && ready && !stopping
    }
  }
}
