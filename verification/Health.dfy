/**
  Health checking: rounds that may be asked for by anybody, a scheduler that asks for them
  periodically, and a Stop that waits for all of them.  Start and Stop are serialized by the caller.
 */
module Health {
  import opened Text

  /** A round that has been counted: waiting for the round lock, holding it, probing, or in the recovery
      callback. */
  datatype Round = Waiting | Locked | Probing | Calling

  datatype Scheduler = Entering | Inside(round: nat) | Sleeping

  /** What a judgement, or a reset, says about the counter of consecutive failures. */
  datatype Entry = Down | Up | Started | Fired

  datatype State = State(
    isRunning: bool, stopped: bool, stopChan: nat, closed: set<nat>,
    group: nat,                           // the wait group's counter
    holder: Option<nat>,                  // the round that holds the round lock
    allDown: nat,
    rounds: map<nat, Round>, schedulers: map<nat, Scheduler>,
    joining: bool,                        // a Stop waits for the group
    next: nat, history: seq<Entry>)

  datatype Step =
    | Start(enabled: bool) | StopBegins | StopReturns
    | Calls(ready: bool)                                    // somebody calls CheckAll
    | SchedulerCalls(id: nat, ready: bool) | SchedulerReturns(id: nat) | Wakes(id: nat) | Quits(id: nat)
    | Locks(id: nat) | Rechecks(id: nat)
    | Judges(id: nat, total: nat, ok: nat, callback: bool)
    | CallbackReturns(id: nat)

  /** NewHealthChecker. */
  function Initial(): State {
    State(false, false, 0, {}, 0, None, 0, map[], map[], false, 1, [])
  }

  predicate Can(s: State, step: Step) {
    match step
    case Start(_) => !s.joining
    case StopBegins => !s.joining
    case StopReturns => s.joining && s.group == 0
    case Calls(_) => true
    case SchedulerCalls(g, _) => g in s.schedulers && s.schedulers[g].Entering?
    case SchedulerReturns(g) => g in s.schedulers && s.schedulers[g].Inside? && s.schedulers[g].round !in s.rounds
    case Wakes(g) => g in s.schedulers && s.schedulers[g].Sleeping?
    case Quits(g) => g in s.schedulers && s.schedulers[g].Sleeping? && s.stopChan in s.closed
    case Locks(r) => r in s.rounds && s.rounds[r].Waiting? && s.holder.None?
    case Rechecks(r) => r in s.rounds && s.rounds[r].Locked?
    case Judges(r, _, _, _) => r in s.rounds && s.rounds[r].Probing?
    case CallbackReturns(r) => r in s.rounds && s.rounds[r].Calling?
  }

  function Begin(s: State): State {
    s.(isRunning := true, stopped := false, allDown := 0, stopChan := s.next, group := s.group + 1,
       schedulers := s.schedulers[s.next := Entering], next := s.next + 1, history := s.history + [Started])
  }

  function Halt(s: State): State {
    if s.stopped then s.(isRunning := false, joining := true)
    else s.(isRunning := false, joining := true, stopped := true, closed := s.closed + {s.stopChan})
  }

  /** The first section of CheckAll. */
  function Entered(s: State, ready: bool): State {
    if s.stopped || !ready then s
    else s.(group := s.group + 1, rounds := s.rounds[s.next := Waiting], next := s.next + 1)
  }

  /** The deferred calls of CheckAll. */
  function Left(s: State, r: nat): State {
    s.(rounds := s.rounds - {r}, holder := None, group := if s.group > 0 then s.group - 1 else 0)
  }

  /** The last section of CheckAll. */
  function Judged(s: State, r: nat, total: nat, ok: nat, callback: bool): State {
    if s.stopped then Left(s, r)
    else if total == 0 || ok > 0 then Left(s.(allDown := 0, history := s.history + [Up]), r)
    else if s.allDown + 1 < 3 || !callback then Left(s.(allDown := s.allDown + 1, history := s.history + [Down]), r)
    else s.(allDown := 0, history := s.history + [Down, Fired], rounds := s.rounds[r := Calling])
  }

  function After(s: State, step: Step): State
    requires Can(s, step)
  {
    match step
    case Start(enabled) => if s.isRunning || !enabled then s else Begin(s)
    case StopBegins => Halt(s)
    case StopReturns => s.(joining := false)
    case Calls(ready) => Entered(s, ready)
    case SchedulerCalls(g, ready) =>
      var t := Entered(s, ready);
      t.(schedulers := s.schedulers[g := if s.stopped || !ready then Sleeping else Inside(s.next)])
    case SchedulerReturns(g) => s.(schedulers := s.schedulers[g := Sleeping])
    case Wakes(g) => s.(schedulers := s.schedulers[g := Entering])
    case Quits(g) => s.(schedulers := s.schedulers - {g}, group := if s.group > 0 then s.group - 1 else 0)
    case Locks(r) => s.(holder := Some(r), rounds := s.rounds[r := Locked])
    case Rechecks(r) => if s.stopped then Left(s, r) else s.(rounds := s.rounds[r := Probing])
    case Judges(r, total, ok, callback) => Judged(s, r, total, ok, callback)
    case CallbackReturns(r) => Left(s, r)
  }

  // ---- the invariant ----

  /** Consecutive failures since the last reset. */
  function Trailing(history: seq<Entry>): nat {
    if history == [] || !history[|history| - 1].Down? then 0 else Trailing(history[..|history| - 1]) + 1
  }

  ghost predicate IsCounted(group: nat, rounds: map<nat, Round>, schedulers: map<nat, Scheduler>) {
    group == |rounds| + |schedulers|
  }

  /** Every round but the waiting ones holds the round lock. */
  ghost predicate IsHeld(rounds: map<nat, Round>, holder: Option<nat>) {
    && (forall r :: r in rounds ==> (!rounds[r].Waiting? <==> holder == Some(r)))
    && (holder.Some? ==> holder.value in rounds)
  }

  ghost predicate AreOld(rounds: map<nat, Round>, schedulers: map<nat, Scheduler>, closed: set<nat>, next: nat) {
    forall i :: i in rounds || i in schedulers || i in closed ==> i < next
  }

  ghost predicate Inv(s: State) {
    && IsCounted(s.group, s.rounds, s.schedulers)
    && IsHeld(s.rounds, s.holder)
    && AreOld(s.rounds, s.schedulers, s.closed, s.next)
    && s.stopChan < s.next
    && (s.stopped <==> s.stopChan in s.closed)
    && (s.stopped ==> !s.isRunning)
    && (s.joining ==> s.stopped)
    && s.allDown == Trailing(s.history)
  }

  lemma TrailingStep(history: seq<Entry>, e: Entry)
    ensures Trailing(history + [e]) == if e.Down? then Trailing(history) + 1 else 0
  {
    assert (history + [e])[..|history|] == history;
  }

  lemma MapSizes<V>(m: map<nat, V>, k: nat, v: V)
    ensures |m[k := v]| == if k in m then |m| else |m| + 1
    ensures |m - {k}| == if k in m then |m| - 1 else |m|
  {
    assert m[k := v].Keys == m.Keys + {k} && (m - {k}).Keys == m.Keys - {k};
  }

  lemma InitialInv()
    ensures Inv(Initial())
  {
  }

  lemma LeaveKeeps(s: State, r: nat)
    requires Inv(s) && s.holder == Some(r)
    ensures Inv(Left(s, r))
  {
    MapSizes(s.rounds, r, Waiting);
  }

  lemma RoundIsNew(rounds: map<nat, Round>, schedulers: map<nat, Scheduler>, closed: set<nat>, next: nat, holder: Option<nat>)
    requires AreOld(rounds, schedulers, closed, next) && IsHeld(rounds, holder)
    ensures next !in rounds && holder != Some(next)
    ensures AreOld(rounds[next := Waiting], schedulers, closed, next + 1)
  {
  }

  lemma RoundWaits(rounds: map<nat, Round>, holder: Option<nat>, r: nat)
    requires IsHeld(rounds, holder) && r !in rounds && holder != Some(r)
    ensures IsHeld(rounds[r := Waiting], holder)
  {
  }

  lemma EnterKeeps(s: State, ready: bool)
    requires Inv(s)
    ensures Inv(Entered(s, ready))
  {
    hide Trailing, IsHeld, AreOld;
    MapSizes(s.rounds, s.next, Waiting);
    RoundIsNew(s.rounds, s.schedulers, s.closed, s.next, s.holder);
    RoundWaits(s.rounds, s.holder, s.next);
  }

  lemma JudgeKeeps(s: State, r: nat, total: nat, ok: nat, callback: bool)
    requires Inv(s) && r in s.rounds && s.rounds[r].Probing?
    ensures Inv(Judged(s, r, total, ok, callback))
  {
    TrailingStep(s.history, Up);
    TrailingStep(s.history, Down);
    TrailingStep(s.history + [Down], Fired);
    assert s.history + [Down] + [Fired] == s.history + [Down, Fired];
    MapSizes(s.rounds, r, Calling);
    hide Left, Trailing;
    if s.stopped {
      LeaveKeeps(s, r);
    } else if total == 0 || ok > 0 {
      LeaveKeeps(s.(allDown := 0, history := s.history + [Up]), r);
    } else if s.allDown + 1 < 3 || !callback {
      LeaveKeeps(s.(allDown := s.allDown + 1, history := s.history + [Down]), r);
    }
  }

  lemma SchedulerKeeps(s: State, step: Step)
    requires Inv(s) && Can(s, step)
    requires step.SchedulerCalls? || step.SchedulerReturns? || step.Wakes? || step.Quits?
    ensures Inv(After(s, step))
  {
    MapSizes(s.schedulers, step.id, Sleeping);
    MapSizes(s.schedulers, step.id, Entering);
    if step.SchedulerCalls? {
      EnterKeeps(s, step.ready);
      SchedulerMoves(Entered(s, step.ready), step.id, if s.stopped || !step.ready then Sleeping else Inside(s.next));
      hide Inv;
    } else {
      hide Trailing, IsHeld;
    }
  }

  lemma SchedulerMoves(s: State, g: nat, to: Scheduler)
    requires Inv(s) && g in s.schedulers
    ensures Inv(s.(schedulers := s.schedulers[g := to]))
  {
    MapSizes(s.schedulers, g, to);
    hide Trailing, IsHeld;
  }

  lemma StepKeeps(s: State, step: Step)
    requires Inv(s) && Can(s, step)
    ensures Inv(After(s, step))
  {
    match step {
      case Start(enabled) => BeginKeeps(s);
      case StopBegins =>
      case StopReturns =>
      case Calls(ready) => EnterKeeps(s, ready);
      case Locks(r) => MapSizes(s.rounds, r, Locked);
      case Rechecks(r) =>
        MapSizes(s.rounds, r, Probing);
        LeaveKeeps(s, r);
      case Judges(r, total, ok, callback) => JudgeKeeps(s, r, total, ok, callback);
      case CallbackReturns(r) => LeaveKeeps(s, r);
      case _ => SchedulerKeeps(s, step);
    }
  }

  lemma BeginKeeps(s: State)
    requires Inv(s)
    ensures !s.joining ==> Inv(Begin(s))
  {
    TrailingStep(s.history, Started);
    MapSizes(s.schedulers, s.next, Entering);
    hide Trailing;
  }

  // ---- runs ----

  ghost predicate IsRun(ss: seq<State>, steps: seq<Step>) {
    && |ss| == |steps| + 1
    && forall i :: 0 <= i < |steps| ==> Can(ss[i], steps[i]) && ss[i + 1] == After(ss[i], steps[i])
  }

  lemma {:induction false} InvAlways(ss: seq<State>, steps: seq<Step>, i: nat)
    requires IsRun(ss, steps) && Inv(ss[0]) && i <= |steps|
    ensures Inv(ss[i])
  {
    hide Inv, After, Can;
    if i > 0 {
      InvAlways(ss, steps, i - 1);
      assert Can(ss[i - 1], steps[i - 1]) && ss[i - 1 + 1] == After(ss[i - 1], steps[i - 1]);
      StepKeeps(ss[i - 1], steps[i - 1]);
    }
  }

  predicate Joined(s: State) {
    s.stopped && s.rounds == map[] && s.schedulers == map[]
  }

  lemma StopJoins(s: State)
    requires Inv(s) && Can(s, StopReturns)
    ensures Joined(s)
  {
  }

  lemma JoinedStays(s: State, step: Step)
    requires Joined(s) && Can(s, step) && !step.Start?
    ensures Joined(After(s, step))
  {
  }

  /** Once Stop has returned no round, scheduler or recovery callback is running, and none begins until
      the next Start. */
  lemma {:induction false} StopJoinsEverything(ss: seq<State>, steps: seq<Step>, a: nat, b: nat)
    requires IsRun(ss, steps) && Inv(ss[0]) && a < b <= |steps| && steps[a].StopReturns?
    requires forall i :: a < i < b ==> !steps[i].Start?
    ensures ss[b].rounds == map[] && ss[b].schedulers == map[] && ss[b].stopped
    decreases b
  {
    hide Inv, After, Can;
    assert Can(ss[b - 1], steps[b - 1]) && ss[b - 1 + 1] == After(ss[b - 1], steps[b - 1]);
    if a + 1 == b {
      InvAlways(ss, steps, a);
      StopJoins(ss[a]);
    } else {
      StopJoinsEverything(ss, steps, a, b - 1);
    }
    JoinedStays(ss[b - 1], steps[b - 1]);
  }

  predicate AtWork(s: State, r: nat) { r in s.rounds && (s.rounds[r].Probing? || s.rounds[r].Calling?) }

  lemma StoppedStep(s: State, step: Step, r: nat)
    requires Can(s, step) && s.stopped && !step.Start?
    ensures After(s, step).stopped
    ensures AtWork(After(s, step), r) ==> AtWork(s, r)
    ensures r in After(s, step).rounds && After(s, step).rounds[r].Calling? ==> r in s.rounds && s.rounds[r].Calling?
  {
  }

  /** Once Stop has been asked for no round begins to probe and no callback begins until the next Start:
      rounds that were queued go home. */
  lemma {:induction false} StopEndsQueue(ss: seq<State>, steps: seq<Step>, a: nat, b: nat, r: nat)
    requires IsRun(ss, steps) && a <= b <= |steps| && ss[a].stopped && AtWork(ss[b], r)
    requires forall i :: a <= i < b ==> !steps[i].Start?
    ensures AtWork(ss[a], r) && r in ss[a].rounds && r in ss[b].rounds
    ensures ss[b].rounds[r].Calling? ==> ss[a].rounds[r].Calling?
    decreases b
  {
    hide After, Can, AtWork;
    StoppedUntil(ss, steps, a, b);
    if a < b {
      StoppedUntil(ss, steps, a, b - 1);
      assert Can(ss[b - 1], steps[b - 1]) && ss[b - 1 + 1] == After(ss[b - 1], steps[b - 1]);
      StoppedStep(ss[b - 1], steps[b - 1], r);
      StopEndsQueue(ss, steps, a, b - 1, r);
    }
    WorksInRounds(ss[a], ss[b], r);
  }

  lemma WorksInRounds(s: State, t: State, r: nat)
    requires AtWork(s, r) && AtWork(t, r)
    ensures r in s.rounds && r in t.rounds
  {
  }

  lemma {:induction false} StoppedUntil(ss: seq<State>, steps: seq<Step>, a: nat, b: nat)
    requires IsRun(ss, steps) && a <= b <= |steps| && ss[a].stopped
    requires forall i :: a <= i < b ==> !steps[i].Start?
    ensures ss[b].stopped
    decreases b
  {
    hide After, Can;
    if a < b {
      StoppedUntil(ss, steps, a, b - 1);
      assert Can(ss[b - 1], steps[b - 1]) && ss[b - 1 + 1] == After(ss[b - 1], steps[b - 1]);
      StoppedStep(ss[b - 1], steps[b - 1], 0);
    }
  }

  /** Rounds are serial: at most one of them probes, judges or runs the recovery callback. */
  lemma RoundsAreSerial(ss: seq<State>, steps: seq<Step>, i: nat, r: nat, q: nat)
    requires IsRun(ss, steps) && Inv(ss[0]) && i <= |steps|
    requires r in ss[i].rounds && !ss[i].rounds[r].Waiting? && q in ss[i].rounds && !ss[i].rounds[q].Waiting?
    ensures r == q
  {
    InvAlways(ss, steps, i);
  }

  /** A judgement starts the recovery callback exactly when there is one, the checker is not stopped,
      and this is at least the third failed round in a row since the last healthy round, callback or
      Start. */
  lemma CallbackAfterThree(ss: seq<State>, steps: seq<Step>, i: nat)
    requires IsRun(ss, steps) && Inv(ss[0]) && i < |steps| && steps[i].Judges?
    ensures var s, t, j := ss[i], ss[i + 1], steps[i];
            (j.id in t.rounds && t.rounds[j.id].Calling?) <==>
              j.callback && !s.stopped && j.total > 0 && j.ok == 0 && Trailing(s.history) >= 2
    ensures var s, t, j := ss[i], ss[i + 1], steps[i];
            j.id in t.rounds ==> t.history == s.history + [Down, Fired] && |s.history| >= 2 && s.history[|s.history| - 2..] == [Down, Down]
    ensures var s, t, j := ss[i], ss[i + 1], steps[i];
            t.history == s.history + (if s.stopped then [] else if j.total == 0 || j.ok > 0 then [Up]
                                      else if j.callback && Trailing(s.history) >= 2 then [Down, Fired] else [Down])
  {
    InvAlways(ss, steps, i);
    assert Can(ss[i], steps[i]) && ss[i + 1] == After(ss[i], steps[i]);
    TrailingTwo(ss[i].history);
  }

  /** Nothing but a judgement and a Start that takes effect is ever recorded. */
  lemma OthersRecordNothing(ss: seq<State>, steps: seq<Step>, i: nat)
    requires IsRun(ss, steps) && i < |steps| && !steps[i].Judges?
    ensures ss[i + 1].history == ss[i].history + (if steps[i] == Start(true) && !ss[i].isRunning then [Started] else [])
  {
    assert Can(ss[i], steps[i]) && ss[i + 1] == After(ss[i], steps[i]);
  }

  lemma TrailingTwo(history: seq<Entry>)
    ensures Trailing(history) >= 2 ==> |history| >= 2 && history[|history| - 2..] == [Down, Down]
  {
    if Trailing(history) >= 2 {
      var front := history[..|history| - 1];
      assert Trailing(front) >= 1 && front[|front| - 1] == history[|history| - 2];
    }
  }

  // ---- the checker itself ----

  class Checker {
    var isRunning: bool
    var stopped: bool
    var stopChan: nat
    var closed: set<nat>
    var group: nat
    var holder: Option<nat>
    var allDown: nat
    var rounds: map<nat, Round>
    var schedulers: map<nat, Scheduler>
    var joining: bool
    var next: nat
    ghost var history: seq<Entry>

    ghost function View(): State
      reads this
    {
      State(isRunning, stopped, stopChan, closed, group, holder, allDown, rounds, schedulers, joining, next, history)
    }

    ghost predicate Valid()
      reads this
    {
      Inv(View())
    }

    constructor ()
      ensures Valid() && View() == Initial()
    {
      isRunning, stopped, stopChan, closed, group, holder, allDown := false, false, 0, {}, 0, None, 0;
      rounds, schedulers, joining, next, history := map[], map[], false, 1, [];
      new;
      InitialInv();
    }

    method Start(enabled: bool)
      requires Valid() && !joining
      modifies this
      ensures Valid() && View() == if old(isRunning) || !enabled then old(View()) else Begin(old(View()))
      ensures !old(isRunning) && enabled ==> isRunning && !stopped && allDown == 0 && stopChan != old(stopChan) && stopChan !in closed
    {
      BeginKeeps(View());
      hide Inv;
      if isRunning || !enabled { return; }
      isRunning := true;
      stopped := false;
      Record(0, [Started]);
      Spawn();
    }

    method Record(count: nat, entries: seq<Entry>)
      modifies this`allDown, this`history
      ensures View() == old(View()).(allDown := count, history := old(history) + entries)
    {
      allDown := count;
      history := history + entries;
    }

    /** A scheduler with its own stop channel. */
    method Spawn()
      modifies this`stopChan, this`group, this`schedulers, this`next
      ensures View() == old(View()).(stopChan := old(next), group := old(group) + 1,
                                     schedulers := old(schedulers)[old(next) := Entering], next := old(next) + 1)
    {
      stopChan := next;
      group := group + 1;
      schedulers := schedulers[next := Entering];
      next := next + 1;
    }

    /** Closing a closed channel would panic. */
    method CloseStopChan()
      requires stopChan !in closed
      modifies this`closed
      ensures closed == old(closed) + {stopChan}
    {
      closed := closed + {stopChan};
    }

    /** Stop, up to waiting for the group. */
    method Stop()
      requires Valid() && !joining
      modifies this
      ensures Valid() && View() == Halt(old(View()))
      ensures stopped && !isRunning && stopChan in closed && rounds == old(rounds) && group == old(group)
    {
      StepKeeps(View(), StopBegins);
      assert !stopped ==> stopChan !in closed;
      hide Inv;
      isRunning := false;
      if !stopped {
        stopped := true;
        CloseStopChan();
      }
      joining := true;
    }

    /** The rest of Stop, once the group is empty. */
    method Join()
      requires Valid() && joining && group == 0
      modifies this
      ensures Valid() && !joining && rounds == map[] && schedulers == map[] && stopped
    {
      StepKeeps(View(), StopReturns);
      StopJoins(View());
      joining := false;
    }

    /** CheckAll, up to the round lock. */
    method Enter(ready: bool) returns (round: Option<nat>)
      requires Valid()
      modifies this
      ensures Valid() && View() == Entered(old(View()), ready)
      ensures round == if old(stopped) || !ready then None else Some(old(next))
      ensures group == old(group) + (if round.Some? then 1 else 0)
    {
      EnterKeeps(View(), ready);
      hide Inv;
      if stopped || !ready { return None; }
      round := Some(next);
      group := group + 1;
      rounds := rounds[next := Waiting];
      next := next + 1;
    }

    method Leave(r: nat)
      requires Valid() && holder == Some(r)
      modifies this
      ensures Valid() && View() == Left(old(View()), r)
    {
      LeaveKeeps(View(), r);
      assert group > 0 by { MapSizes(rounds, r, Waiting); }
      hide Inv;
      holder := None;
      rounds := rounds - {r};
      group := group - 1;
    }

    /** CheckAll, with the round lock: a round that queued behind a Stop goes home. */
    method Recheck(r: nat) returns (goOn: bool)
      requires Valid() && r in rounds && rounds[r].Locked?
      modifies this
      ensures Valid() && View() == if old(stopped) then Left(old(View()), r) else old(View()).(rounds := old(rounds)[r := Probing])
      ensures goOn == !old(stopped)
      ensures if goOn then r in rounds && rounds[r].Probing? && !stopped else r !in rounds && holder.None?
    {
      StepKeeps(View(), Rechecks(r));
      if stopped {
        Leave(r);
        return false;
      }
      hide Inv;
      rounds := rounds[r := Probing];
      return true;
    }

    /** CheckAll, after probing: whether the recovery callback runs. */
    method Judge(r: nat, total: nat, ok: nat, callback: bool) returns (fires: bool)
      requires Valid() && r in rounds && rounds[r].Probing?
      modifies this
      ensures Valid() && View() == Judged(old(View()), r, total, ok, callback)
      ensures fires ==> Trailing(old(history)) >= 2 && rounds == old(rounds)[r := Calling]
      ensures !fires ==> r !in rounds && holder.None? && (!old(stopped) && (total == 0 || ok > 0) ==> allDown == 0)
    {
      JudgeKeeps(View(), r, total, ok, callback);
      assert allDown == Trailing(history) && holder == Some(r);
      assert group > 0 by { MapSizes(rounds, r, Waiting); }
      hide Inv, Trailing, Left;
      if stopped {
        Finish(r);
        return false;
      }
      if total == 0 || ok > 0 {
        Record(0, [Up]);
        Finish(r);
        return false;
      }
      if allDown + 1 < 3 || !callback {
        Record(allDown + 1, [Down]);
        Finish(r);
        return false;
      }
      Record(0, [Down, Fired]);
      rounds := rounds[r := Calling];
      return true;
    }

    method Finish(r: nat)
      requires group > 0
      modifies this`holder, this`rounds, this`group
      ensures View() == Left(old(View()), r)
    {
      holder := None;
      rounds := rounds - {r};
      group := group - 1;
    }
  }
}
