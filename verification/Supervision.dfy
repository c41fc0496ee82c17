/** The supervisor: ties one child to the lifetime of its owner. */
module Supervision {
  datatype Child = Unstarted | Alive | Dead | Reaped

  datatype Phase = Booting | Serving | Terming | Killing | Exited(code: nat) | Slain

  /** `owned` is the owner's end of the pipe; terms and kills count the signals sent to the child. */
  datatype Supervisor = Supervisor(phase: Phase, child: Child, owned: bool, terms: nat, kills: nat, signalled: bool)

  function Launched(): Supervisor {
    Supervisor(Booting, Unstarted, true, 0, 0, false)
  }

  datatype Event =
    | Refuses                 // wrong arguments, or no owner pipe
    | Boots(ok: bool)         // starting the child
    | ChildDies
    | Reaps(code: nat)        // Wait returns; the code is that of the child
    | OwnerCloses             // the owner closes its end, or dies
    | OwnerGone               // the supervisor notices
    | Signal                  // TERM, INT or HUP to the supervisor
    | Impatient               // two seconds after TERM
    | Slays                   // something kills the supervisor itself

  predicate CanHappen(s: Supervisor, e: Event) {
    match e
    case Refuses => s.phase.Booting?
    case Boots(_) => s.phase.Booting?
    case ChildDies => s.child.Alive?
    case Reaps(_) => s.child.Dead? && (s.phase.Serving? || s.phase.Terming? || s.phase.Killing?)
    case OwnerCloses => true
    case OwnerGone => s.phase.Serving? && !s.owned
    case Signal => s.phase.Serving?
    case Impatient => s.phase.Terming?
    case Slays => !s.phase.Exited?
  }

  function Happens(s: Supervisor, e: Event): Supervisor
    requires CanHappen(s, e)
  {
    match e
    case Refuses => s.(phase := Exited(2))
    case Boots(ok) => if ok then s.(phase := Serving, child := Alive) else s.(phase := Exited(1))
    case ChildDies => s.(child := Dead)
    case Reaps(code) => s.(phase := Exited(if s.phase.Serving? then code else 0), child := Reaped)
    case OwnerCloses => s.(owned := false)
    case OwnerGone => s.(phase := Terming, terms := s.terms + 1)
    case Signal => s.(phase := Terming, terms := s.terms + 1, signalled := true)
    case Impatient => s.(phase := Killing, kills := s.kills + 1)
    case Slays => s.(phase := Slain)
  }

  predicate IsGone(s: Supervisor) { s.phase.Exited? || s.phase.Slain? }

  /** What every event keeps.  In particular a supervisor that exits by itself has reaped its child,
      and signals it only when the owner is gone or the supervisor itself was asked to stop. */
  predicate SupInv(s: Supervisor) {
    && (s.phase.Booting? ==> s.child.Unstarted? && s.terms == 0)
    && (s.phase.Serving? ==> s.terms == 0)
    && (s.phase.Serving? || s.phase.Terming? || s.phase.Killing? ==> s.child.Alive? || s.child.Dead?)
    && (s.phase.Terming? ==> s.terms == 1 && s.kills == 0)
    && (s.phase.Killing? ==> s.terms == 1)
    && (s.phase.Exited? ==> s.child.Unstarted? || s.child.Reaped?)
    && s.kills <= s.terms <= 1
    && (s.terms > 0 ==> !s.owned || s.signalled)
  }

  ghost predicate IsRun(s: Supervisor, events: seq<Event>, t: Supervisor)
    decreases |events|
  {
    if events == [] then t == s
    else CanHappen(s, events[0]) && IsRun(Happens(s, events[0]), events[1..], t)
  }

  lemma {:induction false} RunKeeps(s: Supervisor, events: seq<Event>, t: Supervisor)
    requires SupInv(s) && IsRun(s, events, t)
    ensures SupInv(t)
    decreases |events|
  {
    if events != [] { RunKeeps(Happens(s, events[0]), events[1..], t); }
  }

  /** In every run from the launch: a supervisor that was not slain and is gone has left no child
      behind, KILL comes after TERM, each at most once, and neither while the owner holds the pipe
      unless the supervisor was signalled. */
  lemma SupervisorLeavesNothing(events: seq<Event>, t: Supervisor)
    requires IsRun(Launched(), events, t)
    ensures t.phase.Exited? ==> t.child.Unstarted? || t.child.Reaped?
    ensures t.kills <= t.terms <= 1
    ensures t.terms > 0 ==> !t.owned || t.signalled
  {
    RunKeeps(Launched(), events, t);
  }

  lemma {:induction false} RunAppend(s: Supervisor, events: seq<Event>, t: Supervisor, e: Event)
    requires IsRun(s, events, t) && CanHappen(t, e)
    ensures IsRun(s, events + [e], Happens(t, e))
    decreases |events|
  {
    if events == [] {
      assert [e][1..] == [];
      assert IsRun(Happens(s, e), [], Happens(t, e));
      assert events + [e] == [e];
    } else {
      RunAppend(Happens(s, events[0]), events[1..], t, e);
      assert (events + [e])[1..] == events[1..] + [e];
    }
  }

  /** What the supervisor meets: which of the two selects is ready first, and how the child ends. */
  datatype Meets = Meets(
    arguments: bool, pipe: bool, starts: bool,
    first: Wake, patient: bool, code: nat)

  datatype Wake = ChildEnded | OwnerLeft | Asked

  class Process {
    var state: Supervisor
    ghost var events: seq<Event>

    ghost predicate Valid()
      reads this
    {
      IsRun(Launched(), events, state)
    }

    constructor ()
      ensures Valid() && state == Launched() && events == []
    {
      events := [];
      state := Launched();
    }

    method Do(e: Event)
      requires Valid() && CanHappen(state, e)
      modifies this
      ensures Valid() && state == Happens(old(state), e) && events == old(events) + [e]
    {
      RunAppend(Launched(), events, state, e);
      state := Happens(state, e);
      events := events + [e];
    }

    /** The supervisor's main, apart from its argument check for ordinary calls: the exit code, and how it got there. */
    method Supervise(meets: Meets) returns (code: nat)
      requires Valid() && state == Launched() && events == []
      modifies this
      ensures Valid() && state.phase == Exited(code)
      ensures state.child == (if meets.arguments && meets.pipe && meets.starts then Reaped else Unstarted)
      ensures !meets.arguments || !meets.pipe ==> code == 2
      ensures meets.arguments && meets.pipe && !meets.starts ==> code == 1
      ensures meets.arguments && meets.pipe && meets.starts ==>
        && code == (if meets.first.ChildEnded? then meets.code else 0)
        && state.terms == (if meets.first.ChildEnded? then 0 else 1)
        && state.kills == (if meets.first.ChildEnded? || meets.patient then 0 else 1)
    {
      if !meets.arguments { Do(Refuses); return 2; }
      if !meets.pipe { Do(Refuses); return 2; }
      Do(Boots(meets.starts));
      if !meets.starts { return 1; }
      match meets.first {
        case ChildEnded =>
          Do(ChildDies);
          Do(Reaps(meets.code));
          return meets.code;
        case OwnerLeft =>
          Do(OwnerCloses);
          Do(OwnerGone);
        case Asked => Do(Signal);
      }
      if !meets.patient { Do(Impatient); }
      Do(ChildDies);
      Do(Reaps(meets.code));
      return 0;
    }
  }
}
