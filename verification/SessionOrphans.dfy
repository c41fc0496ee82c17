/** When a core is left running that no manager owns. */
module SessionOrphans {
  import opened Text
  import opened ProxyConfig
  import opened SubscriptionMatch
  import opened SubscriptionMerge
  import opened ManualNode
  import opened Session
  import opened SessionRuns
  import opened SessionTheorems

  // ---- where reports come from ----

  /** A report that no watcher has taken yet is about a lifecycle that has ended. */
  ghost predicate ReportsDead(w: World) {
    forall m :: m in w.reports ==> m < w.state.next && m !in w.state.alive
  }

  /** So is one that a watcher has taken. */
  ghost predicate NoStaleReport(w: World) {
    forall i :: 0 <= i < |w.threads| && w.threads[i].Reporting? ==> w.threads[i].manager !in w.state.alive
  }

  lemma InitialReports(files: map<string, Config>)
    ensures ReportsDead(Initial(files)) && NoStaleReport(Initial(files))
  {
  }

  /** A hold makes no manager alive but a new one. */
  ghost predicate RevivesNone(s: State, t: State) {
    s.next <= t.next && forall m :: m in t.alive ==> m in s.alive || s.next <= m
  }

  lemma BootRevives(s: State, c: Config, env: BootEnv)
    ensures RevivesNone(s, Boot(s, c, env).state)
  {
  }

  lemma DisposedRevives(s: State, halt: Halt)
    ensures var r := Disposed(s, halt);
            r.alive <= s.alive && r.next == s.next && StopChecker(StopUpdater(s)).alive <= s.alive && StopChecker(StopUpdater(s)).next == s.next
  {
  }

  lemma BeginStartRevives(s: State, dataPath: string, env: StartEnv)
    ensures RevivesNone(s, BeginStart(s, dataPath, env).state)
  {
    hide IsValid, Boot, Disposed, StopChecker, StopUpdater;
    DisposedRevives(s, env.halt);
    var t := Located(Disposed(s, env.halt), dataPath, env);
    if t.configPath in t.files { BootRevives(t, t.files[t.configPath], env.boot); }
  }

  lemma FinishStartRevives(s: State, session: nat, path: string, update: Option<Config>, saved: bool, env: BootEnv)
    ensures RevivesNone(s, FinishStart(s, session, path, update, saved, env).state)
  {
  }

  lemma ReloadRevives(s: State, env: ReloadEnv)
    ensures var r := Reload(s, env);
      && r.state.alive <= s.alive && r.state.next == s.next && r.state.manager == s.manager
      && (r.taken || r.lost ==> s.manager.Some? && s.manager.value in s.alive)
      && (r.taken ==> !r.lost && env.bounce == Bounced(true))
      && (s.manager.Some? && s.manager.value in s.alive ==> (s.manager.value in r.state.alive <==> !r.lost))
  {
  }

  /** What a hold of an update or import does to the core. */
  ghost predicate TreatsCore(s: State, env: UpdateEnv, r: ChangeOutcome) {
    && r.state.alive <= s.alive && s.next <= r.state.next && r.state.manager == s.manager
    && (r.taken || r.lost ==> s.manager.Some? && s.manager.value in s.alive)
    && (r.taken ==> env.reload.bounce == Bounced(true) || env.back.bounce == Bounced(true))
    && (s.manager.Some? && s.manager.value in s.alive ==> (s.manager.value in r.state.alive <==> !r.lost))
  }

  lemma FinishUpdateTreats(k: Setting, s: State, current: Published, session: Option<nat>, url: string, feed: Option<seq<Proxy>>, env: UpdateEnv)
    ensures TreatsCore(s, env, FinishUpdate(k.oracle, s, k.dataPath, current, session, url, feed, env))
  {
    hide Merge, Reload;
    if SameSession(s, current, session) && feed.Some? && Merge(k.oracle, current.config, feed.value, url).Merged? {
      var s1 := Publish(s, Merge(k.oracle, current.config, feed.value, url).next);
      ReloadRevives(s1, env.reload);
      ReloadRevives(Reload(s1, env.reload).state.(config := Some(current)), env.back);
    }
  }

  lemma FinishImportTreats(k: Setting, s: State, held: Option<Published>, session: Option<nat>, node: Proxy, env: UpdateEnv)
    ensures TreatsCore(s, env, FinishImport(s, k.dataPath, held, session, node, env))
  {
    hide ManualMerge, Reload;
    if held.Some? && SameSession(s, held.value, session) && ManualMerge(held.value.config, node).Placed? {
      var next := ManualMerge(held.value.config, node).next;
      var s1 := Saved(Publish(s, next), k.dataPath, next);
      ReloadRevives(s1, env.reload);
      var s2 := Reload(s1, env.reload).state.(config := held);
      ReloadRevives(if env.restored then Saved(s2, k.dataPath, held.value.config) else s2, env.back);
    }
  }

  // ---- the events of an orphan ----

  predicate IsHold(step: Step) { step.Fetched? || step.Imported? }

  /** What the hold of an update or import came to. */
  ghost function Outcome(k: Setting, w: World, step: Step): ChangeOutcome
    requires Can(w, step) && IsHold(step)
  {
    var t := w.threads[step.thread];
    if step.Fetched? then FinishUpdate(k.oracle, w.state, k.dataPath, t.current, t.session, t.url, step.feed, step.env)
    else FinishImport(w.state, k.dataPath, t.held, t.session, t.node, step.env)
  }

  /** A hold restarts the core; the old lifecycle ended by itself meanwhile, watcher i has its report,
      and the restarted core is up. */
  ghost predicate Grabs(k: Setting, w: World, step: Step, i: nat) {
    && Can(w, step) && IsHold(step) && i < |w.threads| && w.threads[i].Watching? && w.state.manager == Some(w.threads[i].manager)
    && Outcome(k, w, step).taken && !Outcome(k, w, step).lost
  }

  /** The core of manager m ends: by itself, or because it is stopped for a restart that fails. */
  ghost predicate Downs(k: Setting, w: World, step: Step, m: nat) {
    || (step.Ends? && step.manager == m)
    || (Can(w, step) && IsHold(step) && w.state.manager == Some(m) && Outcome(k, w, step).lost)
  }

  /** Hold a gave watcher i its report, and the core it restarted has not ended since. */
  ghost predicate TookAndUp(k: Setting, ws: seq<World>, steps: seq<Step>, i: nat, a: nat, b: nat)
    requires |ws| == |steps| + 1 && b <= |steps|
  {
    && a < b && Grabs(k, ws[a], steps[a], i)
    && forall c :: a < c < b ==> !Downs(k, ws[c], steps[c], ws[a].threads[i].manager)
  }

  ghost predicate Took(k: Setting, ws: seq<World>, steps: seq<Step>, i: nat, b: nat)
    requires |ws| == |steps| + 1 && b <= |steps|
  {
    exists a :: TookAndUp(k, ws, steps, i, a, b)
  }

  ghost predicate IsCurrent(s: State, t: Thread) {
    t.Reporting? && s.manager == Some(t.manager) && s.checker == Some(t.checker)
  }

  /** Step b is a watcher acting on such a report while its manager and checker are still current. */
  ghost predicate ActsOnStale(k: Setting, ws: seq<World>, steps: seq<Step>, b: nat)
    requires |ws| == |steps| + 1 && b < |steps|
  {
    && steps[b].WatchEnds? && steps[b].thread < |ws[b].threads| && IsCurrent(ws[b].state, ws[b].threads[steps[b].thread])
    && Took(k, ws, steps, steps[b].thread, b)
  }

  // ---- one step ----

  lemma StepRevives(k: Setting, w: World, step: Step)
    requires Can(w, step)
    ensures RevivesNone(w.state, After(k, w, step).state)
  {
    hide BeginStart, FinishStart, FinishUpdate, FinishImport, StartupMerge, Merge;
    match step {
      case StartQueued(i, env) => BeginStartRevives(w.state, k.dataPath, env);
      case StartNow(env) => BeginStartRevives(w.state, k.dataPath, env);
      case Downloaded(i, feed, saved, env) =>
        var t := w.threads[i];
        FinishStartRevives(w.state, t.startup, t.path, StartupMerge(k.oracle, t.loaded.config, feed), saved, env);
      case Restart(halt, env) => BeginStartRevives(StopProxy(w.state, halt).state, k.dataPath, env);
      case Fetched(i, feed, env) =>
        var t := w.threads[i];
        FinishUpdateTreats(k, w.state, t.current, t.session, t.url, feed, env);
      case Imported(i, env) =>
        var t := w.threads[i];
        FinishImportTreats(k, w.state, t.held, t.session, t.node, env);
      case _ =>
    }
  }

  lemma ReportsFrom(k: Setting, w: World, step: Step)
    requires Can(w, step)
    ensures forall m :: m in After(k, w, step).reports ==> m in w.reports || (step == Ends(m, true) && m < w.state.next)
  {
    hide BeginStart, FinishStart, FinishUpdate, FinishImport, StartupMerge, RestartProxy, StartAtEpoch, StopProxy, Watch;
  }

  lemma ReportsStep(k: Setting, w: World, step: Step)
    requires Can(w, step) && ReportsDead(w)
    ensures ReportsDead(After(k, w, step))
  {
    hide Can;
    StepRevives(k, w, step);
    ReportsFrom(k, w, step);
    if step.Ends? {
      assert After(k, w, step).state.alive == w.state.alive - {step.manager};
    }
    hide After;
  }

  lemma {:induction false} ReportsAlways(k: Setting, ws: seq<World>, steps: seq<Step>, i: nat)
    requires IsRun(k, ws, steps) && ReportsDead(ws[0]) && i <= |steps|
    ensures ReportsDead(ws[i])
  {
    hide After, Can, ReportsDead;
    if i > 0 {
      ReportsAlways(k, ws, steps, i - 1);
      NextOf(k, ws, steps, i - 1);
      ReportsStep(k, ws[i - 1], steps[i - 1]);
    }
  }

  /** How a watcher comes to have a report: it had it, it takes it from the channel, or a hold leaves it. */
  lemma ReportOrigin(k: Setting, w: World, step: Step, i: nat)
    requires Can(w, step) && i < |After(k, w, step).threads| && After(k, w, step).threads[i].Reporting?
    ensures var t := After(k, w, step).threads[i];
      && i < |w.threads|
      && (|| w.threads[i] == t
          || (step == Take(i) && w.threads[i] == Watching(t.manager, t.checker) && t.manager in w.reports)
          || (IsHold(step) && w.threads[i] == Watching(t.manager, t.checker) && w.state.manager == Some(t.manager) && Outcome(k, w, step).taken))
  {
    hide BeginStart, FinishStart, FinishUpdate, FinishImport, StartupMerge, RestartProxy, StartAtEpoch, StopProxy, Watch;
  }

  /** A watcher that has had a report does not watch again. */
  lemma ReportingStays(k: Setting, w: World, step: Step, i: nat)
    requires Can(w, step) && i < |w.threads| && (w.threads[i].Reporting? || w.threads[i].Over?)
    ensures i < |After(k, w, step).threads| && (After(k, w, step).threads[i] == w.threads[i] || After(k, w, step).threads[i].Over?)
  {
    hide BeginStart, FinishStart, FinishUpdate, FinishImport, StartupMerge, RestartProxy, StartAtEpoch, StopProxy, Watch;
  }

  lemma GrabbedReports(k: Setting, w: World, step: Step, i: nat)
    requires Grabs(k, w, step, i)
    ensures i < |After(k, w, step).threads| && After(k, w, step).threads[i] == Reporting(w.threads[i].manager, w.threads[i].checker)
  {
    hide FinishUpdate, FinishImport;
  }

  lemma {:induction false} NeverWatchesAgain(k: Setting, ws: seq<World>, steps: seq<Step>, i: nat, a: nat, b: nat)
    requires IsRun(k, ws, steps) && a <= b <= |steps| && i < |ws[a].threads| && (ws[a].threads[i].Reporting? || ws[a].threads[i].Over?)
    ensures i < |ws[b].threads| && (ws[b].threads[i].Reporting? || ws[b].threads[i].Over?)
    decreases b
  {
    hide After, Can;
    if a < b {
      NeverWatchesAgain(k, ws, steps, i, a, b - 1);
      NextOf(k, ws, steps, b - 1);
      ReportingStays(k, ws[b - 1], steps[b - 1], i);
    }
  }

  lemma NoEarlierGrab(k: Setting, ws: seq<World>, steps: seq<Step>, i: nat, b: nat)
    requires IsRun(k, ws, steps) && b <= |steps| && i < |ws[b].threads| && ws[b].threads[i].Watching?
    ensures forall a :: 0 <= a < b ==> !Grabs(k, ws[a], steps[a], i)
  {
    hide After, Can, Grabs;
    forall a | 0 <= a < b && Grabs(k, ws[a], steps[a], i) ensures false {
      NextOf(k, ws, steps, a);
      GrabbedReports(k, ws[a], steps[a], i);
      NeverWatchesAgain(k, ws, steps, i, a + 1, b);
    }
  }

  lemma BootManager(s: State, c: Config, env: BootEnv, m: nat)
    requires s.manager.None? && m < s.next
    ensures Boot(s, c, env).state.manager != Some(m)
  {
  }

  lemma DisposedManager(s: State, halt: Halt)
    ensures Disposed(s, halt).manager.None? && Disposed(s, halt).next == s.next
    ensures var r := StopChecker(StopUpdater(s)); r.manager == s.manager && r.alive == s.alive
  {
  }

  /** A manager that is current after a start was current before, or is new. */
  lemma StartCurrent(s: State, dataPath: string, env: StartEnv, m: nat)
    requires m < s.next && BeginStart(s, dataPath, env).state.manager == Some(m)
    ensures s.manager == Some(m) && (m in BeginStart(s, dataPath, env).state.alive <==> m in s.alive)
  {
    hide IsValid, Boot, Disposed, StopChecker, StopUpdater;
    DisposedManager(s, env.halt);
    var t := Located(Disposed(s, env.halt), dataPath, env);
    if t.configPath in t.files { BootManager(t, t.files[t.configPath], env.boot, m); }
  }

  lemma FinishCurrent(s: State, session: nat, path: string, update: Option<Config>, saved: bool, env: BootEnv, m: nat)
    requires StateInv(s) && m < s.next && FinishStart(s, session, path, update, saved, env).state.manager == Some(m)
    ensures s.manager == Some(m) && (m in FinishStart(s, session, path, update, saved, env).state.alive <==> m in s.alive)
  {
  }

  /** What a step does to a manager that is current before and after it. */
  lemma CurrentCore(k: Setting, w: World, step: Step, m: nat)
    requires Inv(w) && Can(w, step) && m < w.state.next && After(k, w, step).state.manager == Some(m)
    ensures w.state.manager == Some(m)
    ensures m in After(k, w, step).state.alive <==> m in w.state.alive && !Downs(k, w, step, m)
  {
    if IsHold(step) {
      HoldCore(k, w, step, m);
    } else {
      OtherCore(k, w, step, m);
    }
  }

  lemma HoldCore(k: Setting, w: World, step: Step, m: nat)
    requires Can(w, step) && IsHold(step) && After(k, w, step).state.manager == Some(m)
    ensures w.state.manager == Some(m)
    ensures m in After(k, w, step).state.alive <==> m in w.state.alive && !Downs(k, w, step, m)
  {
    hide FinishUpdate, FinishImport;
    OutcomeTreats(k, w, step);
    assert After(k, w, step).state == Outcome(k, w, step).state;
    hide After, Outcome, Can;
  }

  lemma OtherCore(k: Setting, w: World, step: Step, m: nat)
    requires Inv(w) && Can(w, step) && !IsHold(step) && m < w.state.next && After(k, w, step).state.manager == Some(m)
    ensures w.state.manager == Some(m)
    ensures m in After(k, w, step).state.alive <==> m in w.state.alive && !(step.Ends? && step.manager == m)
  {
    hide BeginStart, FinishStart, FinishUpdate, FinishImport, StartupMerge, ThreadsInv, QueueInv;
    match step {
      case StartQueued(i, env) =>
        if w.threads[i].epoch == w.state.epoch { StartCurrent(w.state, k.dataPath, env, m); }
      case StartNow(env) => StartCurrent(w.state, k.dataPath, env, m);
      case Downloaded(i, feed, saved, env) =>
        var t := w.threads[i];
        FinishCurrent(w.state, t.startup, t.path, StartupMerge(k.oracle, t.loaded.config, feed), saved, env, m);
      case Restart(halt, env) =>
        if w.state.startup.None? && w.state.manager.Some? && StopProxy(w.state, halt).ok {
          StartCurrent(StopProxy(w.state, halt).state, k.dataPath, env, m);
        }
      case _ =>
    }
  }

  // ---- the theorem ----

  /** A watcher's report is stale - its manager's core is alive - exactly when a hold left it the report
      and the core that hold restarted has not ended since. */
  lemma {:induction false} StaleIff(k: Setting, ws: seq<World>, steps: seq<Step>, i: nat, b: nat)
    requires IsRun(k, ws, steps) && Inv(ws[0]) && ReportsDead(ws[0]) && NoStaleReport(ws[0])
    requires b <= |steps| && i < |ws[b].threads| && ws[b].threads[i].Reporting? && ws[b].state.manager == Some(ws[b].threads[i].manager)
    ensures ws[b].threads[i].manager in ws[b].state.alive <==> Took(k, ws, steps, i, b)
    decreases b
  {
    if b == 0 {
      hide After, Inv, Can, Grabs, Downs, ReportsDead;
      assert !Took(k, ws, steps, i, b);
    } else {
      hide After, Inv, Can, Grabs, Downs, ReportsDead, Took, NoStaleReport;
      var m := ws[b].threads[i].manager;
      NextOf(k, ws, steps, b - 1);
      ReportOrigin(k, ws[b - 1], steps[b - 1], i);
      InvAlways(k, ws, steps, b - 1);
      ThreadBelow(ws[b - 1], i);
      CurrentCore(k, ws[b - 1], steps[b - 1], m);
      if ws[b - 1].threads[i].Reporting? {
        StaleIff(k, ws, steps, i, b - 1);
        StillUp(k, ws, steps, i, b);
      } else {
        FirstTook(k, ws, steps, i, b);
        ReportsAlways(k, ws, steps, b - 1);
        FreshReport(k, ws[b - 1], steps[b - 1], i, m);
      }
    }
  }

  /** A watcher that had no report before this step. */
  lemma FirstTook(k: Setting, ws: seq<World>, steps: seq<Step>, i: nat, b: nat)
    requires IsRun(k, ws, steps) && 0 < b <= |steps| && i < |ws[b - 1].threads| && ws[b - 1].threads[i].Watching?
    ensures Took(k, ws, steps, i, b) <==> Grabs(k, ws[b - 1], steps[b - 1], i)
  {
    hide After, Can, Grabs, Downs;
    NoEarlierGrab(k, ws, steps, i, b - 1);
    if Grabs(k, ws[b - 1], steps[b - 1], i) {
      assert TookAndUp(k, ws, steps, i, b - 1, b);
    }
  }

  lemma ThreadBelow(w: World, i: nat)
    requires Inv(w) && i < |w.threads|
    ensures w.threads[i].Watching? || w.threads[i].Reporting? ==> w.threads[i].manager < w.state.next
  {
    assert ThreadInv(w.state, w.threads[i]);
  }

  /** A report that watcher i gets by this step is stale exactly when it is left by a hold. */
  lemma FreshReport(k: Setting, w: World, step: Step, i: nat, m: nat)
    requires Can(w, step) && ReportsDead(w) && i < |w.threads| && w.threads[i].Watching? && w.threads[i].manager == m
    requires w.state.manager == Some(m)
    requires (step == Take(i) && m in w.reports) || (IsHold(step) && Outcome(k, w, step).taken)
    ensures m in w.state.alive && !Downs(k, w, step, m) <==> Grabs(k, w, step, i)
  {
    hide FinishUpdate, FinishImport;
    if IsHold(step) { OutcomeTreats(k, w, step); }
  }

  lemma OutcomeTreats(k: Setting, w: World, step: Step)
    requires Can(w, step) && IsHold(step)
    ensures TreatsCore(w.state, step.env, Outcome(k, w, step))
  {
    hide FinishUpdate, FinishImport;
    var t := w.threads[step.thread];
    if step.Fetched? {
      FinishUpdateTreats(k, w.state, t.current, t.session, t.url, step.feed, step.env);
    } else {
      FinishImportTreats(k, w.state, t.held, t.session, t.node, step.env);
    }
  }

  /** A watcher that already has its report. */
  lemma StillUp(k: Setting, ws: seq<World>, steps: seq<Step>, i: nat, b: nat)
    requires IsRun(k, ws, steps) && 0 < b <= |steps| && i < |ws[b - 1].threads| && ws[b - 1].threads[i].Reporting?
    ensures var m := ws[b - 1].threads[i].manager;
      Took(k, ws, steps, i, b) <==> Took(k, ws, steps, i, b - 1) && !Downs(k, ws[b - 1], steps[b - 1], m)
  {
    forall a: nat ensures TookAndUp(k, ws, steps, i, a, b) <==>
        TookAndUp(k, ws, steps, i, a, b - 1) && !Downs(k, ws[b - 1], steps[b - 1], ws[b - 1].threads[i].manager)
    {
      StillUpSince(k, ws, steps, i, a, b);
    }
    hide TookAndUp, Downs, IsRun;
    if Took(k, ws, steps, i, b) {
      var a :| TookAndUp(k, ws, steps, i, a, b);
      assert TookAndUp(k, ws, steps, i, a, b - 1);
    }
    if Took(k, ws, steps, i, b - 1) && !Downs(k, ws[b - 1], steps[b - 1], ws[b - 1].threads[i].manager) {
      var a :| TookAndUp(k, ws, steps, i, a, b - 1);
      assert TookAndUp(k, ws, steps, i, a, b);
    }
  }

  lemma StillUpSince(k: Setting, ws: seq<World>, steps: seq<Step>, i: nat, a: nat, b: nat)
    requires IsRun(k, ws, steps) && 0 < b <= |steps| && i < |ws[b - 1].threads| && ws[b - 1].threads[i].Reporting?
    ensures TookAndUp(k, ws, steps, i, a, b) <==>
      TookAndUp(k, ws, steps, i, a, b - 1) && !Downs(k, ws[b - 1], steps[b - 1], ws[b - 1].threads[i].manager)
  {
    hide IsRun, Grabs, Downs;
    if a < b { GrabbedBefore(k, ws, steps, i, a, b - 1); }
  }

  lemma GrabbedBefore(k: Setting, ws: seq<World>, steps: seq<Step>, i: nat, a: nat, b: nat)
    requires IsRun(k, ws, steps) && a <= b < |steps| && i < |ws[b].threads| && ws[b].threads[i].Reporting?
    ensures Grabs(k, ws[a], steps[a], i) ==> a < b && i < |ws[a].threads| && ws[a].threads[i].Watching? && ws[a].threads[i].manager == ws[b].threads[i].manager
  {
    if Grabs(k, ws[a], steps[a], i) {
      hide IsRun;
      GrabSameManager(k, ws, steps, i, a, b);
    }
  }

  lemma GrabSameManager(k: Setting, ws: seq<World>, steps: seq<Step>, i: nat, a: nat, b: nat)
    requires IsRun(k, ws, steps) && a <= b <= |steps| && a < |steps| && Grabs(k, ws[a], steps[a], i)
    requires i < |ws[b].threads| && ws[b].threads[i].Reporting?
    ensures a < b && ws[b].threads[i].manager == ws[a].threads[i].manager
  {
    hide After, Can;
    NextOf(k, ws, steps, a);
    GrabbedReports(k, ws[a], steps[a], i);
    if a < b { SameReport(k, ws, steps, i, a + 1, b); }
  }

  lemma {:induction false} SameReport(k: Setting, ws: seq<World>, steps: seq<Step>, i: nat, a: nat, b: nat)
    requires IsRun(k, ws, steps) && a <= b <= |steps| && i < |ws[a].threads| && (ws[a].threads[i].Reporting? || ws[a].threads[i].Over?)
    ensures i < |ws[b].threads| && (ws[b].threads[i] == ws[a].threads[i] || ws[b].threads[i].Over?)
    decreases b
  {
    hide After, Can;
    if a < b {
      SameReport(k, ws, steps, i, a, b - 1);
      NextOf(k, ws, steps, b - 1);
      ReportingStays(k, ws[b - 1], steps[b - 1], i);
    }
  }

  /** An orphan arises at exactly one kind of step: a watcher acts on a report that it took during a
      restart inside an update or import, while that manager and checker are still current and the
      restarted core has not ended since. */
  lemma OrphanArisesIff(k: Setting, ws: seq<World>, steps: seq<Step>, b: nat)
    requires IsRun(k, ws, steps) && Inv(ws[0]) && ReportsDead(ws[0]) && NoStaleReport(ws[0])
    requires b < |steps| && NoOrphan(ws[b].state)
    ensures !NoOrphan(ws[b + 1].state) <==> ActsOnStale(k, ws, steps, b)
  {
    hide After, Inv, NoOrphan, Took, NoStaleReport, ReportsDead;
    InvAlways(k, ws, steps, b);
    NextOf(k, ws, steps, b);
    if steps[b].WatchEnds? {
      var i := steps[b].thread;
      WatchNoOrphan(k, ws[b], steps[b]);
      if IsCurrent(ws[b].state, ws[b].threads[i]) { StaleIff(k, ws, steps, i, b); }
    } else {
      OrderlyStep(k, ws[b], steps[b]);
    }
  }

  /** So a run leaves no core behind exactly when no watcher ever acts on such a report. */
  lemma NoOrphanIff(k: Setting, ws: seq<World>, steps: seq<Step>)
    requires IsRun(k, ws, steps) && Inv(ws[0]) && NoOrphan(ws[0].state) && ReportsDead(ws[0]) && NoStaleReport(ws[0])
    ensures (forall b :: 0 <= b < |ws| ==> NoOrphan(ws[b].state)) <==> (forall b :: 0 <= b < |steps| ==> !ActsOnStale(k, ws, steps, b))
  {
    hide After, Inv, Can, NoOrphan, ActsOnStale, ReportsDead, NoStaleReport;
    if forall b :: 0 <= b < |steps| ==> !ActsOnStale(k, ws, steps, b) {
      forall b | 0 <= b < |ws| ensures NoOrphan(ws[b].state) {
        NoOrphanUpTo(k, ws, steps, b);
      }
    }
    if forall b :: 0 <= b < |ws| ==> NoOrphan(ws[b].state) {
      forall b | 0 <= b < |steps| ensures !ActsOnStale(k, ws, steps, b) {
        assert NoOrphan(ws[b].state) && NoOrphan(ws[b + 1].state);
        OrphanArisesIff(k, ws, steps, b);
      }
    }
  }

  /** In particular from the very beginning, whatever files there are. */
  lemma NoOrphanFromStart(k: Setting, files: map<string, Config>, ws: seq<World>, steps: seq<Step>)
    requires IsRun(k, ws, steps) && ws[0] == Initial(files)
    ensures (forall b :: 0 <= b < |ws| ==> NoOrphan(ws[b].state)) <==> (forall b :: 0 <= b < |steps| ==> !ActsOnStale(k, ws, steps, b))
    ensures (forall c :: 0 <= c < |steps| ==> !TakesInBounce(steps[c])) ==> forall b :: 0 <= b < |ws| ==> NoOrphan(ws[b].state)
  {
    InitialInv(files);
    InitialReports(files);
    hide After, Inv, Can, NoOrphan, ActsOnStale, ReportsDead, NoStaleReport, TakesInBounce, Initial;
    NoOrphanIff(k, ws, steps);
    if forall c :: 0 <= c < |steps| ==> !TakesInBounce(steps[c]) {
      forall b | 0 <= b < |ws| ensures NoOrphan(ws[b].state) {
        NoTakenBounceNoOrphan(k, ws, steps, b);
      }
    }
  }

  lemma {:induction false} NoOrphanUpTo(k: Setting, ws: seq<World>, steps: seq<Step>, b: nat)
    requires IsRun(k, ws, steps) && Inv(ws[0]) && NoOrphan(ws[0].state) && ReportsDead(ws[0]) && NoStaleReport(ws[0]) && b <= |steps|
    requires forall c :: 0 <= c < b ==> !ActsOnStale(k, ws, steps, c)
    ensures NoOrphan(ws[b].state)
  {
    hide After, Inv, Can, NoOrphan, ActsOnStale, ReportsDead, NoStaleReport;
    if b > 0 {
      NoOrphanUpTo(k, ws, steps, b - 1);
      OrphanArisesIff(k, ws, steps, b - 1);
    }
  }

  predicate TakesInBounce(step: Step) {
    IsHold(step) && (step.env.reload.bounce == Bounced(true) || step.env.back.bounce == Bounced(true))
  }

  lemma GrabNeedsBounce(k: Setting, w: World, step: Step, i: nat)
    ensures Grabs(k, w, step, i) ==> TakesInBounce(step)
  {
    hide Outcome;
    if Grabs(k, w, step, i) { OutcomeTreats(k, w, step); }
  }

  /** In particular none does if no restart inside an update or import meets a crash whose report the
      watcher takes before the core is up again. */
  lemma NoTakenBounceNoOrphan(k: Setting, ws: seq<World>, steps: seq<Step>, b: nat)
    requires IsRun(k, ws, steps) && Inv(ws[0]) && NoOrphan(ws[0].state) && ReportsDead(ws[0]) && NoStaleReport(ws[0]) && b <= |steps|
    requires forall c :: 0 <= c < |steps| ==> !TakesInBounce(steps[c])
    ensures NoOrphan(ws[b].state)
  {
    hide After, Inv, NoOrphan, ReportsDead, NoStaleReport, Grabs, TakesInBounce, Can;
    forall c | 0 <= c < b ensures !ActsOnStale(k, ws, steps, c) {
      forall a, i | 0 <= a < c ensures !Grabs(k, ws[a], steps[a], i) {
        GrabNeedsBounce(k, ws[a], steps[a], i);
      }
    }
    hide ActsOnStale;
    NoOrphanUpTo(k, ws, steps, b);
  }

  // ---- the run that leaves a core behind ----

  /** A manager is running and watched, and an import of an acceptable node waits for its turn. */
  ghost predicate AboutToImport(w: World, m: nat, h: nat) {
    && Inv(w) && NoOrphan(w.state) && |w.threads| >= 2 && w.queue.None?
    && w.threads[0] == Watching(m, h) && w.state.manager == Some(m) && w.state.checker == Some(h) && m in w.state.alive
    && w.threads[1].Importing? && w.threads[1].held == w.state.config && w.threads[1].session == w.state.active
    && w.state.config.Some? && w.state.startup.None?
    && ManualMerge(w.state.config.value.config, w.threads[1].node).Placed?
  }

  /** The core crashes while the import restarts it, and the watcher has the crash report before the
      restarted core comes up: the watcher then drops the manager of a running core, and a Stop that
      reports success leaves that core alive. */
  lemma CrashDuringRestartOrphans(k: Setting, w: World, m: nat, h: nat)
    requires AboutToImport(w, m, h)
    ensures var reload := ReloadEnv(true, true, Bounced(true));
            var crash := Imported(1, UpdateEnv(true, reload, reload, true));
      && Can(w, crash)
      && (var w1 := After(k, w, crash);
          && w1.state.manager == Some(m) && m in w1.state.alive && Can(w1, WatchEnds(0)) && !Orderly(w1, WatchEnds(0))
          && (var w2 := After(k, w1, WatchEnds(0));
              && w2.state.manager.None? && m in w2.state.alive
              && StopProxy(w2.state, Halts).ok && m in StopProxy(w2.state, Halts).state.alive))
  {
    hide ManualMerge, Inv, NoOrphan;
  }

  const FIRST_START := StartEnv(false, Halts, None, None, true, BootEnv("", true, true, true))

  lemma FirstStart(path: string, dataPath: string, c: Config)
    requires IsValid(c) && c.subscriptionUrl == ""
    ensures var r := BeginStart(Initial(map[path := c]).state, dataPath, FIRST_START.(found := Some(path)));
      && r.result == Started(1, 2)
      && r.state == State(0, None, Some(Published(0, c)), Some(1), Some(2), Some(3), path, {}, {1}, r.state.checking, Some(c), Some(c), map[path := c], 4)
  {
    hide IsValid;
  }

  /** A start followed by an import gets there. */
  lemma ImportAfterStart(k: Setting, path: string, c: Config, node: Proxy)
    requires IsValid(c) && c.subscriptionUrl == "" && ManualMerge(c, node).Placed?
    ensures var w1 := After(k, Initial(map[path := c]), StartNow(FIRST_START.(found := Some(path))));
            AboutToImport(After(k, w1, RequestImport(node)), 1, 2)
  {
    hide ManualMerge, IsValid, BeginStart, Inv;
    var start := StartNow(FIRST_START.(found := Some(path)));
    var w0 := Initial(map[path := c]);
    InitialInv(map[path := c]);
    FirstStart(path, k.dataPath, c);
    StepKeeps(k, w0, start);
    StepKeeps(k, After(k, w0, start), RequestImport(node));
  }
}
