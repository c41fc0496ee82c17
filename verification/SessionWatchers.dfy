/** Every core that is up has somebody waiting for its end. */
module SessionWatchers {
  import opened Text
  import opened ProxyConfig
  import opened SubscriptionMatch
  import opened SubscriptionMerge
  import opened ManualNode
  import opened Session
  import opened SessionRuns
  import opened SessionTheorems
  import opened SessionStarts
  import opened CoreAgreement

  /** The thread waits for the end of manager m, or has its report, on behalf of checker h. */
  predicate Watches(t: Thread, m: nat, h: nat) { t == Watching(m, h) || t == Reporting(m, h) }

  ghost predicate HasWatcher(threads: seq<Thread>, m: nat, h: nat) {
    exists i: nat :: i < |threads| && Watches(threads[i], m, h)
  }

  /** The current manager, if its core is up, is watched together with its checker. */
  ghost predicate Watched(w: World) {
    IsUp(w.state) ==> w.state.checker.Some? && HasWatcher(w.threads, w.state.manager.value, w.state.checker.value)
  }

  /** Nobody stops watching. */
  ghost predicate KeepWatching(a: seq<Thread>, b: seq<Thread>) {
    |a| <= |b| && forall i, m, h :: 0 <= i < |a| && Watches(a[i], m, h) ==> Watches(b[i], m, h)
  }

  lemma KeptWatched(w: World, w': World)
    requires Watched(w) && KeepWatching(w.threads, w'.threads)
    requires IsUp(w'.state) ==> IsUp(w.state) && w'.state.manager == w.state.manager && w'.state.checker == w.state.checker
    ensures Watched(w')
  {
    if IsUp(w'.state) {
      var m, h := w.state.manager.value, w.state.checker.value;
      var i: nat :| i < |w.threads| && Watches(w.threads[i], m, h);
      assert Watches(w'.threads[i], m, h);
    }
  }

  // ---- starts ----

  lemma LaunchWatches(w: World, r: StartOutcome)
    ensures KeepWatching(w.threads, Launch(w, r).threads) && Launch(w, r).state == r.state
    ensures r.result.Started? ==> HasWatcher(Launch(w, r).threads, r.result.manager, r.result.checker)
  {
    if r.result.Started? { assert Watches(Launch(w, r).threads[|w.threads|], r.result.manager, r.result.checker); }
  }

  lemma LaunchAtWatches(w: World, i: nat, r: StartOutcome)
    requires i < |w.threads| && (w.threads[i].StartCall? || w.threads[i].Download?)
    ensures KeepWatching(w.threads, LaunchAt(w, i, r).threads) && LaunchAt(w, i, r).state == r.state
    ensures r.result.Started? ==> HasWatcher(LaunchAt(w, i, r).threads, r.result.manager, r.result.checker)
  {
    if r.result.Started? { assert Watches(LaunchAt(w, i, r).threads[|w.threads|], r.result.manager, r.result.checker); }
  }

  /** Either the core was up before, or it has just been started. */
  ghost predicate UpBefore(s: State, r: StartOutcome) {
    IsUp(r.state) ==>
      || (IsUp(s) && r.state.manager == s.manager && r.state.checker == s.checker)
      || (r.result.Started? && r.state.manager == Some(r.result.manager) && r.state.checker == Some(r.result.checker))
  }

  lemma BeginStartUpBefore(s: State, dataPath: string, env: StartEnv)
    requires StateInv(s)
    ensures UpBefore(s, BeginStart(s, dataPath, env))
  {
    BeginStartIs(s, dataPath, env);
    if s.startup.None? && !IsReady(s, env.ready) && (s.manager.None? || env.halt.Halts?)
      && Loads(s, dataPath, env).Some? && Loads(s, dataPath, env).value.subscriptionUrl == "" {
      LaunchUp(s, dataPath, env);
    }
    hide BeginStart, StateInv, IsValid, Loads, Source, FilesRead, Ready;
  }

  lemma FinishStartUpBefore(o: Oracle, s: State, session: nat, path: string, loaded: Config, feed: Option<seq<Proxy>>, saved: bool, env: BootEnv)
    requires StateInv(s)
    ensures UpBefore(s, FinishStart(s, session, path, StartupMerge(o, loaded, feed), saved, env))
  {
    hide Merge, Boot;
    FinishBothOrNeither(o, s, session, path, loaded, feed, saved, env);
    if Commits(o, s, session, loaded, feed, saved) {
      var next := Merge(o, loaded, feed.value, loaded.subscriptionUrl).next;
      Unregistered(s, path, next);
      BootUp(s.(startup := None, files := s.files[path := next]), next, env);
    }
    hide FinishStart, StateInv, StartupMerge;
  }

  lemma StopUpBefore(s: State, halt: Halt)
    ensures var t := StopProxy(s, halt).state; IsUp(t) ==> IsUp(s) && t.manager == s.manager && t.checker == s.checker
    ensures StopProxy(s, halt).ok ==> !IsUp(StopProxy(s, halt).state)
  {
  }

  lemma RestartUpBefore(s: State, dataPath: string, halt: Halt, env: StartEnv)
    requires StateInv(s)
    ensures UpBefore(s, RestartProxy(s, dataPath, halt, env))
  {
    hide BeginStart, StateInv, StopProxy;
    if s.startup.None? && s.manager.Some? {
      StopUpBefore(s, halt);
      StopKeeps(s, halt);
      BeginStartUpBefore(StopProxy(s, halt).state, dataPath, env);
    }
  }

  lemma StartedWatched(w: World, r: StartOutcome, w': World)
    requires Watched(w) && UpBefore(w.state, r) && w'.state == r.state && KeepWatching(w.threads, w'.threads)
    requires r.result.Started? ==> HasWatcher(w'.threads, r.result.manager, r.result.checker)
    ensures Watched(w')
  {
    hide HasWatcher;
    if IsUp(r.state) && IsUp(w.state) && r.state.manager == w.state.manager && r.state.checker == w.state.checker {
      KeptWatched(w, w');
    }
  }

  // ---- the other steps ----

  lemma ChangedWatches(w: World, i: nat, r: ChangeOutcome)
    requires i < |w.threads| && (w.threads[i].Fetching? || w.threads[i].Importing?)
    ensures KeepWatching(w.threads, Changed(w, i, r).threads)
  {
  }

  lemma ChangeWatched(k: Setting, w: World, step: Step)
    requires Inv(w) && Can(w, step) && Watched(w) && (step.Fetched? || step.Imported?)
    ensures Watched(After(k, w, step))
  {
    var w' := After(k, w, step);
    assert KeepWatching(w.threads, w'.threads) by {
      hide Inv, FinishUpdate, FinishImport, KeepWatching, Changed;
      var t := w.threads[step.thread];
      if step.Fetched? {
        ChangedWatches(w, step.thread, FinishUpdate(k.oracle, w.state, k.dataPath, t.current, t.session, t.url, step.feed, step.env));
      } else {
        ChangedWatches(w, step.thread, FinishImport(w.state, k.dataPath, t.held, t.session, t.node, step.env));
      }
    }
    if step.Fetched? { FetchedKeeps(k, w, step); } else { ImportedKeeps(k, w, step); }
    ChangeDown(k, w, step);
    hide Inv, After, KeepWatching, Watched;
    KeptWatched(w, w');
  }

  lemma ChangeDown(k: Setting, w: World, step: Step)
    requires Inv(w) && Can(w, step) && (step.Fetched? || step.Imported?)
    ensures IsUp(After(k, w, step).state) ==> IsUp(w.state)
  {
    RemembersHeld(w, step.thread);
    StateAfterChange(k, w, step);
    hide Inv, After, FinishUpdate, FinishImport, Remembers;
    var t := w.threads[step.thread];
    hide Can;
    if !IsUp(w.state) {
      if step.Fetched? {
        UpdateDown(k, w.state, t.current, t.session, t.url, step.feed, step.env);
      } else if t.held.Some? {
        ImportDown(k, w.state, t.held.value, t.session, t.node, step.env);
      } else {
        NothingHeld(k, w.state, t.session, t.node, step.env);
      }
    }
  }

  lemma UpdateDown(k: Setting, s: State, current: Published, session: Option<nat>, url: string, feed: Option<seq<Proxy>>, env: UpdateEnv)
    requires Remembers(s, current) && !IsUp(s)
    ensures !IsUp(FinishUpdate(k.oracle, s, k.dataPath, current, session, url, feed, env).state)
  {
    hide Merge, Apply;
    if SameSession(s, current, session) && feed.Some? && Merge(k.oracle, current.config, feed.value, url).Merged? {
      DownStaysDown(s, k.dataPath, current, Merge(k.oracle, current.config, feed.value, url).next, env);
    }
  }

  lemma ImportDown(k: Setting, s: State, current: Published, session: Option<nat>, node: Proxy, env: UpdateEnv)
    requires Remembers(s, current) && !IsUp(s)
    ensures !IsUp(FinishImport(s, k.dataPath, Some(current), session, node, env).state)
  {
    hide ManualMerge, SaveAndApply;
    if SameSession(s, current, session) && ManualMerge(current.config, node).Placed? {
      DownStaysDown(s, k.dataPath, current, ManualMerge(current.config, node).next, env);
    }
  }

  /** A watcher that acts is not needed any more: it has cleared its manager, or that is not the current one. */
  lemma ActsWatched(k: Setting, w: World, step: Step)
    requires Can(w, step) && Watched(w) && step.WatchEnds?
    ensures Watched(After(k, w, step))
  {
    var t, w' := w.threads[step.thread], After(k, w, step);
    WatchState(w.state, t.manager, t.checker);
    if IsUp(w'.state) {
      var m, h := w.state.manager.value, w.state.checker.value;
      var i: nat :| i < |w.threads| && Watches(w.threads[i], m, h);
      assert i != step.thread;
      assert Watches(w'.threads[i], m, h);
    }
  }

  lemma QuietWatched(k: Setting, w: World, step: Step)
    requires Can(w, step) && Watched(w) && IsOther(step) && !step.WatchEnds?
    ensures Watched(After(k, w, step))
  {
    hide SameSession;
    KeptWatched(w, After(k, w, step)) by { hide Watched; }
  }

  lemma StartsWatched(k: Setting, w: World, step: Step)
    requires Inv(w) && Can(w, step) && Watched(w) && (step.StartQueued? || step.StartNow? || step.Restart? || step.Stop? || step.Downloaded?)
    ensures Watched(After(k, w, step))
  {
    StateOf(w);
    hide Inv, StateInv, Watched, BeginStart, FinishStart, StartupMerge, RestartProxy, StopProxy, Launch, LaunchAt, KeepWatching, HasWatcher, UpBefore;
    var w' := After(k, w, step);
    if step.StartQueued? {
      var r := StartAtEpoch(w.state, w.threads[step.thread].epoch, k.dataPath, step.start);
      LaunchAtWatches(w, step.thread, r);
      BeginStartUpBefore(w.state, k.dataPath, step.start);
      RefusedUpBefore(w.state);
      StartedWatched(w, r, w');
    } else if step.StartNow? {
      LaunchWatches(w, BeginStart(w.state, k.dataPath, step.start));
      BeginStartUpBefore(w.state, k.dataPath, step.start);
      StartedWatched(w, BeginStart(w.state, k.dataPath, step.start), w');
    } else if step.Restart? {
      LaunchWatches(w, RestartProxy(w.state, k.dataPath, step.halt, step.start));
      RestartUpBefore(w.state, k.dataPath, step.halt, step.start);
      StartedWatched(w, RestartProxy(w.state, k.dataPath, step.halt, step.start), w');
    } else if step.Downloaded? {
      var t := w.threads[step.thread];
      var r := FinishStart(w.state, t.startup, t.path, StartupMerge(k.oracle, t.loaded.config, step.feed), step.saved, step.boot);
      LaunchAtWatches(w, step.thread, r);
      FinishStartUpBefore(k.oracle, w.state, t.startup, t.path, t.loaded.config, step.feed, step.saved, step.boot);
      StartedWatched(w, r, w');
    } else {
      StopUpBefore(w.state, step.halt);
      SameThreads(w.threads);
      KeptWatched(w, w');
    }
  }

  lemma RefusedUpBefore(s: State)
    ensures UpBefore(s, StartOutcome(s, NotStarted))
  {
  }

  lemma SameThreads(a: seq<Thread>)
    ensures KeepWatching(a, a)
  {
  }

  lemma StepWatched(k: Setting, w: World, step: Step)
    requires Inv(w) && Can(w, step) && Watched(w)
    ensures Watched(After(k, w, step))
  {
    hide Inv, After, Can, Watched;
    if step.Fetched? || step.Imported? {
      ChangeWatched(k, w, step);
    } else if step.WatchEnds? {
      ActsWatched(k, w, step);
    } else if IsOther(step) {
      QuietWatched(k, w, step);
    } else {
      StartsWatched(k, w, step);
    }
  }

  /** In every run the current manager, while its core is up, has a watcher of its own: the end of a core
      never goes unnoticed. */
  lemma {:induction false} AlwaysWatched(k: Setting, files: map<string, Config>, ws: seq<World>, steps: seq<Step>, b: nat)
    requires IsRun(k, ws, steps) && ws[0] == Initial(files) && b <= |steps|
    ensures Watched(ws[b])
    decreases b
  {
    hide Inv, After, Can, Watched, Initial;
    InitialInv(files);
    if b == 0 {
      InitialWatched(files);
    } else {
      AlwaysWatched(k, files, ws, steps, b - 1);
      InvAlways(k, ws, steps, b - 1);
      assert Can(ws[b - 1], steps[b - 1]) && ws[b - 1 + 1] == After(k, ws[b - 1], steps[b - 1]);
      StepWatched(k, ws[b - 1], steps[b - 1]);
    }
  }

  lemma InitialWatched(files: map<string, Config>)
    ensures Watched(Initial(files))
  {
  }
}
