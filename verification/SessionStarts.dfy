/** What a start reads, publishes, saves and launches. */
module SessionStarts {
  import opened Text
  import opened ProxyConfig
  import opened SubscriptionMatch
  import opened SubscriptionMerge
  import opened Session
  import opened SessionRuns
  import opened SessionTheorems

  /** The published configuration is c under the requested route mode. */
  ghost predicate PublishedAs(s: State, id: nat, c: Config, routeMode: string) {
    s.config == Some(Published(id, c.(routeMode := if routeMode != "" then routeMode else c.routeMode)))
  }

  /** What is left when a start has got as far as publishing c, with the files as given. */
  ghost predicate Booted(s: State, r: StartOutcome, files: map<string, Config>, c: Config, env: BootEnv) {
    && r.state.files == files && r.state.configPath == s.configPath && r.state.startup.None?
    && r.state.epoch == s.epoch && r.state.closed == s.closed
    && PublishedAs(r.state, s.next, c, env.routeMode)
    && (r.result.Started? <==> env.generated && env.binary && env.boots)
    && r.state.written == (if env.generated then Some(r.state.config.value.config) else s.written)
    && r.state.core == (if r.result.Started? then Some(r.state.config.value.config) else s.core)
    && (r.result.Started? ==>
          var m, h := r.result.manager, r.result.checker;
          && s.next < m && s.next < h && m != h && r.state.manager == Some(m) && r.state.checker == Some(h)
          && r.state.alive == s.alive + {m}
          && r.state.checking == s.checking + (if c.healthCheck.enabled then {h} else {})
          && r.state.active.Some? && r.state.active.value !in s.closed)
    && (!r.result.Started? ==>
          && r.result.NotStarted? && r.state.alive == s.alive && r.state.checking == s.checking && r.state.active == s.active
          && (r.state.manager.Some? <==> env.generated && env.binary))
  }

  lemma BootIs(s: State, c: Config, env: BootEnv)
    requires StateInv(s) && s.startup.None? && s.manager.None?
    ensures Booted(s, Boot(s, c, env), s.files, c, env)
  {
  }

  // ---- the hold after the download ----

  /** The startup is still the registered one, its feed has come and merges, and the file can be saved. */
  ghost predicate Commits(o: Oracle, s: State, session: nat, loaded: Config, feed: Option<seq<Proxy>>, saved: bool) {
    s.startup == Some(session) && feed.Some? && Merge(o, loaded, feed.value, loaded.subscriptionUrl).Merged? && saved
  }

  /** A start that has had its download saves and publishes the merge of what it had loaded with the feed,
      or changes neither the file nor the published configuration; only then can it launch the core. */
  lemma FinishBothOrNeither(o: Oracle, s: State, session: nat, path: string, loaded: Config, feed: Option<seq<Proxy>>, saved: bool, env: BootEnv)
    requires StateInv(s)
    ensures var r := FinishStart(s, session, path, StartupMerge(o, loaded, feed), saved, env);
      if Commits(o, s, session, loaded, feed, saved) then
        var next := Merge(o, loaded, feed.value, loaded.subscriptionUrl).next;
        Booted(s, r, s.files[path := next], next, env)
      else
        r.result.NotStarted? && r.state == s.(startup := if s.startup == Some(session) then None else s.startup)
  {
    hide Merge, Boot, Booted, StateInv;
    if Commits(o, s, session, loaded, feed, saved) {
      var next := Merge(o, loaded, feed.value, loaded.subscriptionUrl).next;
      var t := s.(startup := None, files := s.files[path := next]);
      assert StateInv(t) && t.manager.None? by { Unregistered(s, path, next); }
      BootIs(t, next, env);
      BootedFrom(s, t, Boot(t, next, env), next, env);
    }
  }

  lemma Unregistered(s: State, path: string, next: Config)
    requires StateInv(s) && s.startup.Some?
    ensures StateInv(s.(startup := None, files := s.files[path := next])) && s.manager.None?
  {
  }

  lemma BootedFrom(s: State, t: State, r: StartOutcome, c: Config, env: BootEnv)
    requires Booted(t, r, t.files, c, env) && t == s.(startup := t.startup, files := t.files)
    ensures Booted(s, r, t.files, c, env)
  {
  }

  // ---- the first hold ----

  /** Where a start reads its configuration: the file found, or the placeholder it has copied. */
  ghost function Source(dataPath: string, env: StartEnv): Option<string> {
    if env.found.Some? then env.found else if env.placeholder.Some? then Some(dataPath) else None
  }

  ghost function FilesRead(s: State, dataPath: string, env: StartEnv): map<string, Config> {
    if env.found.None? && env.placeholder.Some? then s.files[dataPath := env.placeholder.value] else s.files
  }

  /** The configuration a start finds, if it can be read and is valid. */
  ghost function Loads(s: State, dataPath: string, env: StartEnv): Option<Config> {
    var source, files := Source(dataPath, env), FilesRead(s, dataPath, env);
    if source.Some? && env.readable && source.value in files && IsValid(files[source.value]) then Some(files[source.value]) else None
  }

  /** Nothing of the previous session is left. */
  ghost predicate Vacated(s: State, t: State) {
    && t.manager.None? && t.checker.None? && t.active.None? && t.checking == {}
    && t.alive == (if s.manager.Some? then s.alive - {s.manager.value} else s.alive)
    && t.closed == (if s.active.Some? then s.closed + {s.active.value} else s.closed)
  }

  lemma DisposedVacates(s: State, halt: Halt)
    requires StateInv(s) && s.startup.None? && (s.manager.None? || halt.Halts?)
    ensures var t := Disposed(s, halt);
      && Vacated(s, t) && t.config.None? && StateInv(t)
      && t == s.(manager := None, checker := None, config := None, active := None, alive := t.alive, closed := t.closed, checking := {})
  {
    assert s.checking - (if s.checker.Some? then {s.checker.value} else {}) == {};
  }

  /** The state from which a start loads: the old session is gone, the placeholder is copied. */
  ghost function Ready(s: State, dataPath: string, env: StartEnv): State
    requires Source(dataPath, env).Some?
  {
    Located(Disposed(s, env.halt), dataPath, env)
  }

  lemma ReadyIs(s: State, dataPath: string, env: StartEnv)
    requires StateInv(s) && s.startup.None? && (s.manager.None? || env.halt.Halts?) && Source(dataPath, env).Some?
    ensures var t := Ready(s, dataPath, env);
      && StateInv(t) && Vacated(s, t) && t.config.None? && t.startup.None? && t.next == s.next && t.epoch == s.epoch
      && Source(dataPath, env) == Some(t.configPath) && t.files == FilesRead(s, dataPath, env)
  {
    DisposedVacates(s, env.halt);
    hide Disposed;
  }

  /** The first hold of a start: refused while one is under way or the core is ready; stuck on a manager
      that cannot be stopped; and otherwise the old session is gone, and the configuration found is
      registered for the download of its subscription or, without one, published and launched. */
  lemma BeginStartIs(s: State, dataPath: string, env: StartEnv)
    requires StateInv(s)
    ensures var r := BeginStart(s, dataPath, env);
      if s.startup.Some? || IsReady(s, env.ready) then r == StartOutcome(s, NotStarted)
      else if s.manager.Some? && env.halt.HaltFails? then
        r.result.NotStarted? && r.state == s.(active := None, closed := r.state.closed, checking := r.state.checking)
      else if Loads(s, dataPath, env).None? then
        && r.result.NotStarted? && Vacated(s, r.state) && r.state.config.None? && r.state.startup.None?
        && r.state.files == FilesRead(s, dataPath, env)
      else
        var c := Loads(s, dataPath, env).value;
        if c.subscriptionUrl != "" then
          && r.result.Registered? && r.result.loaded.config == c && Source(dataPath, env) == Some(r.result.path)
          && Vacated(s, r.state) && r.state.config == Some(r.result.loaded) && s.next <= r.result.loaded.id
          && r.state.startup == Some(r.result.session) && s.next <= r.result.session
          && r.state.configPath == r.result.path && r.state.files == FilesRead(s, dataPath, env) && r.state.epoch == s.epoch
        else Booted(Ready(s, dataPath, env), r, FilesRead(s, dataPath, env), c, env.boot)
  {
    if s.startup.None? && !IsReady(s, env.ready) && (s.manager.None? || env.halt.Halts?) {
      DisposedVacates(s, env.halt);
      if Source(dataPath, env).Some? {
        ReadyIs(s, dataPath, env);
        LoadIs(s, dataPath, env);
      }
      hide LoadAndGo, Located, Disposed, Vacated, StateInv, Booted;
    }
  }

  lemma StartedIs(s: State, dataPath: string, env: StartEnv)
    requires StateInv(s)
    ensures var r := BeginStart(s, dataPath, env);
      && (r.result.Registered? ==>
            && r.state.startup == Some(r.result.session) && r.state.config == Some(r.result.loaded) && r.state.configPath == r.result.path
            && r.result.path in r.state.files && r.state.files[r.result.path] == r.result.loaded.config
            && IsValid(r.result.loaded.config) && r.result.loaded.config.subscriptionUrl != ""
            && r.state.manager.None? && r.state.active.None?)
      && (r.result.Started? ==>
            && r.state.manager == Some(r.result.manager) && r.state.checker == Some(r.result.checker) && r.result.manager in r.state.alive
            && r.state.active.Some? && r.state.config.Some?
            && r.state.configPath in r.state.files && r.state.files[r.state.configPath].subscriptionUrl == ""
            && PublishedAs(r.state, r.state.config.value.id, r.state.files[r.state.configPath], env.boot.routeMode))
  {
    BeginStartIs(s, dataPath, env);
    if s.startup.None? && (s.manager.None? || env.halt.Halts?) && Source(dataPath, env).Some? { ReadyIs(s, dataPath, env); }
    hide BeginStart, StateInv, IsValid, Ready;
  }

  lemma LoadIs(s: State, dataPath: string, env: StartEnv)
    requires StateInv(s) && s.startup.None? && (s.manager.None? || env.halt.Halts?) && Source(dataPath, env).Some?
    ensures var r := LoadAndGo(Ready(s, dataPath, env), env);
      if Loads(s, dataPath, env).None? then
        && r.result.NotStarted? && Vacated(s, r.state) && r.state.config.None? && r.state.startup.None?
        && r.state.files == FilesRead(s, dataPath, env)
      else
        var c := Loads(s, dataPath, env).value;
        if c.subscriptionUrl != "" then
          && r.result.Registered? && r.result.loaded.config == c && Source(dataPath, env) == Some(r.result.path)
          && Vacated(s, r.state) && r.state.config == Some(r.result.loaded) && s.next <= r.result.loaded.id
          && r.state.startup == Some(r.result.session) && s.next <= r.result.session
          && r.state.configPath == r.result.path && r.state.files == FilesRead(s, dataPath, env) && r.state.epoch == s.epoch
        else Booted(Ready(s, dataPath, env), r, FilesRead(s, dataPath, env), c, env.boot)
  {
    hide Boot, Booted, IsValid, StateInv;
    ReadyIs(s, dataPath, env);
    var t := Ready(s, dataPath, env);
    if Loads(s, dataPath, env).Some? && Loads(s, dataPath, env).value.subscriptionUrl == "" {
      BootIs(t, Loads(s, dataPath, env).value, env.boot);
    }
  }

  // ---- whole runs ----

  /** While a startup is registered, memory and file agree on the configuration it has loaded, and its
      download remembers both. */
  ghost predicate StartupHolds(w: World) {
    w.state.startup.Some? ==>
      && w.state.config.Some? && w.state.configPath in w.state.files
      && w.state.files[w.state.configPath] == w.state.config.value.config
      && w.state.config.value.config.subscriptionUrl != ""
      && forall i :: 0 <= i < |w.threads| && w.threads[i].Download? && w.threads[i].startup == w.state.startup.value ==>
           w.threads[i].path == w.state.configPath && w.threads[i].loaded == w.state.config.value
  }

  /** A step that leaves the startup, its configuration and the downloads alone. */
  ghost predicate LeavesStartup(w: World, w': World) {
    && w'.state.config == w.state.config && w'.state.configPath == w.state.configPath && w'.state.files == w.state.files
    && w'.state.startup == w.state.startup
    && forall i :: 0 <= i < |w'.threads| && w'.threads[i].Download? ==> i < |w.threads| && w'.threads[i] == w.threads[i]
  }

  lemma LeftHolds(w: World, w': World)
    requires StartupHolds(w) && LeavesStartup(w, w')
    ensures StartupHolds(w')
  {
  }

  /** Downloads of a world are older than what is registered next. */
  lemma DownloadsOlder(w: World, i: nat)
    requires Inv(w) && i < |w.threads| && w.threads[i].Download?
    ensures w.threads[i].startup < w.state.next
  {
    assert ThreadInv(w.state, w.threads[i]);
  }

  ghost predicate OldDownloads(w: World, threads: seq<Thread>) {
    forall i :: 0 <= i < |threads| && threads[i].Download? ==> i < |w.threads| && threads[i] == w.threads[i]
  }

  /** The only new download is the one registered. */
  ghost predicate Joins(w: World, r: StartOutcome, threads: seq<Thread>) {
    if r.result.Registered? then
      forall i :: 0 <= i < |threads| && threads[i].Download? ==>
        (i < |w.threads| && threads[i] == w.threads[i])
        || threads[i] == Download(r.state.epoch, r.result.session, r.result.path, r.result.loaded)
    else OldDownloads(w, threads)
  }

  lemma LaunchJoins(w: World, r: StartOutcome)
    ensures Launch(w, r).state == r.state && Joins(w, r, Launch(w, r).threads)
  {
  }

  lemma LaunchAtJoins(w: World, i: nat, r: StartOutcome)
    requires i < |w.threads|
    ensures LaunchAt(w, i, r).state == r.state && Joins(w, r, LaunchAt(w, i, r).threads)
  {
  }

  /** A start call that has the lock: s is what it found, which is the world's state or, in a restart, what
      the stop has left. */
  lemma StartHolds(w: World, s: State, dataPath: string, env: StartEnv, w': World)
    requires Inv(w) && StateInv(s) && w.state.next <= s.next && (s == w.state || s.startup.None?) && StartupHolds(w)
    requires w'.state == BeginStart(s, dataPath, env).state && Joins(w, BeginStart(s, dataPath, env), w'.threads)
    ensures StartupHolds(w')
  {
    var r := BeginStart(s, dataPath, env);
    BeginStartIs(s, dataPath, env);
    hide BeginStart, StateInv, Vacated, Booted, IsValid;
    if r.result.Registered? {
      RegisteredHolds(w, r, w');
    } else {
      NotRegisteredNone(s, dataPath, env);
      if s.startup.Some? {
        LeftHolds(w, w') by { hide Inv; }
      }
    }
  }

  lemma NotRegisteredNone(s: State, dataPath: string, env: StartEnv)
    requires StateInv(s) && !BeginStart(s, dataPath, env).result.Registered?
    ensures var r := BeginStart(s, dataPath, env);
            if s.startup.Some? then r.state == s else r.state.startup.None?
  {
    BeginStartIs(s, dataPath, env);
    hide BeginStart, StateInv, Vacated, IsValid;
  }

  lemma RegisteredHolds(w: World, r: StartOutcome, w': World)
    requires Inv(w) && r.result.Registered? && w'.state == r.state && Joins(w, r, w'.threads)
    requires r.state.startup == Some(r.result.session) && w.state.next <= r.result.session
    requires r.state.config == Some(r.result.loaded) && r.state.configPath == r.result.path
    requires r.result.path in r.state.files && r.state.files[r.result.path] == r.result.loaded.config
    requires r.result.loaded.config.subscriptionUrl != ""
    ensures StartupHolds(w')
  {
    hide Inv;
    forall i | 0 <= i < |w'.threads| && w'.threads[i].Download? && w'.threads[i].startup == r.result.session
      ensures w'.threads[i].path == r.result.path && w'.threads[i].loaded == r.result.loaded
    {
      if i < |w.threads| && w'.threads[i] == w.threads[i] { DownloadsOlder(w, i); }
    }
  }

  lemma StepHolds(k: Setting, w: World, step: Step)
    requires Inv(w) && Can(w, step) && StartupHolds(w)
    ensures StartupHolds(After(k, w, step))
  {
    hide StateInv, ThreadsInv, QueueInv, StartupHolds, BeginStart, FinishStart, FinishUpdate, FinishImport, StartupMerge, Inv;
    match step {
      case StartQueued(i, env) => StartQueuedHolds(k, w, step);
      case StartNow(env) =>
        LaunchJoins(w, BeginStart(w.state, k.dataPath, env));
        StateOf(w);
        StartHolds(w, w.state, k.dataPath, env, After(k, w, step));
      case Downloaded(i, feed, saved, env) => DownloadedHolds(k, w, step);
      case Stop(halt) => StopHolds(w, halt);
      case Restart(halt, env) => RestartHolds(k, w, step);
      case Fetched(i, feed, env) => ChangeHolds(k, w, step);
      case Imported(i, env) => ChangeHolds(k, w, step);
      case WatchEnds(i) => WatchHolds(k, w, step);
      case _ => OtherHolds(k, w, step);
    }
  }

  lemma StateOf(w: World)
    requires Inv(w)
    ensures StateInv(w.state)
  {
  }

  lemma StartQueuedHolds(k: Setting, w: World, step: Step)
    requires Inv(w) && Can(w, step) && StartupHolds(w) && step.StartQueued?
    ensures StartupHolds(After(k, w, step))
  {
    hide StateInv, ThreadsInv, QueueInv, BeginStart, StartupHolds;
    StateOf(w);
    hide Inv;
    var i := step.thread;
    LaunchAtJoins(w, i, StartAtEpoch(w.state, w.threads[i].epoch, k.dataPath, step.start));
    if w.threads[i].epoch == w.state.epoch {
      StartHolds(w, w.state, k.dataPath, step.start, After(k, w, step));
    } else {
      LeftHolds(w, After(k, w, step));
    }
  }

  lemma RestartHolds(k: Setting, w: World, step: Step)
    requires Inv(w) && Can(w, step) && StartupHolds(w) && step.Restart?
    ensures StartupHolds(After(k, w, step))
  {
    hide StateInv, ThreadsInv, QueueInv, BeginStart, StartupHolds, StopProxy;
    StateOf(w);
    hide Inv;
    LaunchJoins(w, RestartProxy(w.state, k.dataPath, step.halt, step.start));
    if w.state.startup.Some? || w.state.manager.None? {
      LeftHolds(w, After(k, w, step));
    } else {
      StopKeeps(w.state, step.halt);
      StopBelow(w.state, step.halt);
      var stopped := StopProxy(w.state, step.halt);
      if stopped.ok {
        StartHolds(w, stopped.state, k.dataPath, step.start, After(k, w, step));
      } else {
        NoStartupHolds(After(k, w, step));
      }
    }
  }

  lemma StopBelow(s: State, halt: Halt)
    ensures StopProxy(s, halt).state.next == s.next && StopProxy(s, halt).state.startup.None?
  {
  }

  lemma NoStartupHolds(w: World)
    requires w.state.startup.None?
    ensures StartupHolds(w)
  {
  }

  lemma StopHolds(w: World, halt: Halt)
    ensures StartupHolds(w.(state := StopProxy(w.state, halt).state))
  {
    StopBelow(w.state, halt);
  }

  lemma DownloadedHolds(k: Setting, w: World, step: Step)
    requires Inv(w) && Can(w, step) && StartupHolds(w) && step.Downloaded?
    ensures StartupHolds(After(k, w, step))
  {
    hide ThreadsInv, QueueInv, StartupHolds, StateInv, Booted, FinishStart, StartupMerge, Commits;
    StateOf(w);
    hide Inv;
    var t := w.threads[step.thread];
    var r := FinishStart(w.state, t.startup, t.path, StartupMerge(k.oracle, t.loaded.config, step.feed), step.saved, step.boot);
    FinishBothOrNeither(k.oracle, w.state, t.startup, t.path, t.loaded.config, step.feed, step.saved, step.boot);
    FinishedStartup(k.oracle, w.state, t.startup, t.path, t.loaded.config, step.feed, step.saved, step.boot);
    LaunchAtJoins(w, step.thread, r);
    if w.state.startup == Some(t.startup) {
      NoStartupHolds(After(k, w, step));
    } else {
      LeftHolds(w, After(k, w, step));
    }
  }

  lemma FinishedStartup(o: Oracle, s: State, session: nat, path: string, loaded: Config, feed: Option<seq<Proxy>>, saved: bool, env: BootEnv)
    ensures var r := FinishStart(s, session, path, StartupMerge(o, loaded, feed), saved, env);
            !r.result.Registered? && (if s.startup == Some(session) then r.state.startup.None? else r.state == s)
  {
    hide Merge;
  }

  lemma ChangeHolds(k: Setting, w: World, step: Step)
    requires Inv(w) && Can(w, step) && StartupHolds(w) && (step.Fetched? || step.Imported?)
    ensures StartupHolds(After(k, w, step))
  {
    if step.Fetched? { FetchedKeeps(k, w, step); } else { ImportedKeeps(k, w, step); }
    var w' := After(k, w, step);
    assert Updates(w.state, w'.state);
    if w.state.startup.Some? {
      assert OldDownloads(w, w'.threads) by { hide FinishUpdate, FinishImport, Inv, StartupHolds; }
      hide After, Inv, StartupHolds;
      LeftHolds(w, w');
    }
  }

  lemma WatchHolds(k: Setting, w: World, step: Step)
    requires Inv(w) && Can(w, step) && StartupHolds(w) && step.WatchEnds?
    ensures StartupHolds(After(k, w, step))
  {
    hide ThreadsInv, QueueInv;
    if w.state.startup.Some? { LeftHolds(w, After(k, w, step)); }
  }

  lemma OtherHolds(k: Setting, w: World, step: Step)
    requires Inv(w) && Can(w, step) && StartupHolds(w)
    requires step.Dispatch? || step.RequestUpdate? || step.RequestConfigured? || step.Dequeue? || step.RequestImport? || step.Ends? || step.Take?
    ensures StartupHolds(After(k, w, step))
  {
    hide Inv;
    LeftHolds(w, After(k, w, step)) by { hide StartupHolds; }
  }

  lemma {:induction false} HoldsAlways(k: Setting, ws: seq<World>, steps: seq<Step>, i: nat)
    requires IsRun(k, ws, steps) && Inv(ws[0]) && StartupHolds(ws[0]) && i <= |steps|
    ensures StartupHolds(ws[i])
  {
    hide After, Inv, Can, StartupHolds;
    if i > 0 {
      HoldsAlways(k, ws, steps, i - 1);
      InvAlways(k, ws, steps, i - 1);
      assert Can(ws[i - 1], steps[i - 1]) && ws[i - 1 + 1] == After(k, ws[i - 1], steps[i - 1]);
      StepHolds(k, ws[i - 1], steps[i - 1]);
    }
  }

  /** In every run: a start whose download is in either is no longer registered and changes nothing; or
      config.json still holds what it has loaded, which is also the configuration in force, and then the
      merge of that with the feed is saved there and published - or, when the download, the merge or the
      save fails, file and configuration stay as they are. */
  lemma StartupMergesItsFile(k: Setting, files: map<string, Config>, ws: seq<World>, steps: seq<Step>, b: nat)
    requires IsRun(k, ws, steps) && ws[0] == Initial(files) && b < |steps| && steps[b].Downloaded?
    ensures var s, s', step := ws[b].state, ws[b + 1].state, steps[b];
      step.thread < |ws[b].threads| && ws[b].threads[step.thread].Download? &&
      var t := ws[b].threads[step.thread];
      if s.startup != Some(t.startup) then s' == s
      else
        && s.config.Some? && t.path in s.files && s.files[t.path] == s.config.value.config && s'.startup.None?
        && var c := s.config.value.config;
           if step.feed.Some? && Merge(k.oracle, c, step.feed.value, c.subscriptionUrl).Merged? && step.saved then
             var next := Merge(k.oracle, c, step.feed.value, c.subscriptionUrl).next;
             s'.files == s.files[t.path := next] && PublishedAs(s', s.next, next, step.boot.routeMode)
           else s'.files == s.files && s'.config == s.config && s'.manager == s.manager && s'.alive == s.alive
  {
    InitialInv(files);
    assert StartupHolds(ws[0]);
    HoldsAlways(k, ws, steps, b);
    InvAlways(k, ws, steps, b);
    assert Can(ws[b], steps[b]) && ws[b + 1] == After(k, ws[b], steps[b]);
    DownloadedIs(k, ws[b], steps[b]);
    hide Inv, After, Merge;
  }

  lemma DownloadedIs(k: Setting, w: World, step: Step)
    requires Inv(w) && Can(w, step) && step.Downloaded?
    ensures var s, s', t := w.state, After(k, w, step).state, w.threads[step.thread];
      if Commits(k.oracle, s, t.startup, t.loaded.config, step.feed, step.saved) then
        var next := Merge(k.oracle, t.loaded.config, step.feed.value, t.loaded.config.subscriptionUrl).next;
        s'.files == s.files[t.path := next] && PublishedAs(s', s.next, next, step.boot.routeMode) && s'.startup.None?
      else s' == s.(startup := if s.startup == Some(t.startup) then None else s.startup)
  {
    hide ThreadsInv, QueueInv, StateInv, FinishStart, StartupMerge, Merge, PublishedAs;
    StateOf(w);
    hide Inv;
    var t := w.threads[step.thread];
    var r := FinishStart(w.state, t.startup, t.path, StartupMerge(k.oracle, t.loaded.config, step.feed), step.saved, step.boot);
    FinishBothOrNeither(k.oracle, w.state, t.startup, t.path, t.loaded.config, step.feed, step.saved, step.boot);
    LaunchAtJoins(w, step.thread, r);
  }

  // ---- the queue ----

  /** An update that must not change the source asks for the URL of the configuration it remembers. */
  ghost predicate AsksForItsUrl(t: Thread) {
    t.Queued? && !t.allow ==> t.url == t.current.config.subscriptionUrl
  }

  lemma QueuedFrom(k: Setting, w: World, step: Step, i: nat)
    requires Can(w, step) && i < |After(k, w, step).threads| && (forall j :: 0 <= j < |w.threads| ==> AsksForItsUrl(w.threads[j]))
    ensures AsksForItsUrl(After(k, w, step).threads[i])
  {
    hide BeginStart, StartAtEpoch, FinishStart, StartupMerge, FinishUpdate, FinishImport, RestartProxy, StopProxy, Watch, SameSession;
  }

  lemma {:induction false} AllAskForTheirUrl(k: Setting, ws: seq<World>, steps: seq<Step>, b: nat, i: nat)
    requires IsRun(k, ws, steps) && ws[0].threads == [] && b <= |steps| && i < |ws[b].threads|
    ensures AsksForItsUrl(ws[b].threads[i])
    decreases b
  {
    hide After, Can, AsksForItsUrl;
    if b > 0 {
      assert Can(ws[b - 1], steps[b - 1]) && ws[b - 1 + 1] == After(k, ws[b - 1], steps[b - 1]);
      var w := ws[b - 1];
      forall j | 0 <= j < |w.threads| ensures AsksForItsUrl(w.threads[j]) {
        AllAskForTheirUrl(k, ws, steps, b - 1, j);
      }
      QueuedFrom(k, w, steps[b - 1], i);
    }
  }

  /** In every run: an update whose turn has come goes on to its download exactly when the configuration
      and session it remembers are in force; the second check, of the URL, never stops one. */
  lemma DequeueIff(k: Setting, files: map<string, Config>, ws: seq<World>, steps: seq<Step>, b: nat)
    requires IsRun(k, ws, steps) && ws[0] == Initial(files) && b < |steps| && steps[b].Dequeue?
    ensures steps[b].thread < |ws[b].threads| && ws[b].threads[steps[b].thread].Queued?
    ensures var t, w' := ws[b].threads[steps[b].thread], ws[b + 1];
      && |w'.threads| == |ws[b].threads|
      && w'.threads[steps[b].thread] == (if SameSession(ws[b].state, t.current, t.session) then Fetching(t.current, t.session, t.url) else Over)
      && (w'.queue == Some(steps[b].thread) <==> SameSession(ws[b].state, t.current, t.session))
      && w'.state == ws[b].state
  {
    assert Can(ws[b], steps[b]) && ws[b + 1] == After(k, ws[b], steps[b]);
    AllAskForTheirUrl(k, ws, steps, b, steps[b].thread);
  }

  /** In every run: from a Stop on, however sessions follow, a tick of the updater that ran before it asks
      for nothing any more. */
  lemma StoppedTicksAreSilent(k: Setting, ws: seq<World>, steps: seq<Step>, a: nat, b: nat, u: nat)
    requires IsRun(k, ws, steps) && Inv(ws[0]) && a < b < |steps|
    requires steps[a].Stop? && ws[a].state.active == Some(u) && steps[b] == RequestConfigured(Some(u))
    ensures ws[b + 1] == ws[b]
  {
    assert Can(ws[a], steps[a]) && ws[a + 1] == After(k, ws[a], steps[a]);
    StopCloses(ws[a].state, steps[a].halt);
    ClosedStays(k, ws, steps, a + 1, b);
    assert Can(ws[b], steps[b]) && ws[b + 1] == After(k, ws[b], steps[b]);
    hide Inv;
  }

  lemma StopCloses(s: State, halt: Halt)
    ensures s.active.Some? ==> s.active.value in StopProxy(s, halt).state.closed
  {
  }

  lemma {:induction false} ClosedStays(k: Setting, ws: seq<World>, steps: seq<Step>, a: nat, b: nat)
    requires IsRun(k, ws, steps) && Inv(ws[0]) && a <= b <= |steps|
    ensures ws[a].state.closed <= ws[b].state.closed
    decreases b
  {
    hide Inv, After, Can;
    if a < b {
      ClosedStays(k, ws, steps, a, b - 1);
      InvAlways(k, ws, steps, b - 1);
      assert Can(ws[b - 1], steps[b - 1]) && ws[b - 1 + 1] == After(k, ws[b - 1], steps[b - 1]);
      StepKeeps(k, ws[b - 1], steps[b - 1]);
    }
  }

  /** An import that still finds what it remembers in force never does so during a startup. */
  lemma ImportOutsideStartup(w: World, i: nat)
    requires Inv(w) && i < |w.threads| && w.threads[i].Importing? && w.threads[i].held.Some?
    requires SameSession(w.state, w.threads[i].held.value, w.threads[i].session)
    ensures w.state.startup.None? && w.state.config == w.threads[i].held
  {
    assert ThreadInv(w.state, w.threads[i]);
  }
}
