/** Runs of the library: holds of its lock by any number of threads, in any order. */
module SessionRuns {
  import opened Text
  import opened ProxyConfig
  import opened SubscriptionMatch
  import opened SubscriptionMerge
  import opened ManualNode
  import opened Session

  /** A call that has dropped the lock, with what it remembers. */
  datatype Thread =
    | StartCall(epoch: nat)                          // an asynchronous start that has not had the lock yet
    | Download(epoch: nat, startup: nat, path: string, loaded: Published)
    | Queued(current: Published, session: Option<nat>, url: string, allow: bool)
    | Fetching(current: Published, session: Option<nat>, url: string)
    | Importing(held: Option<Published>, session: Option<nat>, node: Proxy)
    | Watching(manager: nat, checker: nat)
    | Reporting(manager: nat, checker: nat)          // has a terminal report, waits for the lock
    | Over

  datatype World = World(state: State, reports: set<nat>, threads: seq<Thread>, queue: Option<nat>)

  datatype Step =
    | Dispatch                                       // capture the epoch and hand the start to a worker
    | StartQueued(thread: nat, start: StartEnv)
    | StartNow(start: StartEnv)
    | Downloaded(thread: nat, feed: Option<seq<Proxy>>, saved: bool, boot: BootEnv)
    | Stop(halt: Halt)
    | Restart(halt: Halt, start: StartEnv)
    | RequestUpdate(url: string)                     // an import of a subscription URL
    | RequestConfigured(stop: Option<nat>)           // a manual update, or a tick of the updater `stop`
    | Dequeue(thread: nat)
    | Fetched(thread: nat, feed: Option<seq<Proxy>>, env: UpdateEnv)
    | RequestImport(node: Proxy)
    | Imported(thread: nat, env: UpdateEnv)
    | Ends(manager: nat, reported: bool)             // a lifecycle ends
    | Take(thread: nat)                              // a watcher receives a terminal report
    | WatchEnds(thread: nat)

  datatype Setting = Setting(oracle: Oracle, dataPath: string)

  ghost predicate Can(w: World, step: Step) {
    match step
    case StartQueued(i, _) => i < |w.threads| && w.threads[i].StartCall?
    case Downloaded(i, _, _, _) => i < |w.threads| && w.threads[i].Download?
    case Dequeue(i) => i < |w.threads| && w.threads[i].Queued? && w.queue.None?
    case Fetched(i, _, _) => i < |w.threads| && w.threads[i].Fetching? && w.queue == Some(i)
    case Imported(i, _) => i < |w.threads| && w.threads[i].Importing? && w.queue.None?
    case Ends(m, _) => m < w.state.next
    case Take(i) => i < |w.threads| && w.threads[i].Watching? && w.threads[i].manager in w.reports
    case WatchEnds(i) => i < |w.threads| && w.threads[i].Reporting?
    case _ => true
  }

  /** A start call that was granted the lock: it goes on as a download, or leaves a watcher behind. */
  function Launch(w: World, r: StartOutcome): World {
    match r.result
    case NotStarted => w.(state := r.state)
    case Registered(session, loaded, path) =>
      w.(state := r.state, threads := w.threads + [Download(r.state.epoch, session, path, loaded)])
    case Started(m, h) => w.(state := r.state, threads := w.threads + [Watching(m, h)])
  }

  function LaunchAt(w: World, i: nat, r: StartOutcome): World
    requires i < |w.threads|
  {
    match r.result
    case NotStarted => w.(state := r.state, threads := w.threads[i := Over])
    case Registered(session, loaded, path) =>
      w.(state := r.state, threads := w.threads[i := Download(r.state.epoch, session, path, loaded)])
    case Started(m, h) => w.(state := r.state, threads := w.threads[i := Over] + [Watching(m, h)])
  }

  function Grabbed(t: Thread, manager: Option<nat>): Thread {
    if t.Watching? && manager == Some(t.manager) then Reporting(t.manager, t.checker) else t
  }

  /** The manager's watcher has taken the report of a lifecycle that ended during the hold. */
  function Grab(threads: seq<Thread>, manager: Option<nat>): (r: seq<Thread>)
    ensures |r| == |threads| && forall i :: 0 <= i < |threads| ==> r[i] == Grabbed(threads[i], manager)
  {
    seq(|threads|, i requires 0 <= i < |threads| => Grabbed(threads[i], manager))
  }

  function Changed(w: World, i: nat, r: ChangeOutcome): World
    requires i < |w.threads|
  {
    var threads := w.threads[i := Over];
    w.(state := r.state, threads := if r.taken then Grab(threads, w.state.manager) else threads)
  }

  /** The first hold of an update. */
  function BeginUpdate(w: World, url: string, allow: bool): World {
    if w.state.startup.Some? || w.state.config.None? then w
    else w.(threads := w.threads + [Queued(w.state.config.value, w.state.active, url, allow)])
  }

  ghost function After(k: Setting, w: World, step: Step): World
    requires Can(w, step)
  {
    var s := w.state;
    match step
    case Dispatch => w.(threads := w.threads + [StartCall(s.epoch)])
    case StartQueued(i, env) => LaunchAt(w, i, StartAtEpoch(s, w.threads[i].epoch, k.dataPath, env))
    case StartNow(env) => Launch(w, BeginStart(s, k.dataPath, env))
    case Downloaded(i, feed, saved, env) =>
      var t := w.threads[i];
      LaunchAt(w, i, FinishStart(s, t.startup, t.path, StartupMerge(k.oracle, t.loaded.config, feed), saved, env))
    case Stop(halt) => w.(state := StopProxy(s, halt).state)
    case Restart(halt, env) => Launch(w, RestartProxy(s, k.dataPath, halt, env))
    case RequestUpdate(url) => BeginUpdate(w, url, true)
    case RequestConfigured(stop) =>
      if (stop.Some? && stop.value in s.closed) || s.config.None? || s.config.value.config.subscriptionUrl == "" then w
      else BeginUpdate(w, s.config.value.config.subscriptionUrl, false)
    case Dequeue(i) =>
      var t := w.threads[i];
      if !SameSession(s, t.current, t.session) || (!t.allow && t.current.config.subscriptionUrl != t.url)
      then w.(threads := w.threads[i := Over])
      else w.(threads := w.threads[i := Fetching(t.current, t.session, t.url)], queue := Some(i))
    case Fetched(i, feed, env) =>
      var t := w.threads[i];
      Changed(w, i, FinishUpdate(k.oracle, s, k.dataPath, t.current, t.session, t.url, feed, env)).(queue := None)
    case RequestImport(node) =>
      if s.startup.Some? then w else w.(threads := w.threads + [Importing(s.config, s.active, node)])
    case Imported(i, env) =>
      var t := w.threads[i];
      Changed(w, i, FinishImport(s, k.dataPath, t.held, t.session, t.node, env))
    case Ends(m, reported) =>
      w.(state := s.(alive := s.alive - {m}), reports := if reported then w.reports + {m} else w.reports)
    case Take(i) =>
      var t := w.threads[i];
      w.(reports := w.reports - {t.manager}, threads := w.threads[i := Reporting(t.manager, t.checker)])
    case WatchEnds(i) =>
      var t := w.threads[i];
      w.(state := Watch(s, t.manager, t.checker), threads := w.threads[i := Over])
  }

  ghost predicate IsRun(k: Setting, ws: seq<World>, steps: seq<Step>) {
    && |ws| == |steps| + 1
    && forall i :: 0 <= i < |steps| ==> Can(ws[i], steps[i]) && ws[i + 1] == After(k, ws[i], steps[i])
  }

  // ---- what every step keeps ----

  predicate Below(x: Option<nat>, n: nat) { x.None? || x.value < n }

  ghost predicate AllBelow(x: set<nat>, n: nat) { forall i :: i in x ==> i < n }

  ghost predicate StateInv(s: State) {
    && Below(s.startup, s.next) && Below(s.manager, s.next) && Below(s.checker, s.next) && Below(s.active, s.next)
    && AllBelow(s.closed, s.next) && AllBelow(s.alive, s.next)
    && (s.config.Some? ==> s.config.value.id < s.next)
    && (s.active.Some? ==> s.active.value !in s.closed)
    && (s.startup.Some? ==> s.manager.None? && s.checker.None? && s.active.None? && s.config.Some?)
    && (forall h :: h in s.checking ==> s.checker == Some(h))
  }

  ghost predicate Remembers(s: State, current: Published) {
    && current.id < s.next
    && (s.config.Some? && s.config.value.id == current.id ==> s.config.value == current && s.startup.None?)
  }

  ghost predicate ThreadInv(s: State, t: Thread) {
    match t
    case StartCall(epoch) => epoch <= s.epoch
    case Download(epoch, session, _, loaded) =>
      epoch <= s.epoch && session < s.next && (s.startup == Some(session) ==> epoch == s.epoch && s.config == Some(loaded))
    case Queued(current, _, _, _) => Remembers(s, current)
    case Fetching(current, _, _) => Remembers(s, current)
    case Importing(held, _, _) => held.Some? ==> Remembers(s, held.value)
    case Watching(m, h) => m < s.next && h < s.next
    case Reporting(m, h) => m < s.next && h < s.next
    case Over => true
  }

  ghost predicate ThreadsInv(s: State, threads: seq<Thread>) {
    forall i :: 0 <= i < |threads| ==> ThreadInv(s, threads[i])
  }

  /** One download at a time, and its thread holds the queue. */
  ghost predicate QueueInv(w: World) {
    && (w.queue.Some? ==> w.queue.value < |w.threads|)
    && forall i :: 0 <= i < |w.threads| ==> (w.threads[i].Fetching? <==> w.queue == Some(i))
  }

  ghost predicate Inv(w: World) {
    StateInv(w.state) && ThreadsInv(w.state, w.threads) && QueueInv(w)
  }

  /** How the globals may develop from one hold to the next. */
  ghost predicate Evolves(s: State, t: State) {
    && s.next <= t.next && s.epoch <= t.epoch
    && (t.config == s.config || t.config.None? || s.next <= t.config.value.id)
    && (t.startup == s.startup || t.startup.None? || (s.next <= t.startup.value && t.config.Some? && s.next <= t.config.value.id))
    && (t.startup.Some? && t.startup == s.startup ==> t.config == s.config && t.epoch == s.epoch)
    && s.closed <= t.closed
  }

  /** At most the running updater's stop channel is closed, and it was open. */
  ghost predicate ClosesOnce(s: State, t: State) {
    t.closed == s.closed || (s.active.Some? && s.active.value !in s.closed && t.closed == s.closed + {s.active.value})
  }

  lemma ThreadKept(s: State, s': State, t: Thread)
    requires ThreadInv(s, t) && Evolves(s, s')
    ensures ThreadInv(s', t)
  {
  }

  lemma ThreadsKept(s: State, s': State, threads: seq<Thread>)
    requires ThreadsInv(s, threads) && Evolves(s, s')
    ensures ThreadsInv(s', threads)
  {
    hide ThreadInv, Evolves;
    forall i | 0 <= i < |threads| ensures ThreadInv(s', threads[i]) {
      ThreadKept(s, s', threads[i]);
    }
  }

  // ---- one hold at a time ----

  lemma BootKeeps(s: State, c: Config, env: BootEnv)
    requires StateInv(s) && s.startup.None? && s.manager.None? && s.checking == {}
    ensures var r := Boot(s, c, env);
      && StateInv(r.state) && s.next <= r.state.next && r.state.epoch == s.epoch && r.state.startup.None?
      && r.state.config.Some? && s.next <= r.state.config.value.id && r.state.closed == s.closed
      && !r.result.Registered?
      && (r.result.Started? ==> ThreadInv(r.state, Watching(r.result.manager, r.result.checker)))
  {
  }

  /** What a start call leaves behind is a proper thread. */
  ghost predicate LaunchInv(r: StartOutcome) {
    match r.result
    case NotStarted => true
    case Registered(session, loaded, path) => ThreadInv(r.state, Download(r.state.epoch, session, path, loaded))
    case Started(m, h) => ThreadInv(r.state, Watching(m, h))
  }

  /** A state from which the core may be launched, as far as the globals go. */
  ghost predicate Idle(s: State) {
    StateInv(s) && s.startup.None? && s.manager.None? && s.checking == {} && s.active.None?
  }

  lemma DisposedIdle(s: State, halt: Halt)
    requires StateInv(s) && s.startup.None?
    ensures var r := Disposed(s, halt);
            Idle(r) && Evolves(s, r) && ClosesOnce(s, r) && r.epoch == s.epoch && r.checker.None? && r.config.None?
  {
  }

  lemma LoadAndGoKeeps(s: State, env: StartEnv)
    requires Idle(s) && s.checker.None?
    ensures var r := LoadAndGo(s, env);
            StateInv(r.state) && Evolves(s, r.state) && r.state.closed == s.closed && LaunchInv(r) && r.state.epoch == s.epoch
  {
    hide Boot, IsValid;
    if s.configPath in s.files { BootKeeps(s, s.files[s.configPath], env.boot); }
  }

  lemma EvolvesTwice(s: State, t: State, u: State)
    requires Evolves(s, t) && Evolves(t, u) && StateInv(s)
    ensures Evolves(s, u)
  {
  }

  lemma BeginStartKeeps(s: State, dataPath: string, env: StartEnv)
    requires StateInv(s)
    ensures var r := BeginStart(s, dataPath, env);
            StateInv(r.state) && Evolves(s, r.state) && ClosesOnce(s, r.state) && LaunchInv(r) && r.state.epoch == s.epoch
  {
    hide LoadAndGo, StopManager;
    if s.startup.None? {
      hide Disposed, StateInv, Evolves, LaunchInv;
      assert LaunchInv(StartOutcome(s, NotStarted)) by { NotStartedInv(s); }
      LeftAlone(s);
      DisposedIdle(s, env.halt);
      var t := Disposed(s, env.halt);
      NotStartedInv(t);
      var u := Located(t, dataPath, env);
      assert Idle(u) && Evolves(s, u) && u.epoch == s.epoch && u.closed == t.closed by { LocatedIdle(s, t, dataPath, env); }
      LoadAndGoKeeps(u, env);
      EvolvesTwice(s, u, LoadAndGo(u, env).state);
    } else {
      NotStartedInv(s);
    }
  }

  lemma LoadPublishesNew(s: State, env: StartEnv)
    requires Idle(s)
    ensures var r := LoadAndGo(s, env);
      && (r.state.config == s.config || (r.state.config.Some? && s.next <= r.state.config.value.id))
      && (!r.result.NotStarted? ==> r.state.config.Some? && s.next <= r.state.config.value.id)
      && (forall m :: m in r.state.alive ==> m in s.alive || s.next <= m)
  {
    hide IsValid;
  }

  lemma DisposedGone(s: State, halt: Halt)
    requires StateInv(s)
    ensures var r := Disposed(s, halt);
      && r.config.None? && r.next == s.next && (s.manager.Some? && halt.Halts? ==> s.manager.value !in r.alive)
    ensures StopChecker(StopUpdater(s)).config == s.config
  {
  }

  /** A start refuses while a startup is in flight or the core is ready, and then changes nothing;
      otherwise it publishes, registers or launches nothing before the old manager is gone. */
  lemma StartDisposesFirst(s: State, dataPath: string, env: StartEnv)
    requires StateInv(s)
    ensures var r := BeginStart(s, dataPath, env);
      && (s.startup.Some? || IsReady(s, env.ready) ==> r == StartOutcome(s, NotStarted))
      && (r.state.config != s.config && r.state.config.Some? && s.manager.Some? ==> s.manager.value !in r.state.alive)
      && (!r.result.NotStarted? ==> r.state.config.Some? && r.state.config != s.config)
  {
    if s.startup.None? {
      DisposedGone(s, env.halt);
      DisposedIdle(s, env.halt);
      var t := Disposed(s, env.halt);
      var u := Located(t, dataPath, env);
      assert Idle(u) && u.alive == t.alive && u.next == t.next && u.config == t.config by { LocatedIdle(t, t, dataPath, env); }
      LoadPublishesNew(u, env);
      hide LoadAndGo, Disposed, Located, Idle, Evolves, StopChecker, StopUpdater;
    }
  }

  /** A restart whose stop fails starts nothing and keeps the old manager. */
  lemma RestartStopsFirst(s: State, dataPath: string, halt: Halt, env: StartEnv)
    requires StateInv(s)
    ensures var r := RestartProxy(s, dataPath, halt, env);
      && (s.startup.Some? || s.manager.None? ==> r == StartOutcome(s, NotStarted))
      && (s.startup.None? && s.manager.Some? && halt.HaltFails? ==>
            && r.result.NotStarted? && r.state.manager == s.manager && r.state.alive == s.alive
            && r.state.startup.None? && r.state.config == s.config)
      && (s.startup.None? && s.manager.Some? ==> r.state.epoch == s.epoch + 1)
      && (!r.result.NotStarted? ==> s.manager.Some? && s.manager.value !in r.state.alive)
  {
    if s.startup.None? && s.manager.Some? {
      StopKeeps(s, halt);
      var t := StopProxy(s, halt).state;
      BeginStartKeeps(t, dataPath, env);
      StartRevives(t, dataPath, env);
      hide BeginStart, StateInv, Evolves, ClosesOnce, LaunchInv;
    }
  }

  lemma StartRevives(s: State, dataPath: string, env: StartEnv)
    requires StateInv(s)
    ensures forall m :: m in BeginStart(s, dataPath, env).state.alive ==> m in s.alive || s.next <= m
  {
    if s.startup.None? {
      DisposedIdle(s, env.halt);
      var t := Disposed(s, env.halt);
      var u := Located(t, dataPath, env);
      assert t.alive <= s.alive && t.next == s.next && StopChecker(StopUpdater(s)).alive <= s.alive;
      assert Idle(u) && u.alive == t.alive && u.next == t.next by { LocatedIdle(t, t, dataPath, env); }
      LoadPublishesNew(u, env);
      hide LoadAndGo, Disposed, Located, Idle, Evolves, StopChecker, StopUpdater;
    }
  }

  lemma LocatedIdle(s: State, t: State, dataPath: string, env: StartEnv)
    requires Idle(t) && Evolves(s, t)
    ensures Idle(Located(t, dataPath, env)) && Evolves(s, Located(t, dataPath, env))
  {
  }

  /** The case in which the previous manager cannot be stopped, and the one in which nothing happens. */
  lemma LeftAlone(s: State)
    requires StateInv(s) && s.startup.None?
    ensures Evolves(s, s)
    ensures var r := StopChecker(StopUpdater(s));
            StateInv(r) && Evolves(s, r) && ClosesOnce(s, r) && r.epoch == s.epoch && LaunchInv(StartOutcome(r, NotStarted))
  {
  }

  lemma FinishStartKeeps(s: State, session: nat, path: string, update: Option<Config>, saved: bool, env: BootEnv)
    requires StateInv(s)
    ensures var r := FinishStart(s, session, path, update, saved, env);
            StateInv(r.state) && Evolves(s, r.state) && r.state.closed == s.closed && LaunchInv(r) && !r.result.Registered?
  {
    hide Boot;
    if s.startup == Some(session) && update.Some? && saved {
      BootKeeps(s.(startup := None, files := s.files[path := update.value]), update.value, env);
    }
  }

  lemma StopKeeps(s: State, halt: Halt)
    requires StateInv(s)
    ensures var r := StopProxy(s, halt).state;
            StateInv(r) && Evolves(s, r) && ClosesOnce(s, r) && r.startup.None? && r.active.None? && r.epoch == s.epoch + 1
  {
  }

  lemma RestartKeeps(s: State, dataPath: string, halt: Halt, env: StartEnv)
    requires StateInv(s)
    ensures var r := RestartProxy(s, dataPath, halt, env);
            StateInv(r.state) && Evolves(s, r.state) && ClosesOnce(s, r.state) && LaunchInv(r)
  {
    hide BeginStart, StateInv, LaunchInv, StopProxy;
    if s.startup.None? && s.manager.Some? {
      StopKeeps(s, halt);
      NotStartedInv(StopProxy(s, halt).state);
      BeginStartKeeps(StopProxy(s, halt).state, dataPath, env);
    } else {
      assert LaunchInv(StartOutcome(s, NotStarted)) by { NotStartedInv(s); }
    }
  }

  lemma NotStartedInv(s: State)
    ensures LaunchInv(StartOutcome(s, NotStarted))
  {
  }

  lemma WatchKeeps(s: State, manager: nat, checker: nat)
    requires StateInv(s)
    ensures var r := Watch(s, manager, checker);
            StateInv(r) && Evolves(s, r) && ClosesOnce(s, r) && r.epoch == s.epoch
  {
  }

  lemma ReloadKeepsInv(s: State, env: ReloadEnv)
    requires StateInv(s)
    ensures var r := Reload(s, env).state;
            StateInv(r) && r == s.(alive := r.alive, checking := r.checking, written := r.written, core := r.core)
  {
  }

  /** The holds of an update or import change nothing but the published configuration, the core and
      the files, and publish nothing while a startup is in flight. */
  ghost predicate Updates(s: State, t: State) {
    && t.startup == s.startup && t.epoch == s.epoch && t.manager == s.manager && t.checker == s.checker
    && t.active == s.active && t.closed == s.closed && t.configPath == s.configPath && s.next <= t.next
    && (t == s || (s.startup.None? && s.config.Some? && t.config.Some? && (t.config == s.config || s.next <= t.config.value.id)))
  }

  lemma UpdatesEvolve(s: State, t: State)
    requires Updates(s, t)
    ensures Evolves(s, t) && ClosesOnce(s, t)
  {
  }

  lemma ApplyKeeps(s: State, dataPath: string, current: Published, next: Config, env: UpdateEnv)
    requires StateInv(s) && s.config == Some(current) && s.startup.None?
    ensures StateInv(Apply(s, dataPath, current, next, env).state) && Updates(s, Apply(s, dataPath, current, next, env).state)
  {
    hide Reload;
    var s1 := Publish(s, next);
    var applied := Reload(s1, env.reload);
    ReloadKeepsInv(s1, env.reload);
    if !(applied.ok && env.saved) {
      ReloadKeepsInv(applied.state.(config := Some(current)), env.back);
    }
  }

  lemma SaveAndApplyKeeps(s: State, dataPath: string, current: Published, next: Config, env: UpdateEnv)
    requires StateInv(s) && s.config == Some(current) && s.startup.None?
    ensures StateInv(SaveAndApply(s, dataPath, current, next, env).state) && Updates(s, SaveAndApply(s, dataPath, current, next, env).state)
  {
    hide Reload;
    var s1 := Saved(Publish(s, next), dataPath, next);
    var applied := Reload(s1, env.reload);
    ReloadKeepsInv(s1, env.reload);
    if !applied.ok {
      var s2 := applied.state.(config := Some(current));
      ReloadKeepsInv(if env.restored then Saved(s2, dataPath, current.config) else s2, env.back);
    }
  }

  lemma FinishUpdateKeeps(k: Setting, s: State, current: Published, session: Option<nat>, url: string, feed: Option<seq<Proxy>>, env: UpdateEnv)
    requires StateInv(s) && Remembers(s, current)
    ensures var r := FinishUpdate(k.oracle, s, k.dataPath, current, session, url, feed, env).state;
            StateInv(r) && Updates(s, r)
  {
    hide Merge, Apply;
    if SameSession(s, current, session) && feed.Some? && Merge(k.oracle, current.config, feed.value, url).Merged? {
      ApplyKeeps(s, k.dataPath, current, Merge(k.oracle, current.config, feed.value, url).next, env);
    }
  }

  lemma FinishImportKeeps(k: Setting, s: State, held: Option<Published>, session: Option<nat>, node: Proxy, env: UpdateEnv)
    requires StateInv(s) && (held.Some? ==> Remembers(s, held.value))
    ensures var r := FinishImport(s, k.dataPath, held, session, node, env).state;
            StateInv(r) && Updates(s, r)
  {
    hide ManualMerge, SaveAndApply;
    if held.Some? && SameSession(s, held.value, session) && ManualMerge(held.value.config, node).Placed? {
      SaveAndApplyKeeps(s, k.dataPath, held.value, ManualMerge(held.value.config, node).next, env);
    }
  }

  // ---- every step ----

  lemma LaunchKeeps(w: World, r: StartOutcome)
    requires Inv(w) && StateInv(r.state) && Evolves(w.state, r.state) && LaunchInv(r)
    ensures Inv(Launch(w, r))
  {
    hide StateInv, Evolves, ThreadInv;
    ThreadsKept(w.state, r.state, w.threads);
  }

  lemma LaunchAtKeeps(w: World, i: nat, r: StartOutcome)
    requires Inv(w) && StateInv(r.state) && Evolves(w.state, r.state) && LaunchInv(r) && i < |w.threads| && !w.threads[i].Fetching?
    ensures Inv(LaunchAt(w, i, r))
  {
    hide StateInv, Evolves;
    ThreadsKept(w.state, r.state, w.threads);
  }

  lemma ChangedKeeps(w: World, i: nat, r: ChangeOutcome)
    requires Inv(w) && StateInv(r.state) && Evolves(w.state, r.state) && i < |w.threads|
    requires w.threads[i].Fetching? || (w.threads[i].Importing? && w.queue.None?)
    ensures Inv(Changed(w, i, r).(queue := None))
  {
    hide StateInv, Evolves;
    ThreadsKept(w.state, r.state, w.threads);
  }

  lemma BeginUpdateKeeps(w: World, url: string, allow: bool)
    requires Inv(w)
    ensures Inv(BeginUpdate(w, url, allow)) && BeginUpdate(w, url, allow).state == w.state
  {
  }

  lemma StateStepKeeps(w: World, s: State)
    requires Inv(w) && StateInv(s) && Evolves(w.state, s)
    ensures Inv(w.(state := s))
  {
    hide StateInv, Evolves, ThreadInv;
    ThreadsKept(w.state, s, w.threads);
  }

  lemma DequeueKeeps(k: Setting, w: World, step: Step)
    requires Inv(w) && Can(w, step) && step.Dequeue?
    ensures Inv(After(k, w, step)) && After(k, w, step).state == w.state
  {
  }

  lemma WatcherKeeps(k: Setting, w: World, step: Step)
    requires Inv(w) && Can(w, step) && (step.Take? || step.WatchEnds?)
    ensures Inv(After(k, w, step)) && Evolves(w.state, After(k, w, step).state) && ClosesOnce(w.state, After(k, w, step).state)
  {
    hide StateInv;
    var t := w.threads[step.thread];
    if step.WatchEnds? {
      WatchKeeps(w.state, t.manager, t.checker);
      ThreadsKept(w.state, Watch(w.state, t.manager, t.checker), w.threads);
    }
  }

  lemma StepKeeps(k: Setting, w: World, step: Step)
    requires Inv(w) && Can(w, step)
    ensures Inv(After(k, w, step))
    ensures Evolves(w.state, After(k, w, step).state) && ClosesOnce(w.state, After(k, w, step).state)
  {
    hide StateInv, ThreadsInv, QueueInv, LaunchInv, Launch, LaunchAt, Changed, BeginUpdate, FinishUpdate, FinishImport, BeginStart, FinishStart, RestartProxy, StopProxy, Merge;
    match step {
      case Dispatch => DispatchKeeps(w);
      case StartQueued(i, env) => StartQueuedKeeps(k, w, i, env);
      case StartNow(env) =>
        BeginStartKeeps(w.state, k.dataPath, env);
        LaunchKeeps(w, BeginStart(w.state, k.dataPath, env));
        LaunchState(w, BeginStart(w.state, k.dataPath, env));
      case Downloaded(i, feed, saved, env) => DownloadedKeeps(k, w, step);
      case Stop(halt) =>
        StopKeeps(w.state, halt);
        StateStepKeeps(w, StopProxy(w.state, halt).state);
      case Restart(halt, env) =>
        RestartKeeps(w.state, k.dataPath, halt, env);
        LaunchKeeps(w, RestartProxy(w.state, k.dataPath, halt, env));
        LaunchState(w, RestartProxy(w.state, k.dataPath, halt, env));
      case RequestUpdate(url) => BeginUpdateKeeps(w, url, true);
      case RequestConfigured(stop) =>
        if w.state.config.Some? { BeginUpdateKeeps(w, w.state.config.value.config.subscriptionUrl, false); }
      case Dequeue(i) => DequeueKeeps(k, w, step);
      case Fetched(i, feed, env) => FetchedKeeps(k, w, step);
      case RequestImport(node) =>
        if w.state.startup.None? { RequestImportKeeps(w, node); }
      case Imported(i, env) => ImportedKeeps(k, w, step);
      case Ends(m, reported) => EndsKeeps(k, w, step);
      case Take(i) => WatcherKeeps(k, w, step);
      case WatchEnds(i) => WatcherKeeps(k, w, step);
    }
  }

  lemma LaunchState(w: World, r: StartOutcome)
    ensures Launch(w, r).state == r.state
  {
  }

  lemma DispatchKeeps(w: World)
    requires Inv(w)
    ensures Inv(w.(threads := w.threads + [StartCall(w.state.epoch)]))
  {
    hide StateInv;
  }

  lemma RequestImportKeeps(w: World, node: Proxy)
    requires Inv(w) && w.state.startup.None?
    ensures Inv(w.(threads := w.threads + [Importing(w.state.config, w.state.active, node)]))
  {
  }

  lemma StartQueuedKeeps(k: Setting, w: World, i: nat, env: StartEnv)
    requires Inv(w) && i < |w.threads| && w.threads[i].StartCall?
    ensures var r := StartAtEpoch(w.state, w.threads[i].epoch, k.dataPath, env);
            Inv(LaunchAt(w, i, r)) && LaunchAt(w, i, r).state == r.state && Evolves(w.state, r.state) && ClosesOnce(w.state, r.state)
  {
    hide StateInv, BeginStart, ThreadsInv, QueueInv, LaunchInv;
    BeginStartKeeps(w.state, k.dataPath, env);
    NotStartedInv(w.state);
    LaunchAtKeeps(w, i, StartAtEpoch(w.state, w.threads[i].epoch, k.dataPath, env));
  }

  lemma DownloadedKeeps(k: Setting, w: World, step: Step)
    requires Inv(w) && Can(w, step) && step.Downloaded?
    ensures Inv(After(k, w, step))
    ensures Evolves(w.state, After(k, w, step).state) && ClosesOnce(w.state, After(k, w, step).state)
  {
    hide StateInv, FinishStart, ThreadsInv, QueueInv, LaunchInv, StartupMerge;
    var t := w.threads[step.thread];
    var update := StartupMerge(k.oracle, t.loaded.config, step.feed);
    FinishStartKeeps(w.state, t.startup, t.path, update, step.saved, step.boot);
    LaunchAtKeeps(w, step.thread, FinishStart(w.state, t.startup, t.path, update, step.saved, step.boot));
  }

  lemma FetchedKeeps(k: Setting, w: World, step: Step)
    requires Inv(w) && Can(w, step) && step.Fetched?
    ensures Inv(After(k, w, step)) && Updates(w.state, After(k, w, step).state)
    ensures Evolves(w.state, After(k, w, step).state) && ClosesOnce(w.state, After(k, w, step).state)
  {
    hide StateInv, FinishUpdate, QueueInv;
    var t := w.threads[step.thread];
    assert ThreadInv(w.state, t);
    FinishUpdateKeeps(k, w.state, t.current, t.session, t.url, step.feed, step.env);
    var r := FinishUpdate(k.oracle, w.state, k.dataPath, t.current, t.session, t.url, step.feed, step.env);
    UpdatesEvolve(w.state, r.state);
    ChangedKeeps(w, step.thread, r);
  }

  lemma ImportedKeeps(k: Setting, w: World, step: Step)
    requires Inv(w) && Can(w, step) && step.Imported?
    ensures Inv(After(k, w, step)) && Updates(w.state, After(k, w, step).state)
    ensures Evolves(w.state, After(k, w, step).state) && ClosesOnce(w.state, After(k, w, step).state)
  {
    hide StateInv, FinishImport, QueueInv;
    var t := w.threads[step.thread];
    assert ThreadInv(w.state, t);
    FinishImportKeeps(k, w.state, t.held, t.session, t.node, step.env);
    var r := FinishImport(w.state, k.dataPath, t.held, t.session, t.node, step.env);
    UpdatesEvolve(w.state, r.state);
    ChangedKeeps(w, step.thread, r);
    assert After(k, w, step).(queue := None) == After(k, w, step);
  }

  lemma EndsKeeps(k: Setting, w: World, step: Step)
    requires Inv(w) && Can(w, step) && step.Ends?
    ensures Inv(After(k, w, step))
    ensures Evolves(w.state, After(k, w, step).state) && ClosesOnce(w.state, After(k, w, step).state)
  {
    hide ThreadInv, ThreadsInv;
    var s' := w.state.(alive := w.state.alive - {step.manager});
    ThreadsKept(w.state, s', w.threads);
  }
}
