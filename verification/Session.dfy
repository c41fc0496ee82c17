/**
  The library's globals, and what each hold of its lock does to them.

  A pointer is an identity taken from a counter.  Files, managers, downloads and the order in which
  threads get the lock belong to the environment: what it decides during a hold is a parameter.
 */
module Session {
  import opened Text
  import opened ProxyConfig
  import opened SubscriptionMatch
  import opened SubscriptionMerge
  import opened ManualNode

  /** A published configuration; code compares its identity, not its contents. */
  datatype Published = Published(id: nat, config: Config)

  datatype State = State(
    epoch: nat, startup: Option<nat>, config: Option<Published>, manager: Option<nat>, checker: Option<nat>,
    active: Option<nat>,            // the running periodic updater
    configPath: string,
    closed: set<nat>,               // stop channels already closed
    alive: set<nat>,                // managers whose lifecycle has not ended
    checking: set<nat>,             // health checkers that have been started
    written: Option<Config>,        // what the core's own configuration file was generated from
    core: Option<Config>,           // ... when the core was last launched
    files: map<string, Config>,
    next: nat)                      // the next identity

  // ---- helpers of every operation ----

  /** stopSubscriptionUpdater. */
  function StopUpdater(s: State): State {
    if s.active.Some? then s.(active := None, closed := s.closed + {s.active.value}) else s
  }

  function StopChecker(s: State): State {
    if s.checker.Some? then s.(checking := s.checking - {s.checker.value}) else s
  }

  function Cleared(s: State): State {
    s.(manager := None, checker := None, config := None)
  }

  predicate IsReady(s: State, ready: bool) {
    ready && s.manager.Some? && s.manager.value in s.alive
  }

  /** The environment's answers: whether a manager's Stop succeeds. */
  datatype Halt = Halts | HaltFails

  function StopManager(s: State, halt: Halt): State {
    if s.manager.Some? && halt.Halts? then s.(alive := s.alive - {s.manager.value}) else s
  }

  // ---- starting ----

  datatype BootEnv = BootEnv(routeMode: string, generated: bool, binary: bool, boots: bool)

  datatype StartEnv = StartEnv(
    ready: bool, halt: Halt,
    found: Option<string>,           // the path resolveConfig finds
    placeholder: Option<Config>,     // what is copied to the data directory when it finds none
    readable: bool, boot: BootEnv)

  datatype StartResult =
    | NotStarted
    | Registered(session: nat, loaded: Published, path: string)   // the lock is dropped for the download
    | Started(manager: nat, checker: nat)

  datatype StartOutcome = StartOutcome(state: State, result: StartResult)

  function WithRouteMode(c: Config, routeMode: string): Config {
    if routeMode != "" then c.(routeMode := routeMode) else c
  }

  function Publish(s: State, c: Config): State {
    s.(config := Some(Published(s.next, c)), next := s.next + 1)
  }

  /** The last part of startProxyInDataDir: publish the configuration, launch the core. */
  function Boot(s: State, c: Config, env: BootEnv): StartOutcome {
    LaunchCore(Publish(s, WithRouteMode(c, env.routeMode)), c.healthCheck.enabled, env)
  }

  /** The configuration in force. */
  function InForce(s: State): Option<Config> {
    if s.config.Some? then Some(s.config.value.config) else None
  }

  /** Generating the core's file, and launching the core with it. */
  function Generates(s: State): State { s.(written := InForce(s)) }

  function Runs(s: State): State { s.(core := s.written) }

  function LaunchCore(s: State, checked: bool, env: BootEnv): StartOutcome {
    if !env.generated then StartOutcome(s, NotStarted)
    else if !env.binary then StartOutcome(Generates(s), NotStarted)
    else
      var m, h := s.next, s.next + 1;
      var s1 := Generates(s).(manager := Some(m), checker := Some(h), next := s.next + 2);
      if !env.boots then StartOutcome(s1, NotStarted) else StartOutcome(ComesUp(s1, m, h, checked), Started(m, h))
  }

  /** The core is up: checks and periodic updates begin. */
  function ComesUp(s: State, m: nat, h: nat, checked: bool): State {
    var t := Runs(s).(alive := s.alive + {m}, checking := s.checking + (if checked then {h} else {}));
    if t.active.Some? then t else t.(active := Some(t.next), next := t.next + 1)
  }

  /** Where the configuration is read from, after copying the placeholder if need be. */
  function Located(s: State, dataPath: string, env: StartEnv): State {
    if env.found.Some? then s.(configPath := env.found.value)
    else if env.placeholder.Some? then s.(configPath := dataPath, files := s.files[dataPath := env.placeholder.value])
    else s
  }

  /** Whatever is left of the previous session is disposed of. */
  function Disposed(s: State, halt: Halt): State {
    Cleared(StopManager(StopChecker(StopUpdater(s)), halt))
  }

  /** Read the configuration and register the download of its subscription, or go on without one. */
  ghost function LoadAndGo(s: State, env: StartEnv): StartOutcome {
    if !env.readable || s.configPath !in s.files || !IsValid(s.files[s.configPath]) then StartOutcome(s, NotStarted)
    else
      var c := s.files[s.configPath];
      if c.subscriptionUrl != "" then
        var loaded := Published(s.next + 1, c);
        StartOutcome(s.(startup := Some(s.next), config := Some(loaded), next := s.next + 2), Registered(s.next, loaded, s.configPath))
      else Boot(s, c, env.boot)
  }

  /** The first hold of startProxyInDataDir. */
  ghost function BeginStart(s: State, dataPath: string, env: StartEnv): StartOutcome {
    if s.startup.Some? || IsReady(s, env.ready) then StartOutcome(s, NotStarted)
    else if s.manager.Some? && env.halt.HaltFails? then StartOutcome(StopChecker(StopUpdater(s)), NotStarted)
    else if env.found.None? && env.placeholder.None? then StartOutcome(Disposed(s, env.halt), NotStarted)
    else LoadAndGo(Located(Disposed(s, env.halt), dataPath, env), env)
  }

  ghost function StartAtEpoch(s: State, epoch: nat, dataPath: string, env: StartEnv): StartOutcome {
    if epoch != s.epoch then StartOutcome(s, NotStarted) else BeginStart(s, dataPath, env)
  }

  /** PrepareStartupSubscription: the download's result, merged. */
  ghost function StartupMerge(o: Oracle, c: Config, feed: Option<seq<Proxy>>): Option<Config> {
    if feed.None? then None
    else if Merge(o, c, feed.value, c.subscriptionUrl).Merged? then Some(Merge(o, c, feed.value, c.subscriptionUrl).next)
    else None
  }

  /** The second hold, after the download. */
  function FinishStart(s: State, session: nat, path: string, update: Option<Config>, saved: bool, env: BootEnv): StartOutcome {
    if s.startup != Some(session) then StartOutcome(s, NotStarted)
    else
      var s1 := s.(startup := None);
      if update.None? || !saved then StartOutcome(s1, NotStarted)
      else Boot(s1.(files := s1.files[path := update.value]), update.value, env)
  }

  // ---- stopping ----

  datatype StopOutcome = StopOutcome(state: State, ok: bool)

  function StopProxy(s: State, halt: Halt): StopOutcome {
    var s1 := StopChecker(StopUpdater(s.(epoch := s.epoch + 1, startup := None)));
    if s1.manager.Some? && halt.HaltFails? then StopOutcome(s1, false)
    else StopOutcome(Cleared(StopManager(s1, halt)), true)
  }

  ghost function RestartProxy(s: State, dataPath: string, halt: Halt, env: StartEnv): StartOutcome {
    if s.startup.Some? || s.manager.None? then StartOutcome(s, NotStarted)
    else
      var stopped := StopProxy(s, halt);
      if !stopped.ok then StartOutcome(stopped.state, NotStarted) else BeginStart(stopped.state, dataPath, env)
  }

  /** The watcher of one manager, once it has a terminal report. */
  function Watch(s: State, manager: nat, checker: nat): State {
    if s.manager != Some(manager) || s.checker != Some(checker) then s
    else Cleared(StopUpdater(StopChecker(s)))
  }

  // ---- reloading ----

  /** How Manager.Restart ends; `taken` says that the old lifecycle ended by itself during the hold and
      that the watcher already has its report. */
  datatype Bounce = Bounced(taken: bool) | BounceFails(alive: bool)

  datatype ReloadEnv = ReloadEnv(generated: bool, ready: bool, bounce: Bounce)

  /** `lost` says that the core was stopped and did not come up again. */
  datatype ReloadOutcome = ReloadOutcome(state: State, ok: bool, taken: bool, lost: bool)

  function Reload(s: State, env: ReloadEnv): ReloadOutcome {
    if s.config.None? then ReloadOutcome(s, true, false, false)
    else if !env.generated then ReloadOutcome(s, false, false, false)
    else
      var s1 := StopChecker(Generates(s));
      if !IsReady(s1, env.ready) then ReloadOutcome(s1, true, false, false)
      else
        match env.bounce
        case BounceFails(alive) =>
          ReloadOutcome(if alive then s1 else s1.(alive := s1.alive - {s1.manager.value}), false, false, !alive)
        case Bounced(taken) =>
          var s2 := Runs(s1);
          ReloadOutcome(if s2.config.value.config.healthCheck.enabled && s2.checker.Some?
                        then s2.(checking := s2.checking + {s2.checker.value}) else s2, true, taken, false)
  }

  /** What makes a reload fail: the core's configuration cannot be written, or a ready core does not
      restart. */
  predicate ReloadBreaks(s: State, env: ReloadEnv) {
    !env.generated || (IsReady(s, env.ready) && env.bounce.BounceFails?)
  }

  lemma ReloadFailsIff(s: State, env: ReloadEnv)
    ensures Reload(s, env).ok <==> !(s.config.Some? && ReloadBreaks(s, env))
  {
  }

  // ---- updates ----

  datatype UpdateEnv = UpdateEnv(saved: bool, reload: ReloadEnv, back: ReloadEnv, restored: bool)

  /** What an update or import did, whether a watcher took a report meanwhile, and whether the core was
      lost in a restart. */
  datatype ChangeOutcome = ChangeOutcome(state: State, ok: bool, taken: bool, lost: bool)

  predicate SameSession(s: State, current: Published, session: Option<nat>) {
    s.config.Some? && s.config.value.id == current.id && s.active == session
  }

  /** The last hold of updateSubscriptionLocked. */
  ghost function FinishUpdate(o: Oracle, s: State, dataPath: string, current: Published, session: Option<nat>, url: string,
                              feed: Option<seq<Proxy>>, env: UpdateEnv): ChangeOutcome
  {
    if !SameSession(s, current, session) || feed.None? then ChangeOutcome(s, false, false, false)
    else
      var r := Merge(o, current.config, feed.value, url);
      if r.Failed? then ChangeOutcome(s, false, false, false)
      else if !r.result.changed then ChangeOutcome(s, true, false, false)
      else if !r.result.runtimeChanged then
        if !env.saved then ChangeOutcome(s, false, false, false)
        else ChangeOutcome(Saved(Publish(s, r.next), dataPath, r.next), true, false, false)
      else Apply(s, dataPath, current, r.next, env)
  }

  /** Apply first, then save; undo when either fails. */
  function Apply(s: State, dataPath: string, current: Published, next: Config, env: UpdateEnv): ChangeOutcome {
    var applied := Reload(Publish(s, next), env.reload);
    if applied.ok && env.saved then
      ChangeOutcome(Saved(applied.state, dataPath, next), true, applied.taken, applied.lost)
    else
      var back := Reload(applied.state.(config := Some(current)), env.back);
      ChangeOutcome(back.state, false, applied.taken || back.taken, applied.lost || back.lost)
  }

  /** The last hold of importManualProxy: save first, then apply. */
  ghost function FinishImport(s: State, dataPath: string, current: Option<Published>, session: Option<nat>, node: Proxy, env: UpdateEnv): ChangeOutcome {
    if s.config.None? || s.startup.Some? || current.None? || !SameSession(s, current.value, session) then ChangeOutcome(s, false, false, false)
    else
      var r := ManualMerge(current.value.config, node);
      if r.Refused? || !env.saved then ChangeOutcome(s, false, false, false) else SaveAndApply(s, dataPath, current.value, r.next, env)
  }

  function Saved(s: State, dataPath: string, c: Config): State {
    s.(files := s.files[dataPath := c])
  }

  /** Save first, then apply; when that fails go back, writing the old configuration again if possible. */
  function SaveAndApply(s: State, dataPath: string, current: Published, next: Config, env: UpdateEnv): ChangeOutcome {
    var applied := Reload(Saved(Publish(s, next), dataPath, next), env.reload);
    if applied.ok then ChangeOutcome(applied.state, true, applied.taken, applied.lost)
    else
      var s2 := applied.state.(config := Some(current));
      var back := Reload(if env.restored then Saved(s2, dataPath, current.config) else s2, env.back);
      ChangeOutcome(back.state, false, applied.taken || back.taken, applied.lost || back.lost)
  }

  // ---- memory and file advance together ----

  /** Reloading changes neither the published configuration nor the files. */
  lemma ReloadKeeps(s: State, env: ReloadEnv)
    ensures var r := Reload(s, env).state;
            r == s.(alive := r.alive, checking := r.checking, written := r.written, core := r.core)
  {
  }

  lemma ApplyIs(s: State, dataPath: string, current: Published, next: Config, env: UpdateEnv)
    ensures var r := Apply(s, dataPath, current, next, env);
      && r.ok == (env.saved && !ReloadBreaks(s, env.reload))
      && r.state.config == Some(if r.ok then Published(s.next, next) else current)
      && r.state.files == if r.ok then s.files[dataPath := next] else s.files
  {
    hide Reload;
    var applied := Reload(Publish(s, next), env.reload);
    ReloadKeeps(Publish(s, next), env.reload);
    ReloadFailsIff(Publish(s, next), env.reload);
    ReloadKeeps(applied.state.(config := Some(current)), env.back);
  }

  /** A subscription update leaves the published configuration and config.json both advanced, to the
      merge of the configuration in force, or both untouched. */
  lemma UpdateBothOrNeither(o: Oracle, s: State, dataPath: string, current: Published, session: Option<nat>, url: string, feed: Option<seq<Proxy>>, env: UpdateEnv)
    requires s.config.Some? && s.config.value.id == current.id ==> s.config.value == current
    ensures var r := FinishUpdate(o, s, dataPath, current, session, url, feed, env);
      || (r.state.config == s.config && r.state.files == s.files)
      || (&& r.ok && SameSession(s, current, session) && feed.Some?
          && Merge(o, current.config, feed.value, url).Merged?
          && r.state.config == Some(Published(s.next, Merge(o, current.config, feed.value, url).next))
          && r.state.files == s.files[dataPath := Merge(o, current.config, feed.value, url).next])
  {
    hide Merge, Apply, Reload, ReloadBreaks;
    if SameSession(s, current, session) && feed.Some? && Merge(o, current.config, feed.value, url).Merged? {
      ApplyIs(s, dataPath, current, Merge(o, current.config, feed.value, url).next, env);
    }
  }

  /** Which of the two it is: the update commits exactly when the merge succeeds with a change, the
      file can be saved and, if the core must see the change, its configuration can be written and a
      ready core restarts. */
  lemma UpdateCommitsIff(o: Oracle, s: State, dataPath: string, current: Published, session: Option<nat>, url: string, feed: Option<seq<Proxy>>, env: UpdateEnv)
    requires s.config.Some? && s.config.value.id == current.id ==> s.config.value == current
    requires s.config.Some? ==> s.config.value.id < s.next
    ensures var r := FinishUpdate(o, s, dataPath, current, session, url, feed, env);
      r.state.config != s.config <==>
        && SameSession(s, current, session) && feed.Some?
        && (match Merge(o, current.config, feed.value, url)
            case Failed(_) => false
            case Merged(next, result) =>
              result.changed && env.saved && (result.runtimeChanged ==> !ReloadBreaks(s, env.reload)))
  {
    hide Merge, Apply, Reload, ReloadBreaks;
    if SameSession(s, current, session) && feed.Some? && Merge(o, current.config, feed.value, url).Merged? {
      ApplyIs(s, dataPath, current, Merge(o, current.config, feed.value, url).next, env);
    }
  }

  lemma SaveAndApplyIs(s: State, dataPath: string, current: Published, next: Config, env: UpdateEnv)
    ensures var r := SaveAndApply(s, dataPath, current, next, env);
            var ok := !ReloadBreaks(s, env.reload);
      && r.ok == ok
      && r.state.config == Some(if ok then Published(s.next, next) else current)
      && r.state.files == if !ok && env.restored then s.files[dataPath := current.config] else s.files[dataPath := next]
  {
    hide Reload;
    var s1 := Saved(Publish(s, next), dataPath, next);
    var applied := Reload(s1, env.reload);
    ReloadKeeps(s1, env.reload);
    ReloadFailsIff(s1, env.reload);
    var s2 := applied.state.(config := Some(current));
    ReloadKeeps(if env.restored then Saved(s2, dataPath, current.config) else s2, env.back);
    assert s.files[dataPath := next][dataPath := current.config] == s.files[dataPath := current.config];
  }

  /** An import leaves memory and file apart exactly when the new configuration was saved but could not
      be applied - the core's configuration cannot be written, or a ready core does not restart - and
      the old one cannot be written back; then the file is ahead. */
  lemma ImportDivergesIff(s: State, dataPath: string, current: Published, session: Option<nat>, node: Proxy, env: UpdateEnv)
    requires SameSession(s, current, session) && s.config.value == current && s.startup.None?
    requires dataPath in s.files && s.files[dataPath] == current.config
    requires ManualMerge(current.config, node).Placed? && ManualMerge(current.config, node).next != current.config
    ensures var r := FinishImport(s, dataPath, Some(current), session, node, env);
            var next := ManualMerge(current.config, node).next;
      && r.state.config.Some? && dataPath in r.state.files
      && (r.state.files[dataPath] != r.state.config.value.config <==>
            env.saved && ReloadBreaks(s, env.reload) && !env.restored)
      && (r.state.files[dataPath] != r.state.config.value.config ==>
            r.state.config == Some(current) && r.state.files[dataPath] == next)
  {
    hide ManualMerge, Reload, SaveAndApply, ReloadBreaks;
    SaveAndApplyIs(s, dataPath, current, ManualMerge(current.config, node).next, env);
  }

  /** Such an import exists: the generated configuration cannot be written, and neither can the old file. */
  lemma ImportDiverges(s: State, dataPath: string, current: Published, session: Option<nat>, node: Proxy)
    requires SameSession(s, current, session) && s.config.value == current && s.startup.None?
    requires ManualMerge(current.config, node).Placed? && ManualMerge(current.config, node).next != current.config
    ensures var broken := ReloadEnv(false, true, Bounced(false));
            var r := FinishImport(s, dataPath, Some(current), session, node, UpdateEnv(true, broken, broken, false));
            !r.ok && r.state.config == Some(current) && dataPath in r.state.files && r.state.files[dataPath] != current.config
  {
    hide ManualMerge;
  }

  /** What an import does to memory and file, in all cases: nothing, both, the same configuration
      written again, or - the case above - the file alone. */
  lemma ImportBothOrNeither(s: State, dataPath: string, current: Option<Published>, session: Option<nat>, node: Proxy, env: UpdateEnv)
    requires s.config.Some? && current.Some? && s.config.value.id == current.value.id ==> s.config == current
    ensures var r := FinishImport(s, dataPath, current, session, node, env);
      || (r.state.config == s.config && r.state.files == s.files)
      || (&& r.ok && current.Some? && SameSession(s, current.value, session) && ManualMerge(current.value.config, node).Placed?
          && r.state.config == Some(Published(s.next, ManualMerge(current.value.config, node).next))
          && r.state.files == s.files[dataPath := ManualMerge(current.value.config, node).next])
      || (&& !r.ok && s.config == current && r.state.config == s.config && current.Some? && ReloadBreaks(s, env.reload)
          && (if env.restored then r.state.files == s.files[dataPath := current.value.config]
              else ManualMerge(current.value.config, node).Placed? && r.state.files == s.files[dataPath := ManualMerge(current.value.config, node).next]))
  {
    hide ManualMerge, Reload, SaveAndApply, ReloadBreaks;
    if current.Some? && ManualMerge(current.value.config, node).Placed? {
      SaveAndApplyIs(s, dataPath, current.value, ManualMerge(current.value.config, node).next, env);
    }
  }
}
