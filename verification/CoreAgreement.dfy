/** Whether the running core has been given the configuration in force. */
module CoreAgreement {
  import opened Text
  import opened ProxyConfig
  import opened SubscriptionMatch
  import opened SubscriptionMerge
  import opened ManualNode
  import opened SingBox
  import opened SkipRestart
  import opened Session
  import opened SessionRuns
  import opened SessionTheorems
  import opened SessionStarts
  import opened SessionOrphans

  /** For the core two configurations are the same. */
  ghost predicate Alike(dir: string, a: Config, b: Config) { Generated(a, dir) == Generated(b, dir) }

  predicate IsUp(s: State) { s.manager.Some? && s.manager.value in s.alive }

  /** A core that is up was launched with what the configuration in force amounts to, and its file still
      says so, so that an automatic restart changes nothing. */
  ghost predicate Agrees(dir: string, s: State) {
    IsUp(s) ==>
      && s.config.Some? && s.core.Some? && s.written.Some?
      && Alike(dir, s.core.value, s.config.value.config) && Alike(dir, s.written.value, s.config.value.config)
  }

  // ---- one reload ----

  /** What a reload leaves of the core and its file. */
  lemma ReloadIs(s: State, env: ReloadEnv)
    requires s.config.Some?
    ensures var r := Reload(s, env).state;
      && r.config == s.config && r.manager == s.manager
      && r.written == (if env.generated then InForce(s) else s.written)
      && r.core == (if env.generated && IsReady(s, env.ready) && env.bounce.Bounced? then InForce(s) else s.core)
      && (env.generated && s.checker.Some? ==>
            (s.checker.value in r.checking <==> IsReady(s, env.ready) && env.bounce.Bounced? && s.config.value.config.healthCheck.enabled))
      && (IsUp(r) <==> IsUp(s) && !(env.generated && IsReady(s, env.ready) && env.bounce == BounceFails(false)))
  {
  }

  // ---- applying a change ----

  /** The core of a change that went through has not been restarted because it was not ready; or after a
      change that was taken back its file has not been restored, or the new configuration has been launched
      and the old one not again. */
  predicate Behind(forward: ReloadEnv, committed: bool, back: ReloadEnv) {
    if !forward.generated then false
    else if committed then !forward.ready
    else !back.generated || (forward.ready && forward.bounce.Bounced? && !(back.ready && back.bounce.Bounced?))
  }

  /** No restart has ended the core without bringing it up again. */
  predicate Survives(forward: ReloadEnv, committed: bool, back: ReloadEnv) {
    !Ends(forward) && (committed || !Ends(back))
  }

  predicate Ends(env: ReloadEnv) { env.generated && env.ready && env.bounce == BounceFails(false) }

  /** Whether the core that was up agrees with what is in force when an update has been applied or taken
      back, exactly. */
  lemma ApplyAgreesIff(dir: string, s: State, dataPath: string, current: Published, next: Config, env: UpdateEnv)
    requires s.config == Some(current) && IsUp(s) && Agrees(dir, s) && !Alike(dir, current.config, next)
    ensures var r := Apply(s, dataPath, current, next, env);
      && (IsUp(r.state) <==> Survives(env.reload, r.ok, env.back))
      && (IsUp(r.state) ==> (Agrees(dir, r.state) <==> !Behind(env.reload, r.ok, env.back)))
  {
    hide Generated, Reload;
    var s1 := Publish(s, next);
    ReloadIs(s1, env.reload);
    ReloadFailsIff(s1, env.reload);
    var applied := Reload(s1, env.reload);
    var s2 := applied.state.(config := Some(current));
    ReloadIs(s2, env.back);
  }

  /** The same for an import, which is saved first. */
  lemma SaveAndApplyAgreesIff(dir: string, s: State, dataPath: string, current: Published, next: Config, env: UpdateEnv)
    requires s.config == Some(current) && IsUp(s) && Agrees(dir, s) && !Alike(dir, current.config, next)
    ensures var r := SaveAndApply(s, dataPath, current, next, env);
      && (IsUp(r.state) <==> Survives(env.reload, r.ok, env.back))
      && (IsUp(r.state) ==> (Agrees(dir, r.state) <==> !Behind(env.reload, r.ok, env.back)))
  {
    hide Generated, Reload;
    var s1 := Saved(Publish(s, next), dataPath, next);
    ReloadIs(s1, env.reload);
    ReloadFailsIff(s1, env.reload);
    var applied := Reload(s1, env.reload);
    var s2 := applied.state.(config := Some(current));
    var s3 := if env.restored then Saved(s2, dataPath, current.config) else s2;
    ReloadIs(s3, env.back);
  }

  /** ... and if the two amount to the same, they agree whatever happens. */
  lemma AlikeAgrees(dir: string, s: State, dataPath: string, current: Published, next: Config, env: UpdateEnv)
    requires s.config == Some(current) && Agrees(dir, s) && Alike(dir, current.config, next)
    ensures Agrees(dir, Apply(s, dataPath, current, next, env).state)
    ensures Agrees(dir, SaveAndApply(s, dataPath, current, next, env).state)
  {
    hide Generated, Reload;
    var s1 := Publish(s, next);
    ReloadIs(s1, env.reload);
    ReloadIs(Reload(s1, env.reload).state.(config := Some(current)), env.back);
    var t1 := Saved(s1, dataPath, next);
    ReloadIs(t1, env.reload);
    var t2 := Reload(t1, env.reload).state.(config := Some(current));
    ReloadIs(if env.restored then Saved(t2, dataPath, current.config) else t2, env.back);
  }

  // ---- whole runs ----

  /** The change that a step applies to the published configuration, if it gets that far. */
  ghost function Change(k: Setting, w: World, step: Step): Option<(Published, Config)> {
    match step
    case Fetched(i, feed, env) =>
      if i < |w.threads| && w.threads[i].Fetching? && feed.Some? then
        var t := w.threads[i];
        UpdateChange(k.oracle, w.state, t.current, t.session, t.url, feed.value)
      else None
    case Imported(i, env) =>
      if i < |w.threads| && w.threads[i].Importing? && w.threads[i].held.Some? then
        var t := w.threads[i];
        ImportChange(w.state, t.held.value, t.session, t.node, env)
      else None
    case _ => None
  }

  ghost function UpdateChange(o: Oracle, s: State, current: Published, session: Option<nat>, url: string, feed: seq<Proxy>): Option<(Published, Config)> {
    var r := Merge(o, current.config, feed, url);
    if SameSession(s, current, session) && r.Merged? then Some((current, r.next)) else None
  }

  ghost function ImportChange(s: State, current: Published, session: Option<nat>, node: Proxy, env: UpdateEnv): Option<(Published, Config)> {
    var r := ManualMerge(current.config, node);
    if s.startup.None? && SameSession(s, current, session) && r.Placed? && env.saved then Some((current, r.next)) else None
  }

  /** A change that the core, though it stays up, is left behind by. */
  ghost predicate LeavesBehind(dir: string, s: State, change: Option<(Published, Config)>, committed: bool, env: UpdateEnv) {
    && change.Some? && IsUp(s) && !Alike(dir, change.value.0.config, change.value.1)
    && Survives(env.reload, committed, env.back) && Behind(env.reload, committed, env.back)
  }

  /** ... by the environment's answers in an update, which is applied first and saved then, or an import,
      which has been saved. */
  ghost predicate FallsBehind(k: Setting, dir: string, w: World, step: Step) {
    match step
    case Fetched(_, _, env) => LeavesBehind(dir, w.state, Change(k, w, step), env.saved && !ReloadBreaks(w.state, env.reload), env)
    case Imported(_, env) => LeavesBehind(dir, w.state, Change(k, w, step), !ReloadBreaks(w.state, env.reload), env)
    case _ => false
  }

  /** A state in which no core is up that was not, with nothing it goes by changed. */
  lemma LessUp(dir: string, s: State, t: State)
    requires Agrees(dir, s) && (IsUp(t) ==> IsUp(s) && t.config == s.config && t.core == s.core && t.written == s.written)
    ensures Agrees(dir, t)
  {
  }

  lemma BootedAgrees(dir: string, s: State, r: StartOutcome, files: map<string, Config>, c: Config, env: BootEnv)
    requires Booted(s, r, files, c, env) && s.manager.None? && AllBelow(s.alive, s.next) && (IsUp(r.state) ==> r.result.Started?)
    ensures Agrees(dir, r.state)
  {
    hide Generated;
  }

  lemma BootUp(s: State, c: Config, env: BootEnv)
    requires StateInv(s) && s.manager.None?
    ensures var r := Boot(s, c, env); IsUp(r.state) ==> r.result.Started?
  {
  }

  lemma BeginStartAgrees(dir: string, s: State, dataPath: string, env: StartEnv)
    requires StateInv(s) && Agrees(dir, s)
    ensures Agrees(dir, BeginStart(s, dataPath, env).state)
  {
    hide Generated, IsValid, Booted, Agrees;
    BeginStartIs(s, dataPath, env);
    var r := BeginStart(s, dataPath, env);
    if s.startup.Some? || IsReady(s, env.ready) || (s.manager.Some? && env.halt.HaltFails?) {
      LessUp(dir, s, r.state);
    } else if Loads(s, dataPath, env).Some? && Loads(s, dataPath, env).value.subscriptionUrl == "" {
      ReadyIs(s, dataPath, env);
      LaunchUp(s, dataPath, env);
      BootedAgrees(dir, Ready(s, dataPath, env), r, FilesRead(s, dataPath, env), Loads(s, dataPath, env).value, env.boot);
    } else {
      hide BeginStart;
      LessUp(dir, s, r.state);
    }
  }

  lemma LaunchUp(s: State, dataPath: string, env: StartEnv)
    requires StateInv(s) && s.startup.None? && !IsReady(s, env.ready) && (s.manager.None? || env.halt.Halts?)
    requires Loads(s, dataPath, env).Some? && Loads(s, dataPath, env).value.subscriptionUrl == ""
    ensures var r := BeginStart(s, dataPath, env); IsUp(r.state) ==> r.result.Started?
  {
    hide Boot, IsValid;
    ReadyIs(s, dataPath, env);
    BootUp(Ready(s, dataPath, env), Loads(s, dataPath, env).value, env.boot);
  }

  lemma FinishStartAgrees(dir: string, o: Oracle, s: State, session: nat, path: string, loaded: Config, feed: Option<seq<Proxy>>, saved: bool, env: BootEnv)
    requires StateInv(s) && Agrees(dir, s)
    ensures Agrees(dir, FinishStart(s, session, path, StartupMerge(o, loaded, feed), saved, env).state)
  {
    hide Generated, Booted, Agrees, Merge, Boot;
    FinishBothOrNeither(o, s, session, path, loaded, feed, saved, env);
    var r := FinishStart(s, session, path, StartupMerge(o, loaded, feed), saved, env);
    if Commits(o, s, session, loaded, feed, saved) {
      var next := Merge(o, loaded, feed.value, loaded.subscriptionUrl).next;
      Unregistered(s, path, next);
      BootUp(s.(startup := None, files := s.files[path := next]), next, env);
      BootedAgrees(dir, s, r, s.files[path := next], next, env);
    } else {
      LessUp(dir, s, r.state);
    }
  }

  lemma StopAgrees(dir: string, s: State, halt: Halt)
    requires Agrees(dir, s)
    ensures Agrees(dir, StopProxy(s, halt).state)
  {
    hide Generated;
  }

  lemma RestartAgrees(dir: string, s: State, dataPath: string, halt: Halt, env: StartEnv)
    requires StateInv(s) && Agrees(dir, s)
    ensures Agrees(dir, RestartProxy(s, dataPath, halt, env).state)
  {
    hide Generated, BeginStart, StateInv, Agrees, StopProxy;
    if s.startup.None? && s.manager.Some? {
      StopAgrees(dir, s, halt);
      StopKeeps(s, halt);
      BeginStartAgrees(dir, StopProxy(s, halt).state, dataPath, env);
    }
  }

  lemma RemembersHeld(w: World, i: nat)
    requires Inv(w) && i < |w.threads|
    ensures w.threads[i].Fetching? ==> Remembers(w.state, w.threads[i].current)
    ensures w.threads[i].Importing? && w.threads[i].held.Some? ==> Remembers(w.state, w.threads[i].held.value)
  {
    assert ThreadInv(w.state, w.threads[i]);
  }

  /** Whether a change falls behind, by what it would apply. */
  lemma FallsBehindIs(k: Setting, dir: string, w: World, step: Step)
    requires Can(w, step)
    ensures step.Fetched? ==>
      var t := w.threads[step.thread];
      FallsBehind(k, dir, w, step) <==>
        (step.feed.Some? && LeavesBehind(dir, w.state, UpdateChange(k.oracle, w.state, t.current, t.session, t.url, step.feed.value),
                                         step.env.saved && !ReloadBreaks(w.state, step.env.reload), step.env))
    ensures step.Imported? ==>
      var t := w.threads[step.thread];
      FallsBehind(k, dir, w, step) <==>
        (t.held.Some? && LeavesBehind(dir, w.state, ImportChange(w.state, t.held.value, t.session, t.node, step.env),
                                      !ReloadBreaks(w.state, step.env.reload), step.env))
  {
    hide LeavesBehind, ReloadBreaks, UpdateChange, ImportChange;
    if step.Fetched? { NoChange(dir, w.state, step.env.saved && !ReloadBreaks(w.state, step.env.reload), step.env); }
    if step.Imported? { NoChange(dir, w.state, !ReloadBreaks(w.state, step.env.reload), step.env); }
  }

  lemma FetchedAgreesIff(k: Setting, dir: string, w: World, step: Step)
    requires Inv(w) && Can(w, step) && step.Fetched? && Agrees(dir, w.state)
    ensures Agrees(dir, After(k, w, step).state) <==> !FallsBehind(k, dir, w, step)
  {
    hide Inv, After, Agrees, FallsBehind, LeavesBehind, FinishUpdate, ReloadBreaks, UpdateChange, Remembers;
    var t := w.threads[step.thread];
    RemembersHeld(w, step.thread);
    StateAfterChange(k, w, step);
    FallsBehindIs(k, dir, w, step);
    hide Can;
    if step.feed.Some? {
      UpdateAgreesIff(k, dir, w.state, t.current, t.session, t.url, step.feed.value, step.env);
    } else {
      NoFeed(k, w.state, t.current, t.session, t.url, step.env);
    }
  }

  lemma NoChange(dir: string, s: State, committed: bool, env: UpdateEnv)
    ensures !LeavesBehind(dir, s, None, committed, env)
  {
  }

  lemma NoFeed(k: Setting, s: State, current: Published, session: Option<nat>, url: string, env: UpdateEnv)
    ensures FinishUpdate(k.oracle, s, k.dataPath, current, session, url, None, env).state == s
  {
  }

  /** What an update whose feed has come does to the core. */
  lemma UpdateAgreesIff(k: Setting, dir: string, s: State, current: Published, session: Option<nat>, url: string, feed: seq<Proxy>, env: UpdateEnv)
    requires Remembers(s, current) && Agrees(dir, s)
    ensures Agrees(dir, FinishUpdate(k.oracle, s, k.dataPath, current, session, url, Some(feed), env).state) <==>
            !LeavesBehind(dir, s, UpdateChange(k.oracle, s, current, session, url, feed), env.saved && !ReloadBreaks(s, env.reload), env)
  {
    hide Agrees, LeavesBehind, ReloadBreaks, Alike, IsUp;
    var m := Merge(k.oracle, current.config, feed, url);
    var committed := env.saved && !ReloadBreaks(s, env.reload);
    UpdateIs(k, s, current, session, url, feed, env);
    hide Merge, FinishUpdate, Apply;
    if !(SameSession(s, current, session) && m.Merged?) {
      NoChange(dir, s, committed, env);
    } else if m.result.changed && m.result.runtimeChanged {
      AppliedAgreesIff(dir, s, k.dataPath, current, m.next, env);
    } else {
      AlikeNext(dir, k.oracle, current.config, feed, url);
      AlikeStays(dir, s, current, m.next, committed, env, FinishUpdate(k.oracle, s, k.dataPath, current, session, url, Some(feed), env).state);
    }
  }

  /** The three ways of an update whose feed has come. */
  lemma UpdateIs(k: Setting, s: State, current: Published, session: Option<nat>, url: string, feed: seq<Proxy>, env: UpdateEnv)
    requires Remembers(s, current)
    ensures SameSession(s, current, session) ==> s.config == Some(current)
    ensures var m, t := Merge(k.oracle, current.config, feed, url), FinishUpdate(k.oracle, s, k.dataPath, current, session, url, Some(feed), env).state;
      if !(SameSession(s, current, session) && m.Merged?) then t == s
      else if m.result.changed && m.result.runtimeChanged then t == Apply(s, k.dataPath, current, m.next, env).state
      else Republished(s, t, m.next)
  {
    hide Merge, Apply;
  }

  /** At most the published configuration is another one. */
  predicate Republished(s: State, t: State, next: Config) {
    && t.config.Some? && (t.config == s.config || t.config.value.config == next)
    && t.core == s.core && t.written == s.written && t.manager == s.manager && t.alive == s.alive
  }

  lemma AlikeNext(dir: string, o: Oracle, c: Config, feed: seq<Proxy>, url: string)
    requires Merge(o, c, feed, url).Merged? && !(Merge(o, c, feed, url).result.changed && Merge(o, c, feed, url).result.runtimeChanged)
    ensures Alike(dir, c, Merge(o, c, feed, url).next)
  {
    MergeStampsChanged(o, c, feed, url);
    if !Merge(o, c, feed, url).result.runtimeChanged { SkipRestartSound(o, c, feed, url, dir); }
    hide Merge, Generated;
  }

  /** Publishing what the core cannot tell from what it has. */
  lemma AlikeStays(dir: string, s: State, current: Published, next: Config, committed: bool, env: UpdateEnv, t: State)
    requires s.config == Some(current) && Agrees(dir, s) && Alike(dir, current.config, next) && Republished(s, t, next)
    ensures !LeavesBehind(dir, s, Some((current, next)), committed, env)
    ensures Agrees(dir, t)
  {
    hide Generated;
  }

  lemma AppliedAgreesIff(dir: string, s: State, dataPath: string, current: Published, next: Config, env: UpdateEnv)
    requires s.config == Some(current) && Agrees(dir, s)
    ensures Agrees(dir, Apply(s, dataPath, current, next, env).state) <==>
            !LeavesBehind(dir, s, Some((current, next)), env.saved && !ReloadBreaks(s, env.reload), env)
  {
    ApplyIs(s, dataPath, current, next, env);
    hide Agrees, Alike, Apply, Behind, Survives, ReloadBreaks;
    if !IsUp(s) {
      DownStaysDown(s, dataPath, current, next, env);
      NotUpAgrees(dir, Apply(s, dataPath, current, next, env).state);
    } else if Alike(dir, current.config, next) {
      AlikeAgrees(dir, s, dataPath, current, next, env);
    } else {
      ApplyAgreesIff(dir, s, dataPath, current, next, env);
      if !IsUp(Apply(s, dataPath, current, next, env).state) { NotUpAgrees(dir, Apply(s, dataPath, current, next, env).state); }
    }
  }

  lemma SavedAgreesIff(dir: string, s: State, dataPath: string, current: Published, next: Config, env: UpdateEnv)
    requires s.config == Some(current) && Agrees(dir, s)
    ensures Agrees(dir, SaveAndApply(s, dataPath, current, next, env).state) <==>
            !LeavesBehind(dir, s, Some((current, next)), !ReloadBreaks(s, env.reload), env)
  {
    SaveAndApplyIs(s, dataPath, current, next, env);
    hide Agrees, Alike, SaveAndApply, Behind, Survives, ReloadBreaks;
    if !IsUp(s) {
      DownStaysDown(s, dataPath, current, next, env);
      NotUpAgrees(dir, SaveAndApply(s, dataPath, current, next, env).state);
    } else if Alike(dir, current.config, next) {
      AlikeAgrees(dir, s, dataPath, current, next, env);
    } else {
      SaveAndApplyAgreesIff(dir, s, dataPath, current, next, env);
      if !IsUp(SaveAndApply(s, dataPath, current, next, env).state) { NotUpAgrees(dir, SaveAndApply(s, dataPath, current, next, env).state); }
    }
  }

  lemma NotUpAgrees(dir: string, s: State)
    requires !IsUp(s)
    ensures Agrees(dir, s)
  {
  }

  lemma MergeStampsChanged(o: Oracle, c: Config, feed: seq<Proxy>, url: string)
    requires Merge(o, c, feed, url).Merged?
    ensures Merge(o, c, feed, url).result.changed <==> Merge(o, c, feed, url).next != c
  {
    hide Prepare, PairingOf, Kept, Counted, Allocate, IsValid, NamesDistinct, SortByKey, Unpaired, NamesOf, PortsOf;
  }

  /** No change brings up a core that is down. */
  lemma DownStaysDown(s: State, dataPath: string, current: Published, next: Config, env: UpdateEnv)
    requires s.config == Some(current) && !IsUp(s)
    ensures !IsUp(Apply(s, dataPath, current, next, env).state) && !IsUp(SaveAndApply(s, dataPath, current, next, env).state)
  {
    hide Reload;
    var s1 := Publish(s, next);
    ReloadIs(s1, env.reload);
    ReloadIs(Reload(s1, env.reload).state.(config := Some(current)), env.back);
    var t1 := Saved(s1, dataPath, next);
    ReloadIs(t1, env.reload);
    var t2 := Reload(t1, env.reload).state.(config := Some(current));
    ReloadIs(if env.restored then Saved(t2, dataPath, current.config) else t2, env.back);
  }

  lemma ImportedAgreesIff(k: Setting, dir: string, w: World, step: Step)
    requires Inv(w) && Can(w, step) && step.Imported? && Agrees(dir, w.state)
    ensures Agrees(dir, After(k, w, step).state) <==> !FallsBehind(k, dir, w, step)
  {
    hide Inv, After, Agrees, FallsBehind, LeavesBehind, FinishImport, ReloadBreaks, ImportChange, Remembers;
    var t := w.threads[step.thread];
    RemembersHeld(w, step.thread);
    StateAfterChange(k, w, step);
    FallsBehindIs(k, dir, w, step);
    hide Can;
    if t.held.Some? {
      ImportAgreesIff(k, dir, w.state, t.held.value, t.session, t.node, step.env);
    } else {
      NothingHeld(k, w.state, t.session, t.node, step.env);
    }
  }

  lemma NothingHeld(k: Setting, s: State, session: Option<nat>, node: Proxy, env: UpdateEnv)
    ensures FinishImport(s, k.dataPath, None, session, node, env).state == s
  {
  }

  lemma ImportAgreesIff(k: Setting, dir: string, s: State, current: Published, session: Option<nat>, node: Proxy, env: UpdateEnv)
    requires Remembers(s, current) && Agrees(dir, s)
    ensures Agrees(dir, FinishImport(s, k.dataPath, Some(current), session, node, env).state) <==>
            !LeavesBehind(dir, s, ImportChange(s, current, session, node, env), !ReloadBreaks(s, env.reload), env)
  {
    hide ManualMerge, Agrees, SaveAndApply, Behind, Survives, ReloadBreaks, Alike;
    var change := ImportChange(s, current, session, node, env);
    if change.Some? { SavedAgreesIff(dir, s, k.dataPath, current, change.value.1, env); }
  }

  /** What each kind of hold does to the globals. */
  lemma StateAfterChange(k: Setting, w: World, step: Step)
    requires Can(w, step)
    ensures step.Fetched? ==>
      var t := w.threads[step.thread];
      After(k, w, step).state == FinishUpdate(k.oracle, w.state, k.dataPath, t.current, t.session, t.url, step.feed, step.env).state
    ensures step.Imported? ==>
      var t := w.threads[step.thread];
      After(k, w, step).state == FinishImport(w.state, k.dataPath, t.held, t.session, t.node, step.env).state
  {
    hide FinishUpdate, FinishImport, BeginStart, FinishStart, StartupMerge, RestartProxy, StopProxy, Grab;
  }

  lemma StateAfterStart(k: Setting, w: World, step: Step)
    requires Can(w, step)
    ensures step.StartQueued? ==>
      After(k, w, step).state == StartAtEpoch(w.state, w.threads[step.thread].epoch, k.dataPath, step.start).state
    ensures step.StartNow? ==> After(k, w, step).state == BeginStart(w.state, k.dataPath, step.start).state
    ensures step.Restart? ==> After(k, w, step).state == RestartProxy(w.state, k.dataPath, step.halt, step.start).state
    ensures step.Stop? ==> After(k, w, step).state == StopProxy(w.state, step.halt).state
    ensures step.Downloaded? ==>
      var t := w.threads[step.thread];
      After(k, w, step).state == FinishStart(w.state, t.startup, t.path, StartupMerge(k.oracle, t.loaded.config, step.feed), step.saved, step.boot).state
  {
    hide FinishUpdate, FinishImport, BeginStart, StartAtEpoch, FinishStart, StartupMerge, RestartProxy, StopProxy;
  }

  lemma StartsAgree(k: Setting, dir: string, w: World, step: Step)
    requires Inv(w) && Can(w, step) && Agrees(dir, w.state)
    requires step.StartQueued? || step.StartNow? || step.Restart? || step.Stop?
    ensures Agrees(dir, After(k, w, step).state)
  {
    StateOf(w);
    hide Inv, Agrees, After, BeginStart, RestartProxy, StopProxy;
    StateAfterStart(k, w, step);
    hide Can;
    if step.Stop? {
      StopAgrees(dir, w.state, step.halt);
    } else if step.Restart? {
      RestartAgrees(dir, w.state, k.dataPath, step.halt, step.start);
    } else {
      BeginStartAgrees(dir, w.state, k.dataPath, step.start);
    }
  }

  lemma DownloadAgrees(k: Setting, dir: string, w: World, step: Step)
    requires Inv(w) && Can(w, step) && Agrees(dir, w.state) && step.Downloaded?
    ensures Agrees(dir, After(k, w, step).state)
  {
    StateOf(w);
    hide Inv, Agrees, After, FinishStart, StartupMerge;
    StateAfterStart(k, w, step);
    var t := w.threads[step.thread];
    FinishStartAgrees(dir, k.oracle, w.state, t.startup, t.path, t.loaded.config, step.feed, step.saved, step.boot);
  }

  predicate IsOther(step: Step) {
    step.Dispatch? || step.RequestUpdate? || step.RequestConfigured? || step.Dequeue? || step.RequestImport? || step.Ends? || step.Take? || step.WatchEnds?
  }

  lemma OthersState(k: Setting, w: World, step: Step)
    requires Can(w, step) && IsOther(step)
    ensures var s, t := w.state, After(k, w, step).state;
      && t.core == s.core && t.written == s.written && t.alive <= s.alive
      && (t.manager.Some? ==> t.manager == s.manager && t.config == s.config)
  {
    hide FinishUpdate, FinishImport, BeginStart, StartAtEpoch, FinishStart, StartupMerge, RestartProxy, StopProxy, Launch, LaunchAt, SameSession, Changed;
    if step.WatchEnds? {
      WatchState(w.state, w.threads[step.thread].manager, w.threads[step.thread].checker);
      hide Watch;
    }
  }

  lemma WatchState(s: State, m: nat, h: nat)
    ensures var t := Watch(s, m, h);
      t.core == s.core && t.written == s.written && t.alive == s.alive && (t.manager.Some? ==> t == s)
  {
  }

  lemma OthersAgree(k: Setting, dir: string, w: World, step: Step)
    requires Can(w, step) && Agrees(dir, w.state) && IsOther(step)
    ensures Agrees(dir, After(k, w, step).state)
  {
    hide Agrees, After, Can;
    OthersState(k, w, step);
    LessUp(dir, w.state, After(k, w, step).state);
  }

  /** Whether a hold leaves a core that is up with what is in force: always, but for a change that falls
      behind. */
  lemma StepAgreesIff(k: Setting, dir: string, w: World, step: Step)
    requires Inv(w) && Can(w, step) && Agrees(dir, w.state)
    ensures Agrees(dir, After(k, w, step).state) <==> !FallsBehind(k, dir, w, step)
  {
    hide Inv, Agrees, After, Can, Change, LeavesBehind, ReloadBreaks;
    if step.Fetched? {
      FetchedAgreesIff(k, dir, w, step);
    } else if step.Imported? {
      ImportedAgreesIff(k, dir, w, step);
    } else if step.Downloaded? {
      DownloadAgrees(k, dir, w, step);
    } else if step.StartQueued? || step.StartNow? || step.Restart? || step.Stop? {
      StartsAgree(k, dir, w, step);
    } else {
      OthersAgree(k, dir, w, step);
    }
  }

  /** In every run the core that is up has been given what is in force - no matter how starts, stops,
      updates, imports and crashes interleave - exactly as long as no change falls behind. */
  lemma AgreesAlwaysIff(k: Setting, dir: string, files: map<string, Config>, ws: seq<World>, steps: seq<Step>)
    requires IsRun(k, ws, steps) && ws[0] == Initial(files)
    ensures (forall b :: 0 <= b < |ws| ==> Agrees(dir, ws[b].state)) <==>
            (forall b :: 0 <= b < |steps| ==> !FallsBehind(k, dir, ws[b], steps[b]))
  {
    InitialInv(files);
    assert Agrees(dir, ws[0].state);
    hide Inv, After, Can, Agrees, FallsBehind, Initial;
    if forall b :: 0 <= b < |steps| ==> !FallsBehind(k, dir, ws[b], steps[b]) {
      forall b | 0 <= b < |ws| ensures Agrees(dir, ws[b].state) {
        AgreesUpTo(k, dir, ws, steps, b);
      }
    }
    if forall b :: 0 <= b < |ws| ==> Agrees(dir, ws[b].state) {
      forall b | 0 <= b < |steps| ensures !FallsBehind(k, dir, ws[b], steps[b]) {
        InvAlways(k, ws, steps, b);
        assert Can(ws[b], steps[b]) && ws[b + 1] == After(k, ws[b], steps[b]);
        assert Agrees(dir, ws[b].state) && Agrees(dir, ws[b + 1].state);
        StepAgreesIff(k, dir, ws[b], steps[b]);
      }
    }
  }

  lemma {:induction false} AgreesUpTo(k: Setting, dir: string, ws: seq<World>, steps: seq<Step>, b: nat)
    requires IsRun(k, ws, steps) && Inv(ws[0]) && Agrees(dir, ws[0].state) && b <= |steps|
    requires forall c :: 0 <= c < b ==> !FallsBehind(k, dir, ws[c], steps[c])
    ensures Agrees(dir, ws[b].state)
  {
    hide Inv, After, Can, Agrees, FallsBehind;
    if b > 0 {
      AgreesUpTo(k, dir, ws, steps, b - 1);
      InvAlways(k, ws, steps, b - 1);
      assert Can(ws[b - 1], steps[b - 1]) && ws[b - 1 + 1] == After(k, ws[b - 1], steps[b - 1]);
      StepAgreesIff(k, dir, ws[b - 1], steps[b - 1]);
    }
  }

  // ---- a core that is left behind ----

  lemma AddedEnabled(c: Config, node: Proxy)
    requires ManualMerge(c, node).Placed? && |ManualMerge(c, node).next.proxies| > |c.proxies|
    ensures |Enabled(ManualMerge(c, node).next.proxies)| == |Enabled(c.proxies)| + 1
  {
    hide IsValid, NamesDistinct;
    var i := ManualTouchesOne(c, node);
    var next := ManualMerge(c, node).next.proxies;
    assert next[..|next| - 1] == c.proxies;
  }

  /** A node that is new to the configuration is new to the core. */
  lemma AddedNotAlike(dir: string, c: Config, node: Proxy)
    requires ManualMerge(c, node).Placed? && |ManualMerge(c, node).next.proxies| > |c.proxies| && IsValid(c)
    ensures !Alike(dir, c, ManualMerge(c, node).next)
  {
    hide Enabled, IsValid, Generated, ManualMerge;
    AddedEnabled(c, node);
    var next := ManualMerge(c, node).next;
    assert next.unifiedPort == c.unifiedPort && IsValid(next) by { PlacedValid(c, node); }
    AllSupported(c);
    AllSupported(next);
    OutboundsLength(c);
    OutboundsLength(next);
    if Alike(dir, c, next) { assert Generated(c, dir).outbounds == Generated(next, dir).outbounds; }
    GeneratedOutbounds(dir, c);
    GeneratedOutbounds(dir, next);
  }

  lemma PlacedValid(c: Config, node: Proxy)
    requires ManualMerge(c, node).Placed?
    ensures IsValid(ManualMerge(c, node).next) && ManualMerge(c, node).next.unifiedPort == c.unifiedPort
  {
    hide IsValid, NamesDistinct;
  }

  lemma AllSupported(c: Config)
    requires IsValid(c)
    ensures forall p :: p in c.proxies ==> Supported(p)
  {
  }

  lemma GeneratedOutbounds(dir: string, c: Config)
    ensures Generated(c, dir).outbounds == Outbounds(c)
  {
    hide Outbounds, Inbounds, Routes;
  }

  /** The environment of an import whose restart gives up waiting for the old core, and whose way back
      cannot write the core's file. */
  const STUCK := UpdateEnv(true, ReloadEnv(true, true, BounceFails(true)), ReloadEnv(false, true, Bounced(false)), true)

  /** From the first start of a valid configuration: an import of a new node that fails that way leaves the
      core's file with a node that is not in force. */
  lemma CoreLeftBehind(k: Setting, dir: string, path: string, c: Config, node: Proxy)
    requires IsValid(c) && c.subscriptionUrl == ""
    requires ManualMerge(c, node).Placed? && |ManualMerge(c, node).next.proxies| > |c.proxies|
    ensures var w := After(k, After(k, Initial(map[path := c]), StartNow(FIRST_START.(found := Some(path)))), RequestImport(node));
      && AboutToImport(w, 1, 2) && Agrees(dir, w.state) && w.state.config == Some(Published(0, c))
      && Can(w, Imported(1, STUCK)) && !Agrees(dir, After(k, w, Imported(1, STUCK)).state)
  {
    hide After, IsValid, ManualMerge, Agrees, Initial, FIRST_START;
    var w0 := Initial(map[path := c]);
    var start := StartNow(FIRST_START.(found := Some(path)));
    InitialInv(map[path := c]);
    InitialAgrees(dir, map[path := c]);
    assert Can(w0, start);
    var w1 := After(k, w0, start);
    StepAgreesIff(k, dir, w0, start);
    StepKeeps(k, w0, start);
    var w2 := After(k, w1, RequestImport(node));
    assert Can(w1, RequestImport(node));
    StepAgreesIff(k, dir, w1, RequestImport(node));
    ImportAfterStart(k, path, c, node);
    ImportsInForce(k, path, c, node);
    AddedNotAlike(dir, c, node);
    StuckFallsBehind(k, dir, w2, c, node);
    StepAgreesIff(k, dir, w2, Imported(1, STUCK));
  }

  lemma InitialAgrees(dir: string, files: map<string, Config>)
    ensures Agrees(dir, Initial(files).state)
  {
    hide Generated;
  }

  lemma StuckFallsBehind(k: Setting, dir: string, w: World, c: Config, node: Proxy)
    requires AboutToImport(w, 1, 2) && w.state.config == Some(Published(0, c)) && w.threads[1].node == node
    requires ManualMerge(c, node).Placed? && !Alike(dir, c, ManualMerge(c, node).next)
    ensures Inv(w) && Can(w, Imported(1, STUCK)) && FallsBehind(k, dir, w, Imported(1, STUCK))
  {
    hide Inv, Alike, ManualMerge, NoOrphan;
  }

  lemma ImportsInForce(k: Setting, path: string, c: Config, node: Proxy)
    requires IsValid(c) && c.subscriptionUrl == "" && ManualMerge(c, node).Placed?
    ensures var w := After(k, After(k, Initial(map[path := c]), StartNow(FIRST_START.(found := Some(path)))), RequestImport(node));
      |w.threads| >= 2 && w.state.config == Some(Published(0, c)) && w.threads[1].Importing? && w.threads[1].node == node
  {
    hide IsValid, ManualMerge, BeginStart;
    FirstStart(path, k.dataPath, c);
  }
}
