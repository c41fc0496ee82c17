/** The library's exported operations as they are programmed, one method for each hold of the lock. */
module SessionLibrary {
  import opened Text
  import opened ProxyConfig
  import opened SubscriptionMatch
  import opened SubscriptionMerge
  import opened MergeMethods
  import opened ManualNode
  import S = Session
  import opened SessionRuns
  import opened SessionTheorems
  import SessionStarts

  type Published = S.Published

  class Library {
    const oracle: Oracle
    const dataPath: string

    var epoch: nat
    var startup: Option<nat>
    var config: Option<Published>
    var manager: Option<nat>
    var checker: Option<nat>
    var active: Option<nat>
    var configPath: string
    var closed: set<nat>
    var alive: set<nat>
    var checking: set<nat>
    var written: Option<Config>
    var core: Option<Config>
    var files: map<string, Config>
    var next: nat

    ghost function View(): S.State
      reads this
    {
      S.State(epoch, startup, config, manager, checker, active, configPath, closed, alive, checking, written, core, files, next)
    }

    ghost predicate Valid()
      reads this
    {
      StateInv(View())
    }

    constructor (oracle: Oracle, dataPath: string, files: map<string, Config>)
      ensures Valid() && View() == Initial(files).state
    {
      this.oracle, this.dataPath, this.files := oracle, dataPath, files;
      epoch, startup, config, manager, checker, active := 0, None, None, None, None, None;
      configPath, closed, alive, checking, next := "", {}, {}, {}, 0;
      written, core := None, None;
    }

    method Fresh() returns (id: nat)
      modifies this`next
      ensures id == old(next) && next == id + 1
    {
      id := next;
      next := next + 1;
    }

    /** Closing a closed channel would panic. */
    method CloseChannel(stop: nat)
      requires stop !in closed
      modifies this`closed
      ensures closed == old(closed) + {stop}
    {
      closed := closed + {stop};
    }

    method StopSubscriptionUpdater()
      requires active.Some? ==> active.value !in closed
      modifies this
      ensures View() == S.StopUpdater(old(View()))
    {
      if active.Some? {
        CloseChannel(active.value);
        active := None;
      }
    }

    method StopHealthChecker()
      modifies this
      ensures View() == S.StopChecker(old(View()))
    {
      if checker.Some? {
        checking := checking - {checker.value};
      }
    }

    method StopManager(halt: S.Halt) returns (ok: bool)
      modifies this
      ensures ok <==> !(old(manager).Some? && halt.HaltFails?)
      ensures View() == S.StopManager(old(View()), halt)
    {
      if manager.None? { return true; }
      if halt.HaltFails? { return false; }
      alive := alive - {manager.value};
      return true;
    }

    method Clear()
      modifies this
      ensures View() == S.Cleared(old(View()))
    {
      manager, checker, config := None, None, None;
    }

    method Publish(c: Config)
      modifies this
      ensures View() == S.Publish(old(View()), c)
    {
      var id := Fresh();
      config := Some(S.Published(id, c));
    }

    /** startProxyInDataDir, from the publication of the configuration on. */
    method Boot(c: Config, env: S.BootEnv) returns (r: S.StartResult)
      modifies this
      ensures S.StartOutcome(View(), r) == S.Boot(old(View()), c, env)
    {
      var published := c;
      if env.routeMode != "" { published := c.(routeMode := env.routeMode); }
      Publish(published);
      r := LaunchCore(c.healthCheck.enabled, env);
    }

    method LaunchCore(checked: bool, env: S.BootEnv) returns (r: S.StartResult)
      requires config.Some?
      modifies this
      ensures S.StartOutcome(View(), r) == S.LaunchCore(old(View()), checked, env)
    {
      if !env.generated { return S.NotStarted; }
      written := Some(config.value.config);
      if !env.binary { return S.NotStarted; }
      var m := Fresh();
      manager := Some(m);
      var h := Fresh();
      checker := Some(h);
      if !env.boots { return S.NotStarted; }
      hide S.ComesUp;
      ComeUp(m, h, checked);
      return S.Started(m, h);
    }

    method ComeUp(m: nat, h: nat, checked: bool)
      modifies this
      ensures View() == S.ComesUp(old(View()), m, h, checked)
    {
      core := written;
      alive := alive + {m};
      if checked { checking := checking + {h}; } else { assert checking + {} == checking; }
      if active.None? {
        var u := Fresh();
        active := Some(u);
      }
    }

    /** startProxy. */
    method StartProxy(env: S.StartEnv) returns (r: S.StartResult)
      requires Valid()
      modifies this
      ensures Valid() && S.StartOutcome(View(), r) == S.BeginStart(old(View()), dataPath, env)
      ensures LaunchInv(S.StartOutcome(View(), r))
      // a startup in flight or a ready core: nothing happens
      ensures old(startup).Some? || (old(manager).Some? && env.ready && old(manager).value in old(alive)) ==>
                r.NotStarted? && View() == old(View())
      // nothing is published, registered or launched before the old manager is gone
      ensures config != old(config) && config.Some? ==> old(manager).Some? ==> old(manager).value !in alive
      ensures !r.NotStarted? ==> config.Some? && config != old(config)
      // a registered start has loaded a valid configuration with a subscription, one that is launched has none
      ensures r.Registered? ==>
                && startup == Some(r.session) && config == Some(r.loaded) && configPath == r.path && r.path in files
                && files[r.path] == r.loaded.config && IsValid(r.loaded.config) && r.loaded.config.subscriptionUrl != ""
                && manager.None? && active.None?
      ensures r.Started? ==>
                && manager == Some(r.manager) && checker == Some(r.checker) && r.manager in alive && active.Some? && config.Some?
                && configPath in files && files[configPath].subscriptionUrl == ""
                && SessionStarts.PublishedAs(View(), config.value.id, files[configPath], env.boot.routeMode)
    {
      SessionStarts.StartedIs(View(), dataPath, env);
      StartDisposesFirst(View(), dataPath, env);
      hide IsValid, S.BeginStart, StateInv, LaunchInv;
      r := StartInDataDir(env);
    }

    /** startProxyInDataDir, up to the download. */
    method StartInDataDir(env: S.StartEnv) returns (r: S.StartResult)
      requires Valid()
      modifies this
      ensures Valid() && S.StartOutcome(View(), r) == S.BeginStart(old(View()), dataPath, env)
      ensures LaunchInv(S.StartOutcome(View(), r))
    {
      hide IsValid, S.Boot;
      ghost var before := View();
      BeginStartKeeps(before, dataPath, env);
      if startup.Some? { return S.NotStarted; }
      if manager.Some? && env.ready && manager.value in alive { return S.NotStarted; }
      StopSubscriptionUpdater();
      StopHealthChecker();
      var ok := StopManager(env.halt);
      if !ok {
        assert View() == S.StopChecker(S.StopUpdater(before));
        return S.NotStarted;
      }
      Clear();
      assert View() == S.Disposed(before, env.halt);
      var found := env.found;
      if found.None? {
        if env.placeholder.Some? {
          files := files[dataPath := env.placeholder.value];
          found := Some(dataPath);
        } else {
          return S.NotStarted;
        }
      }
      configPath := found.value;
      assert View() == S.Located(S.Disposed(before, env.halt), dataPath, env);
      r := LoadAndGo(env);
    }

    method LoadAndGo(env: S.StartEnv) returns (r: S.StartResult)
      modifies this
      ensures S.StartOutcome(View(), r) == S.LoadAndGo(old(View()), env)
    {
      hide IsValid, S.Boot;
      if !env.readable || configPath !in files { return S.NotStarted; }
      var c := files[configPath];
      var valid := Validate(c);
      if !valid { return S.NotStarted; }
      if c.subscriptionUrl != "" {
        var session := Fresh();
        startup := Some(session);
        var id := Fresh();
        var loaded := S.Published(id, c);
        config := Some(loaded);
        return S.Registered(session, loaded, configPath);
      }
      r := Boot(c, env.boot);
    }

    method StartupEpoch() returns (e: nat)
      ensures e == epoch
    {
      return epoch;
    }

    /** startProxyAtEpoch: a start that was dispatched before the last stop gives up. */
    method StartAtEpoch(captured: nat, env: S.StartEnv) returns (r: S.StartResult)
      requires Valid()
      modifies this
      ensures Valid() && S.StartOutcome(View(), r) == S.StartAtEpoch(old(View()), captured, dataPath, env)
      ensures captured < old(epoch) ==> r.NotStarted? && View() == old(View())
    {
      if captured != epoch { return S.NotStarted; }
      r := StartProxy(env);
    }

    /** startProxyInDataDir, after the download. */
    method FinishStart(session: nat, path: string, c: Config, feed: Option<seq<Proxy>>, saved: bool, env: S.BootEnv) returns (r: S.StartResult)
      requires Valid()
      modifies this
      ensures Valid()
      ensures S.StartOutcome(View(), r) == S.FinishStart(old(View()), session, path, S.StartupMerge(oracle, c, feed), saved, env)
      ensures old(startup) != Some(session) ==> View() == old(View())
      // the merge of what was loaded with the feed is saved and published, or neither file nor pointer moves
      ensures SessionStarts.Commits(oracle, old(View()), session, c, feed, saved) ==>
                var next := Merge(oracle, c, feed.value, c.subscriptionUrl).next;
                && files == old(files)[path := next] && SessionStarts.PublishedAs(View(), old(View()).next, next, env.routeMode)
                && (r.Started? <==> env.generated && env.binary && env.boots)
      ensures !SessionStarts.Commits(oracle, old(View()), session, c, feed, saved) ==>
                && r.NotStarted? && files == old(files) && config == old(config) && manager == old(manager) && alive == old(alive)
    {
      hide Merge, S.Boot;
      FinishStartKeeps(View(), session, path, S.StartupMerge(oracle, c, feed), saved, env);
      SessionStarts.FinishBothOrNeither(oracle, View(), session, path, c, feed, saved, env);
      if startup != Some(session) { return S.NotStarted; }
      startup := None;
      if feed.None? { return S.NotStarted; }
      var merged := MergeSubscription(oracle, c, feed.value, c.subscriptionUrl);
      if merged.Failed? || !saved { return S.NotStarted; }
      files := files[path := merged.next];
      r := Boot(merged.next, env);
    }

    /** stopProxy. */
    method StopProxy(halt: S.Halt) returns (ok: bool)
      requires Valid()
      modifies this
      ensures Valid() && S.StopOutcome(View(), ok) == S.StopProxy(old(View()), halt)
      ensures epoch > old(epoch) && active.None? && startup.None?
      // all or nothing: either nothing is left, or the manager that could not be stopped keeps its place
      ensures ok ==> manager.None? && config.None? && (old(manager).Some? ==> old(manager).value !in alive)
      ensures !ok ==> manager == old(manager) && config == old(config) && alive == old(alive)
    {
      ghost var before := View();
      StopKeeps(before, halt);
      assert active.Some? ==> active.value !in closed;
      hide StateInv;
      epoch := epoch + 1;
      startup := None;
      StopSubscriptionUpdater();
      StopHealthChecker();
      assert View() == S.StopChecker(S.StopUpdater(before.(epoch := before.epoch + 1, startup := None)));
      hide S.StopChecker, S.StopUpdater;
      ok := StopManager(halt);
      if !ok { return; }
      Clear();
    }

    /** OneProxy_Restart. */
    method Restart(halt: S.Halt, env: S.StartEnv) returns (r: S.StartResult)
      requires Valid()
      modifies this
      ensures Valid() && S.StartOutcome(View(), r) == S.RestartProxy(old(View()), dataPath, halt, env)
      // a restart needs a manager and no startup in flight; a failed stop starts nothing
      ensures old(startup).Some? || old(manager).None? ==> r.NotStarted? && View() == old(View())
      ensures old(startup).None? && old(manager).Some? && halt.HaltFails? ==>
                r.NotStarted? && manager == old(manager) && alive == old(alive) && startup.None? && config == old(config)
      ensures old(startup).None? && old(manager).Some? ==> epoch == old(epoch) + 1
      ensures !r.NotStarted? ==> old(manager).Some? && old(manager).value !in alive
    {
      RestartStopsFirst(View(), dataPath, halt, env);
      if startup.Some? { return S.NotStarted; }
      if manager.None? { return S.NotStarted; }
      var ok := StopProxy(halt);
      if !ok { return S.NotStarted; }
      r := StartProxy(env);
    }

    /** The watcher's hold. */
    method Watch(m: nat, h: nat)
      requires Valid()
      modifies this
      ensures Valid() && View() == S.Watch(old(View()), m, h)
      ensures old(manager) != Some(m) || old(checker) != Some(h) ==> View() == old(View())
      ensures old(manager) == Some(m) && old(checker) == Some(h) ==>
                manager.None? && config.None? && active.None? && epoch == old(epoch) && alive == old(alive)
    {
      WatchKeeps(View(), m, h);
      if manager != Some(m) || checker != Some(h) { return; }
      StopHealthChecker();
      StopSubscriptionUpdater();
      Clear();
    }

    /** reloadAndRestart. */
    method Reload(env: S.ReloadEnv) returns (ok: bool, taken: bool, ghost lost: bool)
      requires Valid()
      modifies this
      ensures Valid() && S.ReloadOutcome(View(), ok, taken, lost) == S.Reload(old(View()), env)
      ensures !ok ==> !env.generated || env.bounce.BounceFails?
      ensures alive <= old(alive)
      ensures View() == old(View()).(alive := alive, checking := checking, written := written, core := core)
      // the file is generated from the configuration in force, and a core that is restarted reads it
      ensures env.generated && config.Some? ==> written == Some(config.value.config)
      ensures !env.generated ==> written == old(written)
      ensures core == old(core) || (core == written && env.bounce.Bounced?)
      // checks go on only with a core that has been restarted, and only if they are enabled
      ensures env.generated && config.Some? && checker.Some? ==>
                (checker.value in checking <==>
                  old(manager).Some? && env.ready && old(manager).value in old(alive) && env.bounce.Bounced? && config.value.config.healthCheck.enabled)
    {
      ReloadKeepsInv(View(), env);
      if config.None? { return true, false, false; }
      if !env.generated { return false, false, false; }
      written := Some(config.value.config);
      StopHealthChecker();
      if manager.None? || !(env.ready && manager.value in alive) { return true, false, false; }
      match env.bounce
      case BounceFails(still) =>
        if !still { alive := alive - {manager.value}; }
        return false, false, !still;
      case Bounced(t) =>
        core := written;
        if config.value.config.healthCheck.enabled && checker.Some? { checking := checking + {checker.value}; }
        return true, t, false;
    }

    /** Whether the configuration and session an update remembers are still those in force. */
    predicate IsCurrent(current: Published, session: Option<nat>)
      reads this
    {
      config.Some? && config.value.id == current.id && active == session
    }

    /** updateSubscriptionLocked, up to the queue; w is any world in this state. */
    method BeginUpdate(url: string, allow: bool, ghost w: World) returns (t: seq<Thread>)
      requires w.state == View()
      ensures SessionRuns.BeginUpdate(w, url, allow) == w.(threads := w.threads + t)
    {
      if startup.Some? { return []; }
      if config.None? { return []; }
      return [Queued(config.value, active, url, allow)];
    }

    /** updateConfiguredSubscriptionForSession: a manual update, or a tick whose stop channel is open. */
    method UpdateConfigured(stop: Option<nat>, ghost w: World) returns (t: seq<Thread>)
      requires w.state == View()
      ensures After(Setting(oracle, dataPath), w, RequestConfigured(stop)) == w.(threads := w.threads + t)
      ensures (stop.Some? && stop.value in closed) || config.None? || startup.Some? ==> t == []
    {
      if stop.Some? && stop.value in closed { return []; }
      if config.None? || config.value.config.subscriptionUrl == "" { return []; }
      t := BeginUpdate(config.value.config.subscriptionUrl, false, w);
    }

    /** updateSubscriptionLocked, once it has the queue: whether to go on to the download. */
    method Dequeued(current: Published, session: Option<nat>, url: string, allow: bool, i: nat, ghost w: World) returns (go: bool)
      requires w.state == View() && Can(w, Dequeue(i)) && w.threads[i] == Queued(current, session, url, allow)
      ensures After(Setting(oracle, dataPath), w, Dequeue(i)) ==
                if go then w.(threads := w.threads[i := Fetching(current, session, url)], queue := Some(i))
                else w.(threads := w.threads[i := Over])
    {
      if !IsCurrent(current, session) { return false; }
      if !allow && current.config.subscriptionUrl != url { return false; }
      return true;
    }

    /** importManualProxy, up to the queue. */
    method BeginImport(node: Proxy, ghost w: World) returns (t: seq<Thread>)
      requires w.state == View()
      ensures After(Setting(oracle, dataPath), w, RequestImport(node)) == w.(threads := w.threads + t)
    {
      if startup.Some? { return []; }
      return [Importing(config, active, node)];
    }

    /** updateSubscriptionLocked, after the download. */
    method FinishUpdate(current: Published, session: Option<nat>, url: string, feed: Option<seq<Proxy>>, env: S.UpdateEnv) returns (ok: bool, taken: bool, ghost lost: bool)
      requires Valid() && Remembers(View(), current)
      modifies this
      ensures Valid() && Updates(old(View()), View())
      ensures S.ChangeOutcome(View(), ok, taken, lost) == S.FinishUpdate(oracle, old(View()), dataPath, current, session, url, feed, env)
      // pointer and file advance together, to the merge of what is in force, or stay
      ensures config != old(config) || files != old(files) ==>
                && ok && feed.Some? && old(config) == Some(current)
                && (var r := Merge(oracle, current.config, feed.value, url);
                    r.Merged? && config == Some(S.Published(old(next), r.next)) && files == old(files)[dataPath := r.next])
    {
      hide Merge, S.Reload, StateInv;
      ghost var before := View();
      S.UpdateBothOrNeither(oracle, before, dataPath, current, session, url, feed, env);
      FinishUpdateKeeps(Setting(oracle, dataPath), before, current, session, url, feed, env);
      if !IsCurrent(current, session) { return false, false, false; }
      if feed.None? { return false, false, false; }
      var merged := MergeSubscription(oracle, current.config, feed.value, url);
      if merged.Failed? { return false, false, false; }
      if !merged.result.changed { return true, false, false; }
      if !merged.result.runtimeChanged {
        if !env.saved { return false, false, false; }
        Publish(merged.next);
        files := files[dataPath := merged.next];
        return true, false, false;
      }
      ok, taken, lost := Apply(current, merged.next, env);
    }

    method Apply(current: Published, merged: Config, env: S.UpdateEnv) returns (ok: bool, taken: bool, ghost lost: bool)
      requires Valid() && config == Some(current) && startup.None?
      modifies this
      ensures S.ChangeOutcome(View(), ok, taken, lost) == S.Apply(old(View()), dataPath, current, merged, env)
    {
      hide S.Reload;
      Publish(merged);
      var reloaded, t, l := Reload(env.reload);
      if !reloaded {
        config := Some(current);
        var _, u, l' := Reload(env.back);
        return false, t || u, l || l';
      }
      if !env.saved {
        config := Some(current);
        var _, u, l' := Reload(env.back);
        return false, t || u, l || l';
      }
      files := files[dataPath := merged];
      return true, t, l;
    }

    /** importManualProxy, once it has the queue. */
    method FinishImport(held: Option<Published>, session: Option<nat>, node: Proxy, env: S.UpdateEnv) returns (ok: bool, taken: bool, ghost lost: bool)
      requires Valid() && (held.Some? ==> Remembers(View(), held.value))
      modifies this
      ensures Valid() && Updates(old(View()), View())
      ensures S.ChangeOutcome(View(), ok, taken, lost) == S.FinishImport(old(View()), dataPath, held, session, node, env)
      // a pointer that moves takes the file with it, and one that stays gets its file back if that can be written
      ensures config != old(config) ==>
                && ok && held.Some? && old(config) == held
                && (var r := ManualMerge(held.value.config, node);
                    r.Placed? && config == Some(S.Published(old(next), r.next)) && files == old(files)[dataPath := r.next])
      ensures config == old(config) && files != old(files) && env.restored ==>
                config.Some? && files == old(files)[dataPath := config.value.config]
    {
      hide ManualMerge, S.Reload, S.SaveAndApply, StateInv;
      S.ImportBothOrNeither(View(), dataPath, held, session, node, env);
      FinishImportKeeps(Setting(oracle, dataPath), View(), held, session, node, env);
      if config.None? { return false, false, false; }
      if startup.Some? { return false, false, false; }
      if held.None? || !IsCurrent(held.value, session) { return false, false, false; }
      var merged := MergeManualProxy(held.value.config, node);
      if merged.Refused? { return false, false, false; }
      if !env.saved { return false, false, false; }
      ok, taken, lost := SaveAndApply(held.value, merged.next, env);
    }

    method SaveAndApply(current: Published, merged: Config, env: S.UpdateEnv) returns (ok: bool, taken: bool, ghost lost: bool)
      requires Valid() && config == Some(current)
      modifies this
      ensures S.ChangeOutcome(View(), ok, taken, lost) == S.SaveAndApply(old(View()), dataPath, current, merged, env)
    {
      hide S.Reload;
      Publish(merged);
      files := files[dataPath := merged];
      var reloaded, t, l := Reload(env.reload);
      if reloaded { return true, t, l; }
      config := Some(current);
      if env.restored { files := files[dataPath := current.config]; }
      var _, u, l' := Reload(env.back);
      return false, t || u, l || l';
    }
  }

  /** The worker of the tray: the generation it belongs to and the epoch it was dispatched with. */
  datatype Worker = Worker(generation: nat, epoch: nat)

  /** The tray's start and stop, as a client of the epochs. */
  class Tray {
    const library: Library
    var starting: bool
    var generation: nat
    var worker: Option<Worker>

    ghost predicate Valid()
      reads this, library
    {
      && library.Valid()
      && (worker.Some? ==> worker.value.epoch <= library.epoch && worker.value.generation <= generation)
      && (starting ==> worker.Some? && worker.value.generation == generation)
    }

    constructor (library: Library)
      requires library.Valid()
      ensures Valid() && this.library == library && !starting && worker.None?
    {
      this.library := library;
      starting, generation, worker := false, 0, None;
    }

    /** doStart: one worker at a time, dispatched with the epoch captured here. */
    method DoStart() returns (dispatched: Option<Worker>)
      requires Valid()
      modifies this
      ensures Valid() && starting && dispatched.Some? == !old(starting)
      ensures dispatched.Some? ==>
        generation == old(generation) + 1 && worker == dispatched && worker.value == Worker(generation, library.epoch)
      ensures dispatched.None? ==> worker == old(worker) && generation == old(generation)
    {
      if starting { return None; }
      worker := None;
      starting := true;
      generation := generation + 1;
      var captured := library.StartupEpoch();
      worker := Some(Worker(generation, captured));
      return worker;
    }

    /** The callback a worker queues when its start has returned: one of an older generation is ignored. */
    method Finished(from: nat)
      requires Valid()
      modifies this`starting
      ensures Valid() && starting == (old(starting) && from != generation)
    {
      if from != generation { return; }
      starting := false;
    }

    /** stopStartupWorker: afterwards the worker is joined, its callback is outdated, and whatever it was
        dispatched with is stale; without an error the library is fully stopped. */
    method StopStartupWorker(halt: S.Halt) returns (ok: bool)
      requires Valid()
      modifies this, library
      ensures Valid() && !starting && worker.None? && generation == old(generation) + 1
      ensures old(worker).Some? ==> old(worker).value.epoch < library.epoch && old(worker).value.generation < generation
      ensures S.StopOutcome(library.View(), ok) == S.StopProxy(old(library.View()), halt)
      ensures ok ==> library.manager.None? && library.config.None? && library.startup.None? && library.active.None?
    {
      generation := generation + 1;
      ok := library.StopProxy(halt);
      worker := None;
      starting := false;
    }
  }
}
