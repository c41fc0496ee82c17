/** What holds in every run of the library. */
module SessionTheorems {
  import opened Text
  import opened ProxyConfig
  import opened SubscriptionMatch
  import opened SubscriptionMerge
  import opened ManualNode
  import opened Session
  import opened SessionRuns

  /** Before the first call. */
  function Initial(files: map<string, Config>): World {
    World(State(0, None, None, None, None, None, "", {}, {}, {}, None, None, files, 0), {}, [], None)
  }

  lemma InitialInv(files: map<string, Config>)
    ensures Inv(Initial(files)) && NoOrphan(Initial(files).state)
  {
  }

  lemma {:induction false} InvAlways(k: Setting, ws: seq<World>, steps: seq<Step>, i: nat)
    requires IsRun(k, ws, steps) && Inv(ws[0]) && i <= |steps|
    ensures Inv(ws[i])
  {
    hide Inv, After, Can;
    if i > 0 {
      InvAlways(k, ws, steps, i - 1);
      assert Can(ws[i - 1], steps[i - 1]) && ws[i - 1 + 1] == After(k, ws[i - 1], steps[i - 1]);
      StepKeeps(k, ws[i - 1], steps[i - 1]);
    }
  }

  lemma NextOf(k: Setting, ws: seq<World>, steps: seq<Step>, i: nat)
    requires IsRun(k, ws, steps) && i < |steps|
    ensures Can(ws[i], steps[i]) && ws[i + 1] == After(k, ws[i], steps[i])
  {
  }

  // ---- stop channels ----

  /** In every run a hold closes at most one stop channel, that of the running updater, and that
      channel is always open before: no channel is closed twice. */
  lemma StopChannelsCloseOnce(k: Setting, ws: seq<World>, steps: seq<Step>, i: nat)
    requires IsRun(k, ws, steps) && Inv(ws[0]) && i < |steps|
    ensures ClosesOnce(ws[i].state, ws[i + 1].state)
    ensures ws[i].state.active.Some? ==> ws[i].state.active.value !in ws[i].state.closed
  {
    InvAlways(k, ws, steps, i);
    hide Inv, After, Can, ClosesOnce;
    NextOf(k, ws, steps, i);
    StepKeeps(k, ws[i], steps[i]);
  }

  // ---- stale starts ----

  predicate IsStart(t: Thread) { t.StartCall? || t.Download? }

  predicate StartStep(step: Step, i: nat) {
    (step.StartQueued? || step.Downloaded?) && step.thread == i
  }

  /** Thread i is a start that was dispatched before the last stop, or is over. */
  ghost predicate Stale(w: World, i: nat) {
    i < |w.threads| && (w.threads[i].Over? || (IsStart(w.threads[i]) && w.threads[i].epoch < w.state.epoch))
  }

  /** A stale start gives up at its next hold, whatever else has started meanwhile. */
  lemma StaleGivesUp(k: Setting, w: World, step: Step, i: nat)
    requires Inv(w) && Can(w, step) && Stale(w, i) && StartStep(step, i)
    ensures After(k, w, step) == w.(threads := w.threads[i := Over])
  {
    hide StartupMerge, BeginStart;
    assert ThreadInv(w.state, w.threads[i]);
  }

  lemma ThreadStays(k: Setting, w: World, step: Step, i: nat)
    requires Can(w, step) && i < |w.threads| && !StartStep(step, i) && (IsStart(w.threads[i]) || w.threads[i].Over?)
    ensures i < |After(k, w, step).threads| && After(k, w, step).threads[i] == w.threads[i]
  {
    hide BeginStart, FinishStart, FinishUpdate, FinishImport, StartupMerge, RestartProxy, StartAtEpoch, StopProxy, Watch;
  }

  lemma StaleStays(k: Setting, w: World, step: Step, i: nat)
    requires Inv(w) && Can(w, step) && Stale(w, i)
    ensures Stale(After(k, w, step), i)
  {
    hide After, Inv, Can;
    if StartStep(step, i) {
      StaleGivesUp(k, w, step, i);
    } else {
      ThreadStays(k, w, step, i);
      StepKeeps(k, w, step);
    }
  }

  lemma {:induction false} StaleForever(k: Setting, ws: seq<World>, steps: seq<Step>, i: nat, a: nat, b: nat)
    requires IsRun(k, ws, steps) && Inv(ws[0]) && a <= b <= |steps| && Stale(ws[a], i)
    ensures Stale(ws[b], i)
    decreases b
  {
    hide After, Inv, Can, Stale;
    if a < b {
      StaleForever(k, ws, steps, i, a, b - 1);
      InvAlways(k, ws, steps, b - 1);
      NextOf(k, ws, steps, b - 1);
      StaleStays(k, ws[b - 1], steps[b - 1], i);
    }
  }

  /** An asynchronous start that existed before a Stop changes nothing after it: it never publishes,
      saves or launches anything, even if a newer start has registered meanwhile. */
  lemma StaleStartsNeverCommit(k: Setting, ws: seq<World>, steps: seq<Step>, i: nat, a: nat, b: nat)
    requires IsRun(k, ws, steps) && Inv(ws[0]) && a < b < |steps|
    requires steps[a].Stop? && i < |ws[a].threads| && IsStart(ws[a].threads[i])
    requires StartStep(steps[b], i)
    ensures ws[b + 1] == ws[b].(threads := ws[b].threads[i := Over])
  {
    hide After, Inv, Can, IsStart, Stale;
    InvAlways(k, ws, steps, a);
    NextOf(k, ws, steps, a);
    StopMakesStale(k, ws[a], steps[a], i);
    StaleForever(k, ws, steps, i, a + 1, b);
    InvAlways(k, ws, steps, b);
    NextOf(k, ws, steps, b);
    StaleGivesUp(k, ws[b], steps[b], i);
  }

  lemma StopMakesStale(k: Setting, w: World, step: Step, i: nat)
    requires Inv(w) && step.Stop? && i < |w.threads| && (IsStart(w.threads[i]) || w.threads[i].Over?)
    ensures Stale(After(k, w, step), i)
  {
    assert ThreadInv(w.state, w.threads[i]);
  }

  // ---- nothing is left behind ----

  /** Every living core belongs to the current manager. */
  ghost predicate NoOrphan(s: State) {
    forall m :: m in s.alive ==> s.manager == Some(m)
  }

  /** A watcher that acts on its report finds its manager's core gone. */
  ghost predicate Orderly(w: World, step: Step) {
    step.WatchEnds? && step.thread < |w.threads| && w.threads[step.thread].Reporting? ==>
      var t := w.threads[step.thread];
      w.state.manager == Some(t.manager) && w.state.checker == Some(t.checker) ==> t.manager !in w.state.alive
  }

  lemma BootNoOrphan(s: State, c: Config, env: BootEnv)
    requires NoOrphan(s) && s.manager.None?
    ensures NoOrphan(Boot(s, c, env).state)
  {
    assert forall m :: m !in s.alive;
  }

  lemma DisposedNoOrphan(s: State, halt: Halt)
    requires NoOrphan(s) && (s.manager.None? || halt.Halts?)
    ensures NoOrphan(Disposed(s, halt)) && NoOrphan(StopChecker(StopUpdater(s)))
  {
  }

  lemma BeginStartNoOrphan(s: State, dataPath: string, env: StartEnv)
    requires NoOrphan(s)
    ensures NoOrphan(BeginStart(s, dataPath, env).state)
  {
    hide Boot, IsValid, Disposed;
    if s.manager.None? || env.halt.Halts? {
      DisposedNoOrphan(s, env.halt);
      assert Disposed(s, env.halt).manager.None? by { DisposedEmpty(s, env.halt); }
      var t := Located(Disposed(s, env.halt), dataPath, env);
      if t.configPath in t.files { BootNoOrphan(t, t.files[t.configPath], env.boot); }
    }
  }

  lemma DisposedEmpty(s: State, halt: Halt)
    ensures Disposed(s, halt).manager.None?
  {
  }

  lemma FinishStartNoOrphan(s: State, session: nat, path: string, update: Option<Config>, saved: bool, env: BootEnv)
    requires NoOrphan(s) && StateInv(s)
    ensures NoOrphan(FinishStart(s, session, path, update, saved, env).state)
  {
    hide Boot;
    if s.startup == Some(session) && update.Some? && saved {
      BootNoOrphan(s.(startup := None, files := s.files[path := update.value]), update.value, env);
    }
  }

  lemma StopNoOrphan(s: State, halt: Halt)
    requires NoOrphan(s)
    ensures NoOrphan(StopProxy(s, halt).state)
    ensures StopProxy(s, halt).ok ==> StopProxy(s, halt).state.alive == {}
  {
  }

  lemma ReloadNoOrphan(s: State, env: ReloadEnv)
    requires NoOrphan(s)
    ensures NoOrphan(Reload(s, env).state)
  {
  }

  lemma FinishUpdateNoOrphan(k: Setting, s: State, current: Published, session: Option<nat>, url: string, feed: Option<seq<Proxy>>, env: UpdateEnv)
    requires NoOrphan(s)
    ensures NoOrphan(FinishUpdate(k.oracle, s, k.dataPath, current, session, url, feed, env).state)
  {
    hide Merge, Reload;
    if SameSession(s, current, session) && feed.Some? && Merge(k.oracle, current.config, feed.value, url).Merged? {
      var s1 := Publish(s, Merge(k.oracle, current.config, feed.value, url).next);
      ReloadNoOrphan(s1, env.reload);
      ReloadNoOrphan(Reload(s1, env.reload).state.(config := Some(current)), env.back);
    }
  }

  lemma FinishImportNoOrphan(k: Setting, s: State, held: Option<Published>, session: Option<nat>, node: Proxy, env: UpdateEnv)
    requires NoOrphan(s)
    ensures NoOrphan(FinishImport(s, k.dataPath, held, session, node, env).state)
  {
    hide ManualMerge, Reload;
    if held.Some? && SameSession(s, held.value, session) && ManualMerge(held.value.config, node).Placed? {
      var next := ManualMerge(held.value.config, node).next;
      var s1 := Saved(Publish(s, next), k.dataPath, next);
      ReloadNoOrphan(s1, env.reload);
      var s2 := Reload(s1, env.reload).state.(config := held);
      ReloadNoOrphan(if env.restored then Saved(s2, k.dataPath, held.value.config) else s2, env.back);
    }
  }

  lemma OrderlyStep(k: Setting, w: World, step: Step)
    requires Inv(w) && Can(w, step) && NoOrphan(w.state) && Orderly(w, step)
    ensures NoOrphan(After(k, w, step).state)
  {
    hide BeginStart, FinishStart, FinishUpdate, FinishImport, StartupMerge, StopProxy, ThreadsInv, QueueInv, StateInv;
    match step {
      case StartQueued(i, env) => BeginStartNoOrphan(w.state, k.dataPath, env);
      case StartNow(env) => BeginStartNoOrphan(w.state, k.dataPath, env);
      case Downloaded(i, feed, saved, env) =>
        var t := w.threads[i];
        FinishStartNoOrphan(w.state, t.startup, t.path, StartupMerge(k.oracle, t.loaded.config, feed), saved, env);
      case Stop(halt) => StopNoOrphan(w.state, halt);
      case Restart(halt, env) =>
        StopNoOrphan(w.state, halt);
        BeginStartNoOrphan(StopProxy(w.state, halt).state, k.dataPath, env);
      case Fetched(i, feed, env) =>
        var t := w.threads[i];
        FinishUpdateNoOrphan(k, w.state, t.current, t.session, t.url, feed, env);
      case Imported(i, env) =>
        var t := w.threads[i];
        FinishImportNoOrphan(k, w.state, t.held, t.session, t.node, env);
      case WatchEnds(i) => WatchNoOrphan(k, w, step);
      case _ =>
    }
  }

  lemma WatchNoOrphan(k: Setting, w: World, step: Step)
    requires Can(w, step) && step.WatchEnds? && NoOrphan(w.state)
    ensures NoOrphan(After(k, w, step).state) <==> Orderly(w, step)
  {
  }

  // ---- after a successful stop ----

  /** Not connected, and every start that is still under way is stale. */
  ghost predicate Quiet(w: World) {
    && w.state.startup.None? && w.state.config.None? && w.state.manager.None? && w.state.checker.None? && w.state.active.None?
    && w.state.alive == {} && w.state.checking == {}
    && forall i :: 0 <= i < |w.threads| && IsStart(w.threads[i]) ==> Stale(w, i)
  }

  lemma StopQuiets(k: Setting, w: World, halt: Halt)
    requires Inv(w) && NoOrphan(w.state) && StopProxy(w.state, halt).ok
    ensures Quiet(After(k, w, Stop(halt)))
  {
    hide Stale, QueueInv;
    StopNoOrphan(w.state, halt);
    forall i | 0 <= i < |w.threads| && IsStart(w.threads[i]) ensures Stale(After(k, w, Stop(halt)), i) {
      StopMakesStale(k, w, Stop(halt), i);
    }
  }

  lemma QuietState(k: Setting, w: World, step: Step)
    requires Inv(w) && Can(w, step) && Quiet(w) && !step.Dispatch? && !step.StartNow?
    ensures After(k, w, step).state == w.state.(epoch := After(k, w, step).state.epoch)
  {
    hide BeginStart, FinishStart, StartupMerge, Merge, ManualMerge, ThreadInv, QueueInv, Boot;
    if step.StartQueued? || step.Downloaded? {
      assert IsStart(w.threads[step.thread]);
      StaleGivesUp(k, w, step, step.thread);
    }
  }

  lemma QuietThreads(k: Setting, w: World, step: Step, i: nat)
    requires Inv(w) && Can(w, step) && Quiet(w) && !step.Dispatch? && !step.StartNow?
    requires i < |After(k, w, step).threads| && IsStart(After(k, w, step).threads[i])
    ensures i < |w.threads| && IsStart(w.threads[i])
  {
    hide BeginStart, FinishStart, StartupMerge, Merge, ManualMerge, FinishUpdate, FinishImport, ThreadInv, QueueInv, Boot;
    if step.StartQueued? || step.Downloaded? {
      assert IsStart(w.threads[step.thread]);
      StaleGivesUp(k, w, step, step.thread);
    }
  }

  lemma QuietStep(k: Setting, w: World, step: Step)
    requires Inv(w) && Can(w, step) && Quiet(w) && !step.Dispatch? && !step.StartNow?
    ensures Quiet(After(k, w, step))
    ensures After(k, w, step).state == w.state.(epoch := After(k, w, step).state.epoch)
  {
    hide After, Inv, Can, Stale;
    QuietState(k, w, step);
    forall i | 0 <= i < |After(k, w, step).threads| && IsStart(After(k, w, step).threads[i]) ensures Stale(After(k, w, step), i) {
      QuietThreads(k, w, step, i);
      StaleStays(k, w, step, i);
    }
  }

  /** After a successful Stop, and until a new start is asked for, nothing comes up again: no start,
      update, import or watcher that is still under way publishes, saves or launches anything. */
  lemma {:induction false} QuietUntilNextStart(k: Setting, ws: seq<World>, steps: seq<Step>, a: nat, b: nat)
    requires IsRun(k, ws, steps) && Inv(ws[0]) && a <= b <= |steps| && Quiet(ws[a])
    requires forall j :: a <= j < b ==> !steps[j].Dispatch? && !steps[j].StartNow?
    ensures Quiet(ws[b]) && ws[b].state == ws[a].state.(epoch := ws[b].state.epoch)
    decreases b
  {
    hide After, Inv, Can, Quiet;
    if a < b {
      QuietUntilNextStart(k, ws, steps, a, b - 1);
      InvAlways(k, ws, steps, b - 1);
      NextOf(k, ws, steps, b - 1);
      QuietStep(k, ws[b - 1], steps[b - 1]);
    }
  }

  /** stopStartupWorker: the tray bumps its generation, calls Stop, and joins its worker.  If Stop
      succeeds and no core is orphaned, then once the worker is over nothing is connected; and the
      worker is over after its next hold. */
  lemma TrayStopDisconnects(k: Setting, ws: seq<World>, steps: seq<Step>, worker: nat)
    requires IsRun(k, ws, steps) && Inv(ws[0]) && NoOrphan(ws[0].state)
    requires |steps| > 0 && steps[0].Stop? && StopProxy(ws[0].state, steps[0].halt).ok
    requires forall j :: 0 < j < |steps| ==> !steps[j].Dispatch? && !steps[j].StartNow?
    requires worker < |ws[0].threads| && IsStart(ws[0].threads[worker])
    ensures Quiet(ws[|steps|])
    ensures (exists j :: 0 < j < |steps| && StartStep(steps[j], worker)) ==>
      worker < |ws[|steps|].threads| && ws[|steps|].threads[worker].Over?
  {
    hide After, Inv, Can, IsStart, NoOrphan, StopProxy, Quiet, Stale;
    NextOf(k, ws, steps, 0);
    StopQuiets(k, ws[0], steps[0].halt);
    QuietUntilNextStart(k, ws, steps, 1, |steps|);
    if j :| 0 < j < |steps| && StartStep(steps[j], worker) {
      StopMakesStale(k, ws[0], steps[0], worker);
      StaleForever(k, ws, steps, worker, 1, j);
      StaleInBounds(ws[j], worker);
      StaleStartsNeverCommit(k, ws, steps, worker, 0, j);
      OverForever(k, ws, steps, worker, j + 1, |steps|);
    }
  }

  lemma StaleInBounds(w: World, i: nat)
    requires Stale(w, i)
    ensures i < |w.threads|
  {
  }

  lemma {:induction false} OverForever(k: Setting, ws: seq<World>, steps: seq<Step>, i: nat, a: nat, b: nat)
    requires IsRun(k, ws, steps) && a <= b <= |steps| && i < |ws[a].threads| && ws[a].threads[i].Over?
    ensures i < |ws[b].threads| && ws[b].threads[i].Over?
    decreases b
  {
    hide After, Can;
    if a < b {
      OverForever(k, ws, steps, i, a, b - 1);
      NextOf(k, ws, steps, b - 1);
      OverNoStep(ws[b - 1], steps[b - 1], i);
      ThreadStays(k, ws[b - 1], steps[b - 1], i);
    }
  }

  lemma OverNoStep(w: World, step: Step, i: nat)
    requires Can(w, step) && i < |w.threads| && w.threads[i].Over?
    ensures !StartStep(step, i)
  {
  }

  // ---- updates are serializable ----

  /** Every committed update is the merge of the configuration in force at that instant, and none
      commits while a startup is in flight or when nothing is in force. */
  lemma UpdateMergesInForce(k: Setting, w: World, step: Step)
    requires Inv(w) && Can(w, step) && step.Fetched?
    ensures var w' := After(k, w, step);
            var t := w.threads[step.thread];
      || (w'.state.config == w.state.config && w'.state.files == w.state.files)
      || (&& w.state.startup.None? && w.state.config.Some? && step.feed.Some?
          && (var r := Merge(k.oracle, w.state.config.value.config, step.feed.value, t.url);
              && r.Merged? && w'.state.config == Some(Published(w.state.next, r.next))
              && w'.state.files == w.state.files[k.dataPath := r.next]))
  {
    hide FinishUpdate, Merge, QueueInv, StateInv;
    var t := w.threads[step.thread];
    assert ThreadInv(w.state, t);
    UpdateBothOrNeither(k.oracle, w.state, k.dataPath, t.current, t.session, t.url, step.feed, step.env);
  }

  lemma ImportMergesInForce(k: Setting, w: World, step: Step)
    requires Inv(w) && Can(w, step) && step.Imported?
    ensures var w' := After(k, w, step);
            var t := w.threads[step.thread];
      || (w'.state.config == w.state.config && w'.state.files == w.state.files)
      || (&& w.state.startup.None? && w.state.config.Some?
          && (var r := ManualMerge(w.state.config.value.config, t.node);
              && r.Placed? && w'.state.config == Some(Published(w.state.next, r.next))
              && w'.state.files == w.state.files[k.dataPath := r.next]))
      || (&& w'.state.config == w.state.config && w.state.config.Some? && ReloadBreaks(w.state, step.env.reload)
          && (var r := ManualMerge(w.state.config.value.config, t.node);
              if step.env.restored then w'.state.files == w.state.files[k.dataPath := w.state.config.value.config]
              else r.Placed? && w'.state.files == w.state.files[k.dataPath := r.next]))
  {
    hide FinishImport, ManualMerge, QueueInv, StateInv, ReloadBreaks;
    var t := w.threads[step.thread];
    assert ThreadInv(w.state, t);
    ImportBothOrNeither(w.state, k.dataPath, t.held, t.session, t.node, step.env);
  }

  /** A committed update survives a restart exactly when the configuration is read from where updates
      are saved, or the file there already says the same. */
  lemma UpdateSurvivesRestartIff(k: Setting, s: State, current: Published, session: Option<nat>, url: string, feed: Option<seq<Proxy>>,
                                 env: UpdateEnv, start: StartEnv)
    requires StateInv(s) && Remembers(s, current) && s.manager.Some? && url != ""
    requires FinishUpdate(k.oracle, s, k.dataPath, current, session, url, feed, env).state.config != s.config
    requires start.found == Some(s.configPath) && start.readable
    ensures var s' := FinishUpdate(k.oracle, s, k.dataPath, current, session, url, feed, env).state;
            var r := RestartProxy(s', k.dataPath, Halts, start).result;
            (r.Registered? && s'.config == Some(Published(s.next, r.loaded.config))) <==>
              s.configPath == k.dataPath || (s.configPath in s.files && s'.config == Some(Published(s.next, s.files[s.configPath])))
  {
    hide FinishUpdate, Merge, StateInv;
    UpdateBothOrNeither(k.oracle, s, k.dataPath, current, session, url, feed, env);
    FinishUpdateKeeps(k, s, current, session, url, feed, env);
    var s' := FinishUpdate(k.oracle, s, k.dataPath, current, session, url, feed, env).state;
    var next := s'.config.value.config;
    assert IsValid(next) && next.subscriptionUrl == url by { MergedIs(k.oracle, current.config, feed.value, url); }
    hide IsValid, Boot;
    RestartReads(s', k.dataPath, start);
  }

  lemma MergedIs(o: Oracle, c: Config, feed: seq<Proxy>, url: string)
    requires Merge(o, c, feed, url).Merged?
    ensures IsValid(Merge(o, c, feed, url).next) && Merge(o, c, feed, url).next.subscriptionUrl == url
  {
    hide IsValid, NamesDistinct, Prepare, PairingOf, Allocate, Kept, Counted;
  }

  /** A restart that stops the core reads the file it was started from. */
  lemma RestartReads(s: State, dataPath: string, start: StartEnv)
    requires s.startup.None? && s.manager.Some? && start.found == Some(s.configPath) && start.readable
    ensures var r := RestartProxy(s, dataPath, Halts, start).result;
      && (r.Registered? ==> s.configPath in s.files && r.loaded.config == s.files[s.configPath])
      && (s.configPath in s.files && IsValid(s.files[s.configPath]) && s.files[s.configPath].subscriptionUrl != "" ==> r.Registered?)
  {
    hide IsValid, Boot;
    BootNeverRegisters(s, dataPath, start);
  }

  lemma BootNeverRegisters(s: State, dataPath: string, start: StartEnv)
    ensures forall t: State, c: Config :: !Boot(t, c, start.boot).result.Registered?
  {
  }

  predicate IsChange(t: Thread) { t.Queued? || t.Fetching? || t.Importing? }

  function Held(t: Thread): Option<Published>
    requires IsChange(t)
  {
    if t.Importing? then t.held else Some(t.current)
  }

  predicate ChangeStep(step: Step, i: nat) {
    (step.Dequeue? || step.Fetched? || step.Imported?) && step.thread == i
  }

  /** Thread i remembers a configuration that is no longer in force. */
  ghost predicate Outdated(w: World, i: nat) {
    && i < |w.threads|
    && (w.threads[i].Over?
        || (IsChange(w.threads[i])
            && (Held(w.threads[i]).Some? ==>
                  && Held(w.threads[i]).value.id < w.state.next
                  && (w.state.config.Some? ==> w.state.config.value.id != Held(w.threads[i]).value.id))))
  }

  lemma OutdatedGivesUp(k: Setting, w: World, step: Step, i: nat)
    requires Can(w, step) && Outdated(w, i) && ChangeStep(step, i)
    ensures After(k, w, step).state == w.state && After(k, w, step).threads == w.threads[i := Over]
  {
    hide Merge, ManualMerge, Apply, SaveAndApply;
  }

  lemma OthersStay(k: Setting, w: World, step: Step, i: nat)
    requires Can(w, step) && i < |w.threads| && !ChangeStep(step, i) && (IsChange(w.threads[i]) || w.threads[i].Over?)
    ensures i < |After(k, w, step).threads| && After(k, w, step).threads[i] == w.threads[i]
  {
    hide BeginStart, FinishStart, FinishUpdate, FinishImport, StartupMerge, RestartProxy, StartAtEpoch, StopProxy, Watch;
  }

  lemma OutdatedStays(k: Setting, w: World, step: Step, i: nat)
    requires Inv(w) && Can(w, step) && Outdated(w, i)
    ensures Outdated(After(k, w, step), i)
  {
    hide After, Inv, Can;
    if ChangeStep(step, i) {
      OutdatedGivesUp(k, w, step, i);
    } else {
      OthersStay(k, w, step, i);
      StepKeeps(k, w, step);
    }
  }

  /** Once the configuration an update or import remembers is no longer in force - because something
      else committed, or after a Stop - that update or import never commits. */
  lemma {:induction false} OutdatedNeverCommits(k: Setting, ws: seq<World>, steps: seq<Step>, i: nat, a: nat, b: nat)
    requires IsRun(k, ws, steps) && Inv(ws[0]) && a <= b <= |steps| && Outdated(ws[a], i)
    ensures Outdated(ws[b], i)
    ensures b < |steps| && ChangeStep(steps[b], i) ==> ws[b + 1].state == ws[b].state
    decreases b
  {
    hide After, Inv, Can, Outdated;
    if a < b {
      OutdatedNeverCommits(k, ws, steps, i, a, b - 1);
      InvAlways(k, ws, steps, b - 1);
      NextOf(k, ws, steps, b - 1);
      OutdatedStays(k, ws[b - 1], steps[b - 1], i);
    }
    if b < |steps| && ChangeStep(steps[b], i) {
      NextOf(k, ws, steps, b);
      OutdatedGivesUp(k, ws[b], steps[b], i);
    }
  }

  lemma StopOutdates(k: Setting, w: World, halt: Halt, i: nat)
    requires Inv(w) && StopProxy(w.state, halt).ok && i < |w.threads| && IsChange(w.threads[i])
    ensures Outdated(After(k, w, Stop(halt)), i)
  {
    assert ThreadInv(w.state, w.threads[i]);
  }
}
