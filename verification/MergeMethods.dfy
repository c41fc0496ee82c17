/** The merges as they are programmed: loops over slices and tables, proved equal to their specification. */
module MergeMethods {
  import opened Text
  import opened ProxyConfig
  import opened SubscriptionMatch
  import opened SubscriptionMerge
  import opened MergeOrder
  import opened ManualNode

  // ---- preparing a feed ----

  lemma {:induction false} PrepareFailsEarly(o: Oracle, feed: seq<Proxy>, i: nat)
    requires i <= |feed| && Prepare(o, feed[..i]).None?
    ensures Prepare(o, feed).None?
    decreases |feed| - i
  {
    hide Prepared;
    if i == |feed| {
      assert feed[..i] == feed;
    } else {
      assert feed[..i + 1][..i] == feed[..i];
      PrepareFailsEarly(o, feed, i + 1);
    }
  }

  /** The table of keys seen so far mirrors the entries prepared so far. */
  ghost predicate KeyTable(keys: map<string, Proxy>, prepared: seq<Proxy>) {
    && (forall p :: p in prepared ==> p.key in keys && keys[p.key] == p)
    && (forall k :: k in keys ==> keys[k] in prepared && keys[k].key == k)
  }

  /** prepareSubscriptionProxies. */
  method PrepareSubscriptionProxies(o: Oracle, feed: seq<Proxy>) returns (r: Option<seq<Proxy>>)
    ensures r == Prepare(o, feed)
  {
    hide Prepared;
    var prepared: seq<Proxy> := [];
    var keys: map<string, Proxy> := map[];
    for i := 0 to |feed|
      invariant Prepare(o, feed[..i]) == Some(prepared)
      invariant KeyTable(keys, prepared)
    {
      assert feed[..i + 1][..i] == feed[..i] && feed[..i + 1][i] == feed[i];
      var p := Prepared(o, feed[i]);
      if p.key in keys {
        if keys[p.key] == p { continue; }
        PrepareFailsEarly(o, feed, i + 1);
        return None;
      }
      keys := keys[p.key := p];
      prepared := prepared + [p];
    }
    assert feed[..|feed|] == feed;
    return Some(prepared);
  }

  // ---- finding the node of one entry ----

  function CandidatesBelow(o: Oracle, nodes: seq<Proxy>, legacy: bool, pass: nat, p: Proxy, used: set<nat>, n: nat): set<nat> {
    set i: nat | i < n && Fits(o, nodes, legacy, pass, p, i) && i !in used
  }

  lemma CandidatesNext(o: Oracle, nodes: seq<Proxy>, legacy: bool, pass: nat, p: Proxy, used: set<nat>, n: nat)
    ensures CandidatesBelow(o, nodes, legacy, pass, p, used, n + 1) ==
              CandidatesBelow(o, nodes, legacy, pass, p, used, n) + if Fits(o, nodes, legacy, pass, p, n) && n !in used then {n} else {}
  {
    hide Fits;
  }

  lemma CandidatesUp(o: Oracle, nodes: seq<Proxy>, legacy: bool, pass: nat, p: Proxy, used: set<nat>, n: nat)
    requires n <= |nodes|
    ensures CandidatesBelow(o, nodes, legacy, pass, p, used, n) <= Candidates(o, nodes, legacy, pass, p, used)
    ensures n == |nodes| ==> CandidatesBelow(o, nodes, legacy, pass, p, used, n) == Candidates(o, nodes, legacy, pass, p, used)
  {
    hide Rule;
  }

  /** findSubscriptionMatch. */
  method FindSubscriptionMatch(o: Oracle, nodes: seq<Proxy>, p: Proxy, used: set<nat>, legacy: bool, pass: nat) returns (r: Found)
    ensures r == Find(o, nodes, legacy, pass, p, used)
  {
    hide Rule, IsBundledExample, CandidatesBelow, Candidates;
    var matched := -1;
    assert CandidatesBelow(o, nodes, legacy, pass, p, used, 0) == {} by { NoneBelowZero(o, nodes, legacy, pass, p, used); }
    for i := 0 to |nodes|
      invariant -1 <= matched < |nodes|
      invariant CandidatesBelow(o, nodes, legacy, pass, p, used, i) == if matched < 0 then {} else {matched as nat}
      invariant matched < i
    {
      CandidatesNext(o, nodes, legacy, pass, p, used, i);
      var n := nodes[i];
      if i in used || IsBundledExample(n) || (!legacy && n.source != SUBSCRIPTION) || !Rule(o, pass, n, p) { continue; }
      if n.source != "" && n.source != SUBSCRIPTION { continue; }
      if matched >= 0 {
        CandidatesUp(o, nodes, legacy, pass, p, used, i + 1);
        assert {matched as nat, i} <= Candidates(o, nodes, legacy, pass, p, used);
        return Several;
      }
      matched := i;
    }
    CandidatesUp(o, nodes, legacy, pass, p, used, |nodes|);
    return if matched < 0 then Nobody else One(matched);
  }

  lemma NoneBelowZero(o: Oracle, nodes: seq<Proxy>, legacy: bool, pass: nat, p: Proxy, used: set<nat>)
    ensures CandidatesBelow(o, nodes, legacy, pass, p, used, 0) == {}
  {
  }

  // ---- the five passes ----

  predicate Shares(pass: nat, q: Proxy, p: Proxy) {
    (pass == 3 && SameEndpoint(q, p)) || (pass == 4 && SameName(q, p))
  }

  function Sharing(ps: seq<Proxy>, pass: nat, p: Proxy, n: nat): nat
    requires n <= |ps|
  {
    if n == 0 then 0 else Sharing(ps, pass, p, n - 1) + if Shares(pass, ps[n - 1], p) then 1 else 0
  }

  lemma {:induction false} SharingNone(ps: seq<Proxy>, pass: nat, p: Proxy, n: nat)
    requires n <= |ps|
    ensures Sharing(ps, pass, p, n) == 0 <==> forall t :: 0 <= t < n ==> !Shares(pass, ps[t], p)
  {
    if n > 0 { SharingNone(ps, pass, p, n - 1); }
  }

  lemma {:induction false} SharingOne(ps: seq<Proxy>, pass: nat, p: Proxy, n: nat, j: nat)
    requires j < n <= |ps| && Shares(pass, ps[j], p)
    ensures Sharing(ps, pass, p, n) == 1 <==> forall t :: 0 <= t < n && t != j ==> !Shares(pass, ps[t], p)
    decreases n
  {
    hide Shares;
    SharingNone(ps, pass, p, n - 1);
    if j < n - 1 { SharingOne(ps, pass, p, n - 1, j); }
  }

  /** An entry takes part when it alone shares its endpoint, or its name. */
  lemma SharingAlone(ps: seq<Proxy>, pass: nat, j: nat)
    requires j < |ps| && KeysDistinct(ps) && (pass == 3 || pass == 4)
    ensures Sharing(ps, pass, ps[j], |ps|) == 1 <==> TakesPart(ps, pass, ps[j])
  {
    hide Sharing;
    SharingOne(ps, pass, ps[j], |ps|, j);
    if TakesPart(ps, pass, ps[j]) {
      forall t | 0 <= t < |ps| && t != j ensures !Shares(pass, ps[t], ps[j]) {
        assert ps[t] in ps;
      }
    }
  }

  method CountSharing(ps: seq<Proxy>, pass: nat, p: Proxy) returns (count: nat)
    ensures count == Sharing(ps, pass, p, |ps|)
  {
    count := 0;
    for i := 0 to |ps|
      invariant count == Sharing(ps, pass, p, i)
    {
      if (pass == 3 && SameEndpoint(ps[i], p)) || (pass == 4 && SameName(ps[i], p)) {
        count := count + 1;
      }
    }
  }

  /** The tables of the passes, by index, and the pairing, by key. */
  ghost predicate Mirrors(ps: seq<Proxy>, incoming: map<nat, nat>, current: set<nat>, m: Pairing) {
    && (forall j: nat :: j in incoming <==> j < |ps| && ps[j].key in m)
    && (forall j: nat :: j in incoming && j < |ps| ==> incoming[j] == m[ps[j].key])
    && (forall k :: k in m ==> exists j :: 0 <= j < |ps| && ps[j].key == k)
    && current == m.Values
  }

  lemma MirrorsStep(ps: seq<Proxy>, incoming: map<nat, nat>, current: set<nat>, m: Pairing, j: nat, i: nat)
    requires KeysDistinct(ps) && Mirrors(ps, incoming, current, m) && j < |ps| && j !in incoming
    ensures Mirrors(ps, incoming[j := i], current + {i}, m[ps[j].key := i])
  {
    var m' := m[ps[j].key := i];
    forall t | 0 <= t < |ps| && t != j ensures ps[t].key != ps[j].key {
    }
    forall k | k in m' ensures exists t :: 0 <= t < |ps| && ps[t].key == k {
      if k == ps[j].key { assert ps[j].key == k; }
    }
    forall v | v in current + {i} ensures v in m'.Values {
      if v == i {
        assert m'[ps[j].key] == i;
      } else {
        var k :| k in m && m[k] == v;
        assert m'[k] == v;
      }
    }
  }

  /** The passes of MergeSubscription. */
  method PairEntries(o: Oracle, nodes: seq<Proxy>, ps: seq<Proxy>, legacy: bool) returns (ok: bool, incoming: map<nat, nat>, current: set<nat>)
    requires KeysDistinct(ps)
    ensures ok <==> Match(o, nodes, ps, legacy).Some?
    ensures ok ==> Mirrors(ps, incoming, current, Match(o, nodes, ps, legacy).value)
  {
    hide KeysDistinct, Mirrors, TakesPart, Stage, PassFrom;
    incoming, current := map[], {};
    ghost var m: Pairing := map[];
    assert Mirrors(ps, incoming, current, m) by { NothingMirrors(ps); }
    assert Stage(o, nodes, ps, legacy, 0) == Some(m) by { StageNext(o, nodes, ps, legacy, 0); }
    for pass := 0 to 5
      invariant Stage(o, nodes, ps, legacy, pass) == Some(m)
      invariant Mirrors(ps, incoming, current, m)
    {
      StageNext(o, nodes, ps, legacy, pass);
      ghost var start := m;
      var failed;
      failed, incoming, current, m := RunPass(o, nodes, ps, legacy, pass, incoming, current, m);
      if failed {
        StageFails(o, nodes, ps, legacy, pass + 1, 5);
        return false, incoming, current;
      }
    }
    return true, incoming, current;
  }

  lemma NothingMirrors(ps: seq<Proxy>)
    ensures Mirrors(ps, map[], {}, map[])
  {
  }

  lemma StageNext(o: Oracle, nodes: seq<Proxy>, ps: seq<Proxy>, legacy: bool, pass: nat)
    ensures Stage(o, nodes, ps, legacy, 0) == Some(map[])
    ensures Stage(o, nodes, ps, legacy, pass).Some? ==>
      Stage(o, nodes, ps, legacy, pass + 1) == PassFrom(o, nodes, ps, legacy, pass, 0, Stage(o, nodes, ps, legacy, pass).value)
  {
  }

  lemma {:induction false} StageFails(o: Oracle, nodes: seq<Proxy>, ps: seq<Proxy>, legacy: bool, pass: nat, last: nat)
    requires pass <= last && Stage(o, nodes, ps, legacy, pass).None?
    ensures Stage(o, nodes, ps, legacy, last).None?
    decreases last
  {
    hide PassFrom;
    if pass < last { StageFails(o, nodes, ps, legacy, pass, last - 1); }
  }

  /** An entry that shares its endpoint, or its name, is passed over in the pass that goes by it. */
  method MayTakePart(ps: seq<Proxy>, pass: nat, j: nat) returns (takesPart: bool)
    requires KeysDistinct(ps) && j < |ps|
    ensures takesPart <==> TakesPart(ps, pass, ps[j])
  {
    hide KeysDistinct, TakesPart, Sharing;
    if pass == 3 || pass == 4 {
      var count := CountSharing(ps, pass, ps[j]);
      SharingAlone(ps, pass, j);
      return count == 1;
    }
    OthersTakePart(ps, pass, ps[j]);
    return true;
  }

  /** One pass over the entries. */
  method RunPass(o: Oracle, nodes: seq<Proxy>, ps: seq<Proxy>, legacy: bool, pass: nat, incoming0: map<nat, nat>, current0: set<nat>, ghost m0: Pairing)
    returns (failed: bool, incoming: map<nat, nat>, current: set<nat>, ghost m: Pairing)
    requires KeysDistinct(ps) && Mirrors(ps, incoming0, current0, m0)
    ensures failed <==> PassFrom(o, nodes, ps, legacy, pass, 0, m0).None?
    ensures !failed ==> PassFrom(o, nodes, ps, legacy, pass, 0, m0) == Some(m) && Mirrors(ps, incoming, current, m)
  {
    hide KeysDistinct, TakesPart, Find, Mirrors, Sharing;
    incoming, current, m := incoming0, current0, m0;
    for j := 0 to |ps|
      invariant PassFrom(o, nodes, ps, legacy, pass, 0, m0) == PassFrom(o, nodes, ps, legacy, pass, j, m)
      invariant Mirrors(ps, incoming, current, m)
    {
      assert (j in incoming <==> ps[j].key in m) && current == m.Values by { MirrorsAt(ps, incoming, current, m, j); }
      if j in incoming { continue; }
      var takesPart := MayTakePart(ps, pass, j);
      if !takesPart { continue; }
      var found := FindSubscriptionMatch(o, nodes, ps[j], current, legacy, pass);
      if found.Several? { return true, incoming, current, m; }
      if found.One? {
        MirrorsStep(ps, incoming, current, m, j, found.index);
        current := current + {found.index};
        incoming := incoming[j := found.index];
        m := m[ps[j].key := found.index];
      }
    }
    return false, incoming, current, m;
  }

  lemma MirrorsAt(ps: seq<Proxy>, incoming: map<nat, nat>, current: set<nat>, m: Pairing, j: nat)
    requires Mirrors(ps, incoming, current, m) && j < |ps|
    ensures j in incoming <==> ps[j].key in m
    ensures current == m.Values
  {
  }

  lemma OthersTakePart(ps: seq<Proxy>, pass: nat, p: Proxy)
    requires pass != 3 && pass != 4
    ensures TakesPart(ps, pass, p)
  {
  }

  // ---- the nodes that stay ----

  /** The search for the entry of node i; the order in which the table is walked does not matter. */
  method FindIncoming(incoming: map<nat, nat>, i: nat) returns (r: int)
    ensures r >= 0 ==> r in incoming && incoming[r] == i
    ensures r < 0 ==> forall j :: j in incoming ==> incoming[j] != i
  {
    var rest := incoming.Keys;
    while rest != {}
      invariant rest <= incoming.Keys
      invariant forall j :: j in incoming && j !in rest ==> incoming[j] != i
      decreases |rest|
    {
      var j :| j in rest;
      if incoming[j] == i { return j; }
      rest := rest - {j};
    }
    return -1;
  }

  lemma PartnerFound(o: Oracle, ps: seq<Proxy>, incoming: map<nat, nat>, current: set<nat>, m: Pairing, i: nat, r: int)
    requires IsPrepared(o, ps) && Injective(m) && Mirrors(ps, incoming, current, m)
    requires r >= 0 ==> r in incoming && incoming[r] == i
    requires r < 0 ==> forall j :: j in incoming ==> incoming[j] != i
    ensures r >= 0 ==> r < |ps| && Partner(ps, m, i) == Some(ps[r])
    ensures r < 0 ==> Partner(ps, m, i) == None
  {
    hide IsPrepared, Injective;
    if r >= 0 {
      assert IsPartner(ps, m, i, ps[r]);
      PartnerUnique(o, ps, m, i, ps[r]);
    } else {
      forall j | 0 <= j < |ps| ensures !IsPartner(ps, m, i, ps[j]) {
        assert j in incoming ==> incoming[j] != i;
      }
    }
  }

  method KeepNodes(o: Oracle, nodes: seq<Proxy>, ps: seq<Proxy>, urlChanged: bool, incoming: map<nat, nat>, ghost current: set<nat>, ghost m: Pairing)
    returns (merged: seq<Proxy>, updated: nat, missing: nat, removed: nat, runtime: bool)
    requires IsPrepared(o, ps) && Injective(m) && Mirrors(ps, incoming, current, m)
    ensures merged == Kept(nodes, ps, m, urlChanged, |nodes|)
    ensures Tally(updated, missing, removed, runtime) == Counted(nodes, ps, m, urlChanged, |nodes|)
  {
    hide IsPrepared, Injective, Mirrors, IsBundledExample, Partner;
    merged, updated, missing, removed, runtime := [], 0, 0, 0, false;
    for i := 0 to |nodes|
      invariant merged == Kept(nodes, ps, m, urlChanged, i)
      invariant Tally(updated, missing, removed, runtime) == Counted(nodes, ps, m, urlChanged, i)
    {
      var existing := nodes[i];
      if IsBundledExample(existing) {
        removed, runtime := removed + 1, true;
        continue;
      }
      var index := FindIncoming(incoming, i);
      PartnerFound(o, ps, incoming, current, m, i, index);
      if index >= 0 {
        var next := ps[index].(name := existing.name, localPort := existing.localPort, enabled := existing.enabled);
        merged := merged + [next];
        if existing != next {
          if !RuntimeEqual(existing, next) { runtime := true; }
          updated := updated + 1;
        }
        continue;
      }
      if existing.source == SUBSCRIPTION {
        if urlChanged {
          removed := removed + 1;
          continue;
        }
        existing := existing.(missing := existing.missing + 1);
        if existing.missing >= 2 {
          removed, runtime := removed + 1, true;
          continue;
        }
        missing := missing + 1;
      }
      merged := merged + [existing];
    }
  }

  // ---- names and ports for new nodes ----

  method UsedPorts(ps: seq<Proxy>, unifiedPort: int) returns (used: set<int>)
    ensures used == PortsOf(ps, unifiedPort)
  {
    used := {};
    if unifiedPort > 0 { used := used + {unifiedPort}; }
    for i := 0 to |ps|
      invariant used == PortsOf(ps[..i], unifiedPort)
    {
      assert ps[..i + 1] == ps[..i] + [ps[i]];
      if ps[i].localPort > 0 { used := used + {ps[i].localPort}; }
    }
    assert ps[..|ps|] == ps;
  }

  method UsedNames(ps: seq<Proxy>) returns (used: set<string>)
    ensures used == NamesOf(ps)
  {
    hide Normalized;
    used := {};
    for i := 0 to |ps|
      invariant used == NamesOf(ps[..i])
    {
      assert ps[..i + 1] == ps[..i] + [ps[i]];
      used := used + {Normalized(ps[i].name)};
    }
    assert ps[..|ps|] == ps;
  }

  /** nextAvailablePort. */
  method NextAvailablePort(used: set<int>, start: int) returns (port: int)
    requires start > 0
    ensures port == FreePort(used, start)
  {
    port := start;
    while port <= LAST_PORT
      invariant port >= start && forall q :: start <= q < port ==> q in used
      decreases LAST_PORT - port
    {
      if port !in used { return; }
      port := port + 1;
    }
    return 0;
  }

  /** The suffix search for a free name. */
  method FreshName(used: set<string>, base: string) returns (name: string)
    ensures name == Numbered(base, FreshIndex(used, base, 0))
  {
    hide Normalized, Numbered, FreshIndex;
    name := base;
    ghost var tries: nat := 0;
    var suffix: nat := 1;
    NumberedFirst(base);
    while Normalized(name) in used
      invariant suffix == tries + 1 && name == Numbered(base, tries)
      invariant forall t: nat :: t < tries ==> Normalized(Numbered(base, t)) in used
      decreases |used| + 1 - tries
    {
      TriesBounded(used, base, tries + 1);
      NumberedNext(base, suffix);
      name := base + " (" + Decimal(suffix + 1) + ")";
      suffix := suffix + 1;
      tries := tries + 1;
    }
  }

  lemma NumberedFirst(base: string)
    ensures Numbered(base, 0) == base
  {
  }

  lemma NumberedNext(base: string, j: nat)
    requires j > 0
    ensures Numbered(base, j) == base + " (" + Decimal(j + 1) + ")"
  {
  }

  /** The entries without a node. */
  method Additions(ps: seq<Proxy>, incoming: map<nat, nat>, ghost current: set<nat>, ghost m: Pairing) returns (additions: seq<Proxy>)
    requires Mirrors(ps, incoming, current, m)
    ensures additions == Unpaired(ps, m)
  {
    hide Mirrors;
    additions := [];
    for i := 0 to |ps|
      invariant additions == Unpaired(ps[..i], m)
    {
      MirrorsAt(ps, incoming, current, m, i);
      assert ps[..i + 1][..i] == ps[..i];
      if i !in incoming {
        additions := additions + [ps[i]];
      }
    }
    assert ps[..|ps|] == ps;
  }

  /** What is still to be allocated, given what has been. */
  function Rest(done: seq<Proxy>, rest: Option<seq<Proxy>>): Option<seq<Proxy>> {
    if rest.None? then None else Some(done + rest.value)
  }

  lemma RestStep(done: seq<Proxy>, p: Proxy, rest: Option<seq<Proxy>>)
    ensures Rest(done, if rest.None? then None else Some([p] + rest.value)) == Rest(done + [p], rest)
  {
    if rest.Some? {
      assert done + ([p] + rest.value) == done + [p] + rest.value;
    }
  }

  lemma RestEnds(done: seq<Proxy>, rest: Option<seq<Proxy>>)
    ensures Rest([], rest) == rest && Rest(done, Some([])) == Some(done)
  {
    assert done + [] == done;
    if rest.Some? {
      assert [] + rest.value == rest.value;
    }
  }

  method AllocateAll(additions: seq<Proxy>, names: set<string>, ports: set<int>) returns (ok: bool, added: seq<Proxy>)
    ensures ok <==> Allocate(additions, names, ports).Some?
    ensures ok ==> Allocate(additions, names, ports) == Some(added)
  {
    hide Normalized, Numbered, FreshIndex, BaseName;
    var usedNames, usedPorts := names, ports;
    added := [];
    assert additions[0..] == additions;
    RestEnds(added, Allocate(additions, names, ports));
    for i := 0 to |additions|
      invariant Allocate(additions, names, ports) == Rest(added, Allocate(additions[i..], usedNames, usedPorts))
    {
      var p := additions[i];
      assert additions[i..][1..] == additions[i + 1..];
      var name := FreshName(usedNames, BaseName(p));
      usedNames := usedNames + {Normalized(name)};
      var port := NextAvailablePort(usedPorts, FIRST_PORT);
      if port == 0 { return false, added; }
      usedPorts := usedPorts + {port};
      ghost var rest := Allocate(additions[i + 1..], usedNames, usedPorts);
      RestStep(added, p.(name := name, localPort := port, enabled := true), rest);
      added := added + [p.(name := name, localPort := port, enabled := true)];
    }
    assert additions[|additions|..] == [];
    RestEnds(added, Some([]));
    return true, added;
  }

  // ---- the merges ----

  lemma PreparedKeys(o: Oracle, ps: seq<Proxy>)
    requires IsPrepared(o, ps)
    ensures KeysDistinct(ps)
  {
    hide Prepared;
  }

  /** MergeSubscription. */
  method MergeSubscription(o: Oracle, c: Config, feed: seq<Proxy>, url: string) returns (r: Outcome)
    ensures r == Merge(o, c, feed, url)
  {
    hide Prepare, IsPrepared, Covers, Clashes, Match, Kept, Counted, Allocate, SortByKey, Unpaired, NamesOf, PortsOf, Mirrors, KeysDistinct, Injective, Justified, IsValid, NamesDistinct;
    if url == "" { return Failed(NoUrl); }
    if |feed| == 0 { return Failed(NoEntries); }
    var prepared := PrepareSubscriptionProxies(o, feed);
    if prepared.None? { return Failed(DuplicateIdentity); }
    var ps := prepared.value;
    PrepareIs(o, feed);
    PreparedKeys(o, ps);
    var urlChanged := UrlChanged(o, c, url);
    var incoming: map<nat, nat>, current: set<nat> := map[], {};
    ghost var m: Pairing := map[];
    NothingMirrors(ps);
    if !urlChanged {
      var ok;
      ok, incoming, current := PairEntries(o, c.proxies, ps, AllowsLegacy(c, url));
      if !ok { return Failed(AmbiguousMatch); }
      m := Match(o, c.proxies, ps, AllowsLegacy(c, url)).value;
    }
    PairingInjective(o, c, ps, url);
    var merged, updated, missing, removed, runtime := KeepNodes(o, c.proxies, ps, urlChanged, incoming, current, m);
    var usedPorts := UsedPorts(merged, c.unifiedPort);
    var usedNames := UsedNames(merged);
    var additions := Additions(ps, incoming, current, m);
    additions := SortByKey(additions);
    var ok, added := AllocateAll(additions, usedNames, usedPorts);
    if !ok { return Failed(NoPort); }
    var next := c.(proxies := merged + added, subscriptionUrl := url, migrated := true, sourceKey := SourceKey(o, url));
    var distinct := ValidateUniqueNames(next.proxies);
    if !distinct { return Failed(NameConflict); }
    var valid := Validate(next);
    if !valid { return Failed(Invalid); }
    return Merged(next, MergeResult(|added|, updated, missing, removed, c != next, runtime || |added| > 0));
  }

  /** MergeManualProxy. */
  method MergeManualProxy(c: Config, incoming: Proxy) returns (r: ManualOutcome)
    ensures r == ManualMerge(c, incoming)
  {
    hide NamesDistinct, IsValid, PortsOf;
    var p := incoming.(source := MANUAL, key := "", missing := 0, enabled := true);
    if p.name == "" { p := p.(name := p.server); }
    for i := 0 to |c.proxies|
      invariant FirstSame(c.proxies, p, 0) == FirstSame(c.proxies, p, i)
    {
      var existing := c.proxies[i];
      if existing.source != SUBSCRIPTION && Lower(existing.server) == Lower(p.server) && existing.port == p.port {
        p := p.(name := existing.name, localPort := existing.localPort);
        r := CheckConfig(c.(proxies := c.proxies[i := p]));
        return;
      }
    }
    var used := UsedPorts(c.proxies, c.unifiedPort);
    var port := NextAvailablePort(used, FIRST_PORT);
    if port == 0 { return Refused(NoPort); }
    r := CheckConfig(c.(proxies := c.proxies + [p.(localPort := port)]));
  }

  method CheckConfig(next: Config) returns (r: ManualOutcome)
    ensures r == Checked(next)
  {
    var distinct := ValidateUniqueNames(next.proxies);
    if !distinct { return Refused(NameConflict); }
    var valid := Validate(next);
    if !valid { return Refused(Invalid); }
    return Placed(next);
  }
}
