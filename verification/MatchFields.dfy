/** What each pass of the matching goes by, in the fields of nodes and entries. */
module MatchFields {
  import opened Text
  import opened ProxyConfig
  import opened SubscriptionMatch
  import opened SubscriptionOrder
  import opened FirstCome
  import opened SubscriptionMerge
  import opened MergeValidity
  import opened MergePreservation

  /** The node the application ships with, whatever its local port and enabled flag. */
  predicate IsPlaceholder(n: Proxy) {
    && n.source == "" && n.key == "" && n.missing == 0 && n.name == "Example-Server" && n.kind == "shadowsocks"
    && n.server == "your-server.example.com" && n.port == 8388 && n.cipher == "aes-256-gcm" && n.password == "your-password-here"
    && n.uuid == "" && n.alterId == 0 && n.security == "" && n.flow == "" && n.serverName == "" && n.fingerprint == ""
    && n.realityPublicKey == "" && n.realityShortId == "" && n.extra == map[]
  }

  lemma PlaceholderIs(n: Proxy)
    ensures IsBundledExample(n) <==> IsPlaceholder(n)
  {
  }

  /** An entry of a prepared feed is one of the feed's, marked as tracked under the hash of its identity. */
  lemma EntryFields(o: Oracle, feed: seq<Proxy>, p: Proxy)
    requires Prepare(o, feed).Some? && p in Prepare(o, feed).value
    ensures p.source == "subscription" && p.missing == 0 && p.enabled && p.localPort == 0
    ensures p.key == o.hash(p.kind + "|endpoint|" + Lower(p.server) + "|" + Itoa(p.port) + "|name|" + Normalized(p.name))
    ensures exists f :: f in feed && IsEntryOf(p, f)
  {
    PrepareIs(o, feed);
    hide Prepare, Lower, Itoa, Normalized;
    var f :| f in feed && p == Prepared(o, f);
    assert IsEntryOf(p, f);
  }

  predicate IsEntryOf(p: Proxy, f: Proxy) {
    && p.name == f.name && p.kind == f.kind && p.server == f.server && p.port == f.port
    && p.cipher == f.cipher && p.password == f.password && p.uuid == f.uuid && p.alterId == f.alterId
    && p.security == f.security && p.flow == f.flow && p.serverName == f.serverName && p.fingerprint == f.fingerprint
    && p.realityPublicKey == f.realityPublicKey && p.realityShortId == f.realityShortId && p.extra == f.extra
  }

  /** Node i is a tracked one, or with the legacy flag one without a source, and no entry has it yet. */
  ghost predicate Free(nodes: seq<Proxy>, legacy: bool, m: Pairing, i: nat) {
    && i < |nodes| && i !in m.Values && !IsPlaceholder(nodes[i])
    && (nodes[i].source == "subscription" || (legacy && nodes[i].source == ""))
  }

  /** A pass without contest gives an entry what it wants. */
  lemma PassGives(o: Oracle, nodes: seq<Proxy>, ps: seq<Proxy>, legacy: bool, pass: nat, m: Pairing, p: Proxy, i: nat)
    requires IsPrepared(o, ps) && Stage(o, nodes, ps, legacy, pass) == Some(m) && Stage(o, nodes, ps, legacy, pass + 1).Some?
    requires pass < 5 && pass != 1 && p in ps && p.key !in m
    ensures Has(Stage(o, nodes, ps, legacy, pass + 1).value, p.key, i) <==> Wants(Wishes(o, nodes, ps, legacy, pass, m), p, i)
  {
    hide IsPrepared, PassFrom, Earns, Gets, Enumerates, Serves, NoContest, Wishes, NoCompetition, Wants;
    var w := Wishes(o, nodes, ps, legacy, pass, m);
    WishesInside(o, nodes, ps, legacy, pass, m);
    SameElementsItself(ps);
    OrdersEnumerate(o, ps, ps);
    NoCompetitionOutside(o, nodes, ps, legacy, pass);
    NoCompetitionNoContest(o, nodes, ps, legacy, pass, m);
    UncontestedOrder(w, ps, Elements(ps));
    NextStage(o, nodes, ps, legacy, pass);
    PassIs(o, nodes, ps, legacy, pass, m);
    EarnsGets(w, o, ps, p, i);
  }

  lemma WantsIs(o: Oracle, nodes: seq<Proxy>, ps: seq<Proxy>, legacy: bool, pass: nat, m: Pairing, p: Proxy, i: nat)
    requires p in ps && p.key !in m
    ensures Wants(Wishes(o, nodes, ps, legacy, pass, m), p, i) <==>
      TakesPart(ps, pass, p) && Free(nodes, legacy, m, i) && Rule(o, pass, nodes[i], p)
  {
    hide TakesPart, Rule, IsBundledExample, IsPlaceholder;
    if i < |nodes| { PlaceholderIs(nodes[i]); }
  }

  /** The first pass goes by key: a tracked node keeps the entry whose identity it has. */
  lemma KeyPass(o: Oracle, nodes: seq<Proxy>, ps: seq<Proxy>, legacy: bool, p: Proxy, i: nat)
    requires IsPrepared(o, ps) && Stage(o, nodes, ps, legacy, 1).Some? && p in ps
    ensures Has(Stage(o, nodes, ps, legacy, 1).value, p.key, i) <==>
      i < |nodes| && nodes[i].source == "subscription" && nodes[i].key == p.key
  {
    var e: Pairing := map[];
    assert Stage(o, nodes, ps, legacy, 0) == Some(e);
    hide IsPrepared, Has, Wishes, Wants, Stage;
    PassGives(o, nodes, ps, legacy, 0, e, p, i);
    WantsIs(o, nodes, ps, legacy, 0, e, p, i);
  }

  /** The second by a server that has moved from an address to a confirmed domain: the node has the key
      that the entry would have under the node's address; of several such entries the first gets it. */
  lemma MovePass(o: Oracle, nodes: seq<Proxy>, ps: seq<Proxy>, legacy: bool, m: Pairing, p: Proxy, i: nat)
    requires IsPrepared(o, ps) && Stage(o, nodes, ps, legacy, 1) == Some(m) && Stage(o, nodes, ps, legacy, 2).Some?
    requires p in ps && p.key !in m
    ensures Has(Stage(o, nodes, ps, legacy, 2).value, p.key, i) <==>
      && Moved(o, nodes, m, p, i)
      && exists t :: 0 <= t < |ps| && ps[t] == p && forall s :: 0 <= s < t && ps[s].key !in m ==> !Moved(o, nodes, m, ps[s], i)
  {
    hide IsPrepared, PassFrom, Earns, Serves, Wishes, Wants;
    var w := Wishes(o, nodes, ps, legacy, 1, m);
    NextStage(o, nodes, ps, legacy, 1);
    PassIs(o, nodes, ps, legacy, 1, m);
    EarnsGets(w, o, ps, p, i);
    hide Stage, Has;
    forall t | 0 <= t < |ps| ensures Wants(w, ps[t], i) <==> ps[t].key !in m && Moved(o, nodes, m, ps[t], i) {
      MovedWants(o, nodes, ps, legacy, m, ps[t], i);
    }
    hide Moved;
    if Gets(w, ps, p, i) {
      var t: nat :| First(w, ps, t, i) && ps[t] == p;
      assert forall s: nat :: s < t ==> !Wants(w, ps[s], i);
    }
    if Moved(o, nodes, m, p, i) {
      if t: nat :| t < |ps| && ps[t] == p && forall s :: 0 <= s < t && ps[s].key !in m ==> !Moved(o, nodes, m, ps[s], i) {
        assert First(w, ps, t, i);
      }
    }
  }

  ghost predicate Moved(o: Oracle, nodes: seq<Proxy>, m: Pairing, p: Proxy, i: nat) {
    && i < |nodes| && i !in m.Values && nodes[i].source == "subscription" && nodes[i].kind == "vless" && p.kind == "vless"
    && o.isIp(nodes[i].server) && o.isConfirmedDomain(p.server)
    && nodes[i].key == o.hash("vless|endpoint|" + Lower(nodes[i].server) + "|" + Itoa(p.port) + "|name|" + Normalized(p.name))
  }

  lemma MovedWants(o: Oracle, nodes: seq<Proxy>, ps: seq<Proxy>, legacy: bool, m: Pairing, p: Proxy, i: nat)
    requires p in ps
    ensures Wants(Wishes(o, nodes, ps, legacy, 1, m), p, i) <==> p.key !in m && Moved(o, nodes, m, p, i)
  {
    hide Normalized, Itoa, Lower;
    if p.key !in m {
      WantsIs(o, nodes, ps, legacy, 1, m, p, i);
      hide Wishes;
      if i < |nodes| && p.kind == "vless" { MovedKey(o, p, nodes[i].server); }
    }
  }

  lemma MovedKey(o: Oracle, p: Proxy, server: string)
    requires p.kind == "vless"
    ensures ProxyKey(o, MovedTo(p, server)) == o.hash("vless|endpoint|" + Lower(server) + "|" + Itoa(p.port) + "|name|" + Normalized(p.name))
  {
    hide Normalized, Itoa, Lower;
    assert "vless" + "|endpoint|" == "vless|endpoint|";
  }

  /** The third by type, server, port and name. */
  lemma ExactPass(o: Oracle, nodes: seq<Proxy>, ps: seq<Proxy>, legacy: bool, m: Pairing, p: Proxy, i: nat)
    requires IsPrepared(o, ps) && Stage(o, nodes, ps, legacy, 2) == Some(m) && Stage(o, nodes, ps, legacy, 3).Some?
    requires p in ps && p.key !in m
    ensures Has(Stage(o, nodes, ps, legacy, 3).value, p.key, i) <==>
      && Free(nodes, legacy, m, i)
      && nodes[i].kind == p.kind && Lower(nodes[i].server) == Lower(p.server) && nodes[i].port == p.port
      && Normalized(nodes[i].name) == Normalized(p.name)
  {
    hide IsPrepared, Has, Wishes, Wants, Stage, Free, Normalized, Lower;
    PassGives(o, nodes, ps, legacy, 2, m, p, i);
    WantsIs(o, nodes, ps, legacy, 2, m, p, i);
  }

  /** The fourth by type, server and port alone, for an entry that is the only one there. */
  lemma EndpointPass(o: Oracle, nodes: seq<Proxy>, ps: seq<Proxy>, legacy: bool, m: Pairing, p: Proxy, i: nat)
    requires IsPrepared(o, ps) && Stage(o, nodes, ps, legacy, 3) == Some(m) && Stage(o, nodes, ps, legacy, 4).Some?
    requires p in ps && p.key !in m
    ensures Has(Stage(o, nodes, ps, legacy, 4).value, p.key, i) <==>
      && Free(nodes, legacy, m, i)
      && nodes[i].kind == p.kind && Lower(nodes[i].server) == Lower(p.server) && nodes[i].port == p.port
      && forall q :: q in ps && q.kind == p.kind && Lower(q.server) == Lower(p.server) && q.port == p.port ==> q == p
  {
    hide IsPrepared, Has, Wishes, Wants, Stage, Free, Normalized, Lower;
    PassGives(o, nodes, ps, legacy, 3, m, p, i);
    WantsIs(o, nodes, ps, legacy, 3, m, p, i);
  }

  /** The last by type and name alone, for an entry that is the only one of that name. */
  lemma NamePass(o: Oracle, nodes: seq<Proxy>, ps: seq<Proxy>, legacy: bool, m: Pairing, p: Proxy, i: nat)
    requires IsPrepared(o, ps) && Stage(o, nodes, ps, legacy, 4) == Some(m) && Stage(o, nodes, ps, legacy, 5).Some?
    requires p in ps && p.key !in m
    ensures Has(Stage(o, nodes, ps, legacy, 5).value, p.key, i) <==>
      && Free(nodes, legacy, m, i)
      && nodes[i].kind == p.kind && Normalized(nodes[i].name) == Normalized(p.name) && Normalized(p.name) != ""
      && forall q :: q in ps && q.kind == p.kind && Normalized(q.name) == Normalized(p.name) ==> q == p
  {
    hide IsPrepared, Has, Wishes, Wants, Stage, Free, Normalized, Lower;
    PassGives(o, nodes, ps, legacy, 4, m, p, i);
    WantsIs(o, nodes, ps, legacy, 4, m, p, i);
  }

  // ---- a renamed entry keeps its node ----

  predicate SameAddress(a: Proxy, b: Proxy) {
    a.kind == b.kind && Lower(a.server) == Lower(b.server) && a.port == b.port
  }

  /** Whoever has a node is an entry of the feed. */
  lemma UserOf(o: Oracle, nodes: seq<Proxy>, ps: seq<Proxy>, legacy: bool, pass: nat, i: nat) returns (q: Proxy)
    requires Stage(o, nodes, ps, legacy, pass).Some? && i in Stage(o, nodes, ps, legacy, pass).value.Values
    ensures q in ps && Has(Stage(o, nodes, ps, legacy, pass).value, q.key, i)
  {
    hide Fits, TakesPart, Injective, Stage;
    StageKeeps(o, nodes, ps, legacy, pass);
    var m := Stage(o, nodes, ps, legacy, pass).value;
    var k :| k in m && m[k] == i;
    var e, t: nat :| e in ps && e.key == k && t < pass && TakesPart(ps, t, e) && Fits(o, nodes, legacy, t, e, m[k]);
    q := e;
  }

  /** ... and had it before the pass, or takes it in the pass. */
  lemma NewUser(o: Oracle, nodes: seq<Proxy>, ps: seq<Proxy>, legacy: bool, pass: nat, i: nat) returns (q: Proxy)
    requires Stage(o, nodes, ps, legacy, pass).Some? && Stage(o, nodes, ps, legacy, pass + 1).Some?
    requires i !in Stage(o, nodes, ps, legacy, pass).value.Values && i in Stage(o, nodes, ps, legacy, pass + 1).value.Values
    ensures q in ps && q.key !in Stage(o, nodes, ps, legacy, pass).value && Has(Stage(o, nodes, ps, legacy, pass + 1).value, q.key, i)
  {
    hide Stage;
    q := UserOf(o, nodes, ps, legacy, pass + 1, i);
    StageExtends(o, nodes, ps, legacy, pass, pass + 1);
  }

  lemma StaysPaired(o: Oracle, nodes: seq<Proxy>, ps: seq<Proxy>, legacy: bool, pass: nat, k: string, i: nat)
    requires pass <= 5 && Match(o, nodes, ps, legacy).Some? && Stage(o, nodes, ps, legacy, pass).Some?
    requires Has(Stage(o, nodes, ps, legacy, pass).value, k, i)
    ensures Has(Match(o, nodes, ps, legacy).value, k, i)
  {
    hide Stage;
    StageExtends(o, nodes, ps, legacy, pass, 5);
  }

  /** Node i and entry p have one address, and nothing else at hand has it or either's key; a move between
      addresses and domains is out of the question. */
  ghost predicate BelongTogether(o: Oracle, nodes: seq<Proxy>, ps: seq<Proxy>, legacy: bool, p: Proxy, i: nat) {
    && p in ps && i < |nodes| && (nodes[i].source == "subscription" || (legacy && nodes[i].source == ""))
    && SameAddress(nodes[i], p) && !IsPlaceholder(nodes[i])
    && (forall q :: q in ps && (SameAddress(q, p) || q.key == nodes[i].key) ==> q == p)
    && (forall j :: 0 <= j < |nodes| && j != i && (nodes[j].source == "subscription" || nodes[j].source == "") ==>
          !SameAddress(nodes[j], p) && nodes[j].key != p.key)
    && (p.kind != "vless" || (!o.isIp(nodes[i].server) && !o.isConfirmedDomain(p.server)))
  }

  /** Then the matching pairs them, whatever their names and keys. */
  lemma TogetherPaired(o: Oracle, nodes: seq<Proxy>, ps: seq<Proxy>, legacy: bool, p: Proxy, i: nat)
    requires IsPrepared(o, ps) && Match(o, nodes, ps, legacy).Some? && BelongTogether(o, nodes, ps, legacy, p, i)
    ensures Has(Match(o, nodes, ps, legacy).value, p.key, i)
  {
    hide Stage, IsPrepared, Match, BelongTogether;
    assert Stage(o, nodes, ps, legacy, 5).Some? by { MatchIsStage(o, nodes, ps, legacy); }
    StageExtends(o, nodes, ps, legacy, 1, 5);
    StageExtends(o, nodes, ps, legacy, 2, 5);
    StageExtends(o, nodes, ps, legacy, 3, 5);
    StageExtends(o, nodes, ps, legacy, 4, 5);
    var q := AfterKeys(o, nodes, ps, legacy, p, i);
    if !q {
      AfterMoves(o, nodes, ps, legacy, p, i);
      var r := AfterExact(o, nodes, ps, legacy, p, i);
      if !r { AfterEndpoints(o, nodes, ps, legacy, p, i); }
    }
  }

  lemma MatchIsStage(o: Oracle, nodes: seq<Proxy>, ps: seq<Proxy>, legacy: bool)
    ensures Match(o, nodes, ps, legacy) == Stage(o, nodes, ps, legacy, 5)
  {
  }

  ghost predicate Open(o: Oracle, nodes: seq<Proxy>, ps: seq<Proxy>, legacy: bool, pass: nat, p: Proxy, i: nat) {
    var x := Stage(o, nodes, ps, legacy, pass);
    x.Some? && p.key !in x.value && i !in x.value.Values
  }

  lemma AfterKeys(o: Oracle, nodes: seq<Proxy>, ps: seq<Proxy>, legacy: bool, p: Proxy, i: nat) returns (paired: bool)
    requires IsPrepared(o, ps) && Match(o, nodes, ps, legacy).Some? && BelongTogether(o, nodes, ps, legacy, p, i)
    requires Stage(o, nodes, ps, legacy, 1).Some?
    ensures paired ==> Has(Match(o, nodes, ps, legacy).value, p.key, i)
    ensures !paired ==> Open(o, nodes, ps, legacy, 1, p, i)
  {
    hide Stage, IsPrepared, Match, Lower;
    var m := Stage(o, nodes, ps, legacy, 1).value;
    if p.key in m {
      KeyPass(o, nodes, ps, legacy, p, m[p.key]);
      StaysPaired(o, nodes, ps, legacy, 1, p.key, i);
      return true;
    }
    if i in m.Values {
      var q := UserOf(o, nodes, ps, legacy, 1, i);
      KeyPass(o, nodes, ps, legacy, q, i);
    }
    return false;
  }

  lemma AfterMoves(o: Oracle, nodes: seq<Proxy>, ps: seq<Proxy>, legacy: bool, p: Proxy, i: nat)
    requires IsPrepared(o, ps) && BelongTogether(o, nodes, ps, legacy, p, i) && Open(o, nodes, ps, legacy, 1, p, i)
    requires Stage(o, nodes, ps, legacy, 2).Some?
    ensures Open(o, nodes, ps, legacy, 2, p, i)
  {
    hide Stage, IsPrepared, Lower, Itoa, Normalized;
    var m, x := Stage(o, nodes, ps, legacy, 1).value, Stage(o, nodes, ps, legacy, 2).value;
    if p.key in x {
      MovePass(o, nodes, ps, legacy, m, p, x[p.key]);
    }
    if i in x.Values {
      var q := NewUser(o, nodes, ps, legacy, 1, i);
      MovePass(o, nodes, ps, legacy, m, q, i);
    }
  }

  lemma AfterExact(o: Oracle, nodes: seq<Proxy>, ps: seq<Proxy>, legacy: bool, p: Proxy, i: nat) returns (paired: bool)
    requires IsPrepared(o, ps) && Match(o, nodes, ps, legacy).Some? && BelongTogether(o, nodes, ps, legacy, p, i) && Open(o, nodes, ps, legacy, 2, p, i)
    requires Stage(o, nodes, ps, legacy, 3).Some?
    ensures paired ==> Has(Match(o, nodes, ps, legacy).value, p.key, i)
    ensures !paired ==> Open(o, nodes, ps, legacy, 3, p, i)
  {
    hide Stage, IsPrepared, Lower, Normalized, IsPlaceholder, Match;
    var m, x := Stage(o, nodes, ps, legacy, 2).value, Stage(o, nodes, ps, legacy, 3).value;
    if p.key in x {
      ExactPass(o, nodes, ps, legacy, m, p, x[p.key]);
      StaysPaired(o, nodes, ps, legacy, 3, p.key, i);
      return true;
    }
    if i in x.Values {
      var q := NewUser(o, nodes, ps, legacy, 2, i);
      ExactPass(o, nodes, ps, legacy, m, q, i);
    }
    return false;
  }

  lemma AfterEndpoints(o: Oracle, nodes: seq<Proxy>, ps: seq<Proxy>, legacy: bool, p: Proxy, i: nat)
    requires IsPrepared(o, ps) && Match(o, nodes, ps, legacy).Some? && BelongTogether(o, nodes, ps, legacy, p, i) && Open(o, nodes, ps, legacy, 3, p, i)
    requires Stage(o, nodes, ps, legacy, 4).Some?
    ensures Has(Match(o, nodes, ps, legacy).value, p.key, i)
  {
    hide Stage, IsPrepared, Lower, Match;
    EndpointPass(o, nodes, ps, legacy, Stage(o, nodes, ps, legacy, 3).value, p, i);
    StaysPaired(o, nodes, ps, legacy, 4, p.key, i);
  }

  /** So in a merge under the same URL: the node keeps its name, local port and enabled flag and takes the
      rest from the entry.  Before the first merge under a URL that also holds for nodes without a source. */
  lemma RenamedKeepsNode(o: Oracle, c: Config, feed: seq<Proxy>, url: string, f: Proxy, i: nat)
    requires Merge(o, c, feed, url).Merged? && f in feed && (c.sourceKey == "" || c.sourceKey == o.hash(url))
    requires Prepare(o, feed).Some? ==> BelongTogether(o, c.proxies, Prepare(o, feed).value, !c.migrated && c.subscriptionUrl == url, Prepared(o, f), i)
    ensures i < |c.proxies|
    ensures exists j :: 0 <= j < |Merge(o, c, feed, url).next.proxies| &&
              SameLocal(Merge(o, c, feed, url).next.proxies[j], c.proxies[i]) && Carries(Merge(o, c, feed, url).next.proxies[j], Prepared(o, f))
  {
    assert !UrlChanged(o, c, url);
    hide Merge, Prepare, Match, UrlChanged, BelongTogether, Prepared, IsPrepared, Kept, SortByKey, Unpaired, NamesOf, PortsOf, Allocated, Injective, Carries, SameLocal;
    var ps, m, added := MergeParts(o, c, feed, url);
    var p := Prepared(o, f);
    assert p in ps && i < |c.proxies| by { TogetherInside(o, c.proxies, ps, AllowsLegacy(c, url), p, i); }
    TogetherPaired(o, c.proxies, ps, AllowsLegacy(c, url), p, i);
    MatchedKeepsIdentity(o, c, feed, url, ps, m, added, Merge(o, c, feed, url).next, p);
  }

  lemma TogetherInside(o: Oracle, nodes: seq<Proxy>, ps: seq<Proxy>, legacy: bool, p: Proxy, i: nat)
    requires BelongTogether(o, nodes, ps, legacy, p, i)
    ensures p in ps && i < |nodes|
  {
  }
}
