/** A merge of a valid configuration with valid entries never fails its final checks. */
module MergeValidity {
  import opened Text
  import opened ProxyConfig
  import opened SubscriptionMatch
  import opened SubscriptionOrder
  import opened SubscriptionMerge
  import opened MergeOrder

  /** A node that stays keeps its name and local port. */
  lemma {:induction false} KeptFrom(nodes: seq<Proxy>, ps: seq<Proxy>, m: Pairing, urlChanged: bool, i: nat)
    requires i <= |nodes|
    ensures forall x :: x in Kept(nodes, ps, m, urlChanged, i) ==>
      exists t :: 0 <= t < i && Retained(nodes[t], Partner(ps, m, t), urlChanged) == Some(x)
  {
    hide Retained, Partner;
    if i > 0 {
      KeptFrom(nodes, ps, m, urlChanged, i - 1);
    }
  }

  lemma RetainedKeepsIdentity(n: Proxy, partner: Option<Proxy>, urlChanged: bool)
    requires Retained(n, partner, urlChanged).Some?
    ensures var x := Retained(n, partner, urlChanged).value;
            x.name == n.name && x.localPort == n.localPort && x.enabled == n.enabled
  {
  }

  ghost predicate Apart(a: Proxy, b: Proxy) {
    Normalized(a.name) != Normalized(b.name) && (a.localPort > 0 ==> a.localPort != b.localPort)
  }

  lemma DistinctAt(ps: seq<Proxy>, i: nat, j: nat)
    requires NamesDistinct(ps) && PortsDistinct(ps) && i < j < |ps|
    ensures Apart(ps[i], ps[j])
  {
  }

  lemma DistinctAppend(ps: seq<Proxy>, x: Proxy)
    requires NamesDistinct(ps) && PortsDistinct(ps) && forall i :: 0 <= i < |ps| ==> Apart(ps[i], x)
    ensures NamesDistinct(ps + [x]) && PortsDistinct(ps + [x])
  {
    hide Normalized;
  }

  lemma DistinctMaybe(ps: seq<Proxy>, r: Option<Proxy>)
    requires NamesDistinct(ps) && PortsDistinct(ps) && (r.Some? ==> forall i :: 0 <= i < |ps| ==> Apart(ps[i], r.value))
    ensures NamesDistinct(ps + AsSeq(r)) && PortsDistinct(ps + AsSeq(r))
  {
    hide Apart, NamesDistinct, PortsDistinct;
    if r.Some? {
      DistinctAppend(ps, r.value);
    } else {
      assert ps + [] == ps;
    }
  }

  lemma {:induction false} KeptDistinct(nodes: seq<Proxy>, ps: seq<Proxy>, m: Pairing, urlChanged: bool, i: nat)
    requires i <= |nodes| && NamesDistinct(nodes) && PortsDistinct(nodes)
    ensures NamesDistinct(Kept(nodes, ps, m, urlChanged, i))
    ensures PortsDistinct(Kept(nodes, ps, m, urlChanged, i))
  {
    hide Retained, Partner, Normalized, NamesDistinct, PortsDistinct, Apart, AsSeq;
    if i == 0 {
      NothingDistinct();
    } else {
      KeptDistinct(nodes, ps, m, urlChanged, i - 1);
      KeptAllApart(nodes, ps, m, urlChanged, i);
      DistinctMaybe(Kept(nodes, ps, m, urlChanged, i - 1), Retained(nodes[i - 1], Partner(ps, m, i - 1), urlChanged));
    }
  }

  lemma NothingDistinct()
    ensures NamesDistinct([]) && PortsDistinct([])
  {
  }

  lemma KeptAllApart(nodes: seq<Proxy>, ps: seq<Proxy>, m: Pairing, urlChanged: bool, i: nat)
    requires 0 < i <= |nodes| && NamesDistinct(nodes) && PortsDistinct(nodes)
    ensures var k, r := Kept(nodes, ps, m, urlChanged, i - 1), Retained(nodes[i - 1], Partner(ps, m, i - 1), urlChanged);
            r.Some? ==> forall j :: 0 <= j < |k| ==> Apart(k[j], r.value)
  {
    hide Retained, Partner, NamesDistinct, PortsDistinct, Apart, Kept;
    var k, r := Kept(nodes, ps, m, urlChanged, i - 1), Retained(nodes[i - 1], Partner(ps, m, i - 1), urlChanged);
    if r.Some? {
      forall j | 0 <= j < |k| ensures Apart(k[j], r.value) {
        KeptApart(nodes, ps, m, urlChanged, i, k[j]);
      }
    }
  }

  lemma KeptApart(nodes: seq<Proxy>, ps: seq<Proxy>, m: Pairing, urlChanged: bool, i: nat, x: Proxy)
    requires 0 < i <= |nodes| && NamesDistinct(nodes) && PortsDistinct(nodes)
    requires x in Kept(nodes, ps, m, urlChanged, i - 1)
    requires Retained(nodes[i - 1], Partner(ps, m, i - 1), urlChanged).Some?
    ensures Apart(x, Retained(nodes[i - 1], Partner(ps, m, i - 1), urlChanged).value)
  {
    hide Retained, Partner, Normalized, Kept;
    RetainedKeepsIdentity(nodes[i - 1], Partner(ps, m, i - 1), urlChanged);
    KeptFrom(nodes, ps, m, urlChanged, i - 1);
    var t :| 0 <= t < i - 1 && Retained(nodes[t], Partner(ps, m, t), urlChanged) == Some(x);
    RetainedKeepsIdentity(nodes[t], Partner(ps, m, t), urlChanged);
    DistinctAt(nodes, t, i - 1);
  }

  lemma KeptValid(nodes: seq<Proxy>, ps: seq<Proxy>, m: Pairing, urlChanged: bool, unifiedPort: int, x: Proxy)
    requires forall i :: 0 <= i < |nodes| ==> NodeValid(nodes[i], unifiedPort)
    requires forall p :: p in ps ==> ConnectionValid(p)
    requires x in Kept(nodes, ps, m, urlChanged, |nodes|)
    ensures NodeValid(x, unifiedPort)
  {
    hide Kept, IsBundledExample;
    KeptFrom(nodes, ps, m, urlChanged, |nodes|);
    var t :| 0 <= t < |nodes| && Retained(nodes[t], Partner(ps, m, t), urlChanged) == Some(x);
    RetainedKeepsIdentity(nodes[t], Partner(ps, m, t), urlChanged);
  }

  /** What allocation promises about the new nodes. */
  ghost predicate Allocated(additions: seq<Proxy>, names: set<string>, ports: set<int>, added: seq<Proxy>) {
    && |added| == |additions|
    && (forall i :: 0 <= i < |added| ==>
          added[i] == additions[i].(name := added[i].name, localPort := added[i].localPort, enabled := true))
    && (forall i :: 0 <= i < |added| ==> Normalized(added[i].name) !in names)
    && (forall i :: 0 <= i < |added| ==> FIRST_PORT <= added[i].localPort <= LAST_PORT && added[i].localPort !in ports)
    && (forall i :: 0 <= i < |added| && additions[i].server != "" ==> added[i].name != "")
    && NamesDistinct(added) && PortsDistinct(added)
  }

  lemma FreshName(names: set<string>, p: Proxy)
    requires p.server != ""
    ensures Numbered(BaseName(p), FreshIndex(names, BaseName(p), 0)) != ""
  {
    hide FreshIndex;
  }

  lemma {:induction false} AllocateIs(additions: seq<Proxy>, names: set<string>, ports: set<int>)
    requires Allocate(additions, names, ports).Some?
    ensures Allocated(additions, names, ports, Allocate(additions, names, ports).value)
    ensures |Allocate(additions, names, ports).value| == |additions|
  {
    if additions != [] {
      hide Normalized, Numbered, FreshIndex, FreePort, BaseName;
      var p := additions[0];
      var name := Numbered(BaseName(p), FreshIndex(names, BaseName(p), 0));
      var port := FreePort(ports, FIRST_PORT);
      AllocateIs(additions[1..], names + {Normalized(name)}, ports + {port});
      if p.server != "" { FreshName(names, p); }
      AllocatedFirst(additions, names, ports, name, port, Allocate(additions[1..], names + {Normalized(name)}, ports + {port}).value);
    }
  }

  lemma AllocatedFirst(additions: seq<Proxy>, names: set<string>, ports: set<int>, name: string, port: int, rest: seq<Proxy>)
    requires additions != [] && Allocated(additions[1..], names + {Normalized(name)}, ports + {port}, rest)
    requires Normalized(name) !in names && FIRST_PORT <= port <= LAST_PORT && port !in ports
    requires additions[0].server != "" ==> name != ""
    ensures Allocated(additions, names, ports, [additions[0].(name := name, localPort := port, enabled := true)] + rest)
  {
    hide Normalized;
    var added := [additions[0].(name := name, localPort := port, enabled := true)] + rest;
    forall i | 1 <= i < |added| ensures added[i] == rest[i - 1] && additions[i] == additions[1..][i - 1] {
    }
  }

  /** Kept nodes and new nodes do not get in each other's way. */
  lemma JoinedValid(kept: seq<Proxy>, additions: seq<Proxy>, added: seq<Proxy>, unifiedPort: int)
    requires NamesDistinct(kept) && PortsDistinct(kept)
    requires forall x :: x in kept ==> NodeValid(x, unifiedPort)
    requires forall p :: p in additions ==> ConnectionValid(p)
    requires Allocated(additions, NamesOf(kept), PortsOf(kept, unifiedPort), added)
    ensures NamesDistinct(kept + added) && PortsDistinct(kept + added)
    ensures forall i :: 0 <= i < |kept + added| ==> NodeValid((kept + added)[i], unifiedPort)
  {
    hide Normalized;
    forall x | x in kept ensures Normalized(x.name) in NamesOf(kept) && (x.localPort > 0 ==> x.localPort in PortsOf(kept, unifiedPort)) {
    }
    forall i | 0 <= i < |added| ensures NodeValid(added[i], unifiedPort) {
      assert additions[i] in additions;
    }
  }

  /** From a valid configuration with distinct names and entries whose fields are valid, a merge
      fails only by an identity conflict, an ambiguous match or port exhaustion. */
  lemma ValidByConstruction(o: Oracle, c: Config, feed: seq<Proxy>, url: string)
    requires IsValid(c) && NamesDistinct(c.proxies) && url != "" && feed != []
    requires forall f :: f in feed ==> ConnectionValid(f)
    ensures match Merge(o, c, feed, url)
            case Merged(next, _) => IsValid(next) && NamesDistinct(next.proxies)
            case Failed(r) => r in {DuplicateIdentity, AmbiguousMatch, NoPort}
  {
    hide Prepare, PairingOf, Assemble, ConnectionValid, IsValid;
    PrepareIs(o, feed);
    if Prepare(o, feed).Some? {
      var ps := Prepare(o, feed).value;
      PreparedValid(o, feed, ps);
      PreparedNonempty(o, feed, ps);
      if PairingOf(o, c, ps, url).Some? {
        AssembleValid(o, c, ps, PairingOf(o, c, ps, url).value, url);
      }
    }
  }

  lemma PreparedValid(o: Oracle, feed: seq<Proxy>, ps: seq<Proxy>)
    requires Covers(o, ps, feed) && forall f :: f in feed ==> ConnectionValid(f)
    ensures forall p :: p in ps ==> ConnectionValid(p)
  {
    hide ProxyKey;
  }

  lemma PreparedNonempty(o: Oracle, feed: seq<Proxy>, ps: seq<Proxy>)
    requires Covers(o, ps, feed) && feed != []
    ensures ps != []
  {
    hide Prepared;
    assert Prepared(o, feed[0]) in ps;
  }

  lemma AssembleValid(o: Oracle, c: Config, ps: seq<Proxy>, m: Pairing, url: string)
    requires IsValid(c) && NamesDistinct(c.proxies) && ps != []
    requires PairingOf(o, c, ps, url) == Some(m)
    requires forall p :: p in ps ==> ConnectionValid(p)
    ensures Assemble(o, c, ps, m, url).Merged? || Assemble(o, c, ps, m, url) == Failed(NoPort)
    ensures Assemble(o, c, ps, m, url).Merged? ==>
      IsValid(Assemble(o, c, ps, m, url).next) && NamesDistinct(Assemble(o, c, ps, m, url).next.proxies)
  {
    hide ConnectionValid, Kept, Counted, Allocate, SortByKey, Unpaired, NamesOf, PortsOf, Allocated, Normalized, PairingOf;
    var uc := UrlChanged(o, c, url);
    var kept := Kept(c.proxies, ps, m, uc, |c.proxies|);
    var additions := SortByKey(Unpaired(ps, m));
    KeptDistinct(c.proxies, ps, m, uc, |c.proxies|);
    forall x | x in kept ensures NodeValid(x, c.unifiedPort) {
      KeptValid(c.proxies, ps, m, uc, c.unifiedPort, x);
    }
    if Allocate(additions, NamesOf(kept), PortsOf(kept, c.unifiedPort)).Some? {
      var added := Allocate(additions, NamesOf(kept), PortsOf(kept, c.unifiedPort)).value;
      AllocateIs(additions, NamesOf(kept), PortsOf(kept, c.unifiedPort));
      JoinedValid(kept, additions, added, c.unifiedPort);
      SomethingStays(o, c, ps, m, url, kept, added);
    }
  }

  /** Every entry of the feed ends up as a node, so the result is never empty. */
  lemma SomethingStays(o: Oracle, c: Config, ps: seq<Proxy>, m: Pairing, url: string, kept: seq<Proxy>, added: seq<Proxy>)
    requires ps != [] && PairingOf(o, c, ps, url) == Some(m)
    requires kept == Kept(c.proxies, ps, m, UrlChanged(o, c, url), |c.proxies|)
    requires |added| == |SortByKey(Unpaired(ps, m))|
    ensures kept + added != []
  {
    hide Kept, SortByKey, Unpaired, PairingOf, Fits;
    if ps[0].key in m {
      PairedStays(o, c, ps, m, url, ps[0]);
    } else {
      assert ps[0] in SortByKey(Unpaired(ps, m));
    }
  }

  lemma {:induction false} KeptHas(nodes: seq<Proxy>, ps: seq<Proxy>, m: Pairing, urlChanged: bool, i: nat, t: nat)
    requires t < i <= |nodes| && Retained(nodes[t], Partner(ps, m, t), urlChanged).Some?
    ensures Retained(nodes[t], Partner(ps, m, t), urlChanged).value in Kept(nodes, ps, m, urlChanged, i)
    decreases i
  {
    hide Retained, Partner;
    if t < i - 1 {
      KeptHas(nodes, ps, m, urlChanged, i - 1, t);
    }
  }

  /** A paired node always stays. */
  lemma PairedStays(o: Oracle, c: Config, ps: seq<Proxy>, m: Pairing, url: string, p: Proxy)
    requires PairingOf(o, c, ps, url) == Some(m) && p in ps && p.key in m
    ensures m[p.key] < |c.proxies| && !IsBundledExample(c.proxies[m[p.key]])
    ensures Partner(ps, m, m[p.key]).Some? && !UrlChanged(o, c, url)
    ensures exists x :: x in Kept(c.proxies, ps, m, UrlChanged(o, c, url), |c.proxies|)
  {
    hide Kept, Rule, TakesPart, Injective;
    var i := m[p.key];
    StageKeeps(o, c.proxies, ps, AllowsLegacy(c, url), 5);
    assert IsPartner(ps, m, i, p);
    KeptHas(c.proxies, ps, m, UrlChanged(o, c, url), |c.proxies|, i);
  }

  // ---- port exhaustion, exactly ----

  predicate IsPort(q: int) { FIRST_PORT <= q <= LAST_PORT }

  function FreePorts(ports: set<int>): set<int> {
    set q: int | FIRST_PORT <= q <= LAST_PORT && IsPort(q) && q !in ports
  }

  /** Allocation fails exactly when there are more new nodes than free ports. */
  lemma {:induction false} ExhaustedIff(additions: seq<Proxy>, names: set<string>, ports: set<int>)
    ensures Allocate(additions, names, ports).None? <==> |additions| > |FreePorts(ports)|
  {
    if additions != [] {
      hide Normalized, Numbered, FreshIndex, BaseName;
      var port := FreePort(ports, FIRST_PORT);
      if port == 0 {
        assert FreePorts(ports) == {};
      } else {
        var name := Numbered(BaseName(additions[0]), FreshIndex(names, BaseName(additions[0]), 0));
        ExhaustedIff(additions[1..], names + {Normalized(name)}, ports + {port});
        assert FreePorts(ports) == FreePorts(ports + {port}) + {port};
        assert port !in FreePorts(ports + {port});
      }
    }
  }

  /** The new nodes of a merge, before they have names and ports, and the ports they may not take. */
  ghost function Additions(ps: seq<Proxy>, m: Pairing): seq<Proxy> { SortByKey(Unpaired(ps, m)) }

  ghost function TakenPorts(o: Oracle, c: Config, ps: seq<Proxy>, m: Pairing, url: string): set<int> {
    PortsOf(Kept(c.proxies, ps, m, UrlChanged(o, c, url), |c.proxies|), c.unifiedPort)
  }

  ghost predicate EnoughPorts(o: Oracle, c: Config, ps: seq<Proxy>, m: Pairing, url: string) {
    |Additions(ps, m)| <= |FreePorts(TakenPorts(o, c, ps, m, url))|
  }

  lemma MergeSucceedsGiven(o: Oracle, c: Config, feed: seq<Proxy>, url: string)
    requires IsValid(c) && NamesDistinct(c.proxies) && url != "" && feed != []
    requires forall f :: f in feed ==> ConnectionValid(f)
    ensures Merge(o, c, feed, url).Merged? <==>
      && Prepare(o, feed).Some?
      && (var ps := Prepare(o, feed).value;
          && PairingOf(o, c, ps, url).Some?
          && EnoughPorts(o, c, ps, PairingOf(o, c, ps, url).value, url))
  {
    hide Prepare, PairingOf, Kept, Counted, Allocate, SortByKey, Unpaired, NamesOf, PortsOf, FreePorts, Clashes, Covers, IsPrepared, ConnectionValid, IsValid, NamesDistinct, UrlChanged;
    PrepareIs(o, feed);
    if Prepare(o, feed).Some? {
      var ps := Prepare(o, feed).value;
      PreparedValid(o, feed, ps);
      PreparedNonempty(o, feed, ps);
      if PairingOf(o, c, ps, url).Some? {
        var m := PairingOf(o, c, ps, url).value;
        AssembleValid(o, c, ps, m, url);
        ExhaustedIff(Additions(ps, m), NamesOf(Kept(c.proxies, ps, m, UrlChanged(o, c, url), |c.proxies|)), TakenPorts(o, c, ps, m, url));
      }
    }
  }

  /** In no pass is an entry the first of the feed to want two free nodes; under a new URL there are no
      passes. */
  ghost predicate Unambiguous(o: Oracle, c: Config, ps: seq<Proxy>, url: string) {
    UrlChanged(o, c, url) || AllServed(o, c.proxies, ps, AllowsLegacy(c, url))
  }

  /** What decides a merge of usable entries into a valid configuration: it succeeds exactly when no two
      entries clash, in no pass an entry is the first to want two free nodes, and there are free ports
      for all new nodes. */
  lemma MergeSucceedsIff(o: Oracle, c: Config, feed: seq<Proxy>, url: string)
    requires IsValid(c) && NamesDistinct(c.proxies) && url != "" && feed != []
    requires forall f :: f in feed ==> ConnectionValid(f)
    ensures match Prepare(o, feed)
            case None => Clashes(o, feed) && !Merge(o, c, feed, url).Merged?
            case Some(ps) =>
              var pairing := PairingOf(o, c, ps, url);
              && !Clashes(o, feed)
              && (pairing.Some? <==> Unambiguous(o, c, ps, url))
              && (Merge(o, c, feed, url).Merged? <==> Unambiguous(o, c, ps, url) && EnoughPorts(o, c, ps, pairing.value, url))
              && (!Unambiguous(o, c, ps, url) ==> Merge(o, c, feed, url) == Failed(AmbiguousMatch))
  {
    hide Prepare, Match, Clashes, Covers, IsPrepared, ConnectionValid, IsValid, NamesDistinct, UrlChanged, AllServed, Stage, EnoughPorts, Assemble;
    PrepareIs(o, feed);
    MergeSucceedsGiven(o, c, feed, url);
    if Prepare(o, feed).Some? {
      MatchSucceedsIff(o, c.proxies, Prepare(o, feed).value, AllowsLegacy(c, url));
    }
  }

  lemma ManualUnmatched(o: Oracle, n: Proxy, p: Proxy, legacy: bool, pass: nat)
    requires n.source == MANUAL
    ensures Stage(o, [n], [p], legacy, pass) == Some(map[])
  {
    hide Rule, TakesPart, IsBundledExample;
    if pass > 0 {
      ManualUnmatched(o, n, p, legacy, pass - 1);
      var e: Pairing := map[];
      assert Candidates(o, [n], legacy, pass - 1, p, e.Values) == {};
      assert PassFrom(o, [n], [p], legacy, pass - 1, 1, e) == Some(e);
    }
  }

  lemma PrepareOne(o: Oracle, f: Proxy)
    ensures Prepare(o, [f]) == Some([Prepared(o, f)]) && !Clashes(o, [f])
  {
    hide Prepared;
    assert [f][..0] == [];
    assert Prepare(o, []) == Some([]);
    assert [] + [Prepared(o, f)] == [Prepared(o, f)];
  }

  lemma OneAddition(p: Proxy)
    ensures |Additions([p], map[])| == 1
  {
    assert [p][..0] == [];
    assert Unpaired([], map[]) == [];
    assert Unpaired([p], map[]) == [] + [p] == [p];
    assert SortByKey([]) == [];
  }

  lemma SomePortFree(ports: set<int>, a: int, b: int)
    requires forall q :: q in ports ==> q == a || q == b
    ensures |FreePorts(ports)| >= 1
  {
    var q := if a != 10801 && b != 10801 then 10801 else if a != 10802 && b != 10802 then 10802 else 10803;
    assert IsPort(q) && q in FreePorts(ports);
  }

  /** For one: the first feed of one entry always merges into a configuration of one manual node. */
  lemma FirstMergeSucceeds(o: Oracle, c: Config, f: Proxy, url: string)
    requires IsValid(c) && |c.proxies| == 1 && c.proxies[0].source == MANUAL && url != "" && ConnectionValid(f)
    ensures Merge(o, c, [f], url).Merged?
  {
    hide Prepare, Clashes, ConnectionValid, NodeValid, Stage, Additions, FreePorts, Normalized, Prepared, IsBundledExample;
    var n, p := c.proxies[0], Prepared(o, f);
    assert c.proxies == [n];
    PrepareOne(o, f);
    ManualUnmatched(o, n, p, AllowsLegacy(c, url), 5);
    assert PairingOf(o, c, [p], url) == Some(map[]);
    OneAddition(p);
    var kept := Kept(c.proxies, [p], map[], UrlChanged(o, c, url), 1);
    forall x | x in kept ensures x == n {
      ManualKeptAlone(n, p, UrlChanged(o, c, url), x);
    }
    SomePortFree(TakenPorts(o, c, [p], map[], url), n.localPort, c.unifiedPort);
    hide Merge;
    MergeSucceedsGiven(o, c, [f], url);
  }

  lemma ManualKeptAlone(n: Proxy, p: Proxy, urlChanged: bool, x: Proxy)
    requires n.source == MANUAL && x in Kept([n], [p], map[], urlChanged, 1)
    ensures x == n
  {
    assert Kept([n], [p], map[], urlChanged, 0) == [];
    assert Partner([p], map[], 0).None?;
  }
}
