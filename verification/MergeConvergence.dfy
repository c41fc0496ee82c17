/** Merging the same feed again: what the second and the third merge do. */
module MergeConvergence {
  import opened Text
  import opened ProxyConfig
  import opened SubscriptionMatch
  import opened SubscriptionOrder
  import opened FirstCome
  import opened SubscriptionMerge
  import opened MergeOrder
  import opened MergeValidity

  predicate Tracks(n: Proxy, p: Proxy) {
    n.source == SUBSCRIPTION && n.key == p.key
  }

  /** Nodes the feed has lost once; the next merge removes them. */
  predicate Stale(n: Proxy) {
    n.source == SUBSCRIPTION && n.missing == 1
  }

  function Fresh(nodes: seq<Proxy>): (r: seq<Proxy>)
    ensures forall n :: n in r <==> n in nodes && !Stale(n)
  {
    if nodes == [] then []
    else
      assert nodes == nodes[..|nodes| - 1] + [nodes[|nodes| - 1]];
      Fresh(nodes[..|nodes| - 1]) + (if Stale(nodes[|nodes| - 1]) then [] else [nodes[|nodes| - 1]])
  }

  ghost predicate AtMostOnce(nodes: seq<Proxy>, p: Proxy) {
    forall i, j :: 0 <= i < j < |nodes| ==> !(Tracks(nodes[i], p) && Tracks(nodes[j], p))
  }

  /** The nodes after a merge of the entries ps: every entry has exactly one node, which already
      carries its data, and every other tracked node has been missed once. */
  ghost predicate Settled(nodes: seq<Proxy>, ps: seq<Proxy>) {
    && (forall p :: p in ps ==> exists n :: n in nodes && Tracks(n, p))
    && (forall p :: p in ps ==> AtMostOnce(nodes, p))
    && (forall p, n :: p in ps && n in nodes && Tracks(n, p) ==> Carries(n, p))
    && (forall n :: n in nodes ==> !IsBundledExample(n))
    && (forall n :: n in nodes && n.source == SUBSCRIPTION && (forall p :: p in ps ==> p.key != n.key) ==> Stale(n))
  }

  // ---- pass 0 on settled nodes pairs everything ----

  /** The first pass pairs an entry with the only node under its key. */
  lemma FirstPass(o: Oracle, nodes: seq<Proxy>, ps: seq<Proxy>, legacy: bool, p: Proxy, i: nat)
    requires IsPrepared(o, ps) && p in ps && i < |nodes| && Tracks(nodes[i], p)
    requires Stage(o, nodes, ps, legacy, 1).Some?
    ensures p.key in Stage(o, nodes, ps, legacy, 1).value && Stage(o, nodes, ps, legacy, 1).value[p.key] == i
  {
    hide IsPrepared, PassFrom, Tracks, Earns, Gets, Enumerates, Serves, NoContest, Wishes, NoCompetition;
    var e: Pairing := map[];
    assert Stage(o, nodes, ps, legacy, 0) == Some(e);
    var w := Wishes(o, nodes, ps, legacy, 0, e);
    WishesInside(o, nodes, ps, legacy, 0, e);
    SameElementsItself(ps);
    OrdersEnumerate(o, ps, ps);
    NoCompetitionOutside(o, nodes, ps, legacy, 0);
    NoCompetitionNoContest(o, nodes, ps, legacy, 0, e);
    UncontestedOrder(w, ps, Elements(ps));
    PassIs(o, nodes, ps, legacy, 0, e);
    TracksWants(o, nodes, ps, legacy, p, i);
    EarnsGets(w, o, ps, p, i);
    assert Has(Stage(o, nodes, ps, legacy, 1).value, p.key, i);
  }

  lemma TracksWants(o: Oracle, nodes: seq<Proxy>, ps: seq<Proxy>, legacy: bool, p: Proxy, i: nat)
    requires p in ps && i < |nodes| && Tracks(nodes[i], p)
    ensures Wants(Wishes(o, nodes, ps, legacy, 0, map[]), p, i)
  {
    var e: Pairing := map[];
    assert Fits(o, nodes, legacy, 0, p, i);
    assert i in Candidates(o, nodes, legacy, 0, p, e.Values);
  }

  /** Passes have nothing to do once every entry is paired. */
  lemma {:induction false} PassIdle(o: Oracle, nodes: seq<Proxy>, ps: seq<Proxy>, legacy: bool, pass: nat, j: nat, m: Pairing)
    requires forall p :: p in ps ==> p.key in m
    ensures PassFrom(o, nodes, ps, legacy, pass, j, m) == Some(m)
    decreases |ps| - j
  {
    if j < |ps| {
      assert ps[j] in ps;
      PassIdle(o, nodes, ps, legacy, pass, j + 1, m);
    }
  }

  lemma {:induction false} StageIdle(o: Oracle, nodes: seq<Proxy>, ps: seq<Proxy>, legacy: bool, pass: nat, m: Pairing)
    requires Stage(o, nodes, ps, legacy, 1) == Some(m) && forall p :: p in ps ==> p.key in m
    requires pass >= 1
    ensures Stage(o, nodes, ps, legacy, pass) == Some(m)
  {
    hide PassFrom;
    if pass > 1 {
      StageIdle(o, nodes, ps, legacy, pass - 1, m);
      PassIdle(o, nodes, ps, legacy, pass - 1, 0, m);
    }
  }

  /** In the first pass no entry wants two settled nodes. */
  lemma SettledUnstuck(o: Oracle, nodes: seq<Proxy>, ps: seq<Proxy>)
    requires Settled(nodes, ps)
    ensures !AnyStuck(Wishes(o, nodes, ps, false, 0, map[]))
  {
    hide Settled, Wishes, TakesPart;
    var w := Wishes(o, nodes, ps, false, 0, map[]);
    forall p, i: nat, j: nat | i != j && Wants(w, p, i) ensures !Wants(w, p, j) {
      WantsTracks(o, nodes, ps, p, i);
      SettledOnce(nodes, ps, p, i, j);
      if Wants(w, p, j) { WantsTracks(o, nodes, ps, p, j); }
    }
  }

  lemma WantsTracks(o: Oracle, nodes: seq<Proxy>, ps: seq<Proxy>, p: Proxy, i: nat)
    requires Wants(Wishes(o, nodes, ps, false, 0, map[]), p, i)
    ensures p in ps && i < |nodes| && Tracks(nodes[i], p)
  {
    hide IsBundledExample;
  }

  lemma SettledOnce(nodes: seq<Proxy>, ps: seq<Proxy>, p: Proxy, i: nat, j: nat)
    requires Settled(nodes, ps) && p in ps && i < |nodes| && Tracks(nodes[i], p) && i != j
    ensures j < |nodes| ==> !Tracks(nodes[j], p)
  {
    hide Tracks;
    assert AtMostOnce(nodes, p);
  }

  lemma SettledPairing(o: Oracle, nodes: seq<Proxy>, ps: seq<Proxy>)
    requires IsPrepared(o, ps) && Settled(nodes, ps)
    ensures Match(o, nodes, ps, false).Some?
    ensures var m := Match(o, nodes, ps, false).value;
      && (forall p :: p in ps ==> p.key in m)
      && (forall p, i :: p in ps && 0 <= i < |nodes| && Tracks(nodes[i], p) ==> m[p.key] == i)
  {
    hide IsPrepared, PassFrom, Settled, Wishes, AnyStuck, Serves, Earns, Has, Tracks;
    var e: Pairing := map[];
    SettledUnstuck(o, nodes, ps);
    NobodyStuck(Wishes(o, nodes, ps, false, 0, e), ps);
    PassIs(o, nodes, ps, false, 0, e);
    assert Stage(o, nodes, ps, false, 0) == Some(e);
    assert Stage(o, nodes, ps, false, 1) == PassFrom(o, nodes, ps, false, 0, 0, e);
    var m := Stage(o, nodes, ps, false, 1).value;
    forall p | p in ps ensures p.key in m {
      SettledHas(nodes, ps, p);
      var i :| 0 <= i < |nodes| && Tracks(nodes[i], p);
      FirstPass(o, nodes, ps, false, p, i);
    }
    StageIdle(o, nodes, ps, false, 5, m);
    forall p, i | p in ps && 0 <= i < |nodes| && Tracks(nodes[i], p) ensures m[p.key] == i {
      FirstPass(o, nodes, ps, false, p, i);
    }
  }

  lemma SettledHas(nodes: seq<Proxy>, ps: seq<Proxy>, p: Proxy)
    requires Settled(nodes, ps) && p in ps
    ensures exists i :: 0 <= i < |nodes| && Tracks(nodes[i], p)
  {
    var n :| n in nodes && Tracks(n, p);
    var i :| 0 <= i < |nodes| && nodes[i] == n;
  }

  // ---- a merge of settled nodes ----

  ghost predicate PairsAll(nodes: seq<Proxy>, ps: seq<Proxy>, m: Pairing) {
    && (forall p :: p in ps ==> p.key in m)
    && (forall p, i :: p in ps && 0 <= i < |nodes| && Tracks(nodes[i], p) ==> m[p.key] == i)
  }

  /** A settled node stays as it is, unless it is stale. */
  lemma SettledNode(o: Oracle, nodes: seq<Proxy>, ps: seq<Proxy>, m: Pairing, i: nat, t: Tally)
    requires IsPrepared(o, ps) && Settled(nodes, ps) && PairsAll(nodes, ps, m) && Injective(m) && i < |nodes|
    ensures Retained(nodes[i], Partner(ps, m, i), false) == if Stale(nodes[i]) then None else Some(nodes[i])
    ensures Count(t, nodes[i], Partner(ps, m, i), false) ==
              if Stale(nodes[i]) then t.(removed := t.removed + 1, runtime := true) else t
  {
    hide IsBundledExample, Injective;
    var n := nodes[i];
    assert n in nodes;
    if p :| p in ps && Tracks(n, p) {
      assert IsPartner(ps, m, i, p);
      PartnerUnique(o, ps, m, i, p);
      assert Carries(n, p) && p == Prepared(o, p);
      assert n.missing == 0;
    } else {
      if Partner(ps, m, i).Some? {
        var q := Partner(ps, m, i).value;
        SettledHas(nodes, ps, q);
      }
    }
  }

  lemma FreshLast(nodes: seq<Proxy>, i: nat)
    requires 0 < i <= |nodes|
    ensures Fresh(nodes[..i]) == Fresh(nodes[..i - 1]) + (if Stale(nodes[i - 1]) then [] else [nodes[i - 1]])
  {
    hide Stale;
    assert nodes[..i][..i - 1] == nodes[..i - 1] && nodes[..i][i - 1] == nodes[i - 1];
  }

  lemma {:induction false} SettledKept(o: Oracle, nodes: seq<Proxy>, ps: seq<Proxy>, m: Pairing, i: nat)
    requires IsPrepared(o, ps) && Settled(nodes, ps) && PairsAll(nodes, ps, m) && Injective(m) && i <= |nodes|
    ensures Kept(nodes, ps, m, false, i) == Fresh(nodes[..i])
  {
    hide IsPrepared, Settled, PairsAll, Injective, Retained, Count, Partner, Stale, Fresh;
    if i > 0 {
      SettledKept(o, nodes, ps, m, i - 1);
      SettledNode(o, nodes, ps, m, i - 1, Tally(0, 0, 0, false));
      FreshLast(nodes, i);
    } else {
      assert nodes[..0] == [];
      assert Fresh([]) == [] by { FreshIdentity([]); }
    }
  }

  lemma {:induction false} SettledCounted(o: Oracle, nodes: seq<Proxy>, ps: seq<Proxy>, m: Pairing, i: nat)
    requires IsPrepared(o, ps) && Settled(nodes, ps) && PairsAll(nodes, ps, m) && Injective(m) && i <= |nodes|
    ensures var r := i - |Fresh(nodes[..i])|;
            r >= 0 && Counted(nodes, ps, m, false, i) == Tally(0, 0, r, r > 0)
  {
    hide IsPrepared, Settled, PairsAll, Injective, Count, Partner, Stale, Fresh;
    if i > 0 {
      SettledCounted(o, nodes, ps, m, i - 1);
      SettledNode(o, nodes, ps, m, i - 1, Counted(nodes, ps, m, false, i - 1));
      FreshLast(nodes, i);
    } else {
      assert nodes[..0] == [];
      assert Fresh([]) == [] by { FreshIdentity([]); }
    }
  }

  lemma {:induction false} UnpairedNone(ps: seq<Proxy>, m: Pairing)
    requires forall p :: p in ps ==> p.key in m
    ensures Unpaired(ps, m) == []
  {
    if ps != [] {
      UnpairedNone(ps[..|ps| - 1], m);
      assert ps[|ps| - 1] in ps;
    }
  }

  lemma PreparedUntouched(o: Oracle, ps: seq<Proxy>)
    requires IsPrepared(o, ps)
    ensures forall p :: p in ps ==> p.missing == 0 && p.source == SUBSCRIPTION
  {
    hide ProxyKey;
  }

  /** The merge of an already merged feed only removes the stale nodes. */
  lemma SettledMerge(o: Oracle, c: Config, feed: seq<Proxy>, url: string, ps: seq<Proxy>)
    requires url != "" && feed != [] && Prepare(o, feed) == Some(ps) && IsPrepared(o, ps)
    requires c == Updated(o, c, c.proxies, url)
    requires IsValid(c) && NamesDistinct(c.proxies) && Settled(c.proxies, ps) && ps != []
    ensures Merge(o, c, feed, url).Merged?
    ensures var r := Merge(o, c, feed, url);
      && r.next == c.(proxies := Fresh(c.proxies))
      && r.result.added == 0 && r.result.updated == 0 && r.result.missing == 0
      && (r.result.changed <==> Fresh(c.proxies) != c.proxies)
      && r.result.removed + |Fresh(c.proxies)| == |c.proxies|
    ensures IsValid(Merge(o, c, feed, url).next) && NamesDistinct(Fresh(c.proxies))
    ensures Settled(Fresh(c.proxies), ps)
  {
    hide IsPrepared, Settled, IsValid, NamesDistinct, Prepare, Injective, Justified, Kept, Counted, Allocate, SortByKey, Unpaired, NamesOf, PortsOf, Fresh, Stage;
    SettledPairing(o, c.proxies, ps);
    PreparedUntouched(o, ps);
    var m := Match(o, c.proxies, ps, false).value;
    assert PairingOf(o, c, ps, url) == Some(m);
    StageKeeps(o, c.proxies, ps, false, 5);
    SettledKept(o, c.proxies, ps, m, |c.proxies|);
    SettledCounted(o, c.proxies, ps, m, |c.proxies|);
    assert c.proxies[..|c.proxies|] == c.proxies;
    UnpairedNone(ps, m);
    SortNothing(Fresh(c.proxies), c.unifiedPort);
    FreshValid(c, ps);
    FreshSettled(c.proxies, ps);
    assert Fresh(c.proxies) + [] == Fresh(c.proxies);
  }

  lemma SortNothing(kept: seq<Proxy>, unifiedPort: int)
    ensures SortByKey([]) == [] && Allocate([], NamesOf(kept), PortsOf(kept, unifiedPort)) == Some([])
  {
  }

  lemma FreshApart(nodes: seq<Proxy>, i: nat)
    requires NamesDistinct(nodes) && PortsDistinct(nodes) && nodes != [] && i < |Fresh(nodes[..|nodes| - 1])|
    ensures Apart(Fresh(nodes[..|nodes| - 1])[i], nodes[|nodes| - 1])
  {
    hide Normalized, Stale, NamesDistinct, PortsDistinct, Fresh, Apart;
    var front := nodes[..|nodes| - 1];
    assert Fresh(front)[i] in front;
    var t :| 0 <= t < |front| && front[t] == Fresh(front)[i];
    DistinctAt(nodes, t, |nodes| - 1);
  }

  lemma {:induction false} FreshDistinct(nodes: seq<Proxy>)
    requires NamesDistinct(nodes) && PortsDistinct(nodes)
    ensures NamesDistinct(Fresh(nodes)) && PortsDistinct(Fresh(nodes))
  {
    if nodes != [] {
      var front, last := nodes[..|nodes| - 1], nodes[|nodes| - 1];
      assert NamesDistinct(front) && PortsDistinct(front) by { hide Normalized, Stale, Fresh; }
      hide Normalized, Stale, NamesDistinct, PortsDistinct, Apart;
      FreshDistinct(front);
      forall i | 0 <= i < |Fresh(front)| ensures Apart(Fresh(front)[i], last) {
        FreshApart(nodes, i);
      }
      DistinctAppend(Fresh(front), last);
      assert Fresh(front) + [] == Fresh(front);
    }
  }

  lemma FreshValid(c: Config, ps: seq<Proxy>)
    requires IsValid(c) && NamesDistinct(c.proxies) && Settled(c.proxies, ps) && ps != []
    requires forall p :: p in ps ==> p.missing == 0
    ensures IsValid(c.(proxies := Fresh(c.proxies))) && NamesDistinct(Fresh(c.proxies))
  {
    hide NodeValid, IsBundledExample, Fresh;
    FreshDistinct(c.proxies);
    forall i | 0 <= i < |Fresh(c.proxies)| ensures NodeValid(Fresh(c.proxies)[i], c.unifiedPort) {
      assert Fresh(c.proxies)[i] in c.proxies;
    }
    assert ps[0] in ps;
    var n :| n in c.proxies && Tracks(n, ps[0]);
    assert Carries(n, ps[0]);
    assert n in Fresh(c.proxies);
  }

  lemma {:induction false} FreshOnce(nodes: seq<Proxy>, p: Proxy)
    requires AtMostOnce(nodes, p)
    ensures AtMostOnce(Fresh(nodes), p)
  {
    hide Tracks, Stale;
    if nodes != [] {
      var front, last := nodes[..|nodes| - 1], nodes[|nodes| - 1];
      FreshOnce(front, p);
      forall i | 0 <= i < |Fresh(front)| ensures !(Tracks(Fresh(front)[i], p) && Tracks(last, p)) {
        assert Fresh(front)[i] in front;
        var t :| 0 <= t < |front| && front[t] == Fresh(front)[i];
        assert nodes[t] == front[t];
      }
    }
  }

  lemma FreshSettled(nodes: seq<Proxy>, ps: seq<Proxy>)
    requires Settled(nodes, ps) && forall p :: p in ps ==> p.missing == 0
    ensures Settled(Fresh(nodes), ps) && forall n :: n in Fresh(nodes) ==> !Stale(n)
  {
    hide IsBundledExample, Fresh;
    forall p | p in ps
      ensures AtMostOnce(Fresh(nodes), p) && exists n :: n in Fresh(nodes) && Tracks(n, p)
    {
      FreshOnce(nodes, p);
      var n :| n in nodes && Tracks(n, p);
      assert Carries(n, p);
      assert n in Fresh(nodes);
    }
  }

  lemma {:induction false} FreshIdentity(nodes: seq<Proxy>)
    requires forall n :: n in nodes ==> !Stale(n)
    ensures Fresh(nodes) == nodes
  {
    if nodes != [] {
      var front := nodes[..|nodes| - 1];
      assert nodes == front + [nodes[|nodes| - 1]];
      assert forall n :: n in front ==> n in nodes;
      FreshIdentity(front);
    }
  }

  // ---- every merge leaves settled nodes ----

  /** Node i of the configuration before the merge became x. */
  ghost predicate Became(nodes: seq<Proxy>, ps: seq<Proxy>, m: Pairing, urlChanged: bool, i: nat, x: Proxy) {
    i < |nodes| && Retained(nodes[i], Partner(ps, m, i), urlChanged) == Some(x)
  }

  /** The pairing respects keys: a tracked node under the key of an entry is paired with that entry. */
  ghost predicate KeysPaired(nodes: seq<Proxy>, ps: seq<Proxy>, m: Pairing, urlChanged: bool) {
    && (urlChanged ==> m == map[])
    && (!urlChanged ==> forall p, i :: p in ps && 0 <= i < |nodes| && Tracks(nodes[i], p) ==> p.key in m && m[p.key] == i)
  }

  lemma PairingKeys(o: Oracle, c: Config, ps: seq<Proxy>, url: string)
    requires IsPrepared(o, ps) && PairingOf(o, c, ps, url).Some?
    ensures KeysPaired(c.proxies, ps, PairingOf(o, c, ps, url).value, UrlChanged(o, c, url))
  {
    hide IsPrepared, PassFrom, Tracks;
    if !UrlChanged(o, c, url) {
      var legacy := AllowsLegacy(c, url);
      StageExtends(o, c.proxies, ps, legacy, 1, 5);
      forall p, i | p in ps && 0 <= i < |c.proxies| && Tracks(c.proxies[i], p)
        ensures p.key in Match(o, c.proxies, ps, legacy).value && Match(o, c.proxies, ps, legacy).value[p.key] == i
      {
        FirstPass(o, c.proxies, ps, legacy, p, i);
      }
    }
  }

  /** A kept node that tracks an entry is the node paired with it. */
  lemma BecameTracked(o: Oracle, nodes: seq<Proxy>, ps: seq<Proxy>, m: Pairing, urlChanged: bool, i: nat, x: Proxy, p: Proxy)
    requires IsPrepared(o, ps) && KeysPaired(nodes, ps, m, urlChanged)
    requires Became(nodes, ps, m, urlChanged, i, x) && p in ps && Tracks(x, p)
    ensures p.key in m && m[p.key] == i && Partner(ps, m, i) == Some(p)
    ensures x == Adopted(nodes[i], p) && Carries(x, p)
  {
    hide IsBundledExample;
    if !urlChanged && Tracks(nodes[i], p) {
      assert IsPartner(ps, m, i, p);
    }
    if Partner(ps, m, i).Some? {
      PreparedKeysIdentify(o, ps, p, Partner(ps, m, i).value);
    }
  }

  lemma BecameOther(o: Oracle, nodes: seq<Proxy>, ps: seq<Proxy>, m: Pairing, urlChanged: bool, i: nat, x: Proxy)
    requires IsPrepared(o, ps) && Became(nodes, ps, m, urlChanged, i, x)
    requires nodes[i].missing >= 0
    ensures !IsBundledExample(x)
    ensures x.source == SUBSCRIPTION && (forall p :: p in ps ==> p.key != x.key) ==> Stale(x)
  {
  }

  lemma {:induction false} KeptTracksOnce(o: Oracle, nodes: seq<Proxy>, ps: seq<Proxy>, m: Pairing, urlChanged: bool, i: nat, p: Proxy)
    requires IsPrepared(o, ps) && KeysPaired(nodes, ps, m, urlChanged) && i <= |nodes| && p in ps
    ensures AtMostOnce(Kept(nodes, ps, m, urlChanged, i), p)
    ensures forall x :: x in Kept(nodes, ps, m, urlChanged, i) && Tracks(x, p) ==>
              p.key in m && m[p.key] < i && Carries(x, p)
  {
    hide IsPrepared, KeysPaired, Retained, Partner, Tracks, Adopted;
    if i > 0 {
      KeptTracksOnce(o, nodes, ps, m, urlChanged, i - 1, p);
      var r := Retained(nodes[i - 1], Partner(ps, m, i - 1), urlChanged);
      if r.Some? && Tracks(r.value, p) {
        assert Became(nodes, ps, m, urlChanged, i - 1, r.value);
        BecameTracked(o, nodes, ps, m, urlChanged, i - 1, r.value, p);
      }
    }
  }

  lemma AddedTracksOnce(additions: seq<Proxy>, added: seq<Proxy>, p: Proxy)
    requires |added| == |additions| && KeysDistinct(additions)
    requires forall i :: 0 <= i < |added| ==> added[i] == additions[i].(name := added[i].name, localPort := added[i].localPort, enabled := true)
    ensures AtMostOnce(added, p)
    ensures forall x :: x in added && Tracks(x, p) ==> exists q :: q in additions && q.key == p.key
  {
    forall x | x in added && Tracks(x, p) ensures exists q :: q in additions && q.key == p.key {
      var i :| 0 <= i < |added| && added[i] == x;
      assert additions[i] in additions && additions[i].key == p.key;
    }
  }

  lemma AtMostOnceJoin(a: seq<Proxy>, b: seq<Proxy>, p: Proxy)
    requires AtMostOnce(a, p) && AtMostOnce(b, p)
    requires (forall x :: x in a ==> !Tracks(x, p)) || (forall x :: x in b ==> !Tracks(x, p))
    ensures AtMostOnce(a + b, p)
  {
    hide Tracks;
    var ab := a + b;
    forall i, j | 0 <= i < j < |ab| ensures !(Tracks(ab[i], p) && Tracks(ab[j], p)) {
      if i < |a| <= j { assert ab[i] in a && ab[j] in b; }
    }
  }

  /** Whatever the configuration was, a successful merge leaves settled nodes: provided no counter of
      missed updates was negative. */
  lemma MergeSettles(o: Oracle, c: Config, feed: seq<Proxy>, url: string, ps: seq<Proxy>)
    requires Prepare(o, feed) == Some(ps) && Merge(o, c, feed, url).Merged?
    requires forall n :: n in c.proxies ==> n.missing >= 0
    ensures Settled(Merge(o, c, feed, url).next.proxies, ps) && IsPrepared(o, ps) && ps != []
    ensures var r := Merge(o, c, feed, url);
      IsValid(r.next) && NamesDistinct(r.next.proxies) && r.next == Updated(o, r.next, r.next.proxies, url)
  {
    hide Prepare, IsValid, NamesDistinct, PairingOf, Kept, Counted, Allocate, SortByKey, Unpaired, NamesOf, PortsOf, UrlChanged, IsPrepared, Covers, Settled;
    PrepareIs(o, feed);
    PreparedNonempty(o, feed, ps);
    var m := PairingOf(o, c, ps, url).value;
    var kept := Kept(c.proxies, ps, m, UrlChanged(o, c, url), |c.proxies|);
    var additions := SortByKey(Unpaired(ps, m));
    var added := Allocate(additions, NamesOf(kept), PortsOf(kept, c.unifiedPort)).value;
    AllocateIs(additions, NamesOf(kept), PortsOf(kept, c.unifiedPort));
    JoinedSettled(o, c, ps, m, url, kept, additions, added);
  }

  lemma JoinedSettled(o: Oracle, c: Config, ps: seq<Proxy>, m: Pairing, url: string, kept: seq<Proxy>, additions: seq<Proxy>, added: seq<Proxy>)
    requires IsPrepared(o, ps) && PairingOf(o, c, ps, url) == Some(m)
    requires forall n :: n in c.proxies ==> n.missing >= 0
    requires kept == Kept(c.proxies, ps, m, UrlChanged(o, c, url), |c.proxies|)
    requires additions == SortByKey(Unpaired(ps, m)) && Allocated(additions, NamesOf(kept), PortsOf(kept, c.unifiedPort), added)
    ensures Settled(kept + added, ps)
  {
    hide IsPrepared, PairingOf, Kept, Unpaired, SortByKey, NamesOf, PortsOf, NamesDistinct, PortsDistinct, Tracks, Adopted, IsBundledExample, Stale, Normalized;
    forall p | p in ps
      ensures AtMostOnce(kept + added, p)
      ensures exists n :: n in kept + added && Tracks(n, p)
      ensures forall n :: n in kept + added && Tracks(n, p) ==> Carries(n, p)
    {
      EntryOnce(o, c, ps, m, url, kept, additions, added, p);
    }
    forall n | n in kept + added
      ensures !IsBundledExample(n)
      ensures n.source == SUBSCRIPTION && (forall p :: p in ps ==> p.key != n.key) ==> Stale(n)
    {
      if n in kept {
        KeptFrom(c.proxies, ps, m, UrlChanged(o, c, url), |c.proxies|);
        var t :| 0 <= t < |c.proxies| && Retained(c.proxies[t], Partner(ps, m, t), UrlChanged(o, c, url)) == Some(n);
        assert c.proxies[t] in c.proxies;
        BecameOther(o, c.proxies, ps, m, UrlChanged(o, c, url), t, n);
      } else {
        AddedNode(o, ps, additions, added, n);
      }
    }
  }

  lemma AddedNode(o: Oracle, ps: seq<Proxy>, additions: seq<Proxy>, added: seq<Proxy>, n: Proxy)
    requires IsPrepared(o, ps) && (forall q :: q in additions ==> q in ps) && n in added && |added| == |additions|
    requires forall i :: 0 <= i < |added| ==> added[i] == additions[i].(name := added[i].name, localPort := added[i].localPort, enabled := true)
    ensures exists q :: q in ps && q.key == n.key && Tracks(n, q) && Carries(n, q)
    ensures !IsBundledExample(n)
  {
    hide ProxyKey;
    var i :| 0 <= i < |added| && added[i] == n;
    assert additions[i] in additions;
    assert Tracks(n, additions[i]) && Carries(n, additions[i]);
  }

  /** Each entry has exactly one node in the result. */
  lemma EntryOnce(o: Oracle, c: Config, ps: seq<Proxy>, m: Pairing, url: string, kept: seq<Proxy>, additions: seq<Proxy>, added: seq<Proxy>, p: Proxy)
    requires IsPrepared(o, ps) && PairingOf(o, c, ps, url) == Some(m) && p in ps
    requires kept == Kept(c.proxies, ps, m, UrlChanged(o, c, url), |c.proxies|)
    requires additions == SortByKey(Unpaired(ps, m)) && |added| == |additions|
    requires forall i :: 0 <= i < |added| ==> added[i] == additions[i].(name := added[i].name, localPort := added[i].localPort, enabled := true)
    ensures AtMostOnce(kept + added, p)
    ensures exists n :: n in kept + added && Tracks(n, p)
    ensures forall n :: n in kept + added && Tracks(n, p) ==> Carries(n, p)
  {
    hide IsPrepared, PairingOf, Kept, Unpaired, SortByKey, Tracks, Adopted, KeysPaired, UrlChanged;
    PairingKeys(o, c, ps, url);
    KeptTracksOnce(o, c.proxies, ps, m, UrlChanged(o, c, url), |c.proxies|, p);
    AdditionsDistinct(o, ps, m);
    AddedTracksOnce(additions, added, p);
    forall n | n in added && Tracks(n, p) ensures Carries(n, p) && p.key !in m {
      AddedNode(o, ps, additions, added, n);
      var q :| q in ps && q.key == n.key && Tracks(n, q) && Carries(n, q);
      AddedEntry(o, ps, additions, added, n, p);
      PreparedKeysIdentify(o, ps, p, q);
    }
    AtMostOnceJoin(kept, added, p);
    EntryPresent(o, c, ps, m, url, kept, additions, added, p);
  }

  lemma AddedEntry(o: Oracle, ps: seq<Proxy>, additions: seq<Proxy>, added: seq<Proxy>, n: Proxy, p: Proxy)
    requires IsPrepared(o, ps) && (forall q :: q in additions ==> q in ps) && n in added && |added| == |additions| && p in ps && Tracks(n, p)
    requires forall i :: 0 <= i < |added| ==> added[i] == additions[i].(name := added[i].name, localPort := added[i].localPort, enabled := true)
    ensures p in additions && p.key == n.key
  {
    hide ProxyKey;
    var i :| 0 <= i < |added| && added[i] == n;
    assert additions[i] in additions;
    PreparedKeysIdentify(o, ps, p, additions[i]);
  }

  lemma EntryPresent(o: Oracle, c: Config, ps: seq<Proxy>, m: Pairing, url: string, kept: seq<Proxy>, additions: seq<Proxy>, added: seq<Proxy>, p: Proxy)
    requires IsPrepared(o, ps) && PairingOf(o, c, ps, url) == Some(m) && p in ps
    requires kept == Kept(c.proxies, ps, m, UrlChanged(o, c, url), |c.proxies|)
    requires additions == SortByKey(Unpaired(ps, m)) && |added| == |additions|
    requires forall i :: 0 <= i < |added| ==> added[i] == additions[i].(name := added[i].name, localPort := added[i].localPort, enabled := true)
    ensures exists n :: n in kept + added && Tracks(n, p)
  {
    hide Kept, Unpaired, SortByKey, PairingOf, ProxyKey, IsBundledExample, UrlChanged, Injective;
    if p.key in m {
      PairedStays(o, c, ps, m, url, p);
      MergeOrder.PairingInjective(o, c, ps, url);
      assert IsPartner(ps, m, m[p.key], p);
      PartnerUnique(o, ps, m, m[p.key], p);
      KeptHas(c.proxies, ps, m, UrlChanged(o, c, url), |c.proxies|, m[p.key]);
      assert Tracks(Adopted(c.proxies[m[p.key]], p), p);
    } else {
      assert p in additions;
      var i :| 0 <= i < |additions| && additions[i] == p;
      assert added[i] in added && Tracks(added[i], p);
    }
  }

  lemma AdditionsDistinct(o: Oracle, ps: seq<Proxy>, m: Pairing)
    requires IsPrepared(o, ps)
    ensures KeysDistinct(SortByKey(Unpaired(ps, m)))
  {
    hide Prepared, StringLess;
    UnpairedDistinct(ps, m);
    SortSorts(Unpaired(ps, m));
    var r := SortByKey(Unpaired(ps, m));
    forall i, j | 0 <= i < j < |r| ensures r[i].key != r[j].key {
      StringLessIrreflexive(r[i].key);
    }
  }

  // ---- the theorem ----

  /** Convergence: merging the same feed and URL again succeeds.  The second merge changes nothing
      when the first one missed no node, and in all cases the third one is a fixed point. */
  lemma Convergence(o: Oracle, c: Config, feed: seq<Proxy>, url: string)
    requires Merge(o, c, feed, url).Merged?
    requires forall n :: n in c.proxies ==> n.missing >= 0
    ensures var first := Merge(o, c, feed, url);
            var second := Merge(o, first.next, feed, url);
      && second.Merged?
      && (first.result.missing == 0 ==> second.next == first.next && !second.result.changed)
      && Merge(o, second.next, feed, url).Merged?
      && Merge(o, second.next, feed, url).next == second.next
      && !Merge(o, second.next, feed, url).result.changed
  {
    hide Prepare, Merge, Settled, IsValid, NamesDistinct, Fresh, Updated;
    MergePrepared(o, c, feed, url);
    var ps := Prepare(o, feed).value;
    var first := Merge(o, c, feed, url);
    MergeSettles(o, c, feed, url, ps);
    SettledMerge(o, first.next, feed, url, ps);
    var second := Merge(o, first.next, feed, url);
    assert second.next == Updated(o, second.next, second.next.proxies, url) by { UpdatedAgain(o, first.next, second.next, url); }
    SettledMerge(o, second.next, feed, url, ps);
    FreshTwice(first.next.proxies);
    if first.result.missing == 0 {
      MissingCounts(o, c, feed, url, ps);
      FreshIdentity(first.next.proxies);
    }
  }

  lemma MergePrepared(o: Oracle, c: Config, feed: seq<Proxy>, url: string)
    requires Merge(o, c, feed, url).Merged?
    ensures Prepare(o, feed).Some? && url != "" && feed != []
  {
    hide Prepare, PairingOf, Assemble;
  }

  lemma UpdatedAgain(o: Oracle, a: Config, b: Config, url: string)
    requires a == Updated(o, a, a.proxies, url) && b == a.(proxies := b.proxies)
    ensures b == Updated(o, b, b.proxies, url)
  {
  }

  lemma FreshTwice(nodes: seq<Proxy>)
    ensures Fresh(Fresh(nodes)) == Fresh(nodes)
  {
    hide Stale;
    FreshIdentity(Fresh(nodes));
  }

  /** A merge that reports no missing node leaves no stale one. */
  lemma MissingCounts(o: Oracle, c: Config, feed: seq<Proxy>, url: string, ps: seq<Proxy>)
    requires Merge(o, c, feed, url).Merged? && Merge(o, c, feed, url).result.missing == 0
    requires Prepare(o, feed) == Some(ps) && IsPrepared(o, ps) && forall n :: n in c.proxies ==> n.missing >= 0
    ensures forall n :: n in Merge(o, c, feed, url).next.proxies ==> !Stale(n)
  {
    hide Prepare, PairingOf, Kept, Counted, Allocate, SortByKey, Unpaired, NamesOf, PortsOf, IsPrepared, IsValid, NamesDistinct, UrlChanged, Stale;
    var m := PairingOf(o, c, ps, url).value;
    var uc := UrlChanged(o, c, url);
    var kept := Kept(c.proxies, ps, m, uc, |c.proxies|);
    var additions := SortByKey(Unpaired(ps, m));
    var added := Allocate(additions, NamesOf(kept), PortsOf(kept, c.unifiedPort)).value;
    AllocateIs(additions, NamesOf(kept), PortsOf(kept, c.unifiedPort));
    PreparedUntouched(o, ps);
    MissingKept(o, c.proxies, ps, m, uc, |c.proxies|);
    forall n | n in added ensures !Stale(n) {
      var i :| 0 <= i < |added| && added[i] == n;
      assert additions[i] in additions;
      StaleMissing(n);
    }
  }

  lemma StaleMissing(n: Proxy)
    requires n.missing == 0
    ensures !Stale(n)
  {
  }

  lemma {:induction false} MissingKept(o: Oracle, nodes: seq<Proxy>, ps: seq<Proxy>, m: Pairing, urlChanged: bool, i: nat)
    requires i <= |nodes| && (forall p :: p in ps ==> p.missing == 0)
    requires Counted(nodes, ps, m, urlChanged, i).missing == 0
    ensures forall n :: n in Kept(nodes, ps, m, urlChanged, i) ==> !Stale(n)
  {
    hide IsBundledExample;
    if i > 0 {
      MissingKept(o, nodes, ps, m, urlChanged, i - 1);
    }
  }
}
