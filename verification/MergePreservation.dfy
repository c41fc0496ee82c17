/** What a merge, and any sequence of merges, leaves alone. */
module MergePreservation {
  import opened Text
  import opened ProxyConfig
  import opened SubscriptionMatch
  import opened SubscriptionOrder
  import opened SubscriptionMerge
  import opened MergeOrder
  import opened MergeValidity

  // ---- the shape of a merged configuration ----

  /** The parts of a successful merge. */
  ghost predicate IsMerge(o: Oracle, c: Config, feed: seq<Proxy>, url: string, ps: seq<Proxy>, m: Pairing, added: seq<Proxy>, next: Config) {
    && url != "" && feed != [] && Prepare(o, feed) == Some(ps) && IsPrepared(o, ps) && Covers(o, ps, feed)
    && PairingOf(o, c, ps, url) == Some(m) && Injective(m)
    && (var kept := Kept(c.proxies, ps, m, UrlChanged(o, c, url), |c.proxies|);
        && Allocated(SortByKey(Unpaired(ps, m)), NamesOf(kept), PortsOf(kept, c.unifiedPort), added)
        && next == Updated(o, c, kept + added, url))
  }

  lemma MergeParts(o: Oracle, c: Config, feed: seq<Proxy>, url: string) returns (ps: seq<Proxy>, m: Pairing, added: seq<Proxy>)
    requires Merge(o, c, feed, url).Merged?
    ensures IsMerge(o, c, feed, url, ps, m, added, Merge(o, c, feed, url).next)
    ensures var t := Counted(c.proxies, ps, m, UrlChanged(o, c, url), |c.proxies|);
            Merge(o, c, feed, url).result.runtimeChanged == (t.runtime || added != [])
  {
    hide Prepare, IsPrepared, Covers, Clashes, PairingOf, Injective, Kept, Counted, SortByKey, Unpaired, NamesOf, PortsOf, Allocated, Allocate, IsValid, NamesDistinct, UrlChanged;
    PrepareIs(o, feed);
    ps := Prepare(o, feed).value;
    m := PairingOf(o, c, ps, url).value;
    PairingInjective(o, c, ps, url);
    var kept := Kept(c.proxies, ps, m, UrlChanged(o, c, url), |c.proxies|);
    added := Allocate(SortByKey(Unpaired(ps, m)), NamesOf(kept), PortsOf(kept, c.unifiedPort)).value;
    AllocateIs(SortByKey(Unpaired(ps, m)), NamesOf(kept), PortsOf(kept, c.unifiedPort));
  }

  /** Where node i ends up, if it stays. */
  ghost function Position(nodes: seq<Proxy>, ps: seq<Proxy>, m: Pairing, urlChanged: bool, i: nat): nat
    requires i <= |nodes|
  {
    |Kept(nodes, ps, m, urlChanged, i)|
  }

  lemma {:induction false} PositionOf(nodes: seq<Proxy>, ps: seq<Proxy>, m: Pairing, urlChanged: bool, i: nat, n: nat)
    requires i < n <= |nodes| && Retained(nodes[i], Partner(ps, m, i), urlChanged).Some?
    ensures Position(nodes, ps, m, urlChanged, i) < |Kept(nodes, ps, m, urlChanged, n)|
    ensures Kept(nodes, ps, m, urlChanged, n)[Position(nodes, ps, m, urlChanged, i)] == Retained(nodes[i], Partner(ps, m, i), urlChanged).value
    decreases n
  {
    hide Retained, Partner;
    if i < n - 1 {
      PositionOf(nodes, ps, m, urlChanged, i, n - 1);
    }
  }

  lemma {:induction false} OriginOf(nodes: seq<Proxy>, ps: seq<Proxy>, m: Pairing, urlChanged: bool, n: nat, j: nat) returns (i: nat)
    requires n <= |nodes| && j < |Kept(nodes, ps, m, urlChanged, n)|
    ensures i < n && Retained(nodes[i], Partner(ps, m, i), urlChanged) == Some(Kept(nodes, ps, m, urlChanged, n)[j])
    ensures Position(nodes, ps, m, urlChanged, i) == j
    decreases n
  {
    hide Retained, Partner;
    if j < |Kept(nodes, ps, m, urlChanged, n - 1)| {
      i := OriginOf(nodes, ps, m, urlChanged, n - 1, j);
    } else {
      i := n - 1;
    }
  }

  // ---- matched nodes ----

  /** A matched node keeps its name, local port and enabled flag; everything else comes from the feed. */
  lemma MatchedKeepsIdentity(o: Oracle, c: Config, feed: seq<Proxy>, url: string, ps: seq<Proxy>, m: Pairing, added: seq<Proxy>, next: Config, p: Proxy)
    requires IsMerge(o, c, feed, url, ps, m, added, next) && p in ps && p.key in m
    ensures m[p.key] < |c.proxies|
    ensures var i := m[p.key];
            var j := Position(c.proxies, ps, m, UrlChanged(o, c, url), i);
            j < |next.proxies| && Carries(next.proxies[j], p) && SameLocal(next.proxies[j], c.proxies[i])
  {
    hide Prepare, IsPrepared, Covers, Injective, Kept, SortByKey, Unpaired, NamesOf, PortsOf, Allocated, UrlChanged, IsBundledExample, Adopted, PairingOf, Carries, SameLocal;
    PairedStays(o, c, ps, m, url, p);
    var i := m[p.key];
    assert IsPartner(ps, m, i, p);
    PartnerUnique(o, ps, m, i, p);
    PositionOf(c.proxies, ps, m, UrlChanged(o, c, url), i, |c.proxies|);
    AdoptedIs(c.proxies[i], p);
  }

  // ---- manual nodes ----

  function Manual(nodes: seq<Proxy>): seq<Proxy> {
    if nodes == [] then []
    else Manual(nodes[..|nodes| - 1]) + (if nodes[|nodes| - 1].source == MANUAL then [nodes[|nodes| - 1]] else [])
  }

  lemma {:induction false} ManualConcat(a: seq<Proxy>, b: seq<Proxy>)
    ensures Manual(a + b) == Manual(a) + Manual(b)
  {
    if b == [] {
      assert a + b == a;
    } else {
      assert (a + b)[..|a + b| - 1] == a + b[..|b| - 1];
      ManualConcat(a, b[..|b| - 1]);
    }
  }

  lemma {:induction false} ManualNone(nodes: seq<Proxy>)
    requires forall n :: n in nodes ==> n.source != MANUAL
    ensures Manual(nodes) == []
  {
    if nodes != [] {
      assert nodes[|nodes| - 1] in nodes;
      ManualNone(nodes[..|nodes| - 1]);
    }
  }

  lemma {:induction false} ManualKept(nodes: seq<Proxy>, ps: seq<Proxy>, m: Pairing, urlChanged: bool, i: nat)
    requires i <= |nodes| && (forall p :: p in ps ==> p.source == SUBSCRIPTION)
    requires forall k :: k in m ==> m[k] < |nodes| && nodes[m[k]].source != MANUAL
    ensures Manual(Kept(nodes, ps, m, urlChanged, i)) == Manual(nodes[..i])
  {
    if i > 0 {
      ManualKept(nodes, ps, m, urlChanged, i - 1);
      var r := Retained(nodes[i - 1], Partner(ps, m, i - 1), urlChanged);
      assert nodes[..i][..i - 1] == nodes[..i - 1];
      ManualConcat(Kept(nodes, ps, m, urlChanged, i - 1), AsSeq(r));
      ManualRetained(nodes, ps, m, urlChanged, i - 1);
    } else {
      assert nodes[..0] == [];
    }
  }

  lemma ManualRetained(nodes: seq<Proxy>, ps: seq<Proxy>, m: Pairing, urlChanged: bool, i: nat)
    requires i < |nodes| && (forall p :: p in ps ==> p.source == SUBSCRIPTION)
    requires forall k :: k in m ==> m[k] < |nodes| && nodes[m[k]].source != MANUAL
    ensures Manual(AsSeq(Retained(nodes[i], Partner(ps, m, i), urlChanged))) == if nodes[i].source == MANUAL then [nodes[i]] else []
  {
    var r := AsSeq(Retained(nodes[i], Partner(ps, m, i), urlChanged));
    if nodes[i].source == MANUAL {
      assert r == [nodes[i]];
      assert Manual([]) == [] && r[..0] == [];
    } else {
      ManualNone(r);
    }
  }

  /** No rule ever pairs a manual node. */
  lemma PairedNotManual(o: Oracle, c: Config, ps: seq<Proxy>, url: string, m: Pairing)
    requires PairingOf(o, c, ps, url) == Some(m)
    ensures forall k :: k in m ==> m[k] < |c.proxies| && c.proxies[m[k]].source != MANUAL
  {
    hide Rule, IsBundledExample, TakesPart, PassFrom, Injective;
    if !UrlChanged(o, c, url) {
      StageKeeps(o, c.proxies, ps, AllowsLegacy(c, url), 5);
    }
  }

  /** Manual nodes keep their exact value and relative order in every merge, also when the URL changes. */
  lemma ManualPreserved(o: Oracle, c: Config, feed: seq<Proxy>, url: string)
    requires Merge(o, c, feed, url).Merged?
    ensures Manual(Merge(o, c, feed, url).next.proxies) == Manual(c.proxies)
  {
    hide Merge, Prepare, Covers, Injective, Kept, SortByKey, Unpaired, NamesOf, PortsOf, UrlChanged, PairingOf, Manual, ProxyKey;
    var ps, m, added := MergeParts(o, c, feed, url);
    PairedNotManual(o, c, ps, url, m);
    var kept := Kept(c.proxies, ps, m, UrlChanged(o, c, url), |c.proxies|);
    ManualKept(c.proxies, ps, m, UrlChanged(o, c, url), |c.proxies|);
    assert c.proxies[..|c.proxies|] == c.proxies;
    ManualConcat(kept, added);
    var additions := SortByKey(Unpaired(ps, m));
    forall n | n in added ensures n.source != MANUAL {
      var i :| 0 <= i < |added| && added[i] == n;
      assert additions[i] in additions;
    }
    ManualNone(added);
  }

  datatype Update = Update(feed: seq<Proxy>, url: string)

  /** A sequence of successful merges. */
  ghost predicate IsUpdateRun(o: Oracle, c: Config, updates: seq<Update>, last: Config)
    decreases |updates|
  {
    if updates == [] then last == c
    else
      var r := Merge(o, c, updates[0].feed, updates[0].url);
      r.Merged? && IsUpdateRun(o, r.next, updates[1..], last)
  }

  lemma {:induction false} ManualPreservedByRuns(o: Oracle, c: Config, updates: seq<Update>, last: Config)
    requires IsUpdateRun(o, c, updates, last)
    ensures Manual(last.proxies) == Manual(c.proxies)
    decreases |updates|
  {
    hide Merge, Manual;
    if updates != [] {
      ManualPreserved(o, c, updates[0].feed, updates[0].url);
      ManualPreservedByRuns(o, Merge(o, c, updates[0].feed, updates[0].url).next, updates[1..], last);
    }
  }

  // ---- tracked nodes ----

  /** New nodes come last and have not been missed. */
  lemma AddedNotMissed(o: Oracle, c: Config, feed: seq<Proxy>, url: string, ps: seq<Proxy>, m: Pairing, added: seq<Proxy>, next: Config, j: nat)
    requires IsMerge(o, c, feed, url, ps, m, added, next) && j < |next.proxies|
    ensures var kept := Kept(c.proxies, ps, m, UrlChanged(o, c, url), |c.proxies|);
            if j < |kept| then next.proxies[j] == kept[j] else next.proxies[j].missing == 0
  {
    hide Prepare, Covers, Injective, Kept, SortByKey, Unpaired, NamesOf, PortsOf, UrlChanged, PairingOf, ProxyKey, NamesDistinct, PortsDistinct, Normalized;
    var kept := Kept(c.proxies, ps, m, UrlChanged(o, c, url), |c.proxies|);
    var additions := SortByKey(Unpaired(ps, m));
    if j >= |kept| {
      assert additions[j - |kept|] in additions;
    }
  }

  /** A tracked node of a merged configuration that has been missed comes from a tracked node that the
      merge left unmatched. */
  lemma MissedOrigin(o: Oracle, c: Config, feed: seq<Proxy>, url: string, ps: seq<Proxy>, m: Pairing, added: seq<Proxy>, next: Config, j: nat) returns (i: nat)
    requires IsMerge(o, c, feed, url, ps, m, added, next)
    requires j < |next.proxies| && next.proxies[j].source == SUBSCRIPTION && next.proxies[j].missing > 0
    ensures i < |c.proxies| && Partner(ps, m, i).None? && !UrlChanged(o, c, url)
    ensures Position(c.proxies, ps, m, UrlChanged(o, c, url), i) == j
    ensures next.proxies[j] == c.proxies[i].(missing := c.proxies[i].missing + 1)
    ensures Retained(c.proxies[i], None, false) == Some(next.proxies[j])
  {
    hide Prepare, Covers, Injective, Kept, SortByKey, Unpaired, NamesOf, PortsOf, UrlChanged, PairingOf, ProxyKey, IsBundledExample, Allocated;
    AddedNotMissed(o, c, feed, url, ps, m, added, next, j);
    i := OriginOf(c.proxies, ps, m, UrlChanged(o, c, url), |c.proxies|, j);
  }

  /** Under one URL a tracked node disappears only after being unmatched in two consecutive merges:
      if the second merge drops node j of the first one's result, both merges left it unmatched. */
  lemma TwoMisses(o: Oracle, c: Config, feed: seq<Proxy>, feed': seq<Proxy>, url: string,
                  ps: seq<Proxy>, m: Pairing, added: seq<Proxy>, first: Config,
                  ps': seq<Proxy>, m': Pairing, added': seq<Proxy>, second: Config, j: nat)
    returns (i: nat)
    requires IsMerge(o, c, feed, url, ps, m, added, first)
    requires IsMerge(o, first, feed', url, ps', m', added', second)
    requires j < |first.proxies| && first.proxies[j].source == SUBSCRIPTION
    requires Retained(first.proxies[j], Partner(ps', m', j), UrlChanged(o, first, url)).None?
    ensures Partner(ps', m', j).None?
    ensures i < |c.proxies| && Position(c.proxies, ps, m, UrlChanged(o, c, url), i) == j
    ensures Partner(ps, m, i).None? && !UrlChanged(o, c, url)
    ensures first.proxies[j] == c.proxies[i].(missing := c.proxies[i].missing + 1)
    ensures Retained(c.proxies[i], None, false) == Some(first.proxies[j])
  {
    hide Prepare, Covers, Injective, Kept, SortByKey, Unpaired, NamesOf, PortsOf, PairingOf, Allocated, IsPrepared;
    assert !UrlChanged(o, first, url);
    assert first.proxies[j].missing > 0;
    i := MissedOrigin(o, c, feed, url, ps, m, added, first, j);
  }

  // ---- whole sequences of merges ----

  ghost function EntriesOf(o: Oracle, feed: seq<Proxy>): seq<Proxy> {
    if Prepare(o, feed).Some? then Prepare(o, feed).value else []
  }

  /** The entry a merge pairs with node i, if any. */
  ghost function PartnerIn(o: Oracle, c: Config, feed: seq<Proxy>, url: string, i: nat): Option<Proxy> {
    var pairing := PairingOf(o, c, EntriesOf(o, feed), url);
    if pairing.Some? then Partner(EntriesOf(o, feed), pairing.value, i) else None
  }

  /** What a merge makes of node i: nothing, or its new value. */
  ghost function Becomes(o: Oracle, c: Config, feed: seq<Proxy>, url: string, i: nat): Option<Proxy>
    requires i < |c.proxies|
  {
    Retained(c.proxies[i], PartnerIn(o, c, feed, url, i), UrlChanged(o, c, url))
  }

  /** Node i stays, and is node j afterwards. */
  ghost predicate Moves(o: Oracle, c: Config, feed: seq<Proxy>, url: string, i: nat, j: nat) {
    && i < |c.proxies| && Becomes(o, c, feed, url, i).Some?
    && (var pairing := PairingOf(o, c, EntriesOf(o, feed), url);
        pairing.Some? && j == Position(c.proxies, EntriesOf(o, feed), pairing.value, UrlChanged(o, c, url), i))
  }

  lemma MovesTo(o: Oracle, c: Config, feed: seq<Proxy>, url: string, i: nat, j: nat)
    requires Merge(o, c, feed, url).Merged? && Moves(o, c, feed, url, i, j)
    ensures var next := Merge(o, c, feed, url).next;
            j < |next.proxies| && Becomes(o, c, feed, url, i) == Some(next.proxies[j])
  {
    hide Merge, Prepare, IsPrepared, Covers, Injective, Kept, SortByKey, Unpaired, NamesOf, PortsOf, Allocated, UrlChanged, Retained, PairingOf;
    var ps, m, added := MergeParts(o, c, feed, url);
    PositionOf(c.proxies, ps, m, UrlChanged(o, c, url), i, |c.proxies|);
  }

  /** A sequence of successful merges under one URL. */
  ghost predicate IsMergeRun(o: Oracle, cs: seq<Config>, feeds: seq<seq<Proxy>>, url: string) {
    && |cs| == |feeds| + 1
    && forall t :: 0 <= t < |feeds| ==> Merge(o, cs[t], feeds[t], url).Merged? && Merge(o, cs[t], feeds[t], url).next == cs[t + 1]
  }

  /** A node that stays through any sequence of merges keeps its name, local port and enabled flag
      throughout; where it is matched the rest comes from its entry. */
  lemma {:induction false} IdentityInRuns(o: Oracle, cs: seq<Config>, feeds: seq<seq<Proxy>>, url: string, js: seq<nat>, t: nat)
    requires IsMergeRun(o, cs, feeds, url) && |js| == |cs| && js[0] < |cs[0].proxies| && t <= |feeds|
    requires forall u :: 0 <= u < |feeds| ==> Moves(o, cs[u], feeds[u], url, js[u], js[u + 1])
    ensures js[t] < |cs[t].proxies|
    ensures var n, x := cs[0].proxies[js[0]], cs[t].proxies[js[t]];
            x.name == n.name && x.localPort == n.localPort && x.enabled == n.enabled
    ensures t > 0 ==> js[t - 1] < |cs[t - 1].proxies|
    ensures t > 0 && PartnerIn(o, cs[t - 1], feeds[t - 1], url, js[t - 1]).Some? ==>
              Carries(cs[t].proxies[js[t]], PartnerIn(o, cs[t - 1], feeds[t - 1], url, js[t - 1]).value)
  {
    hide Merge, PartnerIn, UrlChanged, IsBundledExample, Adopted, Carries;
    if t > 0 {
      IdentityInRuns(o, cs, feeds, url, js, t - 1);
      var u := t - 1;
      assert Moves(o, cs[u], feeds[u], url, js[u], js[u + 1]);
      MovesTo(o, cs[u], feeds[u], url, js[u], js[u + 1]);
      if PartnerIn(o, cs[u], feeds[u], url, js[u]).Some? {
        RetainedCarries(cs[u].proxies[js[u]], PartnerIn(o, cs[u], feeds[u], url, js[u]), UrlChanged(o, cs[u], url));
      }
      RetainedKeepsIdentity(cs[u].proxies[js[u]], PartnerIn(o, cs[u], feeds[u], url, js[u]), UrlChanged(o, cs[u], url));
    }
  }

  lemma RetainedCarries(n: Proxy, partner: Option<Proxy>, urlChanged: bool)
    requires Retained(n, partner, urlChanged).Some? && partner.Some?
    ensures Carries(Retained(n, partner, urlChanged).value, partner.value)
  {
    hide IsBundledExample;
  }

  /** Through any sequence of merges under one URL a tracked node disappears only in the second of two
      consecutive merges that leave it unmatched. */
  lemma TwoMissesInRuns(o: Oracle, cs: seq<Config>, feeds: seq<seq<Proxy>>, url: string, t: nat, j: nat) returns (i: nat)
    requires IsMergeRun(o, cs, feeds, url) && 1 <= t < |feeds| && j < |cs[t].proxies|
    requires cs[t].proxies[j].source == SUBSCRIPTION && Becomes(o, cs[t], feeds[t], url, j).None?
    ensures PartnerIn(o, cs[t], feeds[t], url, j).None?
    ensures Moves(o, cs[t - 1], feeds[t - 1], url, i, j) && PartnerIn(o, cs[t - 1], feeds[t - 1], url, i).None?
    ensures cs[t].proxies[j] == cs[t - 1].proxies[i].(missing := cs[t - 1].proxies[i].missing + 1)
  {
    hide Merge, Prepare, IsPrepared, Covers, Injective, Kept, SortByKey, Unpaired, NamesOf, PortsOf, Allocated, UrlChanged, PairingOf, Partner, ProxyKey, Retained;
    assert Merge(o, cs[t - 1], feeds[t - 1], url).Merged? && Merge(o, cs[t - 1], feeds[t - 1], url).next == cs[t - 1 + 1];
    assert Merge(o, cs[t], feeds[t], url).Merged?;
    var ps, m, added := MergeParts(o, cs[t - 1], feeds[t - 1], url);
    var ps', m', added' := MergeParts(o, cs[t], feeds[t], url);
    i := TwoMisses(o, cs[t - 1], feeds[t - 1], feeds[t], url, ps, m, added, cs[t], ps', m', added', Merge(o, cs[t], feeds[t], url).next, j);
  }
}
