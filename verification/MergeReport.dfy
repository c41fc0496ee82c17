/** What a merge makes of every node and what it reports, in the fields of nodes and entries. */
module MergeReport {
  import opened Text
  import opened ProxyConfig
  import opened SubscriptionMatch
  import opened SubscriptionOrder
  import opened SubscriptionMerge
  import opened MergeOrder
  import opened MergeValidity
  import opened MergePreservation
  import opened MatchFields

  // ---- the fate of a node ----

  /** A node goes if it is the shipped placeholder, or a tracked one that no entry claims and that either
      the URL has left behind or the previous merge has missed already. */
  predicate Goes(n: Proxy, partner: Option<Proxy>, newUrl: bool) {
    IsPlaceholder(n) || (partner.None? && n.source == "subscription" && (newUrl || n.missing >= 1))
  }

  /** What it is afterwards if it stays. */
  predicate BecomesThis(n: Proxy, partner: Option<Proxy>, x: Proxy) {
    if partner.Some? then Carries(x, partner.value) && SameLocal(x, n)
    else if n.source == "subscription" then x == n.(missing := n.missing + 1)
    else x == n
  }

  lemma FateIs(n: Proxy, partner: Option<Proxy>, newUrl: bool)
    ensures Retained(n, partner, newUrl).None? <==> Goes(n, partner, newUrl)
    ensures Retained(n, partner, newUrl).Some? ==> BecomesThis(n, partner, Retained(n, partner, newUrl).value)
  {
    PlaceholderIs(n);
    if partner.Some? { AdoptedIs(n, partner.value); }
    hide IsBundledExample, IsPlaceholder, Carries, SameLocal, Adopted;
  }

  /** A URL other than the one of the last merge. */
  predicate NewUrl(o: Oracle, c: Config, url: string) { c.sourceKey != "" && c.sourceKey != o.hash(url) }

  /** In a merge every node of the configuration goes or stays as it should, in its order, and under a new
      URL no entry claims one; the rest of the configuration is stamped with the URL. */
  lemma NodeFate(o: Oracle, c: Config, feed: seq<Proxy>, url: string, i: nat)
    requires Merge(o, c, feed, url).Merged? && i < |c.proxies|
    ensures var n, next, partner := c.proxies[i], Merge(o, c, feed, url).next, PartnerIn(o, c, feed, url, i);
      && (NewUrl(o, c, url) ==> partner.None?)
      && (!Goes(n, partner, NewUrl(o, c, url)) ==>
            exists j :: 0 <= j < |next.proxies| && Moves(o, c, feed, url, i, j) && BecomesThis(n, partner, next.proxies[j]))
      && (Goes(n, partner, NewUrl(o, c, url)) ==> Becomes(o, c, feed, url, i).None?)
  {
    hide Merge, BecomesThis, Goes, Position, PairingOf, Retained;
    var partner := PartnerIn(o, c, feed, url, i);
    FateIs(c.proxies[i], partner, UrlChanged(o, c, url));
    PairingExists(o, c, feed, url);
    if UrlChanged(o, c, url) { NobodyPaired(o, c, feed, url, i); }
    if Becomes(o, c, feed, url, i).Some? {
      var j := Position(c.proxies, EntriesOf(o, feed), PairingOf(o, c, EntriesOf(o, feed), url).value, UrlChanged(o, c, url), i);
      assert Moves(o, c, feed, url, i, j);
      MovesTo(o, c, feed, url, i, j);
    }
  }

  lemma PairingExists(o: Oracle, c: Config, feed: seq<Proxy>, url: string)
    requires Merge(o, c, feed, url).Merged?
    ensures Prepare(o, feed).Some? && PairingOf(o, c, EntriesOf(o, feed), url).Some?
  {
    hide Prepare, PairingOf, Assemble;
  }

  lemma NobodyPaired(o: Oracle, c: Config, feed: seq<Proxy>, url: string, i: nat)
    requires UrlChanged(o, c, url)
    ensures PartnerIn(o, c, feed, url, i).None?
  {
    hide Prepare;
  }

  lemma MergeStamps(o: Oracle, c: Config, feed: seq<Proxy>, url: string)
    requires Merge(o, c, feed, url).Merged?
    ensures var r := Merge(o, c, feed, url);
      && r.next == c.(proxies := r.next.proxies, subscriptionUrl := url, migrated := true, sourceKey := o.hash(url))
      && (r.result.changed <==> r.next != c)
  {
    hide Prepare, PairingOf, Kept, Counted, Allocate, IsValid, NamesDistinct, SortByKey, Unpaired, NamesOf, PortsOf;
  }

  // ---- the report ----

  /** The nodes for which a property of their index holds, counted up to n. */
  ghost function Tallied(f: nat -> bool, n: nat): nat {
    if n == 0 then 0 else Tallied(f, n - 1) + (if f(n - 1) then 1 else 0)
  }

  predicate Differs(n: Proxy, partner: Option<Proxy>) {
    partner.Some? && !IsPlaceholder(n) && !(Carries(n, partner.value))
  }

  predicate Missed(n: Proxy, partner: Option<Proxy>, newUrl: bool) {
    !IsPlaceholder(n) && partner.None? && n.source == "subscription" && !newUrl && n.missing < 1
  }

  /** The core sees more of a node than its source, key and count of misses. */
  predicate SeenDifferently(n: Proxy, partner: Option<Proxy>) {
    Differs(n, partner) &&
    var p := partner.value;
    !(n.kind == p.kind && n.server == p.server && n.port == p.port && n.cipher == p.cipher && n.password == p.password && n.uuid == p.uuid
      && n.alterId == p.alterId && n.security == p.security && n.flow == p.flow && n.serverName == p.serverName
      && n.fingerprint == p.fingerprint && n.realityPublicKey == p.realityPublicKey && n.realityShortId == p.realityShortId
      && n.extra == p.extra)
  }

  /** What makes a merge report that the core is affected, as far as one node goes. */
  predicate Affects(n: Proxy, partner: Option<Proxy>, newUrl: bool) {
    IsPlaceholder(n) || SeenDifferently(n, partner) || (partner.None? && n.source == "subscription" && !newUrl && n.missing >= 1)
  }

  lemma CountIs(t: Tally, n: Proxy, partner: Option<Proxy>, newUrl: bool)
    ensures var u := Count(t, n, partner, newUrl);
      && u.updated == t.updated + (if Differs(n, partner) then 1 else 0)
      && u.missing == t.missing + (if Missed(n, partner, newUrl) then 1 else 0)
      && u.removed == t.removed + (if Goes(n, partner, newUrl) then 1 else 0)
      && (u.runtime <==> t.runtime || Affects(n, partner, newUrl))
  {
    PlaceholderIs(n);
    hide IsBundledExample, IsPlaceholder;
  }

  /** The four numbers and the flag of the report, over the nodes before index i. */
  lemma {:induction false} CountedIs(nodes: seq<Proxy>, ps: seq<Proxy>, m: Pairing, newUrl: bool, i: nat)
    requires i <= |nodes|
    ensures var t := Counted(nodes, ps, m, newUrl, i);
      && t.updated == Tallied((j: nat) => j < |nodes| && Differs(nodes[j], Partner(ps, m, j)), i)
      && t.missing == Tallied((j: nat) => j < |nodes| && Missed(nodes[j], Partner(ps, m, j), newUrl), i)
      && t.removed == Tallied((j: nat) => j < |nodes| && Goes(nodes[j], Partner(ps, m, j), newUrl), i)
      && (t.runtime <==> exists j :: 0 <= j < i && Affects(nodes[j], Partner(ps, m, j), newUrl))
      && |Kept(nodes, ps, m, newUrl, i)| + t.removed == i
  {
    hide Differs, Missed, Goes, Affects, Partner, Retained, Count;
    if i > 0 {
      CountedIs(nodes, ps, m, newUrl, i - 1);
      CountIs(Counted(nodes, ps, m, newUrl, i - 1), nodes[i - 1], Partner(ps, m, i - 1), newUrl);
      FateIs(nodes[i - 1], Partner(ps, m, i - 1), newUrl);
    }
  }

  /** So much is reported: every entry without a node is added, every node that goes is removed, and the
      lists add up; the core is affected exactly by additions and by the nodes that say so. */
  lemma ReportIs(o: Oracle, c: Config, feed: seq<Proxy>, url: string)
    requires Merge(o, c, feed, url).Merged?
    ensures var r, ps := Merge(o, c, feed, url), EntriesOf(o, feed);
      && PairingOf(o, c, ps, url).Some?
      && r.result.added == |Unpaired(ps, PairingOf(o, c, ps, url).value)|
      && |r.next.proxies| + r.result.removed == |c.proxies| + r.result.added
      && r.result.removed == Tallied((i: nat) => i < |c.proxies| && Goes(c.proxies[i], PartnerIn(o, c, feed, url, i), NewUrl(o, c, url)), |c.proxies|)
      && r.result.missing == Tallied((i: nat) => i < |c.proxies| && Missed(c.proxies[i], PartnerIn(o, c, feed, url, i), NewUrl(o, c, url)), |c.proxies|)
      && r.result.updated == Tallied((i: nat) => i < |c.proxies| && Differs(c.proxies[i], PartnerIn(o, c, feed, url, i)), |c.proxies|)
      && (r.result.runtimeChanged <==>
            r.result.added > 0 || exists i: nat :: i < |c.proxies| && Affects(c.proxies[i], PartnerIn(o, c, feed, url, i), NewUrl(o, c, url)))
  {
    hide Goes, Missed, Differs, Affects, PairingOf, Unpaired, SortByKey, Counted, Kept, Tallied;
    PairingExists(o, c, feed, url);
    var ps := EntriesOf(o, feed);
    var m := PairingOf(o, c, ps, url).value;
    CountedIs(c.proxies, ps, m, NewUrl(o, c, url), |c.proxies|);
    ReportParts(o, c, feed, url);
    hide Merge;
    var nodes, n := c.proxies, |c.proxies|;
    TalliedSame((j: nat) => j < |nodes| && Differs(nodes[j], Partner(ps, m, j)), (i: nat) => i < |c.proxies| && Differs(c.proxies[i], PartnerIn(o, c, feed, url, i)), n);
    TalliedSame((j: nat) => j < |nodes| && Missed(nodes[j], Partner(ps, m, j), NewUrl(o, c, url)), (i: nat) => i < |c.proxies| && Missed(c.proxies[i], PartnerIn(o, c, feed, url, i), NewUrl(o, c, url)), n);
    TalliedSame((j: nat) => j < |nodes| && Goes(nodes[j], Partner(ps, m, j), NewUrl(o, c, url)), (i: nat) => i < |c.proxies| && Goes(c.proxies[i], PartnerIn(o, c, feed, url, i), NewUrl(o, c, url)), n);
  }

  lemma {:induction false} TalliedSame(f: nat -> bool, g: nat -> bool, n: nat)
    requires forall i: nat :: f(i) == g(i)
    ensures Tallied(f, n) == Tallied(g, n)
  {
    if n > 0 { TalliedSame(f, g, n - 1); }
  }

  lemma ReportParts(o: Oracle, c: Config, feed: seq<Proxy>, url: string)
    requires Merge(o, c, feed, url).Merged? && Prepare(o, feed).Some? && PairingOf(o, c, EntriesOf(o, feed), url).Some?
    ensures var r, ps := Merge(o, c, feed, url), EntriesOf(o, feed);
            var m := PairingOf(o, c, ps, url).value;
            var t := Counted(c.proxies, ps, m, NewUrl(o, c, url), |c.proxies|);
      && r.result.added == |Unpaired(ps, m)| && r.result.updated == t.updated && r.result.missing == t.missing && r.result.removed == t.removed
      && (r.result.runtimeChanged <==> t.runtime || r.result.added > 0)
      && |r.next.proxies| == |Kept(c.proxies, ps, m, NewUrl(o, c, url), |c.proxies|)| + r.result.added
  {
    hide Prepare, PairingOf, Kept, Counted, Allocate, IsValid, NamesDistinct, SortByKey, Unpaired, NamesOf, PortsOf;
    var ps := EntriesOf(o, feed);
    var m := PairingOf(o, c, ps, url).value;
    var kept := Kept(c.proxies, ps, m, UrlChanged(o, c, url), |c.proxies|);
    AllocateIs(SortByKey(Unpaired(ps, m)), NamesOf(kept), PortsOf(kept, c.unifiedPort));
    SortedLength(Unpaired(ps, m));
  }

  lemma {:induction false} InsertedLength(p: Proxy, ps: seq<Proxy>)
    ensures |InsertByKey(p, ps)| == |ps| + 1
  {
    if ps != [] { InsertedLength(p, ps[1..]); }
  }

  lemma {:induction false} SortedLength(ps: seq<Proxy>)
    ensures |SortByKey(ps)| == |ps|
  {
    hide InsertByKey;
    if ps != [] {
      SortedLength(ps[..|ps| - 1]);
      InsertedLength(ps[|ps| - 1], SortByKey(ps[..|ps| - 1]));
    }
  }

  // ---- the new nodes ----

  /** Node x has the first free one of its entry's names: the entry's own or, if that is blank, its server,
      and then with a number from 2 on. */
  ghost predicate TakesName(x: Proxy, p: Proxy, names: set<string>) {
    FirstFree(x.name, if Trim(p.name) == "" then p.server else Trim(p.name), names)
  }

  ghost predicate FirstFree(name: string, base: string, names: set<string>) {
    exists r: nat :: IsNumbered(name, base, r) && Normalized(name) !in names && forall t: nat :: t < r ==> TakenNumber(base, t, names)
  }

  predicate IsNumbered(name: string, base: string, r: nat) {
    name == if r == 0 then base else base + " (" + Decimal(r + 1) + ")"
  }

  predicate TakenNumber(base: string, t: nat, names: set<string>) {
    Normalized(if t == 0 then base else base + " (" + Decimal(t + 1) + ")") in names
  }

  /** ... and the lowest free port from 10801 on. */
  ghost predicate TakesPort(x: Proxy, ports: set<int>) {
    10801 <= x.localPort <= 65535 && x.localPort !in ports && forall q :: 10801 <= q < x.localPort ==> q in ports
  }

  ghost function NamesBefore(nodes: seq<Proxy>, i: nat): set<string>
    requires i <= |nodes|
  {
    set q | 0 <= q < i :: Normalized(nodes[q].name)
  }

  ghost function PortsBefore(nodes: seq<Proxy>, i: nat): set<int>
    requires i <= |nodes|
  {
    set q | 0 <= q < i && nodes[q].localPort > 0 :: nodes[q].localPort
  }

  lemma NothingBefore(nodes: seq<Proxy>)
    ensures NamesBefore(nodes, 0) == {} && PortsBefore(nodes, 0) == {}
  {
  }

  lemma {:induction false} AllocatedAt(additions: seq<Proxy>, names: set<string>, ports: set<int>, i: nat)
    requires Allocate(additions, names, ports).Some? && i < |additions|
    ensures var a := Allocate(additions, names, ports).value;
      && |a| == |additions|
      && TakesName(a[i], additions[i], names + NamesBefore(a, i))
      && TakesPort(a[i], ports + PortsBefore(a, i))
  {
    hide Normalized, Numbered, FreshIndex, FreePort, BaseName, TakesName, TakesPort, NamesBefore, PortsBefore;
    AllocateIs(additions, names, ports);
    AllocatedPort(additions, names, ports);
    hide Allocated;
    var p := additions[0];
    var name := Numbered(BaseName(p), FreshIndex(names, BaseName(p), 0));
    var port := FreePort(ports, FIRST_PORT);
    var a := Allocate(additions, names, ports).value;
    if i == 0 {
      FirstName(p, names, a[0]);
      NothingBefore(a);
      assert names + {} == names && ports + {} == ports;
    } else {
      AllocatedAt(additions[1..], names + {Normalized(name)}, ports + {port}, i - 1);
      EarlierSets(a, Allocate(additions[1..], names + {Normalized(name)}, ports + {port}).value, names, ports, i);
    }
  }

  lemma AllocatedPort(additions: seq<Proxy>, names: set<string>, ports: set<int>)
    requires Allocate(additions, names, ports).Some? && additions != []
    ensures var a := Allocate(additions, names, ports).value; a != [] && a[0].localPort > 0 && TakesPort(a[0], ports)
  {
    hide Normalized, Numbered, FreshIndex, FreePort, BaseName;
  }

  lemma FirstName(p: Proxy, names: set<string>, x: Proxy)
    requires x.name == Numbered(BaseName(p), FreshIndex(names, BaseName(p), 0))
    ensures TakesName(x, p, names)
  {
    hide Normalized, FreshIndex, Trim, Numbered, FirstFree;
    FirstNumber(x.name, BaseName(p), names, FreshIndex(names, BaseName(p), 0));
  }

  lemma FirstNumber(name: string, base: string, names: set<string>, r: nat)
    requires name == Numbered(base, r) && Normalized(name) !in names
    requires forall t: nat :: t < r ==> Normalized(Numbered(base, t)) in names
    ensures FirstFree(name, base, names)
  {
    hide Normalized, Decimal;
    assert IsNumbered(name, base, r);
    forall t: nat | t < r ensures TakenNumber(base, t, names) {
      assert Normalized(Numbered(base, t)) in names;
    }
  }

  lemma EarlierSets(a: seq<Proxy>, rest: seq<Proxy>, names: set<string>, ports: set<int>, i: nat)
    requires a != [] && a[1..] == rest && 0 < i <= |a| && a[0].localPort > 0
    ensures names + NamesBefore(a, i) == names + {Normalized(a[0].name)} + NamesBefore(rest, i - 1)
    ensures ports + PortsBefore(a, i) == ports + {a[0].localPort} + PortsBefore(rest, i - 1)
  {
    SplitBefore([a[0]], rest, i - 1);
    assert a == [a[0]] + rest;
    OneBefore(a[0]);
    hide NamesBefore, PortsBefore, Normalized;
  }

  lemma OneBefore(n: Proxy)
    requires n.localPort > 0
    ensures NamesBefore([n], 1) == {Normalized(n.name)} && PortsBefore([n], 1) == {n.localPort}
  {
    hide Normalized;
    assert [n][0] == n;
  }

  /** Names and ports of a list followed by the start of another. */
  lemma SplitBefore(a: seq<Proxy>, b: seq<Proxy>, i: nat)
    requires i <= |b|
    ensures NamesBefore(a + b, |a| + i) == NamesBefore(a, |a|) + NamesBefore(b, i)
    ensures PortsBefore(a + b, |a| + i) == PortsBefore(a, |a|) + PortsBefore(b, i)
  {
    hide Normalized;
    var all := a + b;
    assert forall q :: 0 <= q < |a| ==> all[q] == a[q];
    assert forall q :: 0 <= q < i ==> all[|a| + q] == b[q];
    forall q | 0 <= q < |a| + i
      ensures Normalized(all[q].name) in NamesBefore(a, |a|) + NamesBefore(b, i)
      ensures all[q].localPort > 0 ==> all[q].localPort in PortsBefore(a, |a|) + PortsBefore(b, i)
    {
      if q >= |a| { assert all[q] == b[q - |a|]; }
    }
    forall q | 0 <= q < i
      ensures Normalized(b[q].name) in NamesBefore(all, |a| + i)
      ensures b[q].localPort > 0 ==> b[q].localPort in PortsBefore(all, |a| + i)
    {
      assert all[|a| + q] == b[q];
    }
  }

  /** An entry that the matching has left without a node. */
  ghost predicate HasNoNode(o: Oracle, c: Config, feed: seq<Proxy>, url: string, p: Proxy) {
    var pairing := PairingOf(o, c, EntriesOf(o, feed), url);
    p in EntriesOf(o, feed) && pairing.Some? && p.key !in pairing.value
  }

  /** Node j is made from entry p, given the nodes before it. */
  ghost predicate IsNew(next: Config, j: nat, p: Proxy) {
    && j < |next.proxies| && Carries(next.proxies[j], p) && next.proxies[j].enabled
    && TakesName(next.proxies[j], p, NamesBefore(next.proxies, j))
    && TakesPort(next.proxies[j], PortsBefore(next.proxies, j) + (if next.unifiedPort > 0 then {next.unifiedPort} else {}))
  }

  /** In a merge every entry without a node gets one, in the order of their keys, behind the nodes that stay:
      with the entry's data, enabled, under its first free name and on the lowest free port, as nodes and
      unified port stand at that moment. */
  lemma NewNodeIs(o: Oracle, c: Config, feed: seq<Proxy>, url: string, i: nat) returns (p: Proxy)
    requires Merge(o, c, feed, url).Merged? && i < Merge(o, c, feed, url).result.added
    ensures HasNoNode(o, c, feed, url, p)
    ensures var r := Merge(o, c, feed, url); r.result.added <= |r.next.proxies| && IsNew(r.next, |r.next.proxies| - r.result.added + i, p)
    ensures var r := Merge(o, c, feed, url);
            i > 0 ==> StringLess(r.next.proxies[|r.next.proxies| - r.result.added + i - 1].key, r.next.proxies[|r.next.proxies| - r.result.added + i].key)
  {
    hide Merge, PairingOf, Unpaired, SortByKey, TakesName, TakesPort, Kept, Prepare, Carries, NamesBefore, PortsBefore, StringLess, UrlChanged, Allocate, Counted, NamesOf, PortsOf;
    PairingExists(o, c, feed, url);
    ReportParts(o, c, feed, url);
    var ps := EntriesOf(o, feed);
    var m := PairingOf(o, c, ps, url).value;
    var additions := SortByKey(Unpaired(ps, m));
    SortedLength(Unpaired(ps, m));
    AdditionsSorted(o, feed, m);
    var added := AddedOf(o, c, feed, url);
    p := additions[i];
    assert p in additions;
    AddedIs(Kept(c.proxies, ps, m, UrlChanged(o, c, url), |c.proxies|), additions, added, c.unifiedPort, i);
    assert Merge(o, c, feed, url).next.unifiedPort == c.unifiedPort by { MergeStamps(o, c, feed, url); }
  }

  lemma AddedIs(kept: seq<Proxy>, additions: seq<Proxy>, added: seq<Proxy>, unifiedPort: int, i: nat)
    requires Allocate(additions, NamesOf(kept), PortsOf(kept, unifiedPort)) == Some(added) && i < |additions| && SortedByKey(additions)
    ensures |added| == |additions| && Carries(added[i], additions[i]) && added[i].enabled
    ensures TakesName(added[i], additions[i], NamesBefore(kept + added, |kept| + i))
    ensures TakesPort(added[i], PortsBefore(kept + added, |kept| + i) + (if unifiedPort > 0 then {unifiedPort} else {}))
    ensures i > 0 ==> StringLess(added[i - 1].key, added[i].key)
  {
    hide Normalized, TakesName, TakesPort, Allocate, StringLess, NamesBefore, PortsBefore;
    AllocateIs(additions, NamesOf(kept), PortsOf(kept, unifiedPort));
    AllocatedAt(additions, NamesOf(kept), PortsOf(kept, unifiedPort), i);
    SplitBefore(kept, added, i);
    AllBefore(kept, unifiedPort);
    hide NamesOf, PortsOf;
    assert PortsBefore(kept, |kept|) + (if unifiedPort > 0 then {unifiedPort} else {}) + PortsBefore(added, i)
        == PortsBefore(kept, |kept|) + PortsBefore(added, i) + (if unifiedPort > 0 then {unifiedPort} else {});
  }

  lemma AllBefore(kept: seq<Proxy>, unifiedPort: int)
    ensures NamesOf(kept) == NamesBefore(kept, |kept|)
    ensures PortsOf(kept, unifiedPort) == PortsBefore(kept, |kept|) + (if unifiedPort > 0 then {unifiedPort} else {})
  {
    hide Normalized;
    forall p | p in kept
      ensures Normalized(p.name) in NamesBefore(kept, |kept|)
      ensures p.localPort > 0 ==> p.localPort in PortsBefore(kept, |kept|)
    {
      var q :| 0 <= q < |kept| && kept[q] == p;
    }
    forall q | 0 <= q < |kept| ensures kept[q] in kept {
    }
  }

  lemma AdditionsSorted(o: Oracle, feed: seq<Proxy>, m: Pairing)
    requires Prepare(o, feed).Some?
    ensures SortedByKey(SortByKey(Unpaired(EntriesOf(o, feed), m)))
  {
    hide Prepare, Unpaired, SortByKey, Covers;
    PrepareIs(o, feed);
    UnpairedDistinct(EntriesOf(o, feed), m);
    SortSorts(Unpaired(EntriesOf(o, feed), m));
  }

  lemma AddedOf(o: Oracle, c: Config, feed: seq<Proxy>, url: string) returns (added: seq<Proxy>)
    requires Merge(o, c, feed, url).Merged? && Prepare(o, feed).Some? && PairingOf(o, c, EntriesOf(o, feed), url).Some?
    ensures var ps := EntriesOf(o, feed);
            var m := PairingOf(o, c, ps, url).value;
            var kept := Kept(c.proxies, ps, m, UrlChanged(o, c, url), |c.proxies|);
      && Allocate(SortByKey(Unpaired(ps, m)), NamesOf(kept), PortsOf(kept, c.unifiedPort)) == Some(added)
      && Merge(o, c, feed, url).next.proxies == kept + added
  {
    hide Prepare, PairingOf, Kept, Counted, Allocate, IsValid, NamesDistinct, SortByKey, Unpaired, NamesOf, PortsOf;
    var ps := EntriesOf(o, feed);
    var m := PairingOf(o, c, ps, url).value;
    var kept := Kept(c.proxies, ps, m, UrlChanged(o, c, url), |c.proxies|);
    added := Allocate(SortByKey(Unpaired(ps, m)), NamesOf(kept), PortsOf(kept, c.unifiedPort)).value;
  }
}
