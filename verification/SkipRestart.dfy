/** When a merge reports that nothing the core sees has changed, the core's configuration is the same. */
module SkipRestart {
  import opened Text
  import opened ProxyConfig
  import opened SubscriptionMatch
  import opened SubscriptionMerge
  import opened MergeValidity
  import opened MergePreservation
  import opened SingBox

  ghost predicate RuntimeEqualAll(a: seq<Proxy>, b: seq<Proxy>) {
    |a| == |b| && forall i :: 0 <= i < |a| ==> RuntimeEqual(a[i], b[i])
  }

  // ---- the generator does not look at the bookkeeping of subscriptions ----

  lemma {:induction false} EnabledAlike(a: seq<Proxy>, b: seq<Proxy>)
    requires RuntimeEqualAll(a, b)
    ensures RuntimeEqualAll(Enabled(a), Enabled(b))
  {
    if a != [] { EnabledAlike(a[..|a| - 1], b[..|b| - 1]); }
  }

  lemma NodeAlike(p: Proxy, q: Proxy)
    requires RuntimeEqual(p, q)
    ensures NodeOutbound(p) == NodeOutbound(q) && InTag(p) == InTag(q) && OutTag(p) == OutTag(q) && p.localPort == q.localPort
  {
    hide Sanitized, Itoa;
  }

  lemma {:induction false} PartsAlike(a: seq<Proxy>, b: seq<Proxy>, listen: string)
    requires RuntimeEqualAll(a, b)
    ensures PortInbounds(a, listen) == PortInbounds(b, listen)
    ensures NodeOutbounds(a) == NodeOutbounds(b)
    ensures PortRules(a) == PortRules(b)
  {
    hide OutTag, InTag, NodeOutbound, RuntimeEqual;
    if a != [] {
      var p, q := a[|a| - 1], b[|b| - 1];
      assert RuntimeEqual(p, q);
      NodeAlike(p, q);
      PartsAlike(a[..|a| - 1], b[..|b| - 1], listen);
    }
  }

  lemma TagsAlike(a: seq<Proxy>, b: seq<Proxy>)
    requires RuntimeEqualAll(a, b)
    ensures Tags(a) == Tags(b)
  {
    hide Sanitized;
  }

  predicate SameSettings(a: Config, b: Config) {
    a.(proxies := [], subscriptionUrl := "", migrated := false, sourceKey := "") ==
    b.(proxies := [], subscriptionUrl := "", migrated := false, sourceKey := "")
  }

  lemma GenerateAlike(a: Config, b: Config, dir: string)
    requires SameSettings(a, b) && RuntimeEqualAll(a.proxies, b.proxies)
    ensures Generated(a, dir) == Generated(b, dir)
  {
    hide RuntimeEqualAll, Enabled, Tags, DefaultProxySites, NodeOutbounds, PortInbounds, PortRules;
    EnabledAlike(a.proxies, b.proxies);
    PartsAlike(Enabled(a.proxies), Enabled(b.proxies), a.listen);
    TagsAlike(Enabled(a.proxies), Enabled(b.proxies));
  }

  // ---- a merge that does not report a change ----

  lemma {:induction false} KeptAlike(nodes: seq<Proxy>, ps: seq<Proxy>, m: Pairing, i: nat)
    requires i <= |nodes| && !Counted(nodes, ps, m, false, i).runtime
    ensures RuntimeEqualAll(nodes[..i], Kept(nodes, ps, m, false, i))
  {
    hide IsBundledExample, Partner;
    if i > 0 {
      KeptAlike(nodes, ps, m, i - 1);
      assert nodes[..i] == nodes[..i - 1] + [nodes[i - 1]];
      var r := Retained(nodes[i - 1], Partner(ps, m, i - 1), false);
      assert r.Some? && RuntimeEqual(nodes[i - 1], r.value);
    }
  }

  lemma {:induction false} UnpairedAll(ps: seq<Proxy>, m: Pairing)
    requires m == map[]
    ensures Unpaired(ps, m) == ps
  {
    if ps != [] { UnpairedAll(ps[..|ps| - 1], m); }
  }

  /** A merge under a new URL always adds a node, so it always asks for a restart. */
  lemma NewUrlAdds(o: Oracle, c: Config, feed: seq<Proxy>, url: string, ps: seq<Proxy>, m: Pairing, added: seq<Proxy>, next: Config)
    requires IsMerge(o, c, feed, url, ps, m, added, next) && UrlChanged(o, c, url)
    ensures added != []
  {
    hide Prepare, IsPrepared, Injective, Kept, NamesOf, PortsOf, UrlChanged;
    PreparedNonempty(o, feed, ps);
    UnpairedAll(ps, m);
    assert ps[0] in SortByKey(ps);
  }

  /** If a merge reports no runtime change, the nodes agree one by one in everything the core sees,
      and the generated configuration is unchanged: not restarting is sound. */
  lemma SkipRestartSound(o: Oracle, c: Config, feed: seq<Proxy>, url: string, dir: string)
    requires Merge(o, c, feed, url).Merged? && !Merge(o, c, feed, url).result.runtimeChanged
    ensures !UrlChanged(o, c, url)
    ensures RuntimeEqualAll(c.proxies, Merge(o, c, feed, url).next.proxies)
    ensures Generated(c, dir) == Generated(Merge(o, c, feed, url).next, dir)
  {
    hide Merge, Prepare, IsPrepared, Covers, Injective, Kept, Counted, SortByKey, Unpaired, NamesOf, PortsOf, UrlChanged, PairingOf, Allocated, RuntimeEqualAll, Generated;
    var ps, m, added := MergeParts(o, c, feed, url);
    var next := Merge(o, c, feed, url).next;
    if UrlChanged(o, c, url) {
      NewUrlAdds(o, c, feed, url, ps, m, added, next);
    } else {
      KeptAlike(c.proxies, ps, m, |c.proxies|);
      assert c.proxies[..|c.proxies|] == c.proxies;
      var kept := Kept(c.proxies, ps, m, UrlChanged(o, c, url), |c.proxies|);
      assert kept + added == kept;
      assert next == Updated(o, c, kept, url);
      GenerateAlike(c, next, dir);
    }
  }

  // ---- what the generated configuration refers to ----

  function TagsOf(s: seq<Outbound>): set<string> {
    set x | x in s :: x.tag
  }

  ghost predicate MembersResolve(x: Outbound, tags: set<string>) {
    (x.UrlTest? || x.Selector?) ==> forall t :: t in x.members ==> t in tags
  }

  ghost predicate RuleResolves(r: RouteRule, s: SingBox) {
    && r.outbound in TagsOf(s.outbounds)
    && (forall t :: t in r.inbounds ==> exists x :: x in s.inbounds && x.tag == t)
    && (forall t :: t in r.ruleSets ==> exists x :: x in s.route.ruleSets && x.tag == t)
  }

  /** Every tag the configuration mentions is defined in it. */
  ghost predicate Resolves(s: SingBox) {
    && s.route.final in TagsOf(s.outbounds)
    && (forall x :: x in s.outbounds ==> MembersResolve(x, TagsOf(s.outbounds)))
    && (forall r :: r in s.route.rules ==> RuleResolves(r, s))
  }

  predicate Supported(p: Proxy) {
    p.kind == "shadowsocks" || p.kind == "vmess" || p.kind == "vless"
  }

  lemma {:induction false} NodeTags(ps: seq<Proxy>)
    requires forall p :: p in ps ==> Supported(p)
    ensures |NodeOutbounds(ps)| == |ps|
    ensures forall i :: 0 <= i < |ps| ==> NodeOutbounds(ps)[i].tag == OutTag(ps[i])
    ensures forall x :: x in NodeOutbounds(ps) ==> !x.UrlTest? && !x.Selector?
  {
    hide Sanitized;
    if ps != [] {
      assert ps[|ps| - 1] in ps;
      NodeTags(ps[..|ps| - 1]);
    }
  }

  lemma {:induction false} PortParts(ps: seq<Proxy>, listen: string)
    ensures forall r :: r in PortRules(ps) ==>
      exists p :: p in ps && p.localPort > 0 && r == RouteRule([InTag(p)], "", [], [], OutTag(p))
    ensures forall p :: p in ps && p.localPort > 0 ==> Inbound("mixed", InTag(p), listen, p.localPort) in PortInbounds(ps, listen)
  {
    hide Sanitized, Itoa;
    if ps != [] {
      PortParts(ps[..|ps| - 1], listen);
      assert ps == ps[..|ps| - 1] + [ps[|ps| - 1]];
    }
  }

  predicate Reserved(tag: string) {
    tag == "auto" || tag == "direct" || tag == "proxy"
  }

  lemma OutTagUnreserved(p: Proxy)
    ensures !Reserved(OutTag(p))
  {
    assert OutTag(p)[0] == 'o';
  }

  /** The tags of the configuration: those of the nodes, the two of the unified port, and "direct". */
  lemma TagAt(c: Config, i: nat)
    requires (forall p :: p in c.proxies ==> Supported(p)) && i < |Outbounds(c)|
    ensures var n := |Enabled(c.proxies)|;
      && |Outbounds(c)| == (if c.unifiedPort > 0 then n + 3 else n + 1)
      && Outbounds(c)[i].tag ==
           if i < n then OutTag(Enabled(c.proxies)[i])
           else if i == |Outbounds(c)| - 1 then "direct"
           else if i == n then "auto" else SelectorTag(c)
  {
    hide Sanitized, Enabled, Tags, NodeOutbounds, SelectorTag, OutTag;
    NodeTags(Enabled(c.proxies));
  }

  lemma OutboundsLength(c: Config)
    requires forall p :: p in c.proxies ==> Supported(p)
    ensures |Outbounds(c)| == |Enabled(c.proxies)| + (if c.unifiedPort > 0 then 3 else 1)
  {
    hide Enabled, Tags, NodeOutbounds, SelectorTag, OutTag;
    NodeTags(Enabled(c.proxies));
  }

  lemma OutboundTags(c: Config)
    requires forall p :: p in c.proxies ==> Supported(p)
    ensures forall p :: p in Enabled(c.proxies) ==> OutTag(p) in TagsOf(Outbounds(c))
    ensures "direct" in TagsOf(Outbounds(c))
    ensures c.unifiedPort > 0 ==> SelectorTag(c) in TagsOf(Outbounds(c)) && "auto" in TagsOf(Outbounds(c))
    ensures "proxy" in TagsOf(Outbounds(c)) <==> c.unifiedPort > 0 && SelectorTag(c) == "proxy"
  {
    hide Outbounds, Enabled, OutTag, SelectorTag;
    var ps, all := Enabled(c.proxies), Outbounds(c);
    OutboundsLength(c);
    TagAt(c, |all| - 1);
    assert all[|all| - 1] in all;
    if c.unifiedPort > 0 {
      TagAt(c, |ps|);
      TagAt(c, |ps| + 1);
      assert all[|ps|] in all && all[|ps| + 1] in all;
    }
    forall p | p in ps ensures OutTag(p) in TagsOf(all) {
      var i :| 0 <= i < |ps| && ps[i] == p;
      TagAt(c, i);
      assert all[i] in all;
    }
    if "proxy" in TagsOf(all) {
      var x :| x in all && x.tag == "proxy";
      var i :| 0 <= i < |all| && all[i] == x;
      TagAt(c, i);
      if i < |ps| { OutTagUnreserved(ps[i]); }
    }
  }

  lemma MembersOf(c: Config)
    requires forall p :: p in c.proxies ==> Supported(p)
    ensures forall x :: x in Outbounds(c) ==> MembersResolve(x, TagsOf(Outbounds(c)))
  {
    hide Sanitized, Enabled, NodeOutbounds, TagsOf, SelectorTag;
    var ps := Enabled(c.proxies);
    OutboundTags(c);
    NodeTags(ps);
    forall x | x in Outbounds(c) && (x.UrlTest? || x.Selector?) ensures MembersResolve(x, TagsOf(Outbounds(c))) {
      assert x in UnifiedOutbounds(c, Tags(ps));
      forall t | t in Tags(ps) ensures t in TagsOf(Outbounds(c)) {
        var i :| 0 <= i < |ps| && Tags(ps)[i] == t;
        assert ps[i] in ps;
      }
    }
  }

  /** The rules of one configuration resolve, apart from those that send traffic to "proxy". */
  lemma PortRulesResolve(c: Config, dir: string, r: RouteRule)
    requires (forall p :: p in c.proxies ==> Supported(p)) && r in PortRules(Enabled(c.proxies))
    ensures RuleResolves(r, Generated(c, dir))
  {
    hide Sanitized, Enabled, NodeOutbounds, TagsOf, SelectorTag, Outbounds, Routes, Itoa;
    OutboundTags(c);
    PortParts(Enabled(c.proxies), c.listen);
    var p :| p in Enabled(c.proxies) && p.localPort > 0 && r == RouteRule([InTag(p)], "", [], [], OutTag(p));
    assert Inbound("mixed", InTag(p), c.listen, p.localPort) in Inbounds(c);
  }

  lemma UnifiedRuleResolves(c: Config, dir: string)
    requires (forall p :: p in c.proxies ==> Supported(p)) && c.unifiedPort > 0
    ensures RuleResolves(UnifiedRule(c)[0], Generated(c, dir))
  {
    hide Sanitized, Enabled, NodeOutbounds, TagsOf, SelectorTag, Outbounds, Routes, PortInbounds;
    OutboundTags(c);
    assert Inbounds(c)[|Inbounds(c)| - 1] in Inbounds(c);
  }

  lemma SiteRulesResolve(c: Config, dir: string)
    requires (forall p :: p in c.proxies ==> Supported(p)) && c.routeMode == "rule"
    ensures RuleResolves(SiteRules(c)[1], Generated(c, dir)) && RuleResolves(SiteRules(c)[2], Generated(c, dir))
    ensures "proxy" in TagsOf(Outbounds(c)) <==> RuleResolves(SiteRules(c)[0], Generated(c, dir))
  {
    hide Sanitized, Enabled, NodeOutbounds, TagsOf, SelectorTag, Outbounds, Inbounds, PortRules, ProxySites;
    OutboundTags(c);
    var sets := Routes(c, dir).ruleSets;
    assert sets[0] in sets && sets[1] in sets;
  }

  /** The generated configuration is closed exactly when traffic is never sent to a selector called
      "proxy", or there is one. */
  lemma ResolvesIff(c: Config, dir: string)
    requires forall p :: p in c.proxies ==> Supported(p)
    ensures Resolves(Generated(c, dir)) <==> c.routeMode == "direct" || (c.unifiedPort > 0 && SelectorTag(c) == "proxy")
  {
    hide RuleResolves, MembersResolve, Enabled, PortRules, TagsOf, Outbounds, Inbounds, SelectorTag, ProxySites;
    OutboundTags(c);
    MembersOf(c);
    var s := Generated(c, dir);
    forall r | r in PortRules(Enabled(c.proxies)) ensures RuleResolves(r, s) {
      PortRulesResolve(c, dir, r);
    }
    assert RuleResolves(RouteRule([], "dns", [], [], "direct"), s) by { DnsRuleResolves(c, dir); }
    if c.unifiedPort > 0 { UnifiedRuleResolves(c, dir); }
    if c.routeMode == "rule" { SiteRulesResolve(c, dir); }
  }

  lemma DnsRuleResolves(c: Config, dir: string)
    requires forall p :: p in c.proxies ==> Supported(p)
    ensures RuleResolves(RouteRule([], "dns", [], [], "direct"), Generated(c, dir))
  {
    hide Enabled, TagsOf, Outbounds, Inbounds, Routes;
    OutboundTags(c);
  }

  // ---- tags are identities for the core ----

  ghost predicate TagsDistinct(s: seq<Outbound>) {
    forall i, j :: 0 <= i < j < |s| ==> s[i].tag != s[j].tag
  }

  ghost predicate CleanNamesDistinct(ps: seq<Proxy>) {
    forall i, j :: 0 <= i < j < |ps| ==> Sanitized(ps[i].name) != Sanitized(ps[j].name)
  }

  lemma OutTagInjective(p: Proxy, q: Proxy)
    ensures OutTag(p) == OutTag(q) <==> Sanitized(p.name) == Sanitized(q.name)
  {
    assert OutTag(p)[4..] == Sanitized(p.name) && OutTag(q)[4..] == Sanitized(q.name);
  }

  /** No two outbounds share a tag exactly when the enabled nodes' names stay distinct after cleaning
      and the selector takes neither a reserved tag nor the tag of a node. */
  lemma TagsDistinctIff(c: Config)
    requires forall p :: p in c.proxies ==> Supported(p)
    ensures TagsDistinct(Outbounds(c)) <==>
      && CleanNamesDistinct(Enabled(c.proxies))
      && (c.unifiedPort > 0 ==>
            && SelectorTag(c) != "auto" && SelectorTag(c) != "direct"
            && forall p :: p in Enabled(c.proxies) ==> SelectorTag(c) != OutTag(p))
  {
    hide Sanitized, Enabled, Outbounds, SelectorTag, OutTag, Reserved;
    var ps, all := Enabled(c.proxies), Outbounds(c);
    OutboundsLength(c);
    forall i | 0 <= i < |all| ensures all[i].tag == TagOf(c, i) {
      TagAt(c, i);
    }
    forall i, j | 0 <= i < j < |ps| ensures TagOf(c, i) != TagOf(c, j) <==> Sanitized(ps[i].name) != Sanitized(ps[j].name) {
      OutTagInjective(ps[i], ps[j]);
    }
    forall i | 0 <= i < |ps| ensures ps[i] in ps && !Reserved(TagOf(c, i)) {
      OutTagUnreserved(ps[i]);
    }
    DistinctTags(c);
  }

  function TagOf(c: Config, i: nat): string
    requires i < |Enabled(c.proxies)| + 3
  {
    var n := |Enabled(c.proxies)|;
    if i < n then OutTag(Enabled(c.proxies)[i])
    else if c.unifiedPort <= 0 || i == n + 2 then "direct"
    else if i == n then "auto" else SelectorTag(c)
  }

  lemma DistinctTags(c: Config)
    requires forall i :: 0 <= i < |Enabled(c.proxies)| ==> !Reserved(OutTag(Enabled(c.proxies)[i]))
    ensures var ps := Enabled(c.proxies);
            var n := |ps| + (if c.unifiedPort > 0 then 3 else 1);
            (forall i, j :: 0 <= i < j < n ==> TagOf(c, i) != TagOf(c, j)) <==>
              && (forall i, j :: 0 <= i < j < |ps| ==> TagOf(c, i) != TagOf(c, j))
              && (c.unifiedPort > 0 ==>
                    && SelectorTag(c) != "auto" && SelectorTag(c) != "direct"
                    && forall p :: p in ps ==> SelectorTag(c) != OutTag(p))
  {
    hide Enabled, SelectorTag, OutTag;
    var ps := Enabled(c.proxies);
    var n := |ps| + (if c.unifiedPort > 0 then 3 else 1);
    if (forall i, j :: 0 <= i < j < n ==> TagOf(c, i) != TagOf(c, j)) && c.unifiedPort > 0 {
      assert TagOf(c, |ps|) == "auto" && TagOf(c, |ps| + 1) == SelectorTag(c) && TagOf(c, |ps| + 2) == "direct";
      forall p | p in ps ensures SelectorTag(c) != OutTag(p) {
        var i :| 0 <= i < |ps| && ps[i] == p;
        assert TagOf(c, i) != TagOf(c, |ps| + 1);
      }
    }
  }
}
