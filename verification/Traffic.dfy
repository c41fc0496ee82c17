/** Where the generated configuration sends what arrives at a local port. */
module Traffic {
  import opened Text
  import opened ProxyConfig
  import opened SingBox
  import opened SkipRestart

  /** Outbound x leads to node n, field by field. */
  predicate LeadsTo(x: Outbound, n: Proxy) {
    && x.tag == "out-" + Sanitized(n.name)
    && (n.kind == "shadowsocks" ==>
          x.Shadowsocks? && x.server == n.server && x.serverPort == n.port && x.cipher == n.cipher && x.password == n.password)
    && (n.kind == "vmess" ==>
          x.Vmess? && x.server == n.server && x.serverPort == n.port && x.uuid == n.uuid && x.alterId == n.alterId && x.security == n.security)
    && (n.kind == "vless" ==>
          && x.Vless? && x.server == n.server && x.serverPort == n.port && x.uuid == n.uuid && x.flow == n.flow
          && x.serverName == n.serverName && x.fingerprint == n.fingerprint && x.publicKey == n.realityPublicKey && x.shortId == n.realityShortId)
  }

  /** Rule k is the first for an inbound. */
  ghost predicate FirstRule(rules: seq<RouteRule>, inbound: string, k: nat) {
    k < |rules| && inbound in rules[k].inbounds && forall j :: 0 <= j < k ==> inbound !in rules[j].inbounds
  }

  // ---- the enabled nodes, in order ----

  /** The enabled nodes come in the order of the configuration. */
  lemma {:induction false} EnabledAt(ps: seq<Proxy>, k: nat)
    requires k < |ps| && ps[k].enabled
    ensures |Enabled(ps[..k])| < |Enabled(ps)| && Enabled(ps)[|Enabled(ps[..k])|] == ps[k]
    decreases |ps|
  {
    var front := ps[..|ps| - 1];
    if k < |ps| - 1 {
      EnabledAt(front, k);
      assert front[..k] == ps[..k];
    }
  }

  lemma {:induction false} EnabledPorts(ps: seq<Proxy>)
    requires PortsDistinct(ps)
    ensures PortsDistinct(Enabled(ps))
  {
    if ps != [] {
      var front, last := ps[..|ps| - 1], ps[|ps| - 1];
      assert PortsDistinct(front);
      EnabledPorts(front);
      forall p | p in Enabled(front) && p.localPort > 0 ensures p.localPort != last.localPort {
        var j :| 0 <= j < |front| && front[j] == p;
        assert ps[j] == p;
      }
    }
  }

  // ---- the parts of one node ----

  lemma {:induction false} InboundOf(ps: seq<Proxy>, listen: string, i: nat) returns (a: nat)
    requires i < |ps| && ps[i].localPort > 0
    ensures a < |PortInbounds(ps, listen)| && PortInbounds(ps, listen)[a] == Inbound("mixed", "in-" + Itoa(ps[i].localPort), listen, ps[i].localPort)
    decreases |ps|
  {
    hide Itoa;
    if i == |ps| - 1 {
      a := |PortInbounds(ps[..i], listen)|;
    } else {
      a := InboundOf(ps[..|ps| - 1], listen, i);
    }
  }

  lemma {:induction false} OutboundOf(ps: seq<Proxy>, i: nat) returns (b: nat)
    requires i < |ps| && Supported(ps[i])
    ensures b < |NodeOutbounds(ps)| && LeadsTo(NodeOutbounds(ps)[b], ps[i])
    decreases |ps|
  {
    hide Sanitized;
    if i == |ps| - 1 {
      b := |NodeOutbounds(ps[..i])|;
    } else {
      b := OutboundOf(ps[..|ps| - 1], i);
    }
  }

  /** The port rules name the inbounds of the nodes with a port, and only those. */
  lemma {:induction false} RuleNames(ps: seq<Proxy>, r: RouteRule)
    requires r in PortRules(ps)
    ensures exists p :: p in ps && p.localPort > 0 && r.inbounds == ["in-" + Itoa(p.localPort)]
  {
    hide Itoa, Sanitized;
    var last := ps[|ps| - 1];
    assert last in ps;
    if r in PortRules(ps[..|ps| - 1]) {
      RuleNames(ps[..|ps| - 1], r);
    }
  }

  lemma InTagsDiffer(a: int, b: int)
    requires a != b
    ensures "in-" + Itoa(a) != "in-" + Itoa(b)
  {
    if "in-" + Itoa(a) == "in-" + Itoa(b) {
      assert ("in-" + Itoa(a))[3..] == Itoa(a) && ("in-" + Itoa(b))[3..] == Itoa(b);
      ItoaInjective(a, b);
    }
  }

  lemma {:induction false} RuleOf(ps: seq<Proxy>, i: nat) returns (k: nat)
    requires i < |ps| && ps[i].localPort > 0 && PortsDistinct(ps)
    ensures FirstRule(PortRules(ps), "in-" + Itoa(ps[i].localPort), k)
    ensures PortRules(ps)[k] == RouteRule(["in-" + Itoa(ps[i].localPort)], "", [], [], "out-" + Sanitized(ps[i].name))
    decreases |ps|
  {
    hide Itoa, Sanitized;
    var front := ps[..|ps| - 1];
    var tag := "in-" + Itoa(ps[i].localPort);
    if i == |ps| - 1 {
      k := |PortRules(front)|;
      forall j | 0 <= j < k ensures tag !in PortRules(ps)[j].inbounds {
        NotBefore(ps, j);
      }
    } else {
      k := RuleOf(front, i);
    }
  }

  /** No rule of the nodes before has the last one's inbound. */
  lemma NotBefore(ps: seq<Proxy>, j: nat)
    requires ps != [] && ps[|ps| - 1].localPort > 0 && PortsDistinct(ps) && j < |PortRules(ps[..|ps| - 1])|
    ensures "in-" + Itoa(ps[|ps| - 1].localPort) !in PortRules(ps[..|ps| - 1])[j].inbounds
  {
    hide Itoa, Sanitized, PortRules;
    var front := ps[..|ps| - 1];
    RuleNames(front, PortRules(front)[j]);
    var p :| p in front && p.localPort > 0 && PortRules(front)[j].inbounds == ["in-" + Itoa(p.localPort)];
    var t :| 0 <= t < |front| && front[t] == p;
    assert ps[t] == p;
    InTagsDiffer(ps[|ps| - 1].localPort, p.localPort);
  }

  // ---- the whole configuration ----

  /** What arrives at the node's local port is sent to the node: something listens there, the first rule for
      that inbound names the node's tag, and an outbound of that tag leads to the node. */
  ghost predicate Reaches(s: SingBox, listen: string, n: Proxy) {
    var tag := "in-" + Itoa(n.localPort);
    && Inbound("mixed", tag, listen, n.localPort) in s.inbounds
    && (exists k: nat :: FirstRule(s.route.rules, tag, k) && s.route.rules[k] == RouteRule([tag], "", [], [], "out-" + Sanitized(n.name)))
    && (exists b: nat :: b < |s.outbounds| && LeadsTo(s.outbounds[b], n))
  }

  /** Every enabled node with a local port is reached through it; if tags are distinct its tag leads nowhere else. */
  lemma PortReachesNode(c: Config, dir: string, n: Proxy)
    requires IsValid(c) && n in c.proxies && n.enabled && n.localPort > 0
    ensures Reaches(Generated(c, dir), c.listen, n)
    ensures TagsDistinct(Outbounds(c)) ==>
      forall b :: 0 <= b < |Outbounds(c)| && Outbounds(c)[b].tag == "out-" + Sanitized(n.name) ==> LeadsTo(Outbounds(c)[b], n)
  {
    hide Itoa, Sanitized, LeadsTo, IsValid, Enabled, FirstRule, Reaches, Supported;
    var ps := Enabled(c.proxies);
    var i :| 0 <= i < |ps| && ps[i] == n;
    assert PortsDistinct(ps) && Supported(n) by {
      ValidFacts(c, n);
      EnabledPorts(c.proxies);
    }
    hide PortsDistinct;
    var a := InboundOf(ps, c.listen, i);
    var k := RuleOf(ps, i);
    RulesFirst(c, dir, "in-" + Itoa(n.localPort), k);
    var b := OutboundOf(ps, i);
    PartsReach(c, dir, n, a, k, b);
    LeadsTag(NodeOutbounds(ps)[b], n);
    assert Outbounds(c)[b] == NodeOutbounds(ps)[b];
  }

  lemma PartsReach(c: Config, dir: string, n: Proxy, a: nat, k: nat, b: nat)
    requires a < |PortInbounds(Enabled(c.proxies), c.listen)|
    requires PortInbounds(Enabled(c.proxies), c.listen)[a] == Inbound("mixed", "in-" + Itoa(n.localPort), c.listen, n.localPort)
    requires FirstRule(Routes(c, dir).rules, "in-" + Itoa(n.localPort), k) && k < |Routes(c, dir).rules|
    requires Routes(c, dir).rules[k] == RouteRule(["in-" + Itoa(n.localPort)], "", [], [], "out-" + Sanitized(n.name))
    requires b < |NodeOutbounds(Enabled(c.proxies))| && LeadsTo(NodeOutbounds(Enabled(c.proxies))[b], n)
    ensures Reaches(Generated(c, dir), c.listen, n)
  {
    hide Itoa, Sanitized, LeadsTo, Enabled, FirstRule, Routes, NodeOutbounds, PortInbounds;
    assert Inbounds(c)[a] == PortInbounds(Enabled(c.proxies), c.listen)[a];
    assert Outbounds(c)[b] == NodeOutbounds(Enabled(c.proxies))[b];
  }

  lemma ValidFacts(c: Config, n: Proxy)
    requires IsValid(c) && n in c.proxies
    ensures PortsDistinct(c.proxies) && Supported(n)
  {
  }

  lemma LeadsTag(x: Outbound, n: Proxy)
    requires LeadsTo(x, n)
    ensures x.tag == "out-" + Sanitized(n.name)
  {
  }

  /** The port rules come first. */
  lemma RulesFirst(c: Config, dir: string, tag: string, k: nat)
    requires FirstRule(PortRules(Enabled(c.proxies)), tag, k)
    ensures FirstRule(Routes(c, dir).rules, tag, k) && k < |Routes(c, dir).rules|
    ensures Routes(c, dir).rules[k] == PortRules(Enabled(c.proxies))[k]
  {
    hide PortRules, Enabled, SiteRules, UnifiedRule;
    var rules := PortRules(Enabled(c.proxies));
    assert forall j :: 0 <= j < |rules| ==> Routes(c, dir).rules[j] == rules[j];
  }

  // ---- the unified port ----

  lemma UnifiedTagApart(n: nat)
    ensures "in-" + Itoa(n) != "in-unified"
  {
    assert IsDigit(Itoa(n)[0]);
    assert ("in-" + Itoa(n))[3] == Itoa(n)[0] && "in-unified"[3] == 'u';
  }

  /** What arrives at the unified port goes to the selector, after the site rules have had their say, and
      the selector offers every enabled node in order; in direct mode no rule speaks of it. */
  lemma UnifiedReaches(c: Config, dir: string)
    requires c.unifiedPort > 0
    ensures var s := Generated(c, dir);
      && Inbound("mixed", "in-unified", c.listen, c.unifiedPort) in s.inbounds
      && (c.routeMode != "direct" ==>
            && s.route.final == "proxy" && s.route.rules != []
            && s.route.rules[|s.route.rules| - 1] == RouteRule(["in-unified"], "", [], [], if c.unifiedTag != "" then c.unifiedTag else "proxy")
            && FirstRule(s.route.rules, "in-unified", |s.route.rules| - 1))
      && (c.routeMode == "direct" ==> s.route.final == "direct" && forall r :: r in s.route.rules ==> "in-unified" !in r.inbounds)
      && Selector(if c.unifiedTag != "" then c.unifiedTag else "proxy", ["auto"] + Tags(Enabled(c.proxies)), "auto") in s.outbounds
      && UrlTest("auto", Tags(Enabled(c.proxies)), 100) in s.outbounds
  {
    hide Enabled, Tags, PortInbounds, NodeOutbounds, ProxySites;
    var ps := Enabled(c.proxies);
    forall r | r in PortRules(ps) ensures "in-unified" !in r.inbounds {
      RuleNames(ps, r);
      var p :| p in ps && p.localPort > 0 && r.inbounds == ["in-" + Itoa(p.localPort)];
      UnifiedTagApart(p.localPort);
    }
    hide PortRules;
    UnifiedParts(c);
    UnifiedRules(c, dir);
  }

  lemma UnifiedParts(c: Config)
    requires c.unifiedPort > 0
    ensures Inbound("mixed", "in-unified", c.listen, c.unifiedPort) in Inbounds(c)
    ensures Selector(if c.unifiedTag != "" then c.unifiedTag else "proxy", ["auto"] + Tags(Enabled(c.proxies)), "auto") in Outbounds(c)
    ensures UrlTest("auto", Tags(Enabled(c.proxies)), 100) in Outbounds(c)
  {
    hide Enabled, Tags, PortInbounds, NodeOutbounds;
    var tags := Tags(Enabled(c.proxies));
    var u := UnifiedOutbounds(c, tags);
    assert u[0] in u && u[1] in u;
  }

  lemma UnifiedRules(c: Config, dir: string)
    requires c.unifiedPort > 0 && forall r :: r in PortRules(Enabled(c.proxies)) ==> "in-unified" !in r.inbounds
    ensures var route := Routes(c, dir);
      && (c.routeMode != "direct" ==>
            && route.final == "proxy" && route.rules != []
            && route.rules[|route.rules| - 1] == RouteRule(["in-unified"], "", [], [], if c.unifiedTag != "" then c.unifiedTag else "proxy")
            && FirstRule(route.rules, "in-unified", |route.rules| - 1))
      && (c.routeMode == "direct" ==> route.final == "direct" && forall r :: r in route.rules ==> "in-unified" !in r.inbounds)
  {
    hide Enabled, PortRules, ProxySites;
    var rules := Routes(c, dir).rules;
    var n := |PortRules(Enabled(c.proxies))|;
    forall j | 0 <= j < |rules| && (c.routeMode == "direct" || j < |rules| - 1) ensures "in-unified" !in rules[j].inbounds {
      if j < n { assert rules[j] == PortRules(Enabled(c.proxies))[j]; }
    }
  }

  /** In rule mode the sites come before the country lists, and both before the unified port. */
  lemma SiteRulesPlace(c: Config, dir: string)
    requires c.routeMode == "rule"
    ensures var rules, n := Routes(c, dir).rules, |PortRules(Enabled(c.proxies))|;
      && |rules| >= n + 4
      && rules[n] == RouteRule([], "dns", [], [], "direct")
      && rules[n + 1].outbound == "proxy" && rules[n + 1].inbounds == [] && rules[n + 1].suffixes != []
      && (c.proxySites != [] ==> rules[n + 1].suffixes == c.proxySites)
      && rules[n + 2] == RouteRule([], "", ["geoip-cn"], [], "direct") && rules[n + 3] == RouteRule([], "", ["geosite-cn"], [], "direct")
  {
    hide Enabled, PortRules, DefaultProxySites;
    SitesNonempty(c);
  }

  /** What does not depend on nodes and modes. */
  lemma FixedParts(c: Config, dir: string)
    ensures var s := Generated(c, dir);
      && s.logLevel == c.logLevel && s.dnsStrategy == "ipv4_only" && s.dnsServers == [DnsServer("google-dns", "tcp://8.8.8.8", "direct")]
      && s.outbounds != [] && s.outbounds[|s.outbounds| - 1] == Direct("direct")
      && (s.controller == if c.unifiedPort > 0 then Some("127.0.0.1:9090") else None)
      && (s.route.ruleSets == if c.routeMode == "rule" then
            [RuleSet("geoip-cn", [dir, "bin", "geoip-cn.srs"]), RuleSet("geosite-cn", [dir, "bin", "geosite-cn.srs"])] else [])
  {
    hide Inbounds, Enabled, NodeOutbounds, UnifiedOutbounds, PortRules, SiteRules, UnifiedRule;
  }
}
