/** The proxy core's configuration, as a function of the user's. */
module SingBox {
  import opened Text
  import opened ProxyConfig

  datatype Inbound = Inbound(kind: string, tag: string, listen: string, listenPort: int)

  datatype Outbound =
    | Shadowsocks(tag: string, server: string, serverPort: int, cipher: string, password: string)
    | Vmess(tag: string, server: string, serverPort: int, uuid: string, alterId: int, security: string)
    | Vless(tag: string, server: string, serverPort: int, uuid: string, flow: string,
            serverName: string, fingerprint: string, publicKey: string, shortId: string)
    | UrlTest(tag: string, members: seq<string>, tolerance: nat)
    | Selector(tag: string, members: seq<string>, selected: string)
    | Direct(tag: string)

  datatype RouteRule = RouteRule(inbounds: seq<string>, protocol: string, ruleSets: seq<string>, suffixes: seq<string>, outbound: string)

  /** A local binary rule set; its path is given by components. */
  datatype RuleSet = RuleSet(tag: string, path: seq<string>)

  datatype Route = Route(rules: seq<RouteRule>, final: string, ruleSets: seq<RuleSet>)

  datatype DnsServer = DnsServer(tag: string, address: string, detour: string)

  datatype SingBox = SingBox(
    logLevel: string, dnsStrategy: string, dnsServers: seq<DnsServer>,
    inbounds: seq<Inbound>, outbounds: seq<Outbound>, route: Route, controller: Option<string>)

  // ---- tags ----

  predicate IsTagChar(c: char) {
    'a' <= c <= 'z' || 'A' <= c <= 'Z' || '0' <= c <= '9' || c == '-' || c == '_'
  }

  function Sanitized(name: string): (tag: string)
    ensures forall i :: 0 <= i < |tag| ==> IsTagChar(tag[i])
  {
    if name == [] then []
    else
      var c := name[|name| - 1];
      Sanitized(name[..|name| - 1]) + (if IsTagChar(c) then [c] else if c == ' ' then "-" else "")
  }

  /** sanitizeTag. */
  method SanitizeTag(name: string) returns (tag: string)
    ensures tag == Sanitized(name)
  {
    tag := "";
    for i := 0 to |name|
      invariant tag == Sanitized(name[..i])
    {
      assert name[..i + 1][..i] == name[..i];
      if IsTagChar(name[i]) {
        tag := tag + [name[i]];
      } else if name[i] == ' ' {
        tag := tag + "-";
      }
    }
    assert name[..|name|] == name;
  }

  /** Cleaning goes character by character: letters, digits, dashes and underscores stay, a space becomes a
      dash, and nothing else leaves a trace. */
  lemma {:induction false} SanitizedJoin(a: string, b: string)
    ensures Sanitized(a + b) == Sanitized(a) + Sanitized(b)
    ensures |b| == 1 ==>
      Sanitized(b) == (if 'a' <= b[0] <= 'z' || 'A' <= b[0] <= 'Z' || '0' <= b[0] <= '9' || b[0] == '-' || b[0] == '_' then b
                       else if b[0] == ' ' then "-" else "")
  {
    if b == [] {
      assert a + b == a;
    } else {
      assert (a + b)[..|a + b| - 1] == a + b[..|b| - 1];
      SanitizedJoin(a, b[..|b| - 1]);
      if |b| == 1 { assert b[..0] == [] && Sanitized([]) == []; }
    }
  }

  /** Distinct names may share a tag: a character that is dropped leaves no trace. */
  lemma SanitizedDrops(name: string, c: char)
    requires !IsTagChar(c) && c != ' '
    ensures Sanitized(name + [c]) == Sanitized(name)
  {
    assert (name + [c])[..|name + [c]| - 1] == name;
  }

  function InTag(p: Proxy): string { "in-" + Itoa(p.localPort) }

  function OutTag(p: Proxy): string { "out-" + Sanitized(p.name) }

  function SelectorTag(c: Config): string { if c.unifiedTag != "" then c.unifiedTag else "proxy" }

  // ---- the parts, one node at a time ----

  function Enabled(ps: seq<Proxy>): (r: seq<Proxy>)
    ensures forall p :: p in r <==> p in ps && p.enabled
  {
    if ps == [] then []
    else
      assert ps == ps[..|ps| - 1] + [ps[|ps| - 1]];
      Enabled(ps[..|ps| - 1]) + (if ps[|ps| - 1].enabled then [ps[|ps| - 1]] else [])
  }

  /** GetEnabledProxies. */
  method GetEnabledProxies(c: Config) returns (enabled: seq<Proxy>)
    ensures enabled == Enabled(c.proxies)
  {
    enabled := [];
    for i := 0 to |c.proxies|
      invariant enabled == Enabled(c.proxies[..i])
    {
      assert c.proxies[..i + 1][..i] == c.proxies[..i];
      if c.proxies[i].enabled {
        enabled := enabled + [c.proxies[i]];
      }
    }
    assert c.proxies[..|c.proxies|] == c.proxies;
  }

  function PortInbounds(ps: seq<Proxy>, listen: string): seq<Inbound> {
    if ps == [] then []
    else
      var p := ps[|ps| - 1];
      PortInbounds(ps[..|ps| - 1], listen) + (if p.localPort <= 0 then [] else [Inbound("mixed", InTag(p), listen, p.localPort)])
  }

  function Inbounds(c: Config): seq<Inbound> {
    PortInbounds(Enabled(c.proxies), c.listen) +
    (if c.unifiedPort > 0 then [Inbound("mixed", "in-unified", c.listen, c.unifiedPort)] else [])
  }

  /** generateInbounds. */
  method GenerateInbounds(c: Config) returns (inbounds: seq<Inbound>)
    ensures inbounds == Inbounds(c)
  {
    hide Enabled, Itoa;
    inbounds := [];
    var enabled := GetEnabledProxies(c);
    for i := 0 to |enabled|
      invariant inbounds == PortInbounds(enabled[..i], c.listen)
    {
      assert enabled[..i + 1][..i] == enabled[..i];
      if enabled[i].localPort <= 0 { continue; }
      inbounds := inbounds + [Inbound("mixed", InTag(enabled[i]), c.listen, enabled[i].localPort)];
    }
    assert enabled[..|enabled|] == enabled;
    if c.unifiedPort > 0 {
      inbounds := inbounds + [Inbound("mixed", "in-unified", c.listen, c.unifiedPort)];
    }
  }

  /** The outbound of one node; a node of an unsupported type has none. */
  function NodeOutbound(p: Proxy): seq<Outbound> {
    if p.kind == "shadowsocks" then [Shadowsocks(OutTag(p), p.server, p.port, p.cipher, p.password)]
    else if p.kind == "vmess" then [Vmess(OutTag(p), p.server, p.port, p.uuid, p.alterId, p.security)]
    else if p.kind == "vless" then
      [Vless(OutTag(p), p.server, p.port, p.uuid, p.flow, p.serverName, p.fingerprint, p.realityPublicKey, p.realityShortId)]
    else []
  }

  function NodeOutbounds(ps: seq<Proxy>): seq<Outbound> {
    if ps == [] then [] else NodeOutbounds(ps[..|ps| - 1]) + NodeOutbound(ps[|ps| - 1])
  }

  function Tags(ps: seq<Proxy>): seq<string> {
    seq(|ps|, i requires 0 <= i < |ps| => OutTag(ps[i]))
  }

  lemma TagsStart()
    ensures Tags([]) == []
  {
  }

  lemma TagsStep(ps: seq<Proxy>, i: nat)
    requires i < |ps|
    ensures Tags(ps[..i + 1]) == Tags(ps[..i]) + [OutTag(ps[i])]
  {
  }

  function UnifiedOutbounds(c: Config, tags: seq<string>): seq<Outbound> {
    if c.unifiedPort > 0 then
      [UrlTest("auto", tags, 100), Selector(SelectorTag(c), ["auto"] + tags, "auto")]
    else []
  }

  function Outbounds(c: Config): seq<Outbound> {
    NodeOutbounds(Enabled(c.proxies)) + UnifiedOutbounds(c, Tags(Enabled(c.proxies))) + [Direct("direct")]
  }

  /** generateOutbounds. */
  method GenerateOutbounds(c: Config) returns (outbounds: seq<Outbound>)
    ensures outbounds == Outbounds(c)
  {
    hide Enabled, Sanitized, Tags;
    outbounds := [];
    var tags: seq<string> := [];
    TagsStart();
    var enabled := GetEnabledProxies(c);
    for i := 0 to |enabled|
      invariant outbounds == NodeOutbounds(enabled[..i])
      invariant tags == Tags(enabled[..i])
    {
      assert enabled[..i + 1][..i] == enabled[..i];
      TagsStep(enabled, i);
      var p := enabled[i];
      var clean := SanitizeTag(p.name);
      var tag := "out-" + clean;
      tags := tags + [tag];
      if p.kind == "shadowsocks" {
        outbounds := outbounds + [Shadowsocks(tag, p.server, p.port, p.cipher, p.password)];
      } else if p.kind == "vmess" {
        outbounds := outbounds + [Vmess(tag, p.server, p.port, p.uuid, p.alterId, p.security)];
      } else if p.kind == "vless" {
        outbounds := outbounds +
        [Vless(tag, p.server, p.port, p.uuid, p.flow, p.serverName, p.fingerprint, p.realityPublicKey, p.realityShortId)];
      }
    }
    assert enabled[..|enabled|] == enabled;
    if c.unifiedPort > 0 {
      var selector := "proxy";
      if c.unifiedTag != "" { selector := c.unifiedTag; }
      outbounds := outbounds + [UrlTest("auto", tags, 100)];
      outbounds := outbounds + [Selector(selector, ["auto"] + tags, "auto")];
    }
    outbounds := outbounds + [Direct("direct")];
  }

  function PortRules(ps: seq<Proxy>): seq<RouteRule> {
    if ps == [] then []
    else
      var p := ps[|ps| - 1];
      PortRules(ps[..|ps| - 1]) + (if p.localPort <= 0 then [] else [RouteRule([InTag(p)], "", [], [], OutTag(p))])
  }

  function DefaultProxySites(): seq<string> {
    ["github.com", "github.io", "githubassets.com", "githubusercontent.com",
     "githubapp.com", "githubuniverse.com", "thegithubshop.com",
     "githubstatus.com", "githubnext.com", "ghcr.io", "github.dev",
     "github.blog", "github.net", "githubcopilot.com", "githubpreview.dev",
     "github.training", "githubinsights.com", "githubresearch.com",
     "github.inc", "github.co",
     "linkedin.com", "licdn.com", "lnkd.in",
     "linkedin.at", "linkedin.cn", "linkedin.co",
     "linkedin.de", "linkedin.fr", "linkedin.it", "linkedin.nl",
     "linkedin.se", "linkedin.in", "linkedin.jp", "linkedin.es",
     "linkedin.ch", "linkedin.ru", "linkedin.cz", "linkedin.dk",
     "linkedin.fi", "linkedin.gr", "linkedin.hu", "linkedin.ie",
     "linkedin.no", "linkedin.pl", "linkedin.pt", "linkedin.ro",
     "linkedin.tw", "linkedin.hk", "linkedin.my", "linkedin.ph",
     "bizographics.com", "slideshare.net", "lynda.com"]
  }

  function ProxySites(c: Config): seq<string> {
    if c.proxySites != [] then c.proxySites else DefaultProxySites()
  }

  function UnifiedRule(c: Config): seq<RouteRule> {
    if c.unifiedPort > 0 then [RouteRule(["in-unified"], "", [], [], SelectorTag(c))] else []
  }

  function SiteRules(c: Config): seq<RouteRule> {
    [RouteRule([], "", [], ProxySites(c), "proxy"),
     RouteRule([], "", ["geoip-cn"], [], "direct"), RouteRule([], "", ["geosite-cn"], [], "direct")]
  }

  function Routes(c: Config, dir: string): Route {
    var rules := PortRules(Enabled(c.proxies)) + [RouteRule([], "dns", [], [], "direct")];
    if c.routeMode == "direct" then Route(rules, "direct", [])
    else if c.routeMode == "rule" then
      Route(rules + SiteRules(c) + UnifiedRule(c), "proxy",
            [RuleSet("geoip-cn", [dir, "bin", "geoip-cn.srs"]), RuleSet("geosite-cn", [dir, "bin", "geosite-cn.srs"])])
    else Route(rules + UnifiedRule(c), "proxy", [])
  }

  /** generateRoute. */
  method GenerateRoute(c: Config, dir: string) returns (route: Route)
    ensures route == Routes(c, dir)
  {
    hide ProxySites, Enabled, Sanitized, Itoa;
    var rules: seq<RouteRule> := [];
    var enabled := GetEnabledProxies(c);
    for i := 0 to |enabled|
      invariant rules == PortRules(enabled[..i])
    {
      assert enabled[..i + 1][..i] == enabled[..i];
      if enabled[i].localPort <= 0 { continue; }
      var clean := SanitizeTag(enabled[i].name);
      rules := rules + [RouteRule([InTag(enabled[i])], "", [], [], "out-" + clean)];
    }
    assert enabled[..|enabled|] == enabled;
    rules := rules + [RouteRule([], "dns", [], [], "direct")];
    var selector := "proxy";
    if c.unifiedTag != "" { selector := c.unifiedTag; }
    if c.routeMode == "direct" {
      return Route(rules, "direct", []);
    }
    var sets: seq<RuleSet> := [];
    ghost var base := rules;
    if c.routeMode == "rule" {
      sets := [RuleSet("geoip-cn", [dir, "bin", "geoip-cn.srs"]), RuleSet("geosite-cn", [dir, "bin", "geosite-cn.srs"])];
      var sites := ProxySites(c);
      if |sites| > 0 {
        rules := rules + [RouteRule([], "", [], sites, "proxy")];
      }
      rules := rules + [RouteRule([], "", ["geoip-cn"], [], "direct"), RouteRule([], "", ["geosite-cn"], [], "direct")];
      SitesNonempty(c);
      assert rules == base + SiteRules(c);
    }
    if c.unifiedPort > 0 {
      rules := rules + [RouteRule(["in-unified"], "", [], [], selector)];
    } else {
      assert rules + [] == rules;
    }
    return Route(rules, "proxy", sets);
  }

  lemma SitesNonempty(c: Config)
    ensures ProxySites(c) != []
  {
    assert |DefaultProxySites()| > 0;
  }

  function Generated(c: Config, dir: string): SingBox {
    SingBox(c.logLevel, "ipv4_only", [DnsServer("google-dns", "tcp://8.8.8.8", "direct")],
            Inbounds(c), Outbounds(c), Routes(c, dir),
            if c.unifiedPort > 0 then Some("127.0.0.1:9090") else None)
  }

  method Generate(c: Config, dir: string) returns (r: SingBox)
    ensures r == Generated(c, dir)
  {
    var inbounds := GenerateInbounds(c);
    var outbounds := GenerateOutbounds(c);
    var route := GenerateRoute(c, dir);
    r := SingBox(c.logLevel, "ipv4_only", [DnsServer("google-dns", "tcp://8.8.8.8", "direct")], inbounds, outbounds, route, None);
    if c.unifiedPort > 0 {
      r := r.(controller := Some("127.0.0.1:9090"));
    }
  }
}
