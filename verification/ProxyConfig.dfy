/** The configuration and its validator. */
module ProxyConfig {
  import opened Text

  const SUBSCRIPTION := "subscription"
  const MANUAL := "manual"

  /** One proxy node.  A missing and an empty extra table are the same value. */
  datatype Proxy = Proxy(
    source: string, key: string, missing: int,
    name: string, enabled: bool, localPort: int,
    kind: string, server: string, port: int,
    cipher: string, password: string, uuid: string, alterId: int, security: string, flow: string,
    serverName: string, fingerprint: string, realityPublicKey: string, realityShortId: string,
    extra: map<string, string>)

  datatype HealthCheck = HealthCheck(enabled: bool, intervalSeconds: int, timeoutSeconds: int, testUrl: string)

  datatype Dns = Dns(flushOnFailure: bool, flushIntervalSeconds: int, servers: seq<string>)

  datatype Config = Config(
    version: string, logLevel: string, unifiedPort: int, unifiedTag: string, routeMode: string, proxySites: seq<string>,
    subscriptionUrl: string, migrated: bool, sourceKey: string,
    healthCheck: HealthCheck, dns: Dns, proxies: seq<Proxy>, listen: string)

  /** What Validate asks of the connection of one node, whatever its name and local port. */
  predicate ConnectionValid(p: Proxy) {
    && p.kind != "" && p.server != "" && 0 < p.port <= 65535
    && (p.kind == "shadowsocks" || p.kind == "vmess" || p.kind == "vless")
    && (p.kind == "shadowsocks" ==> p.cipher != "" && p.password != "")
    && (p.kind == "vmess" ==> p.uuid != "")
    && (p.kind == "vless" ==>
          && p.uuid != "" && p.security == "reality" && p.flow == "xtls-rprx-vision"
          && p.serverName != "" && p.fingerprint != "" && p.realityPublicKey != "" && p.realityShortId != "")
  }

  predicate NodeValid(p: Proxy, unifiedPort: int) {
    && p.name != "" && ConnectionValid(p)
    && (p.localPort > 0 ==> p.localPort <= 65535 && (unifiedPort > 0 ==> p.localPort != unifiedPort))
  }

  /** A local port is optional; two nodes never share one. */
  ghost predicate PortsDistinct(ps: seq<Proxy>) {
    forall i, j :: 0 <= i < j < |ps| && ps[i].localPort > 0 ==> ps[i].localPort != ps[j].localPort
  }

  ghost predicate NamesDistinct(ps: seq<Proxy>) {
    forall i, j :: 0 <= i < j < |ps| ==> Normalized(ps[i].name) != Normalized(ps[j].name)
  }

  ghost predicate IsValid(c: Config) {
    && c.version != "" && c.proxies != []
    && (forall i :: 0 <= i < |c.proxies| ==> NodeValid(c.proxies[i], c.unifiedPort))
    && PortsDistinct(c.proxies)
  }

  /** Validate, with its table of used ports. */
  method Validate(c: Config) returns (ok: bool)
    ensures ok <==> IsValid(c)
  {
    if c.version == "" { return false; }
    if |c.proxies| == 0 { return false; }
    var portMap: map<int, string> := map[];
    var i := 0;
    while i < |c.proxies|
      invariant 0 <= i <= |c.proxies|
      invariant forall j :: 0 <= j < i ==> NodeValid(c.proxies[j], c.unifiedPort)
      invariant PortsDistinct(c.proxies[..i])
      invariant forall port :: port in portMap <==> port > 0 && exists j :: 0 <= j < i && c.proxies[j].localPort == port
    {
      var p := c.proxies[i];
      if p.name == "" || p.kind == "" || p.server == "" || p.port <= 0 || p.port > 65535 { return false; }
      if p.localPort > 0 {
        if p.localPort > 65535 { return false; }
        if p.localPort in portMap {
          assert exists j :: 0 <= j < i && c.proxies[j].localPort == p.localPort;
          return false;
        }
        portMap := portMap[p.localPort := p.name];
        if p.localPort == c.unifiedPort && c.unifiedPort > 0 { return false; }
      }
      if !ConnectionValid(p) { return false; }
      assert forall j :: 0 <= j < i ==> c.proxies[..i][j] == c.proxies[j];
      i := i + 1;
    }
    assert c.proxies[..i] == c.proxies;
    if 0 < c.unifiedPort <= 65535 {
      if c.unifiedPort in portMap { return false; }
    }
    return true;
  }

  /** validateUniqueProxyNames. */
  method ValidateUniqueNames(ps: seq<Proxy>) returns (ok: bool)
    ensures ok <==> NamesDistinct(ps)
  {
    hide Normalized;
    var names: set<string> := {};
    var i := 0;
    while i < |ps|
      invariant 0 <= i <= |ps|
      invariant forall j :: 0 <= j < i ==> Normalized(ps[j].name) in names
      invariant forall n :: n in names ==> exists j :: 0 <= j < i && Normalized(ps[j].name) == n
      invariant forall j, k :: 0 <= j < k < i ==> Normalized(ps[j].name) != Normalized(ps[k].name)
    {
      if Normalized(ps[i].name) in names { return false; }
      names := names + {Normalized(ps[i].name)};
      i := i + 1;
    }
    return true;
  }
}
