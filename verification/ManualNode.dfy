/** Importing one node by hand. */
module ManualNode {
  import opened Text
  import opened ProxyConfig
  import opened SubscriptionMatch
  import opened SubscriptionMerge
  import opened MergeValidity

  datatype ManualOutcome = Placed(next: Config) | Refused(reason: Reason)

  /** A node that an import of p updates: not tracked, and under the same server and port. */
  predicate SameAddress(n: Proxy, p: Proxy) {
    n.source != SUBSCRIPTION && Lower(n.server) == Lower(p.server) && n.port == p.port
  }

  /** The first node from index i on that p updates, or the end. */
  function FirstSame(nodes: seq<Proxy>, p: Proxy, i: nat): (r: nat)
    requires i <= |nodes|
    ensures i <= r <= |nodes|
    ensures forall j :: i <= j < r ==> !SameAddress(nodes[j], p)
    ensures r < |nodes| ==> SameAddress(nodes[r], p)
    decreases |nodes| - i
  {
    if i == |nodes| || SameAddress(nodes[i], p) then i else FirstSame(nodes, p, i + 1)
  }

  function AsManual(p: Proxy): Proxy {
    p.(source := MANUAL, key := "", missing := 0, enabled := true, name := if p.name == "" then p.server else p.name)
  }

  ghost function Checked(next: Config): ManualOutcome {
    if !NamesDistinct(next.proxies) then Refused(NameConflict)
    else if !IsValid(next) then Refused(Invalid)
    else Placed(next)
  }

  ghost function ManualMerge(c: Config, incoming: Proxy): ManualOutcome {
    var p := AsManual(incoming);
    var i := FirstSame(c.proxies, p, 0);
    if i < |c.proxies| then
      Checked(c.(proxies := c.proxies[i := p.(name := c.proxies[i].name, localPort := c.proxies[i].localPort)]))
    else
      var port := FreePort(PortsOf(c.proxies, c.unifiedPort), FIRST_PORT);
      if port == 0 then Refused(NoPort)
      else Checked(c.(proxies := c.proxies + [p.(localPort := port)]))
  }

  /** Node x is the imported one, field by field; its name and local port are decided elsewhere. */
  predicate IsImported(x: Proxy, incoming: Proxy) {
    && x.source == "manual" && x.key == "" && x.missing == 0 && x.enabled
    && x.kind == incoming.kind && x.server == incoming.server && x.port == incoming.port
    && x.cipher == incoming.cipher && x.password == incoming.password && x.uuid == incoming.uuid && x.alterId == incoming.alterId
    && x.security == incoming.security && x.flow == incoming.flow && x.serverName == incoming.serverName
    && x.fingerprint == incoming.fingerprint && x.realityPublicKey == incoming.realityPublicKey
    && x.realityShortId == incoming.realityShortId && x.extra == incoming.extra
  }

  /** An import changes one node in place, the first that is not tracked and has the server and port of the
      imported one, keeping its name and local port; or, if there is none, it adds one at the end, under
      its own name or its server's, on the lowest free port.  Nothing else changes. */
  lemma ManualTouchesOne(c: Config, incoming: Proxy) returns (i: nat)
    requires ManualMerge(c, incoming).Placed?
    ensures var next := ManualMerge(c, incoming).next;
      && next == c.(proxies := next.proxies)
      && i <= |c.proxies| && |next.proxies| == (if i < |c.proxies| then |c.proxies| else |c.proxies| + 1)
      && (forall j :: 0 <= j < |c.proxies| && j != i ==> next.proxies[j] == c.proxies[j])
      && IsImported(next.proxies[i], incoming)
      && (forall j :: 0 <= j < i ==>
            c.proxies[j].source == "subscription" || Lower(c.proxies[j].server) != Lower(incoming.server) || c.proxies[j].port != incoming.port)
      && (i < |c.proxies| ==>
            && c.proxies[i].source != "subscription" && Lower(c.proxies[i].server) == Lower(incoming.server) && c.proxies[i].port == incoming.port
            && next.proxies[i].name == c.proxies[i].name && next.proxies[i].localPort == c.proxies[i].localPort)
      && (i == |c.proxies| ==>
            && next.proxies[i].name == (if incoming.name == "" then incoming.server else incoming.name)
            && 10801 <= next.proxies[i].localPort <= 65535 && IsOpenPort(c, next.proxies[i].localPort)
            && forall q :: 10801 <= q < next.proxies[i].localPort ==> !IsOpenPort(c, q))
  {
    hide IsValid, NamesDistinct, Lower;
    i := FirstSame(c.proxies, AsManual(incoming), 0);
    PortsOpen(c);
  }

  /** Nobody listens on port q. */
  predicate IsOpenPort(c: Config, q: int) {
    q != c.unifiedPort && forall n :: n in c.proxies ==> n.localPort != q
  }

  lemma PortsOpen(c: Config)
    ensures forall q :: q > 0 ==> (IsOpenPort(c, q) <==> q !in PortsOf(c.proxies, c.unifiedPort))
  {
  }

  /** Importing the same node again changes nothing. */
  lemma ManualIdempotent(c: Config, incoming: Proxy)
    requires ManualMerge(c, incoming).Placed?
    ensures ManualMerge(ManualMerge(c, incoming).next, incoming) == ManualMerge(c, incoming)
  {
    hide IsValid, NamesDistinct;
    var p := AsManual(incoming);
    var i := FirstSame(c.proxies, p, 0);
    var next := ManualMerge(c, incoming).next;
    assert SameAddress(next.proxies[i], p);
    assert forall j :: 0 <= j < i ==> next.proxies[j] == c.proxies[j];
    assert FirstSame(next.proxies, p, 0) == i;
    assert next.proxies[i := next.proxies[i]] == next.proxies;
  }

  /** With a valid configuration and a usable connection an update always succeeds, and an addition
      fails exactly when the ports are exhausted or the name is taken. */
  lemma ManualSucceedsIff(c: Config, incoming: Proxy)
    requires IsValid(c) && NamesDistinct(c.proxies) && ConnectionValid(incoming)
    ensures ManualMerge(c, incoming).Placed? <==>
      || (exists n :: n in c.proxies && n.source != "subscription" && Lower(n.server) == Lower(incoming.server) && n.port == incoming.port)
      || (&& (exists q :: 10801 <= q <= 65535 && IsOpenPort(c, q))
          && forall n :: n in c.proxies ==> Normalized(n.name) != Normalized(if incoming.name == "" then incoming.server else incoming.name))
  {
    hide ConnectionValid, Normalized, Lower;
    SucceedsByPosition(c, incoming);
    OpenPorts(c);
    SomeSame(c.proxies, incoming);
    NameFree(c.proxies, if incoming.name == "" then incoming.server else incoming.name);
    assert AsManual(incoming).name == if incoming.name == "" then incoming.server else incoming.name;
    hide ManualMerge, IsOpenPort, IsValid, NamesDistinct, FirstSame, FreePorts, PortsOf, NamesOf, AsManual;
  }

  lemma SomeSame(nodes: seq<Proxy>, incoming: Proxy)
    ensures FirstSame(nodes, AsManual(incoming), 0) < |nodes| <==>
      exists n :: n in nodes && n.source != "subscription" && Lower(n.server) == Lower(incoming.server) && n.port == incoming.port
  {
    hide Lower;
    var i := FirstSame(nodes, AsManual(incoming), 0);
    if i < |nodes| { assert nodes[i] in nodes; }
  }

  lemma NameFree(nodes: seq<Proxy>, name: string)
    ensures Normalized(name) !in NamesOf(nodes) <==> forall n :: n in nodes ==> Normalized(n.name) != Normalized(name)
  {
    hide Normalized;
  }

  lemma OpenPorts(c: Config)
    ensures FreePorts(PortsOf(c.proxies, c.unifiedPort)) != {} <==> exists q :: 10801 <= q <= 65535 && IsOpenPort(c, q)
  {
    PortsOpen(c);
    hide IsOpenPort, PortsOf;
    var ports := PortsOf(c.proxies, c.unifiedPort);
    if q :| 10801 <= q <= 65535 && IsOpenPort(c, q) {
      assert IsPort(q) && q in FreePorts(ports);
    }
    if FreePorts(ports) != {} {
      var q :| q in FreePorts(ports);
      assert IsOpenPort(c, q);
    }
  }

  lemma SucceedsByPosition(c: Config, incoming: Proxy)
    requires IsValid(c) && NamesDistinct(c.proxies) && ConnectionValid(incoming)
    ensures var p := AsManual(incoming);
            ManualMerge(c, incoming).Placed? <==>
              || FirstSame(c.proxies, p, 0) < |c.proxies|
              || (FreePorts(PortsOf(c.proxies, c.unifiedPort)) != {} && Normalized(p.name) !in NamesOf(c.proxies))
  {
    hide ConnectionValid, Normalized;
    var p := AsManual(incoming);
    ConnectionKept(incoming);
    var i := FirstSame(c.proxies, p, 0);
    if i < |c.proxies| {
      UpdateValid(c, p.(name := c.proxies[i].name, localPort := c.proxies[i].localPort), i);
    } else {
      var port := FreePort(PortsOf(c.proxies, c.unifiedPort), FIRST_PORT);
      if port == 0 {
        assert FreePorts(PortsOf(c.proxies, c.unifiedPort)) == {};
      } else {
        assert IsPort(port) && port in FreePorts(PortsOf(c.proxies, c.unifiedPort));
        AppendValid(c, p.(localPort := port));
      }
    }
  }

  lemma ConnectionKept(incoming: Proxy)
    requires ConnectionValid(incoming)
    ensures forall name, port: int :: ConnectionValid(AsManual(incoming).(name := name, localPort := port))
    ensures AsManual(incoming).name != ""
  {
  }

  lemma UpdateValid(c: Config, p: Proxy, i: nat)
    requires IsValid(c) && NamesDistinct(c.proxies) && i < |c.proxies|
    requires ConnectionValid(p) && p.name == c.proxies[i].name && p.localPort == c.proxies[i].localPort
    ensures IsValid(c.(proxies := c.proxies[i := p])) && NamesDistinct(c.proxies[i := p])
  {
    hide ConnectionValid, Normalized;
    assert forall j :: 0 <= j < |c.proxies| ==> c.proxies[i := p][j].name == c.proxies[j].name && c.proxies[i := p][j].localPort == c.proxies[j].localPort;
  }

  lemma AppendPortsDistinct(ps: seq<Proxy>, p: Proxy, unifiedPort: int)
    requires PortsDistinct(ps) && p.localPort !in PortsOf(ps, unifiedPort)
    ensures PortsDistinct(ps + [p])
  {
    forall j | 0 <= j < |ps| && ps[j].localPort > 0 ensures ps[j].localPort != p.localPort {
      assert ps[j] in ps && ps[j].localPort in PortsOf(ps, unifiedPort);
    }
  }

  lemma AppendNamesDistinct(ps: seq<Proxy>, p: Proxy)
    requires NamesDistinct(ps)
    ensures NamesDistinct(ps + [p]) <==> Normalized(p.name) !in NamesOf(ps)
  {
    hide Normalized;
    var all := ps + [p];
    if Normalized(p.name) in NamesOf(ps) {
      var q :| q in ps && Normalized(q.name) == Normalized(p.name);
      var j :| 0 <= j < |ps| && ps[j] == q;
      assert Normalized(all[j].name) == Normalized(all[|ps|].name);
    }
  }

  lemma AppendValid(c: Config, p: Proxy)
    requires IsValid(c) && NamesDistinct(c.proxies) && ConnectionValid(p) && p.name != ""
    requires FIRST_PORT <= p.localPort <= LAST_PORT && p.localPort !in PortsOf(c.proxies, c.unifiedPort)
    ensures IsValid(c.(proxies := c.proxies + [p]))
    ensures NamesDistinct(c.proxies + [p]) <==> Normalized(p.name) !in NamesOf(c.proxies)
  {
    hide ConnectionValid, Normalized, PortsDistinct, NamesDistinct;
    AppendPortsDistinct(c.proxies, p, c.unifiedPort);
    AppendNamesDistinct(c.proxies, p);
  }
}
