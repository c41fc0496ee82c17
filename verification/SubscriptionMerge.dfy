/** Merging a feed into a configuration. */
module SubscriptionMerge {
  import opened Text
  import opened ProxyConfig
  import opened SubscriptionMatch

  datatype Reason =
    | NoUrl | NoEntries            // nothing to merge
    | DuplicateIdentity            // two entries of the feed share an identity
    | AmbiguousMatch               // an entry fits two nodes
    | NoPort                       // every local port from 10801 on is taken
    | NameConflict | Invalid       // the final checks

  datatype MergeResult = MergeResult(
    added: nat, updated: nat, missing: nat, removed: nat, changed: bool, runtimeChanged: bool)

  datatype Outcome = Merged(next: Config, result: MergeResult) | Failed(reason: Reason)

  // ---- what becomes of an existing node ----

  predicate RuntimeEqual(a: Proxy, b: Proxy) {
    a.(source := "", key := "", missing := 0) == b.(source := "", key := "", missing := 0)
  }

  /** A paired node takes everything from its entry but its local identity. */
  function Adopted(n: Proxy, p: Proxy): Proxy {
    p.(name := n.name, localPort := n.localPort, enabled := n.enabled)
  }

  /** Node x carries all the data of entry p. */
  predicate Carries(x: Proxy, p: Proxy) {
    && x.source == p.source && x.key == p.key && x.missing == p.missing
    && x.kind == p.kind && x.server == p.server && x.port == p.port
    && x.cipher == p.cipher && x.password == p.password && x.uuid == p.uuid && x.alterId == p.alterId
    && x.security == p.security && x.flow == p.flow && x.serverName == p.serverName && x.fingerprint == p.fingerprint
    && x.realityPublicKey == p.realityPublicKey && x.realityShortId == p.realityShortId && x.extra == p.extra
  }

  /** Node x has the local identity of node n. */
  predicate SameLocal(x: Proxy, n: Proxy) {
    x.name == n.name && x.localPort == n.localPort && x.enabled == n.enabled
  }

  lemma AdoptedIs(n: Proxy, p: Proxy)
    ensures Carries(Adopted(n, p), p) && SameLocal(Adopted(n, p), n)
    ensures forall x :: Carries(x, p) && SameLocal(x, n) ==> x == Adopted(n, p)
  {
  }

  function Retained(n: Proxy, partner: Option<Proxy>, urlChanged: bool): Option<Proxy> {
    if IsBundledExample(n) then None
    else if partner.Some? then Some(Adopted(n, partner.value))
    else if n.source != SUBSCRIPTION then Some(n)
    else if urlChanged || n.missing + 1 >= 2 then None
    else Some(n.(missing := n.missing + 1))
  }

  datatype Tally = Tally(updated: nat, missing: nat, removed: nat, runtime: bool)

  /** The counters after one more node. */
  function Count(t: Tally, n: Proxy, partner: Option<Proxy>, urlChanged: bool): Tally {
    if IsBundledExample(n) then t.(removed := t.removed + 1, runtime := true)
    else if partner.Some? then
      if n == Adopted(n, partner.value) then t
      else t.(updated := t.updated + 1, runtime := t.runtime || !RuntimeEqual(n, Adopted(n, partner.value)))
    else if n.source != SUBSCRIPTION then t
    else if urlChanged then t.(removed := t.removed + 1)
    else if n.missing + 1 >= 2 then t.(removed := t.removed + 1, runtime := true)
    else t.(missing := t.missing + 1)
  }

  ghost predicate IsPartner(ps: seq<Proxy>, m: Pairing, i: nat, p: Proxy) {
    p in ps && p.key in m && m[p.key] == i
  }

  /** The entry paired with node i. */
  ghost function Partner(ps: seq<Proxy>, m: Pairing, i: nat): (r: Option<Proxy>)
    ensures r.Some? ==> IsPartner(ps, m, i, r.value)
    ensures r.None? ==> forall p :: !IsPartner(ps, m, i, p)
  {
    if exists p :: IsPartner(ps, m, i, p) then
      var p :| IsPartner(ps, m, i, p);
      Some(p)
    else None
  }

  function AsSeq(r: Option<Proxy>): seq<Proxy> {
    if r.Some? then [r.value] else []
  }

  /** The nodes before index i that stay, in order. */
  ghost function Kept(nodes: seq<Proxy>, ps: seq<Proxy>, m: Pairing, urlChanged: bool, i: nat): seq<Proxy>
    requires i <= |nodes|
  {
    if i == 0 then []
    else Kept(nodes, ps, m, urlChanged, i - 1) + AsSeq(Retained(nodes[i - 1], Partner(ps, m, i - 1), urlChanged))
  }

  ghost function Counted(nodes: seq<Proxy>, ps: seq<Proxy>, m: Pairing, urlChanged: bool, i: nat): Tally
    requires i <= |nodes|
  {
    if i == 0 then Tally(0, 0, 0, false)
    else Count(Counted(nodes, ps, m, urlChanged, i - 1), nodes[i - 1], Partner(ps, m, i - 1), urlChanged)
  }

  // ---- what becomes of an entry without a node ----

  function Unpaired(ps: seq<Proxy>, m: Pairing): (r: seq<Proxy>)
    ensures forall p :: p in r <==> p in ps && p.key !in m
  {
    if ps == [] then []
    else
      var r := Unpaired(ps[..|ps| - 1], m);
      assert ps == ps[..|ps| - 1] + [ps[|ps| - 1]];
      if ps[|ps| - 1].key in m then r else r + [ps[|ps| - 1]]
  }

  function InsertByKey(p: Proxy, ps: seq<Proxy>): (r: seq<Proxy>)
    ensures forall q :: q in r <==> q == p || q in ps
  {
    if ps == [] || StringLess(p.key, ps[0].key) then [p] + ps
    else
      assert ps == [ps[0]] + ps[1..];
      [ps[0]] + InsertByKey(p, ps[1..])
  }

  /** sort.Slice by key; the keys are distinct, so any sorting algorithm gives this. */
  function SortByKey(ps: seq<Proxy>): (r: seq<Proxy>)
    ensures forall q :: q in r <==> q in ps
  {
    if ps == [] then []
    else
      assert ps == ps[..|ps| - 1] + [ps[|ps| - 1]];
      InsertByKey(ps[|ps| - 1], SortByKey(ps[..|ps| - 1]))
  }

  function BaseName(p: Proxy): string {
    if Trim(p.name) == "" then p.server else Trim(p.name)
  }

  function Tries(base: string, j: nat): set<string> {
    if j == 0 then {} else Tries(base, j - 1) + {Normalized(Numbered(base, j - 1))}
  }

  lemma {:induction false} TriesAre(base: string, j: nat)
    ensures |Tries(base, j)| == j
    ensures forall n :: n in Tries(base, j) ==> exists t: nat :: t < j && n == Normalized(Numbered(base, t))
  {
    hide Normalized, Numbered;
    if j > 0 {
      TriesAre(base, j - 1);
      forall t: nat | t < j - 1 ensures Normalized(Numbered(base, t)) != Normalized(Numbered(base, j - 1)) {
        NumberedDistinct(base, t, j - 1);
      }
    }
  }

  lemma {:induction false} SubsetSize<T>(a: set<T>, b: set<T>)
    requires a <= b
    ensures |a| <= |b|
  {
    if a != {} {
      var x :| x in a;
      SubsetSize(a - {x}, b - {x});
    }
  }

  /** If the first j tries are all taken there are at least j names. */
  lemma {:induction false} TriesBounded(names: set<string>, base: string, j: nat)
    requires forall t: nat :: t < j ==> Normalized(Numbered(base, t)) in names
    ensures j <= |names|
  {
    hide Normalized, Numbered;
    TriesAre(base, j);
    SubsetSize(Tries(base, j), names);
  }

  /** The suffix search of a new node's name; it ends within |names| + 1 tries. */
  function FreshIndex(names: set<string>, base: string, j: nat): (r: nat)
    requires forall t: nat :: t < j ==> Normalized(Numbered(base, t)) in names
    ensures j <= r <= |names| && Normalized(Numbered(base, r)) !in names
    ensures forall t: nat :: t < r ==> Normalized(Numbered(base, t)) in names
    decreases |names| - j
  {
    TriesBounded(names, base, j);
    if Normalized(Numbered(base, j)) in names then FreshIndex(names, base, j + 1) else j
  }

  const FIRST_PORT := 10801
  const LAST_PORT := 65535

  /** nextAvailablePort: the lowest free port from p on, or 0. */
  function FreePort(used: set<int>, p: int): (r: int)
    requires p > 0
    ensures r == 0 ==> forall q :: p <= q <= LAST_PORT ==> q in used
    ensures r != 0 ==> p <= r <= LAST_PORT && r !in used && forall q :: p <= q < r ==> q in used
    decreases LAST_PORT - p
  {
    if p > LAST_PORT then 0 else if p in used then FreePort(used, p + 1) else p
  }

  /** Names and ports for the new nodes, in order. */
  function Allocate(additions: seq<Proxy>, names: set<string>, ports: set<int>): Option<seq<Proxy>> {
    if additions == [] then Some([])
    else
      var p := additions[0];
      var name := Numbered(BaseName(p), FreshIndex(names, BaseName(p), 0));
      var port := FreePort(ports, FIRST_PORT);
      if port == 0 then None
      else
        var rest := Allocate(additions[1..], names + {Normalized(name)}, ports + {port});
        if rest.None? then None else Some([p.(name := name, localPort := port, enabled := true)] + rest.value)
  }

  function NamesOf(ps: seq<Proxy>): set<string> {
    set p | p in ps :: Normalized(p.name)
  }

  function PortsOf(ps: seq<Proxy>, unifiedPort: int): set<int> {
    (set p | p in ps && p.localPort > 0 :: p.localPort) + (if unifiedPort > 0 then {unifiedPort} else {})
  }

  // ---- the merge ----

  function SourceKey(o: Oracle, url: string): string { o.hash(url) }

  predicate UrlChanged(o: Oracle, c: Config, url: string) {
    c.sourceKey != "" && c.sourceKey != SourceKey(o, url)
  }

  predicate AllowsLegacy(c: Config, url: string) {
    !c.migrated && c.subscriptionUrl == url
  }

  ghost function PairingOf(o: Oracle, c: Config, ps: seq<Proxy>, url: string): Option<Pairing> {
    if UrlChanged(o, c, url) then Some(map[]) else Match(o, c.proxies, ps, AllowsLegacy(c, url))
  }

  ghost function Merge(o: Oracle, c: Config, feed: seq<Proxy>, url: string): Outcome {
    if url == "" then Failed(NoUrl)
    else if feed == [] then Failed(NoEntries)
    else
      match Prepare(o, feed)
      case None => Failed(DuplicateIdentity)
      case Some(ps) =>
        match PairingOf(o, c, ps, url)
        case None => Failed(AmbiguousMatch)
        case Some(m) => Assemble(o, c, ps, m, url)
  }

  /** The second half of the merge, once the pairing is known. */
  ghost function Assemble(o: Oracle, c: Config, ps: seq<Proxy>, m: Pairing, url: string): Outcome {
    var kept := Kept(c.proxies, ps, m, UrlChanged(o, c, url), |c.proxies|);
    var tally := Counted(c.proxies, ps, m, UrlChanged(o, c, url), |c.proxies|);
    match Allocate(SortByKey(Unpaired(ps, m)), NamesOf(kept), PortsOf(kept, c.unifiedPort))
    case None => Failed(NoPort)
    case Some(added) => Finish(c, Updated(o, c, kept + added, url), tally, |added|)
  }

  function Updated(o: Oracle, c: Config, proxies: seq<Proxy>, url: string): Config {
    c.(proxies := proxies, subscriptionUrl := url, migrated := true, sourceKey := SourceKey(o, url))
  }

  ghost function Finish(c: Config, next: Config, t: Tally, added: nat): Outcome {
    if !NamesDistinct(next.proxies) then Failed(NameConflict)
    else if !IsValid(next) then Failed(Invalid)
    else Merged(next, MergeResult(added, t.updated, t.missing, t.removed, c != next, t.runtime || added > 0))
  }
}
