/**
  Pairing the entries of a feed with the nodes already configured: five passes of decreasing
  strength.  The functions of this module follow the passes in feed order; the lemmas say what the
  resulting pairing is, whatever that order.

  SHA-256, IP parsing and the pattern of confirmed domains are parameters: the lemmas hold for
  every choice of them, and say so where they need the hash to be free of collisions.
 */
module SubscriptionMatch {
  import opened Text
  import opened ProxyConfig

  datatype Oracle = Oracle(hash: string -> string, isIp: string -> bool, isConfirmedDomain: string -> bool)

  function NormalizedName(p: Proxy): string { Normalized(p.name) }

  /** The text whose hash identifies a feed entry. */
  function Identity(p: Proxy): string {
    p.kind + "|endpoint|" + Lower(p.server) + "|" + Itoa(p.port) + "|name|" + NormalizedName(p)
  }

  function ProxyKey(o: Oracle, p: Proxy): string { o.hash(Identity(p)) }

  predicate SameEndpoint(a: Proxy, b: Proxy) {
    a.kind == b.kind && Lower(a.server) == Lower(b.server) && a.port == b.port
  }

  predicate SameName(a: Proxy, b: Proxy) {
    a.kind == b.kind && NormalizedName(a) == NormalizedName(b)
  }

  /** The shipped placeholder node, whatever its local port and enabled flag. */
  predicate IsBundledExample(p: Proxy) {
    p.(enabled := false, localPort := 0) ==
    Proxy("", "", 0, "Example-Server", false, 0, "shadowsocks", "your-server.example.com", 8388,
          "aes-256-gcm", "your-password-here", "", 0, "", "", "", "", "", "", map[])
  }

  // ---- preparing a feed ----

  function Prepared(o: Oracle, p: Proxy): Proxy {
    p.(source := SUBSCRIPTION, key := ProxyKey(o, p), missing := 0, localPort := 0, enabled := true)
  }

  /** The distinct entries of a feed in order, or nothing when two entries share an identity
      without being equal. */
  function Prepare(o: Oracle, feed: seq<Proxy>): (r: Option<seq<Proxy>>) {
    if feed == [] then Some([])
    else
      var before := Prepare(o, feed[..|feed| - 1]);
      var p := Prepared(o, feed[|feed| - 1]);
      if before.None? then None
      else if p in before.value then before
      else if exists q :: q in before.value && q.key == p.key then None
      else Some(before.value + [p])
  }

  /** A prepared feed: tracked entries under their own keys, each key once. */
  ghost predicate IsPrepared(o: Oracle, ps: seq<Proxy>) {
    && (forall p :: p in ps ==> p == Prepared(o, p))
    && (forall i, j :: 0 <= i < j < |ps| ==> ps[i].key != ps[j].key)
  }

  ghost predicate SameElements<T(!new)>(a: seq<T>, b: seq<T>) {
    forall x :: x in a <==> x in b
  }

  /** Two entries of a feed with one identity and different contents. */
  ghost predicate Clash(o: Oracle, f: Proxy, g: Proxy) {
    ProxyKey(o, f) == ProxyKey(o, g) && Prepared(o, f) != Prepared(o, g)
  }

  ghost predicate Clashes(o: Oracle, feed: seq<Proxy>) {
    exists f, g :: f in feed && g in feed && Clash(o, f, g)
  }

  /** ps holds exactly the prepared entries of the feed. */
  ghost predicate Covers(o: Oracle, ps: seq<Proxy>, feed: seq<Proxy>) {
    && (forall f :: f in feed ==> Prepared(o, f) in ps)
    && (forall p :: p in ps ==> exists f :: f in feed && p == Prepared(o, f))
  }

  /** Preparing fails exactly on a clash, and otherwise keeps exactly the entries of the feed. */
  lemma {:induction false} PrepareIs(o: Oracle, feed: seq<Proxy>)
    ensures Prepare(o, feed).Some? ==>
      IsPrepared(o, Prepare(o, feed).value) && Covers(o, Prepare(o, feed).value, feed)
    ensures Prepare(o, feed).None? <==> Clashes(o, feed)
  {
    hide Covers, Clashes, IsPrepared, Prepared, ProxyKey;
    if feed == [] {
      assert Prepare(o, feed) == Some([]);
      NothingPrepared(o);
    } else {
      hide Prepare;
      PrepareIs(o, feed[..|feed| - 1]);
      assert feed == feed[..|feed| - 1] + [feed[|feed| - 1]];
      PrepareOneMore(o, feed[..|feed| - 1], feed[|feed| - 1]);
    }
  }

  lemma PrepareOneMore(o: Oracle, front: seq<Proxy>, last: Proxy)
    requires Prepare(o, front).Some? ==> IsPrepared(o, Prepare(o, front).value) && Covers(o, Prepare(o, front).value, front)
    requires Prepare(o, front).None? ==> Clashes(o, front)
    ensures var r, feed := Prepare(o, front + [last]), front + [last];
            (r.Some? ==> IsPrepared(o, r.value) && Covers(o, r.value, feed) && !Clashes(o, feed)) && (r.None? ==> Clashes(o, feed))
  {
    hide Covers, Clashes, IsPrepared, Prepared, ProxyKey;
    assert (front + [last])[..|front|] == front;
    if Prepare(o, front).None? {
      ClashesLonger(o, front, last);
    } else {
      PrepareStep(o, front, last, Prepare(o, front).value);
    }
  }

  lemma NothingPrepared(o: Oracle)
    ensures IsPrepared(o, []) && Covers(o, [], []) && !Clashes(o, [])
  {
  }

  lemma PrepareStep(o: Oracle, front: seq<Proxy>, last: Proxy, ps: seq<Proxy>)
    requires IsPrepared(o, ps) && Covers(o, ps, front)
    ensures var p, feed := Prepared(o, last), front + [last];
      if p in ps then IsPrepared(o, ps) && Covers(o, ps, feed) && !Clashes(o, feed)
      else if exists q :: q in ps && q.key == p.key then Clashes(o, feed)
      else IsPrepared(o, ps + [p]) && Covers(o, ps + [p], feed) && !Clashes(o, feed)
  {
    hide Covers, Clashes, IsPrepared, Prepared, ProxyKey;
    var feed := front + [last];
    if Prepared(o, last) in ps {
      CoversRepeat(o, front, last, ps);
      NoClash(o, feed, ps);
    } else if exists q :: q in ps && q.key == Prepared(o, last).key {
      PrepareClash(o, front, last, ps);
    } else {
      PrepareExtend(o, ps, Prepared(o, last)) by { PreparedTwice(o, last); }
      CoversExtend(o, front, last, ps);
      NoClash(o, feed, ps + [Prepared(o, last)]);
    }
  }

  lemma PreparedTwice(o: Oracle, p: Proxy)
    ensures Prepared(o, Prepared(o, p)) == Prepared(o, p)
  {
  }

  lemma ClashesLonger(o: Oracle, front: seq<Proxy>, last: Proxy)
    requires Clashes(o, front)
    ensures Clashes(o, front + [last])
  {
    hide Clash;
    var f, g :| f in front && g in front && Clash(o, f, g);
    assert f in front + [last] && g in front + [last];
  }

  lemma NoClash(o: Oracle, feed: seq<Proxy>, ps: seq<Proxy>)
    requires IsPrepared(o, ps) && Covers(o, ps, feed)
    ensures !Clashes(o, feed)
  {
    hide ProxyKey;
    forall f, g | f in feed && g in feed && ProxyKey(o, f) == ProxyKey(o, g)
      ensures Prepared(o, f) == Prepared(o, g)
    {
      PreparedKeysIdentify(o, ps, Prepared(o, f), Prepared(o, g));
    }
  }

  lemma CoversRepeat(o: Oracle, front: seq<Proxy>, last: Proxy, ps: seq<Proxy>)
    requires Covers(o, ps, front) && Prepared(o, last) in ps
    ensures Covers(o, ps, front + [last])
  {
    hide Prepared;
  }

  lemma CoversExtend(o: Oracle, front: seq<Proxy>, last: Proxy, ps: seq<Proxy>)
    requires Covers(o, ps, front)
    ensures Covers(o, ps + [Prepared(o, last)], front + [last])
  {
    hide Prepared;
    assert last in front + [last];
  }

  lemma PrepareClash(o: Oracle, front: seq<Proxy>, last: Proxy, ps: seq<Proxy>)
    requires IsPrepared(o, ps) && Covers(o, ps, front) && Prepared(o, last) !in ps
    requires exists q :: q in ps && q.key == Prepared(o, last).key
    ensures Clashes(o, front + [last])
  {
    hide ProxyKey;
    var q :| q in ps && q.key == Prepared(o, last).key;
    var f :| f in front && q == Prepared(o, f);
    assert Clash(o, f, last) && f in front + [last] && last in front + [last];
  }

  lemma PrepareExtend(o: Oracle, ps: seq<Proxy>, p: Proxy)
    requires IsPrepared(o, ps) && p == Prepared(o, p) && !exists q :: q in ps && q.key == p.key
    ensures IsPrepared(o, ps + [p])
  {
    hide ProxyKey, Prepared;
    forall i, j | 0 <= i < j < |ps + [p]| ensures (ps + [p])[i].key != (ps + [p])[j].key {
      assert ps[i] in ps;
    }
  }

  lemma PreparedKeysIdentify(o: Oracle, ps: seq<Proxy>, p: Proxy, q: Proxy)
    requires IsPrepared(o, ps) && p in ps && q in ps && p.key == q.key
    ensures p == q
  {
    var i :| 0 <= i < |ps| && ps[i] == p;
    var j :| 0 <= j < |ps| && ps[j] == q;
  }

  // ---- one pass ----

  /** The entry as it would be under the server of an existing node. */
  function MovedTo(p: Proxy, server: string): Proxy { p.(server := server) }

  /** The rule of a pass for an incoming entry p and an existing node n. */
  predicate Rule(o: Oracle, pass: nat, n: Proxy, p: Proxy) {
    match pass
    case 0 => n.source == SUBSCRIPTION && n.key == p.key
    case 1 =>
      && n.source == SUBSCRIPTION && n.kind == "vless" && p.kind == "vless"
      && o.isIp(n.server) && o.isConfirmedDomain(p.server)
      && n.key == ProxyKey(o, MovedTo(p, n.server))
    case 2 => SameEndpoint(n, p) && NormalizedName(n) == NormalizedName(p)
    case 3 => SameEndpoint(n, p)
    case _ => SameName(n, p) && NormalizedName(n) != ""
  }

  /** Node i may be given to entry p in this pass if it is still free. */
  predicate Fits(o: Oracle, nodes: seq<Proxy>, legacy: bool, pass: nat, p: Proxy, i: nat) {
    && i < |nodes|
    && !IsBundledExample(nodes[i])
    && (nodes[i].source == SUBSCRIPTION || (legacy && nodes[i].source == ""))
    && Rule(o, pass, nodes[i], p)
  }

  /** In the last two passes an entry takes part only if no other entry of the feed shares the
      endpoint, respectively the name. */
  ghost predicate TakesPart(ps: seq<Proxy>, pass: nat, p: Proxy) {
    && (pass == 3 ==> forall q :: q in ps && SameEndpoint(q, p) ==> q == p)
    && (pass == 4 ==> forall q :: q in ps && SameName(q, p) ==> q == p)
  }

  function Candidates(o: Oracle, nodes: seq<Proxy>, legacy: bool, pass: nat, p: Proxy, used: set<nat>): set<nat> {
    set i: nat | i < |nodes| && Fits(o, nodes, legacy, pass, p, i) && i !in used
  }

  datatype Found = Nobody | One(index: nat) | Several

  ghost function Find(o: Oracle, nodes: seq<Proxy>, legacy: bool, pass: nat, p: Proxy, used: set<nat>): (r: Found)
    ensures r.Nobody? <==> Candidates(o, nodes, legacy, pass, p, used) == {}
    ensures r.One? ==> Candidates(o, nodes, legacy, pass, p, used) == {r.index}
    ensures r.Several? ==> forall i :: Candidates(o, nodes, legacy, pass, p, used) != {i}
  {
    var cs := Candidates(o, nodes, legacy, pass, p, used);
    if cs == {} then Nobody
    else if exists i :: cs == {i} then
      var i :| cs == {i};
      One(i)
    else Several
  }

  /** The pairing so far: from the key of an entry to the index of its node. */
  type Pairing = map<string, nat>

  /** One pass over the entries from index j on; None is an ambiguous match. */
  ghost function PassFrom(o: Oracle, nodes: seq<Proxy>, ps: seq<Proxy>, legacy: bool, pass: nat, j: nat, m: Pairing): Option<Pairing>
    decreases |ps| - j
  {
    if j >= |ps| then Some(m)
    else if ps[j].key in m || !TakesPart(ps, pass, ps[j]) then PassFrom(o, nodes, ps, legacy, pass, j + 1, m)
    else
      match Find(o, nodes, legacy, pass, ps[j], m.Values)
      case Several => None
      case Nobody => PassFrom(o, nodes, ps, legacy, pass, j + 1, m)
      case One(i) => PassFrom(o, nodes, ps, legacy, pass, j + 1, m[ps[j].key := i])
  }

  /** The pairing after the passes before `pass`. */
  ghost function Stage(o: Oracle, nodes: seq<Proxy>, ps: seq<Proxy>, legacy: bool, pass: nat): Option<Pairing> {
    if pass == 0 then Some(map[])
    else
      var before := Stage(o, nodes, ps, legacy, pass - 1);
      if before.None? then None else PassFrom(o, nodes, ps, legacy, pass - 1, 0, before.value)
  }

  ghost function Match(o: Oracle, nodes: seq<Proxy>, ps: seq<Proxy>, legacy: bool): Option<Pairing> {
    Stage(o, nodes, ps, legacy, 5)
  }

  // ---- the pairing is a partial injection of tracked nodes ----

  ghost predicate Injective(m: Pairing) {
    forall k, l :: k in m && l in m && m[k] == m[l] ==> k == l
  }

  /** Every pair was allowed by the rule of some pass before `pass`. */
  ghost predicate Justified(o: Oracle, nodes: seq<Proxy>, ps: seq<Proxy>, legacy: bool, pass: nat, m: Pairing) {
    forall k :: k in m ==> exists p, q: nat ::
      p in ps && p.key == k && q < pass && TakesPart(ps, q, p) && Fits(o, nodes, legacy, q, p, m[k])
  }

  ghost predicate Extends(m: Pairing, m': Pairing) {
    forall k :: k in m ==> k in m' && m'[k] == m[k]
  }

  lemma {:induction false} PassKeeps(o: Oracle, nodes: seq<Proxy>, ps: seq<Proxy>, legacy: bool, pass: nat, j: nat, m: Pairing)
    requires Injective(m) && Justified(o, nodes, ps, legacy, pass + 1, m)
    requires PassFrom(o, nodes, ps, legacy, pass, j, m).Some?
    ensures var m' := PassFrom(o, nodes, ps, legacy, pass, j, m).value;
            Injective(m') && Justified(o, nodes, ps, legacy, pass + 1, m') && Extends(m, m')
    decreases |ps| - j
  {
    hide Fits, TakesPart, Candidates, Injective, Justified;
    if j < |ps| {
      if ps[j].key in m || !TakesPart(ps, pass, ps[j]) || Find(o, nodes, legacy, pass, ps[j], m.Values).Nobody? {
        PassKeeps(o, nodes, ps, legacy, pass, j + 1, m);
      } else {
        var i := Find(o, nodes, legacy, pass, ps[j], m.Values).index;
        AddPair(o, nodes, ps, legacy, pass, j, m, i);
        PassKeeps(o, nodes, ps, legacy, pass, j + 1, m[ps[j].key := i]);
      }
    }
  }

  lemma AddPair(o: Oracle, nodes: seq<Proxy>, ps: seq<Proxy>, legacy: bool, pass: nat, j: nat, m: Pairing, i: nat)
    requires Injective(m) && Justified(o, nodes, ps, legacy, pass + 1, m)
    requires j < |ps| && ps[j].key !in m && TakesPart(ps, pass, ps[j])
    requires i in Candidates(o, nodes, legacy, pass, ps[j], m.Values)
    ensures Injective(m[ps[j].key := i]) && Justified(o, nodes, ps, legacy, pass + 1, m[ps[j].key := i])
    ensures Extends(m, m[ps[j].key := i])
  {
    hide Fits, TakesPart;
    assert Fits(o, nodes, legacy, pass, ps[j], i);
  }

  lemma {:induction false} StageKeeps(o: Oracle, nodes: seq<Proxy>, ps: seq<Proxy>, legacy: bool, pass: nat)
    requires Stage(o, nodes, ps, legacy, pass).Some?
    ensures var m := Stage(o, nodes, ps, legacy, pass).value;
            Injective(m) && Justified(o, nodes, ps, legacy, pass, m)
  {
    hide Fits, TakesPart, Injective;
    if pass > 0 {
      StageKeeps(o, nodes, ps, legacy, pass - 1);
      var m := Stage(o, nodes, ps, legacy, pass - 1).value;
      PassKeeps(o, nodes, ps, legacy, pass - 1, 0, m);
    } else {
      EmptyInjective();
    }
  }

  lemma EmptyInjective()
    ensures Injective(map[])
  {
  }

  lemma {:induction false} StageExtends(o: Oracle, nodes: seq<Proxy>, ps: seq<Proxy>, legacy: bool, q: nat, pass: nat)
    requires q <= pass && Stage(o, nodes, ps, legacy, pass).Some?
    ensures Stage(o, nodes, ps, legacy, q).Some?
    ensures Extends(Stage(o, nodes, ps, legacy, q).value, Stage(o, nodes, ps, legacy, pass).value)
    decreases pass
  {
    hide Fits, TakesPart, Injective, Justified;
    if q < pass {
      StageExtends(o, nodes, ps, legacy, q, pass - 1);
      StageKeeps(o, nodes, ps, legacy, pass - 1);
      JustifiedLater(o, nodes, ps, legacy, pass - 1, Stage(o, nodes, ps, legacy, pass - 1).value);
      PassKeeps(o, nodes, ps, legacy, pass - 1, 0, Stage(o, nodes, ps, legacy, pass - 1).value);
    }
  }

  lemma JustifiedLater(o: Oracle, nodes: seq<Proxy>, ps: seq<Proxy>, legacy: bool, pass: nat, m: Pairing)
    requires Justified(o, nodes, ps, legacy, pass, m)
    ensures Justified(o, nodes, ps, legacy, pass + 1, m)
  {
    hide Fits, TakesPart;
  }

  // ---- no blocking pair ----

  /** After its turn in a pass an unpaired entry has no free node left. */
  lemma {:induction false} PassLeavesNone(o: Oracle, nodes: seq<Proxy>, ps: seq<Proxy>, legacy: bool, pass: nat, j: nat, m: Pairing, t: nat, i: nat)
    requires Injective(m) && Justified(o, nodes, ps, legacy, pass + 1, m)
    requires PassFrom(o, nodes, ps, legacy, pass, j, m).Some?
    requires j <= t < |ps| && TakesPart(ps, pass, ps[t]) && Fits(o, nodes, legacy, pass, ps[t], i)
    ensures var m' := PassFrom(o, nodes, ps, legacy, pass, j, m).value;
            ps[t].key in m' || i in m'.Values
    decreases |ps| - j
  {
    hide Fits, TakesPart, Candidates, Injective, Justified;
    PassKeeps(o, nodes, ps, legacy, pass, j, m);
    if i in m.Values {
      StaysUsed(m, PassFrom(o, nodes, ps, legacy, pass, j, m).value, i);
    } else if ps[t].key !in m {
      if ps[j].key in m || !TakesPart(ps, pass, ps[j]) {
        PassLeavesNone(o, nodes, ps, legacy, pass, j + 1, m, t, i);
      } else {
        FreeIsCandidate(o, nodes, legacy, pass, ps[t], i, m.Values);
        var f := Find(o, nodes, legacy, pass, ps[j], m.Values);
        if f.Nobody? {
          PassLeavesNone(o, nodes, ps, legacy, pass, j + 1, m, t, i);
        } else {
          AddPair(o, nodes, ps, legacy, pass, j, m, f.index);
          PassKeeps(o, nodes, ps, legacy, pass, j + 1, m[ps[j].key := f.index]);
          if j < t {
            PassLeavesNone(o, nodes, ps, legacy, pass, j + 1, m[ps[j].key := f.index], t, i);
          }
        }
      }
    }
  }

  lemma StaysUsed(m: Pairing, m': Pairing, i: nat)
    requires Extends(m, m') && i in m.Values
    ensures i in m'.Values
  {
    var k :| k in m && m[k] == i;
    assert m'[k] == i;
  }

  lemma FreeIsCandidate(o: Oracle, nodes: seq<Proxy>, legacy: bool, pass: nat, p: Proxy, i: nat, used: set<nat>)
    requires Fits(o, nodes, legacy, pass, p, i) && i !in used
    ensures i in Candidates(o, nodes, legacy, pass, p, used)
  {
  }

  /** The pairing is stable: no entry and node satisfy the rule of a pass while both end up unpaired
      or paired only by a later pass. */
  lemma NoBlockingPair(o: Oracle, nodes: seq<Proxy>, ps: seq<Proxy>, legacy: bool, pass: nat, p: Proxy, i: nat)
    requires Match(o, nodes, ps, legacy).Some? && pass < 5
    requires p in ps && TakesPart(ps, pass, p) && Fits(o, nodes, legacy, pass, p, i)
    ensures Injective(Match(o, nodes, ps, legacy).value)
    ensures Justified(o, nodes, ps, legacy, 5, Match(o, nodes, ps, legacy).value)
    ensures Stage(o, nodes, ps, legacy, pass + 1).Some?
    ensures Extends(Stage(o, nodes, ps, legacy, pass + 1).value, Match(o, nodes, ps, legacy).value)
    ensures p.key in Stage(o, nodes, ps, legacy, pass + 1).value || i in Stage(o, nodes, ps, legacy, pass + 1).value.Values
  {
    hide Fits, TakesPart, Injective, Justified, Extends;
    StageKeeps(o, nodes, ps, legacy, 5);
    StageExtends(o, nodes, ps, legacy, pass + 1, 5);
    StageExtends(o, nodes, ps, legacy, pass, 5);
    StageKeeps(o, nodes, ps, legacy, pass);
    JustifiedLater(o, nodes, ps, legacy, pass, Stage(o, nodes, ps, legacy, pass).value);
    var t :| 0 <= t < |ps| && ps[t] == p;
    PassLeavesNone(o, nodes, ps, legacy, pass, 0, Stage(o, nodes, ps, legacy, pass).value, t, i);
  }
}
