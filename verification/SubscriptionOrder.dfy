/** What a pass computes, and when that depends on the order of the feed. */
module SubscriptionOrder {
  import opened Text
  import opened ProxyConfig
  import opened SubscriptionMatch
  import opened FirstCome

  /** No two entries of the feed can want the same node in this pass. */
  ghost predicate NoCompetition(o: Oracle, nodes: seq<Proxy>, ps: seq<Proxy>, legacy: bool, pass: nat) {
    forall p, q, i: nat
      | p in ps && q in ps && TakesPart(ps, pass, p) && TakesPart(ps, pass, q)
        && Fits(o, nodes, legacy, pass, p, i) && Fits(o, nodes, legacy, pass, q, i)
      :: p == q
  }

  /** The free nodes that each entry without one fits, given the pairing m before the pass. */
  ghost function Wishes(o: Oracle, nodes: seq<Proxy>, ps: seq<Proxy>, legacy: bool, pass: nat, m: Pairing): map<Proxy, set<nat>> {
    map p | p in ps && p.key !in m && TakesPart(ps, pass, p) :: Candidates(o, nodes, legacy, pass, p, m.Values)
  }

  lemma NoCompetitionNoContest(o: Oracle, nodes: seq<Proxy>, ps: seq<Proxy>, legacy: bool, pass: nat, m: Pairing)
    requires NoCompetition(o, nodes, ps, legacy, pass)
    ensures NoContest(Wishes(o, nodes, ps, legacy, pass, m))
  {
    hide Fits, TakesPart;
  }

  // ---- when a pass is free of competition ----

  lemma EqualIdentity(p: Proxy, q: Proxy)
    requires SameEndpoint(p, q) && NormalizedName(p) == NormalizedName(q)
    ensures Identity(p) == Identity(q)
  {
  }

  /** Competition is possible in the second pass only. */
  lemma NoCompetitionOutside(o: Oracle, nodes: seq<Proxy>, ps: seq<Proxy>, legacy: bool, pass: nat)
    requires IsPrepared(o, ps) && pass != 1 && pass < 5
    ensures NoCompetition(o, nodes, ps, legacy, pass)
  {
    hide NormalizedName, Identity;
    forall p, q, i: nat | p in ps && q in ps && TakesPart(ps, pass, p) && TakesPart(ps, pass, q)
      && Fits(o, nodes, legacy, pass, p, i) && Fits(o, nodes, legacy, pass, q, i)
      ensures p == q
    {
      if pass == 0 {
        PreparedKeysIdentify(o, ps, p, q);
      } else if pass == 2 {
        EqualIdentity(p, q);
        assert p.key == ProxyKey(o, p) && q.key == ProxyKey(o, q);
        PreparedKeysIdentify(o, ps, p, q);
      } else if pass == 3 {
        assert SameEndpoint(p, q);
      } else {
        assert SameName(p, q);
      }
    }
  }

  /** No two entries share type, port and normalized name with both servers confirmed domains. */
  ghost predicate DomainsDistinct(o: Oracle, ps: seq<Proxy>) {
    forall p, q
      | p in ps && q in ps && o.isConfirmedDomain(p.server) && o.isConfirmedDomain(q.server)
        && SameName(p, q) && p.port == q.port
      :: p == q
  }

  /** The hash does not confuse two entries moved to the server of an existing node. */
  ghost predicate NoCollision(o: Oracle, nodes: seq<Proxy>, ps: seq<Proxy>) {
    forall p, q, n :: p in ps && q in ps && n in nodes
      && ProxyKey(o, MovedTo(p, n.server)) == ProxyKey(o, MovedTo(q, n.server))
      ==> Identity(MovedTo(p, n.server)) == Identity(MovedTo(q, n.server))
  }

  lemma {:induction false} SplitAtBar(a: string, b: string, c: string, d: string)
    requires forall i :: 0 <= i < |a| ==> a[i] != '|'
    requires forall i :: 0 <= i < |b| ==> b[i] != '|'
    requires a + "|" + c == b + "|" + d
    ensures a == b && c == d
  {
    assert (a + "|" + c)[0] == (b + "|" + d)[0];
    if a != "" && b != "" {
      assert (a + "|" + c)[1..] == a[1..] + "|" + c && (b + "|" + d)[1..] == b[1..] + "|" + d;
      SplitAtBar(a[1..], b[1..], c, d);
      assert a == [a[0]] + a[1..] && b == [b[0]] + b[1..];
    } else {
      assert (a + "|" + c)[1..] == (b + "|" + d)[1..];
    }
  }

  /** Two entries moved to one server have the same identity only with the same port and name. */
  lemma MovedIdentity(p: Proxy, q: Proxy)
    requires p.kind == q.kind && p.server == q.server && Identity(p) == Identity(q)
    ensures p.port == q.port && NormalizedName(p) == NormalizedName(q)
  {
    hide NormalizedName;
    var head := p.kind + "|endpoint|" + Lower(p.server) + "|";
    var tail, tail' := "name|" + NormalizedName(p), "name|" + NormalizedName(q);
    var s, t := Itoa(p.port) + "|" + tail, Itoa(q.port) + "|" + tail';
    assert Identity(p) == head + s;
    assert Identity(q) == head + t;
    assert (head + s)[|head|..] == s && (head + t)[|head|..] == t;
    SplitAtBar(Itoa(p.port), Itoa(q.port), tail, tail');
    ItoaInjective(p.port, q.port);
    assert tail[5..] == NormalizedName(p) && tail'[5..] == NormalizedName(q);
  }

  lemma MovedProxy(o: Oracle, nodes: seq<Proxy>, ps: seq<Proxy>, p: Proxy, q: Proxy, n: Proxy)
    requires DomainsDistinct(o, ps) && NoCollision(o, nodes, ps) && p in ps && q in ps && n in nodes
    requires o.isConfirmedDomain(p.server) && o.isConfirmedDomain(q.server) && p.kind == q.kind
    requires ProxyKey(o, MovedTo(p, n.server)) == ProxyKey(o, MovedTo(q, n.server))
    ensures p == q
  {
    hide Identity, Normalized;
    MovedIdentity(MovedTo(p, n.server), MovedTo(q, n.server));
    assert SameName(p, q);
  }

  lemma NoCompetitionInside(o: Oracle, nodes: seq<Proxy>, ps: seq<Proxy>, legacy: bool)
    requires DomainsDistinct(o, ps) && NoCollision(o, nodes, ps)
    ensures NoCompetition(o, nodes, ps, legacy, 1)
  {
    hide ProxyKey, DomainsDistinct, NoCollision, IsBundledExample;
    forall p, q, i: nat | p in ps && q in ps
      && Fits(o, nodes, legacy, 1, p, i) && Fits(o, nodes, legacy, 1, q, i)
      ensures p == q
    {
      MovedProxy(o, nodes, ps, p, q, nodes[i]);
    }
  }

  // ---- what a pass computes ----

  ghost predicate Has(m: Pairing, k: string, i: nat) { k in m && m[k] == i }

  /** One of the first j entries has key k and is the first that wants node i. */
  ghost predicate Earns(w: map<Proxy, set<nat>>, ps: seq<Proxy>, j: nat, k: string, i: nat) {
    exists t: nat :: t < j && First(w, ps, t, i) && ps[t].key == k
  }

  /** Beyond the pairs of m, those of m' give each node to the first entry that wants it, as far as
      that is one of the first j. */
  ghost predicate Given(w: map<Proxy, set<nat>>, ps: seq<Proxy>, m: Pairing, j: nat, m': Pairing) {
    forall k, i: nat :: Has(m', k, i) <==> Has(m, k, i) || Earns(w, ps, j, k, i)
  }

  /** Nothing but the nodes wanted by the first j entries is used up. */
  ghost predicate Used(w: map<Proxy, set<nat>>, ps: seq<Proxy>, m: Pairing, j: nat, m': Pairing) {
    forall i: nat :: i in m'.Values <==> i in m.Values || WantedBefore(w, ps, j, i)
  }

  /** The pairing m' after a pass that began with m. */
  ghost predicate IsPass(w: map<Proxy, set<nat>>, ps: seq<Proxy>, m: Pairing, m': Pairing) {
    Given(w, ps, m, |ps|, m')
  }

  lemma PassBegins(w: map<Proxy, set<nat>>, ps: seq<Proxy>, m: Pairing)
    ensures Given(w, ps, m, 0, m) && Used(w, ps, m, 0, m)
  {
  }

  /** When its turn comes an entry without a node has exactly those left that it is the first to want. */
  lemma CandidatesLeft(o: Oracle, nodes: seq<Proxy>, ps: seq<Proxy>, legacy: bool, pass: nat, m: Pairing, j: nat, m': Pairing, i: nat)
    requires j < |ps| && ps[j].key !in m && TakesPart(ps, pass, ps[j])
    requires Used(Wishes(o, nodes, ps, legacy, pass, m), ps, m, j, m')
    ensures i in Candidates(o, nodes, legacy, pass, ps[j], m'.Values) <==> First(Wishes(o, nodes, ps, legacy, pass, m), ps, j, i)
  {
    hide Fits, TakesPart, WantedBefore;
    assert ps[j] in ps;
  }

  lemma NotYetPaired(w: map<Proxy, set<nat>>, o: Oracle, ps: seq<Proxy>, m: Pairing, j: nat, m': Pairing)
    requires IsPrepared(o, ps) && j < |ps| && Given(w, ps, m, j, m')
    ensures ps[j].key in m' <==> ps[j].key in m
  {
    hide First, Prepared;
    var k := ps[j].key;
    if k in m { assert Has(m', k, m[k]); }
    if k in m' { assert Has(m', k, m'[k]); }
  }

  lemma NothingEarned(w: map<Proxy, set<nat>>, ps: seq<Proxy>, m: Pairing, j: nat, m': Pairing)
    requires j < |ps| && Given(w, ps, m, j, m') && Used(w, ps, m, j, m')
    requires forall i: nat :: !First(w, ps, j, i)
    ensures Given(w, ps, m, j + 1, m') && Used(w, ps, m, j + 1, m')
  {
    hide Wants;
    forall k, i: nat ensures Earns(w, ps, j + 1, k, i) <==> Earns(w, ps, j, k, i) {
    }
    forall i: nat ensures WantedBefore(w, ps, j + 1, i) <==> WantedBefore(w, ps, j, i) {
      assert !First(w, ps, j, i);
    }
  }

  lemma NodeEarned(w: map<Proxy, set<nat>>, ps: seq<Proxy>, m: Pairing, j: nat, m': Pairing, i: nat)
    requires j < |ps| && Given(w, ps, m, j, m') && Used(w, ps, m, j, m') && ps[j].key !in m'
    requires forall x: nat :: First(w, ps, j, x) <==> x == i
    ensures Given(w, ps, m, j + 1, m'[ps[j].key := i]) && Used(w, ps, m, j + 1, m'[ps[j].key := i])
  {
    var m1 := m'[ps[j].key := i];
    EarnedGiven(w, ps, m, j, m', i);
    forall x: nat ensures x in m1.Values <==> x in m.Values || WantedBefore(w, ps, j + 1, x) {
      ValuesPlus(m', ps[j].key, i, x);
      assert First(w, ps, j, x) <==> x == i;
    }
  }

  lemma EarnedGiven(w: map<Proxy, set<nat>>, ps: seq<Proxy>, m: Pairing, j: nat, m': Pairing, i: nat)
    requires j < |ps| && Given(w, ps, m, j, m') && ps[j].key !in m'
    requires forall x: nat :: First(w, ps, j, x) <==> x == i
    ensures Given(w, ps, m, j + 1, m'[ps[j].key := i])
  {
    hide First;
    var m1 := m'[ps[j].key := i];
    forall k, x: nat ensures Has(m1, k, x) <==> Has(m, k, x) || Earns(w, ps, j + 1, k, x) {
      assert Has(m', k, x) <==> Has(m, k, x) || Earns(w, ps, j, k, x);
      assert First(w, ps, j, x) <==> x == i;
    }
  }

  lemma ValuesPlus(m: Pairing, k: string, i: nat, x: nat)
    requires k !in m
    ensures x in m[k := i].Values <==> x == i || x in m.Values
  {
    if x in m.Values {
      var l :| l in m && m[l] == x;
      assert m[k := i][l] == x;
    }
    if x == i { assert m[k := i][k] == x; }
  }

  /** Find in terms of the set it searches. */
  lemma FoundSeveral(o: Oracle, nodes: seq<Proxy>, legacy: bool, pass: nat, p: Proxy, used: set<nat>) returns (i: nat, j: nat)
    requires Find(o, nodes, legacy, pass, p, used).Several?
    ensures i != j && i in Candidates(o, nodes, legacy, pass, p, used) && j in Candidates(o, nodes, legacy, pass, p, used)
  {
    hide Fits, Candidates;
    var cs := Candidates(o, nodes, legacy, pass, p, used);
    i :| i in cs;
    assert cs != {i};
    j :| j in cs && j != i;
  }

  lemma {:induction false} PassFromIs(o: Oracle, nodes: seq<Proxy>, ps: seq<Proxy>, legacy: bool, pass: nat, m: Pairing, j: nat, m': Pairing)
    requires IsPrepared(o, ps) && j <= |ps|
    requires Given(Wishes(o, nodes, ps, legacy, pass, m), ps, m, j, m') && Used(Wishes(o, nodes, ps, legacy, pass, m), ps, m, j, m')
    ensures var w, x := Wishes(o, nodes, ps, legacy, pass, m), PassFrom(o, nodes, ps, legacy, pass, j, m');
      && (x.Some? <==> forall t: nat :: t >= j ==> !Overloaded(w, ps, t))
      && (x.Some? ==> IsPass(w, ps, m, x.value))
    decreases |ps| - j
  {
    hide Fits, TakesPart, Find, IsPrepared, Wishes, Given, Used, Candidates, First, Overloaded;
    var w := Wishes(o, nodes, ps, legacy, pass, m);
    if j == |ps| {
      forall t: nat | t >= j ensures !Overloaded(w, ps, t) { NoTurn(w, ps, t); }
    } else {
      NotYetPaired(w, o, ps, m, j, m');
      if ps[j].key in m' || !TakesPart(ps, pass, ps[j]) {
        NoWish(o, nodes, ps, legacy, pass, m, j);
        NothingEarned(w, ps, m, j, m');
        PassFromIs(o, nodes, ps, legacy, pass, m, j + 1, m');
      } else {
        TurnIs(o, nodes, ps, legacy, pass, m, j, m');
        var f := Find(o, nodes, legacy, pass, ps[j], m'.Values);
        if f.Nobody? {
          NothingEarned(w, ps, m, j, m');
          PassFromIs(o, nodes, ps, legacy, pass, m, j + 1, m');
        } else if f.One? {
          NodeEarned(w, ps, m, j, m', f.index);
          PassFromIs(o, nodes, ps, legacy, pass, m, j + 1, m'[ps[j].key := f.index]);
        }
      }
    }
  }

  lemma NoTurn(w: map<Proxy, set<nat>>, ps: seq<Proxy>, t: nat)
    requires t >= |ps|
    ensures !Overloaded(w, ps, t)
  {
  }

  lemma NoWish(o: Oracle, nodes: seq<Proxy>, ps: seq<Proxy>, legacy: bool, pass: nat, m: Pairing, j: nat)
    requires j < |ps| && (ps[j].key in m || !TakesPart(ps, pass, ps[j]))
    ensures var w := Wishes(o, nodes, ps, legacy, pass, m);
            (forall i: nat :: !First(w, ps, j, i)) && !Overloaded(w, ps, j)
  {
    hide Candidates, TakesPart, WantedBefore;
  }

  /** What the search finds when entry j has its turn. */
  lemma TurnIs(o: Oracle, nodes: seq<Proxy>, ps: seq<Proxy>, legacy: bool, pass: nat, m: Pairing, j: nat, m': Pairing)
    requires j < |ps| && ps[j].key !in m && TakesPart(ps, pass, ps[j])
    requires Used(Wishes(o, nodes, ps, legacy, pass, m), ps, m, j, m')
    ensures var w, f := Wishes(o, nodes, ps, legacy, pass, m), Find(o, nodes, legacy, pass, ps[j], m'.Values);
      && (f.Several? <==> Overloaded(w, ps, j))
      && (f.Nobody? ==> forall i: nat :: !First(w, ps, j, i))
      && (f.One? ==> forall i: nat :: First(w, ps, j, i) <==> i == f.index)
  {
    hide TakesPart, Wishes, Used, Candidates, First, Find;
    var w, f := Wishes(o, nodes, ps, legacy, pass, m), Find(o, nodes, legacy, pass, ps[j], m'.Values);
    forall i: nat ensures i in Candidates(o, nodes, legacy, pass, ps[j], m'.Values) <==> First(w, ps, j, i) {
      CandidatesLeft(o, nodes, ps, legacy, pass, m, j, m', i);
    }
    if f.Several? {
      var a, b := FoundSeveral(o, nodes, legacy, pass, ps[j], m'.Values);
      assert First(w, ps, j, a) && First(w, ps, j, b);
    }
  }

  /** A pass goes through exactly when no entry is the first to want two nodes, and then gives every free
      node to the first entry of the feed that wants it. */
  lemma PassIs(o: Oracle, nodes: seq<Proxy>, ps: seq<Proxy>, legacy: bool, pass: nat, m: Pairing)
    requires IsPrepared(o, ps)
    ensures var w, x := Wishes(o, nodes, ps, legacy, pass, m), PassFrom(o, nodes, ps, legacy, pass, 0, m);
      && (x.Some? <==> Serves(w, ps))
      && (x.Some? ==> forall k, i: nat :: Has(x.value, k, i) <==> Has(m, k, i) || Earns(w, ps, |ps|, k, i))
  {
    hide IsPrepared, Wishes, PassFrom, Overloaded, Earns, Has;
    PassBegins(Wishes(o, nodes, ps, legacy, pass, m), ps, m);
    PassFromIs(o, nodes, ps, legacy, pass, m, 0, m);
  }

  // ---- the order of the feed ----

  lemma TakesPartOrder(ps: seq<Proxy>, ps': seq<Proxy>, pass: nat, p: Proxy)
    requires SameElements(ps, ps')
    ensures TakesPart(ps, pass, p) <==> TakesPart(ps', pass, p)
  {
    hide SameEndpoint, SameName;
  }

  /** What the entries want does not depend on their order. */
  lemma WishesOrder(o: Oracle, nodes: seq<Proxy>, ps: seq<Proxy>, ps': seq<Proxy>, legacy: bool, pass: nat, m: Pairing)
    requires SameElements(ps, ps')
    ensures Wishes(o, nodes, ps, legacy, pass, m) == Wishes(o, nodes, ps', legacy, pass, m)
  {
    hide TakesPart, Candidates;
    forall p ensures TakesPart(ps, pass, p) <==> TakesPart(ps', pass, p) {
      TakesPartOrder(ps, ps', pass, p);
    }
  }

  function Elements(ps: seq<Proxy>): set<Proxy> { set p | p in ps }

  lemma WishesInside(o: Oracle, nodes: seq<Proxy>, ps: seq<Proxy>, legacy: bool, pass: nat, m: Pairing)
    ensures Wishes(o, nodes, ps, legacy, pass, m).Keys <= Elements(ps)
  {
    hide TakesPart, Candidates;
  }

  /** The orders of a prepared feed are the enumerations of its entries. */
  lemma OrdersEnumerate(o: Oracle, ps: seq<Proxy>, ps': seq<Proxy>)
    requires IsPrepared(o, ps)
    ensures IsPrepared(o, ps') && SameElements(ps, ps') <==> Enumerates(ps', Elements(ps))
  {
    hide Prepared;
    if Enumerates(ps', Elements(ps)) {
      forall i, j | 0 <= i < j < |ps'| ensures ps'[i].key != ps'[j].key {
        assert ps'[i] in ps' && ps'[j] in ps';
        if ps'[i].key == ps'[j].key { PreparedKeysIdentify(o, ps, ps'[i], ps'[j]); }
      }
    }
  }

  lemma SameEverywhere(a: Pairing, b: Pairing)
    requires forall k, i: nat :: Has(a, k, i) <==> Has(b, k, i)
    ensures a == b
  {
    forall k | k in a ensures k in b && b[k] == a[k] { assert Has(a, k, a[k]); }
    forall k | k in b ensures k in a { assert Has(b, k, b[k]); }
  }

  /** An entry that earns a node gets it. */
  lemma EarnsGets(w: map<Proxy, set<nat>>, o: Oracle, ps: seq<Proxy>, p: Proxy, i: nat)
    requires IsPrepared(o, ps) && p in ps
    ensures Earns(w, ps, |ps|, p.key, i) <==> Gets(w, ps, p, i)
  {
    hide Prepared;
    if Earns(w, ps, |ps|, p.key, i) {
      var t: nat :| t < |ps| && First(w, ps, t, i) && ps[t].key == p.key;
      PreparedKeysIdentify(o, ps, ps[t], p);
    }
    if t: nat :| First(w, ps, t, i) && ps[t] == p {
      assert t < |ps|;
    }
  }

  lemma EarnedInside(w: map<Proxy, set<nat>>, ps: seq<Proxy>, k: string, i: nat) returns (p: Proxy)
    requires Earns(w, ps, |ps|, k, i)
    ensures p in ps && p.key == k && Gets(w, ps, p, i)
  {
    var t: nat :| t < |ps| && First(w, ps, t, i) && ps[t].key == k;
    p := ps[t];
  }

  /** Two orders of the entries that serve them alike give the same pairing, or fail alike. */
  lemma SameServicePass(o: Oracle, nodes: seq<Proxy>, ps: seq<Proxy>, ps': seq<Proxy>, legacy: bool, pass: nat, m: Pairing)
    requires IsPrepared(o, ps) && IsPrepared(o, ps') && SameElements(ps, ps')
    requires SameService(Wishes(o, nodes, ps, legacy, pass, m), ps, ps')
    ensures PassFrom(o, nodes, ps, legacy, pass, 0, m) == PassFrom(o, nodes, ps', legacy, pass, 0, m)
  {
    hide Wishes, PassFrom, Earns, IsPrepared, Has, Serves, Gets;
    WishesOrder(o, nodes, ps, ps', legacy, pass, m);
    PassIs(o, nodes, ps, legacy, pass, m);
    PassIs(o, nodes, ps', legacy, pass, m);
    var w := Wishes(o, nodes, ps, legacy, pass, m);
    if Serves(w, ps) {
      forall k, i: nat ensures Earns(w, ps, |ps|, k, i) <==> Earns(w, ps', |ps'|, k, i) {
        if Earns(w, ps, |ps|, k, i) {
          var p := EarnedInside(w, ps, k, i);
          EarnsGets(w, o, ps', p, i);
        }
        if Earns(w, ps', |ps'|, k, i) {
          var p := EarnedInside(w, ps', k, i);
          EarnsGets(w, o, ps, p, i);
        }
      }
      SameEverywhere(PassFrom(o, nodes, ps, legacy, pass, 0, m).value, PassFrom(o, nodes, ps', legacy, pass, 0, m).value);
    }
  }

  lemma PassOrder(o: Oracle, nodes: seq<Proxy>, ps: seq<Proxy>, ps': seq<Proxy>, legacy: bool, pass: nat, m: Pairing)
    requires IsPrepared(o, ps) && IsPrepared(o, ps') && SameElements(ps, ps')
    requires NoContest(Wishes(o, nodes, ps, legacy, pass, m))
    ensures PassFrom(o, nodes, ps, legacy, pass, 0, m) == PassFrom(o, nodes, ps', legacy, pass, 0, m)
  {
    hide Wishes, PassFrom, IsPrepared, Serves, Gets, NoContest, Enumerates, SameElements, AnyStuck;
    var w := Wishes(o, nodes, ps, legacy, pass, m);
    WishesInside(o, nodes, ps, legacy, pass, m);
    SameElementsItself(ps);
    OrdersEnumerate(o, ps, ps);
    OrdersEnumerate(o, ps, ps');
    UncontestedOrder(w, ps, Elements(ps));
    UncontestedOrder(w, ps', Elements(ps));
    SameServicePass(o, nodes, ps, ps', legacy, pass, m);
  }

  lemma SameElementsItself(ps: seq<Proxy>)
    ensures SameElements(ps, ps)
  {
  }

  /** Feeds with the same entries are paired the same way, or are ambiguous in both orders. */
  lemma {:induction false} StageOrder(o: Oracle, nodes: seq<Proxy>, ps: seq<Proxy>, ps': seq<Proxy>, legacy: bool, pass: nat)
    requires IsPrepared(o, ps) && IsPrepared(o, ps') && SameElements(ps, ps')
    requires pass >= 2 && Stage(o, nodes, ps, legacy, 1).Some? ==> NoContest(Wishes(o, nodes, ps, legacy, 1, Stage(o, nodes, ps, legacy, 1).value))
    requires pass <= 5
    ensures Stage(o, nodes, ps, legacy, pass) == Stage(o, nodes, ps', legacy, pass)
  {
    hide NoCompetition, NoContest, IsPrepared, SameElements, PassFrom, Wishes;
    if pass > 0 {
      StageOrder(o, nodes, ps, ps', legacy, pass - 1);
      var before := Stage(o, nodes, ps, legacy, pass - 1);
      if pass - 1 != 1 && before.Some? {
        NoCompetitionOutside(o, nodes, ps, legacy, pass - 1);
        NoCompetitionNoContest(o, nodes, ps, legacy, pass - 1, before.value);
      }
      if before.Some? { PassOrder(o, nodes, ps, ps', legacy, pass - 1, before.value); }
    }
  }

  // ---- when the matching succeeds ----

  /** In no pass is an entry the first of the feed to want two free nodes, over the pairings before the
      passes. */
  ghost predicate AllServed(o: Oracle, nodes: seq<Proxy>, ps: seq<Proxy>, legacy: bool) {
    forall pass: nat :: pass < 5 && Stage(o, nodes, ps, legacy, pass).Some? ==>
      Serves(Wishes(o, nodes, ps, legacy, pass, Stage(o, nodes, ps, legacy, pass).value), ps)
  }

  lemma {:induction false} StagesGoThrough(o: Oracle, nodes: seq<Proxy>, ps: seq<Proxy>, legacy: bool, pass: nat)
    requires IsPrepared(o, ps) && AllServed(o, nodes, ps, legacy) && pass <= 5
    ensures Stage(o, nodes, ps, legacy, pass).Some?
  {
    hide IsPrepared, Wishes, Serves, PassFrom;
    if pass > 0 {
      StagesGoThrough(o, nodes, ps, legacy, pass - 1);
      PassIs(o, nodes, ps, legacy, pass - 1, Stage(o, nodes, ps, legacy, pass - 1).value);
    }
  }

  /** The matching succeeds exactly then, for every feed in every order. */
  lemma MatchSucceedsIff(o: Oracle, nodes: seq<Proxy>, ps: seq<Proxy>, legacy: bool)
    requires IsPrepared(o, ps)
    ensures Match(o, nodes, ps, legacy).Some? <==> AllServed(o, nodes, ps, legacy)
  {
    hide IsPrepared, Wishes, Serves, PassFrom, Stage;
    if AllServed(o, nodes, ps, legacy) {
      StagesGoThrough(o, nodes, ps, legacy, 5);
    }
    if Match(o, nodes, ps, legacy).Some? {
      forall pass: nat | pass < 5 && Stage(o, nodes, ps, legacy, pass).Some?
        ensures Serves(Wishes(o, nodes, ps, legacy, pass, Stage(o, nodes, ps, legacy, pass).value), ps)
      {
        StageExtends(o, nodes, ps, legacy, pass + 1, 5);
        NextStage(o, nodes, ps, legacy, pass);
        PassIs(o, nodes, ps, legacy, pass, Stage(o, nodes, ps, legacy, pass).value);
      }
    }
  }

  lemma NextStage(o: Oracle, nodes: seq<Proxy>, ps: seq<Proxy>, legacy: bool, pass: nat)
    requires Stage(o, nodes, ps, legacy, pass).Some?
    ensures Stage(o, nodes, ps, legacy, pass + 1) == PassFrom(o, nodes, ps, legacy, pass, 0, Stage(o, nodes, ps, legacy, pass).value)
  {
  }
}
