/** The merged configuration does not depend on the order of the feed. */
module MergeOrder {
  import opened Text
  import opened ProxyConfig
  import opened SubscriptionMatch
  import opened SubscriptionOrder
  import opened FirstCome
  import opened SubscriptionMerge

  ghost predicate SortedByKey(ps: seq<Proxy>) {
    forall i, j :: 0 <= i < j < |ps| ==> StringLess(ps[i].key, ps[j].key)
  }

  ghost predicate KeysDistinct(ps: seq<Proxy>) {
    forall i, j :: 0 <= i < j < |ps| ==> ps[i].key != ps[j].key
  }

  lemma {:induction false} InsertKeepsSorted(p: Proxy, ps: seq<Proxy>)
    requires SortedByKey(ps) && forall q :: q in ps ==> q.key != p.key
    ensures SortedByKey(InsertByKey(p, ps))
  {
    hide StringLess;
    if ps != [] {
      var r := InsertByKey(p, ps);
      if StringLess(p.key, ps[0].key) {
        forall j | 1 <= j < |r| ensures StringLess(p.key, r[j].key) {
          if j > 1 { StringLessTransitive(p.key, ps[0].key, ps[j - 1].key); }
        }
      } else {
        assert ps[0] in ps;
        StringLessTotal(p.key, ps[0].key);
        assert forall q :: q in ps[1..] ==> q in ps;
        InsertKeepsSorted(p, ps[1..]);
        forall j | 1 <= j < |r| ensures StringLess(ps[0].key, r[j].key) {
          assert r[j] in r[1..] && r[1..] == InsertByKey(p, ps[1..]);
          if r[j] != p {
            var t :| 0 <= t < |ps[1..]| && ps[1..][t] == r[j];
            assert ps[t + 1] == r[j];
          }
        }
      }
    }
  }

  lemma {:induction false} SortSorts(ps: seq<Proxy>)
    requires KeysDistinct(ps)
    ensures SortedByKey(SortByKey(ps))
  {
    hide StringLess;
    if ps != [] {
      var front, last := ps[..|ps| - 1], ps[|ps| - 1];
      SortSorts(front);
      forall q | q in SortByKey(front) ensures q.key != last.key {
        assert q in front;
      }
      InsertKeepsSorted(last, SortByKey(front));
    }
  }

  lemma SameEmpty(a: seq<Proxy>, b: seq<Proxy>)
    requires SameElements(a, b)
    ensures a == [] <==> b == []
  {
    if a != [] { assert a[0] in b; }
    if b != [] { assert b[0] in a; }
  }

  /** A strictly sorted sequence is determined by its elements. */
  lemma {:induction false} SortedUnique(a: seq<Proxy>, b: seq<Proxy>)
    requires SortedByKey(a) && SortedByKey(b) && SameElements(a, b)
    ensures a == b
  {
    hide StringLess;
    SameEmpty(a, b);
    if a != [] {
      assert a[0] in b && b[0] in a;
      SortedFirst(a, b);
      SortedRest(a, b);
      SortedUnique(a[1..], b[1..]);
      assert a == [a[0]] + a[1..] && b == [b[0]] + b[1..];
    }
  }

  lemma SortedFirst(a: seq<Proxy>, b: seq<Proxy>)
    requires SortedByKey(a) && SortedByKey(b) && a != [] && b != [] && a[0] in b && b[0] in a
    ensures a[0] == b[0]
  {
    var i :| 0 <= i < |b| && b[i] == a[0];
    var j :| 0 <= j < |a| && a[j] == b[0];
    StringLessIrreflexive(a[0].key);
    if i > 0 && j > 0 {
      StringLessTransitive(a[0].key, b[0].key, a[0].key);
    }
  }

  lemma SortedRest(a: seq<Proxy>, b: seq<Proxy>)
    requires SortedByKey(a) && SortedByKey(b) && a != [] && b != [] && a[0] == b[0] && SameElements(a, b)
    ensures SortedByKey(a[1..]) && SortedByKey(b[1..]) && SameElements(a[1..], b[1..])
  {
    hide StringLess;
    StringLessIrreflexive(a[0].key);
    forall x ensures x in a[1..] <==> x in a && x != a[0] {
      TailOfSorted(a, x);
    }
    forall x ensures x in b[1..] <==> x in b && x != b[0] {
      TailOfSorted(b, x);
    }
  }

  lemma TailOfSorted(a: seq<Proxy>, x: Proxy)
    requires SortedByKey(a) && a != []
    ensures x in a[1..] <==> x in a && x != a[0]
  {
    hide StringLess;
    StringLessIrreflexive(a[0].key);
    if x in a && x != a[0] {
      var i :| 0 <= i < |a| && a[i] == x;
      assert a[1..][i - 1] == x;
    }
    if x in a[1..] {
      var i :| 0 <= i < |a[1..]| && a[1..][i] == x;
      assert a[i + 1] == x && StringLess(a[0].key, a[i + 1].key);
    }
  }

  lemma {:induction false} UnpairedDistinct(ps: seq<Proxy>, m: Pairing)
    requires KeysDistinct(ps)
    ensures KeysDistinct(Unpaired(ps, m))
  {
    if ps != [] {
      var front, last := ps[..|ps| - 1], ps[|ps| - 1];
      UnpairedDistinct(front, m);
      var r := Unpaired(front, m);
      forall i | 0 <= i < |r| ensures r[i].key != last.key {
        assert r[i] in front;
      }
    }
  }

  lemma AdditionsOrder(o: Oracle, ps: seq<Proxy>, ps': seq<Proxy>, m: Pairing)
    requires IsPrepared(o, ps) && IsPrepared(o, ps') && SameElements(ps, ps')
    ensures SortByKey(Unpaired(ps, m)) == SortByKey(Unpaired(ps', m))
  {
    hide SortedByKey, StringLess, Prepared;
    UnpairedDistinct(ps, m);
    UnpairedDistinct(ps', m);
    SortSorts(Unpaired(ps, m));
    SortSorts(Unpaired(ps', m));
    SortedUnique(SortByKey(Unpaired(ps, m)), SortByKey(Unpaired(ps', m)));
  }

  lemma PartnerUnique(o: Oracle, ps: seq<Proxy>, m: Pairing, i: nat, p: Proxy)
    requires IsPrepared(o, ps) && Injective(m) && IsPartner(ps, m, i, p)
    ensures Partner(ps, m, i) == Some(p)
  {
    hide Prepared, IsPrepared;
    PreparedKeysIdentify(o, ps, p, Partner(ps, m, i).value);
  }

  lemma PartnerOrder(o: Oracle, ps: seq<Proxy>, ps': seq<Proxy>, m: Pairing, i: nat)
    requires IsPrepared(o, ps) && IsPrepared(o, ps') && SameElements(ps, ps') && Injective(m)
    ensures Partner(ps, m, i) == Partner(ps', m, i)
  {
    hide IsPrepared, Injective;
    assert forall p :: IsPartner(ps, m, i, p) <==> IsPartner(ps', m, i, p);
    if Partner(ps, m, i).Some? {
      PartnerUnique(o, ps', m, i, Partner(ps, m, i).value);
    }
  }

  lemma {:induction false} KeptOrder(o: Oracle, nodes: seq<Proxy>, ps: seq<Proxy>, ps': seq<Proxy>, m: Pairing, urlChanged: bool, i: nat)
    requires IsPrepared(o, ps) && IsPrepared(o, ps') && SameElements(ps, ps') && Injective(m) && i <= |nodes|
    ensures Kept(nodes, ps, m, urlChanged, i) == Kept(nodes, ps', m, urlChanged, i)
    ensures Counted(nodes, ps, m, urlChanged, i) == Counted(nodes, ps', m, urlChanged, i)
  {
    hide IsPrepared, Injective, SameElements, Retained, Count;
    if i > 0 {
      KeptOrder(o, nodes, ps, ps', m, urlChanged, i - 1);
      PartnerOrder(o, ps, ps', m, i - 1);
    }
  }

  lemma PreparedOrder(o: Oracle, feed: seq<Proxy>, feed': seq<Proxy>)
    requires SameElements(feed, feed')
    ensures Prepare(o, feed).None? <==> Prepare(o, feed').None?
    ensures Prepare(o, feed).Some? ==> SameElements(Prepare(o, feed).value, Prepare(o, feed').value)
  {
    hide Prepared, Clash;
    PrepareIs(o, feed);
    PrepareIs(o, feed');
  }

  /** No two entries that the first pass leaves without a node want the same node in the second. */
  ghost predicate Uncontested(o: Oracle, c: Config, ps: seq<Proxy>, url: string) {
    var first := Stage(o, c.proxies, ps, AllowsLegacy(c, url), 1);
    UrlChanged(o, c, url) || first.None? || NoContest(Wishes(o, c.proxies, ps, AllowsLegacy(c, url), 1, first.value))
  }

  /** Permuting an uncontested feed, or repeating its entries, gives the same merged configuration and
      the same report, or the same failure. */
  lemma UncontestedFeedOrder(o: Oracle, c: Config, feed: seq<Proxy>, feed': seq<Proxy>, url: string)
    requires SameElements(feed, feed')
    requires Prepare(o, feed).Some? ==> Uncontested(o, c, Prepare(o, feed).value, url)
    ensures Merge(o, c, feed, url) == Merge(o, c, feed', url)
  {
    hide Prepare, Match, Assemble, Uncontested, IsPrepared;
    SameEmpty(feed, feed');
    if feed != [] {
      PreparedOrder(o, feed, feed');
      PrepareIs(o, feed);
      PrepareIs(o, feed');
      if Prepare(o, feed).Some? {
        MergeOrdered(o, c, Prepare(o, feed).value, Prepare(o, feed').value, url);
      }
    }
  }

  /** A feed is uncontested if no two entries share type, port and normalized name with both servers
      confirmed domains, and the hash does not collide on the identities compared. */
  lemma FeedOrder(o: Oracle, c: Config, feed: seq<Proxy>, feed': seq<Proxy>, url: string)
    requires SameElements(feed, feed')
    requires Prepare(o, feed).Some? ==>
      DomainsDistinct(o, Prepare(o, feed).value) && NoCollision(o, c.proxies, Prepare(o, feed).value)
    ensures Merge(o, c, feed, url) == Merge(o, c, feed', url)
  {
    hide Prepare, Merge, DomainsDistinct, NoCollision, NoCompetition, NoContest, Stage;
    if Prepare(o, feed).Some? {
      var ps, legacy := Prepare(o, feed).value, AllowsLegacy(c, url);
      NoCompetitionInside(o, c.proxies, ps, legacy);
      var first := Stage(o, c.proxies, ps, legacy, 1);
      if first.Some? { NoCompetitionNoContest(o, c.proxies, ps, legacy, 1, first.value); }
    }
    UncontestedFeedOrder(o, c, feed, feed', url);
  }

  lemma MergeOrdered(o: Oracle, c: Config, ps: seq<Proxy>, ps': seq<Proxy>, url: string)
    requires IsPrepared(o, ps) && IsPrepared(o, ps') && SameElements(ps, ps')
    requires Uncontested(o, c, ps, url)
    ensures PairingOf(o, c, ps, url) == PairingOf(o, c, ps', url)
    ensures PairingOf(o, c, ps, url).Some? ==>
      Assemble(o, c, ps, PairingOf(o, c, ps, url).value, url) == Assemble(o, c, ps', PairingOf(o, c, ps, url).value, url)
  {
    hide IsPrepared, SameElements, NoContest, Assemble, Injective, Stage;
    if !UrlChanged(o, c, url) {
      StageOrder(o, c.proxies, ps, ps', AllowsLegacy(c, url), 5);
    }
    if PairingOf(o, c, ps, url).Some? {
      PairingInjective(o, c, ps, url);
      AssembleOrder(o, c, ps, ps', PairingOf(o, c, ps, url).value, url);
    }
  }

  lemma AssembleOrder(o: Oracle, c: Config, ps: seq<Proxy>, ps': seq<Proxy>, m: Pairing, url: string)
    requires IsPrepared(o, ps) && IsPrepared(o, ps') && SameElements(ps, ps') && Injective(m)
    ensures Assemble(o, c, ps, m, url) == Assemble(o, c, ps', m, url)
  {
    hide IsPrepared, SameElements, Injective, Finish, Updated, Kept, Counted, Allocate, SortByKey, Unpaired, NamesOf, PortsOf;
    KeptOrder(o, c.proxies, ps, ps', m, UrlChanged(o, c, url), |c.proxies|);
    AdditionsOrder(o, ps, ps', m);
  }

  lemma PairingInjective(o: Oracle, c: Config, ps: seq<Proxy>, url: string)
    requires PairingOf(o, c, ps, url).Some?
    ensures Injective(PairingOf(o, c, ps, url).value)
  {
    hide Injective, Justified;
    EmptyInjective();
    if !UrlChanged(o, c, url) { StageKeeps(o, c.proxies, ps, AllowsLegacy(c, url), 5); }
  }
}
