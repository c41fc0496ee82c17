/** What happens when entries compete for a node, and when the order of the feed matters. */
module MergeCompetition {
  import opened Text
  import opened ProxyConfig
  import opened SubscriptionMatch
  import opened SubscriptionOrder
  import opened FirstCome
  import opened SubscriptionMerge
  import opened MergeOrder
  import opened MergeValidity
  import opened MergePreservation

  // ---- the entry that comes first gets the node ----

  /** The second pass starts from m. */
  ghost predicate SecondPass(o: Oracle, nodes: seq<Proxy>, ps: seq<Proxy>, legacy: bool, m: Pairing) {
    IsPrepared(o, ps) && Stage(o, nodes, ps, legacy, 1) == Some(m)
  }

  lemma SecondPassIs(o: Oracle, nodes: seq<Proxy>, ps: seq<Proxy>, legacy: bool, m: Pairing)
    requires SecondPass(o, nodes, ps, legacy, m)
    ensures Stage(o, nodes, ps, legacy, 2) == PassFrom(o, nodes, ps, legacy, 1, 0, m)
    ensures Stage(o, nodes, ps, legacy, 2).Some? <==> Serves(Wishes(o, nodes, ps, legacy, 1, m), ps)
  {
    hide PassFrom, Wishes, Serves, IsPrepared;
    NextStage(o, nodes, ps, legacy, 1);
    PassIs(o, nodes, ps, legacy, 1, m);
  }

  lemma FirstEntryWins(o: Oracle, nodes: seq<Proxy>, ps: seq<Proxy>, legacy: bool, m: Pairing, i: nat)
    requires SecondPass(o, nodes, ps, legacy, m) && ps != [] && Wants(Wishes(o, nodes, ps, legacy, 1, m), ps[0], i)
    requires Stage(o, nodes, ps, legacy, 2).Some?
    ensures var x := Stage(o, nodes, ps, legacy, 2).value; ps[0].key in x && x[ps[0].key] == i
  {
    hide PassFrom, Wishes, Wants, Serves, IsPrepared, Stage;
    SecondPassIs(o, nodes, ps, legacy, m);
    PassIs(o, nodes, ps, legacy, 1, m);
    assert First(Wishes(o, nodes, ps, legacy, 1, m), ps, 0, i);
    assert Has(Stage(o, nodes, ps, legacy, 2).value, ps[0].key, i);
  }

  // ---- when the order matters ----

  lemma SecondPassOrder(o: Oracle, nodes: seq<Proxy>, ps: seq<Proxy>, ps': seq<Proxy>, legacy: bool, m: Pairing)
    requires SecondPass(o, nodes, ps, legacy, m) && IsPrepared(o, ps') && SameElements(ps, ps')
    ensures SecondPass(o, nodes, ps', legacy, m)
    ensures Wishes(o, nodes, ps', legacy, 1, m) == Wishes(o, nodes, ps, legacy, 1, m)
  {
    hide Stage, Wishes, IsPrepared, SameElements;
    StageOrder(o, nodes, ps, ps', legacy, 1);
    WishesOrder(o, nodes, ps, ps', legacy, 1, m);
  }

  /** Every order of the entries gives the same pairing after the second pass, or fails. */
  ghost predicate OrderFree(o: Oracle, nodes: seq<Proxy>, ps: seq<Proxy>, legacy: bool) {
    forall ps' :: IsPrepared(o, ps') && SameElements(ps, ps') ==> Stage(o, nodes, ps', legacy, 2) == Stage(o, nodes, ps, legacy, 2)
  }

  /** The second pass is the only one that can depend on the order of the feed.  It does not exactly when
      no two entries without a node want the same free node, or when some entries jam, so that it fails
      on every order. */
  lemma OrderFreeIff(o: Oracle, nodes: seq<Proxy>, ps: seq<Proxy>, legacy: bool, m: Pairing)
    requires SecondPass(o, nodes, ps, legacy, m)
    ensures var w := Wishes(o, nodes, ps, legacy, 1, m); OrderFree(o, nodes, ps, legacy) <==> NoContest(w) || Jammed(w)
  {
    hide Stage, NoContest, Jammed, Wishes, IsPrepared, SameElements, SameService, Enumerates;
    var w := Wishes(o, nodes, ps, legacy, 1, m);
    WishesInside(o, nodes, ps, legacy, 1, m);
    OrdersAgreeIff(w, Elements(ps));
    SameElementsItself(ps);
    OrdersEnumerate(o, ps, ps);
    forall a, b | Enumerates(a, Elements(ps)) && Enumerates(b, Elements(ps))
      ensures SameService(w, a, b) <==> Stage(o, nodes, a, legacy, 2) == Stage(o, nodes, b, legacy, 2)
    {
      OrdersEnumerate(o, ps, a);
      OrdersEnumerate(o, ps, b);
      SameServiceIff(o, nodes, ps, a, b, legacy, m);
    }
    forall ps' ensures IsPrepared(o, ps') && SameElements(ps, ps') <==> Enumerates(ps', Elements(ps)) {
      OrdersEnumerate(o, ps, ps');
    }
  }

  lemma SameServiceIff(o: Oracle, nodes: seq<Proxy>, ps: seq<Proxy>, a: seq<Proxy>, b: seq<Proxy>, legacy: bool, m: Pairing)
    requires SecondPass(o, nodes, ps, legacy, m)
    requires IsPrepared(o, a) && SameElements(ps, a) && IsPrepared(o, b) && SameElements(ps, b)
    ensures SameService(Wishes(o, nodes, ps, legacy, 1, m), a, b) <==> Stage(o, nodes, a, legacy, 2) == Stage(o, nodes, b, legacy, 2)
  {
    hide Stage, Wishes, IsPrepared, SameService, PassFrom;
    SecondPassOrder(o, nodes, ps, a, legacy, m);
    SecondPassOrder(o, nodes, ps, b, legacy, m);
    SecondPassIs(o, nodes, a, legacy, m);
    SecondPassIs(o, nodes, b, legacy, m);
    assert SameElements(a, b);
    hide SameElements;
    if SameService(Wishes(o, nodes, ps, legacy, 1, m), a, b) {
      SameServicePass(o, nodes, a, b, legacy, 1, m);
    }
    if Stage(o, nodes, a, legacy, 2) == Stage(o, nodes, b, legacy, 2) {
      PassSameService(o, nodes, a, b, legacy, 1, m);
    }
  }

  /** Orders with the same pairing serve the entries alike. */
  lemma PassSameService(o: Oracle, nodes: seq<Proxy>, ps: seq<Proxy>, ps': seq<Proxy>, legacy: bool, pass: nat, m: Pairing)
    requires IsPrepared(o, ps) && IsPrepared(o, ps') && SameElements(ps, ps')
    requires PassFrom(o, nodes, ps, legacy, pass, 0, m) == PassFrom(o, nodes, ps', legacy, pass, 0, m)
    ensures SameService(Wishes(o, nodes, ps, legacy, pass, m), ps, ps')
  {
    hide Wishes, PassFrom, IsPrepared, Serves, Has, Earns, Gets;
    WishesOrder(o, nodes, ps, ps', legacy, pass, m);
    PassIs(o, nodes, ps, legacy, pass, m);
    PassIs(o, nodes, ps', legacy, pass, m);
    var w := Wishes(o, nodes, ps, legacy, pass, m);
    if Serves(w, ps) {
      forall e, i: nat ensures Gets(w, ps, e, i) <==> Gets(w, ps', e, i) {
        if Gets(w, ps, e, i) {
          GetsInside(o, nodes, ps, ps, legacy, pass, m, e, i);
          EarnsGets(w, o, ps, e, i);
          EarnsGets(w, o, ps', e, i);
        }
        if Gets(w, ps', e, i) {
          GetsInside(o, nodes, ps, ps', legacy, pass, m, e, i);
          EarnsGets(w, o, ps, e, i);
          EarnsGets(w, o, ps', e, i);
        }
      }
    }
  }

  lemma GetsInside(o: Oracle, nodes: seq<Proxy>, ps: seq<Proxy>, order: seq<Proxy>, legacy: bool, pass: nat, m: Pairing, e: Proxy, i: nat)
    requires Gets(Wishes(o, nodes, ps, legacy, pass, m), order, e, i)
    ensures e in order && e.key !in m && !Has(m, e.key, i)
  {
    hide TakesPart, Candidates;
  }

  /** Some order of the entries passes the second pass exactly when no entries jam; some order fails it
      exactly when an entry wants two free nodes. */
  lemma SomeOrderPasses(o: Oracle, nodes: seq<Proxy>, ps: seq<Proxy>, legacy: bool, m: Pairing)
    requires SecondPass(o, nodes, ps, legacy, m)
    ensures var w := Wishes(o, nodes, ps, legacy, 1, m);
      && ((exists ps' :: IsPrepared(o, ps') && SameElements(ps, ps') && Stage(o, nodes, ps', legacy, 2).Some?) <==> !Jammed(w))
      && ((exists ps' :: IsPrepared(o, ps') && SameElements(ps, ps') && Stage(o, nodes, ps', legacy, 2).None?) <==> AnyStuck(w))
  {
    hide Stage, Jammed, AnyStuck, Wishes, IsPrepared, SameElements, Serves, Enumerates;
    var w := Wishes(o, nodes, ps, legacy, 1, m);
    WishesInside(o, nodes, ps, legacy, 1, m);
    SameElementsItself(ps);
    OrdersEnumerate(o, ps, ps);
    SomeOrderServesIff(w, Elements(ps));
    SomeOrderFailsIff(w, Elements(ps), ps);
    forall ps'
      ensures IsPrepared(o, ps') && SameElements(ps, ps') <==> Enumerates(ps', Elements(ps))
      ensures Enumerates(ps', Elements(ps)) ==> (Stage(o, nodes, ps', legacy, 2).Some? <==> Serves(w, ps'))
    {
      OrdersEnumerate(o, ps, ps');
      if Enumerates(ps', Elements(ps)) {
        SecondPassOrder(o, nodes, ps, ps', legacy, m);
        SecondPassIs(o, nodes, ps', legacy, m);
      }
    }
  }

  /** Unless the hash collides the two coincide: the second pass then succeeds on all orders or on none. */
  lemma StuckOnEveryOrder(o: Oracle, nodes: seq<Proxy>, ps: seq<Proxy>, legacy: bool, m: Pairing)
    requires NoCollision(o, nodes, ps)
    ensures var w := Wishes(o, nodes, ps, legacy, 1, m); Jammed(w) <==> AnyStuck(w)
  {
    hide Jammed, AnyStuck, Wishes;
    var w := Wishes(o, nodes, ps, legacy, 1, m);
    if Jammed(w) { JammedStuck(w); }
    if AnyStuck(w) {
      forall p, q, i: nat | Wants(w, p, i) && Wants(w, q, i) ensures w[p] == w[q] {
        SameWishes(o, nodes, ps, legacy, m, p, q, i);
      }
      StuckJams(w);
    }
  }

  lemma SameWishes(o: Oracle, nodes: seq<Proxy>, ps: seq<Proxy>, legacy: bool, m: Pairing, p: Proxy, q: Proxy, i: nat)
    requires NoCollision(o, nodes, ps)
    requires Wants(Wishes(o, nodes, ps, legacy, 1, m), p, i) && Wants(Wishes(o, nodes, ps, legacy, 1, m), q, i)
    ensures Wishes(o, nodes, ps, legacy, 1, m)[p] == Wishes(o, nodes, ps, legacy, 1, m)[q]
  {
    hide NoCollision, Fits;
    assert p in ps && q in ps && i < |nodes| && Fits(o, nodes, legacy, 1, p, i) && Fits(o, nodes, legacy, 1, q, i);
    forall x: nat ensures Fits(o, nodes, legacy, 1, p, x) <==> Fits(o, nodes, legacy, 1, q, x) {
      FitAlike(o, nodes, ps, legacy, p, q, i, x);
    }
  }

  lemma FitAlike(o: Oracle, nodes: seq<Proxy>, ps: seq<Proxy>, legacy: bool, p: Proxy, q: Proxy, i: nat, x: nat)
    requires NoCollision(o, nodes, ps) && p in ps && q in ps
    requires Fits(o, nodes, legacy, 1, p, i) && Fits(o, nodes, legacy, 1, q, i)
    ensures Fits(o, nodes, legacy, 1, p, x) <==> Fits(o, nodes, legacy, 1, q, x)
  {
    hide Normalized, IsBundledExample, Identity;
    var s := nodes[i].server;
    assert nodes[i] in nodes && ProxyKey(o, MovedTo(p, s)) == ProxyKey(o, MovedTo(q, s));
    MovedIdentity(MovedTo(p, s), MovedTo(q, s));
    if x < |nodes| { SameIdentity(p, q, nodes[x].server); }
  }

  lemma SameIdentity(p: Proxy, q: Proxy, server: string)
    requires p.kind == q.kind && p.port == q.port && NormalizedName(p) == NormalizedName(q)
    ensures Identity(MovedTo(p, server)) == Identity(MovedTo(q, server))
  {
  }

  // ---- whole merges ----

  lemma {:induction false} PrepareFirst(o: Oracle, feed: seq<Proxy>)
    requires feed != [] && Prepare(o, feed).Some?
    ensures Prepare(o, feed).value != [] && Prepare(o, feed).value[0] == Prepared(o, feed[0])
  {
    hide Prepared;
    var front := feed[..|feed| - 1];
    if front != [] {
      PrepareFirst(o, front);
    } else {
      assert Prepare(o, []) == Some([]);
    }
  }

  /** The first entry of a feed that wants node i is paired with it for good. */
  lemma FirstIsPaired(o: Oracle, c: Config, ps: seq<Proxy>, url: string, m: Pairing, i: nat)
    requires !UrlChanged(o, c, url) && SecondPass(o, c.proxies, ps, AllowsLegacy(c, url), m)
    requires ps != [] && Wants(Wishes(o, c.proxies, ps, AllowsLegacy(c, url), 1, m), ps[0], i)
    requires PairingOf(o, c, ps, url).Some?
    ensures var x := PairingOf(o, c, ps, url).value; ps[0].key in x && x[ps[0].key] == i
  {
    hide Stage, SecondPass, Wants, Wishes;
    StageExtends(o, c.proxies, ps, AllowsLegacy(c, url), 2, 5);
    FirstEntryWins(o, c.proxies, ps, AllowsLegacy(c, url), m, i);
  }

  lemma MergedNames(o: Oracle, c: Config, feed: seq<Proxy>, url: string)
    requires Merge(o, c, feed, url).Merged?
    ensures NamesDistinct(Merge(o, c, feed, url).next.proxies)
  {
    hide NamesDistinct, IsValid, Prepare, PairingOf, Kept, Counted, Allocate;
  }

  /** After a merge whose feed starts with an entry that wins node i, the node of that name has that
      entry's key. */
  lemma WinnerKeepsName(o: Oracle, c: Config, feed: seq<Proxy>, url: string, m: Pairing, i: nat) returns (j: nat)
    requires feed != [] && Prepare(o, feed).Some? && !UrlChanged(o, c, url)
    requires SecondPass(o, c.proxies, Prepare(o, feed).value, AllowsLegacy(c, url), m)
    requires Wants(Wishes(o, c.proxies, Prepare(o, feed).value, AllowsLegacy(c, url), 1, m), Prepared(o, feed[0]), i)
    requires Merge(o, c, feed, url).Merged?
    ensures var next := Merge(o, c, feed, url).next;
            i < |c.proxies| && j < |next.proxies| && next.proxies[j].name == c.proxies[i].name && next.proxies[j].key == Prepared(o, feed[0]).key
  {
    hide Merge, Prepare, SecondPass, Wants, Wishes, PairingOf, UrlChanged, Prepared, Kept, SortByKey, Unpaired, NamesOf, PortsOf, Allocated, Covers, Injective;
    var ps, pairing, added := MergeParts(o, c, feed, url);
    PrepareFirst(o, feed);
    FirstIsPaired(o, c, ps, url, m, i);
    assert ps[0] in ps;
    MatchedKeepsIdentity(o, c, feed, url, ps, pairing, added, Merge(o, c, feed, url).next, ps[0]);
    j := Position(c.proxies, ps, pairing, UrlChanged(o, c, url), i);
  }

  /** If two entries contest a node, a feed that starts with the one and a feed that starts with the
      other merge into different configurations, whenever both merge at all. */
  lemma ContestedFeedsDiffer(o: Oracle, c: Config, feed: seq<Proxy>, feed': seq<Proxy>, url: string, m: Pairing, i: nat)
    requires SameElements(feed, feed') && feed != [] && feed' != [] && Prepare(o, feed).Some? && !UrlChanged(o, c, url)
    requires SecondPass(o, c.proxies, Prepare(o, feed).value, AllowsLegacy(c, url), m)
    requires Contest(Wishes(o, c.proxies, Prepare(o, feed).value, AllowsLegacy(c, url), 1, m), Prepared(o, feed[0]), Prepared(o, feed'[0]), i)
    requires Merge(o, c, feed, url).Merged? && Merge(o, c, feed', url).Merged?
    ensures Merge(o, c, feed, url).next != Merge(o, c, feed', url).next
  {
    hide Merge, Prepare, SecondPass, Wants, Wishes, UrlChanged, Prepared, SameElements, NamesDistinct, Covers;
    var ps := Prepare(o, feed).value;
    PreparedOrder(o, feed, feed');
    PrepareIs(o, feed');
    SecondPassOrder(o, c.proxies, ps, Prepare(o, feed').value, AllowsLegacy(c, url), m);
    var j := WinnerKeepsName(o, c, feed, url, m, i);
    var j' := WinnerKeepsName(o, c, feed', url, m, i);
    ContestKeys(o, c.proxies, ps, AllowsLegacy(c, url), m, Prepared(o, feed[0]), Prepared(o, feed'[0]), i);
    MergedNames(o, c, feed, url);
    if Merge(o, c, feed, url).next == Merge(o, c, feed', url).next {
      SameNameSameNode(Merge(o, c, feed, url).next.proxies, j, j');
    }
  }

  lemma SameNameSameNode(ps: seq<Proxy>, i: nat, j: nat)
    requires NamesDistinct(ps) && i < |ps| && j < |ps| && ps[i].name == ps[j].name
    ensures i == j
  {
    hide Normalized;
  }

  lemma ContestKeys(o: Oracle, nodes: seq<Proxy>, ps: seq<Proxy>, legacy: bool, m: Pairing, p: Proxy, q: Proxy, i: nat)
    requires SecondPass(o, nodes, ps, legacy, m) && Contest(Wishes(o, nodes, ps, legacy, 1, m), p, q, i)
    ensures p.key != q.key
  {
    hide Stage, Candidates, TakesPart, IsPrepared;
    if p.key == q.key { PreparedKeysIdentify(o, ps, p, q); }
  }
}
