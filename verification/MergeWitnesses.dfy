/** Configurations and feeds for which the merge or the generated configuration disappoints. */
module MergeWitnesses {
  import opened Text
  import opened ProxyConfig
  import opened SubscriptionMatch
  import opened SubscriptionOrder
  import opened FirstCome
  import opened SubscriptionMerge
  import opened MergeOrder
  import opened MergeValidity
  import opened MergeCompetition
  import opened SingBox
  import opened SkipRestart

  // ---- two entries that compete ----

  const ADDRESS := "192.0.2.1"
  const FIRST := "c702s1.portablesubmarines.com"
  const SECOND := "c702s2.portablesubmarines.com"

  /** A node as its provider names it, under one server or another. */
  function Entry(server: string): Proxy {
    Proxy("", "", 0, "JMS-1", true, 0, "vless", server, 443, "", "", "b2c5", 0, "reality", "xtls-rprx-vision", "sni", "chrome", "pk", "sid", map[])
  }

  predicate Server(s: string) { s == ADDRESS || s == FIRST || s == SECOND }

  /** The address is one, the names match the pattern of confirmed domains, and the hash does not
      collide on the three identities. */
  ghost predicate IsPlausible(o: Oracle) {
    && o.isIp(ADDRESS) && o.isConfirmedDomain(FIRST) && o.isConfirmedDomain(SECOND)
    && forall s, t :: Server(s) && Server(t) && ProxyKey(o, Entry(s)) == ProxyKey(o, Entry(t)) ==> Identity(Entry(s)) == Identity(Entry(t))
  }

  /** The node was imported under its address. */
  function Node(o: Oracle): Proxy { Prepared(o, Entry(ADDRESS)) }

  function Before(o: Oracle, url: string): Config {
    Config("1", "info", 1080, "", "", [], url, true, SourceKey(o, url),
           HealthCheck(false, 0, 0, ""), Dns(false, 0, []), [Node(o)], "127.0.0.1")
  }

  lemma IdentitiesDiffer(s: string, t: string, i: nat)
    requires i < |s| && i < |t| && LowerChar(s[i]) != LowerChar(t[i])
    ensures Identity(Entry(s)) != Identity(Entry(t))
  {
    hide NormalizedName;
    assert |"vless|endpoint|"| == 15;
    assert Identity(Entry(s))[15 + i] == LowerChar(s[i]) && Identity(Entry(t))[15 + i] == LowerChar(t[i]);
  }

  lemma AddressDiffers()
    ensures Identity(Entry(ADDRESS)) != Identity(Entry(FIRST)) && Identity(Entry(ADDRESS)) != Identity(Entry(SECOND))
  {
    hide Identity, Entry;
    IdentitiesDiffer(ADDRESS, FIRST, 0);
    IdentitiesDiffer(ADDRESS, SECOND, 0);
  }

  lemma NamesDiffer()
    ensures Identity(Entry(FIRST)) != Identity(Entry(SECOND))
  {
    hide Identity, Entry;
    assert FIRST[5] == '1' && SECOND[5] == '2';
    IdentitiesDiffer(FIRST, SECOND, 5);
  }

  lemma KeysDiffer(o: Oracle)
    requires IsPlausible(o)
    ensures ProxyKey(o, Entry(ADDRESS)) != ProxyKey(o, Entry(FIRST)) && ProxyKey(o, Entry(ADDRESS)) != ProxyKey(o, Entry(SECOND))
    ensures ProxyKey(o, Entry(FIRST)) != ProxyKey(o, Entry(SECOND))
  {
    hide Identity, ProxyKey, Entry, ADDRESS, FIRST, SECOND;
    AddressDiffers();
    NamesDiffer();
    assert Server(ADDRESS) && Server(FIRST) && Server(SECOND);
  }

  lemma PrepareTwo(o: Oracle, f: Proxy, g: Proxy)
    requires ProxyKey(o, f) != ProxyKey(o, g)
    ensures Prepare(o, [f, g]) == Some([Prepared(o, f), Prepared(o, g)])
  {
    hide ProxyKey;
    assert [f, g][..1] == [f];
    PrepareOne(o, f);
    assert [Prepared(o, f)] + [Prepared(o, g)] == [Prepared(o, f), Prepared(o, g)];
  }

  /** An entry takes part in the contest for the node. */
  lemma EntryFits(o: Oracle, server: string)
    requires IsPlausible(o) && (server == FIRST || server == SECOND)
    ensures var n, p := Node(o), Prepared(o, Entry(server));
      && !Fits(o, [n], false, 0, p, 0) && Fits(o, [n], false, 1, p, 0)
  {
    KeysDiffer(o);
    var p := Prepared(o, Entry(server));
    assert Identity(MovedTo(p, ADDRESS)) == Identity(Entry(ADDRESS)) by { hide NormalizedName; }
    hide Identity;
  }

  /** With one node there is one candidate at most. */
  lemma OneCandidate(o: Oracle, n: Proxy, pass: nat, p: Proxy, used: set<nat>)
    ensures Candidates(o, [n], false, pass, p, used) == if Fits(o, [n], false, pass, p, 0) && 0 !in used then {0} else {}
  {
    hide Rule, IsBundledExample;
  }

  /** ... so nobody wants two. */
  lemma OneNodeUnstuck(o: Oracle, n: Proxy, ps: seq<Proxy>, pass: nat, m: Pairing)
    ensures !AnyStuck(Wishes(o, [n], ps, false, pass, m))
  {
    hide Fits, TakesPart;
  }

  predicate Swapped(s: string, t: string) {
    (s == FIRST && t == SECOND) || (s == SECOND && t == FIRST)
  }

  lemma SwappedKeys(o: Oracle, s: string, t: string)
    requires IsPlausible(o) && Swapped(s, t)
    ensures ProxyKey(o, Entry(s)) != ProxyKey(o, Entry(t))
  {
    hide ProxyKey, Entry, FIRST, SECOND, ADDRESS, IsPlausible;
    KeysDiffer(o);
  }

  lemma PreparedPair(o: Oracle, s: string, t: string)
    requires IsPlausible(o) && Swapped(s, t)
    ensures var ps := [Prepared(o, Entry(s)), Prepared(o, Entry(t))];
            Prepare(o, [Entry(s), Entry(t)]) == Some(ps) && IsPrepared(o, ps) && ps[0] != ps[1]
  {
    hide Entry, IsPlausible, Swapped, ProxyKey, Prepare, Covers;
    SwappedKeys(o, s, t);
    PrepareTwo(o, Entry(s), Entry(t));
    PrepareIs(o, [Entry(s), Entry(t)]);
  }

  lemma ContestBegins(o: Oracle, s: string, t: string)
    requires IsPlausible(o) && Swapped(s, t)
    ensures var n, ps := Node(o), [Prepared(o, Entry(s)), Prepared(o, Entry(t))];
            SecondPass(o, [n], ps, false, map[]) && Contest(Wishes(o, [n], ps, false, 1, map[]), ps[0], ps[1], 0)
  {
    hide Fits, Prepared, Node, Entry, IsPrepared, Prepare, IsPlausible, FIRST, SECOND, ADDRESS;
    EntryFits(o, s);
    EntryFits(o, t);
    PreparedPair(o, s, t);
    CompetitorsContest(o, Node(o), Prepared(o, Entry(s)), Prepared(o, Entry(t)));
  }

  lemma CompetitorsContest(o: Oracle, n: Proxy, p: Proxy, q: Proxy)
    requires IsPrepared(o, [p, q]) && p != q
    requires !Fits(o, [n], false, 0, p, 0) && !Fits(o, [n], false, 0, q, 0) && Fits(o, [n], false, 1, p, 0) && Fits(o, [n], false, 1, q, 0)
    ensures SecondPass(o, [n], [p, q], false, map[]) && Contest(Wishes(o, [n], [p, q], false, 1, map[]), p, q, 0)
  {
    hide Fits, Prepared, IsPrepared, Candidates;
    var e: Pairing := map[];
    assert e.Values == {};
    OneCandidate(o, n, 0, p, {});
    OneCandidate(o, n, 0, q, {});
    OneCandidate(o, n, 1, p, {});
    OneCandidate(o, n, 1, q, {});
    NobodyFirst(o, n, p, q);
    assert Stage(o, [n], [p, q], false, 0) == Some(e);
  }

  lemma NobodyFirst(o: Oracle, n: Proxy, p: Proxy, q: Proxy)
    requires Candidates(o, [n], false, 0, p, {}) == {} && Candidates(o, [n], false, 0, q, {}) == {}
    ensures PassFrom(o, [n], [p, q], false, 0, 0, map[]) == Some(map[])
  {
    hide Candidates, TakesPart;
    var e: Pairing := map[];
    assert e.Values == {};
    assert PassFrom(o, [n], [p, q], false, 0, 2, e) == Some(e);
    assert PassFrom(o, [n], [p, q], false, 0, 1, e) == Some(e);
  }

  /** Once the only node is taken nothing more happens. */
  lemma {:induction false} NothingFree(o: Oracle, n: Proxy, ps: seq<Proxy>, pass: nat, j: nat, m: Pairing)
    requires 0 in m.Values
    ensures PassFrom(o, [n], ps, false, pass, j, m) == Some(m)
    decreases |ps| - j
  {
    hide Rule, IsBundledExample, TakesPart;
    if j < |ps| {
      OneCandidate(o, n, pass, ps[j], m.Values);
      NothingFree(o, n, ps, pass, j + 1, m);
    }
  }

  lemma {:induction false} StaysTaken(o: Oracle, n: Proxy, ps: seq<Proxy>, m: Pairing, pass: nat)
    requires Stage(o, [n], ps, false, 2) == Some(m) && 0 in m.Values && pass >= 2
    ensures Stage(o, [n], ps, false, pass) == Some(m)
  {
    hide PassFrom;
    if pass > 2 {
      StaysTaken(o, n, ps, m, pass - 1);
      NothingFree(o, n, ps, pass - 1, 0, m);
    }
  }

  lemma BeforeValid(o: Oracle, url: string)
    ensures IsValid(Before(o, url)) && NamesDistinct(Before(o, url).proxies)
    ensures ConnectionValid(Entry(FIRST)) && ConnectionValid(Entry(SECOND))
  {
    hide ProxyKey, Normalized;
  }

  lemma NodeKeepsPort(o: Oracle, url: string, ps: seq<Proxy>, m: Pairing)
    ensures forall q :: q in TakenPorts(o, Before(o, url), ps, m, url) ==> q == 1080
  {
    hide ProxyKey, Normalized, SourceKey, Retained, Partner;
    var c := Before(o, url);
    var uc := UrlChanged(o, c, url);
    KeptFrom(c.proxies, ps, m, uc, 1);
    forall x | x in Kept(c.proxies, ps, m, uc, 1) ensures x.localPort == 0 {
      RetainedKeepsIdentity(c.proxies[0], Partner(ps, m, 0), uc);
    }
  }

  lemma OneLeft(p: Proxy, q: Proxy, m: Pairing)
    requires p.key in m
    ensures |Additions([p, q], m)| <= 1
  {
    assert [p, q][..1] == [p] && [p][..0] == [];
    assert Unpaired([], m) == [];
    assert Unpaired([p], m) == [];
    if q.key !in m {
      assert Unpaired([p, q], m) == [q];
      assert [q][..0] == [] && SortByKey([]) == [];
    }
  }

  /** The node is taken by the first entry, and nothing is ambiguous. */
  lemma ContestedPairing(o: Oracle, url: string, s: string, t: string)
    requires IsPlausible(o) && Swapped(s, t)
    ensures var ps, x := [Prepared(o, Entry(s)), Prepared(o, Entry(t))], PairingOf(o, Before(o, url), [Prepared(o, Entry(s)), Prepared(o, Entry(t))], url);
            x.Some? && |Additions(ps, x.value)| <= 1
  {
    hide Prepared, Node, Entry, IsPlausible, Swapped, SecondPass, Stage, Additions, AnyStuck, Serves, Wishes, Wants;
    var p, q := Prepared(o, Entry(s)), Prepared(o, Entry(t));
    ContestBegins(o, s, t);
    OneNodeUnstuck(o, Node(o), [p, q], 1, map[]);
    NobodyStuck(Wishes(o, [Node(o)], [p, q], false, 1, map[]), [p, q]);
    SecondPassIs(o, [Node(o)], [p, q], false, map[]);
    FirstEntryWins(o, [Node(o)], [p, q], false, map[], 0);
    var m := Stage(o, [Node(o)], [p, q], false, 2).value;
    assert 0 in m.Values by { assert m[p.key] == 0; }
    StaysTaken(o, Node(o), [p, q], m, 5);
    OneLeft(p, q, m);
  }

  lemma ContestedMerges(o: Oracle, url: string, s: string, t: string)
    requires IsPlausible(o) && url != "" && Swapped(s, t)
    ensures Merge(o, Before(o, url), [Entry(s), Entry(t)], url).Merged?
  {
    hide Merge, Before, Entry, Prepared, IsValid, NamesDistinct, ConnectionValid, PairingOf, Additions, TakenPorts, FreePorts, Clashes, Covers, IsPrepared, Prepare, IsPlausible, FIRST, SECOND, ADDRESS;
    var c, feed := Before(o, url), [Entry(s), Entry(t)];
    BeforeValid(o, url);
    PreparedPair(o, s, t);
    PrepareIs(o, feed);
    ContestedPairing(o, url, s, t);
    var ps := [Prepared(o, Entry(s)), Prepared(o, Entry(t))];
    var m := PairingOf(o, c, ps, url).value;
    NodeKeepsPort(o, url, ps, m);
    SomePortFree(TakenPorts(o, c, ps, m, url), 1080, 1080);
    MergeSucceedsGiven(o, c, feed, url);
  }

  /** Swapping two such entries of a feed gives the node to the other one: both merges succeed, and the
      configurations differ. */
  lemma OrderMatters(o: Oracle, url: string)
    requires IsPlausible(o) && url != ""
    ensures var c, f, g := Before(o, url), Entry(FIRST), Entry(SECOND);
      && IsValid(c) && Merge(o, c, [f, g], url).Merged? && Merge(o, c, [g, f], url).Merged?
      && Merge(o, c, [f, g], url).next != Merge(o, c, [g, f], url).next
  {
    var c, f, g := Before(o, url), Entry(FIRST), Entry(SECOND);
    hide Merge, Entry, Prepared, Prepare, SecondPass, Contest, Node, IsPlausible, IsValid, FIRST, SECOND, ADDRESS;
    BeforeValid(o, url);
    ContestedMerges(o, url, FIRST, SECOND);
    ContestedMerges(o, url, SECOND, FIRST);
    ContestBegins(o, FIRST, SECOND);
    PreparedPair(o, FIRST, SECOND);
    assert SameElements([f, g], [g, f]);
    ContestedFeedsDiffer(o, c, [f, g], [g, f], url, map[], 0);
  }

  // ---- references that do not resolve, tags that collide ----

  function Plain(name: string): Proxy {
    Proxy("", "", 0, name, true, 0, "shadowsocks", ADDRESS, 8388, "aes-256-gcm", "secret", "", 0, "", "", "", "", "", "", map[])
  }

  /** A configuration without a unified port. */
  function Ported(proxies: seq<Proxy>): Config {
    Config("1", "info", 0, "", "", [], "", false, "", HealthCheck(false, 0, 0, ""), Dns(false, 0, []), proxies, "127.0.0.1")
  }

  /** With neither a route mode nor a unified port, traffic goes to a selector that does not exist. */
  lemma SelectorDangles(dir: string)
    ensures IsValid(Ported([Plain("a")])) && NamesDistinct(Ported([Plain("a")]).proxies)
    ensures !Resolves(Generated(Ported([Plain("a")]), dir))
  {
    hide Resolves, Generated, Normalized;
    ResolvesIff(Ported([Plain("a")]), dir);
  }

  /** Two nodes whose names differ in a character that cleaning drops. */
  function Twins(): Config { Ported([Plain("a"), Plain("a!")]) }

  lemma TwinsValid()
    ensures IsValid(Twins()) && NamesDistinct(Twins().proxies)
  {
    hide Normalized;
    NamesApart();
  }

  lemma TagsCollide()
    ensures IsValid(Twins()) && NamesDistinct(Twins().proxies) && !TagsDistinct(Outbounds(Twins()))
  {
    TwinsValid();
    var ps := Twins().proxies;
    EnabledPair(ps[0], ps[1]);
    SanitizedDrops("a", '!');
    assert "a" + ['!'] == "a!";
    assert Sanitized(ps[0].name) == Sanitized(ps[1].name);
    hide Outbounds, Sanitized, IsValid, NamesDistinct, TagsDistinct, Enabled, SelectorTag;
    TagsDistinctIff(Twins());
  }

  lemma NamesApart()
    ensures Normalized("a") != Normalized("a!")
  {
    assert Trim("a") == "a" && Trim("a!") == "a!";
  }

  lemma EnabledPair(p: Proxy, q: Proxy)
    requires p.enabled && q.enabled
    ensures Enabled([p, q]) == [p, q]
  {
    assert [p, q][..1] == [p] && [p][..0] == [];
    assert Enabled([]) == [];
    assert Enabled([p]) == [p];
  }
}
