/**
  First come, first served: every entry wants some nodes, and in its turn is given the one node it
  wants that no entry before it wants.  An order of the entries fails if one of them is left with two.
 */
module FirstCome {

  ghost predicate Wants<E(!new)>(w: map<E, set<nat>>, e: E, i: nat) { e in w && i in w[e] }

  /** Two entries want the same node. */
  ghost predicate Contest<E(!new)>(w: map<E, set<nat>>, e: E, f: E, i: nat) {
    e != f && Wants(w, e, i) && Wants(w, f, i)
  }

  ghost predicate NoContest<E(!new)>(w: map<E, set<nat>>) {
    forall e, f, i: nat :: !Contest(w, e, f, i)
  }

  /** An entry wants several nodes. */
  ghost predicate Stuck<E(!new)>(w: map<E, set<nat>>, e: E) {
    exists i: nat, j: nat :: i != j && Wants(w, e, i) && Wants(w, e, j)
  }

  ghost predicate AnyStuck<E(!new)>(w: map<E, set<nat>>) {
    exists e :: Stuck(w, e)
  }

  // ---- orders ----

  ghost predicate WantedBefore<E(!new)>(w: map<E, set<nat>>, order: seq<E>, t: nat, i: nat) {
    exists s: nat :: s < t && s < |order| && Wants(w, order[s], i)
  }

  /** Entry t is the first that wants node i. */
  ghost predicate First<E(!new)>(w: map<E, set<nat>>, order: seq<E>, t: nat, i: nat) {
    t < |order| && Wants(w, order[t], i) && !WantedBefore(w, order, t, i)
  }

  /** Entry t is the first for two nodes. */
  ghost predicate Overloaded<E(!new)>(w: map<E, set<nat>>, order: seq<E>, t: nat) {
    exists i: nat, j: nat :: i != j && First(w, order, t, i) && First(w, order, t, j)
  }

  /** The order goes through: no entry is left with two nodes when its turn comes. */
  ghost predicate Serves<E(!new)>(w: map<E, set<nat>>, order: seq<E>) {
    forall t: nat :: !Overloaded(w, order, t)
  }

  ghost predicate Gets<E(!new)>(w: map<E, set<nat>>, order: seq<E>, e: E, i: nat) {
    exists t: nat :: First(w, order, t, i) && order[t] == e
  }

  /** Two orders fail alike, or give every entry the same node. */
  ghost predicate SameService<E(!new)>(w: map<E, set<nat>>, a: seq<E>, b: seq<E>) {
    && (Serves(w, a) <==> Serves(w, b))
    && (Serves(w, a) ==> forall e, i: nat :: Gets(w, a, e, i) <==> Gets(w, b, e, i))
  }

  ghost predicate Enumerates<E(!new)>(order: seq<E>, es: set<E>) {
    && (forall e :: e in order <==> e in es)
    && (forall i, j :: 0 <= i < j < |order| ==> order[i] != order[j])
  }

  // ---- which orders go through ----

  /** If no entry wants two nodes every order goes through. */
  lemma NobodyStuck<E(!new)>(w: map<E, set<nat>>, order: seq<E>)
    requires !AnyStuck(w)
    ensures Serves(w, order)
  {
    forall t: nat ensures !Overloaded(w, order, t) {
      if Overloaded(w, order, t) {
        assert Stuck(w, order[t]);
      }
    }
  }

  /** Without contest only entries that want two nodes fail, and every entry gets what it wants. */
  lemma UncontestedOrder<E(!new)>(w: map<E, set<nat>>, order: seq<E>, es: set<E>)
    requires NoContest(w) && Enumerates(order, es) && w.Keys <= es
    ensures Serves(w, order) <==> !AnyStuck(w)
    ensures forall e, i: nat :: Gets(w, order, e, i) <==> Wants(w, e, i)
  {
    forall t: nat, i: nat | t < |order| && Wants(w, order[t], i) ensures First(w, order, t, i) {
      forall s: nat | s < t ensures !Wants(w, order[s], i) {
        assert !Contest(w, order[s], order[t], i);
      }
    }
    forall e, i: nat | Wants(w, e, i) ensures Gets(w, order, e, i) {
      var t: nat :| t < |order| && order[t] == e;
      assert First(w, order, t, i);
    }
    if AnyStuck(w) {
      var e :| Stuck(w, e);
      var i: nat, j: nat :| i != j && Wants(w, e, i) && Wants(w, e, j);
      var t: nat :| t < |order| && order[t] == e;
      assert First(w, order, t, i) && First(w, order, t, j);
      assert Overloaded(w, order, t);
    } else {
      NobodyStuck(w, order);
    }
  }

  /** Only an entry of the group wants node i. */
  ghost predicate Exclusive<E(!new)>(w: map<E, set<nat>>, group: set<E>, e: E, i: nat) {
    Wants(w, e, i) && forall f :: f !in group ==> !Wants(w, f, i)
  }

  /** Each entry of the group wants two nodes that nobody outside the group wants, so that none of them
      can come first. */
  ghost predicate Jams<E(!new)>(w: map<E, set<nat>>, group: set<E>) {
    group != {} && forall e :: e in group ==> Torn(w, group, e)
  }

  ghost predicate Torn<E(!new)>(w: map<E, set<nat>>, group: set<E>, e: E) {
    exists i: nat, j: nat :: i != j && Exclusive(w, group, e, i) && Exclusive(w, group, e, j)
  }

  ghost predicate Jammed<E(!new)>(w: map<E, set<nat>>) {
    exists group :: Jams(w, group)
  }

  lemma JammedStuck<E(!new)>(w: map<E, set<nat>>)
    requires Jammed(w)
    ensures AnyStuck(w)
  {
    var group :| Jams(w, group);
    var e :| e in group;
    assert Torn(w, group, e);
    assert Stuck(w, e);
  }

  /** If entries want the same nodes or none in common, one that wants two jams. */
  lemma StuckJams<E(!new)>(w: map<E, set<nat>>)
    requires AnyStuck(w) && forall e, f, i: nat :: Wants(w, e, i) && Wants(w, f, i) ==> w[e] == w[f]
    ensures Jammed(w)
  {
    var e :| Stuck(w, e);
    var i: nat, j: nat :| i != j && Wants(w, e, i) && Wants(w, e, j);
    var group := set f | f in w && w[f] == w[e];
    assert e in group;
    forall f | f in group ensures Torn(w, group, f) {
      assert Exclusive(w, group, f, i) && Exclusive(w, group, f, j);
    }
    assert Jams(w, group);
  }

  lemma FirstOf<E(!new)>(order: seq<E>, group: set<E>, n: nat) returns (t: nat)
    requires n < |order| && order[n] in group
    ensures t < |order| && order[t] in group && forall s :: 0 <= s < t ==> order[s] !in group
    decreases n
  {
    t := 0;
    while order[t] !in group
      invariant t <= n && forall s :: 0 <= s < t ==> order[s] !in group
      decreases n - t
    {
      t := t + 1;
    }
  }

  lemma JamBlocks<E(!new)>(w: map<E, set<nat>>, order: seq<E>, es: set<E>, group: set<E>)
    requires Enumerates(order, es) && w.Keys <= es && Jams(w, group)
    ensures !Serves(w, order)
  {
    var e :| e in group;
    assert Torn(w, group, e);
    assert e in order;
    var n: nat :| n < |order| && order[n] == e;
    var t := FirstOf(order, group, n);
    assert Torn(w, group, order[t]);
    var i: nat, j: nat :| i != j && Exclusive(w, group, order[t], i) && Exclusive(w, group, order[t], j);
    assert First(w, order, t, i) && First(w, order, t, j);
    assert Overloaded(w, order, t);
  }

  lemma ServesLonger<E(!new)>(w: map<E, set<nat>>, front: seq<E>, e: E, group: set<E>)
    requires Serves(w, front) && !Torn(w, group, e)
    requires forall f :: f in w && f !in front ==> f in group
    ensures Serves(w, front + [e])
  {
    var order := front + [e];
    forall t: nat ensures !Overloaded(w, order, t) {
      if Overloaded(w, order, t) {
        var i: nat, j: nat :| i != j && First(w, order, t, i) && First(w, order, t, j);
        if t < |front| {
          FirstShorter(w, front, e, t, i);
          FirstShorter(w, front, e, t, j);
          assert Overloaded(w, front, t);
        } else {
          LastExclusive(w, front, e, group, i);
          LastExclusive(w, front, e, group, j);
        }
      }
    }
  }

  lemma WantedLonger<E(!new)>(w: map<E, set<nat>>, front: seq<E>, e: E, t: nat, i: nat)
    requires t <= |front| && WantedBefore(w, front, t, i)
    ensures WantedBefore(w, front + [e], t, i)
  {
    var s: nat :| s < t && s < |front| && Wants(w, front[s], i);
    assert (front + [e])[s] == front[s];
  }

  lemma FirstShorter<E(!new)>(w: map<E, set<nat>>, front: seq<E>, e: E, t: nat, i: nat)
    requires t < |front| && First(w, front + [e], t, i)
    ensures First(w, front, t, i)
  {
    hide WantedBefore;
    if WantedBefore(w, front, t, i) { WantedLonger(w, front, e, t, i); }
  }

  lemma WantedInFront<E(!new)>(w: map<E, set<nat>>, front: seq<E>, f: E, i: nat)
    requires f in front && Wants(w, f, i)
    ensures WantedBefore(w, front, |front|, i)
  {
  }

  lemma LastExclusive<E(!new)>(w: map<E, set<nat>>, front: seq<E>, e: E, group: set<E>, i: nat)
    requires First(w, front + [e], |front|, i)
    requires forall f :: f in w && f !in front ==> f in group
    ensures Exclusive(w, group, e, i)
  {
    hide WantedBefore;
    if WantedBefore(w, front, |front|, i) { WantedLonger(w, front, e, |front|, i); }
    forall f | f !in group ensures !Wants(w, f, i) {
      if Wants(w, f, i) { WantedInFront(w, front, f, i); }
    }
  }

  /** Entries outside every jam can always be served next. */
  lemma {:induction false} Complete<E(!new)>(w: map<E, set<nat>>, es: set<E>, front: seq<E>, rest: set<E>) returns (order: seq<E>)
    requires w.Keys <= es && !Jammed(w) && rest <= es && Enumerates(front, es - rest) && Serves(w, front)
    ensures Enumerates(order, es) && Serves(w, order)
    decreases |rest|
  {
    if rest == {} {
      assert es - rest == es;
      return front;
    }
    assert !Jams(w, rest);
    var e :| e in rest && !Torn(w, rest, e);
    ServesLonger(w, front, e, rest);
    assert es - (rest - {e}) == (es - rest) + {e};
    order := Complete(w, es, front + [e], rest - {e});
  }

  /** Some order goes through exactly when no group of entries jams. */
  lemma SomeOrderServesIff<E(!new)>(w: map<E, set<nat>>, es: set<E>)
    requires w.Keys <= es
    ensures (exists order :: Enumerates(order, es) && Serves(w, order)) <==> !Jammed(w)
  {
    if order :| Enumerates(order, es) && Serves(w, order) {
      if Jammed(w) {
        var group :| Jams(w, group);
        JamBlocks(w, order, es, group);
      }
    } else if !Jammed(w) {
      assert es - es == {};
      var order := Complete(w, es, [], es);
    }
  }

  // ---- which orders agree ----

  /** The same entries with e first. */
  lemma ToFront<E(!new)>(order: seq<E>, es: set<E>, e: E) returns (front: seq<E>)
    requires Enumerates(order, es) && e in es
    ensures Enumerates(front, es) && front != [] && front[0] == e
  {
    var t: nat :| t < |order| && order[t] == e;
    front := [e] + (order[..t] + order[t + 1..]);
    forall i: nat | i < |front| ensures front[i] == order[if i == 0 then t else if i <= t then i - 1 else i] {
    }
    forall x | x in order ensures x in front {
      var i: nat :| i < |order| && order[i] == x;
      assert front[if i == t then 0 else if i < t then i + 1 else i] == x;
    }
  }

  /** Some order fails exactly when some entry wants two nodes. */
  lemma SomeOrderFailsIff<E(!new)>(w: map<E, set<nat>>, es: set<E>, any: seq<E>)
    requires w.Keys <= es && Enumerates(any, es)
    ensures (exists order :: Enumerates(order, es) && !Serves(w, order)) <==> AnyStuck(w)
  {
    if AnyStuck(w) {
      var e :| Stuck(w, e);
      var i: nat, j: nat :| i != j && Wants(w, e, i) && Wants(w, e, j);
      var front := ToFront(any, es, e);
      assert First(w, front, 0, i) && First(w, front, 0, j);
      assert Overloaded(w, front, 0);
    } else {
      forall order | Enumerates(order, es) ensures Serves(w, order) {
        NobodyStuck(w, order);
      }
    }
  }

  /** A node goes to one entry. */
  lemma GetsOnce<E(!new)>(w: map<E, set<nat>>, order: seq<E>, e: E, f: E, i: nat)
    requires Gets(w, order, e, i) && Gets(w, order, f, i)
    ensures e == f
  {
    var s: nat :| First(w, order, s, i) && order[s] == e;
    var t: nat :| First(w, order, t, i) && order[t] == f;
  }

  /** If an order goes through and two entries contest a node, an order that begins with the one that
      did not get it fails, or gives it the node. */
  lemma ContestShows<E(!new)>(w: map<E, set<nat>>, a: seq<E>, es: set<E>, e: E, f: E, i: nat) returns (b: seq<E>)
    requires w.Keys <= es && Enumerates(a, es) && Serves(w, a) && Contest(w, e, f, i)
    ensures Enumerates(b, es) && !SameService(w, a, b)
  {
    if Gets(w, a, e, i) && Gets(w, a, f, i) { GetsOnce(w, a, e, f, i); }
    var g := if Gets(w, a, e, i) then f else e;
    b := ToFront(a, es, g);
    assert First(w, b, 0, i);
    assert Gets(w, b, g, i);
  }

  /** All orders agree exactly when no two entries want the same node, or none goes through at all. */
  lemma OrdersAgreeIff<E(!new)>(w: map<E, set<nat>>, es: set<E>)
    requires w.Keys <= es
    ensures (forall a, b :: Enumerates(a, es) && Enumerates(b, es) ==> SameService(w, a, b)) <==> NoContest(w) || Jammed(w)
  {
    hide Jams, Contest, Serves, Enumerates, Gets, AnyStuck;
    if Jammed(w) {
      var group :| Jams(w, group);
      forall a | Enumerates(a, es) ensures !Serves(w, a) {
        JamBlocks(w, a, es, group);
      }
    } else if NoContest(w) {
      forall a, b | Enumerates(a, es) && Enumerates(b, es) ensures SameService(w, a, b) {
        UncontestedOrder(w, a, es);
        UncontestedOrder(w, b, es);
      }
    } else {
      SomeOrderServesIff(w, es);
      var a :| Enumerates(a, es) && Serves(w, a);
      var e, f, i: nat :| Contest(w, e, f, i);
      var b := ContestShows(w, a, es, e, f, i);
    }
  }
}
