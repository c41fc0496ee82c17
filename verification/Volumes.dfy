/**
  One date of a rotating log: slot 0 is the active file, slots 1..k are its numbered volumes,
  newest first.  This module says on values what the writer promises about such a directory;
  LogWriter proves that the imperative code, with every file operation free to fail, keeps it.
 */
module Volumes {

  newtype byte = b: int | 0 <= b < 256

  type Bytes = seq<byte>

  /** What a directory entry can be; Irregular stands for links, directories and devices. */
  datatype Entry = Absent | Regular(data: Bytes) | Irregular

  function Contents(e: Entry): Bytes {
    if e.Regular? then e.data else []
  }

  /** Reading the volumes from the oldest to the newest and then the active file. */
  function Stream(d: seq<Entry>): Bytes {
    if d == [] then [] else Stream(d[1..]) + Contents(d[0])
  }

  ghost predicate IsSuffix(a: Bytes, b: Bytes) {
    |a| <= |b| && b[|b| - |a|..] == a
  }

  predicate BoundedVolume(limit: nat, e: Entry) {
    e.Absent? || (e.Regular? && |e.data| <= limit)
  }

  /** The check rotation makes before it moves anything. */
  predicate VolumesOk(limit: nat, d: seq<Entry>) {
    forall i :: 1 <= i < |d| ==> BoundedVolume(limit, d[i])
  }

  /** No file of this date is over the limit. */
  predicate Bounded(limit: nat, d: seq<Entry>) {
    forall i :: 0 <= i < |d| && d[i].Regular? ==> |d[i].data| <= limit
  }

  /** The first vacant volume at or after slot i; |d| when there is none. */
  function FirstVacant(d: seq<Entry>, i: nat): (g: nat)
    requires i <= |d|
    ensures i <= g <= |d|
    ensures forall j :: i <= j < g ==> !d[j].Absent?
    ensures g < |d| ==> d[g].Absent?
    decreases |d| - i
  {
    if i == |d| || d[i].Absent? then i else FirstVacant(d, i + 1)
  }

  /** Number of vacant volumes. */
  function Vacant(d: seq<Entry>): nat {
    if |d| <= 1 then 0 else Vacant(d[..|d| - 1]) + (if d[|d| - 1].Absent? then 1 else 0)
  }

  /** The slot the vacancy ends up in: the first vacant one, or the oldest, which is given up. */
  function Gap(d: seq<Entry>): (g: nat)
    requires |d| >= 2
    ensures 1 <= g < |d|
  {
    var g := FirstVacant(d, 1);
    if g < |d| then g else |d| - 1
  }

  /** A completed rotation: everything before the gap moves up one slot. */
  function Rotated(d: seq<Entry>): (r: seq<Entry>)
    requires |d| >= 2
    ensures |r| == |d|
  {
    [Absent] + d[..Gap(d)] + d[Gap(d) + 1..]
  }

  /** The same rotation stopped with the vacancy at slot h. */
  function Hole(d: seq<Entry>, h: nat, g: nat): (r: seq<Entry>)
    requires 1 <= h <= g < |d|
    ensures |r| == |d|
  {
    d[..h] + [Absent] + d[h..g] + d[g + 1..]
  }

  /** The directory an uninterrupted write ends in, and the bytes no retry can ever persist:
      a foreign object or an oversized file in the way is left alone. */
  function Ideal(limit: nat, d: seq<Entry>, data: Bytes): (r: (seq<Entry>, Bytes))
    requires limit > 0 && |d| >= 2
    ensures |r.0| == |d|
    decreases |data|, if d[0].Absent? then 1 else if d[0].Regular? && |d[0].data| == limit then 2 else 0
  {
    if data == [] then (d, [])
    else match d[0]
      case Irregular => (d, data)
      case Absent => Ideal(limit, d[0 := Regular([])], data)
      case Regular(a) =>
        if |a| > limit then (d, data)
        else if |a| == limit then
          if VolumesOk(limit, d) then Ideal(limit, Rotated(d), data) else (d, data)
        else
          var n := if |data| > limit - |a| then limit - |a| else |data|;
          Ideal(limit, d[0 := Regular(a + data[..n])], data[n..])
  }

  // ---- what one file operation does to the stream ----

  lemma AppendAssociates(a: Bytes, b: Bytes, c: Bytes)
    ensures (a + b) + c == a + (b + c)
  {
  }

  lemma {:induction false} StreamConcat(a: seq<Entry>, b: seq<Entry>)
    ensures Stream(a + b) == Stream(b) + Stream(a)
  {
    if a == [] {
      assert a + b == b;
    } else {
      StreamConcat(a[1..], b);
      assert (a + b)[1..] == a[1..] + b && (a + b)[0] == a[0];
      AppendAssociates(Stream(b), Stream(a[1..]), Contents(a[0]));
    }
  }

  lemma StreamAppend(d: seq<Entry>, chunk: Bytes)
    requires |d| >= 1 && d[0].Regular?
    ensures Stream(d[0 := Regular(d[0].data + chunk)]) == Stream(d) + chunk
  {
    assert d[0 := Regular(d[0].data + chunk)][1..] == d[1..];
  }

  lemma StreamActive(d: seq<Entry>, e: Entry)
    requires |d| >= 1 && Contents(d[0]) == Contents(e)
    ensures Stream(d[0 := e]) == Stream(d)
  {
    assert d[0 := e][1..] == d[1..];
  }

  lemma StreamSingle(e: Entry)
    ensures Stream([e]) == Contents(e)
  {
    assert Stream([e][1..]) == [];
  }

  /** Moving one entry up into a vacancy is invisible to a reader. */
  lemma {:induction false} StreamSwap(d: seq<Entry>, h: nat)
    requires h + 1 < |d| && d[h + 1].Absent?
    ensures Stream(d[h + 1 := d[h]][h := Absent]) == Stream(d)
  {
    var d' := d[h + 1 := d[h]][h := Absent];
    if h == 0 {
      assert d'[1..][0] == d[0] && d[1..][0] == Absent;
      assert d'[1..][1..] == d[1..][1..];
    } else {
      StreamSwap(d[1..], h - 1);
      assert d'[1..] == d[1..][h := d[1..][h - 1]][h - 1 := Absent];
    }
  }

  lemma {:induction false} StreamHole(d: seq<Entry>, h: nat, g: nat)
    requires 1 <= h <= g < |d| && d[g].Absent?
    ensures Stream(Hole(d, h, g)) == Stream(d)
    decreases g - h
  {
    if h == g {
      assert Hole(d, h, g) == d;
    } else {
      StreamHole(d, h + 1, g);
      HoleStep(d, h + 1, g);
      StreamSwap(Hole(d, h + 1, g), h);
    }
  }

  lemma StreamRotated(d: seq<Entry>)
    requires |d| >= 2 && d[Gap(d)].Absent?
    ensures Stream(Rotated(d)) == Stream(d)
  {
    StreamHole(d, 1, Gap(d));
    HoleLast(d, Gap(d));
    StreamSwap(Hole(d, 1, Gap(d)), 0);
  }

  /** Giving up the oldest volume removes a prefix of the stream. */
  lemma StreamRemoveOldest(d: seq<Entry>)
    requires |d| >= 2
    ensures IsSuffix(Stream(d[|d| - 1 := Absent]), Stream(d))
  {
    var k := |d| - 1;
    assert d == d[..k] + [d[k]];
    assert d[k := Absent] == d[..k] + [Absent];
    StreamConcat(d[..k], [d[k]]);
    StreamConcat(d[..k], [Absent]);
    StreamSingle(d[k]);
    StreamSingle(Absent);
  }

  lemma SuffixTransitive(a: Bytes, b: Bytes, c: Bytes)
    requires IsSuffix(a, b) && IsSuffix(b, c)
    ensures IsSuffix(a, c)
  {
  }

  lemma SuffixExtend(a: Bytes, written: Bytes, b: Bytes, more: Bytes, c: Bytes)
    requires IsSuffix(b, a + written) && IsSuffix(c, b + more)
    ensures IsSuffix(c, a + (written + more))
  {
    SuffixAppend(b, a + written, more);
    AppendAssociates(a, written, more);
    SuffixTransitive(c, b + more, a + (written + more));
  }

  lemma SuffixAppend(a: Bytes, b: Bytes, c: Bytes)
    requires IsSuffix(a, b)
    ensures IsSuffix(a + c, b + c)
  {
  }

  // ---- vacancies ----

  lemma {:induction false} VacantUpdate(d: seq<Entry>, i: nat, e: Entry)
    requires 1 <= i < |d|
    ensures Vacant(d[i := e]) == Vacant(d) - (if d[i].Absent? then 1 else 0) + (if e.Absent? then 1 else 0)
  {
    var k := |d| - 1;
    var d' := d[i := e];
    if i == k {
      assert d'[..k] == d[..k];
    } else {
      VacantUpdate(d[..k], i, e);
      assert d'[..k] == d[..k][i := e];
    }
  }

  lemma {:induction false} VacantActive(d: seq<Entry>, e: Entry)
    requires |d| >= 1
    ensures Vacant(d[0 := e]) == Vacant(d)
  {
    if |d| > 1 {
      VacantActive(d[..|d| - 1], e);
      assert d[0 := e][..|d| - 1] == d[..|d| - 1][0 := e];
    }
  }

  lemma {:induction false} VacantZero(d: seq<Entry>)
    requires |d| >= 1
    ensures Vacant(d) == 0 <==> forall i :: 1 <= i < |d| ==> !d[i].Absent?
  {
    if |d| > 1 {
      VacantZero(d[..|d| - 1]);
    }
  }

  /** One rename of the shift, on the view. */
  lemma HoleStep(d: seq<Entry>, h: nat, g: nat)
    requires 2 <= h <= g < |d|
    ensures Hole(d, h, g)[h := Hole(d, h, g)[h - 1]][h - 1 := Absent] == Hole(d, h - 1, g)
  {
  }

  lemma HoleLast(d: seq<Entry>, g: nat)
    requires 1 <= g < |d| && d[g].Absent? && g == Gap(d)
    ensures Hole(d, g, g) == d
    ensures Hole(d, 1, g)[1 := d[0]][0 := Absent] == Rotated(d)
  {
  }

  lemma {:induction false} FirstVacantIs(d: seq<Entry>, i: nat, h: nat)
    requires i <= h <= |d|
    requires forall j :: i <= j < h ==> !d[j].Absent?
    requires h < |d| ==> d[h].Absent?
    ensures FirstVacant(d, i) == h
    decreases |d| - i
  {
    if i < h {
      FirstVacantIs(d, i + 1, h);
    }
  }

  /** However far a rotation got, finishing it gives the same directory. */
  lemma RotatedFromHole(d: seq<Entry>, h: nat)
    requires |d| >= 2 && 1 <= h <= Gap(d) && d[Gap(d)].Absent?
    ensures Gap(Hole(d, h, Gap(d))) == h && Hole(d, h, Gap(d))[h].Absent?
    ensures Rotated(Hole(d, h, Gap(d))) == Rotated(d)
  {
    var g := Gap(d);
    var e := Hole(d, h, g);
    FirstVacantIs(e, 1, h);
    assert e[..h] == d[..h];
    assert e[h + 1..] == d[h..g] + d[g + 1..];
    assert d[..g] == d[..h] + d[h..g];
  }

  lemma RotatedAfterRemoval(d: seq<Entry>)
    requires |d| >= 2 && FirstVacant(d, 1) == |d|
    ensures Gap(d[|d| - 1 := Absent]) == |d| - 1
    ensures Rotated(d[|d| - 1 := Absent]) == Rotated(d)
  {
    var e := d[|d| - 1 := Absent];
    FirstVacantIs(e, 1, |d| - 1);
    assert e[..|d| - 1] == d[..|d| - 1];
  }
}
