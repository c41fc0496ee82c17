/**
  Whole runs of the log writer over one date: attempts that stop anywhere, process restarts in
  between, and what the directory holds at the end.
 */
module LogHistory {
  import opened Volumes

  /** What one attempt to write data promises after persisting n bytes, giving up `removed`
      volumes and completing `shifted` rotations, wherever it was interrupted. */
  ghost predicate Progress(limit: nat, d: seq<Entry>, data: Bytes, n: nat, removed: nat, shifted: nat, d': seq<Entry>)
    requires limit > 0 && |d| >= 2
  {
    && |d'| == |d| && n <= |data|
    && Ideal(limit, d', data[n..]) == Ideal(limit, d, data)
    && IsSuffix(Stream(d'), Stream(d) + data[..n])
    && (Bounded(limit, d) ==> Bounded(limit, d'))
    && Vacant(d') + shifted == Vacant(d) + removed
    && Vacant(d') <= (if Vacant(d) > 1 then Vacant(d) else 1)
  }

  /** Opening a writer again may create the active file. */
  ghost predicate Reopens(d: seq<Entry>, d': seq<Entry>)
    requires |d| >= 2
  {
    d' == d || (d[0].Absent? && d' == d[0 := Regular([])])
  }

  // ---- the file operations of one attempt, one at a time ----

  lemma ProgressNothing(limit: nat, d: seq<Entry>, data: Bytes)
    requires limit > 0 && |d| >= 2
    ensures Progress(limit, d, data, 0, 0, 0, d)
  {
    assert data[0..] == data;
    assert Stream(d) + data[..0] == Stream(d);
  }

  lemma IdealNothing(limit: nat, d: seq<Entry>)
    requires limit > 0 && |d| >= 2
    ensures Ideal(limit, d, []) == (d, [])
  {
  }

  /** What no retry can get past: a foreign object, an oversized file, a volume set that may not be shifted. */
  lemma IdealStuck(limit: nat, d: seq<Entry>, data: Bytes)
    requires limit > 0 && |d| >= 2 && !d[0].Absent?
    requires d[0].Regular? ==> |d[0].data| > limit || (|d[0].data| == limit && !VolumesOk(limit, d))
    ensures Ideal(limit, d, data) == (d, data)
  {
  }

  lemma ProgressIdeal(limit: nat, d: seq<Entry>, data: Bytes, n: nat, r: nat, c: nat, d': seq<Entry>)
    requires limit > 0 && |d| >= 2 && Progress(limit, d, data, n, r, c, d')
    ensures |d'| == |d| && n <= |data| && Ideal(limit, d', data[n..]) == Ideal(limit, d, data)
  {
  }

  lemma ProgressCompose(limit: nat, d: seq<Entry>, data: Bytes, n: nat, r: nat, c: nat, e: seq<Entry>, m: nat, r': nat, c': nat, f: seq<Entry>)
    requires limit > 0 && |d| >= 2
    requires Progress(limit, d, data, n, r, c, e)
    requires Progress(limit, e, data[n..], m, r', c', f)
    ensures Progress(limit, d, data, n + m, r + r', c + c', f)
  {
    assert data[n..][m..] == data[n + m..];
    SuffixExtend(Stream(d), data[..n], Stream(e), data[n..][..m], Stream(f));
    assert data[..n] + data[n..][..m] == data[..n + m];
  }

  lemma ProgressCreate(limit: nat, d: seq<Entry>, data: Bytes)
    requires limit > 0 && |d| >= 2 && d[0].Absent? && data != []
    ensures Progress(limit, d, data, 0, 0, 0, d[0 := Regular([])])
  {
    StreamActive(d, Regular([]));
    VacantActive(d, Regular([]));
    assert data[0..] == data;
    assert Stream(d) + data[..0] == Stream(d);
  }

  lemma ProgressReopen(limit: nat, d: seq<Entry>, data: Bytes, n: nat, r: nat, c: nat, e: seq<Entry>, e': seq<Entry>)
    requires limit > 0 && |d| >= 2
    requires Progress(limit, d, data, n, r, c, e) && data[n..] != [] && Reopens(e, e')
    ensures Progress(limit, d, data, n, r, c, e')
  {
    if e' != e {
      ProgressCreate(limit, e, data[n..]);
      ProgressCompose(limit, d, data, n, r, c, e, 0, 0, 0, e');
    }
  }

  lemma ProgressAppend(limit: nat, d: seq<Entry>, data: Bytes, n: nat)
    requires limit > 0 && |d| >= 2 && d[0].Regular? && |d[0].data| < limit
    requires n <= |data| && n <= limit - |d[0].data|
    ensures Progress(limit, d, data, n, 0, 0, d[0 := Regular(d[0].data + data[..n])])
  {
    StreamAppend(d, data[..n]);
    VacantActive(d, Regular(d[0].data + data[..n]));
    IdealSplit(limit, d, data[..n], data[n..]);
    assert data[..n] + data[n..] == data;
    IdealFits(limit, d, data[..n]);
  }

  lemma ProgressRemove(limit: nat, d: seq<Entry>, data: Bytes)
    requires limit > 0 && |d| >= 2 && VolumesOk(limit, d) && FirstVacant(d, 1) == |d|
    requires d[0].Regular? && |d[0].data| == limit && data != []
    ensures Progress(limit, d, data, 0, 1, 0, d[|d| - 1 := Absent])
  {
    var e := d[|d| - 1 := Absent];
    StreamRemoveOldest(d);
    VacantUpdate(d, |d| - 1, Absent);
    VacantZero(d);
    RotatedAfterRemoval(d);
    assert data[0..] == data;
    assert Stream(d) + data[..0] == Stream(d);
  }

  /** A shift stopped with the vacancy at slot h. */
  lemma ProgressHole(limit: nat, d: seq<Entry>, data: Bytes, h: nat)
    requires limit > 0 && |d| >= 2 && VolumesOk(limit, d)
    requires 1 <= h <= Gap(d) && d[Gap(d)].Absent?
    requires d[0].Regular? && |d[0].data| == limit && data != []
    ensures Progress(limit, d, data, 0, 0, 0, Hole(d, h, Gap(d)))
  {
    var e := Hole(d, h, Gap(d));
    StreamHole(d, h, Gap(d));
    VacantHole(d, h, Gap(d));
    RotatedFromHole(d, h);
    VolumesOkHole(limit, d, h, Gap(d));
    IdealFull(limit, d, data);
    IdealFull(limit, e, data);
    assert data[0..] == data;
    assert Stream(d) + data[..0] == Stream(d);
  }

  lemma IdealFull(limit: nat, d: seq<Entry>, data: Bytes)
    requires limit > 0 && |d| >= 2 && VolumesOk(limit, d) && data != []
    requires d[0].Regular? && |d[0].data| == limit
    ensures Ideal(limit, d, data) == Ideal(limit, Rotated(d), data)
  {
  }

  lemma ProgressShifted(limit: nat, d: seq<Entry>, data: Bytes)
    requires limit > 0 && |d| >= 2 && VolumesOk(limit, d) && d[Gap(d)].Absent?
    requires d[0].Regular? && |d[0].data| == limit && data != []
    ensures Progress(limit, d, data, 0, 0, 1, Rotated(d))
  {
    var g := Gap(d);
    StreamRotated(d);
    HoleLast(d, g);
    VacantHole(d, 1, g);
    VacantUpdate(Hole(d, 1, g), 1, d[0]);
    VacantActive(Hole(d, 1, g)[1 := d[0]], Absent);
    assert data[0..] == data;
    assert Stream(d) + data[..0] == Stream(d);
  }

  lemma VacantSwap(e: seq<Entry>, h: nat)
    requires 1 <= h && h + 1 < |e| && e[h + 1].Absent?
    ensures Vacant(e[h + 1 := e[h]][h := Absent]) == Vacant(e)
  {
    VacantUpdate(e, h + 1, e[h]);
    VacantUpdate(e[h + 1 := e[h]], h, Absent);
  }

  lemma {:induction false} VacantHole(d: seq<Entry>, h: nat, g: nat)
    requires 1 <= h <= g < |d| && d[g].Absent?
    ensures Vacant(Hole(d, h, g)) == Vacant(d)
    decreases g - h
  {
    if h == g {
      assert Hole(d, h, g) == d;
    } else {
      VacantHole(d, h + 1, g);
      HoleStep(d, h + 1, g);
      VacantSwap(Hole(d, h + 1, g), h);
    }
  }

  lemma VolumesOkHole(limit: nat, d: seq<Entry>, h: nat, g: nat)
    requires 1 <= h <= g < |d| && VolumesOk(limit, d)
    ensures VolumesOk(limit, Hole(d, h, g))
    ensures Bounded(limit, d) ==> Bounded(limit, Hole(d, h, g))
  {
    forall i | 0 <= i < |d|
      ensures Hole(d, h, g)[i] == (if i < h then d[i] else if i == h then Absent else if i <= g then d[i - 1] else d[i])
    {
    }
  }

  lemma IdealFits(limit: nat, d: seq<Entry>, data: Bytes)
    requires limit > 0 && |d| >= 2 && d[0].Regular? && |d[0].data| < limit && |data| <= limit - |d[0].data|
    ensures Ideal(limit, d, data) == (d[0 := Regular(d[0].data + data)], [])
  {
    if data == [] {
      assert d[0].data + data == d[0].data;
      assert d[0 := Regular(d[0].data + data)] == d;
    } else {
      assert data[..|data|] == data && data[|data|..] == [];
    }
  }

  // ---- chunk independence ----

  /** Writing a then b is writing a + b, however the bytes are split into calls. */
  lemma {:induction false} IdealSplit(limit: nat, d: seq<Entry>, a: Bytes, b: Bytes)
    requires limit > 0 && |d| >= 2
    requires Ideal(limit, d, a).1 == []
    ensures Ideal(limit, d, a + b) == Ideal(limit, Ideal(limit, d, a).0, b)
    decreases |a|, if d[0].Absent? then 1 else if d[0].Regular? && |d[0].data| == limit then 2 else 0
  {
    if a == [] {
      assert a + b == b;
    } else if b == [] {
      assert a + b == a;
    } else {
      match d[0]
      case Irregular =>
      case Absent => IdealSplit(limit, d[0 := Regular([])], a, b);
      case Regular(c) =>
        if |c| == limit {
          IdealSplit(limit, Rotated(d), a, b);
        } else if |c| < limit {
          var room := limit - |c|;
          if |a| >= room {
            assert (a + b)[..room] == a[..room];
            assert (a + b)[room..] == a[room..] + b;
            IdealSplit(limit, d[0 := Regular(c + a[..room])], a[room..], b);
          } else {
            IdealSplitInside(limit, d, a, b);
          }
        }
    }
  }

  lemma IdealSplitInside(limit: nat, d: seq<Entry>, a: Bytes, b: Bytes)
    requires limit > 0 && |d| >= 2 && d[0].Regular? && a != [] && b != []
    requires |d[0].data| + |a| < limit
    ensures Ideal(limit, d, a + b) == Ideal(limit, Ideal(limit, d, a).0, b)
  {
    var c := d[0].data;
    IdealFits(limit, d, a);
    var e := d[0 := Regular(c + a)];
    var room := limit - |c| - |a|;
    var m := if |b| > room then room else |b|;
    assert (a + b)[..|a| + m] == a + b[..m];
    assert (a + b)[|a| + m..] == b[m..];
    assert c + (a + b[..m]) == (c + a) + b[..m];
    assert d[0 := Regular(c + (a + b)[..|a| + m])] == e[0 := Regular((c + a) + b[..m])];
  }

  lemma {:induction false} IdealActive(limit: nat, d: seq<Entry>, data: Bytes)
    requires limit > 0 && |d| >= 2 && data != []
    requires Ideal(limit, d, data).1 == []
    ensures Ideal(limit, d, data).0[0].Regular?
    decreases |data|, if d[0].Absent? then 1 else if d[0].Regular? && |d[0].data| == limit then 2 else 0
  {
    match d[0]
    case Irregular =>
    case Absent => IdealActive(limit, d[0 := Regular([])], data);
    case Regular(a) =>
      if |a| == limit {
        IdealActive(limit, Rotated(d), data);
      } else if |a| < limit && |data| > limit - |a| {
        IdealActive(limit, d[0 := Regular(a + data[..limit - |a|])], data[limit - |a|..]);
      }
  }

  // ---- runs ----

  datatype Step =
    | Wrote(data: Bytes, persisted: nat, removed: nat, shifted: nat, after: seq<Entry>)
    | Reopened(after: seq<Entry>)

  /** A run over one date: writes of arbitrary data that stop anywhere, and restarts. */
  ghost predicate IsRun(limit: nat, d: seq<Entry>, run: seq<Step>)
    requires limit > 0 && |d| >= 2
    decreases |run|
  {
    run == [] || (
      |run[0].after| == |d| &&
      match run[0]
      case Wrote(data, n, r, c, d') => Progress(limit, d, data, n, r, c, d') && IsRun(limit, d', run[1..])
      case Reopened(d') => Reopens(d, d') && IsRun(limit, d', run[1..])
    )
  }

  /** A run that retries: each write is given exactly the bytes not yet persisted. */
  ghost predicate Resumes(data: Bytes, run: seq<Step>) {
    run == [] ||
    if run[0].Reopened? then Resumes(data, run[1..])
    else run[0].data == data && run[0].persisted <= |data| && Resumes(data[run[0].persisted..], run[1..])
  }

  ghost function Last(d: seq<Entry>, run: seq<Step>): seq<Entry>
    decreases |run|
  {
    if run == [] then d else Last(run[0].after, run[1..])
  }

  ghost function Persisted(run: seq<Step>): Bytes {
    if run == [] then []
    else if run[0].Wrote? && run[0].persisted <= |run[0].data| then
      run[0].data[..run[0].persisted] + Persisted(run[1..])
    else Persisted(run[1..])
  }

  ghost function Removed(run: seq<Step>): nat {
    if run == [] then 0 else (if run[0].Wrote? then run[0].removed else 0) + Removed(run[1..])
  }

  ghost function Shifted(run: seq<Step>): nat {
    if run == [] then 0 else (if run[0].Wrote? then run[0].shifted else 0) + Shifted(run[1..])
  }

  lemma ReopenKeeps(limit: nat, d: seq<Entry>, d': seq<Entry>)
    requires limit > 0 && |d| >= 2 && Reopens(d, d')
    ensures Stream(d') == Stream(d) && Vacant(d') == Vacant(d)
    ensures Bounded(limit, d) ==> Bounded(limit, d')
    ensures forall data :: data != [] ==> Ideal(limit, d', data) == Ideal(limit, d, data)
  {
    if d' != d {
      StreamActive(d, Regular([]));
      VacantActive(d, Regular([]));
    }
  }

  /** Under every pattern of failures and restarts the volumes hold a suffix of what was there
      followed by everything persisted, and no file grows past the limit. */
  lemma {:induction false} RetainedSuffix(limit: nat, d: seq<Entry>, run: seq<Step>)
    requires limit > 0 && |d| >= 2 && IsRun(limit, d, run)
    ensures |Last(d, run)| == |d|
    ensures IsSuffix(Stream(Last(d, run)), Stream(d) + Persisted(run))
    ensures Bounded(limit, d) ==> Bounded(limit, Last(d, run))
    decreases |run|
  {
    if run == [] {
      assert Stream(d) + [] == Stream(d);
    } else {
      var d', rest := run[0].after, run[1..];
      RetainedSuffix(limit, d', rest);
      if run[0].Wrote? {
        SuffixExtend(Stream(d), run[0].data[..run[0].persisted], Stream(d'), Persisted(rest), Stream(Last(d', rest)));
      } else {
        ReopenKeeps(limit, d, d');
      }
    }
  }

  /** One rotation gives up at most one volume however often it is retried: over a whole run the
      volumes given up outnumber the completed rotations by at most the one still in progress,
      and never when a volume was vacant to begin with. */
  lemma {:induction false} OneVolumePerRotation(limit: nat, d: seq<Entry>, run: seq<Step>)
    requires limit > 0 && |d| >= 2 && IsRun(limit, d, run)
    ensures |Last(d, run)| == |d|
    ensures Vacant(Last(d, run)) + Shifted(run) == Vacant(d) + Removed(run)
    ensures Removed(run) <= Shifted(run) + 1
    ensures Vacant(d) > 0 ==> Removed(run) <= Shifted(run)
  {
    VacancyLedger(limit, d, run);
  }

  lemma {:induction false} VacancyLedger(limit: nat, d: seq<Entry>, run: seq<Step>)
    requires limit > 0 && |d| >= 2 && IsRun(limit, d, run)
    ensures |Last(d, run)| == |d|
    ensures Vacant(Last(d, run)) + Shifted(run) == Vacant(d) + Removed(run)
    ensures Vacant(Last(d, run)) <= (if Vacant(d) > 1 then Vacant(d) else 1)
    decreases |run|
  {
    if run != [] {
      VacancyLedger(limit, run[0].after, run[1..]);
      if run[0].Reopened? {
        ReopenKeeps(limit, d, run[0].after);
      }
    }
  }

  /** A write interrupted any number of times, across restarts, and resumed with exactly the bytes
      not yet persisted ends where the uninterrupted write ends. */
  lemma FaultTransparency(limit: nat, d: seq<Entry>, data: Bytes, run: seq<Step>)
    requires limit > 0 && |d| >= 2 && data != []
    requires IsRun(limit, d, run) && Resumes(data, run)
    requires |Persisted(run)| == |data|
    ensures Persisted(run) == data
    ensures Ideal(limit, d, data) == (Last(d, run), [])
  {
    ResumedRun(limit, d, data, run);
  }

  lemma {:induction false} ResumedRun(limit: nat, d: seq<Entry>, data: Bytes, run: seq<Step>)
    requires limit > 0 && |d| >= 2 && (data != [] || !d[0].Absent?)
    requires IsRun(limit, d, run) && Resumes(data, run)
    ensures |Last(d, run)| == |d| && |Persisted(run)| <= |data| && Persisted(run) == data[..|Persisted(run)|]
    ensures Ideal(limit, Last(d, run), data[|Persisted(run)|..]) == Ideal(limit, d, data)
    decreases |run|
  {
    hide Progress, Ideal;
    if run == [] {
      assert data[0..] == data;
    } else if run[0].Reopened? {
      ReopenKeeps(limit, d, run[0].after);
      ResumedRun(limit, run[0].after, data, run[1..]);
    } else {
      var n, d' := run[0].persisted, run[0].after;
      ProgressIdeal(limit, d, data, n, run[0].removed, run[0].shifted, d');
      WroteLeaves(limit, d, run[0]);
      ResumedRun(limit, d', data[n..], run[1..]);
      SplitData(data, n, |Persisted(run[1..])|);
    }
  }

  lemma SplitData(data: Bytes, n: nat, m: nat)
    requires n + m <= |data|
    ensures data[n..][m..] == data[n + m..]
    ensures data[..n] + data[n..][..m] == data[..n + m]
  {
  }

  /** An attempt that persisted everything leaves an active file behind. */
  lemma WroteLeaves(limit: nat, d: seq<Entry>, s: Step)
    requires limit > 0 && |d| >= 2 && s.Wrote? && (s.data != [] || !d[0].Absent?)
    requires Progress(limit, d, s.data, s.persisted, s.removed, s.shifted, s.after)
    ensures s.data[s.persisted..] != [] || !s.after[0].Absent?
  {
    if s.data[s.persisted..] == [] {
      assert Ideal(limit, s.after, []) == (s.after, []);
      if s.data != [] { IdealActive(limit, d, s.data); }
    }
  }

  // ---- closed form ----

  /** Where the j-th block of limit bytes starts. */
  function Start(limit: nat, j: nat): nat {
    if j == 0 then 0 else Start(limit, j - 1) + limit
  }

  /** The number of full blocks before the last one in a stream of n bytes. */
  function LastBlock(limit: nat, n: nat): (f: nat)
    requires limit > 0 && n > 0
    ensures Start(limit, f) < n <= Start(limit, f) + limit
  {
    if n <= limit then 0 else LastBlock(limit, n - limit) + 1
  }

  lemma {:induction false} StartIsProduct(limit: nat, j: nat)
    ensures Start(limit, j) == j * limit
  {
    if j > 0 {
      StartIsProduct(limit, j - 1);
      assert j * limit == (j - 1) * limit + limit;
    }
  }

  lemma {:induction false} StartMonotone(limit: nat, i: nat, j: nat)
    requires i < j
    ensures Start(limit, i) + limit <= Start(limit, j)
    decreases j
  {
    if i < j - 1 {
      StartMonotone(limit, i, j - 1);
    }
  }

  /** The directory after s was written to an empty date: the active file is the last block and
      volume i the i-th block before it, as far as there are volumes. */
  function Layout(limit: nat, k: nat, s: Bytes): (d: seq<Entry>)
    requires limit > 0 && k >= 1 && s != []
    ensures |d| == k + 1
  {
    var f := LastBlock(limit, |s|);
    seq(k + 1, i requires 0 <= i => if i > f then Absent else Regular(Block(limit, s, f - i)))
  }

  function Block(limit: nat, s: Bytes, j: nat): Bytes {
    var low, high := Start(limit, j), Start(limit, j + 1);
    if high <= |s| then s[low..high] else if low <= |s| then s[low..] else []
  }

  lemma LastBlockIs(limit: nat, f: nat, n: nat)
    requires limit > 0 && Start(limit, f) < n <= Start(limit, f) + limit
    ensures LastBlock(limit, n) == f
  {
    var g := LastBlock(limit, n);
    if g < f { StartMonotone(limit, g, f); }
    if f < g { StartMonotone(limit, f, g); }
  }

  lemma LayoutAt(limit: nat, k: nat, s: Bytes, f: nat, i: nat)
    requires limit > 0 && k >= 1 && s != [] && i <= k
    requires Start(limit, f) < |s| <= Start(limit, f) + limit
    ensures i > f ==> Layout(limit, k, s)[i] == Absent
    ensures i == 0 ==> Layout(limit, k, s)[i] == Regular(s[Start(limit, f)..])
    ensures 0 < i <= f ==> Start(limit, f - i) + limit <= Start(limit, f)
    ensures 0 < i <= f ==> Layout(limit, k, s)[i] == Regular(s[Start(limit, f - i)..Start(limit, f - i) + limit])
  {
    LastBlockIs(limit, f, |s|);
    if 0 < i <= f {
      StartMonotone(limit, f - i, f);
    }
  }

  /** The closed form in numbers: with f full blocks before the last byte's, the active file starts at
      byte f * limit and volume i is the i-th block before it; the other volumes are vacant. */
  lemma LayoutBlocks(limit: nat, k: nat, s: Bytes, f: nat, i: nat)
    requires limit > 0 && k >= 1 && s != [] && i <= k && f == (|s| - 1) / limit
    ensures f * limit < |s| <= (f + 1) * limit
    ensures i > f ==> Layout(limit, k, s)[i] == Absent
    ensures i == 0 ==> Layout(limit, k, s)[i] == Regular(s[f * limit..])
    ensures 0 < i <= f ==> 0 <= (f - i) * limit <= (f - i + 1) * limit <= |s|
    ensures 0 < i <= f ==> Layout(limit, k, s)[i] == Regular(s[(f - i) * limit..(f - i + 1) * limit])
  {
    hide Layout;
    StartIsProduct(limit, f);
    StartIsProduct(limit, f + 1);
    LayoutAt(limit, k, s, f, i);
    if 0 < i <= f {
      StartIsProduct(limit, f - i);
      StartIsProduct(limit, f - i + 1);
    }
  }

  /** Continuing from a closed form gives the closed form of the longer stream. */
  lemma {:induction false} LayoutExtends(limit: nat, k: nat, s: Bytes, data: Bytes)
    requires limit > 0 && k >= 1 && s != []
    ensures Ideal(limit, Layout(limit, k, s), data) == (Layout(limit, k, s + data), [])
    decreases |data|
  {
    if data == [] {
      assert s + data == s;
    } else {
      var n := LayoutStep(limit, k, s, data);
      LayoutExtends(limit, k, s + data[..n], data[n..]);
      assert s + data[..n] + data[n..] == s + data;
    }
  }

  /** One iteration of the write loop that persists something. */
  lemma LayoutStep(limit: nat, k: nat, s: Bytes, data: Bytes) returns (n: nat)
    requires limit > 0 && k >= 1 && s != [] && data != []
    ensures 0 < n <= |data|
    ensures Ideal(limit, Layout(limit, k, s), data) == Ideal(limit, Layout(limit, k, s + data[..n]), data[n..])
  {
    var d := Layout(limit, k, s);
    LayoutAt(limit, k, s, LastBlock(limit, |s|), 0);
    var room := limit - |d[0].data|;
    if room > 0 {
      n := if |data| > room then room else |data|;
      LayoutGrow(limit, k, s, data[..n]);
      IdealGrows(limit, d, data, n);
    } else {
      n := if |data| > limit then limit else |data|;
      LayoutRotate(limit, k, s, data[..n]);
      IdealRotates(limit, d, data);
    }
  }

  lemma IdealGrows(limit: nat, d: seq<Entry>, data: Bytes, n: nat)
    requires limit > 0 && |d| >= 2 && data != [] && d[0].Regular? && |d[0].data| < limit
    requires n == if |data| > limit - |d[0].data| then limit - |d[0].data| else |data|
    ensures Ideal(limit, d, data) == Ideal(limit, d[0 := Regular(d[0].data + data[..n])], data[n..])
  {
  }

  lemma IdealFresh(limit: nat, d: seq<Entry>, data: Bytes)
    requires limit > 0 && |d| >= 2 && data != [] && d[0].Absent?
    ensures var n := if |data| > limit then limit else |data|;
            Ideal(limit, d, data) == Ideal(limit, d[0 := Regular(data[..n])], data[n..])
  {
    var n := if |data| > limit then limit else |data|;
    var e := d[0 := Regular([])];
    assert [] + data[..n] == data[..n];
    assert e[0 := Regular(data[..n])] == d[0 := Regular(data[..n])];
  }

  lemma IdealRotates(limit: nat, d: seq<Entry>, data: Bytes)
    requires limit > 0 && |d| >= 2 && VolumesOk(limit, d) && data != []
    requires d[0].Regular? && |d[0].data| == limit
    ensures var n := if |data| > limit then limit else |data|;
            Ideal(limit, d, data) == Ideal(limit, Rotated(d)[0 := Regular(data[..n])], data[n..])
  {
    IdealFull(limit, d, data);
    IdealFresh(limit, Rotated(d), data);
  }

  lemma LayoutGrow(limit: nat, k: nat, s: Bytes, chunk: Bytes)
    requires limit > 0 && k >= 1 && s != []
    requires Layout(limit, k, s)[0].Regular? && |Layout(limit, k, s)[0].data| + |chunk| <= limit
    ensures Layout(limit, k, s + chunk) == Layout(limit, k, s)[0 := Regular(Layout(limit, k, s)[0].data + chunk)]
  {
    hide Layout;
    var f := LastBlock(limit, |s|);
    LayoutAt(limit, k, s, f, 0);
    forall i | 0 <= i <= k
      ensures Layout(limit, k, s + chunk)[i] == Layout(limit, k, s)[0 := Regular(Layout(limit, k, s)[0].data + chunk)][i]
    {
      LayoutAt(limit, k, s, f, i);
      LayoutAt(limit, k, s + chunk, f, i);
    }
  }

  lemma RotatedAt(d: seq<Entry>, i: nat)
    requires 0 < i < |d|
    ensures Rotated(d)[i] == if i <= Gap(d) then d[i - 1] else d[i]
  {
  }

  lemma LayoutFull(limit: nat, k: nat, s: Bytes, f: nat)
    requires limit > 0 && k >= 1 && s != [] && |s| == Start(limit, f) + limit
    ensures Layout(limit, k, s)[0].Regular? && |Layout(limit, k, s)[0].data| == limit
    ensures VolumesOk(limit, Layout(limit, k, s))
    ensures Gap(Layout(limit, k, s)) == if f < k then f + 1 else k
  {
    var d := Layout(limit, k, s);
    LayoutAt(limit, k, s, f, 0);
    forall i | 1 <= i <= k ensures BoundedVolume(limit, d[i]) && (d[i].Absent? <==> i > f) {
      LayoutAt(limit, k, s, f, i);
    }
    FirstVacantIs(d, 1, if f < k then f + 1 else k + 1);
  }

  lemma LayoutRotate(limit: nat, k: nat, s: Bytes, chunk: Bytes)
    requires limit > 0 && k >= 1 && s != [] && chunk != [] && |chunk| <= limit
    requires Layout(limit, k, s)[0].Regular? && |Layout(limit, k, s)[0].data| >= limit
    ensures |Layout(limit, k, s)[0].data| == limit && VolumesOk(limit, Layout(limit, k, s))
    ensures Layout(limit, k, s + chunk) == Rotated(Layout(limit, k, s))[0 := Regular(chunk)]
  {
    var f := LastBlock(limit, |s|);
    LayoutAt(limit, k, s, f, 0);
    LayoutFull(limit, k, s, f);
    forall i | 0 <= i <= k
      ensures Layout(limit, k, s + chunk)[i] == Rotated(Layout(limit, k, s))[0 := Regular(chunk)][i]
    {
      LayoutRotateAt(limit, k, s, chunk, f, i);
    }
  }

  lemma LayoutRotateAt(limit: nat, k: nat, s: Bytes, chunk: Bytes, f: nat, i: nat)
    requires limit > 0 && k >= 1 && s != [] && chunk != [] && |chunk| <= limit && i <= k
    requires |s| == Start(limit, f) + limit
    ensures Layout(limit, k, s + chunk)[i] == if i == 0 then Regular(chunk) else Rotated(Layout(limit, k, s))[i]
  {
    LayoutAt(limit, k, s + chunk, f + 1, i);
    if i == 0 {
      assert (s + chunk)[Start(limit, f + 1)..] == chunk;
    } else {
      LayoutFull(limit, k, s, f);
      RotatedAt(Layout(limit, k, s), i);
      LayoutAt(limit, k, s, f, i);
      if i <= f + 1 {
        LayoutMoves(limit, k, s, chunk, f, i);
      }
    }
  }

  lemma LayoutMoves(limit: nat, k: nat, s: Bytes, chunk: Bytes, f: nat, i: nat)
    requires limit > 0 && k >= 1 && s != [] && chunk != [] && |chunk| <= limit
    requires |s| == Start(limit, f) + limit && 1 <= i <= k && i <= f + 1
    ensures Layout(limit, k, s + chunk)[i] == Layout(limit, k, s)[i - 1]
  {
    hide Layout;
    var low := Start(limit, f + 1 - i);
    assert Layout(limit, k, s + chunk)[i] == Regular((s + chunk)[low..low + limit]) by {
      LayoutAt(limit, k, s + chunk, f + 1, i);
    }
    assert low + limit <= |s| && Layout(limit, k, s)[i - 1] == Regular(s[low..low + limit]) by {
      LayoutAt(limit, k, s, f, i - 1);
      if i == 1 {
        assert s[low..] == s[low..low + limit];
      }
    }
    SliceOfPrefix(s, chunk, low, limit);
  }

  lemma SliceOfPrefix(s: Bytes, chunk: Bytes, low: nat, limit: nat)
    requires low + limit <= |s|
    ensures (s + chunk)[low..low + limit] == s[low..low + limit]
  {
  }

  /** From an empty date without failures: the closed form, however the bytes are split. */
  lemma ClosedForm(limit: nat, k: nat, s: Bytes)
    requires limit > 0 && k >= 1 && s != []
    ensures Ideal(limit, seq(k + 1, i => Absent), s) == (Layout(limit, k, s), [])
  {
    var d: seq<Entry> := seq(k + 1, i => Absent);
    var n := if |s| > limit then limit else |s|;
    IdealFresh(limit, d, s);
    LayoutFirst(limit, k, s[..n]);
    LayoutExtends(limit, k, s[..n], s[n..]);
    assert s[..n] + s[n..] == s;
  }

  lemma LayoutFirst(limit: nat, k: nat, s: Bytes)
    requires limit > 0 && k >= 1 && s != [] && |s| <= limit
    ensures Layout(limit, k, s) == seq(k + 1, i => Absent)[0 := Regular(s)]
  {
    forall i | 0 <= i <= k ensures Layout(limit, k, s)[i] == seq(k + 1, i => Absent)[0 := Regular(s)][i] {
      LayoutAt(limit, k, s, 0, i);
    }
  }

  lemma {:induction false} LayoutWriteAll(limit: nat, k: nat, s: Bytes, chunks: seq<Bytes>)
    requires limit > 0 && k >= 1 && s != []
    ensures WriteAll(limit, Layout(limit, k, s), chunks) == Layout(limit, k, s + Join(chunks))
    decreases |chunks|
  {
    hide Layout, Ideal;
    if chunks == [] {
      assert s + [] == s;
    } else {
      LayoutExtends(limit, k, s, chunks[0]);
      LayoutWriteAll(limit, k, s + chunks[0], chunks[1..]);
      assert s + chunks[0] + Join(chunks[1..]) == s + Join(chunks);
    }
  }

  /** From an empty date, any split of the bytes into calls leaves the closed form. */
  lemma {:induction false} ChunkIndependence(limit: nat, k: nat, chunks: seq<Bytes>)
    requires limit > 0 && k >= 1 && Join(chunks) != []
    ensures WriteAll(limit, seq(k + 1, i => Absent), chunks) == Layout(limit, k, Join(chunks))
    decreases |chunks|
  {
    if chunks[0] == [] {
      assert Join(chunks) == Join(chunks[1..]);
      ChunkIndependence(limit, k, chunks[1..]);
    } else {
      ClosedForm(limit, k, chunks[0]);
      LayoutWriteAll(limit, k, chunks[0], chunks[1..]);
    }
  }

  function WriteAll(limit: nat, d: seq<Entry>, chunks: seq<Bytes>): seq<Entry>
    requires limit > 0 && |d| >= 2
    decreases |chunks|
  {
    if chunks == [] then d else WriteAll(limit, Ideal(limit, d, chunks[0]).0, chunks[1..])
  }

  function Join(chunks: seq<Bytes>): Bytes {
    if chunks == [] then [] else chunks[0] + Join(chunks[1..])
  }
}
