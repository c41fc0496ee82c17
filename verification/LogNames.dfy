/**
  The names of dated log files and the calendar behind their retention.

  Dates are those of RFC 3339, section 5.6 (full-date); its section 5.1 notes that such strings
  sort chronologically, which the cleanup relies on and which is proved here.
 */
module LogNames {

  import opened Text

  // ---- calendar dates ----

  datatype Date = Date(year: nat, month: nat, day: nat)

  predicate IsLeap(y: nat) { y % 4 == 0 && (y % 100 != 0 || y % 400 == 0) }

  function DaysIn(y: nat, m: nat): (n: nat)
    ensures 28 <= n <= 31
  {
    if m == 2 then (if IsLeap(y) then 29 else 28)
    else if m == 4 || m == 6 || m == 9 || m == 11 then 30 else 31
  }

  /** A calendar date that the four-digit year format can write. */
  predicate IsDate(d: Date) {
    d.year <= 9999 && 1 <= d.month <= 12 && 1 <= d.day <= DaysIn(d.year, d.month)
  }

  function DaysBeforeMonth(y: nat, m: nat): nat {
    if m <= 1 then 0 else DaysBeforeMonth(y, m - 1) + DaysIn(y, m - 1)
  }

  function DaysBeforeYear(y: nat): nat {
    if y == 0 then 0 else DaysBeforeYear(y - 1) + DaysBeforeMonth(y - 1, 13)
  }

  /** Days since the start of year 0: the meaning of a date as a point in time. */
  function DayNumber(d: Date): nat {
    DaysBeforeYear(d.year) + DaysBeforeMonth(d.year, d.month) + d.day
  }

  /** The calendar day before d; within year 0 only as far as a cutoff of year 1 needs it. */
  function DayBefore(d: Date): (r: Date)
    requires IsDate(d) && (d.year >= 1 || d.day > 1)
    ensures IsDate(r) && (r.year >= 1 || r.day == 31 || (d.year == 0 && r.day + 1 == d.day))
  {
    if d.day > 1 then d.(day := d.day - 1)
    else if d.month > 1 then Date(d.year, d.month - 1, DaysIn(d.year, d.month - 1))
    else Date(d.year - 1, 12, 31)
  }

  lemma DayBeforeNumber(d: Date)
    requires IsDate(d) && (d.year >= 1 || d.day > 1)
    ensures DayNumber(DayBefore(d)) + 1 == DayNumber(d)
  {
    if d.day == 1 && d.month > 1 {
      assert DaysBeforeMonth(d.year, d.month) == DaysBeforeMonth(d.year, d.month - 1) + DaysIn(d.year, d.month - 1);
    } else if d.day == 1 {
      var y := d.year - 1;
      assert DaysBeforeMonth(y, 13) == DaysBeforeMonth(y, 12) + DaysIn(y, 12);
      assert DaysBeforeYear(d.year) == DaysBeforeYear(y) + DaysBeforeMonth(y, 13);
    }
  }

  /** The cutoff of the retention policy: four calendar days before today. */
  function FourDaysBefore(d: Date): (r: Date)
    requires IsDate(d) && d.year >= 1
    ensures IsDate(r)
  {
    DayBefore(DayBefore(DayBefore(DayBefore(d))))
  }

  lemma FourDaysBeforeNumber(d: Date)
    requires IsDate(d) && d.year >= 1
    ensures DayNumber(FourDaysBefore(d)) + 4 == DayNumber(d)
  {
    var a := DayBefore(d);
    var b := DayBefore(a);
    var c := DayBefore(b);
    DayBeforeNumber(d);
    DayBeforeNumber(a);
    DayBeforeNumber(b);
    DayBeforeNumber(c);
  }

  lemma {:induction false} MonthsMonotone(y: nat, m: nat, m': nat)
    requires 1 <= m < m' <= 13
    ensures DaysBeforeMonth(y, m) + DaysIn(y, m) <= DaysBeforeMonth(y, m')
    decreases m'
  {
    if m + 1 < m' {
      MonthsMonotone(y, m, m' - 1);
    }
  }

  lemma {:induction false} YearsMonotone(y: nat, y': nat)
    requires y < y'
    ensures DaysBeforeYear(y) + DaysBeforeMonth(y, 13) <= DaysBeforeYear(y')
    decreases y'
  {
    if y + 1 < y' {
      YearsMonotone(y, y' - 1);
    }
  }

  predicate DateLess(a: Date, b: Date) {
    a.year < b.year || (a.year == b.year && (a.month < b.month || (a.month == b.month && a.day < b.day)))
  }

  lemma DateLessIsEarlier(a: Date, b: Date)
    requires IsDate(a) && IsDate(b)
    ensures DateLess(a, b) <==> DayNumber(a) < DayNumber(b)
  {
    if DateLess(a, b) {
      DateLessEarlier(a, b);
    } else if a != b {
      DateLessEarlier(b, a);
    }
  }

  lemma DateLessEarlier(a: Date, b: Date)
    requires IsDate(a) && IsDate(b) && DateLess(a, b)
    ensures DayNumber(a) < DayNumber(b)
  {
    MonthsMonotone(a.year, a.month, 13);
    if a.year < b.year {
      YearsMonotone(a.year, b.year);
    } else if a.month < b.month {
      MonthsMonotone(a.year, a.month, b.month);
    }
  }

  // ---- date strings ----

  function Two(n: nat): (s: string)
    requires n < 100
    ensures |s| == 2
  {
    [Digit(n / 10), Digit(n % 10)]
  }

  function Four(n: nat): (s: string)
    requires n < 10000
    ensures |s| == 4
  {
    Two(n / 100) + Two(n % 100)
  }

  /** The date layout 2006-01-02. */
  function Format(d: Date): (s: string)
    requires IsDate(d)
    ensures |s| == 10
  {
    Four(d.year) + "-" + Two(d.month) + "-" + Two(d.day)
  }

  function ParseTwo(s: string): (n: int)
    requires |s| == 2
    ensures n >= 0 ==> n < 100 && Two(n) == s
    ensures n < 0 ==> forall m: nat | m < 100 :: Two(m) != s
  {
    if IsDigit(s[0]) && IsDigit(s[1]) then
      var n := 10 * DigitValue(s[0]) + DigitValue(s[1]);
      assert n / 10 == DigitValue(s[0]) && n % 10 == DigitValue(s[1]);
      n
    else -1
  }

  /** time.Parse with the date layout, restricted to years from 1 on. */
  function Parse(s: string): (r: Option<Date>)
    ensures r.Some? ==> IsDate(r.value) && r.value.year >= 1 && Format(r.value) == s
  {
    if |s| != 10 || s[4] != '-' || s[7] != '-' then None
    else
      var century, year := ParseTwo(s[0..2]), ParseTwo(s[2..4]);
      var month, day := ParseTwo(s[5..7]), ParseTwo(s[8..10]);
      if century < 0 || year < 0 || month < 0 || day < 0 then None
      else
        var d := Date(100 * century + year, month, day);
        if d.year >= 1 && IsDate(d) then
          assert d.year / 100 == century && d.year % 100 == year;
          assert s == s[0..2] + s[2..4] + "-" + s[5..7] + "-" + s[8..10];
          Some(d)
        else None
  }

  lemma TwoInjective(m: nat, n: nat)
    requires m < 100 && n < 100 && Two(m) == Two(n)
    ensures m == n
  {
    assert Digit(m / 10) == Two(m)[0] == Two(n)[0] == Digit(n / 10);
    assert Digit(m % 10) == Two(m)[1] == Two(n)[1] == Digit(n % 10);
    assert DigitValue(Digit(m / 10)) == m / 10 && DigitValue(Digit(n / 10)) == n / 10;
    assert DigitValue(Digit(m % 10)) == m % 10 && DigitValue(Digit(n % 10)) == n % 10;
  }

  lemma ParseTwoOf(n: nat)
    requires n < 100
    ensures ParseTwo(Two(n)) == n
  {
    var m := ParseTwo(Two(n));
    assert m >= 0;
    TwoInjective(m, n);
  }

  /** Parsing inverts formatting on every date of the years 1 to 9999. */
  lemma ParseFormat(d: Date)
    requires IsDate(d) && d.year >= 1
    ensures Parse(Format(d)) == Some(d)
  {
    var s := Format(d);
    assert s[0..2] == Two(d.year / 100) && s[2..4] == Two(d.year % 100);
    assert s[5..7] == Two(d.month) && s[8..10] == Two(d.day);
    ParseTwoOf(d.year / 100);
    ParseTwoOf(d.year % 100);
    ParseTwoOf(d.month);
    ParseTwoOf(d.day);
    assert 100 * (d.year / 100) + d.year % 100 == d.year;
  }

  lemma TwoOrder(m: nat, n: nat)
    requires m < 100 && n < 100
    ensures StringLess(Two(m), Two(n)) <==> m < n
    ensures Two(m) == Two(n) <==> m == n
  {
    var a, b := Two(m), Two(n);
    assert a[1..] == [a[1]] && b[1..] == [b[1]];
    assert a[1..][1..] == [] && b[1..][1..] == [];
    assert a[0] as int - '0' as int == m / 10 && b[0] as int - '0' as int == n / 10;
    assert a[1] as int - '0' as int == m % 10 && b[1] as int - '0' as int == n % 10;
    assert !StringLess(a[1..][1..], b[1..][1..]);
    assert StringLess(a[1..], b[1..]) <==> a[1] < b[1];
    assert StringLess(a, b) <==> a[0] < b[0] || (a[0] == b[0] && a[1] < b[1]);
    if Two(m) == Two(n) { TwoInjective(m, n); }
  }

  lemma FourOrder(m: nat, n: nat)
    requires m < 10000 && n < 10000
    ensures StringLess(Four(m), Four(n)) <==> m < n
    ensures Four(m) == Four(n) <==> m == n
  {
    StringLessConcat(Two(m / 100), Two(m % 100), Two(n / 100), Two(n % 100));
    TwoOrder(m / 100, n / 100);
    TwoOrder(m % 100, n % 100);
    assert Four(m)[..2] == Two(m / 100) && Four(m)[2..] == Two(m % 100);
    assert Four(n)[..2] == Two(n / 100) && Four(n)[2..] == Two(n % 100);
  }

  lemma DashOrder(a: string, b: string)
    ensures StringLess("-" + a, "-" + b) <==> StringLess(a, b)
  {
    assert ("-" + a)[0] == '-' && ("-" + a)[1..] == a;
    assert ("-" + b)[0] == '-' && ("-" + b)[1..] == b;
  }

  /** Date strings sort like the days they name. */
  lemma DateStringOrder(a: Date, b: Date)
    requires IsDate(a) && IsDate(b)
    ensures StringLess(Format(a), Format(b)) <==> DayNumber(a) < DayNumber(b)
  {
    var da, db := Two(a.month) + ("-" + Two(a.day)), Two(b.month) + ("-" + Two(b.day));
    assert Format(a) == Four(a.year) + ("-" + da);
    assert Format(b) == Four(b.year) + ("-" + db);
    StringLessConcat(Four(a.year), "-" + da, Four(b.year), "-" + db);
    DashOrder(da, db);
    StringLessConcat(Two(a.month), "-" + Two(a.day), Two(b.month), "-" + Two(b.day));
    DashOrder(Two(a.day), Two(b.day));
    FourOrder(a.year, b.year);
    TwoOrder(a.month, b.month);
    TwoOrder(a.day, b.day);
    DateLessIsEarlier(a, b);
  }

  // ---- file names ----

  /** filepath.Ext of a name without directory: from the last dot on, or empty. */
  function Ext(base: string): (e: string)
    ensures |e| <= |base| && base[|base| - |e|..] == e
  {
    if base == [] then []
    else if base[|base| - 1] == '.' then "."
    else
      var e := Ext(base[..|base| - 1]);
      if e == [] then [] else e + [base[|base| - 1]]
  }

  function Prefix(base: string): string {
    base[..|base| - |Ext(base)|] + "-"
  }

  function DatePath(base: string, d: Date): string
    requires IsDate(d)
  {
    Prefix(base) + Format(d) + Ext(base)
  }

  /** Slot 0 is the file itself, slot i its i-th volume. */
  function Slot(path: string, i: nat): string {
    if i == 0 then path else path + "." + Decimal(i)
  }

  lemma {:induction false} ExtIs(stem: string, tail: string)
    requires forall i :: 0 <= i < |tail| ==> tail[i] != '.'
    ensures Ext(stem + ("." + tail)) == "." + tail
    decreases |tail|
  {
    var base := stem + ("." + tail);
    if tail == "" {
      assert base[|base| - 1] == '.';
    } else {
      var front, last := tail[..|tail| - 1], tail[|tail| - 1];
      ExtIs(stem, front);
      assert base == stem + ("." + front) + [last];
      ExtLonger(stem + ("." + front), last);
      hide Ext;
      assert "." + front + [last] == "." + tail;
    }
  }

  lemma ExtLonger(base: string, c: char)
    requires c != '.' && Ext(base) != ""
    ensures Ext(base + [c]) == Ext(base) + [c]
  {
    assert (base + [c])[..|base|] == base;
  }

  /** The date goes between stem and extension, which begins with the last dot. */
  lemma DatePathIs(stem: string, tail: string, d: Date)
    requires IsDate(d) && forall i :: 0 <= i < |tail| ==> tail[i] != '.'
    ensures DatePath(stem + ("." + tail), d) == stem + "-" + Format(d) + ("." + tail)
  {
    ExtIs(stem, tail);
    WithDate(stem, "." + tail, d);
    hide Format, Ext, DatePath;
  }

  lemma WithDate(stem: string, ext: string, d: Date)
    requires IsDate(d) && Ext(stem + ext) == ext
    ensures DatePath(stem + ext, d) == stem + "-" + Format(d) + ext
  {
    hide Format, Ext;
    assert (stem + ext)[..|stem|] == stem;
  }

  lemma SlotInjective(path: string, i: nat, j: nat)
    requires Slot(path, i) == Slot(path, j)
    ensures i == j
  {
    if i != 0 && j != 0 {
      assert Slot(path, i)[|path| + 1..] == Decimal(i);
      assert Slot(path, j)[|path| + 1..] == Decimal(j);
      DecimalInjective(i, j);
    }
  }

  /** The names this stream owns, said from the writing side. */
  ghost predicate IsOwned(base: string, k: nat, name: string, d: Date, i: nat) {
    IsDate(d) && d.year >= 1 && i <= k && name == Slot(DatePath(base, d), i)
  }

  /** ownedDate: the date part of a name this stream wrote.  The loop over the configured volumes
      makes it a method. */
  method OwnedDate(base: string, k: nat, name: string) returns (r: Option<Date>)
    ensures r.Some? ==> exists i :: IsOwned(base, k, name, r.value, i)
    ensures r.None? ==> forall d, i :: !IsOwned(base, k, name, d, i)
  {
    hide Parse, Format, Prefix, Ext, IsOwned;
    var ext, prefix := Ext(base), Prefix(base);
    forall d: Date, i: nat | IsOwned(base, k, name, d, i)
      ensures i <= k && prefix <= name && |name| >= |prefix| + 10
      ensures Parse(name[|prefix|..][..10]) == Some(d) && name[|prefix|..][10..] == Slot(ext, i)
    {
      OwnedParts(base, k, name, d, i);
    }
    if !(prefix <= name) {
      return None;
    }
    var rest := name[|prefix|..];
    if |rest| < 10 {
      return None;
    }
    var date, suffix := rest[..10], rest[10..];
    var parsed := Parse(date);
    if parsed.None? {
      return None;
    }
    if suffix == ext {
      OwnedWhole(base, k, name, parsed.value, 0);
      return parsed;
    }
    var i := 1;
    while i <= k
      invariant 1 <= i <= k + 1
      invariant forall j :: 1 <= j < i ==> suffix != Slot(ext, j)
    {
      if suffix == ext + "." + Decimal(i) {
        OwnedWhole(base, k, name, parsed.value, i);
        return parsed;
      }
      i := i + 1;
    }
    return None;
  }

  lemma OwnedWhole(base: string, k: nat, name: string, d: Date, i: nat)
    requires IsDate(d) && d.year >= 1 && i <= k
    requires Prefix(base) <= name && |name| >= |Prefix(base)| + 10
    requires name[|Prefix(base)|..][..10] == Format(d)
    requires name[|Prefix(base)|..][10..] == Slot(Ext(base), i)
    ensures IsOwned(base, k, name, d, i)
  {
    JoinParts(name, Prefix(base), Format(d), Slot(Ext(base), i));
    SlotAfter(Prefix(base) + Format(d), Ext(base), i);
  }

  lemma SlotAfter(p: string, e: string, i: nat)
    ensures Slot(p + e, i) == p + Slot(e, i)
  {
    if i > 0 {
      assert p + e + "." + Decimal(i) == p + (e + "." + Decimal(i));
    }
  }

  lemma JoinParts(name: string, a: string, b: string, c: string)
    requires a <= name && |name| >= |a| + |b|
    requires name[|a|..][..|b|] == b && name[|a|..][|b|..] == c
    ensures name == a + b + c
  {
    assert name == a + name[|a|..];
    assert name[|a|..] == b + c;
  }

  lemma CutParts(a: string, b: string, c: string)
    ensures (a + b + c)[|a|..][..|b|] == b && (a + b + c)[|a|..][|b|..] == c
  {
    assert (a + b + c)[|a|..] == b + c;
  }

  lemma OwnedParts(base: string, k: nat, name: string, d: Date, i: nat)
    requires IsOwned(base, k, name, d, i)
    ensures Prefix(base) <= name && |name| >= |Prefix(base)| + 10
    ensures IsDate(d) && name[|Prefix(base)|..][..10] == Format(d)
    ensures Parse(name[|Prefix(base)|..][..10]) == Some(d)
    ensures i <= k && name[|Prefix(base)|..][10..] == Slot(Ext(base), i)
  {
    ParseFormat(d);
    CutParts(Prefix(base), Format(d), Slot(Ext(base), i));
    SlotAfter(Prefix(base) + Format(d), Ext(base), i);
  }

  /** A name belongs to at most one date and slot. */
  lemma OwnedUnique(base: string, k: nat, name: string, d: Date, i: nat, d': Date, i': nat)
    requires IsOwned(base, k, name, d, i) && IsOwned(base, k, name, d', i')
    ensures d == d' && i == i'
  {
    OwnedParts(base, k, name, d, i);
    OwnedParts(base, k, name, d', i');
    ParseFormat(d);
    ParseFormat(d');
    SlotInjective(Ext(base), i, i');
  }
}
