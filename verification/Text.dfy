/** The string operations the sources share, on ASCII text. */
module Text {

  datatype Option<T> = None | Some(value: T)

  // ---- decimal numbers ----

  function Digit(n: nat): (c: char)
    requires n < 10
    ensures '0' <= c <= '9'
  {
    ('0' as int + n) as char
  }

  predicate IsDigit(c: char) { '0' <= c <= '9' }

  function DigitValue(c: char): (n: nat)
    requires IsDigit(c)
    ensures n < 10 && Digit(n) == c
  {
    c as int - '0' as int
  }

  /** The shortest decimal form, as strconv.Itoa writes it. */
  function Decimal(n: nat): (s: string)
    ensures s != [] && forall i :: 0 <= i < |s| ==> IsDigit(s[i])
  {
    if n < 10 then [Digit(n)] else Decimal(n / 10) + [Digit(n % 10)]
  }

  lemma {:induction false} DecimalInjective(m: nat, n: nat)
    requires Decimal(m) == Decimal(n)
    ensures m == n
  {
    var s := Decimal(m);
    assert s[|s| - 1] == Digit(m % 10) == Digit(n % 10);
    assert DigitValue(Digit(m % 10)) == m % 10 && DigitValue(Digit(n % 10)) == n % 10;
    if m >= 10 && n >= 10 {
      assert Decimal(m / 10) == s[..|s| - 1] == Decimal(n / 10);
      DecimalInjective(m / 10, n / 10);
    }
  }

  /** strconv.Itoa. */
  function Itoa(n: int): (s: string)
    ensures s != [] && (s[0] == '-' <==> n < 0)
    ensures forall i :: 0 <= i < |s| ==> IsDigit(s[i]) || s[i] == '-'
  {
    if n < 0 then "-" + Decimal(-n) else Decimal(n)
  }

  lemma ItoaInjective(m: int, n: int)
    requires Itoa(m) == Itoa(n)
    ensures m == n
  {
    if m < 0 && n < 0 {
      assert Itoa(m)[1..] == Decimal(-m) && Itoa(n)[1..] == Decimal(-n);
      DecimalInjective(-m, -n);
    } else if m >= 0 && n >= 0 {
      DecimalInjective(m, n);
    }
  }

  // ---- order ----

  /** Go's < on strings. */
  predicate StringLess(a: string, b: string) {
    b != [] && (a == [] || a[0] < b[0] || (a[0] == b[0] && StringLess(a[1..], b[1..])))
  }

  lemma {:induction false} StringLessConcat(a: string, a': string, b: string, b': string)
    requires |a| == |b|
    ensures StringLess(a + a', b + b') <==> StringLess(a, b) || (a == b && StringLess(a', b'))
  {
    if a == [] {
      assert a + a' == a' && b + b' == b';
    } else {
      assert (a + a')[1..] == a[1..] + a' && (b + b')[1..] == b[1..] + b';
      StringLessConcat(a[1..], a', b[1..], b');
      assert a == b <==> a[0] == b[0] && a[1..] == b[1..];
    }
  }

  lemma {:induction false} StringLessIrreflexive(a: string)
    ensures !StringLess(a, a)
  {
    if a != [] { StringLessIrreflexive(a[1..]); }
  }

  lemma {:induction false} StringLessTransitive(a: string, b: string, c: string)
    requires StringLess(a, b) && StringLess(b, c)
    ensures StringLess(a, c)
  {
    if a != [] && a[0] == b[0] == c[0] { StringLessTransitive(a[1..], b[1..], c[1..]); }
  }

  lemma {:induction false} StringLessTotal(a: string, b: string)
    ensures StringLess(a, b) || a == b || StringLess(b, a)
  {
    if a != [] && b != [] && a[0] == b[0] {
      StringLessTotal(a[1..], b[1..]);
      if a[1..] == b[1..] { assert a == [a[0]] + a[1..] && b == [b[0]] + b[1..]; }
    }
  }

  // ---- case and white space ----

  function LowerChar(c: char): char {
    if 'A' <= c <= 'Z' then (c as int + 32) as char else c
  }

  function Lower(s: string): (r: string)
    ensures |r| == |s|
    ensures forall i :: 0 <= i < |s| ==> r[i] == LowerChar(s[i])
  {
    seq(|s|, i requires 0 <= i < |s| => LowerChar(s[i]))
  }

  predicate IsSpace(c: char) {
    c == ' ' || c == '\t' || c == '\n' || c == '\r' || c as int == 11 || c as int == 12
  }

  function TrimLeft(s: string): (r: string)
    ensures |r| <= |s|
  {
    if s != [] && IsSpace(s[0]) then TrimLeft(s[1..]) else s
  }

  function TrimRight(s: string): (r: string)
    ensures |r| <= |s|
  {
    if s != [] && IsSpace(s[|s| - 1]) then TrimRight(s[..|s| - 1]) else s
  }

  function Trim(s: string): string {
    TrimRight(TrimLeft(s))
  }

  lemma {:induction false} TrimLeftAppend(a: string, b: string)
    requires b != [] && !IsSpace(b[0])
    ensures TrimLeft(a + b) == TrimLeft(a) + b
  {
    if a == [] {
      assert a + b == b;
    } else if IsSpace(a[0]) {
      assert (a + b)[1..] == a[1..] + b;
      TrimLeftAppend(a[1..], b);
    }
  }

  lemma {:induction false} TrimLeftLonger(a: string, b: string)
    ensures |TrimLeft(a)| <= |TrimLeft(a + b)|
  {
    if a != [] && IsSpace(a[0]) {
      assert (a + b)[1..] == a[1..] + b;
      TrimLeftLonger(a[1..], b);
    }
  }

  function Upper(s: string): string {
    seq(|s|, i requires 0 <= i < |s| => if 'a' <= s[i] <= 'z' then (s[i] as int - 32) as char else s[i])
  }

  /** Case and the spaces around it do not matter in a name. */
  lemma NormalizedAlike(s: string)
    ensures Lower(Upper(s)) == Lower(s)
    ensures Normalized(" " + s) == Normalized(s)
  {
    assert (" " + s)[1..] == s;
    forall i | 0 <= i < |s| ensures Lower(Upper(s))[i] == Lower(s)[i] {
      LowerUpper(s[i]);
    }
  }

  lemma LowerUpper(c: char)
    ensures LowerChar(if 'a' <= c <= 'z' then (c as int - 32) as char else c) == LowerChar(c)
  {
  }

  lemma LowerConcat(a: string, b: string)
    ensures Lower(a + b) == Lower(a) + Lower(b)
  {
  }

  // ---- numbered names ----

  /** The j-th name tried for a new node: the base name, then "base (2)", "base (3)", ... */
  function Numbered(base: string, j: nat): string {
    if j == 0 then base else base + " (" + Decimal(j + 1) + ")"
  }

  function Normalized(name: string): string {
    Lower(Trim(name))
  }

  lemma NormalizedNumbered(base: string, j: nat)
    requires j > 0
    ensures Normalized(Numbered(base, j)) == Lower(TrimLeft(base + " ")) + ("(" + Decimal(j + 1) + ")")
  {
    var tail := "(" + Decimal(j + 1) + ")";
    assert Numbered(base, j) == (base + " ") + tail;
    TrimLeftAppend(base + " ", tail);
    var s := TrimLeft(base + " ") + tail;
    assert s[|s| - 1] == ')';
    assert TrimRight(s) == s;
    LowerConcat(TrimLeft(base + " "), tail);
    assert Lower(tail) == tail;
  }

  /** No two tries normalize to the same name. */
  lemma NumberedDistinct(base: string, i: nat, j: nat)
    requires i < j
    ensures Normalized(Numbered(base, i)) != Normalized(Numbered(base, j))
  {
    NormalizedNumbered(base, j);
    var head := Lower(TrimLeft(base + " "));
    if i == 0 {
      TrimLeftLonger(base, " ");
    } else {
      NormalizedNumbered(base, i);
      var a, b := "(" + Decimal(i + 1) + ")", "(" + Decimal(j + 1) + ")";
      if head + a == head + b {
        assert (head + a)[|head|..] == a && (head + b)[|head|..] == b;
        assert a[1..|a| - 1] == Decimal(i + 1) && b[1..|b| - 1] == Decimal(j + 1);
        DecimalInjective(i + 1, j + 1);
      }
    }
  }
}
