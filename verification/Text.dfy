/** Options, decimal numerals and splitting of text at a separator character. */
module Text {

  datatype Option<+T> = None | Some(value: T)

  // ---------- Decimal numerals ----------

  function Digit(d: nat): char
    requires d < 10
  {
    ('0' as int + d) as char
  }

  function DigitValue(c: char): nat {
    if '0' <= c <= '9' then c as int - '0' as int else 0
  }

  function ParseDecimal(s: string): nat {
    if s == "" then 0 else 10 * ParseDecimal(s[..|s| - 1]) + DigitValue(s[|s| - 1])
  }

  /** The text Rust's `{}` prints for an unsigned integer. */
  function Decimal(n: nat): (s: string)
    ensures ParseDecimal(s) == n
    ensures s != "" && forall c :: c in s ==> '0' <= c <= '9'
    ensures n > 0 ==> s[0] != '0'
  {
    if n < 10 then
      [Digit(n)]
    else
      var front := Decimal(n / 10);
      assert (front + [Digit(n % 10)])[..|front|] == front;
      front + [Digit(n % 10)]
  }

  /** The last digit of a numeral, and what is before it. */
  lemma DecimalDigits(m: nat, d: nat)
    requires d < 10
    ensures Decimal(10 * m + d) == (if m == 0 then "" else Decimal(m)) + ["0123456789"[d]]
  {
    assert (10 * m + d) / 10 == m && (10 * m + d) % 10 == d;
    assert "0123456789"[d] == Digit(d);
  }

  // ---------- Order ----------

  /** Text order, character by character. */
  predicate TextLe(a: string, b: string) {
    a == "" || (b != "" && (a[0] < b[0] || (a[0] == b[0] && TextLe(a[1..], b[1..]))))
  }

  /** The texts agree up to position `i`, where the first one has the smaller character. */
  ghost predicate DifferAt(a: string, b: string, i: int) {
    0 <= i < |a| && i < |b| && a[..i] == b[..i] && a[i] < b[i]
  }

  /** One text is at or before another when it begins it, or has the smaller character at the first
      position where they differ. */
  ghost predicate NotAfter(a: string, b: string) {
    a <= b || exists i :: DifferAt(a, b, i)
  }

  lemma DifferFirst(a: string, b: string, i: int)
    requires DifferAt(a, b, i)
    ensures if i == 0 then a[0] < b[0] else a[0] == b[0]
  {
    if i > 0 { assert a[..i][0] == b[..i][0]; }
  }

  lemma {:induction false} TextLeExact(a: string, b: string)
    ensures TextLe(a, b) <==> NotAfter(a, b)
  {
    if a != "" && b != "" && a[0] == b[0] {
      var c, d := a[1..], b[1..];
      TextLeExact(c, d);
      assert a == [a[0]] + c && b == [b[0]] + d;
      if i :| DifferAt(c, d, i) {
        assert a[..i + 1] == [a[0]] + c[..i] && b[..i + 1] == [b[0]] + d[..i];
        assert DifferAt(a, b, i + 1);
      }
      if i :| DifferAt(a, b, i) {
        assert i > 0 && c[..i - 1] == a[..i][1..] && d[..i - 1] == b[..i][1..];
        assert DifferAt(c, d, i - 1);
      }
    } else if a != "" && b != "" {
      if a[0] < b[0] { assert DifferAt(a, b, 0); }
      if i :| DifferAt(a, b, i) { DifferFirst(a, b, i); }
    }
  }

  lemma {:induction false} TextLeSnoc(a: string, b: string, c: char, d: char)
    requires |a| == |b|
    ensures TextLe(a + [c], b + [d]) <==> if a == b then c <= d else TextLe(a, b)
  {
    if a == "" {
      assert TextLe([c], [d]) <==> c <= d;
    } else {
      assert (a + [c])[1..] == a[1..] + [c] && (b + [d])[1..] == b[1..] + [d];
      assert a == [a[0]] + a[1..] && b == [b[0]] + b[1..];
      TextLeSnoc(a[1..], b[1..], c, d);
    }
  }

  /** Numerals of equal length are in the order of their numbers, as timestamps are. */
  lemma {:induction false} TextLeNumerals(m: nat, n: nat)
    requires |Decimal(m)| == |Decimal(n)|
    ensures TextLe(Decimal(m), Decimal(n)) <==> m <= n
  {
    var a, b := Decimal(m), Decimal(n);
    if m >= 10 && n >= 10 {
      var p, q := Decimal(m / 10), Decimal(n / 10);
      assert a == p + [Digit(m % 10)] && b == q + [Digit(n % 10)];
      TextLeSnoc(p, q, Digit(m % 10), Digit(n % 10));
      TextLeNumerals(m / 10, n / 10);
      assert p == q ==> m / 10 == n / 10;
    } else {
      OneDigit(m, n);
    }
  }

  lemma NumeralLength(n: nat)
    ensures |Decimal(n)| == 1 <==> n < 10
  {
  }

  lemma OneDigit(m: nat, n: nat)
    requires (m < 10 || n < 10) && |Decimal(m)| == |Decimal(n)|
    ensures m < 10 && n < 10
    ensures TextLe(Decimal(m), Decimal(n)) <==> m <= n
  {
    NumeralLength(m);
    NumeralLength(n);
    TextLeSnoc("", "", Digit(m % 10), Digit(n % 10));
    assert "" + [Digit(m % 10)] == [Digit(m % 10)] && "" + [Digit(n % 10)] == [Digit(n % 10)];
  }

  // ---------- Splitting ----------

  function Join(a: string, sep: char, b: string): string {
    a + [sep] + b
  }

  /** The text before and after the first separator. */
  function SplitFirst(s: string, sep: char): (r: Option<(string, string)>)
    ensures r.None? <==> sep !in s
    ensures r.Some? ==> sep !in r.value.0 && s == Join(r.value.0, sep, r.value.1)
  {
    if s == "" then None
    else if s[0] == sep then Some(("", s[1..]))
    else
      match SplitFirst(s[1..], sep)
      case None => None
      case Some((a, b)) => Some(([s[0]] + a, b))
  }

  /** The text before and after the last separator. */
  function SplitLast(s: string, sep: char): (r: Option<(string, string)>)
    ensures r.None? <==> sep !in s
    ensures r.Some? ==> sep !in r.value.1 && s == Join(r.value.0, sep, r.value.1)
  {
    if s == "" then None
    else
      var n := |s| - 1;
      if s[n] == sep then Some((s[..n], ""))
      else
        match SplitLast(s[..n], sep)
        case None => None
        case Some((a, b)) => Some((a, b + [s[n]]))
  }

  ghost predicate IsFirst(s: string, sep: char, i: int) {
    0 <= i < |s| && s[i] == sep && forall j :: 0 <= j < i ==> s[j] != sep
  }

  ghost predicate IsLast(s: string, sep: char, i: int) {
    0 <= i < |s| && s[i] == sep && forall j :: i < j < |s| ==> s[j] != sep
  }

  lemma SplitFirstUnique(a: string, b: string, sep: char)
    requires sep !in a
    ensures SplitFirst(Join(a, sep, b), sep) == Some((a, b))
  {
    var s := Join(a, sep, b);
    assert s[|a|] == sep;
    var (c, d) := SplitFirst(s, sep).value;
    assert IsFirst(s, sep, |a|) && IsFirst(s, sep, |c|);
    assert a == s[..|a|] && c == s[..|c|] && b == s[|a| + 1..] && d == s[|c| + 1..];
  }

  lemma SplitLastUnique(a: string, b: string, sep: char)
    requires sep !in b
    ensures SplitLast(Join(a, sep, b), sep) == Some((a, b))
  {
    var s := Join(a, sep, b);
    assert s[|a|] == sep;
    var (c, d) := SplitLast(s, sep).value;
    assert IsLast(s, sep, |a|) && IsLast(s, sep, |c|);
    assert a == s[..|a|] && c == s[..|c|] && b == s[|a| + 1..] && d == s[|c| + 1..];
  }

  lemma JoinAssociative(a: string, b: string, c: string, sep: char)
    ensures Join(Join(a, sep, b), sep, c) == Join(a, sep, Join(b, sep, c))
  {
  }

  lemma ConcatCancel(p: string, x: string, y: string, c: string)
    requires p + x + c == p + y + c
    ensures x == y
  {
    var s, t := p + x + c, p + y + c;
    assert |s| == |t|;
    assert x == s[|p|..|p| + |x|] && y == t[|p|..|p| + |y|];
  }

  lemma ConcatPrefix(p: string, q: string, x: string, a: string, b: string)
    requires |p| == |q| && p + x + a == q + x + b
    ensures p == q && a == b
  {
    var s, t := p + x + a, q + x + b;
    assert p == s[..|p|] && q == t[..|q|];
    assert a == s[|p| + |x|..] && b == t[|q| + |x|..];
  }
}
