/**
 * The string primitives the dashboards use: JavaScript's `String.prototype.split`
 * and `Array.prototype.join` with a one-character separator, and the relational
 * operators `<=` / `>=` on strings, which compare UTF-16 code units
 * lexicographically. Dafny `char`s are Unicode scalar values, so the model compares
 * code points; the two orders agree on strings without supplementary-plane
 * characters.
 */
module Text {

  /** `s.split(c)`: the pieces between occurrences of `c`; `"".split(c)` is `[""]`. */
  function Split(s: string, c: char): (parts: seq<string>)
    ensures |parts| >= 1
    ensures forall i :: 0 <= i < |parts| ==> c !in parts[i]
  {
    if s == [] then [""]
    else if s[0] == c then [""] + Split(s[1..], c)
    else
      var rest := Split(s[1..], c);
      [[s[0]] + rest[0]] + rest[1..]
  }

  /** `parts.join(c)`: the pieces with `c` between neighbours; `[].join(c)` is `""`. */
  function Join(parts: seq<string>, c: char): string
  {
    if parts == [] then ""
    else if |parts| == 1 then parts[0]
    else parts[0] + [c] + Join(parts[1..], c)
  }

  lemma {:induction false} SplitOfPiece(p: string, c: char)
    requires c !in p
    ensures Split(p, c) == [p]
  {
    if p != [] {
      SplitOfPiece(p[1..], c);
      assert [p[0]] + p[1..] == p;
    }
  }

  lemma {:induction false} SplitOfPieceThen(p: string, rest: string, c: char)
    requires c !in p
    ensures Split(p + [c] + rest, c) == [p] + Split(rest, c)
  {
    if p == [] {
      assert p + [c] + rest == [c] + rest;
      assert ([c] + rest)[1..] == rest;
    } else {
      var s := p + [c] + rest;
      assert s[0] == p[0] && s[1..] == p[1..] + [c] + rest;
      SplitOfPieceThen(p[1..], rest, c);
      assert [p[0]] + p[1..] == p;
    }
  }

  /** Splitting a join gives the pieces back when no piece holds the separator. */
  lemma {:induction false} SplitJoin(parts: seq<string>, c: char)
    requires |parts| >= 1
    requires forall i :: 0 <= i < |parts| ==> c !in parts[i]
    ensures Split(Join(parts, c), c) == parts
  {
    if |parts| == 1 {
      SplitOfPiece(parts[0], c);
    } else {
      SplitJoin(parts[1..], c);
      SplitOfPieceThen(parts[0], Join(parts[1..], c), c);
      assert [parts[0]] + parts[1..] == parts;
    }
  }

  /** Joining pieces that avoid `d` with a separator other than `d` gives a string that avoids `d`. */
  lemma {:induction false} JoinAvoids(parts: seq<string>, c: char, d: char)
    requires c != d
    requires forall i :: 0 <= i < |parts| ==> d !in parts[i]
    ensures d !in Join(parts, c)
  {
    if |parts| > 1 {
      JoinAvoids(parts[1..], c, d);
      assert d !in parts[0];
    }
  }

  /** JavaScript `a <= b` on two strings, as lexicographic order on characters. */
  predicate LexLe(a: string, b: string)
  {
    if a == [] then true
    else if b == [] then false
    else if a[0] != b[0] then a[0] < b[0]
    else LexLe(a[1..], b[1..])
  }

  lemma {:induction false} LexLeReflexive(a: string)
    ensures LexLe(a, a)
  {
    if a != [] { LexLeReflexive(a[1..]); }
  }

  lemma {:induction false} LexLeTotal(a: string, b: string)
    ensures LexLe(a, b) || LexLe(b, a)
  {
    if a != [] && b != [] && a[0] == b[0] { LexLeTotal(a[1..], b[1..]); }
  }

  lemma {:induction false} LexLeAntisymmetric(a: string, b: string)
    requires LexLe(a, b) && LexLe(b, a)
    ensures a == b
  {
    if a != [] && b != [] {
      LexLeAntisymmetric(a[1..], b[1..]);
      assert a == [a[0]] + a[1..] && b == [b[0]] + b[1..];
    }
  }

  lemma {:induction false} LexLeTransitive(a: string, b: string, d: string)
    requires LexLe(a, b) && LexLe(b, d)
    ensures LexLe(a, d)
  {
    if a != [] && b != [] && d != [] && a[0] == b[0] && b[0] == d[0] {
      LexLeTransitive(a[1..], b[1..], d[1..]);
    }
  }

  /** Comparing two strings that start with pieces of equal length: the pieces decide, unless they are equal. */
  lemma {:induction false} LexLeAfterEqualLength(a: string, s: string, b: string, t: string)
    requires |a| == |b|
    ensures LexLe(a + s, b + t) == if a == b then LexLe(s, t) else LexLe(a, b)
  {
    if a == [] {
      assert a + s == s && b + t == t;
    } else {
      assert (a + s)[0] == a[0] && (a + s)[1..] == a[1..] + s;
      assert (b + t)[0] == b[0] && (b + t)[1..] == b[1..] + t;
      LexLeAfterEqualLength(a[1..], s, b[1..], t);
      if a[0] == b[0] {
        assert a == b <==> a[1..] == b[1..] by {
          assert a == [a[0]] + a[1..] && b == [b[0]] + b[1..];
        }
      }
    }
  }

  predicate IsDigit(ch: char) { '0' <= ch <= '9' }

  predicate IsDigits(s: string) { forall i :: 0 <= i < |s| ==> IsDigit(s[i]) }

  function Pow10(n: nat): (p: nat)
    ensures p >= 1
  {
    if n == 0 then 1 else 10 * Pow10(n - 1)
  }

  /** The number a string of decimal digits denotes. */
  function DigitsValue(s: string): (v: nat)
    requires IsDigits(s)
    ensures v < Pow10(|s|)
  {
    if s == [] then 0
    else
      var d := (s[0] as int) - ('0' as int);
      var rest := DigitsValue(s[1..]);
      var p := Pow10(|s| - 1);
      MulMonotone(d, 9, p);
      assert Pow10(|s|) == 10 * p;
      d * p + rest
  }

  lemma ScaleGap(x: int, y: int, p: nat, r: nat, q: nat)
    requires x < y && r < p && q < p
    ensures x * p + r < y * p + q
  {
    calc {
      x * p + r;
    <
      x * p + p;
    ==
      (x + 1) * p;
    <=  { MulMonotone(x + 1, y, p); }
      y * p;
    <=
      y * p + q;
    }
  }

  lemma MulMonotone(x: int, y: int, p: nat)
    requires x <= y
    ensures x * p <= y * p
  {
    assert y * p - x * p == (y - x) * p;
  }

  /** On digit strings of one length, string order is numeric order. */
  lemma {:induction false} DigitsOrder(a: string, b: string)
    requires IsDigits(a) && IsDigits(b) && |a| == |b|
    ensures LexLe(a, b) <==> DigitsValue(a) <= DigitsValue(b)
  {
    if a != [] {
      var n := |a| - 1;
      var da, db := (a[0] as int) - ('0' as int), (b[0] as int) - ('0' as int);
      DigitsOrder(a[1..], b[1..]);
      if da < db {
        ScaleGap(da, db, Pow10(n), DigitsValue(a[1..]), DigitsValue(b[1..]));
      } else if db < da {
        ScaleGap(db, da, Pow10(n), DigitsValue(b[1..]), DigitsValue(a[1..]));
      }
    }
  }

  /** Equal-length digit strings with one value are one string. */
  lemma DigitsInjective(a: string, b: string)
    requires IsDigits(a) && IsDigits(b) && |a| == |b|
    requires DigitsValue(a) == DigitsValue(b)
    ensures a == b
  {
    DigitsOrder(a, b);
    DigitsOrder(b, a);
    LexLeAntisymmetric(a, b);
  }
}
