/**
 * Sequence helpers shared by the charts: JavaScript's `Array.prototype.filter`,
 * `Array.from(new Set(xs))` (distinct values in first-occurrence order) and
 * `d3.sum`. Each is defined by recursion on the last element, the order in which
 * the source's loops visit a growing array.
 */
module Seqs {

  predicate NoDup<T(==)>(s: seq<T>)
  {
    forall i, j :: 0 <= i < j < |s| ==> s[i] != s[j]
  }

  function Last<T>(s: seq<T>): T
    requires |s| > 0
  {
    s[|s| - 1]
  }

  function Init<T>(s: seq<T>): seq<T>
    requires |s| > 0
  {
    s[..|s| - 1]
  }

  /** `s.filter(p)`. */
  function Filter<T(!new)>(s: seq<T>, p: T -> bool): (r: seq<T>)
    ensures |r| <= |s|
    ensures forall x :: x in r <==> x in s && p(x)
  {
    if s == [] then []
    else Filter(Init(s), p) + (if p(Last(s)) then [Last(s)] else [])
  }

  /** `r` is `s` with some elements left out and the rest in their order. */
  predicate Subsequence<T(==)>(r: seq<T>, s: seq<T>)
    decreases |s|
  {
    r == [] || (s != [] &&
      if Last(r) == Last(s) then Subsequence(Init(r), Init(s)) else Subsequence(r, Init(s)))
  }

  lemma {:induction false} FilterIsSubsequence<T(!new)>(s: seq<T>, p: T -> bool)
    ensures Subsequence(Filter(s, p), s)
  {
    if s != [] {
      FilterIsSubsequence(Init(s), p);
      var r := Filter(s, p);
      if p(Last(s)) {
        assert Init(r) == Filter(Init(s), p);
      } else if r != [] {
        var q := Filter(Init(s), p);
        assert r == q;
        assert Last(r) in q;
        assert Last(r) != Last(s);
      }
    }
  }

  lemma {:induction false} FilterSnoc<T(!new)>(s: seq<T>, x: T, p: T -> bool)
    ensures Filter(s + [x], p) == Filter(s, p) + (if p(x) then [x] else [])
  {
    assert Init(s + [x]) == s;
  }

  lemma {:induction false} FilterAppend<T(!new)>(s: seq<T>, t: seq<T>, p: T -> bool)
    ensures Filter(s + t, p) == Filter(s, p) + Filter(t, p)
    decreases |t|
  {
    if t != [] {
      var t', x := Init(t), Last(t);
      assert t == t' + [x];
      assert s + t == (s + t') + [x];
      var tail := if p(x) then [x] else [];
      calc {
        Filter(s + t, p);
        { FilterSnoc(s + t', x, p); }
        Filter(s + t', p) + tail;
        { FilterAppend(s, t', p); }
        (Filter(s, p) + Filter(t', p)) + tail;
        Filter(s, p) + (Filter(t', p) + tail);
        { FilterSnoc(t', x, p); }
        Filter(s, p) + Filter(t, p);
      }
    } else {
      assert s + t == s;
    }
  }

  /** Filtering first with a weaker predicate changes nothing. */
  lemma {:induction false} FilterFilter<T(!new)>(s: seq<T>, p: T -> bool, q: T -> bool)
    requires forall x :: q(x) ==> p(x)
    ensures Filter(Filter(s, p), q) == Filter(s, q)
  {
    if s != [] {
      var x := Last(s);
      FilterFilter(Init(s), p, q);
      FilterAppend(Filter(Init(s), p), if p(x) then [x] else [], q);
      if p(x) {
        assert Filter([x], q) == Filter([], q) + (if q(x) then [x] else []) by {
          FilterSnoc([], x, q);
          assert [] + [x] == [x];
        }
      }
    }
  }

  /** Filtering with a predicate that every element meets changes nothing. */
  lemma {:induction false} FilterNone<T(!new)>(s: seq<T>, p: T -> bool)
    requires forall x :: x in s ==> !p(x)
    ensures Filter(s, p) == []
  {
    if s != [] {
      FilterNone(Init(s), p);
      assert Last(s) in s;
    }
  }

  lemma {:induction false} FilterAll<T(!new)>(s: seq<T>, p: T -> bool)
    requires forall i :: 0 <= i < |s| ==> p(s[i])
    ensures Filter(s, p) == s
  {
    if s != [] {
      FilterAll(Init(s), p);
      assert Init(s) + [Last(s)] == s;
    }
  }

  /** `s.filter(x => x !== v)`: every occurrence of `v` removed. */
  function Without<T(==,!new)>(s: seq<T>, v: T): (r: seq<T>)
    ensures forall x :: x in r <==> x in s && x != v
  {
    Filter(s, x => x != v)
  }

  lemma {:induction false} WithoutAbsent<T(!new)>(s: seq<T>, v: T)
    requires v !in s
    ensures Without(s, v) == s
  {
    FilterAll(s, x => x != v);
  }

  lemma WithoutAppend<T(!new)>(s: seq<T>, t: seq<T>, v: T)
    ensures Without(s + t, v) == Without(s, v) + Without(t, v)
  {
    FilterAppend(s, t, x => x != v);
  }

  lemma WithoutItself<T(!new)>(v: T)
    ensures Without([v], v) == []
  {
    assert Init([v]) == [];
  }

  lemma WithoutSplit<T(!new)>(before: seq<T>, v: T, after: seq<T>)
    requires v !in before && v !in after
    ensures Without(before + ([v] + after), v) == before + after
  {
    calc {
      Without([v] + after, v);
      { WithoutAppend([v], after, v); }
      Without([v], v) + Without(after, v);
      { WithoutItself(v); WithoutAbsent(after, v); }
      [] + after;
    }
    calc {
      Without(before + ([v] + after), v);
      { WithoutAppend(before, [v] + after, v); }
      Without(before, v) + Without([v] + after, v);
      { WithoutAbsent(before, v); }
      before + after;
    }
  }

  lemma NotBeforeOrAfter<T>(s: seq<T>, i: int)
    requires NoDup(s) && 0 <= i < |s|
    ensures s[i] !in s[..i] && s[i] !in s[i + 1..]
  {
    var before, after := s[..i], s[i + 1..];
    forall k | 0 <= k < |before| ensures before[k] != s[i] { assert before[k] == s[k]; }
    forall k | 0 <= k < |after| ensures after[k] != s[i] { assert after[k] == s[i + 1 + k]; }
  }

  /** In a duplicate-free sequence, removing a value removes exactly its one position. */
  lemma WithoutAt<T(!new)>(s: seq<T>, i: int)
    requires NoDup(s) && 0 <= i < |s|
    ensures Without(s, s[i]) == s[..i] + s[i + 1..]
  {
    var v, before, after := s[i], s[..i], s[i + 1..];
    assert s == before + ([v] + after);
    NotBeforeOrAfter(s, i);
    WithoutSplit(before, v, after);
  }

  lemma NoDupWithout<T(!new)>(s: seq<T>, v: T)
    requires NoDup(s)
    ensures NoDup(Without(s, v))
  {
    if v in s {
      var i :| 0 <= i < |s| && s[i] == v;
      WithoutAt(s, i);
    } else {
      WithoutAbsent(s, v);
    }
  }

  /** `Array.from(new Set(s))`: the distinct values, each where it first occurs. */
  function Distinct<T(==,!new)>(s: seq<T>): (r: seq<T>)
    ensures NoDup(r)
    ensures forall x :: x in r <==> x in s
    ensures |r| <= |s|
  {
    if s == [] then []
    else
      var d := Distinct(Init(s));
      assert forall x :: x in s <==> x in Init(s) || x == Last(s) by {
        assert s == Init(s) + [Last(s)];
      }
      if Last(s) in d then d else d + [Last(s)]
  }

  /** The position where `x` first occurs in `s`. */
  function FirstIndex<T(==)>(s: seq<T>, x: T): (i: nat)
    requires x in s
    ensures i < |s| && s[i] == x && x !in s[..i]
  {
    if s[0] == x then 0
    else
      var k := FirstIndex(s[1..], x);
      assert s[..1 + k] == [s[0]] + s[1..][..k];
      1 + k
  }

  /** A position holding `x` with no earlier `x` is the first index of `x`. */
  lemma FirstIndexUnique<T>(s: seq<T>, x: T, i: nat)
    requires i < |s| && s[i] == x && x !in s[..i]
    ensures FirstIndex(s, x) == i
  {
    var k := FirstIndex(s, x);
  }

  /** An element of a prefix first occurs at the same position in the whole sequence. */
  lemma FirstIndexPrefix<T>(s: seq<T>, n: nat, x: T)
    requires n <= |s| && x in s[..n]
    ensures FirstIndex(s, x) == FirstIndex(s[..n], x)
  {
    var i := FirstIndex(s[..n], x);
    assert s[..n][..i] == s[..i];
    FirstIndexUnique(s, x, i);
  }

  /** Every value of `r` occurs in `s`, and `r` lists them in the order they first occur there. */
  predicate InFirstOrder<T(==)>(r: seq<T>, s: seq<T>)
  {
    && (forall k :: 0 <= k < |r| ==> r[k] in s)
    && forall i, j :: 0 <= i < j < |r| ==> FirstIndex(s, r[i]) < FirstIndex(s, r[j])
  }

  /** Values of the prefix keep their first positions when one element is added at the end. */
  lemma InFirstOrderSnoc<T>(r: seq<T>, s: seq<T>)
    requires s != [] && InFirstOrder(r, Init(s))
    ensures InFirstOrder(r, s)
  {
    forall i, j | 0 <= i < j < |r|
      ensures r[i] in s && r[j] in s && FirstIndex(s, r[i]) < FirstIndex(s, r[j])
    {
      assert r[i] in Init(s) && r[j] in Init(s);
      assert FirstIndex(Init(s), r[i]) < FirstIndex(Init(s), r[j]);
      FirstIndexPrefix(s, |s| - 1, r[i]);
      FirstIndexPrefix(s, |s| - 1, r[j]);
    }
  }

  /** A new last element first occurs after every value of the prefix. */
  lemma InFirstOrderSnocNew<T>(r: seq<T>, s: seq<T>)
    requires s != [] && InFirstOrder(r, Init(s)) && Last(s) !in Init(s)
    requires forall x :: x in r ==> x in Init(s)
    ensures InFirstOrder(r + [Last(s)], s)
  {
    InFirstOrderSnoc(r, s);
    FirstIndexUnique(s, Last(s), |s| - 1);
    var r' := r + [Last(s)];
    forall i, j | 0 <= i < j < |r'|
      ensures r'[i] in s && r'[j] in s && FirstIndex(s, r'[i]) < FirstIndex(s, r'[j])
    {
      if j == |r| {
        assert r'[i] == r[i] && r[i] in r && r[i] in Init(s);
        FirstIndexPrefix(s, |s| - 1, r[i]);
      } else {
        assert r'[i] == r[i] && r'[j] == r[j];
      }
    }
  }

  /** Values listed in first-occurrence order are distinct. */
  lemma InFirstOrderNoDup<T>(r: seq<T>, s: seq<T>)
    requires InFirstOrder(r, s)
    ensures NoDup(r)
  {
  }

  /** `new Set(s)` enumerates in insertion order: its values come in the order they first occur. */
  lemma {:induction false} DistinctOrder<T(!new)>(s: seq<T>)
    ensures InFirstOrder(Distinct(s), s)
  {
    if s == [] {
      assert Distinct(s) == [];
    } else {
      var d := Distinct(Init(s));
      DistinctOrder(Init(s));
      if Last(s) in d {
        InFirstOrderSnoc(d, s);
      } else {
        InFirstOrderSnocNew(d, s);
      }
    }
  }

  /** Filtering a duplicate-free sequence keeps its values in the order of their positions. */
  lemma {:induction false} FilterOrder<T(!new)>(s: seq<T>, p: T -> bool)
    requires NoDup(s)
    ensures InFirstOrder(Filter(s, p), s)
    ensures NoDup(Filter(s, p))
  {
    if s == [] {
      assert Filter(s, p) == [];
    } else {
      var init := Init(s);
      var f := Filter(init, p);
      assert NoDup(init) by {
        forall i, j | 0 <= i < j < |init| ensures init[i] != init[j] {
          assert init[i] == s[i] && init[j] == s[j];
        }
      }
      FilterOrder(init, p);
      if p(Last(s)) {
        assert Last(s) !in init by {
          forall m | 0 <= m < |init| ensures init[m] != Last(s) {
            assert init[m] == s[m];
          }
        }
        InFirstOrderSnocNew(f, s);
      } else {
        InFirstOrderSnoc(f, s);
      }
      InFirstOrderNoDup(Filter(s, p), s);
    }
  }

  /** Distinct values of a duplicate-free sequence: the sequence itself. */
  lemma {:induction false} DistinctOfNoDup<T(!new)>(s: seq<T>)
    requires NoDup(s)
    ensures Distinct(s) == s
  {
    if s != [] {
      DistinctOfNoDup(Init(s));
      assert Last(s) !in Init(s);
      assert Init(s) + [Last(s)] == s;
    }
  }

  /** `d3.sum(s, w)`. */
  function Sum<T>(s: seq<T>, w: T -> int): int
  {
    if s == [] then 0 else Sum(Init(s), w) + w(Last(s))
  }

  lemma {:induction false} SumAppend<T>(s: seq<T>, t: seq<T>, w: T -> int)
    ensures Sum(s + t, w) == Sum(s, w) + Sum(t, w)
    decreases |t|
  {
    if t == [] {
      assert s + t == s;
    } else {
      assert Init(s + t) == s + Init(t);
      assert Last(s + t) == Last(t);
      SumAppend(s, Init(t), w);
    }
  }

  /** `s.map(f)`. */
  function Map<T, U>(s: seq<T>, f: T -> U): (r: seq<U>)
    ensures |r| == |s|
    ensures forall i :: 0 <= i < |s| ==> r[i] == f(s[i])
  {
    seq(|s|, i requires 0 <= i < |s| => f(s[i]))
  }
}
