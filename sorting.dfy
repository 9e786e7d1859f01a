/**
 * `Array.prototype.sort`, which is stable: with a numeric comparator
 * `(a, b) => rank(a) - rank(b)`, and with the default comparator (or
 * `localeCompare` on the fixed-width month keys), which orders by string order.
 * Both are modelled as insertion sorts that place each element after every
 * element it does not precede.
 */
module Sorting {
  import opened Seqs
  import opened Text

  predicate SortedByRank<T>(s: seq<T>, rank: T -> int)
  {
    forall i, j :: 0 <= i < j < |s| ==> rank(s[i]) <= rank(s[j])
  }

  function InsertByRank<T>(sorted: seq<T>, x: T, rank: T -> int): seq<T>
  {
    if sorted == [] then [x]
    else if rank(Last(sorted)) <= rank(x) then sorted + [x]
    else InsertByRank(Init(sorted), x, rank) + [Last(sorted)]
  }

  /** `s.slice().sort((a, b) => rank(a) - rank(b))`. */
  function SortByRank<T>(s: seq<T>, rank: T -> int): seq<T>
  {
    if s == [] then [] else InsertByRank(SortByRank(Init(s), rank), Last(s), rank)
  }

  lemma {:induction false} InsertByRankElements<T>(sorted: seq<T>, x: T, rank: T -> int)
    ensures multiset(InsertByRank(sorted, x, rank)) == multiset(sorted) + multiset{x}
  {
    if sorted != [] && rank(Last(sorted)) > rank(x) {
      InsertByRankElements(Init(sorted), x, rank);
      assert sorted == Init(sorted) + [Last(sorted)];
    }
  }

  lemma {:induction false} InsertByRankSorted<T>(sorted: seq<T>, x: T, rank: T -> int)
    requires SortedByRank(sorted, rank)
    ensures SortedByRank(InsertByRank(sorted, x, rank), rank)
  {
    if sorted != [] && rank(Last(sorted)) > rank(x) {
      var init := Init(sorted);
      InsertByRankSorted(init, x, rank);
      InsertByRankElements(init, x, rank);
      var r := InsertByRank(init, x, rank);
      forall i | 0 <= i < |r| ensures rank(r[i]) <= rank(Last(sorted)) {
        assert r[i] in multiset(r);
        if r[i] != x {
          assert r[i] in init;
          var m :| 0 <= m < |init| && init[m] == r[i];
          assert sorted[m] == r[i];
        }
      }
    }
  }

  lemma {:induction false} SortByRankSorted<T>(s: seq<T>, rank: T -> int)
    ensures SortedByRank(SortByRank(s, rank), rank)
  {
    if s != [] {
      SortByRankSorted(Init(s), rank);
      InsertByRankSorted(SortByRank(Init(s), rank), Last(s), rank);
    }
  }

  lemma {:induction false} SortByRankElements<T>(s: seq<T>, rank: T -> int)
    ensures multiset(SortByRank(s, rank)) == multiset(s)
  {
    if s != [] {
      var init, x := Init(s), Last(s);
      var sortedInit := SortByRank(init, rank);
      calc {
        multiset(SortByRank(s, rank));
        multiset(InsertByRank(sortedInit, x, rank));
        { InsertByRankElements(sortedInit, x, rank); }
        multiset(sortedInit) + multiset{x};
        { SortByRankElements(init, rank); }
        multiset(init) + multiset{x};
        multiset(init + [x]);
        { assert init + [x] == s; }
        multiset(s);
      }
    }
  }

  /** The numeric sort puts ranks in ascending order and only rearranges the elements. */
  lemma SortByRankCorrect<T>(s: seq<T>, rank: T -> int)
    ensures SortedByRank(SortByRank(s, rank), rank)
    ensures multiset(SortByRank(s, rank)) == multiset(s)
  {
    SortByRankSorted(s, rank);
    SortByRankElements(s, rank);
  }

  /** The test `rank(y) == v`, named so that every filter by it is the same term. */
  function RankIs<T>(rank: T -> int, v: int): T -> bool
  {
    y => rank(y) == v
  }

  /** Inserting adds `x` at the end of the elements of its rank, and no others move among themselves. */
  lemma {:induction false} InsertByRankStable<T(!new)>(sorted: seq<T>, x: T, rank: T -> int, v: int)
    ensures Filter(InsertByRank(sorted, x, rank), RankIs(rank, v))
            == Filter(sorted, RankIs(rank, v)) + (if rank(x) == v then [x] else [])
  {
    var p := RankIs(rank, v);
    if sorted == [] {
      assert Filter([x], p) == Filter([], p) + (if p(x) then [x] else []);
    } else if rank(Last(sorted)) <= rank(x) {
      FilterSnoc(sorted, x, p);
    } else {
      var init, y := Init(sorted), Last(sorted);
      InsertByRankStable(init, x, rank, v);
      FilterSnoc(InsertByRank(init, x, rank), y, p);
      assert sorted == init + [y];
      FilterSnoc(init, y, p);
      // `x` ranks strictly below `y`, so at most one of them has rank `v`.
      assert !(p(x) && p(y));
    }
  }

  /**
   * The sort is stable: the elements of any one rank come out in their input order.
   * With sortedness and the permutation this fixes the result.
   */
  lemma {:induction false} SortByRankStable<T(!new)>(s: seq<T>, rank: T -> int, v: int)
    ensures Filter(SortByRank(s, rank), RankIs(rank, v)) == Filter(s, RankIs(rank, v))
  {
    if s != [] {
      var init, x, p := Init(s), Last(s), RankIs(rank, v);
      var tail := if rank(x) == v then [x] else [];
      calc {
        Filter(SortByRank(s, rank), p);
        Filter(InsertByRank(SortByRank(init, rank), x, rank), p);
        { InsertByRankStable(SortByRank(init, rank), x, rank, v); }
        Filter(SortByRank(init, rank), p) + tail;
        { SortByRankStable(init, rank, v); }
        Filter(init, p) + tail;
        { FilterSnoc(init, x, p); }
        Filter(init + [x], p);
        { assert init + [x] == s; }
        Filter(s, p);
      }
    }
  }

  predicate SortedByText<T>(s: seq<T>, key: T -> string)
  {
    forall i, j :: 0 <= i < j < |s| ==> LexLe(key(s[i]), key(s[j]))
  }

  function InsertByText<T>(sorted: seq<T>, x: T, key: T -> string): seq<T>
  {
    if sorted == [] then [x]
    else if LexLe(key(Last(sorted)), key(x)) then sorted + [x]
    else InsertByText(Init(sorted), x, key) + [Last(sorted)]
  }

  /** `s.slice().sort()` on strings, or a sort on one string field of each element. */
  function SortByText<T>(s: seq<T>, key: T -> string): seq<T>
  {
    if s == [] then [] else InsertByText(SortByText(Init(s), key), Last(s), key)
  }

  lemma {:induction false} InsertByTextElements<T>(sorted: seq<T>, x: T, key: T -> string)
    ensures multiset(InsertByText(sorted, x, key)) == multiset(sorted) + multiset{x}
  {
    if sorted != [] && !LexLe(key(Last(sorted)), key(x)) {
      InsertByTextElements(Init(sorted), x, key);
      assert sorted == Init(sorted) + [Last(sorted)];
    }
  }

  lemma {:induction false} InsertByTextSorted<T>(sorted: seq<T>, x: T, key: T -> string)
    requires SortedByText(sorted, key)
    ensures SortedByText(InsertByText(sorted, x, key), key)
  {
    if sorted == [] {
    } else if LexLe(key(Last(sorted)), key(x)) {
      forall i | 0 <= i < |sorted| - 1 ensures LexLe(key(sorted[i]), key(x)) {
        LexLeTransitive(key(sorted[i]), key(Last(sorted)), key(x));
      }
    } else {
      var init := Init(sorted);
      InsertByTextSorted(init, x, key);
      InsertByTextElements(init, x, key);
      LexLeTotal(key(Last(sorted)), key(x));
      var r := InsertByText(init, x, key);
      forall i | 0 <= i < |r| ensures LexLe(key(r[i]), key(Last(sorted))) {
        assert r[i] in multiset(r);
        if r[i] != x {
          assert r[i] in init;
          var m :| 0 <= m < |init| && init[m] == r[i];
          assert sorted[m] == r[i];
        }
      }
    }
  }

  /** The string sort puts keys in ascending string order and only rearranges the elements. */
  lemma {:induction false} SortByTextSorted<T>(s: seq<T>, key: T -> string)
    ensures SortedByText(SortByText(s, key), key)
  {
    if s != [] {
      SortByTextSorted(Init(s), key);
      InsertByTextSorted(SortByText(Init(s), key), Last(s), key);
    }
  }

  lemma {:induction false} SortByTextElements<T>(s: seq<T>, key: T -> string)
    ensures multiset(SortByText(s, key)) == multiset(s)
  {
    if s != [] {
      var init, x := Init(s), Last(s);
      var sortedInit := SortByText(init, key);
      calc {
        multiset(SortByText(s, key));
        multiset(InsertByText(sortedInit, x, key));
        { InsertByTextElements(sortedInit, x, key); }
        multiset(sortedInit) + multiset{x};
        { SortByTextElements(init, key); }
        multiset(init) + multiset{x};
        multiset(init + [x]);
        { assert init + [x] == s; }
        multiset(s);
      }
    }
  }

  lemma SortByTextCorrect<T>(s: seq<T>, key: T -> string)
    ensures SortedByText(SortByText(s, key), key)
    ensures multiset(SortByText(s, key)) == multiset(s)
  {
    SortByTextSorted(s, key);
    SortByTextElements(s, key);
  }

  /** The identity on strings, the key for sorting strings themselves. */
  function Itself(s: string): string { s }

  lemma {:induction false} MultiplicityOfNoDup<T>(s: seq<T>, x: T)
    requires NoDup(s)
    ensures multiset(s)[x] <= 1
  {
    if s != [] {
      MultiplicityOfNoDup(Init(s), x);
      assert s == Init(s) + [Last(s)];
      assert Last(s) !in Init(s);
    }
  }

  lemma TwiceMeansMultiplicity<T>(r: seq<T>, i: int, j: int)
    requires 0 <= i < j < |r| && r[i] == r[j]
    ensures multiset(r)[r[i]] >= 2
  {
    assert r == r[..i] + [r[i]] + r[i + 1..j] + [r[j]] + r[j + 1..];
  }

  /**
   * Sorting distinct strings gives a strictly increasing sequence with the same
   * elements.
   */
  lemma SortDistinctStrings(s: seq<string>)
    requires NoDup(s)
    ensures forall x :: x in SortByText(s, Itself) <==> x in s
    ensures forall i, j :: 0 <= i < j < |SortByText(s, Itself)| ==>
              LexLe(SortByText(s, Itself)[i], SortByText(s, Itself)[j])
              && SortByText(s, Itself)[i] != SortByText(s, Itself)[j]
  {
    var r := SortByText(s, Itself);
    SortByTextCorrect(s, Itself);
    assert forall x :: x in r <==> x in s by {
      assert forall x :: x in r <==> x in multiset(r);
      assert forall x :: x in s <==> x in multiset(s);
    }
    forall i, j | 0 <= i < j < |r| ensures r[i] != r[j] {
      if r[i] == r[j] {
        TwiceMeansMultiplicity(r, i, j);
        MultiplicityOfNoDup(s, r[i]);
      }
    }
  }

  lemma {:induction false} InsertByRankSum<T>(sorted: seq<T>, x: T, rank: T -> int, w: T -> int)
    ensures Sum(InsertByRank(sorted, x, rank), w) == Sum(sorted, w) + w(x)
  {
    if sorted != [] && rank(Last(sorted)) > rank(x) {
      InsertByRankSum(Init(sorted), x, rank, w);
      var r := InsertByRank(Init(sorted), x, rank) + [Last(sorted)];
      assert Init(r) == InsertByRank(Init(sorted), x, rank);
    }
  }

  /** Sorting leaves any sum over the elements unchanged. */
  lemma {:induction false} SortByRankSum<T>(s: seq<T>, rank: T -> int, w: T -> int)
    ensures Sum(SortByRank(s, rank), w) == Sum(s, w)
  {
    if s != [] {
      SortByRankSum(Init(s), rank, w);
      InsertByRankSum(SortByRank(Init(s), rank), Last(s), rank, w);
    }
  }

  /** Rearranging elements whose keys are distinct keeps the keys distinct. */
  lemma PermutationKeepsDistinctKeys<T, K>(s: seq<T>, t: seq<T>, key: T -> K)
    requires multiset(s) == multiset(t)
    requires forall i, j :: 0 <= i < j < |s| ==> key(s[i]) != key(s[j])
    ensures forall i, j :: 0 <= i < j < |t| ==> key(t[i]) != key(t[j])
  {
    assert NoDup(s);
    forall i, j | 0 <= i < j < |t| ensures key(t[i]) != key(t[j]) {
      if t[i] == t[j] {
        TwiceMeansMultiplicity(t, i, j);
        MultiplicityOfNoDup(s, t[i]);
      } else {
        assert t[i] in multiset(s) && t[j] in multiset(s);
        var a :| 0 <= a < |s| && s[a] == t[i];
        var b :| 0 <= b < |s| && s[b] == t[j];
      }
    }
  }

  /** In a sequence sorted by rank, an element of lower rank comes first. */
  lemma SortedRankOrder<T>(s: seq<T>, rank: T -> int)
    requires SortedByRank(s, rank)
    ensures forall i, j :: 0 <= i < |s| && 0 <= j < |s| && rank(s[i]) < rank(s[j]) ==> i < j
  {
  }

  /** Rearranging elements keeps the set of their keys. */
  lemma PermutationKeepsKeys<T, K>(s: seq<T>, t: seq<T>, key: T -> K)
    requires multiset(s) == multiset(t)
    ensures forall v :: v in Map(s, key) <==> v in Map(t, key)
  {
    forall v | v in Map(s, key)
      ensures v in Map(t, key)
    {
      var i :| 0 <= i < |s| && Map(s, key)[i] == v;
      assert s[i] in multiset(t);
      var j :| 0 <= j < |t| && t[j] == s[i];
      assert Map(t, key)[j] == v;
    }
    forall v | v in Map(t, key)
      ensures v in Map(s, key)
    {
      var j :| 0 <= j < |t| && Map(t, key)[j] == v;
      assert t[j] in multiset(s);
      var i :| 0 <= i < |s| && s[i] == t[j];
      assert Map(s, key)[i] == v;
    }
  }
}
