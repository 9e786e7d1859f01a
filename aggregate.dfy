/**
 * `d3.rollups(rows, reduce, key)`: one entry `[k, reduce(group)]` per distinct key,
 * keys in the order they first occur, each group holding the rows with that key in
 * their input order. With two key functions the value of each outer entry is the
 * inner rollup of its group. `d3.groups` is the rollup whose reducer returns the
 * group itself.
 */
module Aggregate {
  import opened Wrappers
  import opened Seqs

  /** The rows whose key is `k`, in input order. */
  function Where<R(!new), K(==)>(rows: seq<R>, key: R -> K, k: K): (g: seq<R>)
    ensures forall x :: x in g <==> x in rows && key(x) == k
  {
    Filter(rows, row => key(row) == k)
  }

  /** The distinct keys in first-occurrence order. */
  function KeysOf<R, K(==,!new)>(rows: seq<R>, key: R -> K): (ks: seq<K>)
    ensures NoDup(ks)
    ensures forall k :: k in ks <==> exists x :: x in rows && key(x) == k
  {
    var all := Map(rows, key);
    assert forall k :: k in all <==> exists x :: x in rows && key(x) == k by {
      forall k | k in all ensures exists x :: x in rows && key(x) == k {
        var i :| 0 <= i < |all| && all[i] == k;
        assert rows[i] in rows;
      }
      forall k | (exists x :: x in rows && key(x) == k) ensures k in all {
        var x :| x in rows && key(x) == k;
        var i :| 0 <= i < |rows| && rows[i] == x;
        assert all[i] == k;
      }
    }
    Distinct(all)
  }

  /** The position of the first row whose key is `k`, or `|rows|` when there is none. */
  function FirstWith<R, K(==)>(rows: seq<R>, key: R -> K, k: K): (i: nat)
    ensures i <= |rows|
    ensures i < |rows| ==> key(rows[i]) == k
    ensures forall j :: 0 <= j < i ==> key(rows[j]) != k
  {
    if rows == [] then 0
    else if key(rows[0]) == k then 0
    else 1 + FirstWith(rows[1..], key, k)
  }

  /** Keys are listed in the order of their first rows. */
  lemma KeysOfOrder<R, K(!new)>(rows: seq<R>, key: R -> K)
    ensures forall i, j :: 0 <= i < j < |KeysOf(rows, key)| ==>
              FirstWith(rows, key, KeysOf(rows, key)[i]) < FirstWith(rows, key, KeysOf(rows, key)[j])
  {
    var all := Map(rows, key);
    var ks := KeysOf(rows, key);
    DistinctOrder(all);
    forall k | k in all
      ensures FirstIndex(all, k) == FirstWith(rows, key, k)
    {
      var n := FirstWith(rows, key, k);
      assert n < |rows| by {
        var m :| 0 <= m < |all| && all[m] == k;
      }
      assert all[n] == k;
      assert k !in all[..n] by {
        forall m | 0 <= m < n ensures all[..n][m] != k { }
      }
      FirstIndexUnique(all, k, n);
    }
    forall i, j | 0 <= i < j < |ks|
      ensures FirstWith(rows, key, ks[i]) < FirstWith(rows, key, ks[j])
    {
      assert ks == Distinct(all);
      assert ks[i] in ks && ks[j] in ks;
      assert FirstIndex(all, ks[i]) < FirstIndex(all, ks[j]);
    }
  }

  /** One entry per key of `ks`, each holding the reduction of that key's group. */
  function RollupOver<R(!new), K(==), V>(ks: seq<K>, rows: seq<R>, key: R -> K, reduce: seq<R> -> V): (r: seq<(K, V)>)
    ensures |r| == |ks|
    ensures forall i :: 0 <= i < |ks| ==> r[i] == (ks[i], reduce(Where(rows, key, ks[i])))
  {
    seq(|ks|, i requires 0 <= i < |ks| => (ks[i], reduce(Where(rows, key, ks[i]))))
  }

  /** `d3.rollups(rows, reduce, key)`. */
  function Rollups<R(!new), K(==,!new), V>(rows: seq<R>, key: R -> K, reduce: seq<R> -> V): seq<(K, V)>
  {
    RollupOver(KeysOf(rows, key), rows, key, reduce)
  }

  /** `d3.groups(rows, key)`. */
  function Groups<R(!new), K(==,!new)>(rows: seq<R>, key: R -> K): seq<(K, seq<R>)>
  {
    RollupOver(KeysOf(rows, key), rows, key, g => g)
  }

  /** The keys of a rollup, in its order. */
  function Firsts<K, V>(r: seq<(K, V)>): (ks: seq<K>)
    ensures |ks| == |r|
    ensures forall i :: 0 <= i < |r| ==> ks[i] == r[i].0
  {
    seq(|r|, i requires 0 <= i < |r| => r[i].0)
  }

  /**
   * A rollup has exactly one entry per distinct key present in the rows, and no
   * other entries, in the order of each key's first row; every entry's group is
   * non-empty and holds exactly the rows with its key, in input order.
   */
  lemma RollupsShape<R(!new), K(!new), V>(rows: seq<R>, key: R -> K, reduce: seq<R> -> V)
    ensures Firsts(Rollups(rows, key, reduce)) == KeysOf(rows, key)
    ensures NoDup(Firsts(Rollups(rows, key, reduce)))
    ensures forall k :: k in Firsts(Rollups(rows, key, reduce)) <==> exists x :: x in rows && key(x) == k
    ensures forall i, j :: 0 <= i < j < |Rollups(rows, key, reduce)| ==>
              FirstWith(rows, key, Rollups(rows, key, reduce)[i].0) < FirstWith(rows, key, Rollups(rows, key, reduce)[j].0)
    ensures forall i :: 0 <= i < |Rollups(rows, key, reduce)| ==>
              var e := Rollups(rows, key, reduce)[i];
              && e.1 == reduce(Where(rows, key, e.0))
              && |Where(rows, key, e.0)| > 0
              && Subsequence(Where(rows, key, e.0), rows)
  {
    var r := Rollups(rows, key, reduce);
    assert Firsts(r) == KeysOf(rows, key);
    KeysOfOrder(rows, key);
    forall i, j | 0 <= i < j < |r|
      ensures FirstWith(rows, key, r[i].0) < FirstWith(rows, key, r[j].0)
    {
      var ks := KeysOf(rows, key);
      assert r[i].0 == ks[i] && r[j].0 == ks[j];
    }
    forall i | 0 <= i < |r|
      ensures |Where(rows, key, r[i].0)| > 0 && Subsequence(Where(rows, key, r[i].0), rows)
    {
      var k := r[i].0;
      assert k in KeysOf(rows, key);
      var x :| x in rows && key(x) == k;
      assert x in Where(rows, key, k);
      FilterIsSubsequence(rows, row => key(row) == k);
    }
  }

  /** Sum of the integer values of a rollup. */
  function SumValues<K>(r: seq<(K, int)>): int
  {
    if r == [] then 0 else SumValues(Init(r)) + Last(r).1
  }

  /** Sum over the keys `ks` of the weighted size of each key's group. */
  function GroupSums<R(!new), K(==)>(ks: seq<K>, rows: seq<R>, key: R -> K, w: R -> int): int
  {
    if ks == [] then 0 else GroupSums(Init(ks), rows, key, w) + Sum(Where(rows, key, Last(ks)), w)
  }

  lemma {:induction false} GroupSumsOfNoRows<R(!new), K>(ks: seq<K>, key: R -> K, w: R -> int)
    ensures GroupSums(ks, [], key, w) == 0
  {
    if ks != [] { GroupSumsOfNoRows(Init(ks), key, w); }
  }

  lemma WhereSnocSum<R(!new), K>(rows: seq<R>, x: R, key: R -> K, k: K, w: R -> int)
    ensures Sum(Where(rows + [x], key, k), w) == Sum(Where(rows, key, k), w) + (if key(x) == k then w(x) else 0)
  {
    FilterSnoc(rows, x, row => key(row) == k);
    SumAppend(Where(rows, key, k), if key(x) == k then [x] else [], w);
    assert Sum([x], w) == w(x) by { assert Init([x]) == []; }
  }

  lemma {:induction false} GroupSumsSnoc<R(!new), K>(ks: seq<K>, rows: seq<R>, x: R, key: R -> K, w: R -> int)
    requires NoDup(ks)
    ensures GroupSums(ks, rows + [x], key, w) == GroupSums(ks, rows, key, w) + (if key(x) in ks then w(x) else 0)
  {
    if ks != [] {
      var k := Last(ks);
      assert ks == Init(ks) + [k];
      assert k !in Init(ks);
      GroupSumsSnoc(Init(ks), rows, x, key, w);
      WhereSnocSum(rows, x, key, k, w);
    }
  }

  /** When `ks` lists every key once, the group sums add up to the total. */
  lemma {:induction false} GroupSumsTotal<R(!new), K>(ks: seq<K>, rows: seq<R>, key: R -> K, w: R -> int)
    requires NoDup(ks)
    requires forall x :: x in rows ==> key(x) in ks
    ensures GroupSums(ks, rows, key, w) == Sum(rows, w)
    decreases |rows|
  {
    if rows == [] {
      GroupSumsOfNoRows(ks, key, w);
    } else {
      var p, x := Init(rows), Last(rows);
      assert rows == p + [x];
      GroupSumsTotal(ks, p, key, w);
      GroupSumsSnoc(ks, p, x, key, w);
    }
  }

  lemma {:induction false} SumValuesOver<R(!new), K>(ks: seq<K>, rows: seq<R>, key: R -> K, reduce: seq<R> -> int, w: R -> int)
    requires forall g :: reduce(g) == Sum(g, w)
    ensures SumValues(RollupOver(ks, rows, key, reduce)) == GroupSums(ks, rows, key, w)
  {
    if ks != [] {
      SumValuesOver(Init(ks), rows, key, reduce, w);
      assert Init(RollupOver(ks, rows, key, reduce)) == RollupOver(Init(ks), rows, key, reduce);
    }
  }

  /**
   * Count conservation: when each group reduces to its weighted sum, the values of
   * the rollup add up to the weighted sum over all rows.
   */
  lemma RollupsConserve<R(!new), K(!new)>(rows: seq<R>, key: R -> K, reduce: seq<R> -> int, w: R -> int)
    requires forall g :: reduce(g) == Sum(g, w)
    ensures SumValues(Rollups(rows, key, reduce)) == Sum(rows, w)
  {
    SumValuesOver(KeysOf(rows, key), rows, key, reduce, w);
    GroupSumsTotal(KeysOf(rows, key), rows, key, w);
  }

  /** `d3.rollups(rows, reduce, key1, key2)`: for each outer key, the rollup of its group by the inner key. */
  function Rollups2<R(!new), K1(==,!new), K2(==,!new), V>(rows: seq<R>, key1: R -> K1, key2: R -> K2, reduce: seq<R> -> V)
    : (r: seq<(K1, seq<(K2, V)>)>)
    ensures Firsts(r) == KeysOf(rows, key1)
    ensures forall i :: 0 <= i < |r| ==> r[i].1 == Rollups(Where(rows, key1, r[i].0), key2, reduce)
  {
    var ks := KeysOf(rows, key1);
    seq(|ks|, i requires 0 <= i < |ks| => (ks[i], Rollups(Where(rows, key1, ks[i]), key2, reduce)))
  }

  /** The entries of one outer group, each tagged with the outer key. */
  function Tagged<K1, K2, V>(k1: K1, inner: seq<(K2, V)>): (r: seq<(K1, K2, V)>)
    ensures |r| == |inner|
    ensures forall j :: 0 <= j < |inner| ==> r[j] == (k1, inner[j].0, inner[j].1)
  {
    seq(|inner|, j requires 0 <= j < |inner| => (k1, inner[j].0, inner[j].1))
  }

  /** `agg.flatMap(([k1, inner]) => inner.map(([k2, v]) => ({k1, k2, v})))`. */
  function Flatten<K1, K2, V>(agg: seq<(K1, seq<(K2, V)>)>): seq<(K1, K2, V)>
  {
    if agg == [] then [] else Flatten(Init(agg)) + Tagged(Last(agg).0, Last(agg).1)
  }

  /** The key pair of each flattened entry. */
  function PairKeys<K1, K2, V>(f: seq<(K1, K2, V)>): (ps: seq<(K1, K2)>)
    ensures |ps| == |f|
    ensures forall a :: 0 <= a < |f| ==> ps[a] == (f[a].0, f[a].1)
  {
    seq(|f|, a requires 0 <= a < |f| => (f[a].0, f[a].1))
  }

  lemma {:induction false} FlattenMembers<K1, K2, V>(agg: seq<(K1, seq<(K2, V)>)>, t: (K1, K2, V))
    ensures t in Flatten(agg) <==> exists i :: 0 <= i < |agg| && agg[i].0 == t.0 && (t.1, t.2) in agg[i].1
  {
    if agg != [] {
      FlattenMembers(Init(agg), t);
      var last := Last(agg);
      assert t in Tagged(last.0, last.1) <==> last.0 == t.0 && (t.1, t.2) in last.1 by {
        if t in Tagged(last.0, last.1) {
          var j :| 0 <= j < |last.1| && Tagged(last.0, last.1)[j] == t;
          assert last.1[j] == (t.1, t.2);
        }
        if last.0 == t.0 && (t.1, t.2) in last.1 {
          var j :| 0 <= j < |last.1| && last.1[j] == (t.1, t.2);
          assert Tagged(last.0, last.1)[j] == t;
        }
      }
      assert forall i :: 0 <= i < |agg| - 1 ==> Init(agg)[i] == agg[i];
    }
  }

  lemma NoDupAppend<T>(a: seq<T>, b: seq<T>)
    requires NoDup(a) && NoDup(b)
    requires forall x :: x in a ==> x !in b
    ensures NoDup(a + b)
  {
    forall i, j | 0 <= i < j < |a + b| ensures (a + b)[i] != (a + b)[j] {
      if i < |a| && j >= |a| {
        assert (a + b)[i] in a && (a + b)[j] in b;
      }
    }
  }

  /**
   * Flattening keeps key pairs distinct when the outer keys are distinct and each
   * inner rollup has distinct keys.
   */
  lemma {:induction false} FlattenPairsDistinct<K1, K2, V>(agg: seq<(K1, seq<(K2, V)>)>)
    requires NoDup(Firsts(agg))
    requires forall i :: 0 <= i < |agg| ==> NoDup(Firsts(agg[i].1))
    ensures NoDup(PairKeys(Flatten(agg)))
  {
    if agg != [] {
      var init, last := Init(agg), Last(agg);
      assert forall i :: 0 <= i < |init| ==> init[i] == agg[i];
      assert Firsts(init) == Init(Firsts(agg));
      FlattenPairsDistinct(init);
      var a, b := PairKeys(Flatten(init)), PairKeys(Tagged(last.0, last.1));
      assert PairKeys(Flatten(agg)) == a + b;
      forall j, l | 0 <= j < l < |b| ensures b[j] != b[l] {
        assert Firsts(last.1)[j] != Firsts(last.1)[l];
      }
      forall p | p in a ensures p !in b {
        var m :| 0 <= m < |a| && a[m] == p;
        var t := Flatten(init)[m];
        assert t in Flatten(init);
        FlattenMembers(init, t);
        var i :| 0 <= i < |init| && init[i].0 == t.0 && (t.1, t.2) in init[i].1;
        assert Firsts(agg)[i] != Firsts(agg)[|agg| - 1];
      }
      NoDupAppend(a, b);
    }
  }

  /** Sum of the values of a flattened rollup. */
  function SumTriples<K1, K2>(f: seq<(K1, K2, int)>): int
  {
    if f == [] then 0 else SumTriples(Init(f)) + Last(f).2
  }

  /** Sum over the outer entries of the sums of their inner values. */
  function OuterTotal<K1, K2>(agg: seq<(K1, seq<(K2, int)>)>): int
  {
    if agg == [] then 0 else OuterTotal(Init(agg)) + SumValues(Last(agg).1)
  }

  lemma {:induction false} SumTriplesAppend<K1, K2>(f: seq<(K1, K2, int)>, g: seq<(K1, K2, int)>)
    ensures SumTriples(f + g) == SumTriples(f) + SumTriples(g)
    decreases |g|
  {
    if g == [] {
      assert f + g == f;
    } else {
      assert Init(f + g) == f + Init(g);
      SumTriplesAppend(f, Init(g));
    }
  }

  lemma {:induction false} SumTagged<K1, K2>(k1: K1, inner: seq<(K2, int)>)
    ensures SumTriples(Tagged(k1, inner)) == SumValues(inner)
  {
    if inner != [] {
      assert Init(Tagged(k1, inner)) == Tagged(k1, Init(inner));
      SumTagged(k1, Init(inner));
    }
  }

  lemma {:induction false} FlattenSum<K1, K2>(agg: seq<(K1, seq<(K2, int)>)>)
    ensures SumTriples(Flatten(agg)) == OuterTotal(agg)
  {
    if agg != [] {
      FlattenSum(Init(agg));
      SumTriplesAppend(Flatten(Init(agg)), Tagged(Last(agg).0, Last(agg).1));
      SumTagged(Last(agg).0, Last(agg).1);
    }
  }

  lemma {:induction false} OuterTotalOver<R(!new), K1(!new), K2(!new)>(
      ks: seq<K1>, rows: seq<R>, key1: R -> K1, key2: R -> K2, reduce: seq<R> -> int, w: R -> int)
    requires forall g :: reduce(g) == Sum(g, w)
    ensures OuterTotal(seq(|ks|, i requires 0 <= i < |ks| => (ks[i], Rollups(Where(rows, key1, ks[i]), key2, reduce))))
         == GroupSums(ks, rows, key1, w)
  {
    if ks != [] {
      var agg := seq(|ks|, i requires 0 <= i < |ks| => (ks[i], Rollups(Where(rows, key1, ks[i]), key2, reduce)));
      var ks' := Init(ks);
      assert Init(agg) == seq(|ks'|, i requires 0 <= i < |ks'| => (ks'[i], Rollups(Where(rows, key1, ks'[i]), key2, reduce)));
      OuterTotalOver(ks', rows, key1, key2, reduce, w);
      RollupsConserve(Where(rows, key1, Last(ks)), key2, reduce, w);
    }
  }

  lemma InnerKeysDistinct<R(!new), K1(!new), K2(!new), V>(rows: seq<R>, key1: R -> K1, key2: R -> K2, reduce: seq<R> -> V)
    ensures NoDup(PairKeys(Flatten(Rollups2(rows, key1, key2, reduce))))
  {
    var agg := Rollups2(rows, key1, key2, reduce);
    forall i | 0 <= i < |agg| ensures NoDup(Firsts(agg[i].1)) {
      RollupsShape(Where(rows, key1, agg[i].0), key2, reduce);
    }
    FlattenPairsDistinct(agg);
  }

  lemma FlattenedEntryOccurs<R(!new), K1(!new), K2(!new), V>(rows: seq<R>, key1: R -> K1, key2: R -> K2, reduce: seq<R> -> V, t: (K1, K2, V))
    requires t in Flatten(Rollups2(rows, key1, key2, reduce))
    ensures exists x :: x in rows && key1(x) == t.0 && key2(x) == t.1
    ensures t.2 == reduce(Where(Where(rows, key1, t.0), key2, t.1))
  {
    var agg := Rollups2(rows, key1, key2, reduce);
    FlattenMembers(agg, t);
    var i :| 0 <= i < |agg| && agg[i].0 == t.0 && (t.1, t.2) in agg[i].1;
    var g := Where(rows, key1, t.0);
    var inner := Rollups(g, key2, reduce);
    assert agg[i].1 == inner;
    RollupsShape(g, key2, reduce);
    var j :| 0 <= j < |inner| && inner[j] == (t.1, t.2);
    assert Firsts(inner)[j] == t.1;
    assert t.1 in Firsts(inner);
    var x :| x in g && key2(x) == t.1;
    assert x in rows && key1(x) == t.0;
  }

  lemma OccurringPairIsFlattened<R(!new), K1(!new), K2(!new), V>(rows: seq<R>, key1: R -> K1, key2: R -> K2, reduce: seq<R> -> V, x: R)
    requires x in rows
    ensures (key1(x), key2(x), reduce(Where(Where(rows, key1, key1(x)), key2, key2(x))))
            in Flatten(Rollups2(rows, key1, key2, reduce))
  {
    var agg := Rollups2(rows, key1, key2, reduce);
    var g := Where(rows, key1, key1(x));
    var inner := Rollups(g, key2, reduce);
    var t := (key1(x), key2(x), reduce(Where(g, key2, key2(x))));
    assert x in g;
    assert key1(x) in Firsts(agg);
    var i :| 0 <= i < |agg| && Firsts(agg)[i] == key1(x);
    RollupsShape(g, key2, reduce);
    assert key2(x) in Firsts(inner);
    var j :| 0 <= j < |inner| && Firsts(inner)[j] == key2(x);
    assert inner[j] == (t.1, t.2);
    assert agg[i].1 == inner;
    FlattenMembers(agg, t);
  }

  /**
   * The flattened two-key rollup has exactly one entry per distinct key pair present
   * in the rows; each entry's value is the reduction of the rows with that pair.
   */
  lemma FlattenRollups2Shape<R(!new), K1(!new), K2(!new), V>(rows: seq<R>, key1: R -> K1, key2: R -> K2, reduce: seq<R> -> V)
    ensures NoDup(PairKeys(Flatten(Rollups2(rows, key1, key2, reduce))))
    ensures forall t :: t in Flatten(Rollups2(rows, key1, key2, reduce)) ==>
              (exists x :: x in rows && key1(x) == t.0 && key2(x) == t.1)
              && t.2 == reduce(Where(Where(rows, key1, t.0), key2, t.1))
    ensures forall x :: x in rows ==>
              (key1(x), key2(x), reduce(Where(Where(rows, key1, key1(x)), key2, key2(x))))
              in Flatten(Rollups2(rows, key1, key2, reduce))
  {
    InnerKeysDistinct(rows, key1, key2, reduce);
    forall t | t in Flatten(Rollups2(rows, key1, key2, reduce))
      ensures (exists x :: x in rows && key1(x) == t.0 && key2(x) == t.1)
              && t.2 == reduce(Where(Where(rows, key1, t.0), key2, t.1))
    {
      FlattenedEntryOccurs(rows, key1, key2, reduce, t);
    }
    forall x | x in rows
      ensures (key1(x), key2(x), reduce(Where(Where(rows, key1, key1(x)), key2, key2(x))))
              in Flatten(Rollups2(rows, key1, key2, reduce))
    {
      OccurringPairIsFlattened(rows, key1, key2, reduce, x);
    }
  }

  /** Count conservation through both levels and the flattening. */
  lemma FlattenRollups2Conserve<R(!new), K1(!new), K2(!new)>(rows: seq<R>, key1: R -> K1, key2: R -> K2, reduce: seq<R> -> int, w: R -> int)
    requires forall g :: reduce(g) == Sum(g, w)
    ensures SumTriples(Flatten(Rollups2(rows, key1, key2, reduce))) == Sum(rows, w)
  {
    var ks := KeysOf(rows, key1);
    FlattenSum(Rollups2(rows, key1, key2, reduce));
    assert Rollups2(rows, key1, key2, reduce)
        == seq(|ks|, i requires 0 <= i < |ks| => (ks[i], Rollups(Where(rows, key1, ks[i]), key2, reduce)));
    OuterTotalOver(ks, rows, key1, key2, reduce, w);
    GroupSumsTotal(ks, rows, key1, w);
  }

  /** `map.get(k)` on a rollup held as a `Map`: the value of the first entry with key `k`. */
  function Get<K(==), V>(pairs: seq<(K, V)>, k: K): (r: Option<V>)
    ensures r.None? <==> k !in Firsts(pairs)
    ensures r.Some? ==> (k, r.value) in pairs
  {
    if pairs == [] then None
    else if pairs[0].0 == k then Some(pairs[0].1)
    else
      assert Firsts(pairs) == [pairs[0].0] + Firsts(pairs[1..]);
      Get(pairs[1..], k)
  }

  /** With distinct keys, `get` returns the value stored under the key. */
  lemma {:induction false} GetDistinct<K, V>(pairs: seq<(K, V)>, i: int)
    requires NoDup(Firsts(pairs)) && 0 <= i < |pairs|
    ensures Get(pairs, pairs[i].0) == Some(pairs[i].1)
  {
    if i > 0 {
      assert Firsts(pairs)[0] != Firsts(pairs)[i];
      assert Firsts(pairs[1..]) == Firsts(pairs)[1..];
      GetDistinct(pairs[1..], i - 1);
    }
  }
}
