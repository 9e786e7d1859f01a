/**
 * The mean of the charts (`d3.mean`) and of the preprocessing script (pandas
 * `.mean()`): both skip missing values and have no value when nothing is left.
 * Floating-point rounding is not modelled; the mean is the exact ratio.
 */
module Stats {
  import opened Wrappers
  import opened Seqs

  /** Sum of the values that are present. */
  function DefinedSum(vs: seq<Option<real>>): real
  {
    if vs == [] then 0.0
    else DefinedSum(Init(vs)) + (match Last(vs) case Some(v) => v case None => 0.0)
  }

  /** Number of the values that are present. */
  function DefinedCount(vs: seq<Option<real>>): nat
  {
    if vs == [] then 0 else DefinedCount(Init(vs)) + (if Last(vs).Some? then 1 else 0)
  }

  /** `d3.mean(vs)`: undefined when no value is present. */
  function Mean(vs: seq<Option<real>>): Option<real>
  {
    if DefinedCount(vs) == 0 then None else Some(DefinedSum(vs) / DefinedCount(vs) as real)
  }

  lemma {:induction false} DefinedCountPositive(vs: seq<Option<real>>)
    ensures DefinedCount(vs) > 0 <==> exists i :: 0 <= i < |vs| && vs[i].Some?
  {
    if vs != [] {
      DefinedCountPositive(Init(vs));
      if exists i :: 0 <= i < |vs| && vs[i].Some? {
        var i :| 0 <= i < |vs| && vs[i].Some?;
        if i < |vs| - 1 {
          assert Init(vs)[i].Some?;
        }
      }
    }
  }

  /** The mean is defined exactly when some value of the group is present. */
  lemma MeanDefined(vs: seq<Option<real>>)
    ensures Mean(vs).Some? <==> exists i :: 0 <= i < |vs| && vs[i].Some?
  {
    DefinedCountPositive(vs);
  }

  lemma {:induction false} DefinedSumBounds(vs: seq<Option<real>>, lo: real, hi: real)
    requires forall i :: 0 <= i < |vs| && vs[i].Some? ==> lo <= vs[i].value <= hi
    ensures lo * DefinedCount(vs) as real <= DefinedSum(vs) <= hi * DefinedCount(vs) as real
  {
    if vs != [] {
      DefinedSumBounds(Init(vs), lo, hi);
      var n := DefinedCount(Init(vs)) as real;
      if Last(vs).Some? {
        assert lo * (n + 1.0) == lo * n + lo;
        assert hi * (n + 1.0) == hi * n + hi;
      }
    }
  }

  lemma RatioBounds(s: real, n: real, lo: real, hi: real)
    requires n > 0.0 && lo * n <= s <= hi * n
    ensures lo <= s / n <= hi
  {
    assert (s / n) * n == s;
  }

  /** A defined mean lies between any bounds of the values it averages. */
  lemma MeanBetween(vs: seq<Option<real>>, lo: real, hi: real)
    requires forall i :: 0 <= i < |vs| && vs[i].Some? ==> lo <= vs[i].value <= hi
    ensures Mean(vs).Some? ==> lo <= Mean(vs).value <= hi
  {
    if DefinedCount(vs) > 0 {
      DefinedSumBounds(vs, lo, hi);
      RatioBounds(DefinedSum(vs), DefinedCount(vs) as real, lo, hi);
    }
  }
}
