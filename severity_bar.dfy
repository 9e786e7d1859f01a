/**
 * The severity bar chart: nothing is drawn until both selections are non-empty and
 * both month labels are set; otherwise rows are filtered by region, incident type
 * and month window, summed per Incident_Severity with `d3.sum(v, d => d.Count)`,
 * and ordered by position in `['Low', 'Medium', 'High']`.
 */
module SeverityBar {
  import opened Wrappers
  import opened Seqs
  import opened MonthKey
  import opened Rows
  import opened Aggregate
  import opened Sorting

  const SeverityLevels: seq<string> := ["Low", "Medium", "High"]

  /** `{ Severity, Count }`. */
  datatype Bar = Bar(severity: Option<string>, count: int)

  function ToBar(p: (Option<string>, int)): Bar { Bar(p.0, p.1) }
  function BarSeverity(b: Bar): Option<string> { b.severity }
  function BarCount(b: Bar): int { b.count }

  /** `levels.indexOf(v)`: -1 when `v` is absent or not listed. */
  function IndexOf(levels: seq<string>, v: Option<string>): (i: int)
    ensures -1 <= i < |levels|
    ensures i >= 0 ==> v == Some(levels[i]) && forall j :: 0 <= j < i ==> v != Some(levels[j])
    ensures i == -1 <==> !Selected(v, levels)
  {
    if levels == [] then -1
    else if v == Some(levels[0]) then 0
    else var j := IndexOf(levels[1..], v); if j == -1 then -1 else j + 1
  }

  function Rank(b: Bar): int { IndexOf(SeverityLevels, b.severity) }

  /** JavaScript falsiness of a month label: absent or empty. */
  predicate Falsy(monthLabel: Option<string>)
  {
    monthLabel.None? || monthLabel.value == ""
  }

  /** The rows the chart keeps, in their order. */
  function Filtered(data: seq<Row>, regions: seq<string>, incidents: seq<string>, startMonth: string, endMonth: string): (f: seq<Row>)
    ensures forall r :: r in f <==> r in data && Selected(r.regionType, regions) && Selected(r.incidentType, incidents)
                                     && InWindow(r.monthYear, ConvertToMonthYear(startMonth), ConvertToMonthYear(endMonth))
    ensures Subsequence(f, data)
  {
    WindowFilter(data, regions, TypeOf, incidents, ConvertToMonthYear(startMonth), ConvertToMonthYear(endMonth))
  }

  /** `d3.rollups(filtered, v => d3.sum(v, d => d.Count), d => d.Incident_Severity).map(...)`: the bars in first-occurrence order. */
  function Unsorted(filtered: seq<Row>): seq<Bar>
  {
    Map(Rollups(filtered, SeverityOf, SumCount), ToBar)
  }

  /** The bars sorted with `(a, b) => severityLevels.indexOf(a.Severity) - severityLevels.indexOf(b.Severity)`. */
  function SeverityCounts(filtered: seq<Row>): seq<Bar>
  {
    SortByRank(Unsorted(filtered), Rank)
  }

  /** What the effect does: nothing, the no-data message, or the bars. */
  datatype Chart = Skipped | NoData | Bars(bars: seq<Bar>)

  function Render(data: seq<Row>, regions: seq<string>, incidents: seq<string>, startMonth: Option<string>, endMonth: Option<string>): (c: Chart)
    ensures c.Skipped? <==> regions == [] || incidents == [] || Falsy(startMonth) || Falsy(endMonth)
    ensures c.NoData? ==> Filtered(data, regions, incidents, startMonth.value, endMonth.value) == []
    ensures c.Bars? ==> var filtered := Filtered(data, regions, incidents, startMonth.value, endMonth.value);
                        filtered != [] && c.bars == SeverityCounts(filtered)
  {
    if regions == [] || incidents == [] || Falsy(startMonth) || Falsy(endMonth) then Skipped
    else
      var filtered := Filtered(data, regions, incidents, startMonth.value, endMonth.value);
      if |filtered| == 0 then NoData else Bars(SeverityCounts(filtered))
  }

  /**
   * The bars follow the fixed order: a bar ranked lower in Low, Medium, High comes
   * first, and a severity outside the list (rank -1) comes before all three.
   */
  lemma SeverityOrder(filtered: seq<Row>)
    ensures var bars := SeverityCounts(filtered);
      forall i, j :: 0 <= i < |bars| && 0 <= j < |bars| && Rank(bars[i]) < Rank(bars[j]) ==> i < j
  {
    SortByRankCorrect(Unsorted(filtered), Rank);
    SortedRankOrder(SeverityCounts(filtered), Rank);
  }

  /**
   * Bars of equal rank keep the rollup's order, so the severities outside the list,
   * a missing one among them, lead in the order they first occur.
   */
  lemma SeverityTies(filtered: seq<Row>, v: int)
    ensures Filter(SeverityCounts(filtered), RankIs(Rank, v)) == Filter(Unsorted(filtered), RankIs(Rank, v))
  {
    SortByRankStable(Unsorted(filtered), Rank, v);
  }

  /** The sorted bars are the unsorted bars rearranged. */
  lemma SortedBarsElements(filtered: seq<Row>)
    ensures multiset(SeverityCounts(filtered)) == multiset(Unsorted(filtered))
    ensures forall b :: b in SeverityCounts(filtered) <==> b in Unsorted(filtered)
  {
    var bars := SeverityCounts(filtered);
    var unsorted := Unsorted(filtered);
    SortByRankCorrect(unsorted, Rank);
    forall b ensures b in bars <==> b in unsorted {
      assert b in bars <==> b in multiset(bars);
      assert b in unsorted <==> b in multiset(unsorted);
    }
  }

  /** No severity has two bars. */
  lemma SeverityCountsDistinct(filtered: seq<Row>)
    ensures NoDup(Map(SeverityCounts(filtered), BarSeverity))
  {
    var unsorted := Unsorted(filtered);
    var bars := SeverityCounts(filtered);
    var ks := KeysOf(filtered, SeverityOf);
    SortedBarsElements(filtered);
    forall i, j | 0 <= i < j < |unsorted| ensures BarSeverity(unsorted[i]) != BarSeverity(unsorted[j]) {
      assert unsorted[i].severity == ks[i] && unsorted[j].severity == ks[j];
    }
    PermutationKeepsDistinctKeys(unsorted, bars, BarSeverity);
    var sevs := Map(bars, BarSeverity);
    forall i, j | 0 <= i < j < |sevs| ensures sevs[i] != sevs[j] {
      assert BarSeverity(bars[i]) != BarSeverity(bars[j]);
    }
  }

  /** A severity has a bar iff some kept row has that severity. */
  lemma SeverityCountsPresent(filtered: seq<Row>)
    ensures forall v :: v in Map(SeverityCounts(filtered), BarSeverity) <==> exists r :: r in filtered && r.incidentSeverity == v
  {
    var unsorted := Unsorted(filtered);
    SortByRankCorrect(unsorted, Rank);
    PermutationKeepsKeys(unsorted, SeverityCounts(filtered), BarSeverity);
    UnsortedSeverities(filtered);
  }

  /** Before sorting, the bars' severities are the distinct severities in first-occurrence order. */
  lemma UnsortedSeverities(filtered: seq<Row>)
    ensures Map(Unsorted(filtered), BarSeverity) == KeysOf(filtered, SeverityOf)
  {
    RollupsShape(filtered, SeverityOf, SumCount);
  }

  /** Each bar holds its group's Count sum, absent counts adding nothing. */
  lemma SeverityCountsValues(filtered: seq<Row>)
    ensures forall b :: b in SeverityCounts(filtered) ==> b.count == SumCount(Where(filtered, SeverityOf, b.severity))
  {
    var unsorted := Unsorted(filtered);
    SortedBarsElements(filtered);
    forall b | b in SeverityCounts(filtered) ensures b.count == SumCount(Where(filtered, SeverityOf, b.severity)) {
      var i :| 0 <= i < |unsorted| && unsorted[i] == b;
    }
  }

  lemma {:induction false} BarSum(agg: seq<(Option<string>, int)>)
    ensures Sum(Map(agg, ToBar), BarCount) == SumValues(agg)
  {
    if agg != [] {
      BarSum(Init(agg));
      assert Init(Map(agg, ToBar)) == Map(Init(agg), ToBar);
    }
  }

  /** The bars add up to the Count sum of every kept row. */
  lemma SeverityCountsConserve(filtered: seq<Row>)
    ensures Sum(SeverityCounts(filtered), BarCount) == Sum(filtered, CountOrZero)
  {
    SortByRankSum(Unsorted(filtered), Rank, BarCount);
    BarSum(Rollups(filtered, SeverityOf, SumCount));
    RollupsConserve(filtered, SeverityOf, SumCount, CountOrZero);
  }
}
