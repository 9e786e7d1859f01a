/**
 * The injuries-versus-response line chart: rows filtered by region, emergency level
 * and a `"YYYY-MM"` window, averaged per (Emergency_Level, Number_of_Injuries),
 * grouped into one line per level with its points in ascending injury count, and a
 * legend of the selected levels in the order of the colour scale's domain, which
 * grows as the lines are coloured.
 */
module InjuriesResponse {
  import opened Wrappers
  import opened Seqs
  import opened Text
  import opened MonthKey
  import opened Rows
  import opened Aggregate
  import opened Sorting

  const DefaultRegions: seq<string> := ["Urban", "Suburban", "Rural"]
  const DefaultLevels: seq<string> := ["Minor", "Major", "Critical"]
  const DefaultTimeRange: (string, string) := ("2018-01", "2024-12")

  /** The three levels the colour scale's domain starts with. */
  const LevelOrder: seq<string> := ["Minor", "Major", "Critical"]

  /** `{ Emergency_Level, Number_of_Injuries, Avg_Response_Time }`. */
  type Point = (Option<string>, Option<int>, Option<real>)

  function PointLevel(p: Point): Option<string> { p.0 }
  /** The sort key `a.Number_of_Injuries - b.Number_of_Injuries` compares. */
  function PointInjuries(p: Point): int { p.1.GetOr(0) }

  /** The rows the chart keeps, in their order. */
  function Filtered(data: seq<Row>, regions: seq<string>, levels: seq<string>, timeRange: (string, string)): (f: seq<Row>)
    ensures forall r :: r in f <==> r in data && Selected(r.regionType, regions) && Selected(r.emergencyLevel, levels)
                                     && InWindow(r.monthYear, timeRange.0, timeRange.1)
    ensures Subsequence(f, data)
  {
    WindowFilter(data, regions, LevelOf, levels, timeRange.0, timeRange.1)
  }

  /** With the default window, a well-formed key is kept iff its year is 2018 to 2024. */
  lemma DefaultWindow(y: string, i: int)
    requires IsYear(y) && 0 <= i < 12
    ensures InWindow(Some(Key(y, i)), DefaultTimeRange.0, DefaultTimeRange.1) <==> 2018 <= DigitsValue(y) <= 2024
  {
    Window2018To2024(y, i);
  }

  /**
   * `d3.rollups(filtered, v => d3.mean(v, d => d.Avg_Response_Time), d => d.Emergency_Level,
   * d => d.Number_of_Injuries).flatMap(...)`.
   */
  function Aggregated(filtered: seq<Row>): seq<Point>
  {
    Flatten(Rollups2(filtered, LevelOf, InjuriesOf, MeanResponse))
  }

  /** No two points share their (Emergency_Level, Number_of_Injuries) pair. */
  lemma AggregatedDistinct(filtered: seq<Row>)
    ensures NoDup(PairKeys(Aggregated(filtered)))
  {
    InnerKeysDistinct(filtered, LevelOf, InjuriesOf, MeanResponse);
  }

  /** Every point comes from a pair of the kept rows and holds those rows' mean response time. */
  lemma AggregatedPoints(filtered: seq<Row>)
    ensures forall p :: p in Aggregated(filtered) ==>
              (exists r :: r in filtered && r.emergencyLevel == p.0 && r.numberOfInjuries == p.1)
              && p.2 == MeanResponse(Where(Where(filtered, LevelOf, p.0), InjuriesOf, p.1))
  {
    forall p | p in Aggregated(filtered)
      ensures (exists r :: r in filtered && r.emergencyLevel == p.0 && r.numberOfInjuries == p.1)
      ensures p.2 == MeanResponse(Where(Where(filtered, LevelOf, p.0), InjuriesOf, p.1))
    {
      FlattenedEntryOccurs(filtered, LevelOf, InjuriesOf, MeanResponse, p);
      var r :| r in filtered && LevelOf(r) == p.0 && InjuriesOf(r) == p.1;
    }
  }

  /** Every (Emergency_Level, Number_of_Injuries) pair of the kept rows has a point. */
  lemma AggregatedCovers(filtered: seq<Row>)
    ensures forall r :: r in filtered ==>
              exists p :: p in Aggregated(filtered) && p.0 == r.emergencyLevel && p.1 == r.numberOfInjuries
  {
    forall r | r in filtered
      ensures exists p :: p in Aggregated(filtered) && p.0 == r.emergencyLevel && p.1 == r.numberOfInjuries
    {
      OccurringPairIsFlattened(filtered, LevelOf, InjuriesOf, MeanResponse, r);
    }
  }

  /** One drawn line: `values.sort((a, b) => a.Number_of_Injuries - b.Number_of_Injuries)`. */
  function SortedLine(g: (Option<string>, seq<Point>)): (Option<string>, seq<Point>)
  {
    (g.0, SortByRank(g.1, PointInjuries))
  }

  /** `d3.groups(aggregated, d => d.Emergency_Level)`, each line sorted. */
  function Lines(aggregated: seq<Point>): seq<(Option<string>, seq<Point>)>
  {
    Map(Groups(aggregated, PointLevel), SortedLine)
  }

  /**
   * One line per level of the points; each line holds exactly that level's points,
   * in ascending injury count when every point has one.
   */
  lemma LinesShape(aggregated: seq<Point>)
    ensures NoDup(Firsts(Lines(aggregated)))
    ensures forall v :: v in Firsts(Lines(aggregated)) <==> exists p :: p in aggregated && p.0 == v
    ensures forall l :: l in Lines(aggregated) ==>
              multiset(l.1) == multiset(Where(aggregated, PointLevel, l.0))
              && ((forall p :: p in l.1 ==> p.1.Some?) ==>
                    forall i, j :: 0 <= i < j < |l.1| ==> l.1[i].1.value <= l.1[j].1.value)
  {
    var groups := Groups(aggregated, PointLevel);
    var lines := Lines(aggregated);
    RollupsShape(aggregated, PointLevel, (g: seq<Point>) => g);
    assert Firsts(lines) == Firsts(groups);
    forall l | l in lines
      ensures multiset(l.1) == multiset(Where(aggregated, PointLevel, l.0))
      ensures (forall p :: p in l.1 ==> p.1.Some?) ==>
                forall i, j :: 0 <= i < j < |l.1| ==> l.1[i].1.value <= l.1[j].1.value
    {
      var a :| 0 <= a < |lines| && lines[a] == l;
      assert l == SortedLine(groups[a]) && groups[a].1 == Where(aggregated, PointLevel, groups[a].0);
      SortedLineShape(groups[a]);
    }
  }

  /** A sorted line holds its group's points, ascending in injury count when every point has one. */
  lemma SortedLineShape(g: (Option<string>, seq<Point>))
    ensures SortedLine(g).0 == g.0
    ensures multiset(SortedLine(g).1) == multiset(g.1)
    ensures (forall p :: p in SortedLine(g).1 ==> p.1.Some?) ==>
              forall i, j :: 0 <= i < j < |SortedLine(g).1| ==> SortedLine(g).1[i].1.value <= SortedLine(g).1[j].1.value
  {
    var line := SortedLine(g).1;
    SortByRankCorrect(g.1, PointInjuries);
    if forall p :: p in line ==> p.1.Some? {
      forall i, j | 0 <= i < j < |line|
        ensures line[i].1.value <= line[j].1.value
      {
        assert line[i] in line && line[j] in line;
        assert PointInjuries(line[i]) <= PointInjuries(line[j]);
      }
    }
  }

  /** The colour scale's domain as the chart sets it, as level values. */
  const StandardDomain: seq<Option<string>> := [Some("Minor"), Some("Major"), Some("Critical")]

  /** `color(level)` on an ordinal scale: a value outside the domain is appended to it. */
  function Colored(domain: seq<Option<string>>, level: Option<string>): seq<Option<string>>
  {
    if level in domain then domain else domain + [level]
  }

  /**
   * `color.domain()` once `grouped.forEach` has coloured one line per value of
   * `drawn`, in that order.
   */
  function ColorDomain(drawn: seq<Option<string>>): (domain: seq<Option<string>>)
    ensures |domain| >= 3 && domain[..3] == StandardDomain
    ensures forall v :: v in domain <==> v in StandardDomain || v in drawn
    ensures NoDup(domain)
  {
    if drawn == [] then StandardDomain
    else
      var d := ColorDomain(Init(drawn));
      assert drawn == Init(drawn) + [Last(drawn)];
      assert (d + [Last(drawn)])[..3] == d[..3];
      Colored(d, Last(drawn))
  }

  /**
   * After the three standard levels the domain holds the other drawn values, in the
   * order each was first drawn.
   */
  lemma {:induction false} ColorDomainOrder(drawn: seq<Option<string>>)
    ensures forall k :: 3 <= k < |ColorDomain(drawn)| ==> ColorDomain(drawn)[k] !in StandardDomain
    ensures InFirstOrder(ColorDomain(drawn)[3..], drawn)
  {
    if drawn == [] {
      assert ColorDomain(drawn)[3..] == [];
    } else {
      var d := ColorDomain(Init(drawn));
      var x := Last(drawn);
      ColorDomainOrder(Init(drawn));
      if x in d {
        InFirstOrderSnoc(d[3..], drawn);
      } else {
        assert ColorDomain(drawn)[3..] == d[3..] + [x];
        assert forall y :: y in d[3..] ==> y in Init(drawn) by {
          forall y | y in d[3..] ensures y in Init(drawn) {
            var k :| 0 <= k < |d[3..]| && d[3..][k] == y;
          }
        }
        InFirstOrderSnocNew(d[3..], drawn);
      }
    }
  }

  /** The domain values `includes` lets into the legend, in domain order. */
  function LegendEntries(selectedLevels: seq<string>, drawn: seq<Option<string>>): (e: seq<Option<string>>)
    ensures forall v :: v in e <==> v in ColorDomain(drawn) && Selected(v, selectedLevels)
  {
    Filter(ColorDomain(drawn), v => Selected(v, selectedLevels))
  }

  /**
   * `color.domain().filter((lvl) => selectedLevels.includes(lvl))`, read after the
   * lines of `drawn` are coloured: a drawn level outside the three standard ones
   * joins the legend too.
   */
  function Legend(selectedLevels: seq<string>, drawn: seq<Option<string>>): (legend: seq<string>)
    ensures |legend| == |LegendEntries(selectedLevels, drawn)|
    ensures forall i :: 0 <= i < |legend| ==> LegendEntries(selectedLevels, drawn)[i] == Some(legend[i])
    ensures forall lvl :: lvl in legend <==> lvl in selectedLevels && (lvl in LevelOrder || Some(lvl) in drawn)
    ensures NoDup(legend)
  {
    FilterOrder(ColorDomain(drawn), v => Selected(v, selectedLevels));
    Values(LegendEntries(selectedLevels, drawn))
  }

  /** The strings of a list of present values. */
  function Values(e: seq<Option<string>>): (r: seq<string>)
    requires forall v :: v in e ==> v.Some?
    ensures |r| == |e|
    ensures forall i :: 0 <= i < |e| ==> e[i] == Some(r[i])
    ensures forall x :: x in r <==> Some(x) in e
    ensures NoDup(e) ==> NoDup(r)
  {
    var r := seq(|e|, i requires 0 <= i < |e| => assert e[i] in e; e[i].value);
    assert forall x :: x in r <==> Some(x) in e by {
      forall x | Some(x) in e ensures x in r {
        var i :| 0 <= i < |e| && e[i] == Some(x);
        assert r[i] == x;
      }
      forall x | x in r ensures Some(x) in e {
        var i :| 0 <= i < |r| && r[i] == x;
        assert e[i] in e;
      }
    }
    r
  }

  /** Positions in the standard levels. */
  lemma LevelIndex(k: nat)
    requires k < 3
    ensures FirstIndex(LevelOrder, LevelOrder[k]) == k
    ensures StandardDomain[k] == Some(LevelOrder[k])
  {
    FirstIndexUnique(LevelOrder, LevelOrder[k], k);
  }

  /**
   * The legend lists the selected standard levels first, Minor before Major before
   * Critical, and then the other drawn levels in the order their lines were drawn.
   */
  lemma LegendOrder(selectedLevels: seq<string>, drawn: seq<Option<string>>)
    ensures forall i, j :: 0 <= i < j < |Legend(selectedLevels, drawn)| && Legend(selectedLevels, drawn)[j] in LevelOrder ==>
              Legend(selectedLevels, drawn)[i] in LevelOrder
              && FirstIndex(LevelOrder, Legend(selectedLevels, drawn)[i]) < FirstIndex(LevelOrder, Legend(selectedLevels, drawn)[j])
    ensures forall i, j :: 0 <= i < j < |Legend(selectedLevels, drawn)| && Legend(selectedLevels, drawn)[i] !in LevelOrder ==>
              Legend(selectedLevels, drawn)[j] !in LevelOrder
              && Some(Legend(selectedLevels, drawn)[i]) in drawn && Some(Legend(selectedLevels, drawn)[j]) in drawn
              && FirstIndex(drawn, Some(Legend(selectedLevels, drawn)[i])) < FirstIndex(drawn, Some(Legend(selectedLevels, drawn)[j]))
  {
    var legend := Legend(selectedLevels, drawn);
    var d := ColorDomain(drawn);
    var e := LegendEntries(selectedLevels, drawn);
    FilterOrder(d, v => Selected(v, selectedLevels));
    ColorDomainOrder(drawn);
    forall i, j | 0 <= i < j < |legend|
      ensures legend[j] in LevelOrder ==>
                legend[i] in LevelOrder && FirstIndex(LevelOrder, legend[i]) < FirstIndex(LevelOrder, legend[j])
      ensures legend[i] !in LevelOrder ==>
                legend[j] !in LevelOrder && Some(legend[i]) in drawn && Some(legend[j]) in drawn
                && FirstIndex(drawn, Some(legend[i])) < FirstIndex(drawn, Some(legend[j]))
    {
      assert e[i] in e && e[j] in e;
      assert e[i] == Some(legend[i]) && e[j] == Some(legend[j]);
      var a, b := FirstIndex(d, e[i]), FirstIndex(d, e[j]);
      assert a < b;
      assert d[a] == e[i] && d[b] == e[j];
      if a < 3 {
        assert d[a] == StandardDomain[a];
        LevelIndex(a);
      }
      if b < 3 {
        assert d[b] == StandardDomain[b];
        LevelIndex(b);
      }
      if legend[j] in LevelOrder {
        assert e[j] in StandardDomain;
      }
      if legend[i] !in LevelOrder && 3 <= a {
        assert e[i] !in StandardDomain;
        assert d[3..][a - 3] == e[i] && d[3..][b - 3] == e[j];
      }
    }
  }

  /** The levels of the drawn lines, in the order `grouped.forEach` colours them. */
  function DrawnLevels(filtered: seq<Row>): seq<Option<string>>
  {
    Firsts(Lines(Aggregated(filtered)))
  }

  /**
   * On the chart a level is in the legend iff it is selected and it is a standard
   * level or the level of some kept row.
   */
  lemma ChartLegend(data: seq<Row>, regions: seq<string>, levels: seq<string>, timeRange: (string, string))
    ensures forall lvl :: lvl in Legend(levels, DrawnLevels(Filtered(data, regions, levels, timeRange))) <==>
              lvl in levels && (lvl in LevelOrder || exists r :: r in Filtered(data, regions, levels, timeRange) && r.emergencyLevel == Some(lvl))
  {
    var filtered := Filtered(data, regions, levels, timeRange);
    var agg := Aggregated(filtered);
    LinesShape(agg);
    AggregatedPoints(filtered);
    AggregatedCovers(filtered);
    forall lvl
      ensures Some(lvl) in DrawnLevels(filtered) <==> exists r :: r in filtered && r.emergencyLevel == Some(lvl)
    {
      if Some(lvl) in DrawnLevels(filtered) {
        var p :| p in agg && p.0 == Some(lvl);
      }
      if exists r :: r in filtered && r.emergencyLevel == Some(lvl) {
        var r :| r in filtered && r.emergencyLevel == Some(lvl);
        var p :| p in agg && p.0 == r.emergencyLevel && p.1 == r.numberOfInjuries;
      }
    }
  }
}
