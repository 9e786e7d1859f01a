/**
 * The records the charts read from their JSON files. A field that is absent from a
 * record is `None`. The filter tests and the group weights every chart shares are
 * here: `list.includes(d.Field)`, the inclusive `start <= d.MonthYear <= end`
 * window, `d.Count || 1`, `d3.sum(v, d => d.Count)` and
 * `d3.mean(v, d => d.Avg_Response_Time)`.
 */
module Rows {
  import opened Wrappers
  import opened Seqs
  import opened MonthKey
  import Stats

  datatype Row = Row(
    regionType: Option<string>,
    incidentType: Option<string>,
    incidentSeverity: Option<string>,
    emergencyLevel: Option<string>,
    monthYear: Option<string>,
    count: Option<int>,
    ambulanceAvailability: Option<string>,
    numberOfInjuries: Option<int>,
    roadType: Option<string>,
    distanceBin: Option<string>,
    weatherCondition: Option<string>,
    trafficCongestion: Option<string>,
    avgResponseTime: Option<real>)

  // The group keys, one per field the charts group by.
  function RegionOf(r: Row): Option<string> { r.regionType }
  function TypeOf(r: Row): Option<string> { r.incidentType }
  function SeverityOf(r: Row): Option<string> { r.incidentSeverity }
  function LevelOf(r: Row): Option<string> { r.emergencyLevel }
  function MonthOf(r: Row): Option<string> { r.monthYear }
  function AvailabilityOf(r: Row): Option<string> { r.ambulanceAvailability }
  function InjuriesOf(r: Row): Option<int> { r.numberOfInjuries }
  function RoadOf(r: Row): Option<string> { r.roadType }
  function BinOf(r: Row): Option<string> { r.distanceBin }
  function WeatherOf(r: Row): Option<string> { r.weatherCondition }
  function AvgOf(r: Row): Option<real> { r.avgResponseTime }

  /** `options.includes(v)`: an absent field is never included in a list of strings. */
  predicate Selected(v: Option<string>, options: seq<string>)
  {
    v.Some? && v.value in options
  }

  /**
   * `m >= start && m <= end` with `m` the row's MonthYear: an absent field
   * compares false with any string.
   */
  predicate InWindow(m: Option<string>, start: string, end: string)
  {
    m.Some? && InRange(m.value, start, end)
  }

  /**
   * `data.filter(d => regions.includes(d.Region_Type) && categories.includes(category(d))
   * && d.MonthYear >= start && d.MonthYear <= end)`, the filter of every chart with a
   * month window.
   */
  function WindowFilter(data: seq<Row>, regions: seq<string>, category: Row -> Option<string>, categories: seq<string>,
                        start: string, end: string): (f: seq<Row>)
    ensures forall r :: r in f <==> r in data && Selected(r.regionType, regions) && Selected(category(r), categories)
                                     && InWindow(r.monthYear, start, end)
    ensures Subsequence(f, data)
  {
    var keep := (r: Row) => Selected(r.regionType, regions) && Selected(category(r), categories) && InWindow(r.monthYear, start, end);
    FilterIsSubsequence(data, keep);
    Filter(data, keep)
  }

  /** `d.Count || 1`: an absent or zero count weighs 1. */
  function CountOrOne(r: Row): int
  {
    match r.count
    case Some(c) => if c != 0 then c else 1
    case None => 1
  }

  /** The weight `d3.sum` gives `d.Count`: an absent count adds nothing. */
  function CountOrZero(r: Row): int
  {
    r.count.GetOr(0)
  }

  /** `v => d3.sum(v, d => d.Count || 1)`. */
  function SumCountOrOne(g: seq<Row>): int { Sum(g, CountOrOne) }

  /** `v => d3.sum(v, d => d.Count)`. */
  function SumCount(g: seq<Row>): int { Sum(g, CountOrZero) }

  /** `v => d3.mean(v, d => d.Avg_Response_Time)`. */
  function MeanResponse(g: seq<Row>): Option<real> { Stats.Mean(Map(g, AvgOf)) }

  /** Every row weighs at least one in `sum(Count || 1)` unless its count is negative. */
  lemma CountOrOneAtLeastOne(r: Row)
    requires r.count.None? || r.count.value >= 0
    ensures CountOrOne(r) >= 1
    ensures r.count.Some? && r.count.value > 0 ==> CountOrOne(r) == r.count.value
  {
  }

  /** A group's mean response time is defined iff some row of it has one. */
  lemma MeanResponseDefined(g: seq<Row>)
    ensures MeanResponse(g).Some? <==> exists r :: r in g && r.avgResponseTime.Some?
  {
    var vs := Map(g, AvgOf);
    Stats.MeanDefined(vs);
    if exists r :: r in g && r.avgResponseTime.Some? {
      var r :| r in g && r.avgResponseTime.Some?;
      var i :| 0 <= i < |g| && g[i] == r;
      assert vs[i].Some?;
    }
  }

  /** A group's mean lies between the least and the greatest response time in it. */
  lemma MeanResponseBetween(g: seq<Row>, lo: real, hi: real)
    requires forall r :: r in g && r.avgResponseTime.Some? ==> lo <= r.avgResponseTime.value <= hi
    ensures MeanResponse(g).Some? ==> lo <= MeanResponse(g).value <= hi
  {
    var vs := Map(g, AvgOf);
    forall i | 0 <= i < |vs| && vs[i].Some? ensures lo <= vs[i].value <= hi {
      assert g[i] in g;
    }
    Stats.MeanBetween(vs, lo, hi);
  }
}
