/**
 * The ambulance availability chart: rows filtered by region and emergency level
 * only, with no month window, and one mean response time per availability value.
 */
module AmbulanceAvailability {
  import opened Wrappers
  import opened Seqs
  import opened Rows
  import opened Aggregate

  const DefaultRegions: seq<string> := ["Urban", "Suburban", "Rural"]
  const DefaultLevels: seq<string> := ["Minor", "Major", "Critical"]

  /** `{ Ambulance_Availability, Avg_Response_Time }`. */
  type Bar = (Option<string>, Option<real>)

  /** `data.filter(d => regions.includes(d.Region_Type) && levels.includes(d.Emergency_Level))`. */
  function Filtered(data: seq<Row>, regions: seq<string>, levels: seq<string>): (f: seq<Row>)
    ensures forall r :: r in f <==> r in data && Selected(r.regionType, regions) && Selected(r.emergencyLevel, levels)
    ensures Subsequence(f, data)
  {
    var keep := (r: Row) => Selected(r.regionType, regions) && Selected(r.emergencyLevel, levels);
    FilterIsSubsequence(data, keep);
    Filter(data, keep)
  }

  /** The filter ignores the month: two rows differing only in MonthYear are kept alike. */
  lemma FilterIgnoresMonth(data: seq<Row>, regions: seq<string>, levels: seq<string>, r: Row, m: Option<string>)
    requires r in data && r.(monthYear := m) in data
    ensures r in Filtered(data, regions, levels) <==> r.(monthYear := m) in Filtered(data, regions, levels)
  {
  }

  /** `d3.rollups(filtered, v => d3.mean(v, d => d.Avg_Response_Time), d => d.Ambulance_Availability).map(...)`. */
  function Aggregated(filtered: seq<Row>): seq<Bar>
  {
    Rollups(filtered, AvailabilityOf, MeanResponse)
  }

  /**
   * One bar per availability value of the kept rows, in first-occurrence order;
   * each bar's group is non-empty, and its mean is defined iff some row of the group
   * has a response time.
   */
  lemma AggregatedShape(filtered: seq<Row>)
    ensures Firsts(Aggregated(filtered)) == KeysOf(filtered, AvailabilityOf)
    ensures forall b :: b in Aggregated(filtered) ==>
              |Where(filtered, AvailabilityOf, b.0)| > 0
              && b.1 == MeanResponse(Where(filtered, AvailabilityOf, b.0))
              && (b.1.Some? <==> exists r :: r in filtered && r.ambulanceAvailability == b.0 && r.avgResponseTime.Some?)
  {
    var agg := Aggregated(filtered);
    RollupsShape(filtered, AvailabilityOf, MeanResponse);
    forall b | b in agg
      ensures |Where(filtered, AvailabilityOf, b.0)| > 0
      ensures b.1 == MeanResponse(Where(filtered, AvailabilityOf, b.0))
      ensures b.1.Some? <==> exists r :: r in filtered && r.ambulanceAvailability == b.0 && r.avgResponseTime.Some?
    {
      var i :| 0 <= i < |agg| && agg[i] == b;
      var g := Where(filtered, AvailabilityOf, b.0);
      MeanResponseDefined(g);
      assert forall r :: r in g <==> r in filtered && r.ambulanceAvailability == b.0;
    }
  }
}
