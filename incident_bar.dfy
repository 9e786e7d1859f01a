/**
 * The incident bar chart: rows filtered by region, incident type and month window,
 * then one bar per incident type holding the group's `sum(Count || 1)`.
 */
module IncidentBar {
  import opened Wrappers
  import opened Seqs
  import opened MonthKey
  import opened Rows
  import opened Aggregate
  import DashboardFile

  /** `{ Incident_Type, Count }`. */
  datatype Bar = Bar(incidentType: Option<string>, count: int)

  function ToBar(p: (Option<string>, int)): Bar { Bar(p.0, p.1) }
  function BarType(b: Bar): Option<string> { b.incidentType }
  function BarCount(b: Bar): int { b.count }

  /** The rows the chart keeps, in their order. */
  function Filtered(data: seq<Row>, regions: seq<string>, incidents: seq<string>, startMonth: string, endMonth: string): (f: seq<Row>)
    ensures forall r :: r in f <==> r in data && Selected(r.regionType, regions) && Selected(r.incidentType, incidents)
                                     && InWindow(r.monthYear, ConvertToMonthYear(startMonth), ConvertToMonthYear(endMonth))
    ensures Subsequence(f, data)
  {
    WindowFilter(data, regions, TypeOf, incidents, ConvertToMonthYear(startMonth), ConvertToMonthYear(endMonth))
  }

  /** `d3.rollups(filtered, v => d3.sum(v, d => d.Count || 1), d => d.Incident_Type).map(...)`. */
  function IncidentCounts(filtered: seq<Row>): seq<Bar>
  {
    Map(Rollups(filtered, TypeOf, SumCountOrOne), ToBar)
  }

  /** The chart: the no-data message, or its bars. */
  datatype Chart = NoData | Bars(bars: seq<Bar>)

  function Render(data: seq<Row>, regions: seq<string>, incidents: seq<string>, startMonth: string, endMonth: string): (c: Chart)
    ensures c.NoData? <==> Filtered(data, regions, incidents, startMonth, endMonth) == []
    ensures c.Bars? ==> c.bars == IncidentCounts(Filtered(data, regions, incidents, startMonth, endMonth))
  {
    var filtered := Filtered(data, regions, incidents, startMonth, endMonth);
    if |filtered| == 0 then NoData else Bars(IncidentCounts(filtered))
  }

  /**
   * The bars' types are the distinct incident types of the kept rows in
   * first-occurrence order (so no type has two bars and every type has one), and
   * each bar holds its group's `sum(Count || 1)`.
   */
  lemma IncidentCountsShape(filtered: seq<Row>)
    ensures Map(IncidentCounts(filtered), BarType) == KeysOf(filtered, TypeOf)
    ensures NoDup(Map(IncidentCounts(filtered), BarType))
    ensures forall t :: t in Map(IncidentCounts(filtered), BarType) <==> exists r :: r in filtered && r.incidentType == t
    ensures forall b :: b in IncidentCounts(filtered) ==> b.count == SumCountOrOne(Where(filtered, TypeOf, b.incidentType))
  {
    var ks := KeysOf(filtered, TypeOf);
    var types := Map(IncidentCounts(filtered), BarType);
    assert |types| == |ks|;
    assert forall i :: 0 <= i < |ks| ==> types[i] == ks[i];
    forall t ensures t in types <==> exists r :: r in filtered && r.incidentType == t {
      assert t in ks <==> exists r :: r in filtered && TypeOf(r) == t;
    }
  }

  lemma {:induction false} BarSum(agg: seq<(Option<string>, int)>)
    ensures Sum(Map(agg, ToBar), BarCount) == SumValues(agg)
  {
    if agg != [] {
      BarSum(Init(agg));
      assert Init(Map(agg, ToBar)) == Map(Init(agg), ToBar);
    }
  }

  /** The bars add up to `sum(Count || 1)` over every kept row. */
  lemma IncidentCountsConserve(filtered: seq<Row>)
    ensures Sum(IncidentCounts(filtered), BarCount) == Sum(filtered, CountOrOne)
  {
    BarSum(Rollups(filtered, TypeOf, SumCountOrOne));
    RollupsConserve(filtered, TypeOf, SumCountOrOne, CountOrOne);
  }

  /** Uploaded counts are drawn iff the stored mode is `'client-upload'` and an upload exists. */
  function DataSource(stored: Option<string>, uploaded: Option<seq<Row>>): (s: DashboardFile.Source<seq<Row>>)
    ensures s.Uploaded? <==> stored == Some("client-upload") && uploaded.Some?
    ensures s.Uploaded? ==> s.rows == uploaded.value
    ensures s.File? && DashboardFile.Truthy(stored) ==> s.path == "/data/incident_type_counts_" + stored.value + ".json"
    ensures s.File? && !DashboardFile.Truthy(stored) ==> s.path == "/data/incident_type_counts_monthly.json"
  {
    var s := DashboardFile.ChooseSource(stored, uploaded, "incident_type_counts", "/data/incident_type_counts_monthly.json");
    if DashboardFile.Truthy(stored) then PrefixedPath(stored.value); s else s
  }

  lemma PrefixedPath(prefix: string)
    ensures "/data/" + "incident_type_counts" + "_" + prefix + ".json" == "/data/incident_type_counts_" + prefix + ".json"
  {
    assert "/data/" + "incident_type_counts" + "_" == "/data/incident_type_counts_";
  }
}
