/**
 * The preprocessing script: it loads the incident table, adds a `Year` column
 * from the parsed timestamps, writes two grouped averages, then adds a
 * `Distance_Bin` column with half-open bins and writes a third grouped average
 * from which empty combinations are dropped.
 */
module Preprocess {
  import opened Wrappers
  import opened Seqs
  import opened Aggregate
  import opened Stats

  /** A parsed timestamp; the time of day is not modelled. */
  datatype DateTime = DateTime(year: int, month: int, day: int)

  /** One table row; `None` is a missing value (NaN / NaT). */
  datatype Record = Record(
    ambulanceAvailability: Option<string>,
    regionType: Option<string>,
    emergencyLevel: Option<string>,
    numberOfInjuries: Option<int>,
    roadType: Option<string>,
    distanceToIncident: Option<real>,
    responseTime: Option<real>,
    complexResponseTime: Option<real>,
    timestamp: Option<DateTime>,
    year: Option<int>,
    distanceBin: Option<string>)

  /** `df["Timestamp"].dt.year`: missing for a missing timestamp. */
  function YearOf(ts: Option<DateTime>): (y: Option<int>)
    ensures y.Some? <==> ts.Some?
    ensures ts.Some? ==> y.value == ts.value.year
  {
    match ts
    case None => None
    case Some(t) => Some(t.year)
  }

  const BinEdges: seq<real> := [0.0, 10.0, 20.0, 30.0, 40.0, 50.0]
  const BinLabels: seq<string> := ["0-10", "10-20", "20-30", "30-40", "40-50", "50+"]

  /**
   * `pd.cut(d, bins=[0, 10, 20, 30, 40, 50, inf], right=False)`: each bin includes
   * its lower edge and excludes its upper one.
   */
  function DistanceBin(d: Option<real>): Option<string>
  {
    if d.None? || d.value < 0.0 then None
    else if d.value < 10.0 then Some("0-10")
    else if d.value < 20.0 then Some("10-20")
    else if d.value < 30.0 then Some("20-30")
    else if d.value < 40.0 then Some("30-40")
    else if d.value < 50.0 then Some("40-50")
    else Some("50+")
  }

  /** Bin `i` holds exactly the distances from its lower edge up to, not including, the next edge. */
  lemma BinIntervals(d: real, i: int)
    requires 0 <= i < 6
    ensures DistanceBin(Some(d)) == Some(BinLabels[i]) <==>
              BinEdges[i] <= d && (i == 5 || d < BinEdges[i + 1])
  {
  }

  /** Every distance of at least 0 gets exactly one label. */
  lemma BinTotal(d: real)
    requires d >= 0.0
    ensures DistanceBin(Some(d)).Some?
    ensures exists i :: 0 <= i < 6 && DistanceBin(Some(d)) == Some(BinLabels[i])
    ensures forall i, j :: 0 <= i < 6 && 0 <= j < 6 ==>
              DistanceBin(Some(d)) == Some(BinLabels[i]) && DistanceBin(Some(d)) == Some(BinLabels[j]) ==> i == j
  {
    var b := DistanceBin(Some(d)).value;
    assert b in BinLabels;
  }

  /** A missing or negative distance gets no bin. */
  lemma NoBin(d: Option<real>)
    ensures DistanceBin(d).None? <==> d.None? || d.value < 0.0
  {
  }

  /** The columns the script groups by. */
  datatype Column = AmbulanceAvailability | RegionType | EmergencyLevel | NumberOfInjuries
                  | Year | RoadType | DistanceBinColumn

  /** A group key value: a label or a whole number. */
  datatype Cell = Text(s: string) | Whole(n: int)

  /** The averaged columns. */
  datatype Measure = ResponseTime | ComplexResponseTime

  function ColumnName(c: Column): string
  {
    match c
    case AmbulanceAvailability => "Ambulance_Availability"
    case RegionType => "Region_Type"
    case EmergencyLevel => "Emergency_Level"
    case NumberOfInjuries => "Number_of_Injuries"
    case Year => "Year"
    case RoadType => "Road_Type"
    case DistanceBinColumn => "Distance_Bin"
  }

  function TextCell(v: Option<string>): Option<Cell>
  {
    match v
    case None => None
    case Some(s) => Some(Text(s))
  }

  function WholeCell(v: Option<int>): Option<Cell>
  {
    match v
    case None => None
    case Some(n) => Some(Whole(n))
  }

  function KeyCell(r: Record, c: Column): Option<Cell>
  {
    match c
    case AmbulanceAvailability => TextCell(r.ambulanceAvailability)
    case RegionType => TextCell(r.regionType)
    case EmergencyLevel => TextCell(r.emergencyLevel)
    case NumberOfInjuries => WholeCell(r.numberOfInjuries)
    case Year => WholeCell(r.year)
    case RoadType => TextCell(r.roadType)
    case DistanceBinColumn => TextCell(r.distanceBin)
  }

  function MeasureOf(r: Record, m: Measure): Option<real>
  {
    match m
    case ResponseTime => r.responseTime
    case ComplexResponseTime => r.complexResponseTime
  }

  /** A row's key tuple, missing when any of its key columns is missing. */
  function KeyTuple(r: Record, cols: seq<Column>): (t: Option<seq<Cell>>)
    ensures t.Some? <==> forall i :: 0 <= i < |cols| ==> KeyCell(r, cols[i]).Some?
    ensures t.Some? ==> |t.value| == |cols| && forall i :: 0 <= i < |cols| ==> t.value[i] == KeyCell(r, cols[i]).value
  {
    if cols == [] then Some([])
    else
      var rest := KeyTuple(r, cols[1..]);
      match KeyCell(r, cols[0])
      case None => None
      case Some(c) =>
        if rest.None? then None
        else
          assert forall i :: 1 <= i < |cols| ==> cols[1..][i - 1] == cols[i];
          Some([c] + rest.value)
  }

  /** A grouping: its key columns in order and the column it averages. */
  datatype GroupSpec = GroupSpec(keys: seq<Column>, measure: Measure)

  const AmbulanceSpec := GroupSpec([AmbulanceAvailability, RegionType, EmergencyLevel, Year], ComplexResponseTime)
  const InjurySpec := GroupSpec([RegionType, EmergencyLevel, NumberOfInjuries, Year], ResponseTime)
  const HeatmapSpec := GroupSpec([RoadType, DistanceBinColumn, RegionType, EmergencyLevel, Year], ComplexResponseTime)

  /** The output columns: the key columns in groupby order, then the renamed mean. */
  function Columns(spec: GroupSpec): seq<string>
  {
    Map(spec.keys, ColumnName) + ["Avg_Response_Time"]
  }

  /** The three outputs' fixed column orders and averaged columns. */
  lemma OutputColumns()
    ensures Columns(AmbulanceSpec) == ["Ambulance_Availability", "Region_Type", "Emergency_Level", "Year", "Avg_Response_Time"]
    ensures Columns(InjurySpec) == ["Region_Type", "Emergency_Level", "Number_of_Injuries", "Year", "Avg_Response_Time"]
    ensures Columns(HeatmapSpec) == ["Road_Type", "Distance_Bin", "Region_Type", "Emergency_Level", "Year", "Avg_Response_Time"]
    ensures AmbulanceSpec.measure == ComplexResponseTime && HeatmapSpec.measure == ComplexResponseTime
    ensures InjurySpec.measure == ResponseTime
  {
  }

  /** The key tuple of a row that has one. */
  function KeyOf(cols: seq<Column>): Record -> seq<Cell>
  {
    (r: Record) => KeyTuple(r, cols).GetOr([])
  }

  /** The rows `groupby` keeps: those with every key column present. */
  function Keyed(rows: seq<Record>, cols: seq<Column>): (kept: seq<Record>)
    ensures forall r :: r in kept <==> r in rows && KeyTuple(r, cols).Some?
  {
    Filter(rows, (r: Record) => KeyTuple(r, cols).Some?)
  }

  /** The mean of the measured column over a group. */
  function Average(m: Measure): seq<Record> -> Option<real>
  {
    (g: seq<Record>) => Mean(Map(g, (r: Record) => MeasureOf(r, m)))
  }

  /** `df.groupby(keys)[measure].mean().reset_index()`, one entry per key tuple present. */
  function GroupBy(rows: seq<Record>, spec: GroupSpec): seq<(seq<Cell>, Option<real>)>
  {
    Rollups(Keyed(rows, spec.keys), KeyOf(spec.keys), Average(spec.measure))
  }

  /** The rows of one key tuple, in input order. */
  function Group(rows: seq<Record>, spec: GroupSpec, k: seq<Cell>): (g: seq<Record>)
    ensures forall r :: r in g <==> r in rows && KeyTuple(r, spec.keys) == Some(k)
  {
    Where(Keyed(rows, spec.keys), KeyOf(spec.keys), k)
  }

  /**
   * A grouping has exactly one entry per key tuple that occurs in the rows; each
   * entry's group is non-empty and its average is the mean of the measured column
   * over that group (missing when no row of it has a value).
   */
  lemma GroupByShape(rows: seq<Record>, spec: GroupSpec)
    ensures NoDup(Firsts(GroupBy(rows, spec)))
    ensures forall k :: k in Firsts(GroupBy(rows, spec)) <==> exists r :: r in rows && KeyTuple(r, spec.keys) == Some(k)
    ensures forall e :: e in GroupBy(rows, spec) ==>
              |Group(rows, spec, e.0)| > 0 && e.1 == Average(spec.measure)(Group(rows, spec, e.0))
  {
    var kept := Keyed(rows, spec.keys);
    var grouped := GroupBy(rows, spec);
    RollupsShape(kept, KeyOf(spec.keys), Average(spec.measure));
    forall k | k in Firsts(grouped)
      ensures exists r :: r in rows && KeyTuple(r, spec.keys) == Some(k)
    {
      var r :| r in kept && KeyOf(spec.keys)(r) == k;
    }
    forall k | exists r :: r in rows && KeyTuple(r, spec.keys) == Some(k)
      ensures k in Firsts(grouped)
    {
      var r :| r in rows && KeyTuple(r, spec.keys) == Some(k);
      assert r in kept && KeyOf(spec.keys)(r) == k;
    }
    forall e | e in grouped
      ensures |Group(rows, spec, e.0)| > 0 && e.1 == Average(spec.measure)(Group(rows, spec, e.0))
    {
      var i :| 0 <= i < |grouped| && grouped[i] == e;
    }
  }

  /** The ambulance output (grouped before `Distance_Bin` exists). */
  function AmbulanceGrouped(rows: seq<Record>): seq<(seq<Cell>, Option<real>)>
  {
    GroupBy(rows, AmbulanceSpec)
  }

  /** The injuries output. */
  function InjuryGrouped(rows: seq<Record>): seq<(seq<Cell>, Option<real>)>
  {
    GroupBy(rows, InjurySpec)
  }

  /**
   * The heatmap output, after `.dropna()` removes the entries whose mean is missing
   * (which also removes the unobserved bin combinations the categorical grouping
   * lists).
   */
  function HeatmapGrouped(rows: seq<Record>): seq<(seq<Cell>, Option<real>)>
  {
    Filter(GroupBy(rows, HeatmapSpec), (e: (seq<Cell>, Option<real>)) => e.1.Some?)
  }

  /** Every heatmap entry has an average, and the entries' key tuples stay distinct. */
  lemma HeatmapDistinct(rows: seq<Record>)
    ensures NoDup(Firsts(HeatmapGrouped(rows)))
    ensures forall e :: e in HeatmapGrouped(rows) ==> e.1.Some? && e in GroupBy(rows, HeatmapSpec)
  {
    var grouped := GroupBy(rows, HeatmapSpec);
    GroupByShape(rows, HeatmapSpec);
    FilterIsSubsequence(grouped, (e: (seq<Cell>, Option<real>)) => e.1.Some?);
    SubsequenceKeepsDistinctKeys(HeatmapGrouped(rows), grouped);
  }

  /** A heatmap key tuple has a row with a measured response time. */
  lemma HeatmapKeysMeasured(rows: seq<Record>, k: seq<Cell>)
    requires k in Firsts(HeatmapGrouped(rows))
    ensures exists r :: r in rows && KeyTuple(r, HeatmapSpec.keys) == Some(k) && r.complexResponseTime.Some?
  {
    var heat := HeatmapGrouped(rows);
    HeatmapDistinct(rows);
    GroupByShape(rows, HeatmapSpec);
    var i :| 0 <= i < |heat| && heat[i].0 == k;
    var e := heat[i];
    assert e in heat;
    assert e.1.Some? && e in GroupBy(rows, HeatmapSpec);
    var g := Group(rows, HeatmapSpec, k);
    assert Average(ComplexResponseTime)(g).Some?;
    AveragedGroupHasMeasure(g);
  }

  /** A group with an average has a row with a measured response time. */
  lemma AveragedGroupHasMeasure(g: seq<Record>)
    requires Average(ComplexResponseTime)(g).Some?
    ensures exists r :: r in g && r.complexResponseTime.Some?
  {
    var vs := Map(g, (x: Record) => MeasureOf(x, ComplexResponseTime));
    MeanDefined(vs);
    var j :| 0 <= j < |vs| && vs[j].Some?;
    assert g[j] in g;
  }

  /** A group with a measured response time has an average. */
  lemma MeasuredGroupHasAverage(g: seq<Record>, r: Record)
    requires r in g && r.complexResponseTime.Some?
    ensures Average(ComplexResponseTime)(g).Some?
  {
    var vs := Map(g, (x: Record) => MeasureOf(x, ComplexResponseTime));
    var j :| 0 <= j < |g| && g[j] == r;
    assert vs[j].Some?;
    MeanDefined(vs);
  }

  lemma KeyInFirsts<K, V>(s: seq<(K, V)>, e: (K, V))
    requires e in s
    ensures e.0 in Firsts(s)
  {
    var n :| 0 <= n < |s| && s[n] == e;
    assert Firsts(s)[n] == e.0;
  }

  /** A key tuple with a measured response time reaches the heatmap. */
  lemma MeasuredKeysInHeatmap(rows: seq<Record>, r: Record)
    requires r in rows && KeyTuple(r, HeatmapSpec.keys).Some? && r.complexResponseTime.Some?
    ensures KeyTuple(r, HeatmapSpec.keys).value in Firsts(HeatmapGrouped(rows))
  {
    var k := KeyTuple(r, HeatmapSpec.keys).value;
    var grouped := GroupBy(rows, HeatmapSpec);
    GroupByShape(rows, HeatmapSpec);
    assert k in Firsts(grouped);
    var i :| 0 <= i < |grouped| && grouped[i].0 == k;
    var e := grouped[i];
    assert e in grouped;
    assert r in Group(rows, HeatmapSpec, k);
    MeasuredGroupHasAverage(Group(rows, HeatmapSpec, k), r);
    assert e in HeatmapGrouped(rows);
    KeyInFirsts(HeatmapGrouped(rows), e);
  }

  /**
   * The heatmap has one entry per key tuple that occurs in the rows and has at
   * least one measured response time, and every entry has an average.
   */
  lemma HeatmapShape(rows: seq<Record>)
    ensures NoDup(Firsts(HeatmapGrouped(rows)))
    ensures forall e :: e in HeatmapGrouped(rows) ==> e.1.Some?
    ensures forall k :: k in Firsts(HeatmapGrouped(rows)) <==>
              exists r :: r in rows && KeyTuple(r, HeatmapSpec.keys) == Some(k) && r.complexResponseTime.Some?
  {
    HeatmapDistinct(rows);
    forall k | k in Firsts(HeatmapGrouped(rows))
      ensures exists r :: r in rows && KeyTuple(r, HeatmapSpec.keys) == Some(k) && r.complexResponseTime.Some?
    {
      HeatmapKeysMeasured(rows, k);
    }
    forall k | exists r :: r in rows && KeyTuple(r, HeatmapSpec.keys) == Some(k) && r.complexResponseTime.Some?
      ensures k in Firsts(HeatmapGrouped(rows))
    {
      var r :| r in rows && KeyTuple(r, HeatmapSpec.keys) == Some(k) && r.complexResponseTime.Some?;
      MeasuredKeysInHeatmap(rows, r);
    }
  }

  /** Keeping some entries of a rollup, in order, keeps its keys distinct. */
  lemma {:induction false} SubsequenceKeepsDistinctKeys<K, V>(r: seq<(K, V)>, s: seq<(K, V)>)
    requires Subsequence(r, s) && NoDup(Firsts(s))
    ensures NoDup(Firsts(r))
    ensures forall e :: e in r ==> e in s
    decreases |s|
  {
    if r != [] {
      assert Firsts(Init(s)) == Init(Firsts(s));
      if Last(r) == Last(s) {
        SubsequenceKeepsDistinctKeys(Init(r), Init(s));
        assert r == Init(r) + [Last(r)];
        forall i | 0 <= i < |r| - 1
          ensures r[i].0 != Last(r).0
        {
          assert r[i] in Init(r);
          var j :| 0 <= j < |Init(s)| && Init(s)[j] == r[i];
          assert Firsts(s)[j] != Firsts(s)[|s| - 1];
        }
        assert Firsts(r) == Firsts(Init(r)) + [Last(r).0];
      } else {
        SubsequenceKeepsDistinctKeys(r, Init(s));
      }
    }
  }

  /** Rows without a bin change nothing in the heatmap. */
  lemma HeatmapIgnoresUnbinned(rows: seq<Record>)
    ensures HeatmapGrouped(rows) == HeatmapGrouped(Filter(rows, (r: Record) => r.distanceBin.Some?))
  {
    var binned := (r: Record) => r.distanceBin.Some?;
    var keyed := (r: Record) => KeyTuple(r, HeatmapSpec.keys).Some?;
    forall r | keyed(r)
      ensures binned(r)
    {
      assert KeyCell(r, HeatmapSpec.keys[1]).Some?;
    }
    FilterFilter(rows, binned, keyed);
  }

  /** The data frame the script mutates by adding columns. */
  class Frame {
    var rows: seq<Record>

    constructor (loaded: seq<Record>)
      ensures rows == loaded
    {
      rows := loaded;
    }

    /** `df["Year"] = df["Timestamp"].dt.year`. */
    method AddYear()
      modifies this
      ensures |rows| == |old(rows)|
      ensures forall i :: 0 <= i < |rows| ==> rows[i] == old(rows)[i].(year := YearOf(old(rows)[i].timestamp))
    {
      rows := Map(rows, (r: Record) => r.(year := YearOf(r.timestamp)));
    }

    /** `df["Distance_Bin"] = pd.cut(df["Distance_to_Incident"], …)`. */
    method AddDistanceBin()
      modifies this
      ensures |rows| == |old(rows)|
      ensures forall i :: 0 <= i < |rows| ==>
                rows[i] == old(rows)[i].(distanceBin := DistanceBin(old(rows)[i].distanceToIncident))
    {
      rows := Map(rows, (r: Record) => r.(distanceBin := DistanceBin(r.distanceToIncident)));
    }
  }

  /** The loaded rows with `Year` added. */
  function WithYears(loaded: seq<Record>): seq<Record>
  {
    Map(loaded, (r: Record) => r.(year := YearOf(r.timestamp)))
  }

  /** The loaded rows with `Year` and `Distance_Bin` added. */
  function WithBins(loaded: seq<Record>): seq<Record>
  {
    Map(WithYears(loaded), (r: Record) => r.(distanceBin := DistanceBin(r.distanceToIncident)))
  }

  /** A row binned from a missing or negative distance has no bin, so by `HeatmapIgnoresUnbinned` adds nothing. */
  lemma UnbinnableRowsHaveNoBin(loaded: seq<Record>, i: int)
    requires 0 <= i < |loaded|
    requires loaded[i].distanceToIncident.None? || loaded[i].distanceToIncident.value < 0.0
    ensures WithBins(loaded)[i].distanceBin.None?
  {
    NoBin(loaded[i].distanceToIncident);
  }

  /** The script's three grouping steps in order, with the two column additions. */
  method Run(loaded: seq<Record>)
    returns (ambulance: seq<(seq<Cell>, Option<real>)>, injuries: seq<(seq<Cell>, Option<real>)>,
             heatmap: seq<(seq<Cell>, Option<real>)>)
    ensures ambulance == AmbulanceGrouped(WithYears(loaded))
    ensures injuries == InjuryGrouped(WithYears(loaded))
    ensures heatmap == HeatmapGrouped(WithBins(loaded))
  {
    var df := new Frame(loaded);
    df.AddYear();
    assert df.rows == WithYears(loaded);
    ambulance := AmbulanceGrouped(df.rows);
    injuries := InjuryGrouped(df.rows);
    df.AddDistanceBin();
    assert df.rows == WithBins(loaded);
    heatmap := HeatmapGrouped(df.rows);
  }
}
