/**
 * The response heatmap: rows filtered by region, emergency level and a `"YYYY-MM"`
 * window, averaged per (Road_Type, Distance_Bin), with the road and distance-bin
 * axes listing each value of the grouped cells once.
 */
module ResponseHeatmap {
  import opened Wrappers
  import opened Seqs
  import opened Text
  import opened MonthKey
  import opened Rows
  import opened Aggregate

  const DefaultRegions: seq<string> := ["Urban", "Suburban", "Rural"]
  const DefaultLevels: seq<string> := ["Minor", "Major", "Critical"]
  const DefaultTimeRange: (string, string) := ("2018-01", "2024-12")

  /** `{ Road_Type, Distance_Bin, Avg_Response_Time }`. */
  type Cell = (Option<string>, Option<string>, Option<real>)

  function CellRoad(c: Cell): Option<string> { c.0 }
  function CellBin(c: Cell): Option<string> { c.1 }

  /** The rows the chart keeps, in their order. */
  function Filtered(data: seq<Row>, regions: seq<string>, levels: seq<string>, timeRange: (string, string)): (f: seq<Row>)
    ensures forall r :: r in f <==> r in data && Selected(r.regionType, regions) && Selected(r.emergencyLevel, levels)
                                     && InWindow(r.monthYear, timeRange.0, timeRange.1)
    ensures Subsequence(f, data)
  {
    WindowFilter(data, regions, LevelOf, levels, timeRange.0, timeRange.1)
  }

  /** With the default window, a well-formed key is kept iff its year is 2018 to 2024. */
  lemma DefaultWindow(y: string, i: int)
    requires IsYear(y) && 0 <= i < 12
    ensures InWindow(Some(Key(y, i)), DefaultTimeRange.0, DefaultTimeRange.1) <==> 2018 <= DigitsValue(y) <= 2024
  {
    Window2018To2024(y, i);
  }

  /**
   * `d3.rollups(filtered, v => d3.mean(v, d => d.Avg_Response_Time), d => d.Road_Type,
   * d => d.Distance_Bin).flatMap(...)`.
   */
  function Grouped(filtered: seq<Row>): seq<Cell>
  {
    Flatten(Rollups2(filtered, RoadOf, BinOf, MeanResponse))
  }

  /** No two cells share their (Road_Type, Distance_Bin) pair. */
  lemma GroupedDistinct(filtered: seq<Row>)
    ensures NoDup(PairKeys(Grouped(filtered)))
  {
    InnerKeysDistinct(filtered, RoadOf, BinOf, MeanResponse);
  }

  /** Every cell comes from a pair of the kept rows and holds those rows' mean response time. */
  lemma GroupedCells(filtered: seq<Row>)
    ensures forall c :: c in Grouped(filtered) ==>
              (exists r :: r in filtered && r.roadType == c.0 && r.distanceBin == c.1)
              && c.2 == MeanResponse(Where(Where(filtered, RoadOf, c.0), BinOf, c.1))
  {
    forall c | c in Grouped(filtered)
      ensures (exists r :: r in filtered && r.roadType == c.0 && r.distanceBin == c.1)
      ensures c.2 == MeanResponse(Where(Where(filtered, RoadOf, c.0), BinOf, c.1))
    {
      FlattenedEntryOccurs(filtered, RoadOf, BinOf, MeanResponse, c);
      var r :| r in filtered && RoadOf(r) == c.0 && BinOf(r) == c.1;
    }
  }

  /** Every (Road_Type, Distance_Bin) pair of the kept rows has a cell. */
  lemma GroupedCovers(filtered: seq<Row>)
    ensures forall r :: r in filtered ==>
              exists c :: c in Grouped(filtered) && c.0 == r.roadType && c.1 == r.distanceBin
  {
    forall r | r in filtered
      ensures exists c :: c in Grouped(filtered) && c.0 == r.roadType && c.1 == r.distanceBin
    {
      OccurringPairIsFlattened(filtered, RoadOf, BinOf, MeanResponse, r);
    }
  }

  /** `Array.from(new Set(grouped.map(d => d.Road_Type)))`. */
  function RoadTypes(grouped: seq<Cell>): (ds: seq<Option<string>>)
    ensures NoDup(ds)
    ensures forall v :: v in ds <==> exists c :: c in grouped && c.0 == v
  {
    var all := Map(grouped, CellRoad);
    assert forall v :: v in all <==> exists c :: c in grouped && c.0 == v by {
      forall v | v in all ensures exists c :: c in grouped && c.0 == v {
        var i :| 0 <= i < |all| && all[i] == v;
        assert grouped[i] in grouped;
      }
      forall v | exists c :: c in grouped && c.0 == v ensures v in all {
        var c :| c in grouped && c.0 == v;
        var i :| 0 <= i < |grouped| && grouped[i] == c;
        assert all[i] == v;
      }
    }
    Distinct(all)
  }

  /** `Array.from(new Set(grouped.map(d => d.Distance_Bin)))`. */
  function DistanceBins(grouped: seq<Cell>): (ds: seq<Option<string>>)
    ensures NoDup(ds)
    ensures forall v :: v in ds <==> exists c :: c in grouped && c.1 == v
  {
    var all := Map(grouped, CellBin);
    assert forall v :: v in all <==> exists c :: c in grouped && c.1 == v by {
      forall v | v in all ensures exists c :: c in grouped && c.1 == v {
        var i :| 0 <= i < |all| && all[i] == v;
        assert grouped[i] in grouped;
      }
      forall v | exists c :: c in grouped && c.1 == v ensures v in all {
        var c :| c in grouped && c.1 == v;
        var i :| 0 <= i < |grouped| && grouped[i] == c;
        assert all[i] == v;
      }
    }
    Distinct(all)
  }

  /** The axes list exactly the road types and distance bins of the kept rows. */
  lemma AxesOfKeptRows(filtered: seq<Row>)
    ensures forall v :: v in RoadTypes(Grouped(filtered)) <==> exists r :: r in filtered && r.roadType == v
    ensures forall v :: v in DistanceBins(Grouped(filtered)) <==> exists r :: r in filtered && r.distanceBin == v
  {
    GroupedCells(filtered);
    GroupedCovers(filtered);
  }
}
