/**
 * The weather heatmap: rows filtered by region, one traffic-congestion value and a
 * month window; mean response time per (Weather_Condition, Road_Type) held as a map
 * of maps; and a grid loop over every weather key and every road type that draws a
 * cell only where the nested lookup gives a value.
 */
module WeatherHeatmap {
  import opened Wrappers
  import opened Seqs
  import opened MonthKey
  import opened Rows
  import opened Aggregate

  /** One drawn cell: weather, road and its mean. */
  type GridCell = (Option<string>, Option<string>, real)

  /** The rows the chart keeps, in their order. */
  function Filtered(data: seq<Row>, regions: seq<string>, traffic: string, startMonth: string, endMonth: string): (f: seq<Row>)
    ensures forall r :: r in f <==> r in data && Selected(r.regionType, regions) && r.trafficCongestion == Some(traffic)
                                     && InWindow(r.monthYear, ConvertToMonthYear(startMonth), ConvertToMonthYear(endMonth))
    ensures Subsequence(f, data)
  {
    var start := ConvertToMonthYear(startMonth);
    var end := ConvertToMonthYear(endMonth);
    var keep := (r: Row) => Selected(r.regionType, regions) && r.trafficCongestion == Some(traffic) && InWindow(r.monthYear, start, end);
    FilterIsSubsequence(data, keep);
    Filter(data, keep)
  }

  /**
   * `d3.rollup(filtered, v => d3.mean(v, d => d.Avg_Response_Time), d => d.Weather_Condition,
   * d => d.Road_Type)`: a `Map` iterates its keys in insertion order, as a rollup does.
   */
  function Grouped(filtered: seq<Row>): seq<(Option<string>, seq<(Option<string>, Option<real>)>)>
  {
    Rollups2(filtered, WeatherOf, RoadOf, MeanResponse)
  }

  /** `Array.from(new Set(filtered.map(d => d.Road_Type)))`. */
  function RoadTypes(filtered: seq<Row>): (ds: seq<Option<string>>)
    ensures NoDup(ds)
    ensures forall v :: v in ds <==> exists r :: r in filtered && r.roadType == v
  {
    KeysOf(filtered, RoadOf)
  }

  /** `grouped.get(w)?.get(r)`: `None` stands for `undefined`, absent or an undefined mean. */
  function CellValue(grouped: seq<(Option<string>, seq<(Option<string>, Option<real>)>)>, w: Option<string>, r: Option<string>): Option<real>
  {
    match Get(grouped, w)
    case None => None
    case Some(inner) => match Get(inner, r) case None => None case Some(v) => v
  }

  /** The cells the inner loop draws for weather `w` over the first `|roads|` road types. */
  function RowCells(grouped: seq<(Option<string>, seq<(Option<string>, Option<real>)>)>, w: Option<string>, roads: seq<Option<string>>): seq<GridCell>
  {
    if roads == [] then []
    else RowCells(grouped, w, Init(roads))
         + (match CellValue(grouped, w, Last(roads)) case Some(v) => [(w, Last(roads), v)] case None => [])
  }

  /** The cells the nested loops draw, weather by weather. */
  function GridCells(grouped: seq<(Option<string>, seq<(Option<string>, Option<real>)>)>, weathers: seq<Option<string>>, roads: seq<Option<string>>): seq<GridCell>
  {
    if weathers == [] then [] else GridCells(grouped, Init(weathers), roads) + RowCells(grouped, Last(weathers), roads)
  }

  /** `weatherConditions.forEach(w => roadTypes.forEach(r => { if (val !== undefined) draw }))`. */
  method DrawCells(grouped: seq<(Option<string>, seq<(Option<string>, Option<real>)>)>, weathers: seq<Option<string>>, roads: seq<Option<string>>)
    returns (cells: seq<GridCell>)
    ensures cells == GridCells(grouped, weathers, roads)
  {
    cells := [];
    var i := 0;
    while i < |weathers|
      invariant 0 <= i <= |weathers|
      invariant cells == GridCells(grouped, weathers[..i], roads)
    {
      var w := weathers[i];
      var j := 0;
      while j < |roads|
        invariant 0 <= j <= |roads|
        invariant cells == GridCells(grouped, weathers[..i], roads) + RowCells(grouped, w, roads[..j])
      {
        var val := CellValue(grouped, w, roads[j]);
        assert Init(roads[..j + 1]) == roads[..j];
        if val.Some? {
          cells := cells + [(w, roads[j], val.value)];
        }
        j := j + 1;
      }
      assert roads[..j] == roads;
      assert Init(weathers[..i + 1]) == weathers[..i];
      i := i + 1;
    }
    assert weathers[..i] == weathers;
  }

  /** The drawn cells of the chart for the given filters. */
  method Render(data: seq<Row>, regions: seq<string>, traffic: string, startMonth: string, endMonth: string)
    returns (cells: seq<GridCell>)
    ensures var filtered := Filtered(data, regions, traffic, startMonth, endMonth);
      cells == GridCells(Grouped(filtered), Firsts(Grouped(filtered)), RoadTypes(filtered))
  {
    var filtered := Filtered(data, regions, traffic, startMonth, endMonth);
    var grouped := Grouped(filtered);
    cells := DrawCells(grouped, Firsts(grouped), RoadTypes(filtered));
  }

  lemma {:induction false} RowCellsMembers(grouped: seq<(Option<string>, seq<(Option<string>, Option<real>)>)>, w: Option<string>, roads: seq<Option<string>>, c: GridCell)
    ensures c in RowCells(grouped, w, roads) <==> c.0 == w && c.1 in roads && CellValue(grouped, w, c.1) == Some(c.2)
  {
    if roads != [] {
      RowCellsMembers(grouped, w, Init(roads), c);
      assert roads == Init(roads) + [Last(roads)];
    }
  }

  /** A cell is drawn iff its weather and road are on the axes and the lookup gives a value. */
  lemma {:induction false} GridCellsMembers(grouped: seq<(Option<string>, seq<(Option<string>, Option<real>)>)>, weathers: seq<Option<string>>, roads: seq<Option<string>>, c: GridCell)
    ensures c in GridCells(grouped, weathers, roads) <==> c.0 in weathers && c.1 in roads && CellValue(grouped, c.0, c.1) == Some(c.2)
  {
    if weathers != [] {
      GridCellsMembers(grouped, Init(weathers), roads, c);
      RowCellsMembers(grouped, Last(weathers), roads, c);
      assert weathers == Init(weathers) + [Last(weathers)];
    }
  }

  /** The outer lookup finds the rollup of the rows with that weather, if any has it. */
  lemma OuterLookup(filtered: seq<Row>, w: Option<string>)
    ensures Get(Grouped(filtered), w).Some? <==> w in KeysOf(filtered, WeatherOf)
    ensures Get(Grouped(filtered), w).Some? ==>
              Get(Grouped(filtered), w).value == Rollups(Where(filtered, WeatherOf, w), RoadOf, MeanResponse)
  {
    var grouped := Grouped(filtered);
    if w in Firsts(grouped) {
      var i :| 0 <= i < |grouped| && Firsts(grouped)[i] == w;
      GetDistinct(grouped, i);
    }
  }

  /** The inner lookup finds the mean of the rows with that road, if any has it. */
  lemma InnerLookup(g: seq<Row>, r: Option<string>)
    ensures Get(Rollups(g, RoadOf, MeanResponse), r).Some? <==> r in KeysOf(g, RoadOf)
    ensures Get(Rollups(g, RoadOf, MeanResponse), r).Some? ==>
              Get(Rollups(g, RoadOf, MeanResponse), r).value == MeanResponse(Where(g, RoadOf, r))
  {
    var inner := Rollups(g, RoadOf, MeanResponse);
    RollupsShape(g, RoadOf, MeanResponse);
    assert Firsts(inner) == KeysOf(g, RoadOf);
    if r in Firsts(inner) {
      var j :| 0 <= j < |inner| && Firsts(inner)[j] == r;
      GetDistinct(inner, j);
    }
  }

  /**
   * The nested lookup finds the mean of the rows with that weather and road, and
   * nothing for a pair no kept row has.
   */
  lemma CellValueOfGrouped(filtered: seq<Row>, w: Option<string>, r: Option<string>)
    ensures (exists x :: x in filtered && x.weatherCondition == w && x.roadType == r) ==>
              CellValue(Grouped(filtered), w, r) == MeanResponse(Where(Where(filtered, WeatherOf, w), RoadOf, r))
    ensures (forall x :: x in filtered ==> x.weatherCondition != w || x.roadType != r) ==>
              CellValue(Grouped(filtered), w, r) == None
  {
    var g := Where(filtered, WeatherOf, w);
    OuterLookup(filtered, w);
    InnerLookup(g, r);
    if exists x :: x in filtered && x.weatherCondition == w && x.roadType == r {
      var x :| x in filtered && x.weatherCondition == w && x.roadType == r;
      assert WeatherOf(x) == w && x in g && RoadOf(x) == r;
    } else if Get(Grouped(filtered), w).Some? {
      assert forall x :: x in g ==> RoadOf(x) != r;
    }
  }

  /**
   * The chart draws a cell for (w, r) iff some kept row has weather w and road r and
   * the mean of those rows is defined; the cell holds that mean.
   */
  lemma DrawnCells(filtered: seq<Row>, c: GridCell)
    ensures c in GridCells(Grouped(filtered), Firsts(Grouped(filtered)), RoadTypes(filtered)) <==>
              (exists x :: x in filtered && x.weatherCondition == c.0 && x.roadType == c.1)
              && MeanResponse(Where(Where(filtered, WeatherOf, c.0), RoadOf, c.1)) == Some(c.2)
  {
    var grouped := Grouped(filtered);
    GridCellsMembers(grouped, Firsts(grouped), RoadTypes(filtered), c);
    CellValueOfGrouped(filtered, c.0, c.1);
    if exists x :: x in filtered && x.weatherCondition == c.0 && x.roadType == c.1 {
      var x :| x in filtered && x.weatherCondition == c.0 && x.roadType == c.1;
      assert c.0 in KeysOf(filtered, WeatherOf) by { assert WeatherOf(x) == c.0; }
      assert c.1 in RoadTypes(filtered);
    }
  }
}
