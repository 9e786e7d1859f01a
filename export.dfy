/**
 * `exportFiltered`, shared by both dashboards: the downloaded rows are the loaded
 * rows the chart's predicate keeps, written either as JSON or through a
 * hand-rolled CSV serialiser that takes its header from the first kept row and
 * quotes nothing.
 */
module Export {
  import opened Wrappers
  import opened Seqs
  import opened Text
  import opened MonthKey
  import opened Aggregate

  /** A loaded JSON scalar. A number keeps the text `String(n)` gives it. */
  datatype Value = Str(s: string) | Num(text: string) | Bool(b: bool) | Null

  /** A JSON object: its fields in `Object.keys` order. */
  type Obj = seq<(string, Value)>

  /** `row[k]`: the value of the field named `k`, absent when the object has none. */
  function Field(row: Obj, k: string): Option<Value>
  {
    Get(row, k)
  }

  /** How `Array.prototype.join` writes one element: absent and `null` as nothing. */
  function Cell(v: Option<Value>): string
  {
    match v
    case None => ""
    case Some(Null) => ""
    case Some(Str(s)) => s
    case Some(Num(t)) => t
    case Some(Bool(b)) => if b then "true" else "false"
  }

  /** `Object.keys(filtered[0] || {})`. */
  function Keys(filtered: seq<Obj>): seq<string>
  {
    if filtered == [] then [] else Firsts(filtered[0])
  }

  /** `keys.map(k => row[k])`, as text. */
  function Cells(row: Obj, keys: seq<string>): seq<string>
  {
    Map(keys, (k: string) => Cell(Field(row, k)))
  }

  /** `keys.map(k => row[k]).join(",")`. */
  function Line(row: Obj, keys: seq<string>): string
  {
    Join(Cells(row, keys), ',')
  }

  /** The header line and then one line per row, in row order. */
  function Lines(filtered: seq<Obj>): seq<string>
  {
    var keys := Keys(filtered);
    [Join(keys, ',')] + Map(filtered, (row: Obj) => Line(row, keys))
  }

  /** The CSV text: all lines joined with newlines. */
  function Csv(filtered: seq<Obj>): string
  {
    Join(Lines(filtered), '\n')
  }

  /** Nothing to export gives the empty text. */
  lemma CsvOfNothing()
    ensures Csv([]) == ""
  {
    assert Lines([]) == [""];
  }

  /** No header name and no written value contains `d`. */
  predicate Avoids(filtered: seq<Obj>, d: char)
  {
    (forall k :: k in Keys(filtered) ==> d !in k)
    && forall row, k :: row in filtered && k in Keys(filtered) ==> d !in Cell(Field(row, k))
  }

  /** A line avoids any character other than the comma that its header names and values avoid. */
  lemma LineAvoids(filtered: seq<Obj>, row: Obj, d: char)
    requires d != ',' && Avoids(filtered, d) && row in filtered
    ensures d !in Line(row, Keys(filtered))
  {
    var keys := Keys(filtered);
    forall i | 0 <= i < |keys|
      ensures d !in Cells(row, keys)[i]
    {
      assert keys[i] in keys;
    }
    JoinAvoids(Cells(row, keys), ',', d);
  }

  /**
   * When no header name or value holds a newline, the text splits back into the
   * header and one line per row, so it has one line more than there are rows.
   */
  lemma CsvLines(filtered: seq<Obj>)
    requires Avoids(filtered, '\n')
    ensures Split(Csv(filtered), '\n') == Lines(filtered)
    ensures |Split(Csv(filtered), '\n')| == |filtered| + 1
  {
    var keys := Keys(filtered);
    var lines := Lines(filtered);
    forall i | 0 <= i < |keys|
      ensures '\n' !in keys[i]
    {
      assert keys[i] in keys;
    }
    JoinAvoids(keys, ',', '\n');
    forall i | 0 <= i < |lines|
      ensures '\n' !in lines[i]
    {
      if i > 0 {
        assert lines[i] == Line(filtered[i - 1], keys);
        LineAvoids(filtered, filtered[i - 1], '\n');
      }
    }
    SplitJoin(lines, '\n');
  }

  /** With no comma in the header names, the header splits back into the first row's keys. */
  lemma HeaderFields(filtered: seq<Obj>)
    requires Keys(filtered) != []
    requires forall k :: k in Keys(filtered) ==> ',' !in k
    ensures Split(Lines(filtered)[0], ',') == Keys(filtered)
  {
    var keys := Keys(filtered);
    forall i | 0 <= i < |keys|
      ensures ',' !in keys[i]
    {
      assert keys[i] in keys;
    }
    SplitJoin(keys, ',');
  }

  /**
   * With no comma in its values, a row's line splits back into its values in header
   * order; a header column the row lacks becomes an empty field.
   */
  lemma LineFields(row: Obj, keys: seq<string>)
    requires keys != []
    requires forall k :: k in keys ==> ',' !in Cell(Field(row, k))
    ensures Split(Line(row, keys), ',') == Cells(row, keys)
    ensures forall i :: 0 <= i < |keys| ==>
              Split(Line(row, keys), ',')[i] == (if keys[i] in Firsts(row) then Cell(Field(row, keys[i])) else "")
  {
    var cells := Cells(row, keys);
    forall i | 0 <= i < |cells|
      ensures ',' !in cells[i]
    {
      assert keys[i] in keys;
    }
    SplitJoin(cells, ',');
  }

  /** A row with exactly the header's fields is written value by value, in its own field order. */
  lemma LineOfRowWithHeaderKeys(row: Obj, keys: seq<string>)
    requires keys != [] && Firsts(row) == keys && NoDup(keys)
    requires forall i :: 0 <= i < |row| ==> ',' !in Cell(Some(row[i].1))
    ensures Split(Line(row, keys), ',') == Map(row, (f: (string, Value)) => Cell(Some(f.1)))
  {
    forall i | 0 <= i < |keys|
      ensures Cells(row, keys)[i] == Cell(Some(row[i].1))
    {
      GetDistinct(row, i);
    }
    forall k | k in keys
      ensures ',' !in Cell(Field(row, k))
    {
      var i :| 0 <= i < |keys| && keys[i] == k;
      GetDistinct(row, i);
    }
    LineFields(row, keys);
  }

  /** Values are not quoted: a comma inside a value splits it across two fields. */
  lemma CommaInValueIsNotQuoted(k: string, a: string, b: string)
    requires ',' !in a && ',' !in b
    ensures Split(Line([(k, Str(a + [','] + b))], [k]), ',') == [a, b]
  {
    var row: Obj := [(k, Str(a + [','] + b))];
    assert Field(row, k) == Some(Str(a + [','] + b));
    assert Cells(row, [k]) == [a + [','] + b];
    SplitOfPieceThen(a, b, ',');
    SplitOfPiece(b, ',');
  }

  /**
   * A chart's export predicate: the region and the chart's category field are among
   * the selected strings, and `MonthYear` is a string in `[start, end]`.
   */
  datatype Query = Query(regions: seq<string>, categoryField: string, categories: seq<string>,
                         start: string, end: string)

  /** `selected.includes(v)` for a list of strings: only a string can match. */
  predicate Includes(selected: seq<string>, v: Option<Value>)
  {
    v.Some? && v.value.Str? && v.value.s in selected
  }

  /**
   * `v >= start && v <= end`: a string compares character by character; an absent value, a
   * number, a boolean or `null` against a month key compares false.
   */
  predicate Between(v: Option<Value>, start: string, end: string)
  {
    v.Some? && v.value.Str? && InRange(v.value.s, start, end)
  }

  predicate Keeps(q: Query, row: Obj)
  {
    Includes(q.regions, Field(row, "Region_Type"))
    && Includes(q.categories, Field(row, q.categoryField))
    && Between(Field(row, "MonthYear"), q.start, q.end)
  }

  /** `data.filter(filterFn)`: the kept rows, in their order. */
  function Matching(data: seq<Obj>, q: Query): (f: seq<Obj>)
    ensures forall row :: row in f <==> row in data && Keeps(q, row)
    ensures Subsequence(f, data)
  {
    FilterIsSubsequence(data, (row: Obj) => Keeps(q, row));
    Filter(data, (row: Obj) => Keeps(q, row))
  }

  /** Rows with no `MonthYear` field are never exported, whatever is selected. */
  lemma NoMonthNoExport(data: seq<Obj>, q: Query)
    requires forall row :: row in data ==> Field(row, "MonthYear").None?
    ensures Matching(data, q) == []
  {
    FilterNone(data, (row: Obj) => Keeps(q, row));
  }

  /** The arguments a downloader passes to `exportFiltered`. */
  datatype Request = Request(filePath: string, query: Query, fileName: string, format: string)

  datatype Payload = JsonRows(rows: seq<Obj>) | CsvText(text: string)

  /** What `saveAs` receives. */
  datatype Download = Download(name: string, payload: Payload)

  /** `exportFiltered(filePath, filterFn, fileName, format)` given the rows loaded from `filePath`. */
  function ExportFiltered(data: seq<Obj>, req: Request): (d: Download)
    ensures d.payload.JsonRows? <==> req.format == "json"
    ensures d.name == req.fileName + (if req.format == "json" then ".json" else ".csv")
    ensures d.payload.JsonRows? ==> d.payload.rows == Matching(data, req.query)
    ensures d.payload.JsonRows? ==> forall row :: row in d.payload.rows <==> row in data && Keeps(req.query, row)
    ensures d.payload.CsvText? ==> d.payload.text == Csv(Matching(data, req.query))
    ensures d.payload.CsvText? ==>
              (Matching(data, req.query) == [] ==> d.payload.text == "")
              && (Avoids(Matching(data, req.query), '\n') ==>
                    |Split(d.payload.text, '\n')| == |Matching(data, req.query)| + 1)
  {
    var filtered := Matching(data, req.query);
    if req.format == "json" then
      Download(req.fileName + ".json", JsonRows(filtered))
    else
      CsvOfNothing();
      if Avoids(filtered, '\n') then CsvLines(filtered); Download(req.fileName + ".csv", CsvText(Csv(filtered)))
      else Download(req.fileName + ".csv", CsvText(Csv(filtered)))
  }
}
