/**
 * The incident trends line chart: rows filtered by region, incident type and month
 * window, summed per (MonthYear, Incident_Type), flattened into one entry per pair,
 * drawn as one line per incident type that the legend has not hidden, against the
 * sorted distinct months with every first, second or third month labelled.
 */
module IncidentTrends {
  import opened Wrappers
  import opened Seqs
  import opened Text
  import opened MonthKey
  import opened Rows
  import opened Aggregate
  import opened Sorting
  import DashboardFile

  /** One element of `flatData`: `{ MonthYear, Incident_Type, Count }`. */
  datatype Entry = Entry(monthYear: Option<string>, incidentType: Option<string>, count: int)

  function ToEntry(t: (Option<string>, Option<string>, int)): Entry { Entry(t.0, t.1, t.2) }
  function EntryType(e: Entry): Option<string> { e.incidentType }
  function EntryCount(e: Entry): int { e.count }
  /** The sort key of a line's entries; every entry has a MonthYear. */
  function EntryMonthText(e: Entry): string { e.monthYear.GetOr("") }

  /** The rows the chart keeps, in their order. */
  function Filtered(data: seq<Row>, regions: seq<string>, incidents: seq<string>, startMonth: string, endMonth: string): (f: seq<Row>)
    ensures forall r :: r in f <==> r in data && Selected(r.regionType, regions) && Selected(r.incidentType, incidents)
                                     && InWindow(r.monthYear, ConvertToMonthYear(startMonth), ConvertToMonthYear(endMonth))
    ensures Subsequence(f, data)
  {
    WindowFilter(data, regions, TypeOf, incidents, ConvertToMonthYear(startMonth), ConvertToMonthYear(endMonth))
  }

  /** `d3.rollups(filtered, v => d3.sum(v, d => d.Count || 1), d => d.MonthYear, d => d.Incident_Type)`. */
  function Aggregated(filtered: seq<Row>): seq<(Option<string>, seq<(Option<string>, int)>)>
  {
    Rollups2(filtered, MonthOf, TypeOf, SumCountOrOne)
  }

  lemma MapSnoc<T, U>(s: seq<T>, x: T, f: T -> U)
    ensures Map(s + [x], f) == Map(s, f) + [f(x)]
  {
  }

  lemma TaggedSnoc<K1, K2, V>(k1: K1, inner: seq<(K2, V)>, j: int)
    requires 0 <= j < |inner|
    ensures Tagged(k1, inner[..j + 1]) == Tagged(k1, inner[..j]) + [(k1, inner[j].0, inner[j].1)]
  {
  }

  /** The nested `forEach` that pushes one entry per (month, type) pair of `aggregated`. */
  method FlattenAggregated(aggregated: seq<(Option<string>, seq<(Option<string>, int)>)>) returns (flatData: seq<Entry>)
    ensures flatData == Map(Flatten(aggregated), ToEntry)
  {
    flatData := [];
    var i := 0;
    while i < |aggregated|
      invariant 0 <= i <= |aggregated|
      invariant flatData == Map(Flatten(aggregated[..i]), ToEntry)
    {
      var month := aggregated[i].0;
      var byType := aggregated[i].1;
      var j := 0;
      while j < |byType|
        invariant 0 <= j <= |byType|
        invariant flatData == Map(Flatten(aggregated[..i]) + Tagged(month, byType[..j]), ToEntry)
      {
        TaggedSnoc(month, byType, j);
        MapSnoc(Flatten(aggregated[..i]) + Tagged(month, byType[..j]), (month, byType[j].0, byType[j].1), ToEntry);
        flatData := flatData + [Entry(month, byType[j].0, byType[j].1)];
        j := j + 1;
      }
      assert byType[..j] == byType;
      assert Init(aggregated[..i + 1]) == aggregated[..i];
      i := i + 1;
    }
    assert aggregated[..i] == aggregated;
  }

  /**
   * `Array.from(new Set(filtered.map(d => d.MonthYear))).sort()`. Every kept row
   * has a MonthYear, since the window test fails on an absent one.
   */
  function AllMonths(filtered: seq<Row>): seq<string>
    requires forall r :: r in filtered ==> r.monthYear.Some?
  {
    SortByText(Distinct(seq(|filtered|, i requires 0 <= i < |filtered| => filtered[i].monthYear.value)), Itself)
  }

  /** The label spacing: every month up to 6 months, every second up to 12, else every third. */
  function TickInterval(n: nat): (k: nat)
    ensures 1 <= k <= 3
    ensures k == 1 <==> n <= 6
    ensures k == 2 <==> 6 < n <= 12
  {
    if n <= 6 then 1 else if n <= 12 then 2 else 3
  }

  /** `months.slice(0, n).filter((_, i) => i % k === 0)`. */
  function TicksUpTo(months: seq<string>, n: nat, k: nat): seq<string>
    requires n <= |months| && k >= 1
  {
    if n == 0 then [] else TicksUpTo(months, n - 1, k) + (if (n - 1) % k == 0 then [months[n - 1]] else [])
  }

  /** `allMonths.filter((_, i) => i % tickInterval === 0)`. */
  function TickValues(months: seq<string>, k: nat): seq<string>
    requires k >= 1
  {
    TicksUpTo(months, |months|, k)
  }

  lemma MultipleOfInterval(a: nat, k: nat)
    requires 1 <= k <= 3
    ensures (a * k) % k == 0
  {
    if k == 1 {} else if k == 2 {} else {}
  }

  lemma QuotientOfInterval(m: nat, k: nat)
    requires 1 <= k <= 3 && m % k == 0
    ensures m == (m / k) * k
  {
    if k == 1 {} else if k == 2 {} else {}
  }

  /** Two multiples of k that lie less than k apart are equal. */
  lemma SameMultiple(q: int, a: int, k: nat)
    requires k >= 1 && (a - 1) * k < q * k <= a * k
    ensures q == a
  {
    if q < a {
      MulMonotone(q, a - 1, k);
    } else if q > a {
      MulMonotone(a + 1, q, k);
    }
  }

  lemma {:induction false} TicksUpToCount(months: seq<string>, n: nat, k: nat)
    requires 0 < n <= |months| && 1 <= k <= 3
    ensures (|TicksUpTo(months, n, k)| - 1) * k < n <= |TicksUpTo(months, n, k)| * k
  {
    var m := n - 1;
    var c := |TicksUpTo(months, m, k)|;
    if m % k == 0 {
      assert |TicksUpTo(months, n, k)| == c + 1;
      if m > 0 {
        TicksUpToCount(months, m, k);
        QuotientOfInterval(m, k);
        SameMultiple(m / k, c, k);
      }
      assert m == c * k;
      assert (c + 1) * k == c * k + k;
    } else {
      assert |TicksUpTo(months, n, k)| == c;
      TicksUpToCount(months, m, k);
      if m == c * k {
        MultipleOfInterval(c, k);
      }
    }
  }

  lemma {:induction false} TicksUpToElements(months: seq<string>, n: nat, k: nat)
    requires n <= |months| && 1 <= k <= 3
    ensures forall j :: 0 <= j < |TicksUpTo(months, n, k)| ==> j * k < n && TicksUpTo(months, n, k)[j] == months[j * k]
  {
    if n > 0 {
      var m := n - 1;
      TicksUpToElements(months, m, k);
      var t' := TicksUpTo(months, m, k);
      if m % k == 0 {
        if m > 0 {
          TicksUpToCount(months, m, k);
          QuotientOfInterval(m, k);
          SameMultiple(m / k, |t'|, k);
        }
        assert m == |t'| * k;
      }
    }
  }

  /**
   * The ticks are the months at positions 0, k, 2k, ...: the j-th tick is month
   * `j * k`, there are as many ticks as multiples of k below the month count, and the
   * first month is always a tick.
   */
  lemma TicksShape(months: seq<string>, k: nat)
    requires 1 <= k <= 3
    ensures forall j :: 0 <= j < |TickValues(months, k)| ==>
              j * k < |months| && TickValues(months, k)[j] == months[j * k]
    ensures |months| > 0 ==> (|TickValues(months, k)| - 1) * k < |months| <= |TickValues(months, k)| * k
    ensures |months| > 0 ==> |TickValues(months, k)| > 0 && TickValues(months, k)[0] == months[0]
  {
    TicksUpToElements(months, |months|, k);
    if |months| > 0 {
      TicksUpToCount(months, |months|, k);
    }
  }

  /** One drawn line: the type's entries sorted by `MonthYear`. */
  function Line(g: (Option<string>, seq<Entry>)): (Option<string>, seq<Entry>)
  {
    (g.0, SortByText(g.1, EntryMonthText))
  }

  /** `trendsByType.forEach((entries, type) => { if (hiddenTypes.includes(type)) return; ... })`. */
  function Lines(trendsByType: seq<(Option<string>, seq<Entry>)>, hidden: seq<string>): seq<(Option<string>, seq<Entry>)>
  {
    Map(Filter(trendsByType, (g: (Option<string>, seq<Entry>)) => !Selected(g.0, hidden)), Line)
  }

  /** What the chart draws: nothing but the no-data message, or its series, axis and lines. */
  datatype Chart =
    | NoData
    | Drawn(flatData: seq<Entry>, allMonths: seq<string>, ticks: seq<string>, lines: seq<(Option<string>, seq<Entry>)>)

  method Render(data: seq<Row>, regions: seq<string>, incidents: seq<string>, startMonth: string, endMonth: string, hidden: seq<string>)
    returns (c: Chart)
    ensures var filtered := Filtered(data, regions, incidents, startMonth, endMonth);
      (c.NoData? <==> filtered == [])
      && (c.Drawn? ==>
            (forall r :: r in filtered ==> r.monthYear.Some?)
            && c.flatData == Map(Flatten(Aggregated(filtered)), ToEntry)
            && c.allMonths == AllMonths(filtered)
            && c.ticks == TickValues(c.allMonths, TickInterval(|c.allMonths|))
            && c.lines == Lines(Groups(c.flatData, EntryType), hidden))
  {
    var filtered := Filtered(data, regions, incidents, startMonth, endMonth);
    if |filtered| == 0 {
      return NoData;
    }
    var flatData := FlattenAggregated(Aggregated(filtered));
    var allMonths := AllMonths(filtered);
    var ticks := TickValues(allMonths, TickInterval(|allMonths|));
    c := Drawn(flatData, allMonths, ticks, Lines(Groups(flatData, EntryType), hidden));
  }

  /** No two entries of the flattened series share their (MonthYear, Incident_Type) pair. */
  lemma FlatDataDistinct(filtered: seq<Row>)
    ensures var flat := Map(Flatten(Aggregated(filtered)), ToEntry);
      forall a, b :: 0 <= a < b < |flat| ==>
        (flat[a].monthYear, flat[a].incidentType) != (flat[b].monthYear, flat[b].incidentType)
  {
    var f := Flatten(Aggregated(filtered));
    InnerKeysDistinct(filtered, MonthOf, TypeOf, SumCountOrOne);
    assert forall a, b :: 0 <= a < b < |f| ==> PairKeys(f)[a] != PairKeys(f)[b];
  }

  /**
   * Every entry comes from a pair of the kept rows and holds that group's
   * `sum(Count || 1)`.
   */
  lemma FlatDataEntries(filtered: seq<Row>)
    ensures forall e :: e in Map(Flatten(Aggregated(filtered)), ToEntry) ==>
      (exists r :: r in filtered && r.monthYear == e.monthYear && r.incidentType == e.incidentType)
      && e.count == SumCountOrOne(Where(Where(filtered, MonthOf, e.monthYear), TypeOf, e.incidentType))
  {
    var f := Flatten(Aggregated(filtered));
    var flat := Map(f, ToEntry);
    forall e | e in flat
      ensures (exists r :: r in filtered && r.monthYear == e.monthYear && r.incidentType == e.incidentType)
      ensures e.count == SumCountOrOne(Where(Where(filtered, MonthOf, e.monthYear), TypeOf, e.incidentType))
    {
      var a :| 0 <= a < |flat| && flat[a] == e;
      FlattenedEntryOccurs(filtered, MonthOf, TypeOf, SumCountOrOne, f[a]);
    }
  }

  /** Every (MonthYear, Incident_Type) pair of the kept rows has an entry. */
  lemma FlatDataCovers(filtered: seq<Row>)
    ensures forall r :: r in filtered ==>
      exists e :: e in Map(Flatten(Aggregated(filtered)), ToEntry) && e.monthYear == r.monthYear && e.incidentType == r.incidentType
  {
    var f := Flatten(Aggregated(filtered));
    var flat := Map(f, ToEntry);
    forall r | r in filtered
      ensures exists e :: e in flat && e.monthYear == r.monthYear && e.incidentType == r.incidentType
    {
      OccurringPairIsFlattened(filtered, MonthOf, TypeOf, SumCountOrOne, r);
      var t := (MonthOf(r), TypeOf(r), SumCountOrOne(Where(Where(filtered, MonthOf, MonthOf(r)), TypeOf, TypeOf(r))));
      var a :| 0 <= a < |f| && f[a] == t;
      assert flat[a] in flat;
    }
  }

  lemma {:induction false} EntrySum(f: seq<(Option<string>, Option<string>, int)>)
    ensures Sum(Map(f, ToEntry), EntryCount) == SumTriples(f)
  {
    if f != [] {
      EntrySum(Init(f));
      assert Init(Map(f, ToEntry)) == Map(Init(f), ToEntry);
    }
  }

  /** The entries' counts add up to `sum(Count || 1)` over all kept rows. */
  lemma FlatDataConserves(filtered: seq<Row>)
    ensures Sum(Map(Flatten(Aggregated(filtered)), ToEntry), EntryCount) == Sum(filtered, CountOrOne)
  {
    EntrySum(Flatten(Aggregated(filtered)));
    FlattenRollups2Conserve(filtered, MonthOf, TypeOf, SumCountOrOne, CountOrOne);
  }

  /** The month axis lists each kept month once, in strictly ascending string order. */
  lemma AllMonthsShape(filtered: seq<Row>)
    requires forall r :: r in filtered ==> r.monthYear.Some?
    ensures forall m :: m in AllMonths(filtered) <==> exists r :: r in filtered && r.monthYear == Some(m)
    ensures forall i, j :: 0 <= i < j < |AllMonths(filtered)| ==>
              LexLe(AllMonths(filtered)[i], AllMonths(filtered)[j]) && AllMonths(filtered)[i] != AllMonths(filtered)[j]
  {
    var ms := seq(|filtered|, i requires 0 <= i < |filtered| => filtered[i].monthYear.value);
    SortDistinctStrings(Distinct(ms));
    forall m ensures m in ms <==> exists r :: r in filtered && r.monthYear == Some(m) {
      if m in ms {
        var i :| 0 <= i < |ms| && ms[i] == m;
        assert filtered[i] in filtered;
      }
      if exists r :: r in filtered && r.monthYear == Some(m) {
        var r :| r in filtered && r.monthYear == Some(m);
        var i :| 0 <= i < |filtered| && filtered[i] == r;
        assert ms[i] == m;
      }
    }
  }

  /**
   * A hidden type draws no line; every other type of the series draws exactly its
   * own entries, sorted by month.
   */
  lemma LinesShape(flatData: seq<Entry>, hidden: seq<string>)
    ensures forall l :: l in Lines(Groups(flatData, EntryType), hidden) ==>
              !Selected(l.0, hidden)
              && SortedByText(l.1, EntryMonthText)
              && multiset(l.1) == multiset(Where(flatData, EntryType, l.0))
    ensures forall e :: e in flatData && !Selected(e.incidentType, hidden) ==>
              exists l :: l in Lines(Groups(flatData, EntryType), hidden) && l.0 == e.incidentType
  {
    LinesContents(flatData, hidden);
    LinesCover(flatData, hidden);
  }

  /** Each drawn line is visible, sorted by month and holds exactly its type's entries. */
  lemma LinesContents(flatData: seq<Entry>, hidden: seq<string>)
    ensures forall l :: l in Lines(Groups(flatData, EntryType), hidden) ==>
              !Selected(l.0, hidden)
              && SortedByText(l.1, EntryMonthText)
              && multiset(l.1) == multiset(Where(flatData, EntryType, l.0))
  {
    var groups := Groups(flatData, EntryType);
    RollupsShape(flatData, EntryType, (g: seq<Entry>) => g);
    var visible := Filter(groups, (g: (Option<string>, seq<Entry>)) => !Selected(g.0, hidden));
    var lines := Lines(groups, hidden);
    forall l | l in lines
      ensures !Selected(l.0, hidden)
      ensures SortedByText(l.1, EntryMonthText)
      ensures multiset(l.1) == multiset(Where(flatData, EntryType, l.0))
    {
      var a :| 0 <= a < |lines| && lines[a] == l;
      var g := visible[a];
      assert g in groups;
      var i :| 0 <= i < |groups| && groups[i] == g;
      SortByTextCorrect(g.1, EntryMonthText);
    }
  }

  /** Every entry of a visible type has its line. */
  lemma LinesCover(flatData: seq<Entry>, hidden: seq<string>)
    ensures forall e :: e in flatData && !Selected(e.incidentType, hidden) ==>
              exists l :: l in Lines(Groups(flatData, EntryType), hidden) && l.0 == e.incidentType
  {
    var groups := Groups(flatData, EntryType);
    assert Firsts(groups) == KeysOf(flatData, EntryType);
    var visible := Filter(groups, (g: (Option<string>, seq<Entry>)) => !Selected(g.0, hidden));
    var lines := Lines(groups, hidden);
    forall e | e in flatData && !Selected(e.incidentType, hidden)
      ensures exists l :: l in lines && l.0 == e.incidentType
    {
      assert e.incidentType in Firsts(groups);
      var i :| 0 <= i < |groups| && Firsts(groups)[i] == e.incidentType;
      assert groups[i] in visible;
      var a :| 0 <= a < |visible| && visible[a] == groups[i];
      assert lines[a] in lines;
    }
  }

  /** Uploaded trends are drawn iff the stored mode is `'client-upload'` and an upload exists. */
  function DataSource(stored: Option<string>, uploaded: Option<seq<Row>>): (s: DashboardFile.Source<seq<Row>>)
    ensures s.Uploaded? <==> stored == Some("client-upload") && uploaded.Some?
    ensures s.Uploaded? ==> s.rows == uploaded.value
    ensures s.File? && DashboardFile.Truthy(stored) ==> s.path == "/data/incident_trends_" + stored.value + ".json"
    ensures s.File? && !DashboardFile.Truthy(stored) ==> s.path == "/data/incident_trends.json"
  {
    var s := DashboardFile.ChooseSource(stored, uploaded, "incident_trends", "/data/incident_trends.json");
    if DashboardFile.Truthy(stored) then PrefixedPath(stored.value); s else s
  }

  lemma PrefixedPath(prefix: string)
    ensures "/data/" + "incident_trends" + "_" + prefix + ".json" == "/data/incident_trends_" + prefix + ".json"
  {
    assert "/data/" + "incident_trends" + "_" == "/data/incident_trends_";
  }
}
