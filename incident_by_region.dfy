/**
 * The incidents-by-region stacked bar chart: all rows or the rows of one region,
 * one group per region, and for each (group, incident type) the Count of the
 * group's first row of that type, or 0.
 */
module IncidentByRegion {
  import opened Wrappers
  import opened Seqs
  import opened Rows
  import opened Aggregate

  /** `selectedRegion === 'All' ? data : data.filter(d => d.Region_Type === selectedRegion)`. */
  function RegionFiltered(data: seq<Row>, selectedRegion: string): (f: seq<Row>)
    ensures selectedRegion == "All" ==> f == data
    ensures selectedRegion != "All" ==> forall r :: r in f <==> r in data && r.regionType == Some(selectedRegion)
    ensures Subsequence(f, data)
  {
    if selectedRegion == "All" then
      SubsequenceOfItself(data);
      data
    else
      FilterIsSubsequence(data, (r: Row) => r.regionType == Some(selectedRegion));
      Filter(data, (r: Row) => r.regionType == Some(selectedRegion))
  }

  lemma {:induction false} SubsequenceOfItself(s: seq<Row>)
    ensures Subsequence(s, s)
  {
    if s != [] {
      SubsequenceOfItself(Init(s));
    }
  }

  /** `[...new Set(json.map(d => d.Incident_Type))]`, a missing type included as `undefined`. */
  function IncidentTypes(data: seq<Row>): (types: seq<Option<string>>)
    ensures NoDup(types)
    ensures forall t :: t in types <==> exists r :: r in data && r.incidentType == t
  {
    KeysOf(data, TypeOf)
  }

  /** There are incident types exactly when there is data, so the guard tests one condition twice. */
  lemma TypesIffData(data: seq<Row>)
    ensures IncidentTypes(data) == [] <==> data == []
  {
    if data != [] {
      assert TypeOf(data[0]) in IncidentTypes(data);
    }
  }

  /** `d3.groups(filtered, d => d.Region_Type)`. */
  function Grouped(filtered: seq<Row>): seq<(Option<string>, seq<Row>)>
  {
    Groups(filtered, RegionOf)
  }

  /** One group per region of the kept rows, each holding exactly that region's rows in order. */
  lemma GroupedShape(filtered: seq<Row>)
    ensures Firsts(Grouped(filtered)) == KeysOf(filtered, RegionOf)
    ensures forall g :: g in Grouped(filtered) ==>
              g.1 != [] && Subsequence(g.1, filtered) && forall r :: r in g.1 <==> r in filtered && r.regionType == g.0
  {
    var groups := Grouped(filtered);
    RollupsShape(filtered, RegionOf, (g: seq<Row>) => g);
    forall g | g in groups
      ensures g.1 != [] && Subsequence(g.1, filtered) && forall r :: r in g.1 <==> r in filtered && r.regionType == g.0
    {
      var i :| 0 <= i < |groups| && groups[i] == g;
    }
  }

  /** `group.find(d => d.Incident_Type === key)`, then `found ? found.Count : 0`. */
  function StackValue(group: seq<Row>, key: Option<string>): Option<int>
  {
    if group == [] then Some(0)
    else if group[0].incidentType == key then group[0].count
    else StackValue(group[1..], key)
  }

  /**
   * The stack value is the Count of the group's first row of that type (absent when
   * that row has none), or 0 when no row has the type.
   */
  lemma {:induction false} StackValueFirstMatch(group: seq<Row>, key: Option<string>)
    ensures (forall r :: r in group ==> r.incidentType != key) ==> StackValue(group, key) == Some(0)
    ensures (exists r :: r in group && r.incidentType == key) ==>
              exists i :: 0 <= i < |group| && group[i].incidentType == key && StackValue(group, key) == group[i].count
                          && forall j :: 0 <= j < i ==> group[j].incidentType != key
  {
    if group != [] && group[0].incidentType != key {
      var rest := group[1..];
      StackValueFirstMatch(rest, key);
      assert forall r :: r in rest ==> r in group;
      if exists r :: r in group && r.incidentType == key {
        var r :| r in group && r.incidentType == key;
        assert r in rest;
        var i :| 0 <= i < |rest| && rest[i].incidentType == key && StackValue(rest, key) == rest[i].count
                 && forall j :: 0 <= j < i ==> rest[j].incidentType != key;
        assert group[i + 1] == rest[i];
      } else {
        assert forall r :: r in rest ==> r.incidentType != key;
      }
    } else if group != [] {
      assert group[0] in group;
    }
  }
}
