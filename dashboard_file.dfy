/**
 * `getDashboardFile(chartKey, fallbackPath)`: the data file a chart loads. The
 * prefix is the value stored under `incident_dashboard_file_prefix` in the
 * browser's storage, passed in here (`None` when nothing is stored).
 */
module DashboardFile {
  import opened Wrappers

  /** JavaScript truthiness of a stored string: `null` and `""` are falsy. */
  predicate Truthy(prefix: Option<string>)
  {
    prefix.Some? && prefix.value != ""
  }

  function GetDashboardFile(chartKey: string, prefix: Option<string>, fallbackPath: string): (path: string)
    ensures Truthy(prefix) ==> path == "/data/" + chartKey + "_" + prefix.value + ".json"
    ensures !Truthy(prefix) ==> path == fallbackPath
  {
    if Truthy(prefix) then "/data/" + chartKey + "_" + prefix.value + ".json" else fallbackPath
  }

  /** With a prefix the fallback path plays no part in the result. */
  lemma PrefixedIgnoresFallback(chartKey: string, prefix: Option<string>, f1: string, f2: string)
    requires Truthy(prefix)
    ensures GetDashboardFile(chartKey, prefix, f1) == GetDashboardFile(chartKey, prefix, f2)
  {
  }

  /** A prefixed path lies under `/data/` and names a `.json` file. */
  lemma PrefixedShape(chartKey: string, prefix: Option<string>, fallbackPath: string)
    requires Truthy(prefix)
    ensures var path := GetDashboardFile(chartKey, prefix, fallbackPath);
      |path| >= 11 && path[..6] == "/data/" && path[|path| - 5..] == ".json"
  {
    var path := GetDashboardFile(chartKey, prefix, fallbackPath);
    assert path == "/data/" + (chartKey + "_" + prefix.value) + ".json";
  }

  /** Distinct prefixes select distinct files for the same chart. */
  lemma PrefixedInjective(chartKey: string, p1: Option<string>, p2: Option<string>, fallbackPath: string)
    requires Truthy(p1) && Truthy(p2) && p1 != p2
    ensures GetDashboardFile(chartKey, p1, fallbackPath) != GetDashboardFile(chartKey, p2, fallbackPath)
  {
    var a := GetDashboardFile(chartKey, p1, fallbackPath);
    var b := GetDashboardFile(chartKey, p2, fallbackPath);
    var n := |"/data/" + chartKey + "_"|;
    assert a[n..|a| - 5] == p1.value;
    assert b[n..|b| - 5] == p2.value;
  }

  /** Where a chart's rows come from: the uploaded data, or a file to fetch. */
  datatype Source<R> = Uploaded(rows: R) | File(path: string)

  /**
   * `mode === 'client-upload' && uploaded ? uploaded : getDashboardFile(chartKey, fallbackPath)`,
   * with `mode` the same stored value `getDashboardFile` reads as its prefix.
   */
  function ChooseSource<R>(stored: Option<string>, uploaded: Option<R>, chartKey: string, fallbackPath: string): (s: Source<R>)
    ensures s.Uploaded? <==> stored == Some("client-upload") && uploaded.Some?
    ensures s.Uploaded? ==> s.rows == uploaded.value
    ensures s.File? ==> s.path == GetDashboardFile(chartKey, stored, fallbackPath)
  {
    if stored == Some("client-upload") && uploaded.Some? then Uploaded(uploaded.value)
    else File(GetDashboardFile(chartKey, stored, fallbackPath))
  }

  /**
   * In upload mode with nothing uploaded, the mode string itself is taken as the
   * file prefix.
   */
  lemma UploadModeWithoutData<R>(chartKey: string, fallbackPath: string)
    ensures ChooseSource<R>(Some("client-upload"), None, chartKey, fallbackPath)
         == File("/data/" + chartKey + "_client-upload.json")
  {
  }

  /** With nothing stored, the chart fetches its fallback file. */
  lemma NothingStored<R>(uploaded: Option<R>, chartKey: string, fallbackPath: string)
    ensures ChooseSource(None, uploaded, chartKey, fallbackPath) == File(fallbackPath)
  {
  }
}
