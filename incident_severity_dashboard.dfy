/**
 * The incident and severity dashboard's state: region and incident-type
 * selections, the slider, the export menu and the toast. Its `handleDownload`
 * tests the menu target with an if/else chain and any format other than "json"
 * means CSV; the toast opens and the menu closes whatever the target was.
 */
module IncidentSeverityDashboard {
  import opened Wrappers
  import opened Seqs
  import opened Selection
  import opened MonthKey
  import Export

  const RegionOptions: seq<string> := ["Rural", "Suburban", "Urban"]
  const IncidentOptions: seq<string> := ["Accident", "Fire", "Cardiac Arrest", "Other"]

  /** The slider's months, January 2018 to December 2024. */
  const MonthCount := 84

  /** The file and output name of each chart's downloaders. */
  function ChartExport(target: string): Option<(string, string)>
  {
    if target == "chart1" then Some(("/data/incident_type_counts_monthly.json", "incident_bar_chart_data"))
    else if target == "chart2" then Some(("/data/severity_counts_monthly.json", "severity_bar_chart_data"))
    else if target == "chart3" then Some(("/data/incident_type_counts_monthly.json", "incident_trend_data"))
    else None
  }

  /** The export the if/else chain starts, if any. */
  function Downloader(target: Option<string>, format: string, q: Export.Query): Option<Export.Request>
  {
    if target.None? || ChartExport(target.value).None? then None
    else
      var (path, name) := ChartExport(target.value).value;
      Some(Export.Request(path, q, name, if format == "json" then "json" else "csv"))
  }

  /**
   * A target other than the three charts starts no download; for a chart target
   * the export uses the current predicate and is JSON exactly when "json" was asked for.
   */
  lemma DownloaderDefined(target: Option<string>, format: string, q: Export.Query)
    ensures Downloader(target, format, q).None? <==> target !in {Some("chart1"), Some("chart2"), Some("chart3")}
    ensures Downloader(target, format, q).Some? ==>
              Downloader(target, format, q).value.query == q
              && (Downloader(target, format, q).value.format == "json" <==> format == "json")
  {
  }

  /** The chart1 and chart3 exports read the same file under the same predicate and differ only in name. */
  lemma Chart1AndChart3SameSource(format: string, q: Export.Query)
    ensures Downloader(Some("chart1"), format, q).Some? && Downloader(Some("chart3"), format, q).Some?
    ensures Downloader(Some("chart1"), format, q).value.filePath == Downloader(Some("chart3"), format, q).value.filePath
    ensures Downloader(Some("chart1"), format, q).value.query == Downloader(Some("chart3"), format, q).value.query
    ensures Downloader(Some("chart1"), format, q).value.format == Downloader(Some("chart3"), format, q).value.format
    ensures Downloader(Some("chart1"), format, q).value.fileName != Downloader(Some("chart3"), format, q).value.fileName
  {
  }

  /** The saved file is named after the chart's output name, with ".json" only for "json". */
  lemma DownloadName(data: seq<Export.Obj>, target: Option<string>, format: string, q: Export.Query)
    requires Downloader(target, format, q).Some?
    ensures Export.ExportFiltered(data, Downloader(target, format, q).value).name ==
              ChartExport(target.value).value.1 + (if format == "json" then ".json" else ".csv")
  {
  }

  class Dashboard {
    /** `monthYearOptions`: the slider's labels, taken as given. */
    const labels: seq<string>
    var selectedRegions: seq<string>
    var selectedIncidents: seq<string>
    var timeRange: (int, int)
    /** `Boolean(anchorEl)`: whether the export menu is open. */
    var menuOpen: bool
    var menuTarget: Option<string>
    var toastOpen: bool

    ghost predicate Valid()
      reads this
    {
      |labels| == MonthCount
      && ValidSelection(selectedRegions, RegionOptions)
      && ValidSelection(selectedIncidents, IncidentOptions)
      && 0 <= timeRange.0 <= timeRange.1 < MonthCount
    }

    /** All regions and all four incident types selected, the slider over indices 0 to 83. */
    constructor (monthLabels: seq<string>)
      requires |monthLabels| == MonthCount
      ensures Valid()
      ensures labels == monthLabels
      ensures selectedRegions == RegionOptions && selectedIncidents == IncidentOptions
      ensures timeRange == (0, MonthCount - 1)
      ensures !menuOpen && menuTarget == None && !toastOpen
    {
      labels := monthLabels;
      selectedRegions := RegionOptions;
      selectedIncidents := IncidentOptions;
      timeRange := (0, MonthCount - 1);
      menuOpen := false;
      menuTarget := None;
      toastOpen := false;
    }

    /** `startMonth` and `endMonth`. */
    function StartMonth(): string
      reads this
      requires Valid()
    {
      labels[timeRange.0]
    }

    function EndMonth(): string
      reads this
      requires Valid()
    {
      labels[timeRange.1]
    }

    /** The predicate every downloader of this dashboard filters with. */
    function CurrentQuery(): Export.Query
      reads this
      requires Valid()
    {
      Export.Query(selectedRegions, "Incident_Type", selectedIncidents,
                   ConvertToMonthYear(StartMonth()), ConvertToMonthYear(EndMonth()))
    }

    method ToggleRegion(value: string)
      requires Valid() && value in RegionOptions
      modifies this
      ensures Valid()
      ensures selectedRegions == Toggle(old(selectedRegions), value)
      ensures selectedIncidents == old(selectedIncidents) && timeRange == old(timeRange)
      ensures menuOpen == old(menuOpen) && menuTarget == old(menuTarget) && toastOpen == old(toastOpen)
    {
      ToggleKeepsValid(selectedRegions, RegionOptions, value);
      selectedRegions := Toggle(selectedRegions, value);
    }

    method ToggleIncident(value: string)
      requires Valid() && value in IncidentOptions
      modifies this
      ensures Valid()
      ensures selectedIncidents == Toggle(old(selectedIncidents), value)
      ensures selectedRegions == old(selectedRegions) && timeRange == old(timeRange)
      ensures menuOpen == old(menuOpen) && menuTarget == old(menuTarget) && toastOpen == old(toastOpen)
    {
      ToggleKeepsValid(selectedIncidents, IncidentOptions, value);
      selectedIncidents := Toggle(selectedIncidents, value);
    }

    /** The slider's `onChange`: a pair of indices within its bounds. */
    method SetTimeRange(first: int, last: int)
      requires Valid() && 0 <= first <= last < MonthCount
      modifies this
      ensures Valid()
      ensures timeRange == (first, last)
      ensures selectedRegions == old(selectedRegions) && selectedIncidents == old(selectedIncidents)
      ensures menuOpen == old(menuOpen) && menuTarget == old(menuTarget) && toastOpen == old(toastOpen)
    {
      timeRange := (first, last);
    }

    /** `handleExportClick(e, chartId)`: open the menu for that chart. */
    method ExportClick(chartId: string)
      requires Valid()
      modifies this
      ensures Valid()
      ensures menuOpen && menuTarget == Some(chartId)
      ensures selectedRegions == old(selectedRegions) && selectedIncidents == old(selectedIncidents)
      ensures timeRange == old(timeRange) && toastOpen == old(toastOpen)
    {
      menuOpen := true;
      menuTarget := Some(chartId);
    }

    /** `handleClose`. */
    method Close()
      requires Valid()
      modifies this
      ensures Valid()
      ensures !menuOpen && menuTarget == None
      ensures selectedRegions == old(selectedRegions) && selectedIncidents == old(selectedIncidents)
      ensures timeRange == old(timeRange) && toastOpen == old(toastOpen)
    {
      menuOpen := false;
      menuTarget := None;
    }

    /**
     * `handleDownload(format)`: the export of the menu's chart, if it is one of the
     * three; in every case the toast then opens and the menu closes.
     */
    method HandleDownload(format: string) returns (req: Option<Export.Request>)
      requires Valid()
      modifies this
      ensures Valid()
      ensures req == Downloader(old(menuTarget), format, old(CurrentQuery()))
      ensures toastOpen && !menuOpen && menuTarget == None
      ensures selectedRegions == old(selectedRegions) && selectedIncidents == old(selectedIncidents)
      ensures timeRange == old(timeRange)
    {
      req := Downloader(menuTarget, format, CurrentQuery());
      toastOpen := true;
      Close();
    }
  }
}
