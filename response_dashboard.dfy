/**
 * The response dashboard's state: two checkbox selections (regions, emergency
 * levels), the slider's pair of month indices, the export menu and the toast.
 * `handleDownload` looks up the downloader for (menu target, format) in a nested
 * object; a target or format with no entry makes the call fail before the toast
 * opens or the menu closes.
 */
module ResponseDashboard {
  import opened Wrappers
  import opened Seqs
  import opened Selection
  import opened MonthKey
  import Export

  const RegionOptions: seq<string> := ["Rural", "Suburban", "Urban"]
  const EmergencyLevels: seq<string> := ["Minor", "Major", "Critical"]

  /** The slider's months, January 2018 to December 2024. */
  const MonthCount := 84

  /** The file and output name of each chart's downloaders. */
  function ChartExport(target: string): Option<(string, string)>
  {
    if target == "chart1" then Some(("/data/ambulance_response_filtered.json", "ambulance_availability_data"))
    else if target == "chart2" then Some(("/data/injuries_response.json", "injuries_response_data"))
    else if target == "chart3" then Some(("/data/response_heatmap.json", "response_heatmap_data"))
    else None
  }

  /** `downloaders[menuTarget][format]`: the export it starts, or `None` where the lookup fails. */
  function Downloader(target: Option<string>, format: string, q: Export.Query): Option<Export.Request>
  {
    if target.None? || ChartExport(target.value).None? || !(format == "json" || format == "csv") then None
    else
      var (path, name) := ChartExport(target.value).value;
      Some(Export.Request(path, q, name, format))
  }

  /**
   * A download starts exactly for the three chart targets and the two formats, and
   * passes the current predicate and the requested format through.
   */
  lemma DownloaderDefined(target: Option<string>, format: string, q: Export.Query)
    ensures Downloader(target, format, q).Some? <==>
              target in {Some("chart1"), Some("chart2"), Some("chart3")} && format in {"json", "csv"}
    ensures Downloader(target, format, q).Some? ==>
              Downloader(target, format, q).value.query == q && Downloader(target, format, q).value.format == format
  {
  }

  /** Distinct (target, format) pairs start distinct downloads: each pair has its own downloader. */
  lemma DownloaderInjective(t1: Option<string>, f1: string, t2: Option<string>, f2: string, q: Export.Query)
    requires Downloader(t1, f1, q).Some? && Downloader(t1, f1, q) == Downloader(t2, f2, q)
    ensures t1 == t2 && f1 == f2
  {
  }

  /** The saved file is named after the chart's output name and the requested format. */
  lemma DownloadName(data: seq<Export.Obj>, target: Option<string>, format: string, q: Export.Query)
    requires Downloader(target, format, q).Some?
    ensures Export.ExportFiltered(data, Downloader(target, format, q).value).name ==
              ChartExport(target.value).value.1 + "." + format
  {
    var name := ChartExport(target.value).value.1;
    if format == "json" {
      assert name + "." + format == name + ".json";
    } else {
      assert name + "." + format == name + ".csv";
    }
  }

  class Dashboard {
    /** `monthYearOptions`: the slider's labels, taken as given. */
    const labels: seq<string>
    var selectedRegions: seq<string>
    var selectedLevels: seq<string>
    var timeRange: (int, int)
    /** `Boolean(anchorEl)`: whether the export menu is open. */
    var menuOpen: bool
    var menuTarget: Option<string>
    var toastOpen: bool

    ghost predicate Valid()
      reads this
    {
      |labels| == MonthCount
      && ValidSelection(selectedRegions, RegionOptions)
      && ValidSelection(selectedLevels, EmergencyLevels)
      && 0 <= timeRange.0 <= timeRange.1 < MonthCount
    }

    /** Everything selected, the whole time range, menu and toast closed. */
    constructor (monthLabels: seq<string>)
      requires |monthLabels| == MonthCount
      ensures Valid()
      ensures labels == monthLabels
      ensures selectedRegions == RegionOptions && selectedLevels == EmergencyLevels
      ensures timeRange == (0, MonthCount - 1)
      ensures !menuOpen && menuTarget == None && !toastOpen
    {
      labels := monthLabels;
      selectedRegions := RegionOptions;
      selectedLevels := EmergencyLevels;
      timeRange := (0, MonthCount - 1);
      menuOpen := false;
      menuTarget := None;
      toastOpen := false;
    }

    /** `monthRange`: the converted labels at the slider's two indices. */
    function MonthRange(): (string, string)
      reads this
      requires Valid()
    {
      (ConvertToMonthYear(labels[timeRange.0]), ConvertToMonthYear(labels[timeRange.1]))
    }

    /** The predicate every downloader of this dashboard filters with. */
    function CurrentQuery(): Export.Query
      reads this
      requires Valid()
    {
      Export.Query(selectedRegions, "Emergency_Level", selectedLevels, MonthRange().0, MonthRange().1)
    }

    method ToggleRegion(value: string)
      requires Valid() && value in RegionOptions
      modifies this
      ensures Valid()
      ensures selectedRegions == Toggle(old(selectedRegions), value)
      ensures selectedLevels == old(selectedLevels) && timeRange == old(timeRange)
      ensures menuOpen == old(menuOpen) && menuTarget == old(menuTarget) && toastOpen == old(toastOpen)
    {
      ToggleKeepsValid(selectedRegions, RegionOptions, value);
      selectedRegions := Toggle(selectedRegions, value);
    }

    method ToggleLevel(value: string)
      requires Valid() && value in EmergencyLevels
      modifies this
      ensures Valid()
      ensures selectedLevels == Toggle(old(selectedLevels), value)
      ensures selectedRegions == old(selectedRegions) && timeRange == old(timeRange)
      ensures menuOpen == old(menuOpen) && menuTarget == old(menuTarget) && toastOpen == old(toastOpen)
    {
      ToggleKeepsValid(selectedLevels, EmergencyLevels, value);
      selectedLevels := Toggle(selectedLevels, value);
    }

    /** The slider's `onChange`: a pair of indices within its bounds. */
    method SetTimeRange(first: int, last: int)
      requires Valid() && 0 <= first <= last < MonthCount
      modifies this
      ensures Valid()
      ensures timeRange == (first, last)
      ensures selectedRegions == old(selectedRegions) && selectedLevels == old(selectedLevels)
      ensures menuOpen == old(menuOpen) && menuTarget == old(menuTarget) && toastOpen == old(toastOpen)
    {
      timeRange := (first, last);
    }

    /** `handleExportClick(e, chartId)`: open the menu for that chart. */
    method ExportClick(chartId: string)
      requires Valid()
      modifies this
      ensures Valid()
      ensures menuOpen && menuTarget == Some(chartId)
      ensures selectedRegions == old(selectedRegions) && selectedLevels == old(selectedLevels)
      ensures timeRange == old(timeRange) && toastOpen == old(toastOpen)
    {
      menuOpen := true;
      menuTarget := Some(chartId);
    }

    /** `handleClose`. */
    method Close()
      requires Valid()
      modifies this
      ensures Valid()
      ensures !menuOpen && menuTarget == None
      ensures selectedRegions == old(selectedRegions) && selectedLevels == old(selectedLevels)
      ensures timeRange == old(timeRange) && toastOpen == old(toastOpen)
    {
      menuOpen := false;
      menuTarget := None;
    }

    /**
     * `handleDownload(format)`: the export of the menu's chart in that format, after
     * which the toast opens and the menu closes; when the lookup fails, no export
     * and no change.
     */
    method HandleDownload(format: string) returns (req: Option<Export.Request>)
      requires Valid()
      modifies this
      ensures Valid()
      ensures req == Downloader(old(menuTarget), format, old(CurrentQuery()))
      ensures req.Some? ==> toastOpen && !menuOpen && menuTarget == None
      ensures req.None? ==> toastOpen == old(toastOpen) && menuOpen == old(menuOpen) && menuTarget == old(menuTarget)
      ensures selectedRegions == old(selectedRegions) && selectedLevels == old(selectedLevels)
      ensures timeRange == old(timeRange)
    {
      req := Downloader(menuTarget, format, CurrentQuery());
      if req.Some? {
        toastOpen := true;
        Close();
      }
    }
  }
}
