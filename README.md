# ResQVision core in Dafny

ResQVision is a React/d3 dashboard for emergency-response data. This project models
its deterministic core and proves properties of that model:

- the month keys (`"Mar 2019"` becomes `"2019-03"`) and the inclusive string-range
  filter that every chart applies to `MonthYear`;
- the checkbox selections (`handleToggle`) and the trends legend's hidden-type toggle;
- the charts' filters, `d3.rollups` aggregations (`sum(Count || 1)`, `sum(Count)`,
  `mean(Avg_Response_Time)`), flattening, sorting, axes, tick spacing and grid loop;
- the two dashboards as classes holding React state: selections, slider, export menu,
  toast and the `handleDownload` dispatch;
- `exportFiltered`, the shared export: the predicate, the JSON branch and the
  hand-rolled, unquoted CSV serialiser;
- `getDashboardFile` and the choice between uploaded data and a fetched file;
- the preprocessing script: a `Frame` class that adds the `Year` and `Distance_Bin`
  columns in place; the half-open distance bins; the three `groupby(...).mean()`
  outputs; and the final `dropna`.

Files, one module each:
- `wrappers.dfy`, `seqs.dfy` and `text.dfy`: shared containers. They hold JavaScript
  `split`/`join`, string order and digit values.
- `stats.dfy`: `d3.mean` and pandas `.mean()`.
- `aggregate.dfy`: `d3.rollups` as group keys in first-occurrence order.
- `sorting.dfy`: `Array.prototype.sort` with a comparator, as a stable insertion sort.
- `month_key.dfy`, `selection.dfy`, `rows.dfy` and `dashboard_file.dfy`: the other shared
  pieces listed above.
- One module per chart, dashboard and script file.

Every chart reads JSON records. A field missing from a record is `None`.
`list.includes(v)` never matches a missing field. `v >= start && v <= end` is false for
a missing field. JavaScript strings compare by UTF-16 code unit. `Text.LexLe` is
lexicographic order on `seq<char>`, which is code-point order. The two agree on the
month keys the charts compare; "## Left out" says where they part.

## Model

| member | source | states |
|---|---|---|
| MonthKey.MonthIndex | resqvision/src/components/ResponseDashboard.jsx:34-37 | the month table lookup gives the position of the name in Jan..Dec, or -1 for a name that is not there |
| MonthKey.ConvertLabel | resqvision/src/components/ResponseDashboard.jsx:33-40 | a label `"Mon YYYY"` with Mon in the table converts to YYYY, "-" and the two-digit month 01-12 |
| MonthKey.MonthNameInTable | resqvision/src/components/ResponseDashboard.jsx:34-37 | each month name is found at its own position and contains no space, so `split(" ")` separates it from the year |
| MonthKey.MonthCodesAreTwoDigits | resqvision/src/components/ResponseDashboard.jsx:34-37 | every code is two digits and its value is the month's position plus one |
| MonthKey.ConvertUnknownMonth | resqvision/src/components/charts/IncidentTrendsChart.jsx:12-15 | a month name outside the table, other than a property every object inherits, gives the text `undefined` in place of the month number |
| MonthKey.KeyOrder | resqvision/src/components/charts/IncidentTrendsChart.jsx:35-36 | for four-digit years, string order on two keys equals chronological order (year, then month) |
| MonthKey.InRangeIsChronological | resqvision/src/components/charts/IncidentBarChart.jsx:32-33 | the inclusive range test on well-formed keys keeps exactly the months between the two ends, both included |
| MonthKey.YearWindow | resqvision/src/components/charts/SeverityBarChart.jsx:30-31 | a January-to-December window keeps a well-formed key iff its year lies between the two years |
| MonthKey.Window2018To2024 | resqvision/src/components/charts/InjuriesResponseLineChart.jsx:7 | the default window "2018-01" to "2024-12" keeps exactly the keys of the years 2018 to 2024 |
| Text.SplitJoin | resqvision/src/components/ResponseDashboard.jsx:104-107 | joining parts that do not contain the separator with that separator and then splitting gives back the parts |
| Text.LexLeTotal | resqvision/src/components/charts/IncidentTrendsChart.jsx:79 | the string order relates any two strings |
| Text.LexLeTransitive | resqvision/src/components/charts/IncidentTrendsChart.jsx:79 | the string order is transitive |
| Text.LexLeAntisymmetric | resqvision/src/components/charts/IncidentTrendsChart.jsx:79 | two strings that are each at most the other are equal |
| Text.DigitsOrder | resqvision/src/components/charts/IncidentTrendsChart.jsx:35-36 | for digit strings of equal length, string order is numeric order |
| Selection.ToggleKeepsValid | resqvision/src/components/ResponseDashboard.jsx:60-64 | toggling one of the options keeps a selection non-empty, duplicate-free and drawn from the options |
| Selection.ToggleKeepsSelection | resqvision/src/components/IncidentSeverityDashboard.jsx:48-52 | a duplicate-free selection stays duplicate-free and is never emptied |
| Selection.ToggleCases | resqvision/src/components/ResponseDashboard.jsx:60-64 | the only selected value stays; another selected value is removed with the others kept in order; an unselected value is appended |
| Selection.ToggleFlips | resqvision/src/components/ResponseDashboard.jsx:60-64 | apart from the guarded last value, a toggle flips the membership of the value and of nothing else |
| Selection.ToggleHiddenFlips | resqvision/src/components/charts/IncidentTrendsChart.jsx:150-154 | the legend click flips whether that type is hidden and nothing else |
| Selection.ToggleHiddenTwice | resqvision/src/components/charts/IncidentTrendsChart.jsx:150-154 | two clicks restore the hidden set, and the very array when the type was not hidden |
| Selection.ToggleHiddenNoDup | resqvision/src/components/charts/IncidentTrendsChart.jsx:150-154 | the hidden list stays duplicate-free |
| Rows.WindowFilter | resqvision/src/components/charts/IncidentTrendsChart.jsx:31-37 | a row is kept iff its region and category are selected strings and its MonthYear is in the inclusive range; kept rows stay in order |
| Rows.CountOrOneAtLeastOne | resqvision/src/components/charts/IncidentBarChart.jsx:53 | `Count \|\| 1` weighs a row with a missing or non-negative count at least 1, and a positive count as itself |
| Rows.MeanResponseDefined | resqvision/src/components/charts/ResponseHeatmap.jsx:29 | a group's mean response time is defined iff some row of it has one |
| Rows.MeanResponseBetween | resqvision/src/components/charts/ResponseHeatmap.jsx:29 | a defined mean lies between any bounds of the group's response times |
| Stats.MeanDefined | resqvision/src/components/charts/AmbulanceAvailabilityChart.jsx:22 | `d3.mean` is defined exactly when some value is present |
| Stats.MeanBetween | resqvision/src/components/charts/AmbulanceAvailabilityChart.jsx:22 | a defined mean lies between any lower and upper bound of the values |
| Aggregate.RollupsShape | resqvision/src/components/charts/IncidentBarChart.jsx:51-55 | a rollup has one entry per distinct key, its keys are `KeysOf` and come in the order of each key's first row, and each entry holds the reduction of exactly that key's rows |
| Aggregate.KeysOfOrder | resqvision/src/components/IncidentByRegionChart.jsx:25 | the distinct keys come in the order of their first rows: a key listed earlier first occurs earlier |
| Seqs.DistinctOrder | resqvision/src/components/charts/WeatherHeatmap.jsx:50 | `Array.from(new Set(s))` lists its values in the order they first occur in `s` |
| Seqs.FilterOrder | resqvision/src/components/charts/InjuriesResponseLineChart.jsx:136 | filtering a duplicate-free sequence keeps its values distinct and in their order |
| Aggregate.RollupsConserve | resqvision/src/components/charts/IncidentBarChart.jsx:51-55 | summing the groups' sums gives the sum over all rows |
| Sorting.SortByRankCorrect | resqvision/src/components/charts/SeverityBarChart.jsx:41 | the sort orders by rank and is a permutation of its input |
| Sorting.SortByRankStable | resqvision/src/components/charts/SeverityBarChart.jsx:41 | the sort is stable: the elements of each rank come out in their input order |
| Sorting.SortByTextCorrect | resqvision/src/components/charts/IncidentTrendsChart.jsx:117 | the sort orders by the text key and is a permutation of its input |
| Sorting.SortDistinctStrings | resqvision/src/components/charts/IncidentTrendsChart.jsx:79 | sorting distinct strings gives them in strictly ascending order |
| DashboardFile.GetDashboardFile | resqvision/src/utils/getDashboardFile.js:1-12 | a truthy prefix gives `/data/<chartKey>_<prefix>.json`; no prefix or an empty one gives the fallback path |
| DashboardFile.PrefixedIgnoresFallback | resqvision/src/utils/getDashboardFile.js:6-8 | with a prefix the fallback path plays no part |
| DashboardFile.PrefixedShape | resqvision/src/utils/getDashboardFile.js:7 | a prefixed path starts with `/data/` and ends with `.json` |
| DashboardFile.PrefixedInjective | resqvision/src/utils/getDashboardFile.js:7 | distinct prefixes select distinct files for one chart |
| DashboardFile.ChooseSource | resqvision/src/components/charts/IncidentTrendsChart.jsx:175-183 | uploaded rows are used iff the stored mode is 'client-upload' and an upload exists; otherwise the file that `getDashboardFile` names |
| DashboardFile.UploadModeWithoutData | resqvision/src/components/charts/IncidentBarChart.jsx:133-142 | in upload mode with nothing uploaded, the file `/data/<chartKey>_client-upload.json` is fetched |
| DashboardFile.NothingStored | resqvision/src/utils/getDashboardFile.js:11 | with nothing stored the fallback file is fetched |
| IncidentTrends.Filtered | resqvision/src/components/charts/IncidentTrendsChart.jsx:27-37 | a row is kept iff its region and incident type are selected and its MonthYear lies between the converted labels; the kept rows stay in order |
| IncidentTrends.FlattenAggregated | resqvision/src/components/charts/IncidentTrendsChart.jsx:71-76 | the nested loop pushes exactly one entry per (month, type) pair of the rollup, in rollup order |
| IncidentTrends.FlatDataDistinct | resqvision/src/components/charts/IncidentTrendsChart.jsx:63-76 | no two entries share their (MonthYear, Incident_Type) pair |
| IncidentTrends.FlatDataEntries | resqvision/src/components/charts/IncidentTrendsChart.jsx:63-76 | every entry comes from a pair of the kept rows and holds that pair's `sum(Count \|\| 1)` |
| IncidentTrends.FlatDataCovers | resqvision/src/components/charts/IncidentTrendsChart.jsx:63-76 | every (MonthYear, Incident_Type) pair of the kept rows has an entry |
| IncidentTrends.FlatDataConserves | resqvision/src/components/charts/IncidentTrendsChart.jsx:63-76 | the entries' counts add up to `sum(Count \|\| 1)` over all kept rows |
| IncidentTrends.AllMonthsShape | resqvision/src/components/charts/IncidentTrendsChart.jsx:79 | the month axis holds each kept month once, in strictly ascending string order |
| IncidentTrends.TickInterval | resqvision/src/components/charts/IncidentTrendsChart.jsx:91 | the interval is 1 up to 6 months, 2 up to 12 and 3 beyond |
| IncidentTrends.TicksShape | resqvision/src/components/charts/IncidentTrendsChart.jsx:95 | the j-th tick is month j*k; the tick count is the number of multiples of k below the month count; the first month is always a tick |
| IncidentTrends.LinesShape | resqvision/src/components/charts/IncidentTrendsChart.jsx:108-117 | a hidden type draws no line; every other type of the series draws exactly its own entries, sorted by month |
| IncidentTrends.Render | resqvision/src/components/charts/IncidentTrendsChart.jsx:26-123 | the no-data message iff no row is kept; otherwise the flattened series, the month axis, its ticks and the visible lines |
| IncidentTrends.DataSource | resqvision/src/components/charts/IncidentTrendsChart.jsx:175-183 | uploaded trends iff upload mode with an upload; otherwise `/data/incident_trends_<prefix>.json` or `/data/incident_trends.json` |
| IncidentBar.Filtered | resqvision/src/components/charts/IncidentBarChart.jsx:28-34 | a row is kept iff its region and incident type are selected and its MonthYear lies between the converted labels, in order |
| IncidentBar.Render | resqvision/src/components/charts/IncidentBarChart.jsx:38-55 | the no-data message iff no row is kept, otherwise the per-type bars |
| IncidentBar.IncidentCountsShape | resqvision/src/components/charts/IncidentBarChart.jsx:51-55 | one bar per distinct incident type of the kept rows, in first-occurrence order, holding that type's `sum(Count \|\| 1)` |
| IncidentBar.IncidentCountsConserve | resqvision/src/components/charts/IncidentBarChart.jsx:51-55 | the bars add up to `sum(Count \|\| 1)` over every kept row |
| IncidentBar.DataSource | resqvision/src/components/charts/IncidentBarChart.jsx:133-142 | uploaded counts iff upload mode with an upload; otherwise `/data/incident_type_counts_<prefix>.json` or the monthly file |
| SeverityBar.IndexOf | resqvision/src/components/charts/SeverityBarChart.jsx:41 | `indexOf` gives the first position of the value, or -1 iff it is not listed |
| SeverityBar.Filtered | resqvision/src/components/charts/SeverityBarChart.jsx:23-32 | a row is kept iff its region and incident type are selected and its MonthYear lies between the converted labels, in order |
| SeverityBar.Render | resqvision/src/components/charts/SeverityBarChart.jsx:9-62 | nothing iff a selection is empty or a month label is falsy; otherwise the no-data message when no row is kept, else the sorted bars |
| SeverityBar.SeverityOrder | resqvision/src/components/charts/SeverityBarChart.jsx:34-41 | a bar ranked lower in Low, Medium, High comes before a higher one, and an unlisted severity comes before all three |
| SeverityBar.SeverityTies | resqvision/src/components/charts/SeverityBarChart.jsx:34-41 | bars of equal rank, such as several unlisted severities or a missing one, keep the rollup's first-occurrence order |
| SeverityBar.SortedBarsElements | resqvision/src/components/charts/SeverityBarChart.jsx:35-41 | the sorted bars are the rollup's bars rearranged |
| SeverityBar.SeverityCountsDistinct | resqvision/src/components/charts/SeverityBarChart.jsx:35-41 | no severity has two bars |
| SeverityBar.SeverityCountsPresent | resqvision/src/components/charts/SeverityBarChart.jsx:35-41 | a severity has a bar iff some kept row has it |
| SeverityBar.UnsortedSeverities | resqvision/src/components/charts/SeverityBarChart.jsx:35-40 | before sorting, the bars' severities are the distinct severities in first-occurrence order |
| SeverityBar.SeverityCountsValues | resqvision/src/components/charts/SeverityBarChart.jsx:37 | each bar holds its severity's Count sum, a missing count adding nothing |
| SeverityBar.SeverityCountsConserve | resqvision/src/components/charts/SeverityBarChart.jsx:35-41 | the bars add up to the Count sum of every kept row |
| InjuriesResponse.Filtered | resqvision/src/components/charts/InjuriesResponseLineChart.jsx:18-24 | a row is kept iff its region and level are selected and its MonthYear is in the time range, in order |
| InjuriesResponse.DefaultWindow | resqvision/src/components/charts/InjuriesResponseLineChart.jsx:7 | with the default range a well-formed key is kept iff its year is 2018 to 2024 |
| InjuriesResponse.AggregatedDistinct | resqvision/src/components/charts/InjuriesResponseLineChart.jsx:27-38 | no two points share their (Emergency_Level, Number_of_Injuries) pair |
| InjuriesResponse.AggregatedPoints | resqvision/src/components/charts/InjuriesResponseLineChart.jsx:27-38 | every point comes from a pair of the kept rows and holds those rows' mean response time |
| InjuriesResponse.AggregatedCovers | resqvision/src/components/charts/InjuriesResponseLineChart.jsx:27-38 | every pair of the kept rows has a point |
| InjuriesResponse.LinesShape | resqvision/src/components/charts/InjuriesResponseLineChart.jsx:41-100 | one line per level of the points; each holds exactly that level's points, ascending by injury count when every point has one |
| InjuriesResponse.SortedLineShape | resqvision/src/components/charts/InjuriesResponseLineChart.jsx:100 | the sorted line keeps its level and its points, ascending by injury count when every point has one |
| InjuriesResponse.ColorDomain | resqvision/src/components/charts/InjuriesResponseLineChart.jsx:69-120 | the colour domain starts with Minor, Major, Critical, then gains each drawn level it lacks; it holds exactly those values, once each |
| InjuriesResponse.ColorDomainOrder | resqvision/src/components/charts/InjuriesResponseLineChart.jsx:99-120 | after the three standard levels the domain holds only other drawn levels, in the order they were first drawn |
| InjuriesResponse.LegendEntries | resqvision/src/components/charts/InjuriesResponseLineChart.jsx:136 | the legend's data are the domain values that `includes` matches |
| InjuriesResponse.Legend | resqvision/src/components/charts/InjuriesResponseLineChart.jsx:136 | the legend lists a level iff it is selected and is a standard level or a drawn one, each once, in domain order |
| InjuriesResponse.LegendOrder | resqvision/src/components/charts/InjuriesResponseLineChart.jsx:69-136 | the selected standard levels come first, Minor before Major before Critical, then the other drawn levels in drawing order |
| InjuriesResponse.ChartLegend | resqvision/src/components/charts/InjuriesResponseLineChart.jsx:18-136 | on the chart a level is in the legend iff it is selected and it is a standard level or the level of some kept row |
| ResponseHeatmap.Filtered | resqvision/src/components/charts/ResponseHeatmap.jsx:18-24 | a row is kept iff its region and level are selected and its MonthYear is in the time range, in order |
| ResponseHeatmap.DefaultWindow | resqvision/src/components/charts/ResponseHeatmap.jsx:7 | with the default range a well-formed key is kept iff its year is 2018 to 2024 |
| ResponseHeatmap.GroupedDistinct | resqvision/src/components/charts/ResponseHeatmap.jsx:27-38 | no two cells share their (Road_Type, Distance_Bin) pair |
| ResponseHeatmap.GroupedCells | resqvision/src/components/charts/ResponseHeatmap.jsx:27-38 | every cell comes from a pair of the kept rows and holds those rows' mean response time |
| ResponseHeatmap.GroupedCovers | resqvision/src/components/charts/ResponseHeatmap.jsx:27-38 | every pair of the kept rows has a cell |
| ResponseHeatmap.RoadTypes | resqvision/src/components/charts/ResponseHeatmap.jsx:53 | the road axis lists each road type of the cells once |
| ResponseHeatmap.DistanceBins | resqvision/src/components/charts/ResponseHeatmap.jsx:54 | the distance axis lists each bin of the cells once |
| ResponseHeatmap.AxesOfKeptRows | resqvision/src/components/charts/ResponseHeatmap.jsx:53-54 | the axes list exactly the road types and distance bins of the kept rows |
| AmbulanceAvailability.Filtered | resqvision/src/components/charts/AmbulanceAvailabilityChart.jsx:14-18 | a row is kept iff its region and level are selected, with no month test, in order |
| AmbulanceAvailability.FilterIgnoresMonth | resqvision/src/components/charts/AmbulanceAvailabilityChart.jsx:14-18 | changing only a row's MonthYear does not change whether it is kept |
| AmbulanceAvailability.AggregatedShape | resqvision/src/components/charts/AmbulanceAvailabilityChart.jsx:20-27 | one bar per availability value in first-occurrence order; each holds its non-empty group's mean, defined iff some row has a response time |
| WeatherHeatmap.Filtered | resqvision/src/components/charts/WeatherHeatmap.jsx:31-40 | a row is kept iff its region is selected, its traffic equals the chosen value and its MonthYear lies between the converted labels, in order |
| WeatherHeatmap.RoadTypes | resqvision/src/components/charts/WeatherHeatmap.jsx:50 | the road axis lists each road type of the kept rows once |
| WeatherHeatmap.DrawCells | resqvision/src/components/charts/WeatherHeatmap.jsx:63-66 | the nested loop draws the cells of the grid specification, weather by weather |
| WeatherHeatmap.Render | resqvision/src/components/charts/WeatherHeatmap.jsx:31-66 | the drawn cells are the grid over the rollup's weather keys and the kept road types |
| WeatherHeatmap.GridCellsMembers | resqvision/src/components/charts/WeatherHeatmap.jsx:63-66 | a cell is drawn iff its weather and road are on the axes and the nested lookup gives a value |
| WeatherHeatmap.OuterLookup | resqvision/src/components/charts/WeatherHeatmap.jsx:42-47 | `grouped.get(w)` finds the rollup of the rows with that weather iff some kept row has it |
| WeatherHeatmap.InnerLookup | resqvision/src/components/charts/WeatherHeatmap.jsx:42-47 | the inner `get(r)` finds the mean of the rows with that road iff some row has it |
| WeatherHeatmap.CellValueOfGrouped | resqvision/src/components/charts/WeatherHeatmap.jsx:65 | the nested lookup gives the mean of the rows with that weather and road, and nothing for a pair no kept row has |
| WeatherHeatmap.DrawnCells | resqvision/src/components/charts/WeatherHeatmap.jsx:63-66 | a cell (w, r) is drawn iff some kept row has weather w and road r and their mean is defined; it holds that mean |
| IncidentByRegion.RegionFiltered | resqvision/src/components/IncidentByRegionChart.jsx:33-35 | 'All' keeps every row; otherwise a row is kept iff its region is the selected one, in order |
| IncidentByRegion.IncidentTypes | resqvision/src/components/IncidentByRegionChart.jsx:25 | each incident type of the data once, a missing type included |
| IncidentByRegion.TypesIffData | resqvision/src/components/IncidentByRegionChart.jsx:31 | there are incident types exactly when there is data |
| IncidentByRegion.GroupedShape | resqvision/src/components/IncidentByRegionChart.jsx:44 | one group per region of the kept rows, each holding exactly that region's rows in order |
| IncidentByRegion.StackValueFirstMatch | resqvision/src/components/IncidentByRegionChart.jsx:51-54 | the stack value is the Count of the group's first row of that type, or 0 when no row has the type |
| Export.CsvOfNothing | resqvision/src/components/ResponseDashboard.jsx:103-107 | nothing to export gives the empty text |
| Export.CsvLines | resqvision/src/components/ResponseDashboard.jsx:103-107 | with no newline in names or values, the text splits into the header and one line per row |
| Export.HeaderFields | resqvision/src/components/ResponseDashboard.jsx:103-105 | with no comma in the names, the header splits into the first row's keys |
| Export.LineFields | resqvision/src/components/ResponseDashboard.jsx:106 | with no comma in the values, a row's line splits into its values in header order, a missing column giving an empty field |
| Export.LineOfRowWithHeaderKeys | resqvision/src/components/IncidentSeverityDashboard.jsx:101-104 | a row with exactly the header's fields is written value by value in its own field order |
| Export.CommaInValueIsNotQuoted | resqvision/src/components/IncidentSeverityDashboard.jsx:104 | a comma inside a value splits it across two fields, since nothing is quoted |
| Export.Matching | resqvision/src/components/ResponseDashboard.jsx:95 | a row is exported iff the predicate keeps it, and the exported rows keep their order |
| Export.NoMonthNoExport | resqvision/src/components/ResponseDashboard.jsx:116-120 | rows with no MonthYear field are never exported |
| Export.ExportFiltered | resqvision/src/components/ResponseDashboard.jsx:92-111 | JSON iff the format is "json"; the name gets `.json` or `.csv`; JSON holds exactly the kept rows in their order; CSV is the serialisation of the kept rows, empty with no kept row and has one line more than there are kept rows |
| ResponseDashboard.DownloaderDefined | resqvision/src/components/ResponseDashboard.jsx:81-87 | a download starts iff the target is chart1, chart2 or chart3 and the format is json or csv; predicate and format pass through |
| ResponseDashboard.DownloaderInjective | resqvision/src/components/ResponseDashboard.jsx:82-86 | distinct (target, format) pairs start distinct downloads |
| ResponseDashboard.DownloadName | resqvision/src/components/ResponseDashboard.jsx:113-183 | the saved file is the chart's output name, a dot and the format |
| ResponseDashboard.Dashboard.constructor | resqvision/src/components/ResponseDashboard.jsx:46-51 | everything selected, the full 84-month range, menu and toast closed |
| ResponseDashboard.Dashboard.ToggleRegion | resqvision/src/components/ResponseDashboard.jsx:204 | the regions become their toggle and nothing else changes; the state stays valid |
| ResponseDashboard.Dashboard.ToggleLevel | resqvision/src/components/ResponseDashboard.jsx:226 | the levels become their toggle and nothing else changes; the state stays valid |
| ResponseDashboard.Dashboard.SetTimeRange | resqvision/src/components/ResponseDashboard.jsx:247 | the slider pair is set and nothing else changes |
| ResponseDashboard.Dashboard.ExportClick | resqvision/src/components/ResponseDashboard.jsx:66-69 | the menu opens for that chart and nothing else changes |
| ResponseDashboard.Dashboard.Close | resqvision/src/components/ResponseDashboard.jsx:71-74 | the menu closes and its target is cleared |
| ResponseDashboard.Dashboard.HandleDownload | resqvision/src/components/ResponseDashboard.jsx:81-90 | the looked-up download with the current predicate; when found, toast open and menu closed; when the lookup fails, no change |
| IncidentSeverityDashboard.DownloaderDefined | resqvision/src/components/IncidentSeverityDashboard.jsx:69-76 | no download iff the target is not a chart; otherwise the current predicate, JSON iff "json" was asked for |
| IncidentSeverityDashboard.Chart1AndChart3SameSource | resqvision/src/components/IncidentSeverityDashboard.jsx:111-181 | the chart1 and chart3 exports read the same file under the same predicate and differ only in name |
| IncidentSeverityDashboard.DownloadName | resqvision/src/components/IncidentSeverityDashboard.jsx:69-79 | the saved file is the chart's output name with `.json` only for "json", `.csv` otherwise |
| IncidentSeverityDashboard.Dashboard.constructor | resqvision/src/components/IncidentSeverityDashboard.jsx:38-43 | all regions and incident types selected, the full range, menu and toast closed |
| IncidentSeverityDashboard.Dashboard.ToggleRegion | resqvision/src/components/IncidentSeverityDashboard.jsx:203 | the regions become their toggle and nothing else changes; the state stays valid |
| IncidentSeverityDashboard.Dashboard.ToggleIncident | resqvision/src/components/IncidentSeverityDashboard.jsx:227 | the incident types become their toggle and nothing else changes; the state stays valid |
| IncidentSeverityDashboard.Dashboard.SetTimeRange | resqvision/src/components/IncidentSeverityDashboard.jsx:249 | the slider pair is set and nothing else changes |
| IncidentSeverityDashboard.Dashboard.ExportClick | resqvision/src/components/IncidentSeverityDashboard.jsx:54-57 | the menu opens for that chart and nothing else changes |
| IncidentSeverityDashboard.Dashboard.Close | resqvision/src/components/IncidentSeverityDashboard.jsx:59-62 | the menu closes and its target is cleared |
| IncidentSeverityDashboard.Dashboard.HandleDownload | resqvision/src/components/IncidentSeverityDashboard.jsx:69-79 | the download the if/else chain starts, if any; the toast opens and the menu closes in every case |
| Preprocess.YearOf | resqvision/scripts/preprocess_response_data.py:14-15 | the year is present iff the timestamp is, and is the timestamp's year |
| Preprocess.BinIntervals | resqvision/scripts/preprocess_response_data.py:57-59 | bin i holds exactly the distances from its lower edge up to, not including, the next edge |
| Preprocess.BinTotal | resqvision/scripts/preprocess_response_data.py:57-59 | every distance of at least 0 gets exactly one of the six labels |
| Preprocess.NoBin | resqvision/scripts/preprocess_response_data.py:59 | a missing or negative distance gets no bin |
| Preprocess.KeyTuple | resqvision/scripts/preprocess_response_data.py:21 | a row has a key tuple iff every key column is present, and its parts are those columns' values |
| Preprocess.OutputColumns | resqvision/scripts/preprocess_response_data.py:25-31 | the three outputs' column orders and the column each one averages |
| Preprocess.Keyed | resqvision/scripts/preprocess_response_data.py:21 | `groupby` keeps exactly the rows with every key column present |
| Preprocess.Group | resqvision/scripts/preprocess_response_data.py:39 | a group holds exactly the rows with that key tuple |
| Preprocess.GroupByShape | resqvision/scripts/preprocess_response_data.py:20-24 | one entry per key tuple that occurs; each group is non-empty and its mean skips missing values |
| Preprocess.HeatmapShape | resqvision/scripts/preprocess_response_data.py:62-67 | the heatmap has one entry per key tuple that occurs with a measured response time, and every entry has a mean |
| Preprocess.HeatmapIgnoresUnbinned | resqvision/scripts/preprocess_response_data.py:59-66 | rows without a distance bin change nothing in the heatmap |
| Preprocess.Frame.constructor | resqvision/scripts/preprocess_response_data.py:11 | the frame holds the loaded rows |
| Preprocess.Frame.AddYear | resqvision/scripts/preprocess_response_data.py:14-15 | each row gets its timestamp's year and nothing else changes |
| Preprocess.Frame.AddDistanceBin | resqvision/scripts/preprocess_response_data.py:57-59 | each row gets the bin of its distance and nothing else changes |
| Preprocess.UnbinnableRowsHaveNoBin | resqvision/scripts/preprocess_response_data.py:59 | after binning, a row with a missing or negative distance has no bin |
| Preprocess.Run | resqvision/scripts/preprocess_response_data.py:11-79 | for rows whose timestamps arrive parsed, the ambulance and injury outputs group the year-annotated rows; the heatmap groups the binned rows and drops missing means |

## Left out

- Rendering is not modelled: SVG, d3 scales, colours, stack layout, tooltips, MUI layout and the textual number format (`toFixed`, `.2s`).
- I/O becomes parameters or is left out: `fetch`, `d3.json`, `saveAs`, `Blob`, `JSON.stringify`, `read_csv`, `to_json` and `os`. `exportFiltered` takes the loaded rows as an argument and returns what would be saved.
- The browser's storage is a parameter (`None` when nothing is stored). The upload context (`useDashboardData`) is a parameter too.
- The toast's 1.5-second `setTimeout` is left out, because clocks are outside the model.
- Floating point is left out. Means are exact ratios of reals, and a number in an exported row is kept as the text `String(n)` gives it.
- Text.LexLe: Dafny characters are Unicode code points, so the model compares code points where JavaScript compares UTF-16 code units. The two orders differ when a supplementary-plane character (U+10000 and up, two code units starting D800-DBFF) is compared against one in U+E000-U+FFFF: JavaScript puts the supplementary one first. A lone surrogate cannot be written as a Dafny `char`, so strings holding one are not modelled.
- Sorting.SortByText: `localeCompare` in the trends chart's line sort is modelled as the plain string order. The two agree on the `YYYY-MM` month keys that chart sorts (IncidentTrendsChart.jsx:117), which are equal-length strings of digits and a hyphen. Other strings can order differently under locale collation: letter case (`"a".localeCompare("B")` is negative while `"B" < "a"`), punctuation and non-ASCII characters.
- `Object.keys` puts integer-like keys first. The model takes a row's fields in the order given.
- Nested JSON values (arrays, objects) in exported rows are not modelled; a value is a string, a number, a boolean or `null`.
- The slider labels (`new Date(2018, i).toLocaleString(...)`) depend on the locale. The dashboards take the 84 labels as a constructor argument.
- ResponseDashboard.Dashboard.HandleDownload: a target or format with no entry in the `downloaders` object throws. That is modelled as no download and no state change, which also holds for a target naming an inherited `Object.prototype` member with the format "json" or "csv". A format naming an inherited member (`toString`, `valueOf`, `constructor`, ...) is not modelled. The source calls that member without throwing, opens the toast and closes the menu, while the model changes nothing. The menu only ever passes "json" or "csv" (ResponseDashboard.jsx:345-346).
- pandas sorts `groupby` output by key. The model lists groups in first-occurrence order, so the row order of the three JSON outputs is not modelled; their contents are.
- The categorical `Distance_Bin` grouping also lists unobserved combinations. `.dropna()` removes them, along with every other missing mean, so the heatmap model groups the observed combinations and then drops missing means.
- Preprocess.YearOf: the time of day of a timestamp is not modelled. Neither is the float `Year` column pandas produces when a timestamp is missing.
- The link between the script's outputs and the charts' inputs is not modelled; the charts read records whose fields are given. The script writes `Year` and no `MonthYear`. `Export.NoMonthNoExport` states what an export of such rows gives.
- MonthKey.MonthCodeText, MonthKey.ConvertToMonthYear: a month name that is a property every object inherits (`constructor`, `toString`, `__proto__`, ...) finds that member in the source, and the template then renders the member's text. The model gives `"undefined"` for these names, so `MonthKey.ConvertUnknownMonth` excludes them. The slider labels never produce such a name.
- Preprocess.Run: timestamps arrive parsed. `pd.to_datetime` parsing is not modelled, and neither is the exception it raises on an unparseable `Timestamp`, after which the script writes no file.
- JSON `null` and a missing field are both `None`. The two agree for `includes`, `===`, the window test, `Count || 1`, `d3.sum` and `d3.mean`. They differ as group keys (`new Set`, `d3.groups`, `d3.rollups`), where `null` and `undefined` form separate groups that the model merges. They also differ in the injuries sort comparator, where `null` counts as 0 and a missing value gives `NaN`.
- InjuriesResponse.LinesShape: the ascending order is proved only when every point has a `Number_of_Injuries`. With a missing one, the JavaScript comparator returns `NaN`, so what the sort returns depends on the engine.
- IncidentTrends.AllMonths requires every kept row to have a MonthYear. This holds because the window test fails on a missing one (`IncidentTrends.Render` states it).
- `ChartContainer`, `FilterPanel`, `HomePage`, `App`, the upload context and the other pages are not part of this model.
