# smart_screen: classifiers, routing and bus-feed extraction

A Dafny model of the pure logic inside a kiosk weather and bus dashboard
built with Dash. Each variant of the dashboard is a Python script, and the
model covers five things they do:

- **Icon classifiers.** `map_temp_to_icon` and `map_rain_to_icon` sort a reading into half-open bands. Each band shows either a Font Awesome icon or the "Get inside!" text. The model covers the two identical copies and the variant in `dash_bootstrap_test.py`. The variant has no band for negative temperatures and has a typo in one class name.
- **Readings fed to the classifiers.** Python's `int()` truncates the forecast floats toward zero. Random test readings come from `random.randint` with inclusive bounds.
- **Page routing.** Two copies of `update_page` handle three pages, and one copy handles two. `display_page` in `dash_test.py` toggles between two pages with arrow links.
- **Bus-feed extraction.** `re.search(r'{.*}', text, re.DOTALL)` and `.group(0)` find the JSON object in the fetched page.
- **Bus table.** The table keeps the first *k* departures of each service, in feed order: three in `aggregated_live_dash.py`, two in `live_bus_times.py`.

Modules, one per concern:

| file | module | what |
|---|---|---|
| wrappers.dfy | `Wrappers` | `Option`, `Result` |
| intervals.dfy | `Intervals` | bands, band tables, and the proof that a chain of adjacent bands partitions the real line |
| icons.dfy | `Icons` | glyphs, rendering to elements, the shared temperature and rain classifiers |
| bootstrap_icons.dfy | `BootstrapIcons` | the `dash_bootstrap_test.py` temperature classifier and its class-name typo |
| readings.dfy | `Readings` | `int()` truncation, the cards' truncated inputs, drawn random readings |
| routing.dfy | `Routing` | `update_page` (three and two pages), `display_page` |
| brace_span.dfy | `BraceSpan` | the regex search as first `{` to last `}`, proved equal to leftmost-longest matching |
| bus_rows.dfy | `BusRows` | feed datatypes, per-service prefix-take, the table, and the append loops |
| bus_pipeline.dfy | `BusPipeline` | extraction, parse and table combined, with its two failure modes |

Each classifier is written as the source's `if`/`elif` cascade. It is checked
against a band table: an ordered list of bands and what each shows. A
general lemma (`Intervals.ChainIsPartition`) shows that each table covers
every reading exactly once. The `...WhichBand` lemmas then show that the
cascade returns exactly the outcome of the band that holds the reading.

The regex search is implemented as "first `{`, last `}` after it". It is
checked against the meaning of `re.search` for a greedy pattern: the match
with the leftmost start and, for that start, the longest end.

The bus table is defined recursively. The loops of the source, which append
one row at a time, are a method proved to build the same table.

The model follows the code on these points:

- The code never sorts departures by minutes across services. Rows stay grouped by service in feed order.
- The code does not report a malformed feed as an error value. It raises when `.group(0)` gets `None`, or when the loop reads an unbound `data`. The model returns these two outcomes as `Failure(NoJsonObject)` and `Failure(DataUnbound)`: both mean "no table".
- The code classifies rain by amount only. There is no cloud-cover classification.
- `aggregated_live_dash.py` says in a comment that it keeps the first two departures, but its slice keeps three. The model keeps three.

## Model

| member | source | states |
|---|---|---|
| Icons.TempOutcome | aggregated_live_dash.py:63-77 | the outcome returned for a temperature is the one every band containing it shows: snowflake below 0; empty, quarter, half, three-quarters and full thermometer on [0,5), [5,10), [10,20), [20,25), [25,30); "Get inside!" from 30 |
| Icons.TempTableIsChain | aggregated_live_dash.py:63-77 | the temperature bands run from below 0 to at least 30, each starting exactly where the previous one ends |
| Icons.TempTableIsPartition | aggregated_live_dash.py:63-77 | every temperature lies in exactly one band: classification is total and the bands never overlap |
| Icons.TempWhichBand | live_dashboard_values.py:62-76 | the classifier returns an outcome exactly when the reading lies in a band showing that outcome (both directions) |
| Icons.MapTempToIcon | live_dashboard_values.py:62-76 | the element is the "Get inside!" paragraph exactly for readings of 30 or more, and shows the classified outcome |
| Icons.RainOutcome | aggregated_live_dash.py:79-91 | the outcome returned for a rain amount is the one of its band: sun at exactly 0, cloud-sun on (0,1), cloud [1,2), cloud-rain [2,4), showers-heavy [4,8), "Get inside!" below 0 and from 8 |
| Icons.RainTableIsChain | live_dashboard_values.py:78-90 | the rain bands, negatives first, are contiguous from below 0 to at least 8 |
| Icons.RainTableIsPartition | live_dashboard_values.py:78-90 | every rain amount lies in exactly one band |
| Icons.RainWhichBand | live_dashboard_values.py:78-90 | the rain classifier returns an outcome exactly when the amount lies in a band showing it |
| Icons.MapRainToIcon | aggregated_live_dash.py:79-91 | the element is the "Get inside!" paragraph exactly for negative amounts and amounts of 8 or more |
| Icons.NoCloudSunForIntegers | aggregated_live_dash.py:82-83 | an integer amount never shows cloud-sun |
| Icons.RenderRoundTrip | aggregated_live_dash.py:63-91 | each outcome is recovered from the element it renders as (class `fa-solid fa-<glyph> fa-10x`, or the 40px "Get inside!" paragraph) |
| Icons.RenderInjective | live_dashboard_values.py:62-90 | two different outcomes never render as the same element |
| BootstrapIcons.TempOutcome | dash_bootstrap_test.py:20-32 | the variant's outcome is the one of its band, with negatives in the "Get inside!" band; it never shows the snowflake |
| BootstrapIcons.BootstrapTempTableIsPartition | dash_bootstrap_test.py:20-32 | the variant's bands cover every temperature exactly once |
| BootstrapIcons.BootstrapTempWhichBand | dash_bootstrap_test.py:21-32 | the variant returns an outcome exactly when the reading lies in a band showing it |
| BootstrapIcons.AgreesWithSharedCopy | dash_bootstrap_test.py:20-32 | the variant agrees with the shared copy on every reading of 0 or more; on every negative reading it shows "Get inside!" where the shared copy shows the snowflake |
| BootstrapIcons.ClassNameAsWritten | dash_bootstrap_test.py:21-30 | the variant's class name equals the shared one exactly for the glyphs other than the full thermometer; the full thermometer's class is the only one not of the `fa-solid fa-<glyph> fa-10x` form |
| BootstrapIcons.MapTempToIconAsWritten | dash_bootstrap_test.py:20-32 | the variant's element, as written: the "Get inside!" paragraph at 40px exactly for negative readings and readings of 30 or more; the shared copy's element on [0,25); the class `fa-solid fa-temperature-full fa-10` on all of [25,30) |
| BootstrapIcons.FullThermometerLacksSizeClass | dash_bootstrap_test.py:29-30 | as written, every reading in [25,30) renders an icon whose class lacks the `fa-10x` size class and is no recognised glyph class |
| BootstrapIcons.MapTempToIcon | dash_bootstrap_test.py:20-32 | with `fa-10x` restored, every icon carries the size class and shows the classified outcome |
| BootstrapIcons.CorrectedMatchesSharedCopy | dash_bootstrap_test.py:21-30 | corrected, the variant renders the same element as the shared copy for every reading of 0 or more |
| Readings.PyInt | aggregated_live_dash.py:163-166 | `int()` truncates toward zero: the result is within 1 of the reading, on the zero side |
| Readings.TemperatureCardOutcome | aggregated_live_dash.py:163-189 | after truncation, the card shows the snowflake exactly for readings of -1 or less, the empty thermometer on (-1,5), "Get inside!" exactly from 30, and outside (-1,0) the same icon as the untruncated reading |
| Readings.PrecipitationCardOutcome | aggregated_live_dash.py:165-224 | after truncation, the card never shows cloud-sun, shows the sun exactly on (-1,1), "Get inside!" exactly at -1 or less or from 8, and outside (-1,1) the same icon as the untruncated reading |
| Readings.SlightFrostShowsEmptyThermometer | live_dashboard_values.py:168-190 | a reading in (-1,0) classifies as snowflake yet the truncated card shows the empty thermometer |
| Readings.DrizzleShowsSun | aggregated_live_dash.py:165-224 | a reading in (0,1) classifies as cloud-sun yet the truncated card shows the sun |
| Readings.DrawnRainOutcome | live_dashboard_values.py:213-236 | for an integer rain amount: sun exactly at 0, cloud exactly at 1, cloud-rain exactly on 2-3, showers-heavy exactly on 4-7, "Get inside!" exactly below 0 or from 8, so never cloud-sun |
| Readings.DrawnRainOutcomes | dash_bootstrap_test.py:16-46 | the outcomes a rain amount drawn from 0..10 can show are exactly sun, cloud, cloud-rain, showers-heavy and "Get inside!" |
| Readings.DrawnTemperatureOutcome | dash_bootstrap_test.py:14-32 | a drawn integer temperature shows an icon exactly when it is in 0..29, never the snowflake, and for every non-negative integer the same outcome as the shared classifier |
| Readings.DrawnTemperatureOutcomes | dash_bootstrap_test.py:14-32 | the outcomes a temperature drawn from 0..40 can show are the five thermometers and "Get inside!", never the snowflake |
| Readings.DrawnHeatGetsInside | dash_bootstrap_test.py:14-32 | a drawn temperature of 30..40 shows the "Get inside!" paragraph at 40px |
| Routing.UpdatePage | aggregated_live_dash.py:377-385 | a layout is shown only for its own exact path; every other pathname, `None` included, gives "404 Page Not Found" |
| Routing.RouteRoundTrip | live_dashboard_values.py:259-267 | serving a layout's path shows that layout |
| Routing.NavbarReachesEveryLayout | aggregated_live_dash.py:100-105 | every navbar link opens a layout, every layout has a navbar link, and the initial pathname `/page-1` (`InitialPathname`) opens page 1 |
| Routing.UpdatePageTwo | dash_bootstrap_test.py:194-200 | only "/page-1" and "/page-2" open a layout; everything else, "/page-3" included, gives the 404 text |
| Routing.TwoPageRouterRestricts | dash_bootstrap_test.py:194-200 | the two-page router agrees with the three-page one on every pathname except "/page-3", which it rejects |
| Routing.DisplayPage | dash_test.py:62-119 | page 2 is shown exactly for "/page-2"; both arrows carry the same href, which is the other page's path |
| Routing.FollowArrowToggles | dash_test.py:80-117 | following either arrow opens the other page |
| Routing.FollowTwiceReturns | dash_test.py:62-119 | following arrows twice, in any mix, returns to the starting page |
| BraceSpan.Search | aggregated_live_dash.py:316 | the span from the first `{` to the last `}` is what `re.search` returns: no span when nothing matches, else the leftmost start and the longest end for it; no `{` before it and no `}` after it |
| BraceSpan.NoSpanIff | live_bus_times.py:16-17 | there is no span exactly when no `}` follows a `{` |
| BraceSpan.SplitAtSpan | live_bus_times.py:16-17 | the text is the part before, the match and the part after; the match opens with `{` and closes with `}`, nothing before it has `{` and nothing after it has `}` |
| BraceSpan.MatchedText | aggregated_live_dash.py:316-322 | `.group(0)` is the text of the span `re.search` returns, from the first `{` to the last `}`; it has at least two characters, so `if json_data` always holds; it is absent exactly when nothing matches |
| BraceSpan.SplitIsUnique | aggregated_live_dash.py:316-317 | any split with a brace-free prefix and suffix around a braced span is the one found: the match is unique |
| BraceSpan.MatchSpansNewlines | live_bus_times.py:16 | with DOTALL the match runs across a newline |
| BraceSpan.MatchIsGreedy | aggregated_live_dash.py:316 | the match runs to the last `}`, past an earlier one |
| BraceSpan.NoMatchWhenClosedFirst | live_bus_times.py:16-17 | a `}` before the only `{` gives no match |
| BusRows.TakePrefix | aggregated_live_dash.py:335 | `departures[:k]` has min(k, length) elements, the first ones in order |
| BusRows.TagRows | live_bus_times.py:36-41 | one row per departure, in order, each with the service name and the departure's minutes and time unchanged |
| BusRows.ServiceRows | aggregated_live_dash.py:334-341 | a service contributes min(k, departures) rows, row j being its departure j |
| BusRows.TableAppend | live_bus_times.py:32-41 | the table of two feeds appended is the two tables appended |
| BusRows.RowCount | live_bus_times.py:32-41 | the table has the sum over services of min(k, departures) rows |
| BusRows.ServiceBlock | aggregated_live_dash.py:332-341 | each service's rows form one contiguous block of min(k, departures) rows, after the blocks of earlier services |
| BusRows.RowAt | live_bus_times.py:33-41 | row j of service i's block equals that service's departure j, tagged with its name |
| BusRows.BlocksInFeedOrder | aggregated_live_dash.py:333-341 | an earlier service's block ends before a later service's block starts: no re-sorting |
| BusRows.RowsComeFromFeed | live_bus_times.py:33-41 | every row is one of the first k departures of some service, fields unchanged |
| BusRows.ServiceRowsPrefix | live_bus_times.py:35 | keeping fewer departures gives a prefix of a service's rows |
| BusRows.AppendServiceRows | aggregated_live_dash.py:336-341 | the inner loop appends exactly the service's rows |
| BusRows.CollectRows | live_bus_times.py:32-41 | the two nested loops build exactly the table |
| BusRows.SingleServiceExample | live_bus_times.py:32-41 | one service with departures at 5 and 15 minutes gives those two rows, in order |
| BusPipeline.BusTable | aggregated_live_dash.py:316-341 | no match gives `NoJsonObject`, exactly; a failed parse gives `DataUnbound`, exactly; otherwise the result is the table of the parsed feed: each service's first k departures in feed order, the sum of min(k, departures) rows, each from the parsed feed; k = 3 is `BusPipeline.DashboardBusTable` (`update_text_3`, aggregated_live_dash.py:335) and k = 2 is `BusPipeline.ScriptBusTable` (live_bus_times.py:35) |
| BusPipeline.SameFailures | live_bus_times.py:16-35 | the two-row and three-row pipelines fail on the same inputs with the same error |
| BusPipeline.EmbeddedFeedScenario | live_bus_times.py:16-41 | a feed object embedded in surrounding text yields its service's two departures in order |
| BusPipeline.NoBracesScenario | live_bus_times.py:16-17 | a page without braces yields no table |

## Left out

- Colour interpolation (`interpolate_colour` in every file, and the float midpoint in `update_text_2` of aggregated_live_dash.py) is not modelled. It is floating-point arithmetic plus matplotlib's named-colour table and hex rounding.
- HTTP fetching is not modelled: the response cache, retries and the Open-Meteo client. The fetched page text and the forecast readings are parameters.
- `json.loads` is not modelled. It is the `parse` parameter, a total function that returns `None` where the library raises `JSONDecodeError`. Feeds missing a `services`, `service_name`, `departures`, `minutes` or `departure_time` key would raise `KeyError`; they are not representable, because the parsed feed is a typed datatype.
- `minutes` is modelled as an integer and `departure_time` as a string. They are copied unchanged, so their JSON types do not matter to any property.
- Elements keep only the icon class, or the paragraph text and font size. The `style` dictionaries and all layout, card, DataFrame and DataTable construction are left out as presentation.
- NaN and infinite readings are not modelled: Python's `int()` raises on them. Readings are `real`.
- The forecast card of `update_text_2` in aggregated_live_dash.py is left out. It reads day 1 of each daily series by position and only formats text and a colour, with no classifier.
- `random.randint` is not modelled. Its results are inputs in the inclusive ranges of its calls. Drawn values that are never classified (`real_feel`, `rain_prob`, the numbers of dash_test.py) are left out.
- Timers (`dcc.Interval`), the server start-up, weather_data.py and asynchronous_test.py are left out. They are scheduling, I/O and printing.
- The printed messages ("Failed to parse JSON data", "No JSON data found.") are not modelled. The second is unreachable, as `BraceSpan.MatchedText` shows.

## Findings

| source | as written | input that shows it | evidently intended | confidence | as-written member | corrected member |
|---|---|---|---|---|---|---|
| dash_bootstrap_test.py:30 | the [25,30) icon has class `fa-solid fa-temperature-full fa-10` | any ambient temperature in [25,30), e.g. 27 | `fa-10x`, the size class every other icon in every copy uses | not executed; high that the class differs, medium that it changes what is displayed | BootstrapIcons.MapTempToIconAsWritten (shown by BootstrapIcons.FullThermometerLacksSizeClass) | BootstrapIcons.MapTempToIcon (BootstrapIcons.CorrectedMatchesSharedCopy) |
