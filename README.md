# Türkiye earthquake viewer — verified model of the data core

The viewer is a React application. It fetches live earthquake records from the
Kandilli Observatory feed and normalises them into one record shape. It flags
shallow strong events as anomalies. It then shows the records on a map, in a
sortable list, on a detail page and on an analytics page. This project models in
Dafny the parts of it that compute things:

- the service that normalises, sorts and range-filters the feed (`QuakeService`);
- the earthquake store, with its raw list, filtered view, counters and filter
  specification (`QuakeStore`);
- the UI-state store (`UiState`);
- the statistics of the analytics page (`Analytics`);
- the list page's sort and colour classes (`ListView`);
- the detail page's selection, classifiers and fallbacks (`DetailView`);
- the map's marker colours, tile attribution and move handler (`QuakeMap`).

Shared modules hold the record types and magnitude bands (`Types`), the JavaScript
string operations the normaliser uses (`Text`), `filter` and subsequences (`Seqs`),
and the stable comparator sort of `Array.prototype.sort` (`Sorting`).

Modelling conventions:

- Magnitudes, depths and coordinates are `real`. The only formula,
  `(mag*10 + (100-depth))/2`, is exact over the reals.
- Timestamps are integer milliseconds.
- Each store is a class whose actions are atomic methods with field frames.
- A network fetch is an input value: a payload with its status flag, or a failure.
- The clock is a parameter (`now`).
- `new Date(string)` applied to a record's date or to a fetch bound is a
  parameter function. It yields an instant, or None for an Invalid Date, against
  which every comparison is false.
- The filter bounds in the store's `dateRange` are `Date` objects or null, so each
  side has three states: `Unset` (null, no bound), `InvalidDate` (a truthy object
  holding NaN, whose step runs and keeps nothing) and `Instant(t)`.

Facts about the code that the model keeps:

- The viewer reads a single provider, Kandilli.
- A failed fetch falls back to two fixed mock records.
- There is no merge across providers, no deduplication and no aggregate error.
- Malformed numbers are kept as they are; they are not defaulted to zero.
- `applyFilters` keeps the raw list's order; it does not sort.
- The service never throws, so a failed fetch replaces the store's data with the
  mock list rather than keeping the previous data.

## Model

| member | source | states |
|---|---|---|
| Types.FindById | src/services/earthquakeService.ts:243 | `find` by id: nothing exactly when no record has the id, otherwise the record at the first index carrying it |
| Types.MergeLaws | src/stores/earthquake.ts:96 | the `{...eq, ...updates}` spread: an empty patch keeps the record, applying a patch twice equals once, and for each of the fourteen fields a supplied value wins while an unsupplied one keeps the record's |
| Types.BandsPartition | src/views/AnalyticsView.tsx:46 | the five magnitude bands `<3, 3-4, 4-5, 5-6, ≥6` (lower bounds inclusive) cover every magnitude and do not overlap |
| Text.Split | src/services/earthquakeService.ts:107 | `split` with one separator always yields at least one piece |
| Text.SplitJoin | src/services/earthquakeService.ts:107 | joining the pieces of a split gives the input back and no piece contains the separator |
| Text.FirstPiece | src/services/earthquakeService.ts:107 | the first piece is the longest separator-free prefix; there is one piece exactly when the separator is absent |
| Text.SecondPiece | src/services/earthquakeService.ts:109 | with two or more pieces, the second is the first piece of what follows the first separator |
| Text.ReplaceAll | src/services/earthquakeService.ts:108 | `replace(/\./g, '-')` keeps the length and replaces exactly the matching characters |
| Text.Trim | src/services/earthquakeService.ts:121 | `trim` yields a slice of the input with only whitespace cut off at both ends, and it neither starts nor ends with whitespace |
| Text.TrimEmptyIffBlank | src/services/earthquakeService.ts:121 | trimming yields the empty string exactly when the input is all whitespace |
| Sorting.StableSort | src/services/earthquakeService.ts:91 | the comparator sort yields a permutation of its input, non-decreasing in the key |
| Sorting.SortIsStable | src/services/earthquakeService.ts:91 | records with equal keys stay in their input order |
| Sorting.SortDescendingIsStable | src/services/earthquakeService.ts:91 | sorting by the negated key (the `b - a` comparators) is stable as well |
| QuakeService.Transform | src/services/earthquakeService.ts:105-143 | normalised record: id, source Kandilli, timestamp `created_at*1000`, latitude and longitude swapped from `[lon, lat]`, flag iff `mag > 5 && depth < 10`, score `(mag*10+(100-depth))/2` when flagged and 0 otherwise; date, time, location, province and district are the values the derivation lemmas below describe |
| QuakeService.TransformAll | src/services/earthquakeService.ts:88 | the payload is mapped record by record, keeping length and order |
| QuakeService.DateOfRaw | src/services/earthquakeService.ts:107-108 | the date is the raw date-time up to its first space, with every `.` turned into `-` |
| QuakeService.TimeOfRaw | src/services/earthquakeService.ts:107-109 | the time is the text between the first and second spaces, or `00:00:00` when there is no space or that text is empty |
| QuakeService.LocationFallback | src/services/earthquakeService.ts:115 | location falls back from the title to the epicentre name to `Bilinmeyen Konum`, and is never empty |
| QuakeService.ProvinceFallback | src/services/earthquakeService.ts:118 | province is the epicentre name when present and non-empty, and absent otherwise |
| QuakeService.DistrictOfTitle | src/services/earthquakeService.ts:121 | district is the trimmed text before the first `-` of the title, and absent exactly when that text is blank |
| QuakeService.AnomalyScoreAbove70 | src/services/earthquakeService.ts:124-125 | a flagged event always scores above 70 |
| QuakeService.SortNewestFirst | src/services/earthquakeService.ts:91 | the `b.timestamp - a.timestamp` sort yields a permutation ordered newest first |
| QuakeService.FetchLast24Hours | src/services/earthquakeService.ts:182-210 | on failure the mock list; otherwise a permutation of the normalised records at most 24 h older than `now` (each as often as in the payload), newest first |
| QuakeService.FetchByDateRange | src/services/earthquakeService.ts:212-240 | on failure the mock list; otherwise a permutation of the normalised records whose timestamp lies in `[start, end]`, with `end` at 23:59:59 of its day (none if a bound is Invalid Date), newest first |
| QuakeService.EarthquakeService.constructor | src/services/earthquakeService.ts:67 | the cache starts empty |
| QuakeService.EarthquakeService.FetchEarthquakes | src/services/earthquakeService.ts:69-103 | on success the cache becomes the normalised payload sorted newest first and is returned; on a failed status or error the mock list is returned and the cache is unchanged |
| QuakeService.EarthquakeService.GetEarthquakeById | src/services/earthquakeService.ts:242-244 | the first cached record with the id, or nothing exactly when none has it |
| QuakeStore.MergeFiltersLaws | src/stores/earthquake.ts:117-119 | the filter spread: an empty patch keeps the filters, a patch is idempotent, a full patch sets every field |
| QuakeStore.VisibleExactly | src/stores/earthquake.ts:121-159 | the filtered view is a subsequence of the raw list and holds exactly the raw records that meet every enabled criterion |
| QuakeStore.VisibleIdempotent | src/stores/earthquake.ts:121-159 | filtering the filtered view again changes nothing |
| QuakeStore.InvalidBoundEmptiesView | src/stores/earthquake.ts:135-145 | a date bound holding an Invalid Date is truthy, so its step runs and the view is empty whatever the records |
| QuakeStore.DefaultFiltersKeepAll | src/stores/earthquake.ts:161-175 | under the default filters the view is the whole raw list exactly when every record has magnitude in [0,10], depth in [0,1000] and source Kandilli |
| QuakeStore.RescoredSound | src/stores/earthquake.ts:177-196 | after rescoring, every flag and score follow the heuristic and every other field is unchanged |
| QuakeStore.RescoreFreshRecords | src/stores/earthquake.ts:180-189 | records fresh from the normaliser are already rescored, so `detectAnomalies` leaves them unchanged |
| QuakeStore.EarthquakeStore.constructor | src/stores/earthquake.ts:40-59 | empty lists, zero counters, not loading, no error, default filters |
| QuakeStore.EarthquakeStore.FetchEarthquakes | src/stores/earthquake.ts:62-77 | a list replaces raw list and view and sets both counters; a thrown value records its message (or `Unknown error`) and keeps the data; loading ends false |
| QuakeStore.EarthquakeStore.SetEarthquakes | src/stores/earthquake.ts:79-83 | raw list and view become the list and the total is its length |
| QuakeStore.EarthquakeStore.AddEarthquake | src/stores/earthquake.ts:85-92 | the record is prepended, the view is reset to the raw list and the total grows by one |
| QuakeStore.EarthquakeStore.UpdateEarthquake | src/stores/earthquake.ts:94-102 | exactly the records with the id get the patch merged in, with length and order kept; the view is reset |
| QuakeStore.EarthquakeStore.RemoveEarthquake | src/stores/earthquake.ts:104-111 | exactly the records with the id are dropped, the rest keep their order, and the total shrinks by their number |
| QuakeStore.EarthquakeStore.SetLoading | src/stores/earthquake.ts:113 | sets the loading flag only, keeping the store invariant |
| QuakeStore.EarthquakeStore.SetError | src/stores/earthquake.ts:115 | sets the error only, keeping the store invariant |
| QuakeStore.EarthquakeStore.UpdateFilters | src/stores/earthquake.ts:117-119 | only the supplied filter fields change; no list changes and the store invariant is kept |
| QuakeStore.EarthquakeStore.ApplyFilters | src/stores/earthquake.ts:121-159 | the six sequential filter steps give the view of records meeting every enabled criterion, and the anomaly counter counts the view's flagged records |
| QuakeStore.EarthquakeStore.ClearFilters | src/stores/earthquake.ts:161-175 | filters return to the defaults and the view to the whole raw list |
| QuakeStore.EarthquakeStore.DetectAnomalies | src/stores/earthquake.ts:177-196 | every record is rescored, the view is reset and the counter counts the flagged records |
| UiState.MergeMapConfigLaws | src/stores/app.ts:56-58 | merging a full map configuration replaces the old one; an empty patch keeps it |
| UiState.AppStore.constructor | src/stores/app.ts:30-45 | initial state: not loading, no error, disconnected, Ankara-centred zoom 6 (limits 5–18), panels closed, nothing selected, map view |
| UiState.AppStore.SetLoading | src/stores/app.ts:48 | sets the loading flag only |
| UiState.AppStore.SetError | src/stores/app.ts:50 | sets the error; the has-error selector holds exactly when it is non-null |
| UiState.AppStore.ClearError | src/stores/app.ts:52 | the error becomes null and the has-error selector is false |
| UiState.AppStore.SetConnectionStatus | src/stores/app.ts:54 | sets the status; the is-connected selector holds exactly for `connected` |
| UiState.AppStore.UpdateMapConfig | src/stores/app.ts:56-58 | supplied map fields are replaced and the others kept |
| UiState.AppStore.ResetMapConfig | src/stores/app.ts:60-67 | the map configuration returns to the Ankara default |
| UiState.AppStore.ToggleSidebar | src/stores/app.ts:69 | the sidebar flag is negated |
| UiState.AppStore.ToggleFilters | src/stores/app.ts:71 | the filter-panel flag is negated |
| UiState.AppStore.SetSelectedEarthquake | src/stores/app.ts:73 | sets the selection only |
| UiState.AppStore.SetViewMode | src/stores/app.ts:75 | sets the view mode; the is-map-view selector holds exactly for `map` |
| UiState.AppStore.UpdateLastUpdate | src/stores/app.ts:77 | the last update becomes the given instant |
| UiState.ToggleTwice | src/stores/app.ts:69-71 | toggling either panel twice restores it |
| Analytics.MinOf | src/views/AnalyticsView.tsx:34 | `Math.min` of a non-empty list is a lower bound attained by some element |
| Analytics.MaxOf | src/views/AnalyticsView.tsx:33 | `Math.max` of a non-empty list is an upper bound attained by some element |
| Analytics.SumBounds | src/views/AnalyticsView.tsx:32 | the `reduce` sum of values in `[lo, hi]` lies in `[n*lo, n*hi]` |
| Analytics.AverageBounds | src/views/AnalyticsView.tsx:35 | an average lies within any bounds of the averaged values |
| Analytics.AverageBetweenMinAndMax | src/views/AnalyticsView.tsx:32-34 | minimum ≤ average magnitude ≤ maximum |
| Analytics.Tally | src/views/AnalyticsView.tsx:39-49 | the counting `reduce` holds exactly the keys that occur, each mapped to its number of occurrences |
| Analytics.RangeOfIsBand | src/views/AnalyticsView.tsx:46 | a magnitude gets a range label exactly when it lies in that band |
| Analytics.SourceCountsSumToTotal | src/views/AnalyticsView.tsx:39-42 | the per-source counts add up to the total |
| Analytics.RangeCountsSumToTotal | src/views/AnalyticsView.tsx:45-49 | the five range counts add up to the total |
| Analytics.ComputeStats | src/views/AnalyticsView.tsx:23-62 | an empty list keeps the previous stats; otherwise total, anomaly count, attained min and max bracketing every magnitude and the average, both averages, and both distributions counted per key |
| ListView.SortedEarthquakes | src/views/ListView.tsx:20-45 | the sorted copy is a permutation of the filtered list, non-decreasing in the key for `asc` and non-increasing for `desc` |
| ListView.SortKeepsTies | src/views/ListView.tsx:20-45 | records with equal keys keep their filtered-list order in both directions |
| ListView.SameDateTies | src/views/ListView.tsx:33-37 | under the date key two records of the same date compare equal whatever their time |
| ListView.ToggleOrder | src/views/ListView.tsx:90 | the order button always changes the order |
| ListView.ToggleOrderTwice | src/views/ListView.tsx:90 | pressing it twice restores the order |
| ListView.ListColorBands | src/views/ListView.tsx:51-57 | red ≥6, orange [5,6), yellow [4,5), green [3,4), gray <3: a band's class exactly for magnitudes in that band |
| ListView.EmptyStateIffNoRecords | src/views/ListView.tsx:148 | the empty-state card shows exactly when the filtered list is empty |
| DetailView.SelectOnChange | src/views/EarthquakeDetailView.tsx:16-21 | with a non-empty id and list, the first record with the id or none when no record has it; otherwise the previous selection stays |
| DetailView.DetailColorIsListColor | src/views/EarthquakeDetailView.tsx:34-40 | the detail colour equals the list colour for every magnitude and so follows the same bands |
| DetailView.DescriptionRank | src/views/EarthquakeDetailView.tsx:42-50 | the description step is the number of thresholds 3, 4, 5, 6, 7, 8 the magnitude reaches, each inclusive |
| DetailView.DescriptionIsStep | src/views/EarthquakeDetailView.tsx:42-50 | each magnitude gets exactly the description of its step, and the seven descriptions are distinct |
| DetailView.DescriptionMonotone | src/views/EarthquakeDetailView.tsx:42-50 | a larger magnitude never gets a lower step |
| DetailView.DisplayOrUnknown | src/views/EarthquakeDetailView.tsx:132-136 | a missing or empty province or district shows as `Bilinmiyor`; a present one shows as itself |
| DetailView.ScoreShownWithCard | src/views/EarthquakeDetailView.tsx:187-199 | for a normalised record the score is shown exactly when the anomaly card is |
| DetailView.DistrictShown | src/views/EarthquakeDetailView.tsx:136 | a normalised record's district is never empty, so the page shows it or `Bilinmiyor` |
| QuakeMap.MarkerColorBands | src/components/EarthquakeMap.tsx:129-135 | `#dc2626` ≥6, `#ea580c` [5,6), `#f59e0b` [4,5), `#10b981` [3,4), `#6b7280` <3: a band's colour exactly for magnitudes in that band |
| QuakeMap.MarkerAndListAgree | src/components/EarthquakeMap.tsx:129-135 | two magnitudes share a marker colour exactly when they share a list colour |
| QuakeMap.TileUrl | src/components/EarthquakeMap.tsx:123-127 | a tile URL exists exactly for `osm`, `satellite` and `terrain`, the only names the selector and the initial state produce |
| QuakeMap.Attribution | src/components/EarthquakeMap.tsx:174-175 | OpenStreetMap exactly for `osm`, Esri exactly for `satellite`, OpenTopoMap for every other name |
| QuakeMap.ConfigOnMove | src/components/EarthquakeMap.tsx:31-36 | the reported configuration has the map's centre and zoom, and zoom limits 5 and 18 |
| QuakeMap.HandleMapMove | src/components/EarthquakeMap.tsx:27-40 | the move handler reports that configuration and the store's map configuration becomes exactly it |
| QuakeMap.HandleEarthquakeClick | src/components/EarthquakeMap.tsx:151-154 | a marker click selects its record's id |

## Left out

- HTTP, timeouts, headers and console logging are left out. A fetch is an input outcome: a payload with a status flag, or a failure.
- The wall clock (`new Date()`) is a parameter `now`.
- Parsing of date strings by `Date` is an abstract function. For the list's date sort it is total; NaN keys are not modelled.
- A comparator returning NaN leaves JavaScript's sort order implementation-defined, so that case is not modelled.
- `async`/`await` interleaving and the zustand `set`/`get` plumbing are left out. Each action is atomic, so the intermediate `isLoading = true` of `fetchEarthquakes` is not observable.
- `getEarthquakesByLocation` and `calculateDistance` are left out. They are haversine trigonometry on floating point, outside the data core.
- The mock records are modelled as written. No anomaly property is claimed for them: `mock_2` stores 75.5 where the formula gives 71.4.
- Patch values that are present but explicitly `undefined` are not distinguished from absent ones.
- `Text.Trim`: the whitespace set is ECMAScript's WhiteSpace and LineTerminator list, written out; Unicode category Zs beyond that list is not modelled.
- QuakeService.EarthquakeService.FetchEarthquakes: the cache is a value, so a caller holding the returned array and sorting it in place (aliasing) is not modelled.
- Rendering is left out: JSX, `toFixed` formatting, Leaflet map and marker icon construction, zoom buttons, the tile-layer selector widget, and the loading screens.
- The routing tables and the unused `AFADResponse` record type are left out.
- The per-source distribution is keyed by the `Source` value, not by its string name.
- Inside the anomaly card a zero score renders as the text `0` in React; only whether the score block appears is modelled.
