# IMDADIC real-estate anomaly detection — a Dafny model of its core

IMDADIC flags suspicious property transactions in Colombia. This project models the parts of
it that hold logic:

- **Server actions.** `getDashboardData` and `getMapData` read the risk table (a CSV file) and
  aggregate it. The dashboard gets year trends, a severity histogram, the top city, the 50 most
  recent records, KPIs, and department and type distributions. The map gets jittered map points
  with severity counters, an optional department filter, and a cap of 3000 points.
- **Dashboard and map screens.** Chart preparation (top municipalities, type shares, severity
  colours), the dashboard's quick filters and top-city card, the map page's client filters and
  legend, the prediction card (risk percentage, anomaly level, sorted class probabilities), the
  property form (department → municipality list, scenarios, reset), the e-mail dialog's address
  check, and the fraud-alert carousel.
- **Chat.** The persisted chat store, the floating assistant that talks to the backend with a
  session id, the stand-alone help widget, the full-page agent chat, and the chat input box.
- **Backend.** The `PredioInput` request schema, with each field's type and bounds, and the
  load-once model registry `MLModels`.

Each core file has its own module.

- **Pure code** becomes functions that have lemmas next to them.
- **React components and stores** that update state step by step become classes. Each one's
  fields are the component's state, and each handler is a method with `modifies` and a full
  description of the new state.
- **Loops of the source** (the CSV parsing loop, the counting loops, the first-maximum loop,
  the map scan, `load_models`) are methods. Each is proved equal to a specification function,
  and the properties are proved about that function.

Shared helper modules hold the JavaScript behaviour the core relies on:

- `Text`: `trim` with ECMAScript whitespace, one-character `split` and `join`, case maps,
  `replace` and decimal rendering.
- `Grouping`: a `Map` used as a counter, which keeps its keys in first-insertion order, and the
  first-maximum scan.
- `Sorting`: the stable `Array.prototype.sort`.
- `Scan`: `filter`, `map` and capped scans.
- `Csv`: line and field access.

Everything the program gets from its environment is a parameter:

- `parseFloat` becomes `parse` (`None` for `NaN`);
- `toFixed` becomes `fixed`;
- `Math.random` becomes `rand`, with draws `2k` and `2k + 1` for point `k`;
- `new Date(..).getTime()` becomes `time` (a `Clock`);
- `joblib.load` becomes `load`;
- the result of reading a file becomes `Option<string>` (`None` when the read throws).

Asynchronous handlers are split at their `await`. The first method runs up to the request and
returns what is sent, as an out-parameter. The second method (`Settle`) takes the reply or the
failure and applies the rest, including the `finally`.

## Model

| member | source | states |
|---|---|---|
| Anomaly.Classify | frontend/src/app/actions/map.ts:174-184 | The severity is high exactly below -0.05, medium exactly in [-0.05, -0.01), low exactly from -0.01 up |
| Anomaly.ClassifyParsed | frontend/src/app/actions/dashboard.ts:133-136 | A score that does not parse (NaN) is low; a parsed score gets its class |
| Anomaly.ClassifyMonotone | frontend/src/app/actions/dashboard.ts:100-102 | A lower score is never given a less severe class |
| Text.TrimSpec | frontend/src/app/actions/dashboard.ts:47 | `trim` drops exactly the leading and trailing ECMAScript whitespace: what it keeps is a contiguous slice that neither starts nor ends with whitespace, and is empty only for all-whitespace text |
| Text.TrimEmpty | frontend/src/components/chat/ChatInput.tsx:13-14 | `trim` gives the empty string exactly for all-whitespace text |
| Text.TrimIdempotent | frontend/src/app/actions/map.ts:146 | Trimming twice is trimming once |
| Text.JoinSplit | frontend/src/app/actions/dashboard.ts:40 | Joining the pieces of `split("\n")` with the separator gives the file text back |
| Text.SplitJoin | frontend/src/app/actions/dashboard.ts:52 | Splitting a join of separator-free pieces gives the pieces back |
| Text.ReplaceAll | frontend/src/app/actions/map.ts:197 | `replace(/_/g, " ")` keeps the length, removes every underscore and changes no other character |
| Text.RemoveAll | frontend/src/components/chat/ChatWidget.tsx:167 | `replace(/\\/g, '')` leaves no backslash and keeps every other character, with its multiplicity and order |
| Text.RemoveAllIdempotent | frontend/src/components/chat/ChatWidget.tsx:167 | Cleaning an already cleaned text changes nothing |
| Text.UpperIdempotent | frontend/src/app/actions/map.ts:114-115 | Upper-casing an upper-cased name changes nothing |
| Text.LowerIdempotent | frontend/src/app/maps/page.tsx:45-48 | Lower-casing a lower-cased text changes nothing |
| Text.NatToString | frontend/src/app/actions/dashboard.ts:204 | `${n}` is a non-empty string of decimal digits |
| Text.DecimalRoundTrip | frontend/src/app/actions/dashboard.ts:204 | Reading the rendered digits back gives the number |
| Text.NatToStringInjective | frontend/src/app/actions/dashboard.ts:139 | Different numbers render differently |
| Csv.Lines | frontend/src/app/actions/dashboard.ts:40 | A file always splits into at least one line, so `lines[0]` (the header) exists |
| Grouping.BumpSpec | frontend/src/app/actions/dashboard.ts:77 | `m.set(k, (m.get(k) \|\| 0) + 1)` keeps an existing key in place and appends a new one last; only the count of `k` grows, by one |
| Grouping.TallyCorrect | frontend/src/app/actions/dashboard.ts:73-79 | A counting `Map` built by `forEach` has the distinct keys in first-seen order, each counted as often as it occurs, adding up to the number of keys counted |
| Grouping.TallyEntries | frontend/src/components/dashboard/DashboardCharts.tsx:51-55 | Every entry of a counting map is a key that occurs, with its number of occurrences (at least one), and no key appears twice |
| Grouping.DedupSpec | frontend/src/app/actions/dashboard.ts:113-119 | The key order is duplicate-free and lists exactly the keys that occur |
| Grouping.DedupLength | frontend/src/components/dashboard/DashboardCharts.tsx:265 | There are never more distinct keys than keys, and none only when nothing was counted |
| Grouping.FirstMaxKeySpec | frontend/src/app/actions/dashboard.ts:121-128 | The strict `>` scan returns the default when every count is 0; otherwise it returns the key of an entry that no entry outnumbers and that every earlier entry falls short of |
| Grouping.FirstMax | frontend/src/app/actions/dashboard.ts:121-128 | The loop with `best` and `max` computes the first-maximum key |
| Grouping.FirstMaxOfTally | frontend/src/app/dashboard/page.tsx:143-155 | Over a counting map: the default with nothing counted, otherwise a counted key that no key outnumbers and, among those, the first seen |
| Sorting.SortBy | frontend/src/app/actions/dashboard.ts:175 | The sort returns a permutation of its input |
| Sorting.SortBySorted | frontend/src/app/actions/dashboard.ts:173-176 | The sort result is ordered by the comparator throughout (for a total preorder) |
| Sorting.SortByStable | frontend/src/app/actions/dashboard.ts:191-193 | The sort is stable: elements the comparator ties keep their input order |
| Sorting.Take | frontend/src/app/actions/dashboard.ts:176 | `slice(0, n)` keeps the first `min(n, length)` elements unchanged |
| Sorting.TopSpec | frontend/src/components/dashboard/DashboardCharts.tsx:57-60 | Sort-then-slice keeps `min(n, length)` elements of the input, and each kept one precedes every one left out |
| Sorting.SortEntries | frontend/src/app/actions/dashboard.ts:191-193 | Sorting a counting map keeps its keys and its total count |
| Sorting.SortedTally | frontend/src/app/actions/dashboard.ts:173-176 | A sorted counting map still has each distinct key once, with its number of occurrences, adding up to all keys counted |
| Sorting.TopCounts | frontend/src/app/actions/dashboard.ts:173-176 | The top `n` of a counting map: at most `n` distinct keys by non-increasing count, each with its true count, and every key left out is counted no more than any key kept |
| Sorting.SortedCounts | frontend/src/app/actions/dashboard.ts:191-193 | The uncapped sorted counting map: distinct keys by non-increasing count with their true counts, and the counts add up to all keys counted |
| Sorting.ByCountDescTotal | frontend/src/app/actions/dashboard.ts:175 | `b.valor - a.valor` orders entries by a total preorder, so the sort's guarantees apply |
| Sorting.StrLeTotal | frontend/src/app/actions/dashboard.ts:83 | Any two year strings are comparable |
| Sorting.StrLeTrans | frontend/src/app/actions/dashboard.ts:83 | The string order is transitive |
| Sorting.StrLeAntisymmetric | frontend/src/app/actions/dashboard.ts:83 | Strings ordered both ways are equal |
| Sorting.ByKeyAscTotal | frontend/src/app/actions/dashboard.ts:81-83 | Sorting by key with `localeCompare` uses a total preorder |
| Scan.FilterSpec | frontend/src/app/dashboard/page.tsx:124-139 | `filter` keeps the order, and keeps each element that passes as often as it occurs and no other |
| Scan.FilterMembers | frontend/src/app/maps/page.tsx:53-55 | An element is in the filtered sequence exactly when it is in the input and passes |
| Scan.FilterAll | frontend/src/app/maps/page.tsx:42 | A filter that every element passes removes nothing |
| Scan.FilterFuse | frontend/src/app/maps/page.tsx:44-59 | Two filters in a row are one filter by the conjunction of their tests |
| Scan.FilterMapSpec | frontend/src/app/actions/map.ts:154-200 | A scan that keeps some elements and maps them gives, in order, the images of exactly the elements that pass, at increasing indices |
| Scan.FirstKeptIncreasing | frontend/src/app/actions/map.ts:154 | The lines a capped scan keeps are in file order |
| Scan.FirstKeptMembers | frontend/src/app/actions/map.ts:203 | A capped scan keeps exactly the elements that pass and are preceded by fewer than `cap` kept ones |
| Scan.MapSeqAt | frontend/src/app/actions/dashboard.ts:132 | `map` puts at position `k` the image of element `k` |
| Dashboard.ParseRecords | frontend/src/app/actions/dashboard.ts:40-68 | The parsing loop computes the records of the file (`Records`) |
| Dashboard.RecordsSpec | frontend/src/app/actions/dashboard.ts:46-67 | The header is never a record. Every other line becomes one, in file order, exactly when its trimmed text is non-empty and has at least as many fields as the header. A record's fields joined with commas give the trimmed line |
| Dashboard.CountField | frontend/src/app/actions/dashboard.ts:73-79 | The counting loop over a column builds the counting map of that column's non-empty values, normalised |
| Dashboard.TrendSpec | frontend/src/app/actions/dashboard.ts:73-83 | The trend has one entry per distinct non-empty year, in ascending order, each with that year's number of records; the counts add up to the records with a year |
| Dashboard.CountSeverities | frontend/src/app/actions/dashboard.ts:93-104 | The three counters count the records whose score parses and falls in each class |
| Dashboard.SeverityTotal | frontend/src/app/actions/dashboard.ts:97-104 | High, medium and low together count exactly the records with a parseable score |
| Dashboard.Severities | frontend/src/app/actions/dashboard.ts:106-110 | The histogram is always Alta, Media, Baja in that order, and its counts add up to the scored records, which are no more than all records |
| Dashboard.TopCitySpec | frontend/src/app/actions/dashboard.ts:112-128 | "Desconocida" when no record names a municipality; otherwise a named municipality that no other outnumbers, the first seen among those tied |
| Dashboard.Last | frontend/src/app/actions/dashboard.ts:132 | `slice(-n)` is the last `min(n, length)` elements |
| Dashboard.Reverse | frontend/src/app/actions/dashboard.ts:132 | `reverse()` puts element `k` at position `length - 1 - k` |
| Dashboard.MapAnomaliesSpec | frontend/src/app/actions/dashboard.ts:132-150 | Mapping the sample fails exactly when some row has no type field; otherwise entry `k` is built from row `k` with index `from + k` |
| Dashboard.RecentSpec | frontend/src/app/actions/dashboard.ts:130-150 | The sample is the last `min(50, n)` records, newest first. Entry `k` comes from record `n - 1 - k` and has id "A-year-k", date "year-01-01" and the municipality as its city. Its type is lower-cased with underscores turned to spaces, its value is the parsed value or 0, its area 0, its review pending, and its severity that of its score (low when the score does not parse). The sample fails exactly when one of those records has no type field |
| Dashboard.RecentFails | frontend/src/app/actions/dashboard.ts:132-140 | Building the sample throws exactly when one of the last `min(50, n)` records has no type field |
| Dashboard.RecentAt | frontend/src/app/actions/dashboard.ts:132-150 | Entry `k` of a built sample is the anomaly of record `n - 1 - k` with index `k` |
| Dashboard.RecentIdsUnique | frontend/src/app/actions/dashboard.ts:139 | The sample's ids are pairwise different, whatever the years |
| Dashboard.Flagged | frontend/src/app/actions/dashboard.ts:160 | The number of records flagged "1" never exceeds the number of records |
| Dashboard.KpisSpec | frontend/src/app/actions/dashboard.ts:152-162 | The flagged count is written in decimal and reads back as the number of flagged records, never more than the record count. The rate is "0%" without records, and otherwise the percentage p with p × records = flagged × 100, to two decimals. The property total is the number t with t × 1000 = records, to one decimal, with "K" |
| Dashboard.Percentage | frontend/src/app/actions/dashboard.ts:162 | `(part / whole) * 100` lies between 0 and 100 and times `whole` gives `part * 100` |
| Dashboard.TopDepartmentsSpec | frontend/src/app/actions/dashboard.ts:164-176 | At most five departments, by non-increasing count, each once with its true count; a department left out is counted no more than any kept |
| Dashboard.TypeDistributionSpec | frontend/src/app/actions/dashboard.ts:178-193 | One entry per distinct non-empty label, by non-increasing count, each with the number of records whose type normalises to it; the counts add up to the records with a type |
| Dashboard.Aggregate | frontend/src/app/actions/dashboard.ts:195-208 | The result built from parsed records is never the error fallback, and shows the given sample |
| Dashboard.DashboardSpec | frontend/src/app/actions/dashboard.ts:37-39 | A failed read gives the fallback. A readable file gives the fallback exactly when the sample cannot be mapped (the `toLowerCase` of a missing type throws), and otherwise the aggregate of its records |
| Dashboard.GetDashboardData | frontend/src/app/actions/dashboard.ts:37-228 | The action (parsing loop, counting loops, first-maximum loop, mapping) computes `DashboardFor` of the read's outcome |
| Charts.TopMunicipiosSpec | frontend/src/components/dashboard/DashboardCharts.tsx:50-60 | At most five "city, municipality" keys, by non-increasing count, each with the number of anomalies it groups; every key left out has no more than any kept |
| Charts.AffectedSpec | frontend/src/components/dashboard/DashboardCharts.tsx:265 | The number of affected municipalities is at most the number of anomalies, and 0 only when there are none |
| Charts.RelabelSum | frontend/src/components/dashboard/DashboardCharts.tsx:68-72 | Relabelling type entries leaves the total count unchanged |
| Charts.TiposDataSpec | frontend/src/components/dashboard/DashboardCharts.tsx:62-74 | As many entries as distinct types, up to six, by non-increasing count; every type left out counts no more than any shown. Every entry is the label of an occurring type with that type's count. The shown counts add up to at most the number of anomalies |
| Charts.TiposEntry | frontend/src/components/dashboard/DashboardCharts.tsx:68-72 | Each shown entry is the relabelled name (underscores to spaces, lower-cased) of a type that occurs, with that type's number of anomalies |
| Charts.SeverityColorSpec | frontend/src/components/dashboard/DashboardCharts.tsx:38-42 | Alta, Media and Baja get red, amber and green; any other name gets the primary blue |
| Charts.WithColorsSpec | frontend/src/components/dashboard/DashboardCharts.tsx:77-80 | Adding colours keeps every bar's position, name and value |
| Charts.HistogramColors | frontend/src/components/dashboard/DashboardCharts.tsx:76-80 | The server's severity histogram is coloured red, amber, green in that order |
| MapData.Lookup | frontend/src/app/actions/map.ts:10-89 | A name is found exactly when the place table has an entry for it, and then the coordinates are that entry's |
| MapData.Jitter | frontend/src/app/actions/map.ts:121 | With draws in [0, 1), a jittered point lies within half the spread of its centre on both axes |
| MapData.GetCoordinates | frontend/src/app/actions/map.ts:113-133 | Never null. A known upper-cased, trimmed municipality places the point within 0.005 of it. Otherwise a known department places it within 0.25 of that department. Otherwise the point is within 2 of the centre of Colombia |
| MapData.MunicipalityFirst | frontend/src/app/actions/map.ts:118-122 | When the municipality is known, the department plays no part |
| MapData.OrElse | frontend/src/app/actions/map.ts:161 | `v \|\| fallback` keeps a non-empty value and otherwise gives the fallback |
| MapData.SeverityPartition | frontend/src/app/actions/map.ts:174-184 | The three counters partition the points |
| MapData.PointFields | frontend/src/app/actions/map.ts:169-172 | A point's id is "p-" and its line index; blank place and year values take "DESCONOCIDO" and "2024" |
| MapData.PointClass | frontend/src/app/actions/map.ts:171-197 | A point's score is the parsed score or 0 and its severity that score's class; its type is the lower-cased type (or "desconocido") with underscores turned to spaces |
| MapData.PointPlace | frontend/src/app/actions/map.ts:187 | A point lies near its municipality, else near its department, else near the centre |
| MapData.IdsDistinct | frontend/src/app/actions/map.ts:191 | Points come from distinct lines, so their ids are distinct |
| MapData.FilterHolds | frontend/src/app/actions/map.ts:163-167 | With a department filter set, every point's department is that department |
| MapData.PointLinesSpec | frontend/src/app/actions/map.ts:150-203 | The point lines are in file order; a line is one exactly when it is a candidate and fewer than 3000 candidates precede it |
| MapData.MapDataSpec | frontend/src/app/actions/map.ts:137-222 | A failed read gives no points and zero counts. Otherwise the points are at most 3000 and come from lines in file order: a line yields one exactly when it is non-blank, at least ten values wide, in the filtered department, and fewer than 3000 such lines precede it. Ids are distinct, the filter holds, and total = alta + media + baja = the number of points |
| MapData.ReadValues | frontend/src/app/actions/map.ts:155-167 | A blank, short or filtered-out line gives no values; otherwise the trimmed line's values |
| MapData.BuildPoint | frontend/src/app/actions/map.ts:169-200 | The loop body bumps exactly the counter of the point's severity and builds the specified point |
| MapData.GetMapData | frontend/src/app/actions/map.ts:137-222 | The scan loop, with its skips, counters and early `break`, computes `MapDataFor` of the read's outcome |
| MapsPage.FilteredPointsSpec | frontend/src/app/maps/page.tsx:40-62 | The points left keep the server's order, and keep each point that passes every set filter as often as it occurs, and no other |
| MapsPage.FilteredPointsMembers | frontend/src/app/maps/page.tsx:40-62 | A point stays exactly when it is in the data and passes every set filter |
| MapsPage.FilteredPointsIsOneFilter | frontend/src/app/maps/page.tsx:44-59 | The chain of up to three filters is one filter by the conjunction of the set ones |
| MapsPage.InitialShowsAll | frontend/src/app/maps/page.tsx:17-19 | With the initial filters (empty city, "todas", "todas") every point is shown |
| MapsPage.ShowsSpec | frontend/src/app/maps/page.tsx:44-59 | The city text, lower-cased, is searched in the lower-cased municipality or department. The severity must match exactly. The type must contain the lower-cased type text, and only that text is lower-cased |
| MapsPage.LegendSpec | frontend/src/app/maps/page.tsx:28-30 | The legend totals are the server's, whatever the client filters, and the number of points shown never exceeds them |
| MapsPage.DefaultKeepsAll | frontend/src/app/maps/page.tsx:28 | `getMapData()` with its default "todos" does not filter by department |
| DashboardPage.FilteredSpec | frontend/src/app/dashboard/page.tsx:123-140 | The filtered list keeps the record order, and keeps each record that passes every check as often as it occurs, and no other |
| DashboardPage.FilteredMembers | frontend/src/app/dashboard/page.tsx:124-139 | A record is shown exactly when it is listed and passes the city, severity and date checks |
| DashboardPage.InitialShowsAll | frontend/src/app/dashboard/page.tsx:116-121 | With the initial filters every record is shown, in order |
| DashboardPage.WindowInclusive | frontend/src/app/dashboard/page.tsx:128-136 | With both bounds set and all dates valid, a record passes the date checks exactly when its date lies in the closed interval; an invalid date on either side drops nothing |
| DashboardPage.NarrowingHides | frontend/src/app/dashboard/page.tsx:125-136 | Choosing a city or severity where "all" was selected, or setting an unset bound, can only hide records |
| DashboardPage.CiudadTopSpec | frontend/src/app/dashboard/page.tsx:142-156 | "Bogotá D.C." for an empty list; otherwise a listed city that no city outnumbers, the first seen among ties |
| DashboardPage.CiudadTopOccurs | frontend/src/app/dashboard/page.tsx:142-156 | The top city is the city of some record, unless there are none |
| DashboardPage.FilterState.Shown | frontend/src/app/dashboard/page.tsx:303 | Only listed records that pass the current filters reach the table |
| DashboardPage.FilterState.SetCiudad | frontend/src/app/dashboard/page.tsx:190 | The city select replaces the city and keeps the other filters |
| DashboardPage.FilterState.SetSeveridad | frontend/src/app/dashboard/page.tsx:208 | A severity button replaces the severity and keeps the other filters |
| DashboardPage.FilterState.SetFechaDesde | frontend/src/app/dashboard/page.tsx:228 | The "Desde" input replaces the lower bound and keeps the other filters |
| DashboardPage.FilterState.SetFechaHasta | frontend/src/app/dashboard/page.tsx:237 | The "Hasta" input replaces the upper bound and keeps the other filters |
| DashboardPage.MockCityCounts | frontend/src/app/dashboard/page.tsx:37-98 | In the sample data Bogotá D.C. occurs twice and every other city once |
| DashboardPage.MockTopCity | frontend/src/app/dashboard/page.tsx:142-156 | On the sample data the top-city card names Bogotá D.C. |
| PredictionResults.RiskScoreSpec | frontend/src/components/detection/PredictionResults.tsx:25-34 | The risk is 0% at or above -0.45 and 100% at or below -0.85. In between, it is the share of the way from -0.45 down to -0.85 that the score has covered |
| PredictionResults.RiskScoreMonotone | frontend/src/components/detection/PredictionResults.tsx:32-33 | A lower score never gives a lower risk |
| PredictionResults.AnomalyLevelSpec | frontend/src/components/detection/PredictionResults.tsx:52-59 | With no anomaly detected the level is normal, whatever the score. A detected anomaly is medium above -0.60, high in (-0.70, -0.60], critical at or below -0.70 |
| PredictionResults.AnomalyLevelMonotone | frontend/src/components/detection/PredictionResults.tsx:52-59 | A detected anomaly with a lower score never gets a milder level |
| PredictionResults.ByProbDescTotal | frontend/src/components/detection/PredictionResults.tsx:49 | `b.probValue - a.probValue` is a total preorder |
| PredictionResults.ProbabilityDataSpec | frontend/src/components/detection/PredictionResults.tsx:40-49 | One bar per class, by non-increasing probability. Each bar carries some class's range and probability, and every class has its bar. Classes with equal probability keep their order |
| PredictionResults.TonesOfScore | frontend/src/components/detection/PredictionResults.tsx:202-221 | The bar is red exactly below -0.75 and the card's top line red exactly below -0.65 |
| PredictionResults.TonesAgree | frontend/src/components/detection/PredictionResults.tsx:202-221 | The line is red whenever the bar is, and never when the bar is green |
| PropertyForm.EveryFieldListed | frontend/src/types/prediction.ts:6-22 | The form's field list names every field of `PredioInput` |
| PropertyForm.MunicipiosOf | frontend/src/components/detection/PropertyInputForm.tsx:39 | A department with a list gives that list, any other value the empty list |
| PropertyForm.DefaultInput | frontend/src/lib/constants/formDefaults.ts:123-139 | The default data fills every field |
| PropertyForm.ScenariosComplete | frontend/src/lib/constants/formDefaults.ts:144-196 | Every example scenario fills every field |
| PropertyForm.AfterDepartmentSpec | frontend/src/components/detection/PropertyInputForm.tsx:35-45 | A department change touches only the department and the municipality. The municipality is kept exactly when the new list offers it; otherwise it becomes the list's first entry, or "" for a department without a list |
| PropertyForm.PropertyInputForm.constructor | frontend/src/components/detection/PropertyInputForm.tsx:26-29 | The form starts with the default data and Antioquia's municipalities |
| PropertyForm.PropertyInputForm.HandleChange | frontend/src/components/detection/PropertyInputForm.tsx:31-46 | Any field but the department is replaced, leaving the list unchanged. A department change follows `AfterDepartmentSpec` and puts that department's list on offer. Completeness and list agreement are preserved |
| PropertyForm.PropertyInputForm.Submit | frontend/src/components/detection/PropertyInputForm.tsx:48-51 | What is handed to `onSubmit` is exactly the current form data |
| PropertyForm.PropertyInputForm.LoadScenario | frontend/src/components/detection/PropertyInputForm.tsx:53-59 | A known key loads its scenario and that department's list; an unknown key changes nothing |
| PropertyForm.PropertyInputForm.Reset | frontend/src/components/detection/PropertyInputForm.tsx:376 | "Limpiar Formulario" restores the default data and leaves the municipality list as it was |
| PropertyForm.StaleListAfterReset | frontend/src/components/detection/PropertyInputForm.tsx:376 | After choosing Cundinamarca and resetting, Cundinamarca's list is on offer beside the default Antioquia/Medellín, which that list does not contain |
| PropertyForm.PropertyInputForm.ResetRefreshing | frontend/src/components/detection/PropertyInputForm.tsx:376 | The corrected reset restores the default data together with its department's list |
| PropertyForm.ListAfterRefreshingReset | frontend/src/components/detection/PropertyInputForm.tsx:376 | With the corrected reset, the same steps end with Antioquia's list, which offers Medellín |
| EmailModal.ValidateEmailSpec | frontend/src/components/shared/EmailModal.tsx:16-19 | The direct check accepts exactly the strings matching `^[^\s@]+@[^\s@]+\.[^\s@]+$` |
| EmailModal.MatchesAtChars | frontend/src/components/shared/EmailModal.tsx:17 | In a match, every character but the one `@` is neither whitespace nor `@` |
| EmailModal.ShortestAddressIsValid | frontend/src/components/shared/EmailModal.tsx:17 | "a@b.c" is accepted |
| EmailModal.NoDotIsInvalid | frontend/src/components/shared/EmailModal.tsx:17 | An address without a dot after the `@` is rejected |
| EmailModal.SpaceIsInvalid | frontend/src/components/shared/EmailModal.tsx:17 | An address containing a space is rejected |
| EmailModal.EmptyIsInvalid | frontend/src/components/shared/EmailModal.tsx:24-32 | The empty address is invalid too, so only the first check applies to it |
| EmailModal.Dialog.HandleSubmit | frontend/src/components/shared/EmailModal.tsx:21-36 | Empty gives the "ingresa un correo" error, invalid gives the "válido" error, and neither calls `onSend`. A valid address clears the error and is sent; `onSend` only ever receives valid addresses |
| EmailModal.Dialog.Edit | frontend/src/components/shared/EmailModal.tsx:76-79 | Typing replaces the address and clears the error |
| FraudCarousel.NavigationSpec | frontend/src/components/dashboard/FraudAlertsCarousel.tsx:105-113 | Navigating wraps at both ends (4 → 0 forwards, 0 → 4 back), and a step back undoes a step forward and vice versa |
| FraudCarousel.FullCycle | frontend/src/components/dashboard/FraudAlertsCarousel.tsx:98-100 | Five steps forward return to the same alert |
| FraudCarousel.Carousel.constructor | frontend/src/components/dashboard/FraudAlertsCarousel.tsx:79-80 | The carousel starts at the first alert with autoplay on |
| FraudCarousel.Carousel.Tick | frontend/src/components/dashboard/FraudAlertsCarousel.tsx:95-103 | A tick steps forward only while autoplay is on |
| FraudCarousel.Carousel.GoToPrevious | frontend/src/components/dashboard/FraudAlertsCarousel.tsx:105-108 | Stops autoplay and steps back with wrap-around |
| FraudCarousel.Carousel.GoToNext | frontend/src/components/dashboard/FraudAlertsCarousel.tsx:110-113 | Stops autoplay and steps forward with wrap-around |
| FraudCarousel.Carousel.GoToSlide | frontend/src/components/dashboard/FraudAlertsCarousel.tsx:115-118 | Stops autoplay and shows the chosen alert |
| FraudCarousel.Carousel.ToggleAutoPlay | frontend/src/components/dashboard/FraudAlertsCarousel.tsx:272 | Flips autoplay and keeps the alert |
| FraudCarousel.Carousel.Position | frontend/src/components/dashboard/FraudAlertsCarousel.tsx:269 | The position shown is between 1 and 5 |
| FraudCarousel.NextThenPrevious | frontend/src/components/dashboard/FraudAlertsCarousel.tsx:105-113 | Next then previous shows the same alert again, with autoplay off |
| FraudCarousel.SeverityCounts | frontend/src/components/dashboard/FraudAlertsCarousel.tsx:287-303 | Two critical, two high and one medium alert, adding up to all five |
| FraudCarousel.AlertIds | frontend/src/components/dashboard/FraudAlertsCarousel.tsx:5-76 | The alert ids are 1 to 5 in slide order |
| Conversation.BlankSpec | frontend/src/components/chat/ChatInput.tsx:13-14 | `!value.trim()` holds exactly when the text is all whitespace |
| Conversation.TrimTidy | frontend/src/app/chat/page.tsx:291-297 | A non-blank draft trims to a non-empty text with no whitespace at either end |
| Conversation.UserTidyAt | frontend/src/app/chat/page.tsx:294-301 | Where every user message from some position on is tidy, each such message, read by index, is tidy |
| Conversation.AppendKeepsTidy | frontend/src/app/chat/page.tsx:301 | Appending an assistant message, or a tidy user message, keeps the user messages tidy and leaves the front of the conversation as it was |
| ChatStore.Store.constructor | frontend/src/store/chatStore.ts:27-30 | A new store is closed, empty, without a session and not loading; nothing is persisted yet |
| ChatStore.Store.Rehydrated | frontend/src/store/chatStore.ts:39-45 | A store rehydrated from storage holds the saved session and messages, closed and not loading |
| ChatStore.Store.Partialize | frontend/src/store/chatStore.ts:41-44 | Only the session id and the messages are persisted |
| ChatStore.Store.ToggleChat | frontend/src/store/chatStore.ts:32 | Flips the window, changes nothing else, and leaves the persisted part unchanged |
| ChatStore.Store.SetIsOpen | frontend/src/store/chatStore.ts:33 | Sets the window and changes nothing else |
| ChatStore.Store.AddMessage | frontend/src/store/chatStore.ts:34 | Appends exactly one message and changes nothing else |
| ChatStore.Store.SetSessionId | frontend/src/store/chatStore.ts:35 | Sets the session and changes nothing else |
| ChatStore.Store.SetLoading | frontend/src/store/chatStore.ts:36 | Sets loading and changes nothing else; nothing persisted changes |
| ChatStore.Store.ClearMessages | frontend/src/store/chatStore.ts:37 | Empties the messages and keeps the session |
| ChatStore.ToggleTwice | frontend/src/store/chatStore.ts:32 | Toggling twice restores the window state |
| ChatStore.SaveAndReload | frontend/src/store/chatStore.ts:39-45 | Reloading from what was persisted gives back the session and the messages, with the window closed and nothing loading |
| ChatInput.Box.Change | frontend/src/components/chat/ChatInput.tsx:32 | Typing sets the draft |
| ChatInput.Box.HandleSend | frontend/src/components/chat/ChatInput.tsx:12-17 | A blank draft sends nothing and stays. Otherwise `onSend` gets the trimmed draft, which is non-empty with no surrounding whitespace, and the draft empties |
| ChatInput.Box.HandleKeyDown | frontend/src/components/chat/ChatInput.tsx:19-24 | Enter without Shift sends as above; any other key does nothing |
| ChatInput.SendTwice | frontend/src/components/chat/ChatInput.tsx:12-17 | Sending twice in a row sends at most once |
| ChatPage.Page.constructor | frontend/src/app/chat/page.tsx:262-264 | The page starts with the two welcome messages, an empty draft, not sending and no error |
| ChatPage.Page.CanSubmit | frontend/src/app/chat/page.tsx:421 | The send button is enabled exactly when the draft has a non-whitespace character and nothing is sending |
| ChatPage.Page.ShowSuggestions | frontend/src/app/chat/page.tsx:330 | Suggestions show exactly while only the welcome messages are there and nothing is sending |
| ChatPage.Page.HandleChange | frontend/src/app/chat/page.tsx:277-282 | Typing sets the draft and clears a shown error |
| ChatPage.Page.HandleSuggestionClick | frontend/src/app/chat/page.tsx:284-287 | A suggestion becomes the draft; nothing else changes |
| ChatPage.Page.HandleSubmit | frontend/src/app/chat/page.tsx:289-304 | While the button would be disabled nothing happens. Otherwise the trimmed draft is appended as the user's message and sent as the prompt, the draft empties, the page is sending with no error, and the suggestions hide. The welcome prefix stays, user messages are tidy, and while sending the last message is the user's |
| ChatPage.Page.Settle | frontend/src/app/chat/page.tsx:305-320 | A reply is appended as the assistant's message; a failure appends nothing and shows "No se pudo conectar con el agente…". Sending stops and the suggestions stay hidden |
| ChatPage.Page.Send | frontend/src/app/chat/page.tsx:294-303 | Appends the tidy prompt as the user's message, empties the draft, and sets sending with no error; the welcome prefix and the tidiness of user messages are kept |
| ChatPage.Page.HandleKeyDown | frontend/src/app/chat/page.tsx:323-328 | Enter without Shift submits; any other key changes nothing |
| ChatPage.FailThenEdit | frontend/src/app/chat/page.tsx:277-320 | After a failed exchange the user's message stays, and editing the draft clears the error |
| ChatWidget.NextSession | frontend/src/components/chat/ChatWidget.tsx:72-74 | The session either stays or becomes a new session id from the reply |
| ChatWidget.NextSessionSpec | frontend/src/components/chat/ChatWidget.tsx:72-74 | The session changes exactly to a non-empty, different id of a successful reply. A failure or a reply without an id keeps it. Applying the same reply again changes nothing more |
| ChatWidget.ReplyMessage | frontend/src/components/chat/ChatWidget.tsx:77-84 | The added message is the assistant's: the response on success, the fixed apology on failure |
| ChatWidget.Shown | frontend/src/components/chat/ChatWidget.tsx:153-171 | An assistant bubble shows its text without any backslash (the rest kept); a user bubble shows its text as is |
| ChatWidget.ShownIdempotent | frontend/src/components/chat/ChatWidget.tsx:167 | Showing an already shown text changes nothing |
| ChatWidget.Widget.SendMessage | frontend/src/components/chat/ChatWidget.tsx:40-63 | A blank draft or a pending request does nothing. Otherwise the draft empties, the trimmed draft is appended as the user's message and the store is loading. The request carries that tidy text and the current session id, and the empty-conversation hint hides |
| ChatWidget.Widget.Settle | frontend/src/components/chat/ChatWidget.tsx:65-87 | The session follows `NextSession`, exactly one assistant message is appended (response or apology), and loading stops |
| ChatWidget.Exchange | frontend/src/components/chat/ChatWidget.tsx:40-88 | A full exchange appends the user's text and then one assistant message, and leaves the store idle with an empty draft |
| HelpWidget.Widget.constructor | frontend/src/components/widgets/ChatWidget.tsx:106-109 | The widget starts closed with only the welcome message |
| HelpWidget.Widget.Badge | frontend/src/components/widgets/ChatWidget.tsx:253-256 | The badge shows exactly while the window is closed and there are messages after the welcome, and then shows their number (at least 1) |
| HelpWidget.Widget.HandleToggle | frontend/src/components/widgets/ChatWidget.tsx:158-160 | Flips the window and nothing else |
| HelpWidget.Widget.Change | frontend/src/components/widgets/ChatWidget.tsx:213 | Typing sets the draft; an error stays until the next send |
| HelpWidget.Widget.HandleSubmit | frontend/src/components/widgets/ChatWidget.tsx:124-138 | A blank draft or a pending send does nothing; otherwise the trimmed draft is appended and sent, the draft empties, and the widget sends with no error; the welcome stays first |
| HelpWidget.Widget.Send | frontend/src/components/widgets/ChatWidget.tsx:127-136 | Appends the tidy prompt as the user's message, empties the draft, and sets sending with no error; the window and the welcome stay |
| HelpWidget.Widget.Settle | frontend/src/components/widgets/ChatWidget.tsx:140-155 | A reply is appended as the assistant's; a failure appends nothing and shows "Error al conectar. Intenta nuevamente."; sending stops |
| HelpWidget.BadgeAfterFirstMessage | frontend/src/components/widgets/ChatWidget.tsx:253-256 | After one message is sent and the window is closed, the badge shows 1 |
| PredioSchema.EveryFieldListed | backend/app/schemas/prediction.py:9-32 | The field list names each of the fifteen fields |
| PredioSchema.Errors | backend/app/schemas/prediction.py:9-32 | At most one error per field |
| PredioSchema.Validate | backend/app/schemas/prediction.py:9-32 | A rejection always names at least one field |
| PredioSchema.ErrorsSpec | backend/app/schemas/prediction.py:9-32 | The errors list, in declaration order, exactly the fields whose value is missing, of the wrong type or out of bounds |
| PredioSchema.ValidateSpec | backend/app/schemas/prediction.py:9-32 | A body is accepted exactly when no field fails. An accepted model satisfies every bound. A rejection lists exactly the failing fields |
| PredioSchema.BuildValid | backend/app/schemas/prediction.py:20-32 | A body in which no field fails builds a model that meets all bounds |
| PredioSchema.EncodeAccepted | backend/app/schemas/prediction.py:20-32 | Every field of a valid model, written as JSON, is accepted |
| PredioSchema.BuildEncode | backend/app/schemas/prediction.py:9-32 | Reading a model back from its JSON gives the model |
| PredioSchema.EncodeRoundTrip | backend/app/schemas/prediction.py:9-32 | A valid model's JSON validates back to the same model, and an invalid model's JSON is rejected |
| PredioSchema.InvalidFails | backend/app/schemas/prediction.py:20-32 | A model breaking some bound has a failing field when written out |
| PredioSchema.WholeValueAccepted | backend/app/schemas/prediction.py:30-32 | A whole-number price written as a JSON integer is accepted as the float |
| PredioSchema.ExampleAccepted | backend/app/schemas/prediction.py:34-53 | The documented example meets every bound and validates to itself |
| PredioSchema.Bounds | backend/app/schemas/prediction.py:20-32 | The year accepts 1900 and 2100 but not 1899 or 2101. The counts accept 0 and not -1. COD_NATUJUR takes any integer. TIENE_MAS_DE_UN_VALOR takes exactly 0 or 1. The price rejects 0. String fields take exactly strings |
| ModelLoader.ReadFromSpec | backend/app/models_ml/model_loader.py:42-66 | Reading stops at the first failure. Object `k` is what file `k` gave. The run failed exactly when fewer than four objects were read, and the failure is what the next file raised |
| ModelLoader.MLModels.constructor | backend/app/models_ml/model_loader.py:18-23 | A new registry holds nothing and is not loaded |
| ModelLoader.MLModels.Slots | backend/app/models_ml/model_loader.py:19-22 | There is one slot per artifact file |
| ModelLoader.MLModels.LoadModels | backend/app/models_ml/model_loader.py:36-73 | A loaded registry returns at once and changes nothing. Otherwise the files are read in order and each object is stored as it is read. The first failure is re-raised, with the slots already filled kept and the registry unloaded. The registry is loaded exactly when all four were read, and then all four slots are filled |
| ModelLoader.MLModels.GetClassifier | backend/app/models_ml/model_loader.py:78-81 | Answers exactly when loaded, with the stored classifier; otherwise raises the "Models not loaded" `RuntimeError` |
| ModelLoader.MLModels.GetModelArtifacts | backend/app/models_ml/model_loader.py:83-86 | Same guard, with the stored model artifacts |
| ModelLoader.MLModels.GetAnomalyDetector | backend/app/models_ml/model_loader.py:88-91 | Same guard, with the stored isolation forest |
| ModelLoader.MLModels.GetAnomalyArtifacts | backend/app/models_ml/model_loader.py:93-96 | Same guard, with the stored anomaly artifacts |
| ModelLoader.FreshGettersRaise | backend/app/models_ml/model_loader.py:78-96 | Before any load every getter raises |
| ModelLoader.LoadTwice | backend/app/models_ml/model_loader.py:36-40 | When all files read, each getter returns what its own file gave. Loading again, whatever the files now hold, changes nothing |
| ModelLoader.FailedLoadStaysUnloaded | backend/app/models_ml/model_loader.py:68-73 | A failed read is raised and leaves the registry unloaded, so the getters still raise |

## Left out

- I/O, timers and rendering:
  - Reading the CSV file, `fetch` and `localStorage` are parameters or out-parameters. Each is
    read once: the read's outcome, the request returned by the sending methods, and the reply
    given to `Settle`.
  - Logging and `console.error` are dropped.
  - Scrolling and focus effects are dropped.
  - The 5-second interval of the carousel is the `Tick` method.
  - The JSX markup is left out.
- The ids and timestamps built from `Date.now()` and `new Date()` are left out, because they
  depend on the clock. The message datatype keeps only the role and the content.
- Formatting:
  - `toFixed` is a parameter, and only its digits argument is fixed.
  - `toLocaleString` and `formatCurrency` are left out.
  - `localeCompare` is read as code-point order, which agrees with it on the year strings it
    sorts.
- Case maps cover ASCII and Latin-1 letters only. Upper-casing maps µ to the Greek capital mu
  and ÿ to Ÿ as JavaScript does, but leaves ß unchanged (JavaScript gives the two letters "SS").
  No letter outside Latin-1 is mapped either way.
- Object key order: JavaScript lists integer-like keys first.
  - `municipiosCounts` keys always contain ", ", so insertion order is exact for them.
  - For `tiposCounts`, a raw type such as "123" would be listed first; the model keeps
    insertion order.
  - `tiposCounts` is a plain object, so a type named like an inherited property
    ("constructor", "toString") starts from that property instead of 0 and ends up a string
    whose `b.valor - a.valor` is NaN; the model counts it from 0. The chart only ever gets the
    sample anomalies of dashboard/page.tsx, where no type has such a name.
- Floating point is read as exact real arithmetic: the thresholds, the risk percentage, the
  jitter and the KPI ratios.
- The null check on `getCoordinates`' result at map.ts:188 is dead, because `getCoordinates`
  never returns null (proved), so that branch is not modelled.
- The `default` branch of the carousel's `getSeverityColor` cannot be reached, because every
  alert has one of the three listed severities.
- FraudCarousel.Carousel.GoToSlide: requires an index below 5. Its only callers are the five
  dots, which pass their own index.
- Overlapping sends: a second send while the first is pending is guarded out in every chat,
  as in the source.
  - React's batching of state updates is not modelled.
  - The chat widget's handler captures `sessionId` when it starts. The model compares the
    reply with the store's session when the reply arrives, which is the same value because
    nothing else changes the session while a request is pending.
- ChatWidget.Settle: a successful reply whose `response` field is missing (`undefined`) is
  not distinguished; the response is a string.
- The maps page's fetch: the `catch` branch keeps the initial empty data. `getMapData` itself
  never throws, because its own `catch` returns the empty result, so only that path is modelled
  (`LegendSpec` is about the fetched data).
- The quick-suggestion texts of the chat page are not transcribed. `HandleSuggestionClick`
  takes any query.
- `sendMessageToAgent` in both chat pages is seen only through its outcome: an answer text, or
  a thrown error.
- PredioSchema.Validate: Pydantic's lax coercions are not modelled. Examples are a numeric
  string "5" for an int field, or a float 5.0 with no fractional part for an int field. Neither
  are unknown keys or a `bool` passed as an int. An int field takes exactly a JSON integer, the
  float field a JSON number, and a string field a JSON string.
- The `models_path` lookup through `__file__`'s parent directories is not modelled. The path is
  a constructor parameter. The `Exception` re-raise is modelled as the returned failure.
- The singleton instance `ml_models` is not modelled. Any `MLModels` object behaves alike.
- `PropertyInputForm` is not tied to a live clock: the default year (`new Date().getFullYear()`)
  is a parameter.

## Findings

| source | as written | input that shows it | evidently intended | confidence | as-written member | corrected member |
|---|---|---|---|---|---|---|
| frontend/src/components/detection/PropertyInputForm.tsx:376 | "Limpiar Formulario" restores `DEFAULT_PREDIO_INPUT` but not `availableMunicipios` | choose department CUNDINAMARCA, then reset: the form says ANTIOQUIA / MEDELLIN while the municipality list is still Cundinamarca's, which does not contain MEDELLIN | the reset also restores the default department's municipality list, as the initial state does (lines 26-29) | not executed | PropertyForm.StaleListAfterReset | PropertyForm.ListAfterRefreshingReset |
