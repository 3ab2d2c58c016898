# Charity data dashboard: a Dafny model of its aggregation pipeline

The dashboard lets a charity upload a CSV file of activity records and see charts
of it in the browser. It can then contribute the rows to a shared table, and a
second view charts the rows of every contributor. This project models the logic
behind those charts:

- **Form** (`src/Form.js`): turning CSV rows into records. `convertDateToISO`
  reorders a `DD/MM/YYYY` date, the local authority comes from a postcode lookup,
  and the rows are tagged with an organisation id before insertion.
- **Dataviz** (`src/Dataviz.js`): `processDataForCharts`. For each record it tries
  twelve date formats in order, drops a record none of them reads, and adds its
  number of people to six one-level views and a nested activity → local authority
  view. The page state (`handleDataParsed`, `handleContributeClicked`) chooses
  between the uploaded charts and the stored-data charts.
- **AllData** (`src/AllData.js`): the stored-data charts. `aggregateData` and
  `aggregateDataBySum` group and sum, a loop fills the month (`MMM yyyy`) and year
  buckets, and `prepareChartData`, `preparePieChartData` and `prepareLineChartData`
  lay the dictionaries out as chart data.
- **Charts** (`src/Charts.js`): the uploaded-batch charts. This covers the input
  guard, the colour lookup with a grey fallback, and the two ways a border colour is
  made opaque: the `rgba(...)` pattern and the trailing-`0.5)` replacement. It also
  covers the sorted series and the stacked activity-by-location chart.

Supporting modules:

- `JsText` models `parseInt(s, 10)`, decimal and zero-padded text, `split`, and the
  default `sort` order.
- `JsObject` models a JavaScript object used as a dictionary. It keeps its key order
  (`Object.keys`) and the `d[k] = (d[k] || 0) + n` accumulation step.
- `Counts` models numbers that may be NaN, and sums over rows.
- `Dates` models date-fns `parse`, `isValid` and `format` on the numeric patterns
  the code uses.
- `Colors` models `rgba(...)` text and the two border rewrites.
- `ChartJs` holds the chart data shapes.

In the code, `d[k] = (d[k] || 0) + parseInt(...)` stores NaN when a count has no
digits. The model keeps that behaviour. A NaN is `None` in `Num = Option<int>`, and
a later row with the same key turns it back into a number (`JsObject.NaNResetsKey`).
So the sum properties are stated for batches whose counts all parse. They are not
stated for a design where unparsable counts are read as 0.

## Model

| member | source | states |
|---|---|---|
| Dataviz.FindDate | src/Dataviz.js:40-48 | the loop over the formats stops at the first format that reads the text, and returns what the ordered first-match search over all twelve formats returns |
| Dataviz.Accept | src/Dataviz.js:42-53 | a record is kept, with its own record and a valid calendar date, exactly when some format reads its date text; it is dropped exactly when none does |
| Dataviz.ProcessDataForCharts | src/Dataviz.js:15-88 | the `forEach` that updates the views in place ends with the views `Aggregate` defines: one fold per view over the kept records, and the nested fold |
| Dataviz.Kept | src/Dataviz.js:35-53 | every record that reaches the views carries a valid calendar date |
| Dataviz.Aggregate | src/Dataviz.js:18-83 | the views are well-formed dictionaries (unique keys, key list and map agree) and always pass the chart guard |
| Dataviz.UndatedDropped | src/Dataviz.js:50-53 | appending a record whose date no format reads leaves every view unchanged |
| Dataviz.UnwrittenViews | src/Dataviz.js:18-28 | the `date` and `postcode` views stay empty and there is no `gender` view; an empty batch leaves all seven written views empty |
| Dataviz.AggregateTotals | src/Dataviz.js:59-76 | when every count is a number, the activity, location, type-of-insight, age-range, month and year views each add up to the number of people over the kept records |
| Dataviz.ActivityValue | src/Dataviz.js:59 | when every count is a number, the value under an activity is the sum of the counts of the kept records with that activity |
| Dataviz.AggregatePermutation | src/Dataviz.js:35-83 | when every count is a number, reordering the batch gives each one-level view the same key-to-value map, and the nested view the same activities with the same location-to-value map under each |
| Dataviz.ActivityByLocationTotals | src/Dataviz.js:78-82 | the nested view lists its activities in the order of the activity view; when every count is a number, each activity's inner values add up to its activity value |
| Dataviz.MonthWithinYear | src/Dataviz.js:70-76 | every month key is seven characters `yyyy-MM` whose first four are a key of the year view |
| Dataviz.DayFirstToIso | src/Form.js:138-141 | `convertDateToISO` turns the `dd/MM/yyyy` text of a date into the `yyyy-MM-dd` text of the same date |
| Dataviz.UploadedRowCounted | src/Form.js:125 | a CSV row whose `Date` cell is a real date written `dd/MM/yyyy` is transformed and then counted under exactly that date |
| Dataviz.TwoRecordViews | src/Dataviz.js:59-82 | two records with different activities and local authorities give two location keys and two activity keys in record order, with the second activity counted at the second local authority only |
| Dataviz.ActivityByLocationMisaligned | src/Charts.js:92-106 | on those views, the chart as written draws the second activity's only count above the first local authority, where the activity has no count |
| Dataviz.ActivityByLocationRealigned | src/Charts.js:92-106 | on the same views, the aligned chart draws 0 above the first local authority and the count above the second |
| Dataviz.Dashboard.constructor | src/Dataviz.js:12-13 | the page starts with six empty views, no date views, and the uploaded-data charts selected |
| Dataviz.Dashboard.HandleDataParsed | src/Dataviz.js:92-99 | a batch with at least one record replaces the views by its aggregate; a missing or empty batch changes nothing; the page selection is untouched |
| Dataviz.Dashboard.HandleContributeClicked | src/Dataviz.js:101-103 | after a contribution the stored-data charts are selected and the views are kept |
| Dataviz.Dashboard.Shown | src/Dataviz.js:130 | the stored-data charts are shown exactly when a contribution was made; otherwise the uploaded charts show panels exactly when the guard holds |
| Dataviz.PlaceholderUntilUpload | src/Dataviz.js:12 | the initial views fail the chart guard, so the placeholder is shown; after any upload the guard holds and panels are shown, even when no record was kept |
| Dates.Parse | src/Dataviz.js:43-44 | whatever a format reads is a valid calendar date: the day exists in its month and year |
| Dates.TrailingTextRejected | src/Dataviz.js:43-44 | a format reads only the whole text: a date it wrote, followed by text that does not continue its last number, is rejected |
| Dates.MatchRenderRest | src/Dataviz.js:43 | reading what a separated pattern wrote fills the pattern's fields when nothing follows, and fails when anything that is not a digit follows |
| Dates.MatchRender | src/Dataviz.js:43 | reading the text a separated pattern wrote for a valid date fills the fields the pattern carries |
| Dates.ParseRender | src/Dataviz.js:43-44 | round trip: parsing what a pattern wrote gives the date back, when the pattern is separated and carries every field |
| Dates.DateFormatsRecover | src/Dataviz.js:30-33 | each of the twelve formats is separated and recovers the whole date (the nine date-only formats for dates at midnight) |
| Dates.FirstMatchIsFirst | src/Dataviz.js:42-48 | the ordered search fails exactly when every format fails; otherwise its date is that of some format, and all earlier formats fail |
| Dates.FirstMatchAt | src/Dataviz.js:42-48 | when the formats before `k` fail and format `k` reads the text, the search returns format `k`'s date |
| Dates.FirstMatchNone | src/Dataviz.js:50 | when no format reads the text, the search finds nothing |
| Dates.DayFirstWins | src/Dataviz.js:30 | a date written `dd/MM/yyyy` is read back as that date by the first format |
| Dates.AmbiguousReadsDayFirst | src/Dataviz.js:30-31 | a date written `MM/dd/yyyy` whose day is at most 12 is read day-first: day and month swap |
| Dates.MonthFirstFallback | src/Dataviz.js:30-31 | a date written `MM/dd/yyyy` whose day is above 12 fails the three day-first formats and is read correctly by `MM/dd/yyyy` |
| Dates.MonthFirstNotDdMm | src/Dataviz.js:30 | `MM/dd/yyyy` text with a day above 12 matches neither `dd/MM/yyyy` nor `dd-MM-yyyy` |
| Dates.MonthFirstNotDMY | src/Dataviz.js:30 | `MM/dd/yyyy` text with a day above 12 does not match `d/M/yyyy` |
| Dates.IsoFallback | src/Dataviz.js:30-32 | a date written `yyyy-MM-dd` fails the seven earlier formats and is read back as that date |
| Dates.YearFirstNotEarlier | src/Dataviz.js:30-32 | text that starts with four digits and a dash fails each of the seven formats before `yyyy-MM-dd` |
| Dates.FirstOfFebruary | src/Dataviz.js:30-48 | `01/02/2023` is read as 1 February 2023 |
| Dates.ChristmasDay | src/Dataviz.js:30-48 | `25/12/2023` is read as 25 December 2023 |
| Dates.MonthKeyEq | src/Dataviz.js:71 | two dates have the same `yyyy-MM` key exactly when they share year and month |
| Dates.MonthKeyOrder | src/Dataviz.js:71 | the `yyyy-MM` keys sort as text exactly in calendar order of the months |
| Dates.YearKeyOrder | src/Dataviz.js:75 | the `yyyy` keys are equal exactly when the years are, and sort as text exactly in year order |
| Dates.YearKeyPrefix | src/Dataviz.js:71-75 | the year key is the four-character prefix of the month key, which is seven characters with a dash at index 4 |
| Dates.MonthLabelNotChronological | src/AllData.js:44 | in one year the `MMM yyyy` label of February sorts as text before that of January |
| Dates.ParseIso | src/AllData.js:43 | `parseISO` reads only valid dates, and only from text of length 10 or 19 |
| Dates.ParseIsoRender | src/AllData.js:43 | `parseISO` reads back a date written `yyyy-MM-dd` |
| Form.ConvertDayFirst | src/Form.js:138-141 | three slash-free parts joined by `/` come back as the same parts in reverse order joined by `-` |
| Form.ConvertWithoutSlash | src/Form.js:138-141 | text without a slash comes back as `undefined-undefined-` followed by the text |
| Form.LocalAuthority | src/Form.js:110-121 | the local authority is the looked-up district when the row has a non-empty postcode and the lookup succeeded; it is `''` when the postcode cell is missing or empty, or when the lookup failed |
| Form.TransformRow | src/Form.js:122-131 | a row with a `Date` column becomes the record with each column copied to its field unchanged, the date converted and the count parsed; a row without one fails |
| Form.TransformData | src/Form.js:105-136 | the batch succeeds exactly when every row has a `Date` column; it then holds, in order, each row's own record built with that row's lookup result; otherwise it fails with the `split` TypeError |
| Form.LookupIsolated | src/Form.js:109-121 | changing one row's lookup result changes only that record's local authority |
| Form.TagRows | src/Form.js:155-158 | tagging keeps the length and every record, and gives every row the same organisation id |
| Form.InsertDataToSupabase | src/Form.js:143-158 | nothing is inserted exactly when the organisation id is `null` or `0`; otherwise the tagged rows are inserted in order |
| AllData.AggregateData | src/AllData.js:140-147 | the `reduce` builds what `aggregateDataBySum(data, field, 'number_of_people')` builds, so "Local Authority Count" sums people and does not count rows |
| AllData.AggregateDataBySum | src/AllData.js:189-196 | the `reduce` applies the accumulation step once per row, in order |
| AllData.AggregatedMeaning | src/AllData.js:140-147 | the keys are exactly the column values of the rows; when every count is a number, each value is the number of people of the rows with that key |
| AllData.AggregatedTotal | src/AllData.js:140-147 | when every count is a number, the values add up to the number of people in all the rows |
| AllData.AggregatedEmpty | src/AllData.js:141 | both aggregators give no key exactly when there are no rows |
| AllData.StoredDate | src/AllData.js:43 | a stored date that `parseISO` reads is a valid calendar date |
| AllData.InvalidDateFails | src/AllData.js:42-48 | one row with a missing or unreadable date makes `format` throw, which stops the whole computation |
| AllData.BucketByMonthAndYear | src/AllData.js:40-48 | the `forEach` builds the month and year buckets that the fold over the rows defines, or raises the invalid-time error |
| AllData.BucketsHoldEveryRow | src/AllData.js:40-48 | when every date is readable, the month buckets are exactly the rows' months and the year buckets exactly their years; when every count is a number, both add up to the number of people |
| AllData.PrepareChartData | src/AllData.js:149-164 | the labels are the dictionary's keys in key order |
| AllData.PreparedBars | src/AllData.js:149-168 | `preparePieChartData` returns what `prepareChartData` returns; its one dataset has the value of each label, a random colour per label, and as border that colour made opaque |
| AllData.PrepareLineChartData | src/AllData.js:170-183 | the labels are the keys sorted as text, one per key, with the value of each label in label order and a fixed line colour |
| AllData.LineLabelsOrder | src/AllData.js:171 | of two keys, the one that is less as text comes first among the line chart's labels |
| AllData.MonthLabelsOutOfOrder | src/AllData.js:44 | with `MMM yyyy` keys, the line chart lists February of a year before January of the same year |
| AllData.ChronologicalMonthLabels | src/AllData.js:170-172 | with `yyyy-MM` keys, of two rows whose months the line chart lists in some order, the first is not later in the calendar |
| AllData.AggregatesOf | src/AllData.js:34-48 | the aggregation, with `MMM yyyy` month buckets as written, succeeds exactly when every date is readable; each of the seven dictionaries then has no key exactly when there are no rows |
| AllData.ChronologicalAggregatesOf | src/AllData.js:34-48 | the corrected aggregation succeeds exactly when `AggregatesOf` does, and differs from it only in the month buckets, which are the `yyyy-MM` buckets; they have no key exactly when there are no rows |
| AllData.StoredCharts | src/AllData.js:52-58 | the seven charts come in page order, each under its heading and with a label per key of its dictionary |
| AllData.Visible | src/AllData.js:73-134 | a chart is shown only with at least one label; all charts are shown when all have labels, and none when none has |
| AllData.AllDataScreen | src/AllData.js:23-134 | nothing is shown when the fetch fails, when a date cannot be formatted, or when there are no rows; otherwise all seven charts are shown |
| Charts.ActivityRgba | src/Charts.js:29-35 | a known activity gets its own colour, any other label gets grey, all at alpha 0.5 |
| Charts.Backgrounds | src/Charts.js:61-67 | one background per label: the activity colour (grey when unknown) for the activity chart, blue for every label otherwise |
| Charts.Borders | src/Charts.js:70-78 | one border per background, each the pattern rewrite of its background |
| Charts.GenerateChartData | src/Charts.js:58-90 | the labels and values as given, one dataset, and for each label a background and as border the same colour with alpha 1 |
| Charts.SortedLabels | src/Charts.js:109 | the labels are the view's keys sorted as text, each a key of the view |
| Charts.ValuesAt | src/Charts.js:110 | one value per label: the view's value under that label |
| Charts.GenerateChartDataForDate | src/Charts.js:108-122 | the keys sorted as text, the value of each label, blue bars with an opaque blue border |
| Charts.GenerateChartDataForDateByMonth | src/Charts.js:140-154 | the keys sorted as text, the value of each label, teal bars with an opaque teal border |
| Charts.GenerateChartDataForDateByYear | src/Charts.js:156-170 | the keys sorted as text, the value of each label, purple bars with an opaque purple border |
| Charts.RandomBars | src/Charts.js:172-204 | the keys sorted as text, the value of each label, a random colour per label and, as its border, the same colour with alpha 1 |
| Charts.GenerateChartDataForTypeOfInsight | src/Charts.js:172-187 | the keys sorted as text, with the value of each label under the caption "Type of Insight" |
| Charts.GenerateChartDataForAgeRange | src/Charts.js:189-204 | the keys sorted as text, with the value of each label under the caption "Age Range" |
| Charts.ActivityByLocationAsWritten | src/Charts.js:92-106 | the x labels are the location view's keys; one stack per activity, captioned with it, holding the activity's own counts in the order its locations first appeared |
| Charts.ActivityByLocationAligned | src/Charts.js:92-106 | one stack per activity with one value per x label: the activity's count at that location, 0 where it has none |
| Charts.GeneratePieChartData | src/Charts.js:124-138 | the activity keys are the labels and there is one pie dataset with exactly one slice colour per activity: a known activity gets its fixed colour, any other activity gets the random colour drawn at its own position, at alpha 0.5 |
| Charts.PieColours | src/Charts.js:128 | one colour per activity, in the activities' order, each chosen as for a stack: the fixed colour of a known activity, else the random colour at its position |
| Charts.PieMatchesActivityBars | src/Charts.js:61-63 | the pie and the activity bar chart label the same activities; a slice has its bar's colour exactly when the activity is a known one or its random colour is the grey of unknown bars |
| Charts.StackColour | src/Charts.js:98 | a stack of the activity-by-location chart takes its activity's fixed colour, or a random colour at alpha 0.5 when the activity is not a known one |
| Charts.ChartsScreen | src/Charts.js:38-285 | the placeholder is shown exactly when the activity, location, date or activity-by-location view is missing; otherwise the activity pie chart comes first when the activity view has data, and the stacked chart as written comes last when the activity-by-location view has data |
| Colors.RandomColor | src/Charts.js:54-56 | a random colour is the three drawn channels with alpha 0.5 |
| Colors.Search | src/Charts.js:72 | what the pattern matches is three channels of decimal digits |
| Colors.MatchRgbaText | src/Charts.js:72 | the pattern reads the three channels back out of `rgba(...)` text, whenever the alpha text satisfies `\s*\d?.\d+\)` after its comma |
| Colors.BorderOfHalfAlpha | src/Charts.js:70-78 | a half-transparent colour gets the same colour with alpha 1 as its border |
| Colors.BorderIdempotent | src/Charts.js:70-78 | rebuilding a border colour a second time changes nothing |
| Colors.NoMatchWithoutParen | src/Charts.js:77 | text without `(` does not match and is returned unchanged |
| Colors.ReplaceHalfAlphaOpaque | src/AllData.js:160 | the trailing-`0.5)` replacement makes a half-transparent colour opaque |
| Colors.HalfAlphaTextInjective | src/Charts.js:54-56 | two half-transparent colours have the same `rgba(...)` text exactly when their channels agree |
| Colors.BordersAgree | src/Charts.js:183 | on the random colours the replacement and the pattern rewrite give the same border |
| Colors.ReplaceHalfAlphaIdempotent | src/Charts.js:200 | the replacement applied twice changes nothing more |
| Colors.ReplaceAnyMiddle | src/Charts.js:183 | the unescaped `.` of the replacement pattern also rewrites `0,5)` |
| JsText.ParseIntText | src/Dataviz.js:59 | `parseInt` reads back the text of any integer followed by a non-digit |
| JsText.ParseIntNumber | src/AllData.js:143 | `parseInt` of a stored number is the number itself, and of NaN is NaN |
| JsText.ParseIntLetters | src/Form.js:126 | a count without digits is NaN |
| JsText.ParseIntSignOnly | src/Form.js:126 | a sign with no digit after it is NaN |
| JsText.SplitJoin | src/Form.js:139 | splitting undoes joining when no piece contains the separator |
| JsText.SplitAppend | src/Form.js:139 | splitting at a separator splits the two sides independently |
| JsText.SplitNoSeparator | src/Form.js:139 | text without the separator is one piece |
| JsText.DigitsOrder | src/Charts.js:141 | on digit strings of one length, text order is numeric order |
| JsText.LessAppend | src/Charts.js:141 | texts whose first parts have the same length compare by the first parts, and by the rest only when the first parts agree |
| JsText.LeTotal | src/AllData.js:171 | the default sort order is total |
| JsText.LeAntisymmetric | src/AllData.js:171 | the default sort order is antisymmetric |
| JsText.LeTransitive | src/AllData.js:171 | the default sort order is transitive |
| JsText.Sort | src/AllData.js:171 | `keys.sort()` returns the same strings, as a permutation, in ascending order |
| JsText.Insert | src/AllData.js:171 | inserting into a sorted list keeps it sorted and adds exactly the one string |
| JsObject.Put | src/Dataviz.js:59 | assigning to a key stores the value under it and keeps the dictionary well formed: a new key goes to the end of the key order, an existing key keeps its place |
| JsObject.Values | src/AllData.js:151 | `Object.values` lists one value per key, in key order |
| JsObject.FoldKeys | src/AllData.js:140-147 | the keys of the accumulated dictionary are exactly the keys of the rows |
| JsObject.FoldValue | src/AllData.js:140-147 | when every count is a number, the value under each key is the sum of the counts of the rows with that key |
| JsObject.FoldTotal | src/AllData.js:140-147 | when every count is a number, the values add up to the sum of all counts |
| JsObject.FoldPermutation | src/Dataviz.js:35-83 | when every count is a number, reordering the rows gives the same key-to-value map |
| JsObject.FoldCongruence | src/AllData.js:140-147 | folds with key and count functions that agree on the rows are equal |
| JsObject.NaNResetsKey | src/AllData.js:144 | `(acc[k] \|\| 0)` reads a stored NaN as 0, so the next number under the key replaces the NaN |
| JsObject.NaNOrderMatters | src/AllData.js:144 | because of that, a NaN count followed by 5 gives 5 under the key, while 5 followed by NaN gives NaN |
| JsObject.NestedKeys | src/Dataviz.js:79-82 | the nested dictionary lists its outer keys exactly as the one-level dictionary on the outer key does |
| JsObject.NestedInner | src/Dataviz.js:79-82 | each inner dictionary is the one-level dictionary, on the inner key, of the rows with that outer key |
| JsObject.NestedTotal | src/Dataviz.js:79-82 | when every count is a number, an inner dictionary adds up to the one-level value of its outer key |
| JsObject.NestedPermutation | src/Dataviz.js:79-82 | when every count is a number, reordering the rows gives the same outer keys, with the same inner key-to-value map under each |
| Counts.Plus | src/Dataviz.js:59 | `+` on numbers is a number exactly when both sides are |
| Counts.CountSumPermutation | src/Dataviz.js:35-83 | a total does not depend on the order of the rows |
| Counts.FilterMapPermutation | src/Dataviz.js:50-53 | dropping rows from a permutation gives a permutation of the rows kept |

## Left out

- Rendering: React state hooks, JSX markup and Chart.js options are not modelled. Which charts appear, in which order and under which heading is modelled as a list of panels.
- Network I/O: the Supabase queries and inserts and the postcodes.io request are not modelled. The fetched rows, the lookup result of each row (`Option<string>`) and the organisation id (`Option<int>`) are parameters.
- Organisation lookup: `insertOrganisationAndGetId` is not modelled, because it consists only of database calls.
- Lookup errors: the error message set on a failed lookup and the loading flag are not modelled.
- CSV parsing: Papa Parse is not modelled. Rows arrive already parsed as column-to-text maps.
- Concurrency: the `Promise.all` lookups are modelled as independent per-row results. Their timing is not modelled.
- Randomness: the channels of each random colour are a parameter (`Draw`). Each chart has its own draws, one per label, taken by the label's position.
- Pie chart percentages: `count / total * 100` is floating point and is not modelled. The pie chart keeps its labels and colours.
- JsText.ParseIntNumber: JavaScript numbers are doubles. The model reads a count as an unbounded integer. In the program, a count of 10^21 or more is written in exponent form (`1e+21`), so `parseInt` reads only its leading digits. Counts and sums above 2^53 are also rounded in the program. The model's counts and all its sum lemmas (`Dataviz.AggregateTotals`, `JsObject.FoldTotal`, `AllData.AggregatedTotal`) assume counts and totals below 2^53.
- Logging: `console.log` and `console.error` are not modelled. A dropped record is visible in the model only as a record missing from `Kept`.
- JsObject.Put: JavaScript lists array-index-like keys such as `"2023"` or `"1"` before all other keys, in numeric order. The model lists keys in insertion order only. This changes the label order of every chart whose labels are not sorted, whenever a view has such keys. Examples are the stored year chart, and a local authority or age range written as a plain number.
- Dates.Parse: this is an abstraction of date-fns `parse`. It covers the numeric tokens, the literal characters and `a` that the twelve patterns use. It requires the whole text to match (`Dates.TrailingTextRejected`). date-fns also rejects trailing text, but it accepts trailing white space, which the model rejects. The model's `a` accepts only `AM`, `am`, `PM` and `pm`. date-fns reads `a` without regard to case and also accepts forms such as `a.m.` and `p.m.`, so `02/01/2023 10:00:00 Pm` is kept by the program and dropped by the model. The reference date, time zones and the `MMM` month-name parser are not modelled.
- Dates.ParseIso: `parseISO` is modelled only on the `yyyy-MM-dd` and `yyyy-MM-ddTHH:mm:ss` shapes. Other ISO 8601 forms (offsets, fractions, week dates) are read as invalid. Two inputs of those shapes are also read differently. `parseISO` accepts year `0000`, which the model rejects because its calendar starts at year 1. It also accepts the hour `24:00:00`, which the model rejects as an hour out of range. For such a stored row the program draws the row, while the model's `AllData.InvalidDateFails` stops the whole computation.
- JsObject.AddCount: every view is a plain `{}` object, so a key such as `constructor` or `toString` is found on `Object.prototype` before any count is stored. For such a key `acc[k] || 0` gives a function, and `+` then makes a text rather than a number. An assignment to `__proto__` stores nothing. In the nested view, `!obj[activity]` is false for these names, so no inner `{}` is created and the counts are written onto the inherited function. The model treats every key as an own property that starts absent.
- Dates.MonthLabel: `format(date, 'MMM yyyy')` is modelled as the English month abbreviation, a space, and the zero-padded year.
- AllData.PrepareChartData: its own ensures states only the labels. The dataset's values, colours and borders are stated in `AllData.PreparedBars`.
- Charts.ChartsScreen: its ensures states when the placeholder is shown, and which panels come first and last. The order of the panels in between follows the markup line by line in its body.
- Charts.GenerateChartDataForTypeOfInsight and Charts.GenerateChartDataForAgeRange: their ensures leave out the colours. Those are stated by `Charts.RandomBars`, which both return.
- AllData.AggregatesOf, AllData.AllDataScreen and Charts.ChartsScreen: these compose the code as written, with `MMM yyyy` month keys and the misaligned stacked chart. The corrected behaviour is kept beside them, in `AllData.ChronologicalAggregatesOf` and `Charts.ActivityByLocationAligned` (see Findings). No corrected screen is modelled.

## Findings

| source | as written | input that shows it | evidently intended | confidence | as-written member | corrected member |
|---|---|---|---|---|---|---|
| src/Charts.js:92-106 | each stacked dataset holds the activity's own counts in the order its locations first appeared, while the x labels are the keys of the location view | two records: activity A at local authority L1, then activity B at L2 (different activities and authorities) | each dataset holds one value per x label, the activity's count at that label | high (not executed) | Dataviz.ActivityByLocationMisaligned | Dataviz.ActivityByLocationRealigned |
| src/AllData.js:44 | the month buckets are keyed `MMM yyyy`, and the line chart sorts them as text | rows dated in January and February of the same year | the month labels follow the calendar | high (not executed) | AllData.MonthLabelsOutOfOrder | AllData.ChronologicalMonthLabels |
