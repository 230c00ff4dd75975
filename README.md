# Marketing analysis dashboard: data core in Dafny

The dashboard (`script.js`) lets a user upload a delimited text table, a CSV file or a GA4
screenshot, and connect a mock "AI" analysis. It then renders an analysis tab. This project
models the part of it that is logic rather than page wiring:

- **Plain-text ingestion** (`TextIngest`). The file is split on line feeds and the blank lines
  are dropped. The delimiter is sniffed from the first line: tab, else semicolon, else comma.
  The first line is the header, and every further line becomes a row object.
- **CSV post-processing** (`CsvIngest`). This takes the grid and error list that the CSV reader
  delivers. Any error aborts with the first message. Otherwise the data rows whose cells are all
  empty are dropped, and the rest go through the same header-to-object mapping.
- **Row objects** (`Records`). A row object starts as `{ id: index }` and is assigned
  `header → cell` for every header in order, with the empty string for a missing cell.
  - An object is modelled with its keys in insertion order plus a map.
  - A repeated header keeps its first position and its last value.
  - A header named `id` overwrites the number.
  - The specification `Conforms` states the keys and their values declaratively. `BuildRecord`
    is proved to meet it, and `ConformsDeterminesFields` shows that it pins down every value.
    Key order is not part of `Conforms`; it is fixed only by the definition of `BuildRecord`.
- **Numeric-column detection** (`Schema`). Only the first row object is consulted. Its non-`id`
  keys whose value is non-empty and numeric are kept, in key order.
- **Table previews** (`Preview`). The upload preview has 3 rows × 6 columns with cells cut at 20
  characters. The analysis data table has 5 × 8 with cells cut at 30. Both throw on an empty
  dataset.
- **Analysis state and view selection** (`Analysis`, `Insights`).
  - The three module-level slots `csvData`, `ga4Data` and `aiData` are a class, `Dashboard`.
    Each handler completion is one method.
  - The update of the analysis tab is a pure function of the slots, `SelectView`. It decides
    which panels show, which payload feeds the traffic panel (AI wins), and which
    recommendations are listed and with what text.

Shared JavaScript string behaviour lives in `Text`:
- `trim` with the ECMAScript whitespace set;
- `split` on one character, with its inverse `Join`;
- the display truncation;
- `String(n)` for naturals;
- the file-extension test.

Filtering (`Array.prototype.filter`) lives in `Lists`. `Wrappers` holds `Option` and `Result`.

Two behaviours are easy to miss:
- **Header-only files.** For a header-only `.txt` file, and for a `.csv` file whose data rows
  are all empty, the dataset `[]` is installed first. Building the preview then throws, so the
  processing-failed message is shown while `csvData` remains `[]`. The analysis tab is redrawn
  only after a shown preview, so here it keeps what it showed before, the "no data" notice
  included (`CompleteTextRead` and `CompleteCsvParse` report the redraw as `refreshed`).
- **Later updates on an empty dataset.** An empty array is truthy, so `[]` counts as data. From
  then on every visualisation update throws when it reaches the tabular panel. The panel's
  visibility and the recommendations are then left as they were (`SelectView`,
  `EmptyDatasetStallsUpdates`).

The code keeps only the row objects, not a header list. An empty dataset therefore has no
columns at all, and the previews and the tabular panel take their columns from the first row
object.

## Model

| member | source | states |
|---|---|---|
| Text.Trim | script.js:150 | the result is the infix of the input between the leading and trailing whitespace; everything outside it is whitespace, its ends are not; it is empty exactly when the input is all whitespace |
| Text.TrimIdempotent | script.js:150 | a property of the model's `trim` only (the dashboard never trims twice): trimming an already trimmed string changes nothing |
| Text.Split | script.js:150 | at least one piece, and no piece contains the separator |
| Text.SplitCount | script.js:150 | there is exactly one more piece than there are separator occurrences |
| Text.JoinSplit | script.js:158 | joining the pieces with the separator gives back the original line |
| Text.SplitJoin | script.js:158 | splitting separator-free pieces joined by the separator gives the pieces back |
| Text.Truncate | script.js:264-265 | a string within the width is unchanged; a longer one becomes its first `width` characters followed by "..." |
| Text.TruncateIdempotent | script.js:782-783 | a property of the model's truncation only (the dashboard never truncates twice): truncating a truncated cell again changes nothing |
| Text.DecimalString | script.js:815 | the rendering of a count is a non-empty digit string without a leading zero |
| Text.DecimalRoundTrip | script.js:815 | reading the rendered digits back gives the count |
| Text.Extension | script.js:104 | the extension contains no dot, and a name without a dot is its own extension |
| Text.TextFileNameWithoutDot | script.js:104-107 | a name without a dot goes to the plain-text parser exactly when it is `txt` in any letter case |
| Text.ExtensionAfterDot | script.js:104 | the extension of `stem.ext` is `ext` when `ext` has no dot |
| Text.TextFileNameByExtension | script.js:104-107 | a file goes to the plain-text parser exactly when its last extension is `txt` in any letter case |
| Lists.Filter | script.js:120 | the result keeps exactly the elements satisfying the test, each as many times as it occurs in the input, as a subsequence of the input |
| Records.Put | script.js:125 | assigning a property keeps every key once, sets the value and keeps `id` first |
| Records.Fill | script.js:164-166 | after assigning the first n headers the object conforms to that header prefix |
| Records.BuildRecord | script.js:162-168 | the row object has the key `id` and every header and nothing else; each header holds the cell of its last occurrence or ""; `id` holds the index unless a header replaced it |
| Records.BuildDataset | script.js:122-128 | one row object per data row, the k-th conforming to row k with id k |
| Records.LastOccurrenceExists | script.js:124-125 | every header that occurs has a last occurrence, whose assignment survives |
| Records.ConformsDeterminesFields | script.js:122-128 | two row objects conforming to the same header and row have the same properties and values |
| Records.DistinctHeaders | script.js:164-166 | with distinct headers and no `id` header, header i holds the i-th cell and `id` the index |
| Records.TrailingFieldExample | script.js:165 | headers `a,b,c` over `1,2,` or `1,2` give a→"1", b→"2", c→"", id→0 |
| TextIngest.NonBlankLines | script.js:150 | the kept lines are exactly the non-blank lines of the file, each as often as it occurs, in order |
| TextIngest.DetectDelimiter | script.js:153-156 | tab iff the line has a tab; semicolon iff no tab and a semicolon; comma iff neither |
| TextIngest.ParseText | script.js:147-168 | fails exactly when no line is non-blank; otherwise (non-blank lines − 1) row objects, the k-th conforming to the split header line and the split (k+1)-th line with id k |
| TextIngest.HeaderOnlyGivesEmptyDataset | script.js:158-168 | a file with only a header line parses to the empty dataset, not to a failure |
| CsvIngest.ContentRows | script.js:120 | the kept data rows are exactly the rows after the header with a non-empty cell, each as often as it occurs, in order; none for an empty grid |
| CsvIngest.PostProcess | script.js:113-128 | fails with the first error message iff errors were reported; otherwise one conforming row object per kept data row |
| Schema.DataKeys | script.js:714 | the keys other than `id`, all of them, in key order |
| Schema.NumericKeys | script.js:711-719 | empty for absent or empty data; otherwise an order-preserving subsequence of the first row object's keys holding exactly the non-`id` keys whose first-row value is non-empty and numeric |
| Schema.FirstRowDecides | script.js:714-718 | datasets with the same first row object have the same numeric keys |
| Schema.NumericKeysExample | script.js:711-719 | headers `name,age,id` over `Alice,30,0` give the numeric keys `["age"]`, whatever the later rows |
| Preview.PreviewTable | script.js:241-242 | fails exactly on an empty dataset; otherwise the first keys of the first row object as columns, the first rows, each cell the truncated displayed value |
| Preview.UploadPreview | script.js:238-284 | at most 3 rows and 6 columns, cells at most 23 characters, failure exactly on an empty dataset |
| Preview.DataTable | script.js:761-795 | at most 5 rows and 8 columns, cells at most 33 characters, failure exactly on an empty dataset |
| Insights.TopicFor | script.js:472 | each of the three named categories selects its own text; every other category, the empty one included, selects the default |
| Insights.GenerateInsight | script.js:397-473 | the analysis quotes the pain points and uses the text the category lookup selects, the default one for no category |
| Analysis.PanelSource | script.js:570 | the traffic panel's payload is the AI data when present, else the screenshot data, and there is one iff either is present |
| Analysis.Recommendations | script.js:797-817 | the traffic block comes first iff screenshot or AI data is present, the tabular block last iff a dataset is present, at most two, with their exact texts |
| Analysis.Ga4AdviceQuotesPainPoints | script.js:805-807 | the traffic text opens with the AI wording iff AI data is present, and the pain points can be read back from between its fixed parts |
| Analysis.CsvAdviceQuotesCount | script.js:815 | the tabular text quotes the number of row objects in decimal, recoverable from the text |
| Analysis.CsvPanel | script.js:672-709 | the tabular panel is built exactly for a non-empty dataset, with its record count, field count, numeric keys and data table |
| Analysis.SelectView | script.js:531-567 | the notice iff no slot holds data; the traffic panel shown iff screenshot or AI data, from the panel source, and hidden otherwise; the tabular panel iff a non-empty dataset; left unchanged, with the recommendations, iff the dataset is empty; otherwise recommendations iff any slot holds data |
| Analysis.AiDataTakesTrafficPanel | script.js:549-554 | adding AI data makes the traffic panel show it and leaves the tabular panel as it was |
| Analysis.ScreenshotUnderAiIsSuppressed | script.js:570 | while AI data is present a new screenshot does not change the traffic panel |
| Analysis.DisconnectFallsBackToScreenshot | script.js:526 | after disconnecting, the traffic panel shows the screenshot data and the tabular panel is unaffected |
| Analysis.EmptyDatasetStallsUpdates | script.js:686 | with an empty dataset installed, no update reaches the tabular panel or the recommendations |
| Analysis.PreviewOrError | script.js:131-136 | the upload preview of that dataset is shown unless the dataset is empty, in which case the processing message is |
| Analysis.CanConnect | script.js:337-341 | the form is accepted iff both the API key and the pain points contain a non-whitespace character |
| Analysis.MockAiAnalysis | script.js:377-395 | the AI payload echoes the pain points, category and provider, and carries the insight for them |
| Analysis.Dashboard.constructor | script.js:2-4 | all three slots start empty |
| Analysis.Dashboard.CompleteCsvParse | script.js:111-136 | with errors, nothing changes and the first message is shown; otherwise the dataset is installed, then the preview or the processing message follows; the analysis tab is redrawn exactly when the preview was shown |
| Analysis.Dashboard.CompleteTextRead | script.js:147-182 | a read error or a file without a non-blank line changes nothing and shows its message; otherwise the dataset is installed, then the preview or the processing message follows; the analysis tab is redrawn exactly when the preview was shown |
| Analysis.Dashboard.CompleteScreenshot | script.js:196-219 | only the screenshot slot changes |
| Analysis.Dashboard.ConnectAi | script.js:344-375 | blank input raises the alert and changes nothing; otherwise only the AI slot changes, to the payload for the trimmed pain points |
| Analysis.Dashboard.DisconnectAi | script.js:511-528 | only the AI slot changes, to empty |

## Left out

- Page wiring is not modelled: DOM access, class toggling, tabs, drag and drop, event listeners, HTML templates and the button state. `CanConnect` is the predicate both the button check and the connect handler use.
- The file reader, the timers and the interleaving of callbacks are left out. Each completion is one atomic method call, and the later of two completions wins.
- The CSV reader's own quoting-aware splitting and its `skipEmptyLines` option are left out. Its grid and error messages are inputs to `PostProcess`.
- Number conversion (`Number`, `isNaN`) is float parsing and is left out. The numeric test is a caller-supplied predicate `isNumeric`; the synthetic numeric id passes it.
- The random figures, `toFixed`, `toLocaleString`, ISO time stamps and the metric cards are left out. The figures and the times are parameters of the handlers.
- Chart construction is a foreign library and is left out.
- JavaScript's own key order puts integer-like property names first. It is not modelled: keys keep plain insertion order.
- Strings are sequences of code points. UTF-16 code units are not modelled, so lengths for truncation differ for characters outside the Basic Multilingual Plane.
- Insights.TopicFor: a category naming an inherited object property (such as `constructor`) would be truthy in the lookup and is not modelled; such categories fall back to the default text here.
- Records.BuildRecord: a header named `__proto__` assigns through the inherited setter, which ignores a string, so the JavaScript object gets no own property for it; the model gives it a key like any other header.
- Insights.GenerateInsight: the four static analysis texts are represented by a topic tag plus the quoted pain points, not by their full wording.
- The screenshot reader's error path only displays a message and changes no slot, so it has no method.
- The preview's file-type badge and "rows loaded" line are display text and are left out.
- Analysis.SelectView: when an update throws at the tabular panel, the traffic panel's content has already been set. The model records it as shown and leaves the other two panels `Unchanged`; the partially rendered metric cards are not modelled.
