# Campaign dashboard core, modelled in Dafny

This project models the logic of a marketing-analytics dashboard. The
dashboard itself is a React application; the model leaves its views aside
and covers these parts:

- **Campaign records** (`data.dfy`, module `CampaignData`). A `TableRow` has
  closed enumerations for status, category and platform. Dates are
  calendar triples written in ISO form. The six seed rows come with it.
- **Advanced filter panel** (`filters.dfy`, `AdvancedFilters`). The filter
  engine reassigns `filtered` step by step and is proved equal to "the rows
  satisfying every criterion, in order". The module also has the
  active-criteria count loop, list toggling, the `{...filters, ...patch}`
  merge, and the panel's state as a class.
- **Data table** (`table.dfy`, `DataTable`). It covers:
  - the status drop-down;
  - the type-dispatching comparator, with `localeCompare` taken as code-unit
    order;
  - the stable sort, proved to give a sorted permutation;
  - `ceil(n/5)` pages and JavaScript `slice` pagination;
  - the "Showing X to Y" bounds;
  - the sort-state toggle and the Previous/Next buttons;
  - the table's state as a class.
- **CSV records** (`csv.dfy`, `Csv`). Fields follow RFC 4180 section 2:
  plain, or quoted with inner quotes doubled (rule 7). A record reader gives
  the round trip its meaning.
- **Report pieces shared by both exporters** (`report.dfy`, `Report`):
  - summary totals, proved independent of row order;
  - the ROI and status classes;
  - the date-stamped file names.
- **The two export buttons** (`export_button.dfy`, `ExportButton`, and
  `simple_export.dfy`, `SimpleExport`). They produce the CSV text, the HTML
  report rows and summary, and they keep an `isExporting` guard. The first
  button also raises toasts.
- **Toast queue** (`toast.dfy`, `Toasts`). A module-level queue of at most
  three toasts, a counter for ids, and listeners that receive a copy of the
  queue after every change.
- **Storage housekeeping** (`storage.dfy`, `Storage`):
  - the key-selection test;
  - the collect-then-remove cleanup loops;
  - clearing session storage above 50 entries;
  - the quota probe.
- **Website analyser** (`website_integration.dfy`, `WebsiteIntegration`).
  URL normalisation, title derivation from the host name, the mock figures
  with their ranges, and the `handleAnalyze`/`analyzeUrl` state changes.
- **Insights dashboard** (`website_dashboard.dfy`, `InsightsDashboard`).
  Visitors per traffic source, page names, score bands, status colours and
  the palette cycle.

`common.dfy` (`Common`) holds the JavaScript array and string operations
the code relies on, stated over sequences: `filter`, `join`, `split`,
`includes`, `startsWith`, `replace`, and ASCII `toLowerCase`/`toUpperCase`.

Several things the program gets from the browser or the JavaScript runtime
become parameters:

- number-to-text conversion: `show` stands for `String(n)`, `locale` for
  `toLocaleString` and `date` for `toLocaleDateString`;
- the current time: an ISO timestamp string;
- whether the browser's download calls succeed: `downloadOk`;
- whether a storage write fits the quota: `fits`;
- URL parsing: `parseHost`;
- random draws: natural numbers reduced into the range the code scales
  them to.

## Model

| member | source | states |
|---|---|---|
| CampaignData.EnumTextsInjective | src/lib/data.ts:18-32 | distinct status, category and platform values have distinct texts |
| CampaignData.IsoText | src/lib/data.ts:28-29 | a date is written as ten characters `YYYY-MM-DD`, free of `T`, commas, quotes and line breaks |
| CampaignData.CampaignTableData | src/lib/data.ts:103-194 | the seed table has six rows |
| CampaignData.FixtureIds | src/lib/data.ts:103-194 | the seed ids are "1" to "6" in order and pairwise distinct |
| CampaignData.FixtureDatesOrdered | src/lib/data.ts:103-194 | every seed row starts on or before the day it ends |
| CampaignData.FixtureWithinDefaultRanges | src/lib/data.ts:103-194 | every seed ROI lies in [0, 1000] and every cost in [0, 50000] |
| AdvancedFilters.ApplyFilters | src/components/advanced-filters.tsx:87-140 | the step-by-step reassignment of `filtered` yields exactly the input rows that satisfy every active criterion, in input order |
| AdvancedFilters.RowMatches | src/components/advanced-filters.tsx:89-140 | under the default filters a row passes iff its ROI is within 0..1000 and its cost within 0..50000 |
| AdvancedFilters.Filtered | src/components/advanced-filters.tsx:87-142 | the rows handed on are no more than the input rows, and each is an input row satisfying every criterion |
| AdvancedFilters.FilteredIsSubsequence | src/components/advanced-filters.tsx:87-140 | the filtered rows are a subsequence of the input: order is kept |
| AdvancedFilters.FilteredMembers | src/components/advanced-filters.tsx:89-140 | a row survives iff it is in the input and satisfies all of these: the start and end date bounds (an empty bound accepts, an unparsable one rejects); each non-empty status, category and platform allow-list; the inclusive ROI and cost ranges; the ASCII case-insensitive name search |
| AdvancedFilters.DefaultFilters | src/components/advanced-filters.tsx:55-63 | the defaults activate no criterion, and the ROI and cost ranges span 0 to 1000 and 0 to 50000 |
| AdvancedFilters.DefaultFiltersKeepInRange | src/components/advanced-filters.tsx:123-132 | the default filters keep every row whose ROI lies in [0, 1000] and cost in [0, 50000] |
| AdvancedFilters.DefaultFiltersDropHighRoi | src/components/advanced-filters.tsx:123-126 | the ROI range is applied even at its default: a row with ROI above 1000 is dropped although the active-filter count is 0 |
| AdvancedFilters.FixtureUnchangedByDefaults | src/components/advanced-filters.tsx:55-63 | the default filters return the seed table unchanged |
| AdvancedFilters.SearchIgnoresCase | src/components/advanced-filters.tsx:135-140 | with ASCII case mapping, upper-casing the search term keeps or drops exactly the same rows |
| AdvancedFilters.ActiveCountRange | src/components/advanced-filters.tsx:157-167 | the count is at most the seven criteria, is 0 iff no criterion is active, and is 0 for the defaults |
| AdvancedFilters.ActiveCount | src/components/advanced-filters.tsx:157-167 | the count is at most seven and is 0 iff no criterion is active |
| AdvancedFilters.CountActiveFilters | src/components/advanced-filters.tsx:157-167 | the counting loop returns the number of active criteria |
| AdvancedFilters.Toggle | src/components/advanced-filters.tsx:173-176 | after a toggle the value is present iff it was absent before; an absent value is appended at the end with the rest kept |
| AdvancedFilters.ToggleTwice | src/components/advanced-filters.tsx:173-176 | a toggle leaves every other value's membership alone, and toggling twice restores the membership set |
| AdvancedFilters.MergeFields | src/components/advanced-filters.tsx:146-150 | the start date and the ranges the patch does not name keep their values; merging the same patch twice is the same as merging it once |
| AdvancedFilters.Merge | src/components/advanced-filters.tsx:147 | for each of the eight fields (start and end date, status, category and platform lists, ROI and cost ranges, search term), a value the patch names replaces the current one and a field it does not name is kept; an empty patch changes nothing |
| AdvancedFilters.FilterPanel.constructor | src/components/advanced-filters.tsx:72-75 | the panel starts from the defaults overlaid with the initial filters |
| AdvancedFilters.FilterPanel.UpdateFilters | src/components/advanced-filters.tsx:146-150 | the filters become the merge, and the emitted rows are the data filtered by it |
| AdvancedFilters.FilterPanel.ToggleArrayFilter | src/components/advanced-filters.tsx:169-179 | toggles the value in the chosen list and emits the newly filtered data |
| AdvancedFilters.FilterPanel.ClearAllFilters | src/components/advanced-filters.tsx:152-155 | resets to the defaults and emits the unfiltered data |
| DataTable.StatusFilteredMeaning | src/components/data-table.tsx:47-49 | "all" keeps every row; a status keeps exactly the rows with that status; order is kept |
| DataTable.StatusFiltered | src/components/data-table.tsx:47-49 | at most the input rows, each an input row and, when a status is chosen, of that status |
| DataTable.LexCompare | src/components/data-table.tsx:57-58 | the string comparison returns -1, 0 or 1, and 0 iff the strings are equal |
| DataTable.LexAntisymmetric | src/components/data-table.tsx:57-58 | swapping the arguments negates the string comparison |
| DataTable.LexTransitive | src/components/data-table.tsx:57-58 | the string order is transitive |
| DataTable.FieldValue | src/components/data-table.tsx:51-53 | the value a column shows for a row is a number exactly on the numeric columns |
| DataTable.CompareValues | src/components/data-table.tsx:55-65 | two strings compare equal iff they are equal; two numbers give at most 0 iff the first is not larger (ascending) or not smaller (descending); a string against a number gives 0 |
| DataTable.ComparatorShape | src/components/data-table.tsx:51-66 | descending is ascending with the arguments swapped; a string compared with a number gives 0; a field is numeric iff its values are numbers |
| DataTable.RowCompare | src/components/data-table.tsx:51-66 | a row compares equal to itself; on a numeric column the result is at most 0 iff the first value is not larger (ascending) or not smaller (descending) |
| DataTable.CompareAntisymmetric | src/components/data-table.tsx:51-66 | the row comparator is antisymmetric for every field and direction |
| DataTable.CompareTransitive | src/components/data-table.tsx:51-66 | the row comparator is transitive for every field and direction |
| DataTable.Insert | src/components/data-table.tsx:51 | insertion adds exactly the one row |
| DataTable.InsertSorted | src/components/data-table.tsx:51 | inserting into a sorted sequence keeps it sorted |
| DataTable.SortRows | src/components/data-table.tsx:51 | the sorted data is a permutation of the status-filtered data and is ordered by the comparator |
| DataTable.NumericOrder | src/components/data-table.tsx:61-62 | for a numeric field, ascending order is non-decreasing and descending order non-increasing |
| DataTable.ReverseAscendingIsDescending | src/components/data-table.tsx:56-62 | an ascending order read backwards is a descending order of the same rows |
| DataTable.FixtureActive | src/lib/data.ts:103-194 | the seed rows with status active are rows 1, 2, 5 and 6, in that order |
| DataTable.FixtureActiveByCostDescending | src/components/data-table.tsx:51-66 | the seed's active rows sorted by cost descending have ids 6, 1, 2, 5 |
| DataTable.TotalPages | src/components/data-table.tsx:68 | the page count is ceil(n/5): the pages hold n, one page fewer would not, and it is 0 iff n is 0 |
| DataTable.Page | src/components/data-table.tsx:69-70 | the `slice` shown on a page holds at most five rows, each a row of the data |
| DataTable.PageContents | src/components/data-table.tsx:69-70 | page p holds exactly the rows at positions [(p-1)*5, min(p*5, n)); at most 5 rows; non-empty for p up to the page count |
| DataTable.PagesPrefix | src/components/data-table.tsx:69-70 | pages 1 to k laid end to end are the first min(5k, n) rows |
| DataTable.PagesCoverAll | src/components/data-table.tsx:68-70 | pages 1 to the page count laid end to end give back the sorted data |
| DataTable.ShowingBounds | src/components/data-table.tsx:225 | on a page within range, "Showing X to Y" has 1 <= X <= Y <= n, and Y-X+1 is the page's row count |
| DataTable.PreviousPage | src/components/data-table.tsx:231 | Previous never goes below page 1, steps back one page from above page 1, and lands on page 1 from page 1 or below (such as the page 0 the as-written Next can reach) |
| DataTable.NextPageAsWrittenLeavesRange | src/components/data-table.tsx:252 | as written, Next on an empty table moves to page 0 and the caption reads "Showing -4" |
| DataTable.NextPageAsWritten | src/components/data-table.tsx:252 | as written: never beyond the page count, one page on while a next page exists, from a page of 1 or above it drops below 1 exactly when there are no pages, and from the last page or beyond it lands on the page count |
| DataTable.NextPage | src/components/data-table.tsx:252 | Next steps forward one page below the last page, stays on the last page, never leaves [1, max(current, pages, 1)], and with no pages it stays on page 1 |
| DataTable.NextSort | src/components/data-table.tsx:72-79 | clicking the current field flips the direction; clicking another field selects it ascending |
| DataTable.HandleSortTwice | src/components/data-table.tsx:72-79 | two clicks on the current field restore the sort state; two clicks on a new field leave it descending |
| DataTable.TableState.constructor | src/components/data-table.tsx:39-43 | the table starts sorted by campaign ascending, with every status, on page 1, showing the given rows |
| DataTable.TableState.ExportData | src/components/data-table.tsx:138 | the exporter receives the status-filtered rows in filter order, which are the sorted rows up to order |
| DataTable.TableState.SetFilteredData | src/components/data-table.tsx:43 | new filtered rows replace the old ones, and nothing else changes |
| DataTable.TableState.SetStatusFilter | src/components/data-table.tsx:41 | the status choice changes, and nothing else |
| DataTable.TableState.HandleSort | src/components/data-table.tsx:72-79 | the sort state moves by the click rule, and nothing else changes |
| DataTable.TableState.GoToPage | src/components/data-table.tsx:242 | a page button selects its page |
| DataTable.TableState.Previous | src/components/data-table.tsx:231 | the page moves by the Previous rule and stays >= 1 |
| DataTable.TableState.Next | src/components/data-table.tsx:252 | the page moves by the corrected Next rule and stays >= 1 |
| Csv.DoubleQuotes | src/components/export-button.tsx:44 | doubling quotes leaves text without quotes unchanged |
| Csv.Quote | src/components/export-button.tsx:44 | the quoted field opens and closes with a double quote and is at least two characters longer than the text |
| Csv.QuoteKeepsOut | src/components/export-button.tsx:44 | quoting adds no character but the double quote |
| Csv.ScanQuotedDoubled | src/components/export-button.tsx:44 | the inside of a quoted field reads back as the original text, and reading stops after the closing quote |
| Csv.ParseFieldRender | src/components/export-button.tsx:44 | a written field, quoted or plain, reads back as its text |
| Csv.ParseRecordRender | src/components/export-button.tsx:41-52 | every record of well-formed fields reads back as the list of its field texts |
| Csv.QuoteWithoutQuotes | src/components/export-button.tsx:44 | for a name without quotes, the escaped field is the name between two quotes |
| Report.SumBy | src/components/export-button.tsx:167-171 | the left fold of a column; a single row sums to its own value |
| Report.SumByAppend | src/components/export-button.tsx:168-171 | a fold over two tables laid end to end is the sum of the two folds, in exact arithmetic (see Left out) |
| Report.SumByPermutation | src/components/export-button.tsx:168-172 | the fold does not depend on row order, in exact arithmetic (see Left out) |
| Report.Summarize | src/components/export-button.tsx:167-172 | the campaign total is the row count; the average ROI is absent exactly for an empty table |
| Report.SummaryPermutation | src/components/export-button.tsx:167-172 | reordering the rows leaves the whole summary unchanged, in exact arithmetic (see Left out) |
| Report.SummaryAppend | src/components/export-button.tsx:167-171 | the counts and sums of two tables laid end to end add up, in exact arithmetic (see Left out) |
| Report.SummaryBounds | src/components/export-button.tsx:167-172 | the average ROI lies within any bounds of the rows' ROI; impression, click and conversion totals are never negative, in exact arithmetic (see Left out) |
| Report.FixtureSummary | src/components/export-button.tsx:167-172 | the seed table's summary: 6 campaigns, 769000 impressions, 19830 clicks, 32180 cost, 615 conversions, average ROI 1535/6 |
| Report.RoiClass | src/components/export-button.tsx:159 | roi-high iff ROI > 250, roi-low iff ROI < 200, empty iff 200 <= ROI <= 250 |
| Report.StatusClass | src/components/export-button.tsx:153 | the status class is `status-` followed by the status |
| Report.StatusClassInjective | src/components/export-button.tsx:153 | different statuses get different classes |
| Report.DatePart | src/components/export-button.tsx:70 | the date part of a timestamp holds no `T` |
| Report.FileNamesOfTimestamp | src/components/export-button.tsx:70 | for an ISO timestamp the names are `<base>_<YYYY-MM-DD>.csv` and `<base>_report_<YYYY-MM-DD>.html` |
| ExportButton.RowCells | src/components/export-button.tsx:43-52 | one field per column, eight in all |
| ExportButton.CsvLines | src/components/export-button.tsx:41-53 | the header line first, then one line per row in the order given |
| ExportButton.FileContent | src/components/export-button.tsx:55-60 | the file is exactly one U+FEFF mark followed by the CSV text |
| ExportButton.CsvContent | src/components/export-button.tsx:41-54 | the text begins with the header line, and an empty table gives the header alone |
| ExportButton.Headers | src/components/export-button.tsx:30-39 | eight column names, from `Campaign` to `ROI (%)` |
| ExportButton.HeaderReadsBack | src/components/export-button.tsx:30-42 | the header line reads back as exactly the eight column names in order |
| ExportButton.RowReadsBack | src/components/export-button.tsx:43-52 | a data line reads back as the row's eight values in column order, with the campaign name exact, quotes and commas included |
| ExportButton.LinesSplitBack | src/components/export-button.tsx:41-55 | when no name holds a line break, the text splits at `\n` into the header and one line per row; an empty table gives the header alone |
| ExportButton.ReportMeaning | src/components/export-button.tsx:150-161 | the report lists the campaigns in order, marking exactly the rows above 250 as high and below 200 as low |
| ExportButton.HtmlRow | src/components/export-button.tsx:151-160 | a report row has eight cells: the campaign name first, the status class on the status cell, the ROI class on the ROI cell |
| ExportButton.Button.constructor | src/components/export-button.tsx:21 | the button starts idle |
| ExportButton.Button.ExportCsv | src/components/export-button.tsx:23-95 | while an export runs, nothing happens: no file, and the toast queue, counter, listeners and notifications are untouched. Otherwise the file (date-stamped name, marked CSV text) is produced iff the download succeeds, one success or failure toast is queued with the next id, every listener is notified of the new queue, and the guard is released |
| ExportButton.Button.ExportReport | src/components/export-button.tsx:97-210 | the same guard, leaving the toast centre untouched; the report (date-stamped name, rows, summary) is produced iff the download succeeds, with its toast queued under the next id and every listener notified |
| ExportButton.Announce | src/components/export-button.tsx:86-91 | the success or error toast is queued with the next id, the listeners are kept, and each of them is notified of the new queue |
| SimpleExport.PlainTexts | src/components/simple-export-button.tsx:50-60 | a row has eleven unquoted fields after the name |
| SimpleExport.RowCells | src/components/simple-export-button.tsx:48-61 | twelve fields, one per column |
| SimpleExport.CsvLines | src/components/simple-export-button.tsx:46-62 | the header line first, then one line per row in the order given |
| SimpleExport.Headers | src/components/simple-export-button.tsx:45 | twelve column names, from `Campaign` to `ROI` |
| SimpleExport.HeaderReadsBack | src/components/simple-export-button.tsx:45-47 | the header line reads back as exactly the twelve column names in order |
| SimpleExport.RowReadsBack | src/components/simple-export-button.tsx:48-61 | with the name quoted by the RFC 4180 rule, a line reads back as the name and the eleven decorated values (`%` after CTR and ROI, `$` before cost) |
| SimpleExport.AsWrittenAgreesWithoutQuotes | src/components/simple-export-button.tsx:49 | for a name without double quotes the line as written and the corrected line coincide |
| SimpleExport.RowLineAsWritten | src/components/simple-export-button.tsx:48-61 | as written, the line opens with the name between quotes, inner quotes left as they are |
| SimpleExport.RowLine | src/components/simple-export-button.tsx:48-61 | the corrected line opens with the name quoted as RFC 4180 asks, inner quotes doubled |
| SimpleExport.AsWrittenLosesQuotedName | src/components/simple-export-button.tsx:49 | as written, a name holding a double quote gives a line that does not read back; the corrected line does |
| SimpleExport.NoByteOrderMark | src/components/simple-export-button.tsx:46-62 | the text begins with the first header letter: no byte-order mark |
| SimpleExport.LinesSplitBack | src/components/simple-export-button.tsx:46-62 | when no name holds a line break, the text splits into the header and one line per row; an empty table gives the header alone |
| SimpleExport.CsvContent | src/components/simple-export-button.tsx:46-62 | the text begins with the header line, and an empty table gives the header alone |
| SimpleExport.CategoryLabelValues | src/components/simple-export-button.tsx:218 | with the first `-` replaced by a space and the text upper-cased, the category labels are ECOMMERCE, BRAND, LEAD GEN and AWARENESS |
| SimpleExport.CategoryLabel | src/components/simple-export-button.tsx:218 | the label is as long as the category text and holds no lower-case letter |
| SimpleExport.HtmlRow | src/components/simple-export-button.tsx:215-228 | a report row has twelve cells: the campaign name first, the status class on the status cell, the ROI class on the ROI cell |
| SimpleExport.ReportMeaning | src/components/simple-export-button.tsx:214-229 | the rows follow the data; two rows share a status class iff they share a status; ROI classes are high above 250 and low below 200 |
| SimpleExport.Button.constructor | src/components/simple-export-button.tsx:20 | the button starts idle |
| SimpleExport.Button.ExportCsv | src/components/simple-export-button.tsx:38-76 | guarded like the other exporter; the date-stamped CSV file is produced iff the download succeeds; the guard is released |
| SimpleExport.Button.ExportHtml | src/components/simple-export-button.tsx:78-282 | guarded; the date-stamped report with its rows and summary is produced iff the download succeeds; the guard is released |
| Toasts.Enqueue | src/components/toast.tsx:24-28 | the queue never exceeds three; the new toast is always last; a full queue loses its oldest entry |
| Toasts.EnqueueKeepsOrder | src/components/toast.tsx:13-28 | a toast numbered above every queued one keeps the ids strictly increasing, hence distinct |
| Toasts.FindIndex | src/components/toast.tsx:38 | the index found holds the id and no earlier entry does; no index means no entry has the id |
| Toasts.RemoveIdMeaning | src/components/toast.tsx:37-43 | removal keeps exactly the entries with other ids, in order, with ids still increasing; an absent id changes nothing |
| Toasts.RemoveId | src/components/toast.tsx:37-43 | an absent id leaves the queue as it was; otherwise the queue is one shorter and has lost exactly the entry found |
| Toasts.RemoveFirst | src/components/toast.tsx:56-59 | unregistering drops one occurrence of a registered listener and leaves an unregistered list as it was |
| Toasts.RemoveFirstKeepsOrder | src/components/toast.tsx:56-59 | the occurrence dropped is the first one, and the other listeners keep their registration order |
| Toasts.ToastCenter.constructor | src/components/toast.tsx:13-17 | no toasts, counter at 0, no listeners |
| Toasts.ToastCenter.Notify | src/components/toast.tsx:29 | every listener, in registration order, receives a copy of the current queue |
| Toasts.ToastCenter.ShowToast | src/components/toast.tsx:19-35 | the counter goes up by one and numbers the new toast; the queue is the bounded enqueue; the listeners are notified; the queue invariant is kept |
| Toasts.ToastCenter.RemoveToast | src/components/toast.tsx:37-43 | the queue loses the entry with that id; listeners are notified iff there was one |
| Toasts.ToastCenter.Register | src/components/toast.tsx:53 | a listener is added at the end |
| Toasts.ToastCenter.Unregister | src/components/toast.tsx:55-59 | one occurrence of the listener is removed |
| Toasts.ShowThenRemove | src/components/toast.tsx:19-43 | showing a toast on a queue that is not full and then removing it by its id restores the queue |
| Storage.Put | src/lib/storage-utils.ts:44 | a write stores the value under its key, leaves every other key's value alone, and keeps keys distinct |
| Storage.RemoveKey | src/lib/storage-utils.ts:25 | after a removal the key is absent, every other key keeps its value, and keys stay distinct |
| Storage.RemoveAfterPut | src/lib/storage-utils.ts:44-45 | writing a key and removing it is the same as removing it |
| Storage.RemoveAbsent | src/lib/storage-utils.ts:45 | removing a key that is not stored changes nothing |
| Storage.SelectionExamples | src/lib/storage-utils.ts:14-19 | `tmp_` and `cache_` keys are selected, so is a key merely spelling `old` inside a word, and a plain key is not |
| Storage.Selected | src/lib/storage-utils.ts:14-19 | a selected key has at least three characters, and every non-empty `tmp_` or `cache_` key is selected |
| Storage.SelectedKeys | src/lib/storage-utils.ts:12-22 | the collected keys are exactly the store's keys that satisfy the test |
| Storage.Clean | src/lib/storage-utils.ts:12-26 | after the cleanup no selected key remains; every other key keeps its value; keys stay distinct |
| Storage.CleanIsSubsequence | src/lib/storage-utils.ts:24-26 | the cleanup only deletes: the remaining entries keep their order |
| Storage.Without | src/lib/storage-utils.ts:24-26 | deleting a list of keys leaves exactly the other keys with their values |
| Storage.RemoveKeyWithout | src/lib/storage-utils.ts:24-26 | one more removal extends the list of deleted keys |
| Storage.WithoutSelected | src/lib/storage-utils.ts:12-26 | deleting a list that holds exactly the selected keys is the cleanup |
| Storage.WebStorage.SetItem | src/lib/storage-utils.ts:44 | a write that fits stores the value; one that does not changes nothing and reports the failure |
| Storage.WebStorage.RemoveItem | src/lib/storage-utils.ts:45 | removes the key |
| Storage.WebStorage.Clear | src/lib/storage-utils.ts:30 | empties the store |
| Storage.CollectKeys | src/lib/storage-utils.ts:12-22 | the index loop collects the selected keys in storage order without changing the store |
| Storage.RemoveKeys | src/lib/storage-utils.ts:24-26 | the removal loop deletes exactly the listed keys |
| Storage.StorageCleanup | src/lib/storage-utils.ts:8-31 | local storage becomes its cleaned form; session storage is emptied iff it held more than 50 entries and is otherwise unchanged |
| Storage.CheckStorageQuota | src/lib/storage-utils.ts:40-57 | when the probe fits, the result is true, local storage loses only the test key and session storage is unchanged. Otherwise both stores are emptied and the result is false |
| Storage.ProbeLeavesStore | src/lib/storage-utils.ts:42-46 | on a store without the test key, a successful probe leaves it exactly as it was |
| WebsiteIntegration.NormalizeAsWritten | src/components/website-integration.tsx:110 | the normalisation as written always yields text beginning with `http` |
| WebsiteIntegration.NormalizeAsWrittenIdempotent | src/components/website-integration.tsx:110 | normalising twice by the rule as written is the same as normalising once |
| WebsiteIntegration.AsWrittenKeepsSchemelessHost | src/components/website-integration.tsx:100 | as written, `httpbin.org` is left as is, without a scheme; the corrected rule gives `https://httpbin.org` |
| WebsiteIntegration.Normalize | src/components/website-integration.tsx:110 | a URL with a web scheme is unchanged; any other text gets `https://` in front |
| WebsiteIntegration.NormalizeMeaning | src/components/website-integration.tsx:110 | the result always names a web scheme, and normalising is idempotent |
| WebsiteIntegration.NormalizeAgrees | src/components/website-integration.tsx:100 | on text not beginning with `http` the corrected and the as-written rule agree |
| WebsiteIntegration.Title | src/components/website-integration.tsx:61 | the title ends in " Analytics" and the part before holds no `.` |
| WebsiteIntegration.TitleOfWwwHost | src/components/website-integration.tsx:61 | `www.<name>.<rest>` is titled `<name> Analytics` |
| WebsiteIntegration.TitleOfPlainHost | src/components/website-integration.tsx:61 | a host without `www.` is titled by its first label |
| WebsiteIntegration.Scaled | src/components/website-integration.tsx:64 | `floor(random * n) + base` lies in [base, base + n) |
| WebsiteIntegration.MockInsights | src/components/website-integration.tsx:59-83 | the URL, title and time are the given ones. The status is never offline. Page views are in 10000..59999, visitors in 5000..29999, performance in 70..99 and SEO in 75..99. There are four pages and four traffic sources within their ranges |
| WebsiteIntegration.MockPages | src/components/website-integration.tsx:68-73 | the pages are `/`, `/about`, `/products` and `/contact`, in that order, with views drawn in 2000..6999, 500..2499, 1000..3999 and 200..1199 |
| WebsiteIntegration.MockSources | src/components/website-integration.tsx:74-79 | the sources are Organic Search, Direct, Social Media and Referral, in that order, with shares drawn in 40..69, 20..39, 10..24 and 5..14 per cent |
| WebsiteIntegration.TrafficShareTotal | src/components/website-integration.tsx:74-79 | the four shares total between 75 and 146 per cent and can exceed 100 |
| WebsiteIntegration.Analyzer.constructor | src/components/website-integration.tsx:45-48 | empty URL, not analysing, no result, no error |
| WebsiteIntegration.Analyzer.SetUrl | src/components/website-integration.tsx:164 | typing replaces the URL only |
| WebsiteIntegration.Analyzer.AnalyzeUrl | src/components/website-integration.tsx:97-121 | text the parser refuses sets "Please enter a valid URL" and changes nothing else. Otherwise the error is cleared, the result is shown and reported once, the input shows the normalised URL, and analysing is false afterwards |
| WebsiteIntegration.Analyzer.HandleAnalyze | src/components/website-integration.tsx:88-95 | an empty input sets "Please enter a website URL" and changes nothing else. Otherwise the state after is that of `analyzeUrl` on the input: an unparsable URL sets "Please enter a valid URL" and changes nothing else; a parsable one clears the error, shows the normalised URL, stores and reports the mock result, and ends not analysing |
| InsightsDashboard.VisitorCountBounds | src/components/website-insights-dashboard.tsx:42 | the floor count is at most the visitors for a share up to 100, grows with the share, and is all visitors at 100 |
| InsightsDashboard.VisitorCount | src/components/website-insights-dashboard.tsx:42 | the count n is the floor of visitors times share over 100: 100n is at most visitors times share, which is below 100(n+1) |
| InsightsDashboard.TrafficDataMeaning | src/components/website-insights-dashboard.tsx:39-43 | one point per source in order, keeping its name and share, never crediting more visitors than the site has |
| InsightsDashboard.TrafficData | src/components/website-insights-dashboard.tsx:38-43 | one point per source, in order, with its name, share and floor count; a share of 100 counts every visitor |
| InsightsDashboard.PageNameMeaning | src/components/website-insights-dashboard.tsx:46 | `/` is named Home and `/<rest>` is named `<rest>` |
| InsightsDashboard.PageName | src/components/website-insights-dashboard.tsx:46 | the root is Home; any other path loses at most one character, and exactly one when it holds a slash |
| InsightsDashboard.PagesData | src/components/website-insights-dashboard.tsx:45-48 | one point per page, in order, with its views unchanged; the root page is named Home |
| InsightsDashboard.MockPageNames | src/components/website-insights-dashboard.tsx:45-48 | the analyser's pages are charted as Home, about, products and contact with their views unchanged |
| InsightsDashboard.ScoreBand | src/components/website-insights-dashboard.tsx:161-162 | green iff the score is >= 90, yellow iff 70 to 89, red iff below 70 |
| InsightsDashboard.BandClass | src/components/website-insights-dashboard.tsx:161-162 | the bar is `bg-green-500` iff the band is green, `bg-yellow-500` iff yellow and `bg-red-500` iff red |
| InsightsDashboard.ScoreBandMonotone | src/components/website-insights-dashboard.tsx:161-162 | a higher score never gets a worse band |
| InsightsDashboard.MockScoresNeverRed | src/components/website-insights-dashboard.tsx:191-192 | the analyser's performance and SEO scores are never in the red band |
| InsightsDashboard.StatusColorsDistinct | src/components/website-insights-dashboard.tsx:50-57 | online, slow and offline get three different classes, and every other string gets the default, which differs from all three |
| InsightsDashboard.StatusColor | src/components/website-insights-dashboard.tsx:50-57 | the class is one of the four, and it is the default exactly for strings other than online, slow and offline |
| InsightsDashboard.SiteStatusColor | src/components/website-insights-dashboard.tsx:50-57 | every status the analyser produces has its own colour |
| InsightsDashboard.ColorAt | src/components/website-insights-dashboard.tsx:262 | the colour index `i mod 5` always picks a palette colour |
| InsightsDashboard.ColorsCycle | src/components/website-insights-dashboard.tsx:36 | the colours repeat every five entries, and the first five are the palette in order |

## Left out

- Rendering: JSX, Tailwind classes, icons and charts. The status icon of the website analyser is a view.
- Delays and timers are not modelled:
  - the 300 ms filter delay;
  - the 2 s analysis delay;
  - the 100 ms URL revocation;
  - the 4 s toast timer, whose effect is an explicit `RemoveToast` call.
- Browser download plumbing: Blob, object URLs and link clicks. Its success or failure is the `downloadOk` flag. `console` output is not modelled, nor are the simple exporter's `alert` messages.
- The HTML report's markup and styles are not modelled, nor its "Generated on" stamp. A report is its table cells plus its summary.
- Number formatting: `String(n)`, `toLocaleString`, `toLocaleDateString` and `toFixed(1)` are parameters. The round-trip lemmas assume that formatted numbers hold no comma, quote or line break.
- The average ROI is the exact quotient of reals. For an empty table the code divides by zero and shows NaN; here the average is then absent.
- `localeCompare` is code-unit lexicographic order. Locale collation rules are not modelled.
- `Array.prototype.sort` is modelled as an insertion sort that keeps rows comparing equal in their input order, matching the stable sort the language has required since ES2019. That stability is a property of the definition only: the proved contract is a sorted permutation, and no lemma states the order of equal rows.
- `new Date(...)` on the row and filter dates: dates are calendar triples compared in ISO order. A filter date that does not parse is `Unparsable`; every comparison with it is false, as with an `Invalid Date`.
- `new URL(...)` is the `parseHost` parameter.
- `Math.random` draws are arbitrary naturals reduced modulo the code's range. The draws for load time, bounce rate and session length are not modelled, and neither are those three fields: they are floating-point or formatted text.
- `generateRealtimeData` in `src/lib/data.ts` is random and is not modelled.
- Toasts.Toast: ids are the counter's value rather than its decimal text. The two are compared only with each other, and decimal text is injective.
- The storage code's `try`/`catch` around storage access is not modelled: a store that refuses access is outside the model. A failure of `clear` inside `checkStorageQuota`'s handler is not modelled either.
- WebsiteIntegration.Analyzer.AnalyzeUrl: only the states before and after are stated. That `isAnalyzing` is true while the analysis waits for its result is not observable in a postcondition.
- WebsiteIntegration.Analyzer.AnalyzeUrl: the "Failed to analyze website" branch is not modelled. The mock analysis parses the same text that has just parsed and cannot fail, so the branch is unreachable.
- The website analyser's `getStatusColor` is the same function as the insights dashboard's and is modelled once, as `InsightsDashboard.StatusColor`.
- DataTable.TableState.Next: uses the corrected Next rule, which keeps the page at 1 or above; the rule as written is `DataTable.NextPageAsWritten` (see Findings).
- SimpleExport.Button.ExportCsv: builds its CSV with the corrected quoting, which doubles inner quotes; the line as written is `SimpleExport.RowLineAsWritten` (see Findings). `SimpleExport.CsvLines`, `SimpleExport.CsvContent` and `SimpleExport.LinesSplitBack` are also built from the corrected `SimpleExport.RowLine`, so they describe the corrected file.
- WebsiteIntegration.Analyzer: uses the corrected normalisation, which adds `https://` unless the text starts with `http://` or `https://`; the test as written is `WebsiteIntegration.NormalizeAsWritten` (see Findings).
- Report.SumBy: JavaScript numbers are exact reals here, and sums are exact. `Report.SumByAppend`, `Report.SumByPermutation`, `Report.SummaryPermutation`, `Report.SummaryAppend` and `Report.SummaryBounds` therefore hold for exact arithmetic only. The program folds doubles with `reduce`, rounding at every step. With fractional costs or ROIs its sums can depend on row order and on grouping: costs 0.1, 0.2, 0.3 sum to 0.6000000000000001 in that order and to 0.6 reversed. Its average can also leave the rows' range: three ROIs of 0.1 average 0.10000000000000002. The double sums agree with these lemmas whenever every value is an integer below 2^53, as in the seed table.
- AdvancedFilters.SearchOk: the case-insensitive search maps case for ASCII letters only. JavaScript's `toLowerCase` and `toUpperCase` map all of Unicode, including expansions such as ß to SS. `AdvancedFilters.SearchIgnoresCase` and `AdvancedFilters.FilteredMembers` hold for the ASCII mapping; a name or term with non-ASCII letters can match differently in the program.
- Common.Lower, Common.Upper: ASCII letters only, for the reason above; `SimpleExport.CategoryLabel` applies `Upper` to category texts, which are ASCII.

## Findings

| source | as written | input that shows it | evidently intended | confidence | as-written member | corrected member |
|---|---|---|---|---|---|---|
| src/components/data-table.tsx:252 | Next sets the page to `Math.min(prev + 1, totalPages)` with no lower bound, and the button is enabled while `currentPage !== totalPages` | an empty table: 0 pages, page 1, Next enabled; the page becomes 0 and the caption reads "Showing -4 to 0 of 0 results" | the page stays at 1 or above | high, not executed | DataTable.NextPageAsWrittenLeavesRange | DataTable.NextPage |
| src/components/simple-export-button.tsx:49 | the campaign name is wrapped in quotes without doubling the quotes inside it | a campaign named `a"b`: the field `"a"b"` ends at the second quote, and the line no longer reads as twelve fields | quote doubling as in RFC 4180 section 2 rule 7, which the other exporter does at src/components/export-button.tsx:44 | high, not executed | SimpleExport.AsWrittenLosesQuotedName | SimpleExport.RowReadsBack |
| src/components/website-integration.tsx:100 | any text beginning with `http` is taken to carry its scheme | `httpbin.org` is not given `https://`, the URL parser rejects it, and the user sees "Please enter a valid URL", while `example.org` is accepted | add `https://` unless the text starts with `http://` or `https://` | medium, not executed | WebsiteIntegration.AsWrittenKeepsSchemelessHost | WebsiteIntegration.NormalizeMeaning |
