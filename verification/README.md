# Maintenance-schedule completion report — a Dafny model

The report pulls visit rows of maintenance schedules from an ERP, keeps the
un-invoiced visits of allowed types that fall in a date window, and lists the
schedule IDs whose visits count as complete. This project models that selection,
`process_data` in `app.py`, plus the date-order check the web handler runs first.
It proves what the selection keeps and what it returns.

- `nullable.dfy` (`Nullable`): `Option`, used for missing cells. A missing value never
  equals a string.
- `seqs.dfy` (`Seqs`): order-preserving selection (`Select`), which models a boolean-mask
  row filter. Also first-occurrence de-duplication (`Dedup`, and the loop
  `DropDuplicates`) and their algebra.
- `schedule.dfy` (`Schedule`): the visit `Row`, the six allowed visit types, "Completed".
- `filter.dfy` (`Filter`): the three row masks: date window, no sales invoice, allowed
  visit type.
- `classifier.dfy` (`Classifier`): Patterns A, B and C, stated as written, next to the
  rule each one implements (`QualifiesA/B/C`). Also the ordered union `Classify`.
- `pipeline.dfy` (`Pipeline`): `ProcessData` (filter, then classify) and
  `HandleRequest` (date-order check, empty fetch, report).
- `completion_column.dfy` (`CompletionColumn`): the `completion_status` column never
  affects the report.
- `scenarios.dfy` (`Scenarios`): concrete tables and their reports.

Dates are abstract day keys (`Option<int>`). `None` is a date that did not parse.
The scenarios write keys as YYYYMMDD numbers, which sort like the dates.

How the code behaves, as modelled:

- Every completion test reads `service_completion_status`. `completion_status` is never
  read.
- Pattern A's null-visit-type guard removes nothing: the filter has already dropped
  every row without an allowed type.
- Pattern A's PM Visit 2 test looks at rows taken from the PM-Visit-1-only frame. It
  therefore never sees a PM Visit 2 row and accepts every candidate.
- Patterns B and C come out of `groupby(...).filter(...)`, which returns rows. Their
  lists hold one ID per qualifying row. Only the final `drop_duplicates` removes
  repeats.
- The result is Pattern A's list, unchanged, followed by the Pattern C and Pattern B
  IDs not already listed, in first-seen order.

Three consequences of the code as written, each proved:

- A schedule with a completed PM Visit 1 is selected even when its PM Visit 2 rows
  have no status (`Scenarios.UnresolvedSecondVisitSelected`).
- Patterns A and B can select the same schedule (`Scenarios.PatternsAAndBOverlap`);
  it is listed once. Pattern C excludes both (`Pipeline.PatternCExclusive`).
- Only `service_completion_status` is read: blanking `completion_status` leaves the
  report unchanged (`CompletionColumn.CompletionStatusUnread`).

## Model

| member | source | states |
|---|---|---|
| `Filter.FilterRows` | app.py:47-57 | The three successive masks are one selection by the combined rule. A row is kept iff its date is present and inside the inclusive window, it has no sales invoice, and its visit type is present and allowed. |
| `Filter.FilterAppend` | app.py:50-57 | Filtering a concatenation is the concatenation of the filtered parts: each row is judged on its own. |
| `Filter.FilterSingle` | app.py:50-57 | A one-row table passes iff that row satisfies the rule. With `FilterAppend`, this fixes the output as the kept rows in input order. |
| `Filter.FilterKeepsAll` | app.py:50-57 | A table whose rows all pass comes through unchanged, so filtering twice equals filtering once. |
| `Filter.FilterDropsRejected` | app.py:50-57 | Removing a row that fails the rule, wherever it sits, leaves the filtered table unchanged. |
| `Classifier.Pm1Rows` | app.py:78-84 | Pattern A's working rows are the completed PM Visit 1 rows whose ID has no row without a visit type, in table order: the three successive masks are one selection. |
| `Classifier.Pm2TestAlwaysAccepts` | app.py:88-95 | On rows that are all PM Visit 1, the PM Visit 2 test accepts every ID. |
| `Classifier.Candidates` | app.py:86-95 | The loop appends every candidate. Its list is the unique IDs of Pattern A's working rows, in first-seen order. |
| `Classifier.PatternA` | app.py:78-101 | No repeats. An ID is listed iff it has a completed PM Visit 1 row, none of its PM Visit 1 rows lacks a status, and none of its rows lacks a visit type. The list is the IDs of the rows that carry Pattern A, each at its first appearance in the table. |
| `Classifier.PatternAOrder` | app.py:86-101 | Filtering the unique candidates by the recorded-status test gives the same list as taking the unique IDs of the rows that pass both tests: filtering does not disturb first-seen order. |
| `Classifier.PatternB` | app.py:105-112 | An ID is listed iff it has at least one non-PM row and all its non-PM rows are completed. An ID with no non-PM row is never listed. The list holds one entry per non-PM row of such an ID, in table order. |
| `Classifier.PatternC` | app.py:114-119 | An ID is listed iff it occurs and every row of it is a completed PM Visit 2. The list holds one entry per row of such an ID, in table order. |
| `Classifier.Classify` | app.py:124-127 | No repeats. The output is Pattern A's list unchanged, followed by the Pattern C and Pattern B IDs not already listed, in first-seen order. It holds exactly the IDs of the three lists. |
| `Classifier.ClassifySound` | app.py:124-127 | Every selected name is the ID of some row of the classified table. |
| `Pipeline.GuardIsVacuous` | app.py:82-84 | After the visit-type mask of app.py:57, no ID has a row without a visit type. The guard set is therefore empty and Pattern A's working rows are exactly the completed PM Visit 1 rows. |
| `Pipeline.ClassifyFiltered` | app.py:78-127 | On a filtered table, a name is selected iff it meets completion rule A, B or C. |
| `Pipeline.ProcessData` | app.py:46-129 | No repeats. A name is selected iff it meets a completion rule on the filtered rows. Every name is the ID of an input row that passes the filter. A table with nothing left after filtering gives an empty result. |
| `Pipeline.RejectedRowIgnored` | app.py:50-57 | Inserting a row that fails the filter anywhere in the input does not change the result. |
| `Pipeline.SingleSchedule` | app.py:78-127 | A table of one schedule gives `[id]` when that schedule meets a rule and `[]` otherwise. |
| `Pipeline.PatternCExclusive` | app.py:105-117 | An ID that meets Pattern C meets neither Pattern A nor Pattern B. |
| `Pipeline.HandleRequest` | app.py:133-150 | A request is rejected with the date-order message iff start is after end. It gets the no-data notice iff the window is valid and the fetch is empty, and a sheet otherwise. The sheet is `process_data`'s list for the fetched rows: no repeats, a name is on it iff it meets a completion rule on the filtered rows, and every name is the ID of a fetched row that passes the filter. |
| `Pipeline.ReversedWindowIgnoresFetch` | app.py:137-139 | A reversed window is rejected whatever the fetch would return, so the check comes before any fetch. |
| `Seqs.SelectAppend` | app.py:50-57 | A mask selection distributes over concatenation. |
| `Seqs.SelectFuse` | app.py:50-57 | Two successive mask selections are one selection by the conjunction of the masks. |
| `Seqs.DedupFromAppend` | app.py:124-127 | De-duplicating a concatenation: the second part contributes only elements the first has not produced. |
| `Seqs.DedupPrefix` | app.py:124-127 | A repeat-free prefix survives de-duplication unchanged, at the front. |
| `Seqs.SelectDedup` | app.py:87-101 | Applying a mask to the first occurrences is taking the first occurrences of what the mask keeps. |
| `Seqs.DedupSnoc` | app.py:127 | Read left to right, de-duplication appends an element exactly when it has not been seen yet. |
| `Seqs.DropDuplicates` | app.py:127 | The left-to-right loop that keeps first occurrences computes `Dedup`. The result has no repeats and the same elements as the input. |
| `CompletionColumn.CompletionStatusUnread` | app.py:78-117 | Blanking `completion_status` in every row leaves the report unchanged. |
| `CompletionColumn.SameReportWithoutCompletionColumn` | app.py:78-117 | Two tables that differ only in `completion_status` give the same report. |
| `Scenarios.JanuaryEndToEnd` | app.py:46-129 | Completed PM Visit 1 and PM Visit 2 of MS-001, both inside January 2024, give `["MS-001"]`. |
| `Scenarios.UnresolvedSecondVisitSelected` | app.py:86-101 | A completed PM Visit 1 with a status-less PM Visit 2 is still selected. |
| `Scenarios.InHouseWorkCompleted` | app.py:105-109 | Only completed in-house work: selected by Pattern B. |
| `Scenarios.InHouseWorkUnfinished` | app.py:105-109 | The same schedule with one in-house visit lacking a status gives an empty report. |
| `Scenarios.OnlySecondVisitsCompleted` | app.py:114-117 | Only completed PM Visit 2 rows and no PM Visit 1: selected by Pattern C. |
| `Scenarios.AfterWindowIgnored` | app.py:50 | A completed visit dated one day after the window gives an empty report. |
| `Scenarios.InvoicedIgnored` | app.py:51 | A completed but invoiced visit gives an empty report. |
| `Scenarios.WindowEndInclusive` | app.py:50 | A visit dated on the window's last day is inside the window. |
| `Scenarios.CompletionStatusColumnUnread` | app.py:108-109 | A visit marked "Completed" only in `completion_status` does not count as completed. |
| `Scenarios.UnrecordedFirstVisitBlocksA` | app.py:97-101 | A completed PM Visit 1 next to a status-less PM Visit 1 of the same schedule gives an empty report. |
| `Scenarios.PatternsAAndBOverlap` | app.py:78-127 | One schedule can meet Patterns A and B together. It is listed once. |
| `Scenarios.ReversedWindowRejected` | app.py:137-139 | January 31 to January 1 is rejected with the date-order message. |

## Left out

- `fetch_data` (app.py:9-44): paginated HTTP requests, the status-code check and the embedded token are network I/O. `HandleRequest` takes the fetched rows as a parameter. A failed fetch is an empty table, as in the source.
- The Flask route, template rendering, `flash`/`redirect` and `send_file` (app.py:131-161) are web plumbing. `HandleRequest` returns which outcome the route would show.
- Writing the spreadsheet with `pd.ExcelWriter` (app.py:148-151) is a foreign library. The model stops at the list of names the sheet would hold.
- Date parsing (`pd.to_datetime`, `strptime`) is replaced by integer day keys. A date string that does not parse is `None` in a row. An unparsable window bound (a `strptime` error outside the `try`) is not modelled.
- Times of day on `scheduled_date` are not modelled: a date is a whole day.
- The `Sr` column and the column renames (app.py:58-76, 111-112, 118-122) carry no decision logic. The model uses field names.
- The columns `docstatus`, `naming_series`, `customer`, `serial_no`, `customer_schedule_date`, `service_report_visit_date` and `item_name` are not carried in `Row`: no rule reads them. `completion_status` is carried, to show that it is not read.
- A missing schedule ID is not modelled: `Row.id` is always a string. pandas drops NaN-keyed groups in `groupby` but keeps NaN in `unique()`.
- Errors inside the `try` (app.py:141-155), such as a column missing from every fetched row, are not modelled. There the source shows a generic error message.
