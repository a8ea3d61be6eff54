# newman-reporter-xlsx, modelled in Dafny

This project models the core of a newman reporter that writes assertion results to an
Excel workbook. Once a collection run finishes, the reporter's `beforeDone` handler does
the following, in order:

1. It walks `summary.run.executions[].assertions[]`, reading any missing level as empty.
2. It appends one `{test, state, error}` row per assertion to the "Assertions" worksheet.
   The state is `FAIL` exactly when the assertion's error message is truthy.
3. It fits every column's width to its longest text. The width is at least 10, plus 2.
4. It restricts every State cell to the list `"OK,FAIL"`.
5. It colours data rows green or red with two expression rules over the range `A2:<last cell>`.
6. It names the output file: the `export` option, or
   `newman/newman-run-report-<timestamp>0.xlsx`. In the timestamp, every run of non-digits
   of the ISO time becomes one hyphen.

Modules, one per concern of the two source files:

- `Newman` (newman.dfy): the run summary, with every level optional. It also holds the
  traversal order (`Flatten`) and an independent assertion count (`Count`).
- `Schema` (schema.dfy): the `State` enum and the self-registering column registry
  (Test, State, Error). It also holds the row derived from an assertion and the validation
  list formula.
- `Formatting` (formatting.dfy): the range and rule formulae of the conditional formatting.
  It includes parsers that read them back, and the as-written and corrected guards (see
  Findings).
- `ExportPath` (export_path.dfy): the collapse of non-digit runs in the timestamp and the
  output path.
- `Worksheet` (worksheet.dfy): the `autoWidth` routine over a sequence of mutable `Column`
  objects, and the per-cell validation pass.
- `Reporter` (reporter.dfy): the reporter class. It owns the data rows, the three columns
  (whose cells hold the header and then one value per row) and the added formattings. It
  also holds the handler, split into the source's steps.
- `Strings` and `Wrappers`: decimal row numbers, column letters, `join`/`split` with their
  round trips, and `Option`.

The worksheet library supplies some values; the model takes these as inputs or fixes them:

- The ISO time is a parameter.
- The column letters are A, B, C.
- `lastRow` is the header row plus the data rows.
- `lastColumn` is the third column.

The model follows the code on three points that are easy to misread:

- The state is derived from the truthiness of the error *message*, not from whether an
  error is present.
- An OK row's error is `undefined`, not an empty string. A present but empty message gives
  an OK row whose error is `""`.
- The "skip columns without `eachCell`" branch is kept.

Text lengths are JavaScript's `length`: UTF-16 code units, so a character outside the Basic
Multilingual Plane counts twice (`Utf16Length`).

The worksheet's observable state is summarised as a `Sheet` value: data rows, each column's
cells and width, and the added formattings. Every step of the handler is a method whose
contract gives the new `Sheet` as a function of the old one (`Grown` for appended rows,
`Finished` for the steps after the traversal). Lemmas then state what those functions mean.

## Model

| member | source | states |
|---|---|---|
| Newman.Executions | src/index.ts:72 | a missing summary, run or executions list gives no executions; otherwise the executions as recorded |
| Newman.Flatten | src/index.ts:74-78 | the nested loops' visiting order as one sequence; FlattenLength and FlattenOrder state its length and each assertion's position |
| Newman.AssertionsOf | src/index.ts:75 | an execution without assertions has none; otherwise its assertions, exactly as recorded |
| Newman.FlattenLength | src/index.ts:72-79 | the traversal visits exactly as many assertions as all executions hold together |
| Newman.FlattenOrder | src/index.ts:74-78 | the j-th assertion of execution e is visited right after all assertions of earlier executions |
| Newman.MissingLevelsYieldNothing | src/index.ts:72 | a missing summary, run or executions adds nothing and does not fail |
| Newman.MissingAssertionsYieldNothing | src/index.ts:75 | an execution whose assertions are missing contributes nothing |
| Schema.ColumnRegistry.constructor | src/index.ts:22-38 | before any static initialiser runs, the static list is undefined |
| Schema.ColumnRegistry.InitColumns | src/index.ts:38 | the list's own initialiser makes it an empty list |
| Schema.ColumnRegistry.Register | src/index.ts:40-42 | constructing a definition appends it to the list; it throws, changing nothing, exactly when the list is still undefined |
| Schema.ColumnRegistry.Values | src/index.ts:44-46 | `values()` returns the registered list; LoadColumnDefinitions states it is exactly Test, State, Error |
| Schema.LoadInDeclarationOrder | src/index.ts:23-41 | loading the class as written throws a TypeError: `Test` is constructed while the list is still undefined |
| Schema.LoadColumnDefinitions | src/index.ts:23-46 | with the list initialised first, the registry ends as exactly Test, State, Error, in declaration order, and `values()` returns that |
| Schema.RegistryLayout | src/index.ts:22-38 | the schema has three columns with headers Test, State, Error, and keys test, state, error find columns 0, 1, 2 |
| Schema.ColumnIndex | src/index.ts:49-51 | looking a column up by key finds the first column with that key, or none if no column has it |
| Schema.ErrorMessage | src/index.ts:103 | `assertion?.error?.message`: no error or no message gives `undefined`; RowOf states the row's error is this value |
| Schema.Truthy | src/index.ts:110 | the truthiness test `error ? FAIL : OK` applies: a present, non-empty message; RowOf states FAIL exactly then |
| Schema.RowOf | src/index.ts:102-113 | the row's test is the assertion's `assertion` field; its error is the error message exactly; it is FAIL iff the message is present and non-empty |
| Schema.RowsOf | src/index.ts:76-78 | one row per assertion, in order |
| Schema.RowCells | src/index.ts:108-112 | the keyed row object fills the registry's columns with test, state value and error |
| Schema.ValidationFormula | src/index.ts:86 | the formula is exactly `"OK,FAIL"` |
| Schema.ValidationListsEveryState | src/index.ts:84-87 | the list reads back as the enum's values in declaration order; a value is offered iff it is some state's value |
| Strings.NatToString | src/index.ts:138 | a row number renders as a non-empty string of digits without a leading zero |
| Strings.Join | src/index.ts:86 | `Array.prototype.join` with a one-character separator; SplitJoin states that splitting gives the parts back |
| Strings.DigitsRoundTrip | src/index.ts:138 | reading the rendered row number back gives the number |
| Strings.SplitJoin | src/index.ts:86 | splitting a comma-joined list gives the list back when no element has a comma |
| Formatting.AddressRoundTrip | src/index.ts:138 | a cell address made of column letters and a row number reads back as both |
| Formatting.RangeRef | src/index.ts:138 | `'A2:' + lastColumn.letter + lastRow.number`; RangeRefRoundTrip states it reads back as that rectangle |
| Formatting.RuleFormula | src/index.ts:142-148 | `'$' + letter + '2="' + state + '"'`; RuleFormulaRoundTrip states it reads back as the letters and the state's value |
| Formatting.FormatFor | src/index.ts:137-153 | the formatting with its range and its two rules; FormatForMeaning states range, rule order, compared values and fills |
| Formatting.RangeRefRoundTrip | src/index.ts:138 | the range reads back as the rectangle from A2 to the last column and last row |
| Formatting.ComparisonRoundTrip | src/index.ts:142-148 | a `$<letters>2="<value>"` formula reads back as its letters and value |
| Formatting.RuleFormulaRoundTrip | src/index.ts:142-148 | each rule formula reads back as the State column's letters compared with that state's value |
| Formatting.FormatForMeaning | src/index.ts:137-153 | the formatting spans A2 to the last cell; its first rule colours OK rows green, its second colours FAIL rows red |
| Formatting.FormattingAsWritten | src/index.ts:132-135 | formatting is skipped exactly when there is no last row |
| Formatting.HeaderOnlySheetIsFormatted | src/index.ts:129-138 | with only the header row, the guard lets through the inverted range A2:C1 |
| Formatting.GuardedFormatting | src/index.ts:128-153 | formatting is added iff the last row is a data row, and then it agrees with the code as written |
| Formatting.FormattingCoversDataRows | src/index.ts:132-138 | the corrected formatting's range always starts at row 2 and ends at or after it |
| ExportPath.CollapseNonDigits | src/index.ts:116 | the timestamp holds only digits and hyphens, never two hyphens side by side, and starts with a digit iff the ISO time does |
| ExportPath.SkipRun | src/index.ts:116 | skipping a run of non-digits stops exactly at the digit (or end) that follows it |
| ExportPath.CollapseDigitsPrefix | src/index.ts:116 | digits are copied as they are: collapsing a digit string followed by `t` is that string followed by collapsing `t` |
| ExportPath.CollapseNonDigitRun | src/index.ts:116 | a maximal run of non-digits of any length, followed by a digit or the end, becomes exactly one hyphen |
| ExportPath.CollapseIsoTime | src/index.ts:116 | a time of digit fields each followed by one separator collapses to the fields, each followed by a hyphen |
| ExportPath.CollapseKeepsDigits | src/index.ts:116 | every digit of the ISO time survives, in order |
| ExportPath.CollapseFixesCollapsed | src/index.ts:116 | a string that is already collapsed is unchanged |
| ExportPath.CollapseIdempotent | src/index.ts:116 | collapsing twice is collapsing once |
| ExportPath.OutputPath | src/index.ts:117 | a given `export` path is used as it is |
| ExportPath.DefaultPathShape | src/index.ts:116-117 | without `export`, the path is `newman/newman-run-report-`, then digits and single hyphens carrying the ISO time's digits, then `0.xlsx` |
| ExportPath.DefaultPathOfIsoTime | src/index.ts:116-117 | without `export`, an ISO-shaped time such as `2026-10-11T04:19:00.123Z` gives `newman/newman-run-report-` + its digit fields each followed by `-` + `0.xlsx` |
| ExportPath.EmptyExportIsKept | src/index.ts:117 | only a missing `export` falls back to the default; an empty string is kept |
| Worksheet.Utf16Length | src/util/worksheet.ts:22 | a string's `length` is between its character count and twice that; one character counts 1 inside the Basic Multilingual Plane and 2 outside it |
| Worksheet.Utf16LengthAppend | src/util/worksheet.ts:22 | the length of a concatenation is the sum of the lengths; with the one-character case this fixes the length of every string |
| Worksheet.BmpLengthIsCharCount | src/util/worksheet.ts:22 | a string inside the Basic Multilingual Plane has one code unit per character |
| Worksheet.SurrogatePairCountsTwice | src/util/worksheet.ts:22 | a character outside the Basic Multilingual Plane has length 2 |
| Worksheet.TextLength | src/util/worksheet.ts:22 | a missing value counts as 0; a present one as its UTF-16 length (0 for the empty string) |
| Worksheet.LongestText | src/util/worksheet.ts:18-24 | the longest text bounds every cell's text length and is reached by one cell (0 without cells) |
| Worksheet.FitWidth | src/util/worksheet.ts:17-25 | without cells the width is 2; otherwise it is at least the minimal width + 2, at least every text length + 2, and equal to one of these |
| Worksheet.ShortTextsGetMinimalWidth | src/util/worksheet.ts:9-25 | with the default minimal width, a column whose texts are at most 10 long gets width 12 |
| Worksheet.Fitted | src/util/worksheet.ts:13-25 | only the width changes; a column without `eachCell` keeps its width; a column with it gets exactly the fitted width of its cells' values |
| Worksheet.FittedIdempotent | src/util/worksheet.ts:17-25 | fitting twice gives the same widths as fitting once |
| Worksheet.MaxColumnLength | src/util/worksheet.ts:17-24 | the running maximum over all cells, plus 2, is the fitted width |
| Worksheet.AutoWidth | src/util/worksheet.ts:9-27 | every column ends up as its fitted state: cells unchanged, width fitted if it offers `eachCell`, untouched otherwise |
| Worksheet.Column.SetValidation | src/index.ts:83-88 | every cell with a value gets the validation; values, other validations and the width are unchanged |
| Reporter.StateValidation | src/index.ts:84-87 | a list validation whose only formula is `"OK,FAIL"` |
| Reporter.Validated | src/index.ts:83-88 | a State cell with a value gets the list validation and keeps its value |
| Reporter.ColumnContents | src/index.ts:99 | column i holds its header in row 1 and then each row's value under its key |
| Reporter.NewCellsAppend | src/index.ts:108-112 | the cells added for two batches of rows are those of the first batch followed by those of the second |
| Reporter.Grown | src/index.ts:108-112 | the sheet after `addRow` for each added row: rows appended, each column gains the rows' values unvalidated, widths and formats kept; GrownNothing, GrownTwice and GrownHoldsRows state its laws |
| Reporter.GrownNothing | src/index.ts:74-79 | appending no rows leaves the sheet as it was |
| Reporter.GrownTwice | src/index.ts:74-79 | appending rows in two batches is appending them all at once, in order |
| Reporter.GrownHoldsRows | src/index.ts:108-112 | after appending rows every column still holds its header and then each row's value under its key |
| Reporter.Finished | src/index.ts:81-90 | the sheet after `autoWidth`, the validation pass and `conditionalFormatting` (corrected guard); FinishedCells, FinishedWidths and HandlerOutcome state its meaning |
| Reporter.StateColumnWidth | src/index.ts:81 | whatever the rows, the State column is fitted to width 12 |
| Reporter.StateCellsHaveValues | src/index.ts:83 | every State cell has a value, so the validation pass reaches all of them |
| Reporter.ValidatedStateColumn | src/index.ts:83-88 | the validation pass keeps the State column's values and gives every one of its cells the list validation |
| Reporter.FittedColumn | src/util/worksheet.ts:13-25 | fitting a column that holds the rows' values keeps its cells and gives it the width of its header and values |
| Reporter.FittedWidthFits | src/util/worksheet.ts:17-25 | a fitted width is at least 12 and at least every cell's text length + 2 |
| Reporter.FinishedWidths | src/index.ts:81 | after the handler every width fits every cell of its column, and the State column's is 12 |
| Reporter.FinishedCells | src/index.ts:83-88 | after the handler the new Test and Error cells carry no validation and every State cell carries the list validation |
| Reporter.HandlerOutcome | src/index.ts:71-95 | the handler's end state: old rows then the added ones in every column, Test and Error cells unvalidated, every State cell validated, every width fitting its column (State 12), data rows formatted iff there are any |
| Reporter.RowsFollowTraversal | src/index.ts:72-79 | the rows number the total assertion count, and the j-th assertion of execution e gives the row at the position after all earlier executions' assertions |
| Reporter.TwoAssertionScenario | src/index.ts:102-113 | a passing and a failing assertion give an OK row without error and a FAIL row with the message, in that order |
| Reporter.NewmanXlsxReporter.constructor | src/index.ts:63-66 | the sheet starts with no data rows, no widths and no formatting; the three columns, built from the loaded registry, hold only their headers |
| Reporter.NewmanXlsxReporter.LastRow | src/index.ts:130 | the sheet always has a last row, at least row 1 (the header), and it is the length of every column |
| Reporter.NewmanXlsxReporter.AddRow | src/index.ts:108-112 | the sheet grows by exactly this row: each column gains the row's value under its key, unvalidated; widths and formatting are unchanged |
| Reporter.NewmanXlsxReporter.AddAssertion | src/index.ts:102-113 | the sheet grows by exactly the row derived from the assertion; widths and formatting are unchanged |
| Reporter.NewmanXlsxReporter.AddAssertions | src/index.ts:75-78 | the sheet grows by the rows of the execution's assertions, in order; widths and formatting are unchanged |
| Reporter.NewmanXlsxReporter.CollectAssertions | src/index.ts:72-79 | the sheet grows by the rows of all assertions of all executions in traversal order; widths and formatting are unchanged |
| Reporter.NewmanXlsxReporter.FitColumns | src/index.ts:81 | every column's width becomes the fitted width of its header and values; rows, cells and formatting are unchanged |
| Reporter.NewmanXlsxReporter.ApplyValidation | src/index.ts:83-88 | every State cell gets the list validation and keeps its value; the Test and Error cells, widths, rows and formatting are unchanged |
| Reporter.NewmanXlsxReporter.ConditionalFormatting | src/index.ts:128-154 | one formatting over A2:C(n+1) is added iff there are n > 0 data rows; nothing else changes |
| Reporter.NewmanXlsxReporter.ValidateAndFormat | src/index.ts:83-90 | the State cells are validated and the data rows formatted; widths, rows and the other columns are unchanged |
| Reporter.NewmanXlsxReporter.FinishSheet | src/index.ts:81-90 | the sheet ends fitted, with its State cells validated and its data rows formatted; rows and the Test and Error cells are unchanged |
| Reporter.NewmanXlsxReporter.BeforeDone | src/index.ts:71-95 | the sheet ends as the traversal's rows appended and then finished (its meaning is HandlerOutcome), and the result is the output path |

## Left out

- Workbook and worksheet construction, cell storage and column-letter computation belong to
  the spreadsheet library. The model fixes the three columns' letters as A, B, C. It stores
  a row as one cell per column (`AddRow`). Its `lastRow` is the header row plus the data
  rows, and its `lastColumn` is the third column.
- Writing the file is not modelled: `writeFile`, `dirname` and `mkdirSync` (src/index.ts:119-125)
  are I/O. `BeforeDone` returns the path it would write to.
- The wall clock is not read: `new Date().toISOString()` is the `isoTimestamp` parameter.
- The event subscription and `async`/`await` are not modelled. `BeforeDone` is a method
  called once, after construction.
- Sheet protection (`protection = { locked: false }`, `protect('', {})`, src/index.ts:69,92)
  and the ARGB fill colours are left out. They are static settings with no logic. Fills are
  kept only as green or red.
- Cell values are optional strings. JavaScript's `toString()` on numbers, dates or rich text
  is not modelled, so a falsy non-string value such as `0` is not distinguished.
- Worksheet.Column.SetValidation: `eachCell` without `includeEmpty` visits rows that hold
  values. The model visits cells that hold a value. In this sheet every row's State cell
  holds one, so the two agree.
- `collectionRunOptions` is unused by the source and not modelled.
- Reporter.NewmanXlsxReporter.ConditionalFormatting uses the corrected guard (see Findings).
  With zero data rows it adds no formatting, where the code as written adds `A2:C1`.
- Reporter.NewmanXlsxReporter.BeforeDone inherits that corrected guard.
- Reporter.NewmanXlsxReporter.ValidateAndFormat inherits that corrected guard: with zero data
  rows it adds no formatting, where src/index.ts:90 as written adds `A2:C1`.
- Reporter.NewmanXlsxReporter.FinishSheet inherits that corrected guard: with zero data rows
  it adds no formatting, where src/index.ts:90 as written adds `A2:C1`.
- Reporter.HandlerOutcome uses that corrected guard: with zero data rows the formats are
  unchanged, where src/index.ts:90 as written adds `A2:C1`.
- Reporter.Finished uses that corrected guard: with zero data rows the formats are unchanged,
  where src/index.ts:90 as written adds `A2:C1`.
- Reporter.NewmanXlsxReporter.constructor loads the column registry in the corrected order
  (see Findings). Loaded as written, the class throws before any reporter exists.
- A `null` or `undefined` entry in an execution's `assertions` list is not modelled: every
  entry is an assertion record. With such an entry, `assertion.assertion` (src/index.ts:106)
  throws a TypeError and the handler stops.
- A `null` or `undefined` entry in the run's `executions` list is not modelled either: every
  entry is an execution record. With such an entry, `execution.assertions` (src/index.ts:75)
  throws a TypeError and the handler stops.

## Findings

| source | as written | input that shows it | evidently intended | confidence | as-written member | corrected member |
|---|---|---|---|---|---|---|
| src/index.ts:132-135 | `if (!lastRow) return;` skips formatting only when the sheet has no row at all | a run with zero assertions. `createColumns` writes the headers into row 1, so `lastRow` is row 1 and the rules are added over the inverted range `A2:C1` | skip formatting when there is no data row (row 2 onwards), as the comment "no rows" says | not executed; rests on the library writing headers into row 1, which is not part of this model | Formatting.HeaderOnlySheetIsFormatted | Formatting.FormattingCoversDataRows |
| src/index.ts:23-41 | the static members `Test`, `State` and `Error` are declared before the static `columns` list they push themselves onto | loading the module. Static initialisers run in declaration order, so `Test`'s constructor runs `ColumnDefinition.columns.push(this)` while `columns` is `undefined` | declare `columns` first, so the registry holds Test, State, Error | not executed; follows from JavaScript running static field initialisers in declaration order | Schema.LoadInDeclarationOrder | Schema.LoadColumnDefinitions |
