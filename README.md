# Salon income and expense ledger — Dafny model

The program is a small Streamlit app a hair salon uses as its daily cash book
(`app.py`). Staff enter four kinds of record: income ("thu"), expense
("chi"), tips ("tip") and advances paid to staff ("chi_ho"). The records are
kept as one list. From that list the app shows a daily summary, shows a
filterable table, and exports a workbook. The workbook holds a summary
sheet, income and expense detail sheets with their rollups, a sheet of every
record, and the "Theo Format Excel" sheet, laid out like the paper book.

This project models the bookkeeping behind those screens:

- `wrappers.dfy`: the `Option` type.
- `text.dfy`: Python's `str.strip()` over the `isspace` characters, and
  code-point string order (the key order of a pandas `groupby`).
- `decimal.dfy`: decimal digits, their value and zero padding.
- `currency.dfy`: `format_currency` (dots every three digits), and the
  reading that recovers the amount from its text.
- `dates.dfy`: calendar dates, the stored `YYYY-MM-DD` text and the
  `DD/MM/YYYY` text the sheets show.
- `ledger.dfy`: the record, the row selections the program makes (by kind,
  day, date range, group key) and the amount and invoice sums.
- `summary.dfy`: income, expense, balance and invoice totals, with a
  record-by-record reference definition.
- `rollup.dfy`: `groupby(...)['amount'].sum()` as a sorted list of
  (key, total) rows.
- `pivot.dfy`: the "Theo Format Excel" sheet. It is built as the program
  builds it, one imperative pass per kind, and is proved equal to a
  declarative row-per-record definition.
- `report.dfy`: the tables of every exported sheet, and how they agree with
  each other.
- `filters.dfy`: the summary page's day filter, and the data page's range and
  type filters and totals.
- `entry.dfy`: the entry form's per-kind defaults, its checks, the record it
  builds, and the stored list (a class) that the save and delete-all buttons
  change.

Modelling decisions:

- Amounts, invoice counts and debts are unbounded integers.
- A stored date is a `Date` triple. Its text form is given by `IsoText`, and
  `ParseIso` reads it back.
- The workbook is modelled as its tables of values.
- The model follows `app.py` as written:
  - The invoice total counts every income record; it does not split services
    from products.
  - The "Chi" sheet has no picture column; `image_path` is stored but not
    exported.
  - On the "Tất cả" sheet, tip and advance records are labelled "Chi".

## Model

| member | source | states |
|---|---|---|
| Text.Trim | app.py:499 | `strip()`: the result is the window of the input that starts after the leading whitespace; everything outside the window is whitespace and the window neither starts nor ends with whitespace |
| Text.TrimEmptyIffBlank | app.py:499-504 | `not s.strip()` holds exactly when every character of `s` is whitespace (both directions) |
| Text.TrimPreservesBlank | app.py:539-545 | a stripped field is blank exactly when the typed field was blank |
| Text.TrimIdempotent | app.py:544 | stripping a stripped name changes nothing |
| Text.TrimUnpadded | app.py:538-540 | a text with no whitespace at either end strips to itself, so the fixed categories "TIP" and "CHI HỘ" are stored unchanged |
| Text.StrLtIrreflexive | app.py:157 | no key sorts before itself |
| Text.StrLtTransitive | app.py:157 | the groupby key order is transitive |
| Text.StrLtTotal | app.py:157 | any two different keys are ordered one way or the other |
| Decimal.Digits | app.py:78-79 | the decimal digits of a number: at least one digit, no leading zero, and exactly "0" for 0 |
| Decimal.ValueOfDigits | app.py:78-79 | the digits of `n` denote `n` |
| Decimal.Pad | app.py:121 | zero padding to a width keeps the value and has length max(width, digit count) |
| Currency.Group | app.py:78-79 | the digits grouped by threes from the right with '.' between groups; removing the dots gives the digits back, and the first character is unchanged |
| Currency.FormatCurrency | app.py:78-79 | a non-negative amount prints as dot-grouped digits without a leading zero, and 0 prints as exactly "0"; a negative one as '-' followed by such digits |
| Currency.ParseCurrency | app.py:78-79 | reading a dot-grouped amount back: a negative result comes only from text that starts with '-' |
| Currency.FormatCurrencyRoundTrip | app.py:78-79 | reading the printed text back gives the amount: formatting loses nothing |
| Dates.IsoText | app.py:549 | the stored date text has length 10 with dashes at positions 4 and 7 |
| Dates.DisplayText | app.py:121 | the shown date text has length 10 with slashes at positions 2 and 5 |
| Dates.ParseIso | app.py:87 | reading a stored date text: only ten-character text with dashes at positions 4 and 7 is read, and it gives a non-negative year, month and day |
| Dates.IsoRoundTrip | app.py:87 | reading the stored text of a valid date gives that date back |
| Dates.DisplayRoundTrip | app.py:121 | reading the shown text of a valid date gives that date back |
| Dates.IsoToDisplayOfStored | app.py:87-121 | converting a stored date text gives the date's shown text; day, month and year swap places |
| Ledger.Select | app.py:98-101 | a selection is never longer than the list it selects from |
| Ledger.SelectCount | app.py:98-101 | a selection holds each kept record as often as the list does, and no other record |
| Ledger.SelectMembers | app.py:98-101 | a record is selected exactly when it is in the list and meets the condition |
| Ledger.SelectConcat | app.py:98-101 | selection distributes over concatenation, so ledger order is kept |
| Ledger.SelectLast | app.py:98-101 | the sums of a selection grow by the last record exactly when it is kept |
| Ledger.SumAmount | app.py:142-144 | the amount sum of no rows is 0, and of one row is that row's amount |
| Ledger.SumInvoices | app.py:137 | the invoice sum of no rows is 0, and of one row is that row's invoice count |
| Ledger.SumAmountNonNegative | app.py:434-439 | when every amount is at least 0, as the amount field allows, the amount sum is at least 0 |
| Ledger.SumAmountConcat | app.py:140 | the amount sum of two lists joined is the sum of their sums |
| Ledger.SumInvoicesConcat | app.py:137 | the invoice sum of two lists joined is the sum of their sums |
| Ledger.KindsPartition | app.py:98-101 | the four kind selections together hold every record exactly as often as the ledger |
| Summary.SummaryOf | app.py:137-147 | the balance is income minus expense |
| Summary.Step | app.py:137-147 | one record's step keeps the gap between the balance and income minus expense; a non-negative amount never lowers income or expense |
| Summary.Running | app.py:137-147 | running totals from zero always have balance equal to income minus expense |
| Summary.SummaryAppend | app.py:137-147 | one more income record adds its amount to income and balance and its invoices to the count; one more expense record adds to expense and takes from the balance; tips and advances change nothing |
| Summary.SummaryIsRunning | app.py:137-147 | the summary equals the record-by-record running totals from zero |
| Summary.SummaryIgnoresTipAndAdvance | app.py:98-147 | adding tip and advance records never changes any figure |
| Rollup.AddTo | app.py:157 | filing an amount adds at most one row, and the first row is either the key's row or unchanged |
| Rollup.Rollup | app.py:157-178 | a rollup has no more rows than records, and is empty exactly when there are no records |
| Rollup.AddToAscending | app.py:157 | filing an amount keeps the rows in strictly ascending key order |
| Rollup.AddToKeys | app.py:157 | filing an amount under a key adds that key and no other |
| Rollup.AddToTotal | app.py:157 | filing an amount under a key adds it to that key's total only |
| Rollup.AddToSum | app.py:157 | filing an amount adds it to the grand total |
| Rollup.RollupShape | app.py:157-159 | the rollup has one row per distinct key, sorted, and its totals add up to the sum of all amounts |
| Rollup.RollupTotals | app.py:169-171 | the total filed under a key is the amount sum of exactly the records with that key |
| Rollup.RollupRowTotal | app.py:176-178 | every row's total is the amount sum of the records with its key |
| Pivot.AmountColumn | app.py:209-347 | the column that takes a record's amount: never NỢ; TIP exactly for tips and CHI HỘ exactly for advances; THU only for income and CHI only for expense paid neither by transfer nor by card; the transfer and card columns only for records paid that way |
| Pivot.RowOf | app.py:209-347 | a record's row carries its amount in the record's amount column, and has a NỢ entry exactly when it is an income record with a positive debt; 'Nội dung thu' is the description, or the category when the description is empty, for income and empty otherwise; 'Nội dung chi' is the purchase item, or the category when it is empty, for expense and empty otherwise; the TIP and CHI HỘ notes are the staff name for tips and advances and empty otherwise |
| Pivot.RowColumns | app.py:209-347 | a record's row has its amount in one column: transfer and card by method for income and expense, THU or CHI otherwise, TIP for tips, CHI HỘ for advances; the debt is in NỢ exactly for income with a positive debt; every other column is blank |
| Pivot.RowFilledCount | app.py:209-347 | exactly one amount column is filled, or two for income with a debt |
| Pivot.RowNarratives | app.py:209-347 | a narrative column is filled only for the record kind it belongs to |
| Pivot.RowsOfAt | app.py:209-347 | row i of a list's rows is the row of record i |
| Pivot.Grouped | app.py:209-347 | the sheet's order of records is the ledger reordered: the same records, as often, and the same count |
| Pivot.PivotRows | app.py:206-347 | the sheet has one row per record |
| Pivot.GroupedKindOrder | app.py:209-347 | the sheet lists income, then expense, then tips, then advances |
| Pivot.PivotRowsPerRecord | app.py:209-347 | the sheet has one row per record, each the row of the record at that place |
| Pivot.GroupedRows | app.py:209-347 | the rows are the four kinds' rows, one group after the other |
| Pivot.BuildPivotRows | app.py:206-347 | the four passes build exactly the declarative rows, one per record |
| Pivot.AppendIncomeRows | app.py:209-270 | the income pass appends the rows of the income records in order, with NỢ set on the row just appended |
| Pivot.IncomeCells | app.py:210-266 | an income record's row before its debt: transfer, card, or THU for cash and for no method |
| Pivot.AppendExpenseRows | app.py:273-316 | the expense pass appends the rows of the expense records in order |
| Pivot.ExpenseCells | app.py:274-316 | an expense record's row: transfer, card or CHI, noted by purchase item or category |
| Pivot.AppendTipRows | app.py:319-332 | the tip pass appends a TIP row per tip, noted by staff name |
| Pivot.AppendAdvanceRows | app.py:335-347 | the advance pass appends a CHI HỘ row per advance, noted by staff name |
| Pivot.PivotSheet | app.py:350-359 | the sheet is the rows, or one blank row when there are none |
| Report.SummarySheet | app.py:139-147 | four lines, labelled "Tổng Thu", "Tổng Chi", "Số dư", "Tổng HĐ"; income and expense are the kinds' amount sums, the balance is their difference, and "Tổng HĐ" is the invoice sum of the income records (0 when there are none) |
| Report.TypeLabel | app.py:199 | "Thu" exactly for income; every other kind reads "Chi" |
| Report.BossLabel | app.py:130 | "Có" exactly for a boss-ordered expense, otherwise "Không" |
| Report.IncomeRowOf | app.py:118-123 | an income-sheet row shows the record's own date, category, amount, invoices, staff, note, payment method and creation time; the date text reads back as the date |
| Report.ExpenseRowOf | app.py:125-130 | an expense-sheet row shows the record's own date, category, purchase item, amount, staff, note, payment method and creation time, and a boss label that is "Có" exactly when boss-ordered; the date text reads back as the date |
| Report.AllRowOf | app.py:195-203 | a "Tất cả" row shows every field of the record: the date (reading back as the date), "Thu" exactly for income and "Chi" for every other kind, category, amount, invoices, staff, purchase item, note, payment method, creation time, and a boss label reading "Có" when boss-ordered and "Không" otherwise |
| Report.IncomeRows | app.py:118-123 | one income-sheet row per income record, in order |
| Report.ExpenseRows | app.py:125-130 | one expense-sheet row per expense record, in order |
| Report.AllRows | app.py:195-203 | one "Tất cả" row per record, in order |
| Report.Export | app.py:82-359 | no workbook for an empty ledger; otherwise the summary sheet is the ledger's summary lines, the "Tất cả" sheet shows row i for record i, and the "Theo Format Excel" sheet is the ledger's pivot rows; each detail sheet has the notice ("Chưa có dữ liệu thu" / "Chưa có dữ liệu chi") exactly when its kind has no records, and otherwise holds the rows of that kind's records with each rollup being the rollup of those records by its key |
| Report.ExportConsistent | app.py:137-178 | the income-by-method rollup adds up to "Tổng Thu"; both expense rollups add up to "Tổng Chi" |
| Report.ExportDetailRows | app.py:118-130 | row i of each detail sheet shows the i-th record of that kind, and the sheet has one row per such record |
| Report.KindsSum | app.py:98-101 | the four kinds' amount sums add up to the ledger's |
| Report.SumColumnsOfRows | app.py:209-347 | the six amount columns of a list's rows add up to the list's amount sum |
| Report.LedgerSheetBalances | app.py:206-359 | the "Theo Format Excel" sheet's amount columns (NỢ aside) add up to the sum of all amounts |
| Filters.OnDayOf | app.py:586 | exactly the records dated on the chosen day |
| Filters.DaySummary | app.py:569-613 | nothing is shown exactly when no record is dated on the day; otherwise the figures are those of that day's records |
| Filters.ByRange | app.py:748-754 | with both ends picked, exactly the records dated from start to end inclusive; otherwise every record |
| Filters.RangeInclusive | app.py:750-751 | a record dated on either end of a proper range is kept |
| Filters.ByType | app.py:756-757 | "Tất cả" keeps everything; "Thu" and "Chi" keep exactly the income or expense records |
| Filters.ViewFilter | app.py:748-757 | a record is shown exactly when it meets both filters: with both ends picked, exactly the records in the range (of the chosen kind, for "Thu" or "Chi"); otherwise every record for "Tất cả" and exactly the chosen kind's records for "Thu" or "Chi"; a type choice never shows tips or advances |
| Filters.ViewFilterKeepsOrder | app.py:748-757 | filtering keeps the ledger's order |
| Filters.ViewTotals | app.py:790-804 | the totals are the summary of exactly the shown records, and equal their record-by-record running totals; the "Chi" view has no income and no invoices; the "Thu" view has no expense |
| Filters.NoKind | app.py:792-803 | selecting a kind that is absent selects nothing |
| Entry.FormFor | app.py:393-454 | the form values of a kind: income keeps the entered category, method and invoices; expense keeps the entered category, method, purchase item, boss flag and picture; tips get "TIP" and advances "CHI HỘ" with no method; only income has invoices; only expense has a purchase item, boss flag and picture; the debt is the entered one for "Công nợ" income and 0 otherwise |
| Entry.FormForRecord | app.py:393-551 | the record saved from a kind's form: tips and advances are stored under "TIP" and "CHI HỘ" with no method, picture or purchase item; income keeps the entered invoices, method and "Công nợ" debt; expense keeps the entered boss flag and method, and has a picture path exactly when one was uploaded |
| Entry.Validate | app.py:497-504 | the form is accepted exactly when the amount is positive, the staff name is not blank, and for an expense the category and purchase item are not blank; each error is reported exactly when its check is the first to fail |
| Entry.NewTransaction | app.py:506-551 | the new record's id is one more than the record count; staff name, category and purchase item are stripped; the invoices are the form's for income and 0 otherwise; the debt is the form's for "Công nợ" income and 0 otherwise; the boss flag only for a boss-ordered expense; the picture path is "images/" + stamp + extension exactly when a picture was uploaded; description, payment method and creation time are passed through |
| Entry.RecordWellFormed | app.py:497-551 | a well-formed record has a staff name that is not blank |
| Entry.LedgerWellFormed | app.py:536-553 | in a well-formed ledger no two records share an id |
| Entry.AcceptedIffWellFormed | app.py:497-551 | the form accepts a submission exactly when the record it builds is well formed |
| Entry.AppendKeepsLedger | app.py:536-553 | appending an accepted record keeps ids sequential and every record well formed |
| Entry.Store.constructor | app.py:26-29 | a fresh data file holds no records |
| Entry.Store.Save | app.py:495-554 | a refused form leaves the records unchanged and reports the first failed check; an accepted one appends exactly the new record; a well-formed ledger whose dates are calendar dates stays so, since the form's date comes from the date picker |
| Entry.Store.Clear | app.py:853-855 | delete-all leaves an empty, well-formed list |

## Left out

- The Streamlit screens, the widgets' layout, messages and metrics
  (app.py:364-495, 615-857): only the values they compute are modelled.
- Reading and writing the JSON data file and the workbook file (app.py:17-40,
  131-361): the store is a list field, and the workbook is its tables. The file
  name `export_to_excel` returns is not modelled.
- Writing the uploaded picture to disk (app.py:509-522). Its stored name is
  "images/" + a time stamp + the extension. The time stamp is the parameter
  `stamp`, and `created_at` is the parameter `createdAt`.
- The filling-in of missing columns for records written by older versions
  (app.py:104-116, 134-135, 184-193): every record in the model has every field.
- Currency.FormatCurrency: covers integers only. The program formats through a
  float; float rounding above 2^53 and non-integer amounts are not modelled.
- Dates.DisplayText: requires a valid date (years 1 to 9999). The range pandas
  accepts (1677 to 2262) is not modelled. Years below 1000 are shown with four
  zero-padded digits.
- NaN or missing cells in the DataFrames. These appear only for old records or
  for the columns noted below.
- Pivot.RowOf: the card and cash income rows and the expense rows of the
  program also write a key 'Nội dung (NV)'. That key is always empty, and on
  those rows 'Nội dung TIP' and 'Nội dung CHI HỘ' are missing. The model gives
  every row both note columns and has no 'Nội dung (NV)' column.
- The summary page's own rollups and picture gallery (app.py:615-715), the
  data page's display formatting (app.py:762-786), and its filtered export
  (app.py:806-849): they reuse the filters, summary and export modelled here.
