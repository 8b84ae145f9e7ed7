# toofinance core, modelled in Dafny

toofinance is a personal-finance web app with two halves:

- An **expense ledger**: one-off and recurring expenses in user-defined categories.
  - It derives a six-month bar chart, a per-category breakdown, month-over-month
    change, the five most recent expenses and an end-of-month forecast.
  - It has handlers that edit the lists and the filters, and a CSV export of
    the filtered list.
- A **wealth tracker**: monthly snapshots of cash accounts, assets, debts, earnings
  and investments.
  - A year table (`WealthTracker`) edits those snapshots.
  - A dashboard (`WealthDashboard`) turns them into net-worth, income, implied-spending
    and savings-rate series, a comparison with tracked expenses and an asset allocation.

This project models the logic of those screens and of the two helper libraries
(`lib/format.ts`, `lib/expense-utils.ts`) as values and functions. Where the source
loops or updates state, the model uses methods. Each method is proved equal to a
specification function, and the specification is then proved to have the
properties the app relies on.

## Modelling conventions

- **Money:** amounts are integers (cents).
  - Percentages, averages and forecasts are `real` values computed from them.
  - `Math.round` is floor of x + 1/2.
  - `toFixed(0)` rounds half away from zero, sign first, as JavaScript does.
- **Arithmetic:** JavaScript's truncating `%` is written out (`Format.JsRem`) where a
  negative operand can reach it.
- **Sorting:** `Array.prototype.sort` is a stable insertion sort, `Sorting.SortBy`.
  - It takes a comparator read as "cmp(a, b) <= 0".
  - `localeCompare` and the default `sort()` are the code-point (Unicode scalar
    value) lexicographic order `Sorting.LexLe`.
- **Collections:**
  - A `Record`/`Map` accumulator whose iteration order matters is modelled by its key
    order (`Common.KeyOrder`), its sums (`Common.Totals`) and its members
    (`Common.Members`). This applies to the category and day sums and to the allocation classes.
  - Lookup-only maps are Dafny `map`s.
- **Handlers:** the page's state is the class `LedgerState.Ledger`, and the year
  table's state is the class `WealthEditor.Tracker`. Their methods change the fields
  exactly as the React setters do.
- **Outside inputs:** database results, the clock, `parseFloat`/`parseInt` results,
  `Date.now()` stamps and the signed-in user are parameters.

## Model

| member | source | states |
|---|---|---|
| Format.MonthKey | lib/format.ts:6 | the month key is the date's first seven characters (the whole date when shorter) |
| Format.MonthKeyIdempotent | lib/format.ts:6 | taking the month key twice changes nothing; a missing date gives "" |
| Format.MonthKeyOfIsoDate | lib/format.ts:6 | the month key of "YYYY-MM" followed by anything is "YYYY-MM" |
| Format.NormalizeDate | lib/format.ts:7 | the result is the prefix of the date before its first 'T', holds no 'T', and is the date itself when it has none |
| Format.NormalizeDateRoundTrip | lib/format.ts:7 | stripping "T…" from date + "T" + time gives back the date, and doing so twice is the same |
| Format.JsRem | lib/format.ts:40 | JavaScript's remainder lies strictly between -b and b and equals the Euclidean one for a non-negative dividend |
| Format.OrdinalSuffix | lib/format.ts:38-46 | days 4..20 take "th"; the result is always one of st/nd/rd/th |
| Format.OrdinalSuffixByLastDigit | lib/format.ts:38-46 | outside 4..20 a non-negative day's suffix is chosen by its last digit (1 st, 2 nd, 3 rd, else th) |
| Format.OrdinalSuffixOfNegativeDay | lib/format.ts:40-44 | because the remainder keeps the dividend's sign, every negative day takes "th" |
| Format.OrdinalSuffixExamples | lib/format.ts:38-46 | 1st, 21st, 2nd, 22nd, 3rd, 23rd, 4th, 11th, 15th |
| Format.FormatVsLastMonth | lib/format.ts:36 | the text ends in "% vs last month" and starts with '+' exactly for a rise and with '-' exactly for a fall |
| Format.FormatVsLastMonthOfRise | lib/format.ts:36 | 5 gives "+5% vs last month" |
| Format.FormatVsLastMonthOfFall | lib/format.ts:36 | -10 gives "-10% vs last month" |
| Format.FormatVsLastMonthOfZero | lib/format.ts:36 | 0 gives "0% vs last month" |
| ExpenseUtils.FindCategory | lib/expense-utils.ts:5 | none is found exactly when no category has the id; a found category is in the list and has the id |
| ExpenseUtils.IsRentCategoryIff | lib/expense-utils.ts:4-18 | an unknown id is never rent; otherwise rent exactly when a rent word occurs in the lower-cased label or rent/housing in the lower-cased id |
| ExpenseUtils.IsRentCategoryOfRent | lib/expense-utils.ts:4-18 | the sample category "rent" is rent |
| ExpenseUtils.IsRentCategoryOfFood | lib/expense-utils.ts:4-18 | the sample category "food" is not rent |
| ExpenseUtils.IsRentCategoryOfUnknown | lib/expense-utils.ts:6 | an id absent from the list is not rent |
| ExpenseUtils.BeforeIsTotalPreorder | lib/expense-utils.ts:34-53 | every sort key's comparator is a total preorder, so the sort is well defined |
| ExpenseUtils.SortExpenses | lib/expense-utils.ts:28-54 | the result is a permutation of the input, sorted by the selected comparator |
| ExpenseUtils.SortExpensesOrder | lib/expense-utils.ts:34-53 | for each key, what the order means between any two positions (dates, amounts or labels ascending or descending) |
| ExpenseUtils.SortExpensesFallback | lib/expense-utils.ts:51-52 | an unknown sort key sorts exactly as "date-desc" |
| ExpenseUtils.DayOptions | lib/expense-utils.ts:56-61 | there are 28 options |
| ExpenseUtils.DayOptionsMeaning | lib/expense-utils.ts:57-60 | option i has value i + 1, which reads back as that number, and a label made of that value and its ordinal suffix |
| ExpenseUtils.DayOptionsLabels | lib/expense-utils.ts:57-60 | the first four labels are 1st, 2nd, 3rd, 4th |
| Sorting.SortBy | lib/expense-utils.ts:33-36 | the sort keeps every element (same multiset and length) and orders by a total preorder |
| Sorting.SortBySum | app/app/page.tsx:453-456 | sorting does not change a sum over the list |
| Sorting.SortByRespectsEqualRelations | lib/expense-utils.ts:51-52 | comparators that agree everywhere sort the same list identically |
| Sorting.LexLeIsTotalPreorder | lib/expense-utils.ts:36 | code-point order on strings is total and transitive |
| Sorting.LexLeAntisymmetric | app/app/page.tsx:424 | two strings each at most the other are equal |
| Common.GroupByKey | app/app/components/WealthDashboard.tsx:268-275 | the accumulating loop yields the first-seen key order, the sum per key and the items per key |
| Common.OrderedSums | app/app/page.tsx:450-453 | the loop that adds each amount to its key's running sum yields the first-seen key order and the sum per key |
| Common.SumByKey | app/app/components/WealthDashboard.tsx:139-142 | the per-snapshot sum loop yields the map of sums per key |
| Common.KeyOrder | app/app/page.tsx:454 | the keys of the record have no duplicates and are exactly the keys seen |
| Common.SumOfKeyTotals | app/app/page.tsx:449-456 | the per-key sums add up to the sum of all amounts |
| Common.KeyFilterSum | app/app/page.tsx:442-445 | filtering by a key and summing gives that key's total |
| Common.SumOfFilter | app/app/page.tsx:499-500 | summing the filtered list equals summing only the kept items |
| Text.NatToString | app/app/page.tsx:438 | a number is printed as a non-empty string of digits |
| Text.DigitsValueOfNatToString | app/app/page.tsx:438 | a printed number reads back as itself |
| Text.ContainsIffOccurs | lib/expense-utils.ts:10-16 | `includes` holds exactly when the word occurs at some position |
| JsDate.ToNumber | app/app/page.tsx:437 | for text of decimal digits (surrounding spaces allowed), `Number` gives its value, and empty or blank text gives 0; the model reads all other text as NaN |
| JsDate.FullYear | app/app/page.tsx:438 | a two-digit year passed to `new Date(y, m)` is read as 19yy; other years stay |
| JsDate.MakeYearMonth | app/app/page.tsx:438 | `new Date(y, m)` normalises an out-of-range month into a month index 0..11 of the same absolute month |
| JsDate.DaysInMonth | app/app/page.tsx:496 | a month has 28 to 31 days, and February has 29 exactly in leap years |
| JsDate.LastDayOfMonth | app/app/page.tsx:496 | day 0 of the next month is the last day of the given month |
| JsDate.SplitYearMonthOfKey | app/app/page.tsx:437 | a "YYYY-MM" key splits back into its year and month |
| JsDate.LastMonthKeyOfKey | app/app/page.tsx:436-440 | the previous month of "YYYY-MM" is the month before it, wrapping January to December of the year before |
| JsDate.KeyReadsBack | app/app/page.tsx:436-440 | printing a month and reading it back gives the same previous-month key |
| JsDate.LastMonthKeyOfShortYear | app/app/page.tsx:436-440 | a key with a year below 100 has its previous month computed in 19yy |
| JsDate.LastMonthKeyWithoutDash | app/app/page.tsx:436-440 | a key without '-' has previous-month key "NaN-NaN" |
| LedgerMemos.CategoryOf | app/app/page.tsx:346-347 | a known id gives its category; an unknown id gives the fallback "Other" category |
| LedgerMemos.MonthlyData | app/app/page.tsx:418-425 | the loop computes the monthly-totals window |
| LedgerMemos.MonthlyDataWindow | app/app/page.tsx:418-425 | the window holds min(6, months seen) rows, each a month's total, in strictly ascending month order, and no month left out is later than any month shown |
| LedgerMemos.MonthlyDataAscending | app/app/page.tsx:424 | every row carries its month's total and months ascend without repeats |
| LedgerMemos.MonthlyDataLatest | app/app/page.tsx:424 | a month left out of the window sorts before every month shown |
| LedgerMemos.SortedMonthsDistinct | app/app/page.tsx:419-424 | the sorted month rows have distinct months |
| LedgerMemos.CategoryBreakdown | app/app/page.tsx:449-457 | the loop computes the category breakdown |
| LedgerMemos.BreakdownMeaning | app/app/page.tsx:449-457 | the rows add up to the month's spending, are in descending amount order and there is one row per category used |
| LedgerMemos.BreakdownRows | app/app/page.tsx:453-455 | each row is a category used this month with its total, and every category used has its row |
| LedgerMemos.CategoryBreakdownTotal | app/app/page.tsx:429-457 | the breakdown adds up to the active month's total |
| LedgerMemos.TallySnoc | app/app/page.tsx:463-465 | adding one expense to a month's record bumps its category's sum |
| LedgerMemos.ByMonthMeaning | app/app/page.tsx:460-466 | only the shown months have a record, and each holds the category sums of that month's expenses |
| LedgerMemos.EmptyRecords | app/app/page.tsx:461 | every shown month starts with an empty record |
| LedgerMemos.AccumulateByMonth | app/app/page.tsx:462-466 | the loop over expenses fills each shown month's record and skips other months |
| LedgerMemos.TallyByMonth | app/app/page.tsx:460-466 | the two loops build the per-month category records |
| LedgerMemos.BarsOfByMonth | app/app/page.tsx:467-473 | mapping the records to bars gives the specified bars |
| LedgerMemos.MonthlyDataByCategory | app/app/page.tsx:459-474 | the memo's result equals the specified bars, one per window row |
| LedgerMemos.MonthBarsAddUp | app/app/page.tsx:459-474 | each bar's segments add up to the bar's total and are in descending amount order |
| LedgerMemos.PercentChangeSign | app/app/page.tsx:447 | "0" when last month had no spending or nothing changed; otherwise a leading '-' exactly when spending fell |
| LedgerMemos.RecentExpensesNewest | app/app/page.tsx:482-485 | at most five expenses, drawn from the list, newest first, and none left out is newer than one shown |
| LedgerMemos.RecentLeftOutOlder | app/app/page.tsx:483 | an expense left out is no newer than any expense shown |
| LedgerMemos.FilteredExpenses | app/app/page.tsx:476-480 | the list is a permutation of the active month's expenses (of the chosen category when filtered), newest first |
| LedgerMemos.FilteredExpensesMembers | app/app/page.tsx:476-480 | an expense is listed exactly when it is of the active month and, with a category filter, of that category; the list is newest first |
| LedgerMemos.CurrentMonthParts | app/app/page.tsx:413-416 | the current month key reads back as today's year and month |
| LedgerMemos.CurrentMonthDays | app/app/page.tsx:495-496 | the month length used is the number of days of today's month |
| LedgerMemos.DailyAverage | app/app/page.tsx:501 | the average times the days elapsed is the total; zero days give 0 |
| LedgerMemos.HighestDayMetric | app/app/page.tsx:508-511 | the loop computes the highest day |
| LedgerMemos.HighestDayIsMax | app/app/page.tsx:508-516 | there is no highest day exactly when the month has no expense; otherwise it is a day used, with its total, and no day has a larger total |
| LedgerMemos.OneOffTotal | app/app/page.tsx:499-500 | the one-off total is the month's total minus the expenses generated by a recurring rule |
| LedgerMemos.PredictionGate | app/app/page.tsx:493 | a forecast exists exactly when no month filter and no category filter is set |
| LedgerMemos.PredictionOfToday | app/app/page.tsx:413-519 | the forecast is computed for the month the page was mounted in, with that month's length, the day of the month of the memo's own clock reading, that month's expenses newest first (as `filteredExpenses` left them) and the active recurring total |
| LedgerMemos.PredictionOnStaleTab | app/app/page.tsx:413-498 | a page mounted on 31 October and recomputed on 1 November still forecasts October, with 30 days remaining |
| LedgerMemos.ForecastIgnoresOrder | app/app/page.tsx:497-506 | sorting the month's expenses changes none of the forecast's figures except which of several tied days is the highest |
| LedgerMemos.OneOffSumIgnoresOrder | app/app/page.tsx:499-500 | the one-off total of the sorted month list equals that of the list in stored order |
| LedgerMemos.ForecastFigures | app/app/page.tsx:497-506 | days remaining, daily average, weekly average and end-of-month prediction satisfy the source's formulas |
| LedgerMemos.ForecastMetrics | app/app/page.tsx:497-517 | the forecast steps compute the specified figures |
| LedgerMemos.FigureMetrics | app/app/page.tsx:497-506 | the arithmetic steps compute the specified figures |
| LedgerMemos.PredictionMetrics | app/app/page.tsx:476-519 | the memo, fed two clock readings and the month's expenses after the in-place newest-first sort, equals the specified forecast |
| LedgerState.Toggled | app/app/page.tsx:676-678 | only the entry with the id has its `isActive` flipped; every other field and entry is unchanged |
| LedgerState.ToggledTwice | app/app/page.tsx:676-678 | toggling twice restores the list |
| LedgerState.ToggledAbsent | app/app/page.tsx:671-672 | an unknown id changes nothing |
| LedgerState.ToggledRecurringTotal | app/app/page.tsx:489 | toggling an entry with a unique id moves the monthly recurring total by that entry's amount, up or down |
| LedgerState.RemoveRecurring | app/app/page.tsx:684 | the entries kept are exactly those with another id |
| LedgerState.Unlink | app/app/page.tsx:685 | only expenses linked to the deleted rule lose their `recurringId`; everything else is unchanged |
| LedgerState.DeleteRecurringKeepsLinks | app/app/page.tsx:681-688 | after the deletion no expense points to the rule, and every remaining link still names an existing rule |
| LedgerState.UnlinkKeepsMonthTotals | app/app/page.tsx:685 | unlinking changes no month's total |
| LedgerState.EditRecurring | app/app/page.tsx:659-665 | only the edited rule takes the new amount, description, category and day; its id, activity and creation time stay |
| LedgerState.RecurringEditsKeepLinks | app/app/page.tsx:659-678 | toggling or editing a rule keeps every expense link resolvable |
| LedgerState.EditExpense | app/app/page.tsx:710-716 | only the edited expense takes the new fields; its id and link stay |
| LedgerState.RemoveExpense | app/app/page.tsx:723 | the expenses kept are exactly those with another id |
| LedgerState.RemoveExpenseTotal | app/app/page.tsx:723 | the total before deletion is the kept total plus the removed expenses' total |
| LedgerState.ExpenseEditsKeepLinks | app/app/page.tsx:710-723 | editing or deleting an expense keeps every link resolvable |
| LedgerState.AddExpenseEffect | app/app/page.tsx:604-624 | a new expense at the front keeps links resolvable and raises its month's total by its amount |
| LedgerState.Click | app/app/page.tsx:758-764 | a click sets the filter to the item unless it was already set to it, in which case it clears it |
| LedgerState.ClickTwice | app/app/page.tsx:758-764 | two clicks on the same category or month clear the filter, unless it already held that item, in which case it holds the item again |
| LedgerState.RemoveCategory | app/app/page.tsx:753 | the categories kept are exactly those with another id |
| LedgerState.Slug | app/app/page.tsx:733 | the slug holds no whitespace |
| LedgerState.NewCategoryIdIsNotFood | app/app/page.tsx:733 | a new category id contains '-' and so is never "food" |
| LedgerState.Ledger.constructor | app/app/page.tsx:289-300 | the loaded lists, the form category "food" and no filters |
| LedgerState.Ledger.FindRecurring | app/app/page.tsx:671 | a found rule is in the list with the id; none found means no rule has it |
| LedgerState.Ledger.ToggleRecurring | app/app/page.tsx:670-679 | the rules become the toggled list; nothing else changes |
| LedgerState.Ledger.DeleteRecurring | app/app/page.tsx:681-688 | with a rule chosen, it is removed and its expenses unlinked; without one nothing changes |
| LedgerState.Ledger.SaveRecurring | app/app/page.tsx:647-668 | with a rule being edited, it takes the edited fields; without one nothing changes |
| LedgerState.Ledger.SaveExpense | app/app/page.tsx:698-719 | with an expense being edited, it takes the edited fields; without one nothing changes |
| LedgerState.Ledger.DeleteExpense | app/app/page.tsx:721-725 | the expense is removed; nothing else changes |
| LedgerState.Ledger.AddExpense | app/app/page.tsx:550-637 | blank input, no user or a failed insert change nothing; otherwise the expense is prepended (and the rule appended for a recurring one) in the form's category, and the form category resets to "food" |
| LedgerState.Ledger.AddCategory | app/app/page.tsx:727-749 | a blank name or no user changes nothing; otherwise the category is appended under its new id with the trimmed label and becomes the form's category |
| LedgerState.Ledger.DeleteCategory | app/app/page.tsx:751-756 | the category is removed; the form category falls back to "food" and the category filter is cleared only when they named it |
| LedgerState.Ledger.CategoryClick | app/app/page.tsx:758-760 | the category filter becomes the click of the old one; nothing else changes |
| LedgerState.Ledger.MonthClick | app/app/page.tsx:762-764 | the month filter becomes the click of the old one; nothing else changes |
| Csv.UnquoteOfDoubled | app/app/page.tsx:534 | a description with its quotes doubled, then closed by a quote, reads back as the description (RFC 4180 section 2 rule 7) |
| Csv.ReadFieldsOfJoin | app/app/page.tsx:534 | fields joined by commas, each plain or quoted with quotes doubled, read back as the same fields |
| Csv.CsvRowReadsBack | app/app/page.tsx:534 | a row reads back as date, description (exactly, commas and quotes included), label and amount when date and label need no quotes |
| Csv.AmountIsPlain | app/app/page.tsx:531 | the `toFixed(2)` amount holds no comma, quote or line feed |
| Csv.CsvRowLabelWithComma | app/app/page.tsx:534 | as written, a label holding a comma splits the row into five fields |
| Csv.CsvRowQuotedReadsBack | app/app/page.tsx:534 | with the label quoted, every row reads back as its four fields whatever the description and label hold |
| Csv.SplitJoinLines | app/app/page.tsx:534 | rows without line feeds, joined by line feeds, split back into the same rows |
| Csv.CsvTextLines | app/app/page.tsx:526-535 | the text, with rows as the template writes them, is the header followed by one line per listed expense, in list order, when no field holds a line feed |
| Csv.CsvTextReadsBack | app/app/page.tsx:526-535 | when no date or label needs quotes, every line after the header reads back as its listed expense's date, description, label and amount |
| Csv.CsvTextLabelWithComma | app/app/page.tsx:526-535 | in the exported text, the line of an expense whose label holds a comma reads back as five fields |
| Csv.CsvTextQuotedReadsBack | app/app/page.tsx:526-535 | with the label quoted (the corrected export), every line reads back as its expense's four fields whatever the description and label hold |
| WealthRows.BySnapshotLookup | app/app/components/WealthDashboard.tsx:139-142 | a snapshot's sum is the total of its rows, and it has an entry exactly when it has a row |
| WealthRows.DetailsSum | app/app/components/WealthDashboard.tsx:145-150 | a snapshot's asset details add up to its asset sum |
| WealthRows.AssetsBySnapshot | app/app/components/WealthDashboard.tsx:144-150 | the loop computes the asset sums and the asset details per snapshot |
| DashboardSeries.AmountsOf | app/app/components/WealthDashboard.tsx:139-166 | each lookup gives the total of that table's rows for the snapshot |
| DashboardSeries.Populated | app/app/components/WealthDashboard.tsx:169-182 | kept snapshots are exactly the completed ones with positive cash + assets + debts |
| DashboardSeries.Kept | app/app/components/WealthDashboard.tsx:169-182 | a snapshot is shown exactly when it is the start month or an earlier month, and has positive cash + assets + debts |
| DashboardSeries.MonthLabelOfStart | app/app/components/WealthDashboard.tsx:193-194 | month 0 is labelled as December of the year before |
| DashboardSeries.MonthLabelOfMonth | app/app/components/WealthDashboard.tsx:193-194 | months 1..12 are labelled "YYYY-MM" |
| DashboardSeries.ImpliedCancelsAssets | app/app/components/WealthDashboard.tsx:216-224 | implied spending is earnings minus the change in cash plus the change in debts minus investments; the asset changes cancel |
| DashboardSeries.SavingsRateRounding | app/app/components/WealthDashboard.tsx:228-231 | the rate is the saved share of earnings in percent, rounded to within one half; 0 when all was spent; not negative when implied spending stays within earnings |
| DashboardSeries.SavingsRateUnclamped | app/app/components/WealthDashboard.tsx:228-231 | the rate is not clamped: -50 when spending exceeds earnings by half, 120 for negative spending |
| DashboardSeries.PrevOf | app/app/components/WealthDashboard.tsx:202-233 | a previous snapshot exists exactly from the second one on, and it is the one before |
| DashboardSeries.NetWorthSeriesPointwise | app/app/components/WealthDashboard.tsx:203-212 | one net-worth point and one breakdown point per kept snapshot, with its label, cash + assets - debts, cash and assets |
| DashboardSeries.IncomeSeriesPointwise | app/app/components/WealthDashboard.tsx:214-226 | income and implied-spending points exist for each kept snapshot with month >= 1 after the first, with its earnings and its implied spending |
| DashboardSeries.SavingsSeriesPointwise | app/app/components/WealthDashboard.tsx:228-231 | savings points exist exactly for those snapshots with positive earnings, each with its rounded rate |
| DashboardSeries.SavingsStep | app/app/components/WealthDashboard.tsx:214-233 | one more snapshot adds a savings point exactly when it has a previous one, month >= 1 and positive earnings |
| DashboardSeries.PairedExcludes | app/app/components/WealthDashboard.tsx:214 | neither the first snapshot nor a start month gets an income point, and savings points are never more than income points |
| DashboardSeries.WorkedExample | app/app/components/WealthDashboard.tsx:207-231 | a start month and January: net worth 1100, implied spending 1900, savings rate 5 |
| DashboardSeries.AppendSnapshot | app/app/components/WealthDashboard.tsx:203-233 | one pass of the loop body extends the series as specified |
| DashboardSeries.BuildSeries | app/app/components/WealthDashboard.tsx:202-234 | the loop over kept snapshots builds the specified series |
| Dashboard.TrackedKeyOfDate | app/app/components/WealthDashboard.tsx:245-246 | an expense dated "YYYY-MM-DD" is tracked under "YYYY-MM" |
| Dashboard.TrackedKeyWithoutDash | app/app/components/WealthDashboard.tsx:245-246 | a date without '-' is tracked under date + "-undefined" |
| Dashboard.ComparisonPoints | app/app/components/WealthDashboard.tsx:243-254 | one comparison point per implied-spending point, with its month, its implied value and the sum of the expenses tracked under that month |
| Dashboard.LoadShown | app/app/components/WealthDashboard.tsx:193-289 | the steps after filtering compute the specified view |
| Dashboard.LoadDashboard | app/app/components/WealthDashboard.tsx:101-294 | the whole load computes the specified view |
| Dashboard.ViewEmpty | app/app/components/WealthDashboard.tsx:119-190 | the view is empty exactly when no snapshot is kept, and otherwise has one net-worth point per kept snapshot |
| Dashboard.AllocationMonthSet | app/app/components/WealthDashboard.tsx:257-289 | the allocation month is set exactly when the allocation is non-empty, to the last kept snapshot's label |
| Dashboard.NwChange | app/app/components/WealthDashboard.tsx:302-304 | a change exists exactly when there are two net-worth points |
| Dashboard.NwChangePct | app/app/components/WealthDashboard.tsx:305-307 | a percentage exists exactly when there is a change and the previous net worth is not zero |
| Dashboard.NwChangePctSign | app/app/components/WealthDashboard.tsx:302-307 | the percentage has the sign of the change and equals 100 times the change over the previous value's magnitude |
| Dashboard.NwChangeOfSeries | app/app/components/WealthDashboard.tsx:302-304 | the change is the last kept snapshot's net worth minus the one before |
| Allocation.ClassOfSpec | app/app/components/WealthDashboard.tsx:270 | the class is never empty: the trimmed class, or "Other" when blank or only whitespace |
| Allocation.Items | app/app/components/WealthDashboard.tsx:273 | one item per detail, with its name and amount |
| Allocation.ClassTotalOfItems | app/app/components/WealthDashboard.tsx:271-273 | a class's amount is the sum of its items |
| Allocation.SumOfByClass | app/app/components/WealthDashboard.tsx:268-275 | the class groups add up to the sum of the assets |
| Allocation.GroupByClass | app/app/components/WealthDashboard.tsx:268-275 | the loop computes one group per class in first-seen order |
| Allocation.PctSum | app/app/components/WealthDashboard.tsx:265-284 | the shares of several rows add up to the share of their sum |
| Allocation.PctBounds | app/app/components/WealthDashboard.tsx:277 | a row equal to the total has share 100, and a larger one more |
| Allocation.HoldingsOfItems | app/app/components/WealthDashboard.tsx:280-282 | a group's holdings add up to its amount, are largest first and carry their share of the total |
| Allocation.ClassRows | app/app/components/WealthDashboard.tsx:276-284 | one row per class, each the class's group, adding up to the assets' sum |
| Allocation.PushClassGroups | app/app/components/WealthDashboard.tsx:276-284 | the loop appends the class rows after the cash row |
| Allocation.Allocate | app/app/components/WealthDashboard.tsx:257-289 | the steps compute the specified allocation |
| Allocation.AllocationEmpty | app/app/components/WealthDashboard.tsx:262-288 | the allocation is empty exactly when cash plus assets is not positive |
| Allocation.AllocationDescending | app/app/components/WealthDashboard.tsx:286 | rows are largest first |
| Allocation.AllocationKeepsRows | app/app/components/WealthDashboard.tsx:286 | the final sort keeps every row |
| Allocation.AllocationRows | app/app/components/WealthDashboard.tsx:263-286 | a cash row when cash is positive plus one row per class, each the class's group |
| Allocation.AllocationCash | app/app/components/WealthDashboard.tsx:264-266 | the cash row is present exactly when cash is positive |
| Allocation.AllocationCoversClasses | app/app/components/WealthDashboard.tsx:268-284 | every class of the assets has its row |
| Allocation.AllocationAmounts | app/app/components/WealthDashboard.tsx:259-286 | the rows add up to positive cash plus the assets |
| Allocation.AllocationShares | app/app/components/WealthDashboard.tsx:261-286 | shares add up to 100 when cash is not negative, and to more than 100 when it is |
| WealthTable.FindIndex | app/app/components/WealthTracker.tsx:443 | the first item with the name, or -1 when none has it |
| WealthTable.IsMonthPopulatedBySome | app/app/components/WealthTracker.tsx:668-673 | a month with a snapshot is populated exactly when some cash, asset or debt item is non-zero |
| WealthTable.UnpopulatedIsZero | app/app/components/WealthTracker.tsx:648-673 | an unpopulated month has zero cash, assets, debts and net worth |
| WealthTable.AssetPerformance | app/app/components/WealthTracker.tsx:675-684 | a value exactly when the month is not 0 and it and the month before are populated |
| WealthTable.ImpliedSpending | app/app/components/WealthTracker.tsx:688-697 | a value exactly when the month is not 0 and it and the month before are populated |
| WealthTable.ImpliedSpendingCancels | app/app/components/WealthTracker.tsx:688-697 | implied spending is earnings minus the change in cash plus the change in debts minus investments |
| WealthTable.AssetPerformanceFor | app/app/components/WealthTracker.tsx:699-707 | a value exactly when the month is not 0, is populated and the asset is non-zero in it or the month before; the value plus the investment is the asset's change |
| WealthTable.LatestPopulatedMonth | app/app/components/WealthTracker.tsx:710-715 | the latest populated month of 0..12, or 0 when none is |
| WealthEditor.UpdateCellSetsValue | app/app/components/WealthTracker.tsx:466-496 | after the update the cell holds the new value; an existing item is overwritten in place, a new one is appended with the asset's recorded class |
| WealthEditor.UpdateCellKeepsRest | app/app/components/WealthTracker.tsx:466-496 | other months, other kinds, other names' cells and the name lists stay as they were |
| WealthEditor.UpdateCellTotal | app/app/components/WealthTracker.tsx:466-496 | the month's total for the kind changes by the new value minus the old cell value |
| WealthEditor.SetAmountSum | app/app/components/WealthTracker.tsx:480-486 | setting one amount changes the items' sum by the difference |
| WealthEditor.WithoutName | app/app/components/WealthTracker.tsx:626 | the names kept are exactly the other names |
| WealthEditor.Without | app/app/components/WealthTracker.tsx:612 | no item with the name is left |
| WealthEditor.DeleteItemEffect | app/app/components/WealthTracker.tsx:601-630 | the name leaves its list and all its cells read 0 (for an asset also its investments and class); every other cell, list and month stays |
| WealthEditor.NameAdded | app/app/components/WealthTracker.tsx:565-566 | a known name changes nothing; a new one is added and the list is sorted |
| WealthEditor.AddEffect | app/app/components/WealthTracker.tsx:554-580 | adding a known name changes nothing; a new name joins the sorted list, and a new asset records its class, "Other" when blank |
| WealthEditor.Tracker.constructor | app/app/components/WealthTracker.tsx:281-289 | the year starts with no names, classes or snapshots |
| WealthEditor.Tracker.UpdateCell | app/app/components/WealthTracker.tsx:447-552 | the year data becomes the updated year data |
| WealthEditor.Tracker.AddItem | app/app/components/WealthTracker.tsx:554-568 | the year data becomes the year data with the name added |
| WealthEditor.Tracker.AddAsset | app/app/components/WealthTracker.tsx:571-580 | the year data becomes the year data with the asset added |
| WealthEditor.Tracker.DeleteItem | app/app/components/WealthTracker.tsx:583-630 | the year data becomes the year data with the item deleted |
| WealthYearLoad.ItemsOf | app/app/components/WealthTracker.tsx:332-350 | a snapshot's items are exactly its rows, mapped |
| WealthYearLoad.SnapshotMapMonths | app/app/components/WealthTracker.tsx:357-366 | the snapshot map has exactly the months of the loaded snapshots |
| WealthYearLoad.SnapshotMapLast | app/app/components/WealthTracker.tsx:357-366 | the last snapshot loaded for a month is the one kept |
| WealthYearLoad.AddNames | app/app/components/WealthTracker.tsx:352-355 | adding names to a set keeps it duplicate-free and holds exactly the old and new names |
| WealthYearLoad.NamesOf | app/app/components/WealthTracker.tsx:352-355 | the collected names are distinct and exactly the names of the year's rows |
| WealthYearLoad.SortedNames | app/app/components/WealthTracker.tsx:372-375 | the name lists are sorted, distinct and exactly the names of the year's rows |
| WealthYearLoad.RecordClasses | app/app/components/WealthTracker.tsx:336-341 | a recorded class is never overwritten; a new entry comes from an item with a non-empty class; every item with a class has an entry |
| WealthYearLoad.ClassRecorded | app/app/components/WealthTracker.tsx:336-341 | every recorded class is non-empty and is the class of some row of that asset |
| WealthYearLoad.RowClassRecorded | app/app/components/WealthTracker.tsx:339 | every asset row with a non-empty class gets a class recorded |
| WealthYearLoad.AddAll | app/app/components/WealthTracker.tsx:352-355 | the loop adds the names |
| WealthYearLoad.Record | app/app/components/WealthTracker.tsx:336-341 | the loop records the classes |
| WealthYearLoad.LoadYearData | app/app/components/WealthTracker.tsx:300-382 | the load computes the specified year data |

## Left out

- Supabase reads and writes, authentication, routing, loading flags and all rendering
  are not modelled. Handlers receive what the database would return (new ids, whether
  a user is signed in) as parameters. A failed database write that the source ignores
  is not modelled.
- The clock is a parameter:
  - `Today` for the ledger, requiring a year of at least 100;
  - `curYear`/`curMonth` for the dashboard.
- `parseFloat`/`parseInt` results are parameters of the handlers that use them.
- The `Date.now()` and `new Date().toISOString()` stamps are opaque string parameters.
- Amounts are whole cents. The source uses floating-point numbers, so rounding error
  in sums and in `toFixed` is not modelled.
- `Intl` currency, month-name and date-range formatting are left out, as they
  depend on the locale.
  - Labels of chart points are kept as year/month values (`YearMonth`) and printed by `YearMonth.Text`.
- `Object.entries` lists integer-like keys first in numeric order. The model uses
  plain insertion order, which is the same for the date-like and id keys the app uses.
- JavaScript's `in` also finds keys inherited from `Object.prototype`
  ("constructor", …). The model ignores them.
- `localeCompare` is modelled as code-point order. ICU collation is left out.
- `Sorting.LexLe`: compares Unicode code points, while the default `sort()` compares
  UTF-16 code units. The two orders differ only when a character above U+FFFF
  (stored as a surrogate pair, 0xD800-0xDFFF) meets one in U+E000-U+FFFF at the
  same position. JavaScript puts "😀" before "！", and the model puts it after.
- `Text.ToLower` lowercases ASCII letters only.
- `LedgerMemos.FilteredExpenses`: the source sorts the memoised month list in place.
  The model returns a sorted copy. Within one render the forecast, declared later,
  sees the sorted array, and the model passes it the sorted list too
  (`LedgerMemos.PredictionOf`).
- `LedgerMemos.CategoryBreakdown`: the model sums the month's expenses in stored
  order. When only `categories` changes, the source recomputes the breakdown over the
  array that an earlier render's `filteredExpenses` sorted in place. Categories whose
  totals tie may then be listed in a different order; the rows and amounts are the same.
- `LedgerState.Ledger.AddExpense`: besides the category, `handleAddExpense` resets the
  form's amount, description, date, recurring flag and recurring day (page.tsx
  631-636). The model does not keep those form fields. Their values reach the
  handler as parameters.
- `JsDate.ToNumber`: models `Number` for month keys only, that is for digits, spaces
  and other text read as NaN. Signs, decimal points, exponents, hexadecimal and
  "Infinity" (all numbers in JavaScript) are read as NaN. The month keys the app
  builds from its `YYYY-MM-DD` dates split into digit parts, so they never take those
  forms.
- The CSV `Blob`, object URL and download link are left out. Reading back is shown
  per row and per line.
- `ensureSnapshot` (creating a missing snapshot in the database) is a parameter: the
  snapshot id it created, if any. The year of a snapshot created that way is not
  tracked.
- The `savingCells` and `saveError` flags and the reload after a failed save are
  left out.
- `maxMonth`, the chart geometry, dark mode, `toggleSection`, the year selector and
  the dialog-opening helpers (`openEditRecurring`, `openEditExpense`) are left out;
  they only feed the view. Dialog state is passed to the handlers as an `Option`
  parameter.
- page.tsx repeats `getMonthKey` and `getOrdinalSuffix` (lines 45-65). Its copy of
  `getMonthKey` lacks the `|| ''` guard. Both are modelled once, in `Format`, and
  agree for any string.
- `LedgerMemos.PredictionOfToday`: the month length comes from the mount-time
  reading directly rather than by re-splitting `activeMonth`. When a forecast exists,
  `activeMonth` is the mount-time `currentMonth`, so the two are the same month
  (`LedgerMemos.CurrentMonthParts`). The day comes from the memo's own reading.
- The default-category seeding on first load (page.tsx 362-386) is left out. It is a
  database insert.

## Findings

| source | as written | input that shows it | evidently intended | confidence | as-written member | corrected member |
|---|---|---|---|---|---|---|
| app/app/page.tsx:534 | the CSV row quotes the description (doubling its quotes) but writes the category label bare | an expense in a category labelled `Food, drinks`: the row reads back as five fields, `Food` and ` drinks` in place of the label | quote the label as the description is, so every row reads back as four fields | not executed; medium | Csv.CsvTextLabelWithComma | Csv.CsvTextQuotedReadsBack |
