# finora core, modelled in Dafny

finora is a personal-finance web application. Users record transactions,
set monthly budgets per category, and get alerts when spending crosses
thresholds that they configure. A public landing site adds a service
catalogue, a portfolio, testimonials and an inquiry form. This project
models the rules inside that application and proves properties of them:

- the alert engine (`generateAlerts`), which evaluates each enabled alert
  rule against budgets and spending, removes duplicate alerts and orders
  them newest first;
- the alerts panel, which removes duplicates, hides dismissed alerts,
  learns dismissals and formats an alert's age;
- the alert settings dialog, which checks and shapes new rules, toggles
  and deletes rules, and recognises the missing-table error;
- the budgets page, which checks the budget form, computes each budget's
  spending and classifies it as on track, warning or over;
- the transactions page, with its five-stage filter, its clear button,
  its active-filter flag and the transaction whose deletion is pending;
- the transaction dialog, which checks the form, trims the saved row,
  keeps up the merchant table (count and last category) and suggests
  merchants;
- the dashboard, with its totals, the last seven days, upcoming bills, the
  balance, the shortened category list and deletion with undo;
- the summary cards, with the budget percentage, the over-budget flag, the
  bar width and the overage line;
- the analysis page, which sets the date range for an interval, puts
  transactions into day and month buckets, walks those buckets into chart
  points, splits spending by category and scales the chart;
- the category budget chart, with slice angles that chain into a full
  circle, the large-arc flag and the legend;
- the monthly overview chart, with the interval buttons, the scaling into
  the plotting area, the y-axis values and the thinning of x-axis labels;
- the service dialog, whose list of inclusions is never empty and whose
  blank inclusions are never saved;
- the home page, with its carousels, the portfolio filter, the loaded
  lists and the inquiry submit status;
- the currency table, the sorted list of currency codes, the symbol lookup
  and the shape of the two amount formats.

Every database reply, the clock and each user gesture is a parameter of
the member that models it. State that a component keeps and updates —
a dialog's form, the panel's dismissed set, the merchant table — is a
`class` whose methods state the whole new state in terms of the old one.
The rules are functions, and lemmas prove what these functions mean.
Methods with the source's loops are proved equal to those functions.
Amounts are `real`. Calendar dates are abstract day and month numbers.
Where JavaScript arithmetic can yield `NaN` or `Infinity` (a division by
a zero budget, `Math.min` of such a value), the model computes with
`JsNum.Num`, which has those values. Shared modules are `Common`
(replies, errors, amount fields), `Seqs` (sums, filters, subsequences),
`Strings` (search, lower case, trim, code order, decimals), `Tally`
(keyed sums, as the source's `Map`s), `Unique` (first-wins
de-duplication), `StableSort`, `Scale` (minimum, maximum, range),
`JsNum` and `Arith`.

In three places the model follows the code rather than its description.
The merchant's `most_common_category_id` is the category most recently
used. A budget amount that does not parse (NaN) passes the form check,
because `NaN <= 0` is false. With more than one category named "Bills &
Utilities", `maybeSingle` yields nothing, so no upcoming bills are
computed.

## Model

| member | source | states |
|---|---|---|
| Common.ErrorText | src/components/TransactionModal.tsx:193 | the shown error is the thrown message when there is one, the fallback text otherwise, and never empty |
| Common.MissingTableByCode | src/lib/alerts.ts:21-27 | an error with code `PGRST204` is the missing-table error, whatever its message |
| Common.MissingTableByMessage | src/lib/alerts.ts:21-27 | an error whose message mentions `alert_settings` is the missing-table error, whatever its code |
| Common.OtherErrorIsNotMissingTable | src/components/AlertsPanel.tsx:45-51 | any other error, such as a permission error, is not treated as a missing table |
| Alerts.FindBudget | src/lib/alerts.ts:63 | nothing iff no budget has the category; otherwise the first budget that has it |
| Alerts.CategoryName | src/lib/alerts.ts:71-76 | never empty; the first matching category's name when it has one, and the word "category" when that name is empty or the category is unknown |
| Alerts.ThresholdSeverity | src/lib/alerts.ts:74 | `error` iff the percentage is at least 100, `warning` iff it is below 100 |
| Alerts.Evaluate | src/lib/alerts.ts:61-127 | an alert from a setting carries that setting's id and the run's timestamp; threshold kinds give warning or error, the completion kind success or error |
| Alerts.EvaluateAll | src/lib/alerts.ts:61-128 | at most one alert per setting, each produced by one of the settings |
| Alerts.SettingsToEvaluate | src/lib/alerts.ts:20-27 | no settings on the missing-table error or when no data came back; otherwise the enabled settings returned |
| Alerts.TallySpending | src/lib/alerts.ts:50-54 | the `forEach` that fills `categorySpending` computes the per-category tally |
| Alerts.EvaluateSettings | src/lib/alerts.ts:61-128 | the `for` loop that pushes alerts computes the evaluation of each setting, in setting order |
| Alerts.DedupAlerts | src/lib/alerts.ts:131-137 | the loop over the `unique` map keeps the first alert of each key, in order |
| Alerts.GenerateAlerts | src/lib/alerts.ts:20-140 | the whole engine: settings fetch, figures, loop, de-duplication and sort |
| Alerts.EngineEmptyWithoutSettings | src/lib/alerts.ts:20-27 | without a settings table, data or any enabled setting, no alert is generated |
| Alerts.CategorySpendingIsSum | src/lib/alerts.ts:50-54 | a category's spending is the sum of the amounts of that category's transactions |
| Alerts.TotalSpendingIsSum | src/lib/alerts.ts:57-58 | the spending of all categories together is the sum of all transaction amounts |
| Alerts.FiguresOrderIndependent | src/lib/alerts.ts:50-58 | per-category spending, total spending and total budget do not depend on row order |
| Alerts.PercentageBands | src/lib/alerts.ts:68 | with a positive budget, the percentage reaches 100 iff spending reaches the budget, and exceeds 100 iff spending exceeds it |
| Alerts.CategoryRule | src/lib/alerts.ts:62-80 | no alert without a category or without a budget for it; otherwise an alert with the first budget iff percentage ≥ threshold, an `error` iff ≥ 100 |
| Alerts.TotalRule | src/lib/alerts.ts:81-93 | an alert iff the total percentage reaches the threshold; with a zero total budget one fires iff threshold ≤ 0; `error` iff spending reaches a positive budget |
| Alerts.CompletionRule | src/lib/alerts.ts:94-126 | fires iff near month end with a positive total budget; `success` iff spending ≤ budget, else `error` with overage = spending − budget > 0 |
| Alerts.EngineKeepsSettingOrder | src/lib/alerts.ts:131-139 | with one clock reading per run (a modelling assumption, see "## Left out"), every alert of a run has the same timestamp, so the sort leaves the de-duplicated list in setting order |
| Alerts.AlertsOfOnePass | src/lib/alerts.ts:61-128 | every evaluated alert has the run's timestamp and the id of one of the settings |
| Alerts.EngineProperties | src/lib/alerts.ts:61-139 | at most one alert per setting, keys (setting id or id, title) pairwise distinct, timestamps non-increasing, each alert tied to a setting |
| Alerts.EvaluateAllAgree | src/lib/alerts.ts:61-128 | two runs whose every setting evaluates alike give the same alerts |
| Alerts.EvaluateAgree | src/lib/alerts.ts:61-127 | a setting's verdict depends only on its category's spending, the budgets, the totals and the clock |
| Alerts.EngineTxnOrderIndependent | src/lib/alerts.ts:50-139 | reordering the transaction rows does not change the generated alerts |
| Alerts.GrocerySpending | src/lib/alerts.ts:50-54 | 450 spent on groceries and 900 on rent tally to those two entries |
| Alerts.GroceryVerdict | src/lib/alerts.ts:62-80 | 450 of a 500 grocery budget against an 80% rule gives one 90% warning naming "Groceries" |
| Alerts.SingleAlertSurvives | src/lib/alerts.ts:131-139 | one alert passes de-duplication and sorting unchanged |
| Alerts.GroceriesScenario | src/lib/alerts.ts:20-140 | the whole engine on the grocery data gives exactly that warning |
| Alerts.ThresholdBoundaries | src/lib/alerts.ts:68-74 | 400 of 500 at an 80% rule is a warning; 500 of 500 is an error |
| Alerts.TotalExceededScenario | src/lib/alerts.ts:81-93 | 2100 of a 2000 total budget at a 90% rule is a 105% error |
| Alerts.CompletionScenario | src/lib/alerts.ts:94-126 | on the last day, 800 of 1000 is a success at 80% |
| Alerts.MissingTableScenario | src/lib/alerts.ts:21-23 | the `PGRST204` reply about `alert_settings` gives no alerts |
| Unique.DedupFirstWins | src/lib/alerts.ts:131-137 | the kept alert of each key is the first one with that key |
| Unique.DedupDistinct | src/lib/alerts.ts:131-137 | no two kept alerts share a key |
| Unique.DedupSameKeys | src/lib/alerts.ts:131-137 | every key of the input is still present after de-duplication |
| Unique.DedupIsSubsequence | src/lib/alerts.ts:131-137 | de-duplication removes alerts and keeps the others' order |
| Unique.DedupIdempotent | src/components/AlertsPanel.tsx:37-41 | de-duplicating already de-duplicated alerts changes nothing |
| StableSort.SortSorted | src/lib/alerts.ts:139 | the sort leaves timestamps in non-increasing order |
| StableSort.SortPermutes | src/lib/alerts.ts:139 | the sort is a permutation of its input |
| StableSort.SortAllEqual | src/lib/alerts.ts:139 | a list whose timestamps all agree is left unchanged |
| StableSort.SortStable | src/lib/alerts.ts:139 | stability: for every timestamp, the alerts carrying it come out in the order they went in |
| StableSort.SortDistinct | src/lib/alerts.ts:139 | sorting keeps keys distinct |
| Tally.TallyOrderIndependent | src/lib/alerts.ts:50-54 | a keyed sum does not depend on the order of its rows |
| AlertsPanel.Panel.constructor | src/components/AlertsPanel.tsx:20-23 | the panel starts empty, loading, with nothing dismissed |
| AlertsPanel.Panel.FetchAlerts | src/components/AlertsPanel.tsx:31-55 | a reply shows the de-duplicated, undismissed alerts and reports their count; the missing table shows none and reports 0; any other error leaves the list as it was |
| AlertsPanel.Panel.RemoveAlert | src/components/AlertsPanel.tsx:100-112 | the dismissed set grows by the alert's key; the list loses exactly the alerts with that key and the new count is reported |
| AlertsPanel.ShownProperties | src/components/AlertsPanel.tsx:37-44 | shown alerts have distinct keys and none dismissed, keep their order, and every undismissed de-duplicated alert is shown |
| AlertsPanel.RemoveProperties | src/components/AlertsPanel.tsx:107-111 | removing by key keeps order, drops every alert with that key and keeps every other |
| AlertsPanel.JsRem | src/components/AlertsPanel.tsx:87 | JavaScript's `%`: the sign of the dividend, magnitude below the divisor |
| AlertsPanel.FormatTime | src/components/AlertsPanel.tsx:83-98 | more than 24 hours gives days ago (≥ 1); 1–24 hours gives hours; 1–59 minutes gives minutes; less than a minute gives "Just now" |
| AlertsPanel.ExactlyOneDay | src/components/AlertsPanel.tsx:86-92 | exactly 24 hours reads "24h ago", not "1d ago" |
| AlertSettingsModal.RowFor | src/components/AlertSettingsModal.tsx:71-77 | the inserted row is enabled, carries the user, kind and threshold, and a category iff the kind is category threshold |
| AlertSettingsModal.ThresholdInput | src/components/AlertSettingsModal.tsx:237-238 | non-numeric input becomes 0; a number is taken as typed, without a clamp |
| AlertSettingsModal.ToggleTouchesOnlyTarget | src/components/AlertSettingsModal.tsx:116-121 | a toggle flips `is_enabled` of exactly the targeted rows and leaves every other row as it was |
| AlertSettingsModal.ToggleTwice | src/components/AlertSettingsModal.tsx:116-121 | toggling the same setting twice restores the table |
| AlertSettingsModal.DeleteRemovesOnlyTarget | src/components/AlertSettingsModal.tsx:103-110 | a delete removes exactly the rows with that id and keeps the others in order |
| AlertSettingsModal.Dialog.constructor | src/components/AlertSettingsModal.tsx:16-25 | the dialog starts with the default form, hidden, loading |
| AlertSettingsModal.Dialog.FetchData | src/components/AlertSettingsModal.tsx:33-58 | a missing table gives an empty settings list; a thrown error empties it; otherwise returned data replaces the old; nothing changes without a user (FetchedSettings, FetchedCategories) |
| AlertSettingsModal.Dialog.ChangeKind | src/components/AlertSettingsModal.tsx:185-190 | changing the kind clears the category and keeps the threshold |
| AlertSettingsModal.Dialog.ChangeCategory | src/components/AlertSettingsModal.tsx:211 | only the category changes |
| AlertSettingsModal.Dialog.ChangeThreshold | src/components/AlertSettingsModal.tsx:237-238 | only the threshold changes, to the parsed value or 0 |
| AlertSettingsModal.Dialog.HandleAddAlert | src/components/AlertSettingsModal.tsx:60-101 | without a user, or for a category rule without a category, nothing is inserted and no field changes; otherwise the shaped row is inserted; an error gives its notice and keeps every field but `saving`; success reloads the lists as fetchData does, resets the form to the defaults and hides it |
| AlertSettingsModal.Dialog.HandleDeleteAlert | src/components/AlertSettingsModal.tsx:103-114 | nothing without confirmation; otherwise the delete of that id; an error gives a notice and keeps the lists; success reloads the settings and categories as fetchData does |
| AlertSettingsModal.Dialog.HandleToggleEnabled | src/components/AlertSettingsModal.tsx:116-128 | the update flips the setting's enabled flag; an error keeps the lists; success reloads them as fetchData does |
| BudgetsPage.Check | src/pages/BudgetsPage.tsx:50-58 | an invalid amount is reported first; then a missing category; the form passes iff neither |
| BudgetsPage.BudgetModal.constructor | src/pages/BudgetsPage.tsx:20-26 | no category, the current month, an empty amount and no error |
| BudgetsPage.BudgetModal.Open | src/pages/BudgetsPage.tsx:28-42 | editing shows the budget; a new budget takes the first category (or none) and the current month |
| BudgetsPage.BudgetModal.ChangeCategory | src/pages/BudgetsPage.tsx:124-127 | the category is fixed while editing and follows the choice otherwise |
| BudgetsPage.BudgetModal.ChangeMonth | src/pages/BudgetsPage.tsx:147-148 | the month is fixed while editing and follows the choice otherwise |
| BudgetsPage.BudgetModal.ChangeAmount | src/pages/BudgetsPage.tsx:166 | only the amount field changes |
| BudgetsPage.BudgetModal.HandleSubmit | src/pages/BudgetsPage.tsx:44-92 | a failed check writes nothing and shows its error; otherwise the row is updated or inserted, and the modal closes iff the write succeeded |
| BudgetsPage.AcceptedForm | src/pages/BudgetsPage.tsx:50-58 | an accepted form has a category and an amount that is not empty, and a positive amount if it parses |
| BudgetsPage.Spent | src/pages/BudgetsPage.tsx:232-240 | no transaction table means nothing spent |
| BudgetsPage.SpentIsSum | src/pages/BudgetsPage.tsx:232-240 | spent is the sum of the user's transactions in the budget's category and month |
| BudgetsPage.SpentOrderIndependent | src/pages/BudgetsPage.tsx:232-240 | spent does not depend on row order |
| BudgetsPage.SpentIgnoresOthers | src/pages/BudgetsPage.tsx:232-240 | other users' and other categories' transactions do not change spent |
| BudgetsPage.StatusOf | src/pages/BudgetsPage.tsx:324-325 | over iff > 100%, warning iff in (80%, 100%], on track otherwise: exactly one holds |
| BudgetsPage.Bands | src/pages/BudgetsPage.tsx:323-325 | with a positive amount the percentage is spent/amount·100 and the three bands hold in those terms |
| BudgetsPage.ExactlyFullIsWarning | src/pages/BudgetsPage.tsx:324-325 | exactly 100% is a warning, not over |
| BudgetsPage.ZeroAmount | src/pages/BudgetsPage.tsx:323-325 | a zero budget with spending is over at full width; with no spending it is on track and the width is NaN |
| BudgetsPage.WidthAtMostFull | src/pages/BudgetsPage.tsx:378 | the width is never above 100% and never infinite |
| BudgetsPage.FooterSign | src/pages/BudgetsPage.tsx:385-399 | the footer shows an overage iff over budget, and that overage is positive; the remaining amount otherwise is not negative |
| TransactionsPage.HasActiveFilters | src/pages/TransactionsPage.tsx:156-157 | holds iff at least one of the five filter fields is not empty |
| TransactionsPage.ApplyFilters | src/pages/TransactionsPage.tsx:75-104 | the five sequential filter steps compute the transactions that the combined filter keeps |
| TransactionsPage.StepTaken | src/pages/TransactionsPage.tsx:78-101 | a non-empty filter field's step narrows the list by exactly its test |
| TransactionsPage.StepSkipped | src/pages/TransactionsPage.tsx:78-101 | an empty filter field's step changes nothing |
| TransactionsPage.StagesComplete | src/pages/TransactionsPage.tsx:76-103 | the list before the first step is the input; after the fifth it is the result of the combined filter |
| TransactionsPage.FilteredProperties | src/pages/TransactionsPage.tsx:75-104 | the result keeps the input's order, every shown transaction passes every non-empty filter, and every transaction that passes them all is shown |
| TransactionsPage.NoFiltersShowAll | src/pages/TransactionsPage.tsx:76 | with all filters empty the whole list is shown |
| TransactionsPage.SearchIgnoresCase | src/pages/TransactionsPage.tsx:78-84 | the search matches regardless of the case of the search text |
| TransactionsPage.DisplayedOmitsPending | src/pages/TransactionsPage.tsx:294-296 | the displayed list omits exactly the transaction whose deletion is pending |
| TransactionsPage.Page.constructor | src/pages/TransactionsPage.tsx:19-34 | no transactions, no filters |
| TransactionsPage.Page.Load | src/pages/TransactionsPage.tsx:64-70 | returned transactions replace the old; the filtered list follows |
| TransactionsPage.Page.ChangeFilters | src/pages/TransactionsPage.tsx:42-44 | the filters change and the filtered list is recomputed |
| TransactionsPage.Page.ClearFilters | src/pages/TransactionsPage.tsx:106-114 | every filter empties, none is active, and the full list is shown |
| TransactionModal.Check | src/components/TransactionModal.tsx:118-131 | an invalid amount first, then a merchant blank after trimming, then a missing category; the form passes iff none holds |
| TransactionModal.RowFor | src/components/TransactionModal.tsx:136-145 | the saved merchant and note are trimmed, and the amount is the parsed one |
| TransactionModal.SavedMerchantClean | src/components/TransactionModal.tsx:124-145 | an accepted merchant is saved non-empty, without surrounding white space, as a slice of the typed text |
| TransactionModal.MatchCount | src/components/TransactionModal.tsx:166-171 | zero iff no merchant row matches the user and trimmed name |
| TransactionModal.MaybeSingle | src/components/TransactionModal.tsx:166-171 | a row iff exactly one matches, and it is that row |
| TransactionModal.AfterUse | src/components/TransactionModal.tsx:166-188 | one match: its count + 1 and its category set to the chosen one, every other row unchanged; otherwise a new row with count 1 is appended |
| TransactionModal.LastCategoryWins | src/components/TransactionModal.tsx:173-179 | after two uses the stored category is the second one: the most recently used category, not the most common |
| TransactionModal.OneMatchAfterUse | src/components/TransactionModal.tsx:166-188 | with at most one row for the name, exactly one remains after a use |
| TransactionModal.DuplicateRowsGrow | src/components/TransactionModal.tsx:166-188 | with two rows for the name, `maybeSingle` finds none and a third row is inserted |
| TransactionModal.AfterReplies | src/components/TransactionModal.tsx:166-188 | a failed update or insert leaves the table unchanged; otherwise the name has a row afterwards, and after a failed select the old rows are kept and one new row for the name is appended |
| TransactionModal.MerchantTable.RecordUse | src/components/TransactionModal.tsx:166-188 | with clean replies the table becomes AfterUse of the old one; a failed select, whose error the source ignores, reads as no row and leads to the insert; a failed update or insert leaves the table unchanged |
| TransactionModal.FailedSelectDuplicates | src/components/TransactionModal.tsx:166-188 | a failed select on a name that has its one row inserts a second, after which the lookup finds no single row |
| TransactionModal.SuggestionsExact | src/components/TransactionModal.tsx:273-276 | the suggestions are exactly the loaded names that contain the input ignoring case, in order |
| TransactionModal.Dialog.constructor | src/components/TransactionModal.tsx:27-40 | an empty form in the given currency and date |
| TransactionModal.Dialog.Open | src/components/TransactionModal.tsx:42-64 | editing shows the transaction; a new one starts empty with the first category |
| TransactionModal.Dialog.FetchMerchants | src/components/TransactionModal.tsx:72-85 | the returned names replace the list when signed in |
| TransactionModal.Dialog.MerchantChange | src/components/TransactionModal.tsx:87-90 | the merchant becomes the input; suggestions show iff it is not empty |
| TransactionModal.Dialog.MerchantSelect | src/components/TransactionModal.tsx:92-110 | the merchant is the chosen name, suggestions hide, and the category becomes the stored one when there is one, staying as it was otherwise |
| TransactionModal.Dialog.Save | src/components/TransactionModal.tsx:133-196 | the update or insert is issued; a failed write shows its message, keeps the merchant table and leaves the dialog open; a successful one leaves the table as AfterReplies gives it and closes the dialog; loading ends false |
| TransactionModal.Dialog.HandleSubmit | src/components/TransactionModal.tsx:112-197 | without a user, or when the check fails, nothing is written and loading and the merchant table are unchanged, the check's message being shown; otherwise the trimmed row is written, the merchant table records the use, as the merchant replies allow, only when the write succeeded, and the modal closes iff it did, whatever the merchant calls reply |
| DashboardPage.ReplyTotal | src/pages/DashboardPage.tsx:82 | no data or no rows give 0 |
| DashboardPage.ReplyTotalOrderIndependent | src/pages/DashboardPage.tsx:92 | a total does not depend on row order |
| DashboardPage.ReplyTotalNonNegative | src/pages/DashboardPage.tsx:95 | non-negative amounts total a non-negative sum |
| DashboardPage.Last7Days | src/pages/DashboardPage.tsx:98-102 | seven consecutive days, the first six days ago and the last today |
| DashboardPage.Last7DaysAscending | src/pages/DashboardPage.tsx:98-102 | the days strictly ascend |
| DashboardPage.Weekly | src/pages/DashboardPage.tsx:104-116 | one point per day, with that day's total |
| DashboardPage.TodayFigure | src/pages/DashboardPage.tsx:212 | the red figure is the fixed text "2.5" exactly when anything was spent today, "0.0" otherwise |
| DashboardPage.BalanceAgreesWithPercentage | src/pages/DashboardPage.tsx:203-208 | with a positive budget the balance is non-negative iff the percentage is at most 100; without one the balance is the spending and the percentage 0 |
| DashboardPage.BillsCategory | src/pages/DashboardPage.tsx:118-124 | a found category is named exactly "Bills & Utilities"; with none of that name there is none |
| DashboardPage.FirstCategories | src/pages/DashboardPage.tsx:279 | the first four categories, or all when there are fewer |
| DashboardPage.Board.constructor | src/pages/DashboardPage.tsx:22-33 | all totals 0, nothing loaded, nothing pending |
| DashboardPage.Board.SetTotals | src/pages/DashboardPage.tsx:76-96 | today's, the month's and the budget total become the sums of their replies, 0 without data |
| DashboardPage.Board.SetBills | src/pages/DashboardPage.tsx:118-140 | the upcoming bills become the sum of the next-month bills reply when the bills category is found, and are left unchanged otherwise |
| DashboardPage.Board.FetchData | src/pages/DashboardPage.tsx:41-143 | without a user no field changes; otherwise lists replaced by returned data; today, month and budget totals; the seven-day points; upcoming bills only when the bills category exists |
| DashboardPage.Board.MarkForDelete | src/pages/DashboardPage.tsx:155-156 | the transaction becomes pending and leaves the recent list |
| DashboardPage.Board.Undo | src/pages/DashboardPage.tsx:161-164 | nothing pending and every transaction back in the list |
| SummaryCards.BudgetPercentage | src/components/SummaryCards.tsx:16 | 0 without a positive budget, else spent/budget·100 |
| SummaryCards.BarWidth | src/components/SummaryCards.tsx:53 | at most 100, and either 100 or the percentage |
| SummaryCards.Overage | src/components/SummaryCards.tsx:56-60 | shown iff over budget, with amount spent − budget |
| SummaryCards.OverBudgetIff | src/components/SummaryCards.tsx:17 | over budget iff the budget is positive and spending exceeds it, so never with a zero budget |
| SummaryCards.OverageIsPositive | src/components/SummaryCards.tsx:56-60 | a shown overage is positive |
| SummaryCards.WidthInRange | src/components/SummaryCards.tsx:53 | with non-negative spending the width lies in [0, 100] |
| AnalysisPage.MonthsBack | src/pages/AnalysisPage.tsx:63-90 | an interval reaches back 1, 3, 6 or 12 months, 12 exactly for the year |
| AnalysisPage.DateRange | src/pages/AnalysisPage.tsx:63-90 | the range starts at midnight of the shifted day and ends at today's last millisecond |
| AnalysisPage.Bucket | src/pages/AnalysisPage.tsx:100-113 | the `forEach` computes the day and month tallies of the dated transactions |
| AnalysisPage.DatedSnoc | src/pages/AnalysisPage.tsx:100-104 | a transaction without a date is skipped, one with a date is kept |
| AnalysisPage.UndatedSkipped | src/pages/AnalysisPage.tsx:100-104 | an undated transaction changes no bucket |
| AnalysisPage.BucketTotals | src/pages/AnalysisPage.tsx:110-112 | day buckets and month buckets both sum to the total of the dated transactions |
| AnalysisPage.OneBucketEach | src/pages/AnalysisPage.tsx:100-113 | each dated transaction is filed under its own day and month; bucket keys are distinct; a bucket sums its transactions |
| AnalysisPage.Series | src/pages/AnalysisPage.tsx:115-144 | one point per key from first to last, each with its bucket or 0 |
| AnalysisPage.Walk | src/pages/AnalysisPage.tsx:115-144 | the `while` loop computes that series |
| AnalysisPage.DataPoints | src/pages/AnalysisPage.tsx:92-147 | the points for an interval |
| AnalysisPage.SeriesOfTally | src/pages/AnalysisPage.tsx:115-144 | each walked point's amount is the sum of the transactions filed under its key |
| AnalysisPage.DaySeries | src/pages/AnalysisPage.tsx:115-129 | one month: one point per day from the start to today, with that day's sum |
| AnalysisPage.LongerWalk | src/pages/AnalysisPage.tsx:130-144 | longer intervals walk the month buckets |
| AnalysisPage.MonthSeries | src/pages/AnalysisPage.tsx:130-144 | one point per month from the start month to this month, each with that month's sum |
| AnalysisPage.SplitByCategory | src/pages/AnalysisPage.tsx:166-175 | one series per category, in category order, from that category's transactions |
| AnalysisPage.SeriesIgnoresOthers | src/pages/AnalysisPage.tsx:166-175 | other categories' transactions do not change a category's series |
| AnalysisPage.OwnUnchanged | src/pages/AnalysisPage.tsx:168 | filtering by category ignores other categories' transactions |
| AnalysisPage.Screen.constructor | src/pages/AnalysisPage.tsx:28-30 | no series, not loading |
| AnalysisPage.Screen.FetchCategorySpending | src/pages/AnalysisPage.tsx:149-183 | nothing without a user or categories; a failed query keeps the series; a reply gives one series per category |
| AnalysisPage.Layout | src/pages/AnalysisPage.tsx:189-224 | no points for empty data; otherwise one point per value from its index and normalised value |
| AnalysisPage.NormalizedInUnit | src/pages/AnalysisPage.tsx:212-221 | values normalise into [0, 1]; equal values normalise to 0.5 when not positive and to 0 when positive |
| AnalysisPage.YInside | src/pages/AnalysisPage.tsx:222 | a normalised value's height lies inside the plotting area, 1 at the top |
| AnalysisPage.XInside | src/pages/AnalysisPage.tsx:220 | every point lies between the side paddings, first at the left and last at the right |
| AnalysisPage.PointsInsideChart | src/pages/AnalysisPage.tsx:212-224 | every point of a non-empty chart lies inside the plotting area |
| AnalysisPage.TotalConcat | src/pages/AnalysisPage.tsx:230 | the total of a series is additive |
| CategoryBudgetChart.MakeSlice | src/components/CategoryBudgetChart.tsx:52-61 | a slice ends its angle after its start and takes the large arc iff it spans more than half a circle |
| CategoryBudgetChart.Slices | src/components/CategoryBudgetChart.tsx:50-79 | one slice per item |
| CategoryBudgetChart.BuildSlices | src/components/CategoryBudgetChart.tsx:50-79 | the `map` with its running angle computes the chained slices from −π/2 |
| CategoryBudgetChart.SlicesChained | src/components/CategoryBudgetChart.tsx:50-79 | the first slice starts at the start angle, slice i shows item i, and each slice starts where the previous ended |
| CategoryBudgetChart.SlicesEnd | src/components/CategoryBudgetChart.tsx:52-54 | the last slice ends at the start plus 2π times the percentages' sum over 100 |
| CategoryBudgetChart.FullCircle | src/components/CategoryBudgetChart.tsx:50-79 | percentages summing to 100 close the circle at −π/2 + 2π |
| CategoryBudgetChart.LargeArcIff | src/components/CategoryBudgetChart.tsx:61 | the large-arc flag is set iff the percentage exceeds 50 |
| CategoryBudgetChart.EmptyHasNoSlices | src/components/CategoryBudgetChart.tsx:32-43 | no spending rows show the placeholder and no slices |
| CategoryBudgetChart.Legend | src/components/CategoryBudgetChart.tsx:177-229 | percentage 0 and no bar without a budget; remaining ≥ 0 and either 0 or budget − spending; width at most 100 |
| CategoryBudgetChart.LegendColours | src/components/CategoryBudgetChart.tsx:215-227 | the bar is red iff spending exceeds a positive budget; "remaining" shows iff spending is below a positive budget |
| CategoryBudgetChart.LegendWidthInRange | src/components/CategoryBudgetChart.tsx:222 | with non-negative spending the bar width lies in [0, 100] |
| MonthlyOverviewChart.IntervalControl.constructor | src/components/MonthlyOverviewChart.tsx:25 | the chart's own interval starts at seven days |
| MonthlyOverviewChart.IntervalControl.HandleIntervalChange | src/components/MonthlyOverviewChart.tsx:35-43 | the own interval follows a click only without a parent's interval; the parent hears every click; the selection is the parent's interval or the click |
| MonthlyOverviewChart.Divisor | src/components/MonthlyOverviewChart.tsx:67 | never zero, and the range itself when the range is not zero |
| MonthlyOverviewChart.NormalizedInUnit | src/components/MonthlyOverviewChart.tsx:57-67 | amounts normalise into [0, 1], the smallest to 0 and, when they differ, the largest to 1 |
| MonthlyOverviewChart.BarInsideChart | src/components/MonthlyOverviewChart.tsx:68-171 | bars are between 0 and the plotting height, and a point sits on top of its bar |
| MonthlyOverviewChart.YLabels | src/components/MonthlyOverviewChart.tsx:129-131 | five values max − range·i/4 |
| MonthlyOverviewChart.YLabelsDescend | src/components/MonthlyOverviewChart.tsx:129-131 | the first is the maximum, the last the minimum when amounts differ, and they never ascend unless all amounts are one negative value |
| MonthlyOverviewChart.SinglePointIsNaN | src/components/MonthlyOverviewChart.tsx:66 | the x position as written is NaN for a chart of one point |
| MonthlyOverviewChart.XAsWrittenFinite | src/components/MonthlyOverviewChart.tsx:66 | with two or more points the position as written is finite and is the guarded one |
| MonthlyOverviewChart.XInside | src/components/MonthlyOverviewChart.tsx:66 | with the divisor guarded, every point lies between the side paddings, first at the left and last at the right |
| MonthlyOverviewChart.Layout | src/components/MonthlyOverviewChart.tsx:45-70 | no points for empty data; otherwise one point per amount with its value, its y and bar height from the amounts' minimum and maximum, and the corrected x position PointX of "## Findings", so a single amount sits at the left padding where the source's x is NaN |
| MonthlyOverviewChart.LayoutInsideChart | src/components/MonthlyOverviewChart.tsx:65-171 | every point and bar lies inside the plotting area |
| MonthlyOverviewChart.Step | src/components/MonthlyOverviewChart.tsx:246 | at least 1, and large enough that eight steps cover the data, ⌈n/8⌉ beyond eight items |
| MonthlyOverviewChart.XLabels | src/components/MonthlyOverviewChart.tsx:244-254 | one label per item, the month iff its index is a multiple of the step |
| MonthlyOverviewChart.CountIsCeiling | src/components/MonthlyOverviewChart.tsx:252 | the labelled indices below n number ⌈n/step⌉ |
| MonthlyOverviewChart.AtMostEightLabels | src/components/MonthlyOverviewChart.tsx:244-254 | the first item is always labelled and at most eight are |
| ServiceModal.NonBlankIsTrimTest | src/components/ServiceModal.tsx:53 | an entry counts iff its trim is not empty |
| ServiceModal.SavedProperties | src/components/ServiceModal.tsx:53 | the saved inclusions keep their order, none trims to empty, and every other one is saved |
| ServiceModal.AllBlankSavesNothing | src/components/ServiceModal.tsx:53-59 | a list of blank entries saves nothing |
| ServiceModal.RemoveAt | src/components/ServiceModal.tsx:95-98 | exactly the entry at the index goes, the others keep their order |
| ServiceModal.Form.constructor | src/components/ServiceModal.tsx:14-23 | an empty form with one empty inclusion |
| ServiceModal.Form.Open | src/components/ServiceModal.tsx:25-46 | editing shows the service, one empty inclusion when it has none; a new service starts empty |
| ServiceModal.Form.AddInclusion | src/components/ServiceModal.tsx:91-93 | one empty entry appended, the others unchanged |
| ServiceModal.Form.RemoveInclusion | src/components/ServiceModal.tsx:95-98 | the entry goes, and an emptied list becomes one empty entry, so the list is never empty |
| ServiceModal.Form.UpdateInclusion | src/components/ServiceModal.tsx:100-104 | only the entry at the index changes, and the length stays |
| ServiceModal.Form.HandleSubmit | src/components/ServiceModal.tsx:48-89 | with no non-blank inclusion nothing is written and the error is shown; otherwise the update or insert carries only the non-blank inclusions and the modal closes iff it succeeded |
| HomePage.FilteredImagesSpec | src/pages/HomePage.tsx:89-92 | "all" shows every image; another filter shows exactly the images of that category, in order |
| HomePage.Home.constructor | src/pages/HomePage.tsx:27-44 | the first hero and testimonial, filter "all", empty lists, loading, an empty form and idle |
| HomePage.Home.LoadData | src/pages/HomePage.tsx:50-66 | each list is replaced only when its reply carried data; loading ends |
| HomePage.Home.HeroTick | src/pages/HomePage.tsx:68-73 | the hero index advances modulo 3 and stays in [0, 3) |
| HomePage.Home.SelectHero | src/pages/HomePage.tsx:258 | a dot selects its hero |
| HomePage.Home.TestimonialTick | src/pages/HomePage.tsx:75-82 | the testimonial index advances modulo the count, only when there are testimonials |
| HomePage.Home.SelectTestimonial | src/pages/HomePage.tsx:472 | a dot selects its testimonial |
| HomePage.Home.SetFilter | src/pages/HomePage.tsx:276-306 | a button sets the filter and the shown images follow |
| HomePage.Home.HandleSubmit | src/pages/HomePage.tsx:94-119 | the form is inserted as it is; success empties it, failure keeps it |
| HomePage.Home.StatusTimeout | src/pages/HomePage.tsx:113-117 | after either outcome the status returns to idle |
| Currency.Symbol | src/lib/currency.ts:48-50 | a listed code gives its symbol, any other code itself, and a non-empty code a non-empty symbol |
| Currency.DollarShared | src/lib/currency.ts:3-35 | USD, MXN, CLP, ARS and COP all give "$", so the lookup is not injective |
| Currency.SortedCodes | src/lib/currency.ts:46 | the ascending list of a set of codes has exactly those codes, each once |
| Currency.SortIsUnique | src/lib/currency.ts:46 | any ascending arrangement of the table's keys is that list |
| Currency.CurrenciesListEveryCode | src/lib/currency.ts:2-46 | the currency list is strictly ascending, free of duplicates, and holds exactly the table's codes |
| Currency.Grouped | src/lib/currency.ts:52-55 | the whole part starts with a digit and holds only digits and commas |
| Currency.GroupedDigits | src/lib/currency.ts:52-55 | without its commas the whole part is the decimal numeral of the amount |
| Currency.FormatCurrencyParts | src/lib/currency.ts:52-55 | the text of FormatCurrency is the symbol, the sign, the grouped whole part, a point and two digits of hundredths |
| Currency.FormatCompactParts | src/lib/currency.ts:57-60 | the text of FormatCurrencyCompact is the symbol, the sign and the grouped whole units |
| Currency.DefaultIsDollars | src/lib/currency.ts:52-60 | no currency formats as USD, with a leading "$" |

## Left out

- Database reads and writes, authentication and analytics events: each reply is a parameter, and each write is returned as a value.
- The clock: `new Date()` and `Date.now()` are parameters. An alert's id is built from the clock parameter's milliseconds, as `Date.now()` builds it.
- Alerts.NearMonthEnd: it models only `currentDay >= daysInMonth - 2`. The second disjunct compares two reads of the clock, which agree within one run, so it is taken as false.
- The calendar: day and month numbers stand for dates. The `setMonth` overflow, UTC conversion by `toISOString` and the day found by shifting back an interval (passed in as `shiftedDay`) are not modelled.
- BudgetsPage.Spent: the date bounds `month-01` to `month-31` are compared as text, as the query's `gte`/`lte` on ISO dates do. How the database treats a bound that is not a real date, such as `2024-02-31`, is not modelled.
- Locale formatting (`toLocaleString`, `toLocaleDateString`, `toFixed`): messages are values that carry their numbers, not text.
- Floating point: amounts are exact reals. `parseFloat` is a parsed-or-not field. IEEE rounding is not modelled, and neither is negative zero in a formatted amount.
- Currency.FormatCurrency: takes the amount already rounded to hundredths, and FormatCurrencyCompact takes whole units. The rounding that `toLocaleString` does is left out.
- Currency.Symbol: keys inherited from JavaScript's `Object.prototype` (such as "constructor") are not modelled.
- Currency.SortedCodes: the currency list is a ghost constant, defined by its properties rather than computed. JavaScript's `sort` compares UTF-16 code units, which for these ASCII codes is the character order used here.
- Trigonometry and SVG path strings in the charts: angles are in units of π, and the model stops at the slice angles.
- Timers: each carousel step, the status reset and deferred deletes are methods called one at a time. The deferred delete's closure over stale state is not modelled.
- DashboardPage.BillsCategory: does not state that one category of that name is found. With two or more, `maybeSingle` errs and there is none.
- BudgetsPage.FooterSign: it requires a non-negative amount. A negative amount is refused by the form check.
- HomePage.Home.LoadData: the testimonial index is proved valid only when it is still 0, as it is on mount, the only time the data loads.
- ServiceModal.Form.UpdateInclusion: it requires the index to be in range. The inputs it serves exist only for entries of the list.
- Alerts.NewestFirst: the model reads the clock once per run, so every alert of a run has the same timestamp and the sort is proved to change nothing. The source reads the clock again for each alert (`new Date()` and `Date.now()` at src/lib/alerts.ts:73-122). If the millisecond changes during the loop, the sort puts the later-stamped alerts first, so setting order is not kept. The model does not capture that reordering.
- Alerts.EngineKeepsSettingOrder: holds under the same one-reading-per-run assumption. It does not hold for the source when the clock advances between two alerts of a run.
- Strings.ToLower: only the Basic Latin letters `A`-`Z` fold. JavaScript's `toLowerCase` folds all of Unicode ("É" to "é"), and may change the length ("İ" becomes two code units). The model captures neither.
- TransactionsPage.SearchIgnoresCase: holds for the Basic Latin folding of Strings.ToLower only. A search for "É" does not find "éclair" in the model, though it does in the source.
- TransactionModal.SuggestionsExact: exact for the Basic Latin folding of Strings.ToLower only, for the same reason.
- Thin forms (admin dashboard, portfolio image and testimonial dialogs, categories page), presentation components, routing, browser storage and the currency profile context are not part of this model.

## Findings

| source | as written | input that shows it | evidently intended | confidence | as-written member | corrected member |
|---|---|---|---|---|---|---|
| src/components/MonthlyOverviewChart.tsx:66 | the x position divides by `data.length - 1` without a guard | a chart with one data point: `0 / 0` places the point and its bar at NaN | a divisor guarded as in the analysis chart, which uses 1 when the length minus one is 0, so a single point sits at the left padding | not executed | MonthlyOverviewChart.XAsWritten | MonthlyOverviewChart.PointX |
