# Budget tracker ledger, in Dafny

A model of the budget ledger of a MERN budget-tracker application and of the
client-side rules that repeat it. The user keeps categories, sets a budget per
(user, category, month) with a limit and ordered sub-items, and records
expenses. The server answers with:

- month sums and an "over budget" flag when an expense is added;
- a monthly report per category;
- spending insights: this month's and last month's totals, anomalies, and
  budget suggestions rounded up to 100.

The dashboard, the insights page and the login form each repeat some of these
rules on the client side.

Modules, one per concern:

- `Wrappers`: `Option`, `Result`.
- `Text`: JavaScript white space, `trim`, and `toLowerCase` restricted to the ASCII letters.
- `Calendar`: dates as (year, month, day), month numbers and month windows, and the
  `YYYY-MM-DD` / `YYYY-MM` / ISO text forms with their round trips.
- `Models`: the Budget, sub-item and Expense schemas, with required fields,
  defaults and the `date` setter.
- `Ledger`: a `$match` filter over the expense collection and `$sum`.
- `Budgets`: `setBudget` (upsert) and `getBudgets`.
- `Expenses`: `addExpense` and `getExpensesByMonth`.
- `Store`: the three collections as a class. `SetBudget` and `AddExpense` change
  it in place and keep its invariant: one budget per key, schema-valid budgets,
  real dates, and no sub-item label on any expense.
- `Reports`: `getMonthlyReport`.
- `Insights`: `getSpendingInsights`. The `forEach` that fills the response is a
  method with a loop.
- `Dashboard`, `InsightsPage`, `Login`: the client rules. `Login` holds the form
  state as a class.

Some things the proofs make explicit:

- **The label is dropped.** `addExpense` never stores the sub-item label it is
  sent. Every stored expense is therefore unlabelled, and the dashboard's
  "done today" test never holds for anything the application itself recorded:
  a daily checkbox posts again on every click (`Dashboard.CheckboxNeverTicks`).
- **A malformed month matches no expense.** A report month that is not a
  well-formed `YYYY-MM` key can still match budgets saved under that exact text,
  but never an expense.
- **Early years move to the 1900s.** In the month listing, a year from 0 to 99
  is read as 1900 to 1999.

## Model

| member | source | states |
|---|---|---|
| Models.MakeSubItem | backend/models/Budget.js:4-10 | a sub-item is accepted iff its name is present and not empty; `allocated` and `spent` default to 0 and `type` to "daily", given values are kept |
| Models.MakeItems | backend/models/Budget.js:18 | an items array is accepted iff every element is; the result keeps length and order, element i being the cast of input i |
| Models.SetDate | backend/models/Expense.js:16-21 | a text date is accepted iff it is a real `YYYY-MM-DD` date, and the stored date formats back to that text; a date value passes unchanged |
| Models.MakeExpense | backend/models/Expense.js:3-34 | the record is built iff its date casts, and holds exactly the given category, amount (no sign constraint), date, label and owner |
| Text.TrimStart | frontend/src/pages/Dashboard.jsx:203 | the result is the suffix of the input left after its leading white space; it is empty or starts with a non-space |
| Text.TrimEnd | frontend/src/pages/Dashboard.jsx:203 | the result is the prefix left after the trailing white space; it is empty or ends with a non-space |
| Text.Lower | frontend/src/pages/Dashboard.jsx:203 | same length, each character lower-cased (ASCII) |
| Text.NormalizeIgnoresCase | frontend/src/pages/Dashboard.jsx:203 | trimming and lower-casing a lower-cased name gives the same key as for the name itself |
| Text.NormalizeIdempotent | frontend/src/pages/Dashboard.jsx:203 | the trim-and-lower-case key of a key is itself |
| Text.NormalizeIgnoresLeadingSpace | frontend/src/pages/Dashboard.jsx:203 | leading white space does not change the key |
| Calendar.MonthStart | backend/controllers/insightsController.js:10-13 | the first day of month number k, rolling over year boundaries in both directions |
| Calendar.MonthStartOrder | backend/controllers/insightsController.js:19 | a date is on or after the first day of month k iff its month number is at least k |
| Calendar.DecemberRollsOver | backend/controllers/expenseController.js:62 | the month after December of y starts on 1 January of y + 1 |
| Calendar.MonthKey | backend/controllers/expenseController.js:8 | the key is the first seven characters of the date text, or the whole of a shorter text |
| Calendar.ParseFormatDate | backend/models/Expense.js:16-21 | the `YYYY-MM-DD` text of a real date parses back to that date |
| Calendar.FormatParseDate | backend/models/Expense.js:16-21 | a text that parses is the `YYYY-MM-DD` text of its date |
| Calendar.ParseFormatMonth | backend/controllers/reportController.js:36 | a `YYYY-MM` key parses back to its year and month |
| Calendar.FormatParseMonth | backend/controllers/reportController.js:36 | a key that parses is the `YYYY-MM` text of its year and month |
| Calendar.MonthKeyOfDate | backend/controllers/expenseController.js:8 | the first seven characters of an accepted date text are its `YYYY-MM`, and that key plus "-01" is the first day of its month |
| Calendar.IsoPrefixMatchesKey | backend/controllers/reportController.js:35-36 | the ISO string's first seven characters are the date's `YYYY-MM`; they equal a month text iff that text parses to the date's year and month |
| Ledger.Find | backend/controllers/expenseController.js:25-31 | an expense is in the result iff it is stored and passes the filter; the result is never longer |
| Ledger.SpentAppendOne | backend/controllers/expenseController.js:17 | saving one expense adds its amount to exactly the sums whose filter it passes |
| Ledger.MatchesMonth | backend/controllers/expenseController.js:30 | the window [first of month k, first of month k+1) holds exactly the dates of month k |
| Ledger.SpentSplit | backend/controllers/insightsController.js:49-51 | a sum over months [a, c) is the sum over [a, b) plus the sum over [b, c) |
| Ledger.ThreeMonthTotal | backend/controllers/insightsController.js:49-51 | the total of the three months before month k is the sum of the three month totals |
| Budgets.FindBudget | backend/controllers/budgetController.js:9-13 | the first budget with exactly the (user, category, month) key; None iff no budget has it |
| Budgets.Upsert | backend/controllers/budgetController.js:4-38 | fails iff supplied items are invalid or a creation has an empty month; the saved budget has the key, the new limit, and the supplied items, else the found budget's items, else [] |
| Budgets.UpsertPlacement | backend/controllers/budgetController.js:15-33 | an update rewrites the found budget in place and no other; a creation appends one budget |
| Budgets.UpsertKeepsKeysUnique | backend/controllers/budgetController.js:25-36 | if no two budgets share a key before the call, none do after it |
| Budgets.UpsertKeepsSaved | backend/models/Budget.js:4-21 | if every budget satisfies the schema before the call, all do after it, the saved one included |
| Budgets.UpsertTwice | backend/controllers/budgetController.js:15-24 | a second call for the same key does not grow the collection; its limit wins, and the first call's items stay when it sends none |
| Budgets.MonthBudgets | backend/controllers/budgetController.js:48-51 | a budget is listed iff it is stored, owned by the user and its month text equals the query |
| Budgets.ListedOnceAfterUpsert | backend/controllers/budgetController.js:36-37 | after an upsert the month listing holds the saved budget and no other budget of that category |
| Expenses.LimitFor | backend/controllers/expenseController.js:36 | 0 when no budget has the key; with one budget per key, that budget's limit |
| Expenses.FindCategory | backend/controllers/expenseController.js:22 | a stored category with that id, None iff there is none |
| Expenses.CategoryName | backend/controllers/expenseController.js:47 | the category's name, or "Selected Category" when no category has the id |
| Expenses.Ingest | backend/controllers/expenseController.js:6-54 | succeeds iff a date text is sent and parses; no response at all when the date is missing, `null` or a value without a `slice` method (the `slice` at line 8 throws before the `try`); a 500 when it does not parse; on success the ledger grows by exactly the new expense (no label); limit, `over` iff limit > 0 and spent > limit, category name, and spent as the month sum after the save |
| Expenses.IngestText | backend/controllers/expenseController.js:10-54 | the handler's `try` body on a date text: a 500 iff the date does not parse, otherwise the saved expense, limit, `over` and month spend as for `Ingest` |
| Expenses.MonthSpent | backend/controllers/expenseController.js:25-35 | the aggregate's total is the ledger sum of the user's category over the calendar month of the date |
| Expenses.IngestMonthKey | backend/controllers/expenseController.js:8 | the month key is the first seven characters of the date and the date's own `YYYY-MM` |
| Expenses.IngestSpent | backend/controllers/expenseController.js:25-35 | the reported spend is the month's spend before the save plus the new amount |
| Expenses.NoBudgetNeverOver | backend/controllers/expenseController.js:40 | without a budget for the key the limit is 0 and `over` is false |
| Expenses.MonthWindowMembers | backend/controllers/expenseController.js:26-31 | the sum ranges over exactly the user's expenses of the category dated in the month |
| Expenses.WorkedExample | backend/controllers/expenseController.js:6-54 | 500 with no budget is not over; after a limit of 400, another 200 gives spent 700, over |
| Expenses.ParseIntNaN | backend/controllers/expenseController.js:59-60 | `parseInt` is NaN iff no digit follows the leading white space and the optional sign; otherwise the number has that sign |
| Expenses.ParseIntPad | backend/controllers/expenseController.js:59-60 | `parseInt` reads a zero-padded number back |
| Expenses.MonthParts | backend/controllers/expenseController.js:59-60 | the query fails to read iff either `parseInt` (characters 0-4, 5-7) gives NaN |
| Expenses.ExpensesByMonth | backend/controllers/expenseController.js:56-74 | fails (500) iff the month is missing or does not read as two numbers; a listing holds only the user's stored expenses |
| Expenses.ParseKeyParts | backend/controllers/expenseController.js:59-60 | the two `parseInt` calls read back the year and month of a `YYYY-MM` key |
| Expenses.KeyParts | backend/controllers/expenseController.js:59-60 | for any well-formed key, what the two `parseInt` calls read is the key's year and month |
| Expenses.WindowMembers | backend/controllers/expenseController.js:61-66 | the `Date.UTC` window holds exactly the user's expenses of month m of year `UtcYear(y)`, and ends on the first of the next month (1 January after December) |
| Expenses.ExpensesByMonthOfKey | backend/controllers/expenseController.js:56-74 | for a `YYYY-MM` key, the listing is the user's expenses of that month of year `UtcYear(y)`, in collection order, the window ending on the first of the next month |
| Expenses.EarlyYearKey | backend/controllers/expenseController.js:59-61 | a key with a year from 00 to 99 lists that month of the year 1900 + y |
| Store.BudgetStore.SetBudget | backend/controllers/budgetController.js:4-38 | budgets become the upsert's result, or stay on failure; expenses and categories are unchanged; the invariant is kept |
| Store.BudgetStore.AddExpense | backend/controllers/expenseController.js:6-54 | expenses become the ingestion's ledger, or stay on failure; budgets and categories are unchanged; the invariant is kept |
| Reports.MonthExpenses | backend/controllers/reportController.js:33-37 | an expense counts iff it is the user's and the first seven characters of its ISO date equal the month text |
| Reports.UserCategories | backend/controllers/reportController.js:27 | exactly the user's categories, never more than stored |
| Reports.BudgetFor | backend/controllers/reportController.js:42-43 | 0 when no month budget has the category, else the limit of the first month budget (in listing order) that has it |
| Reports.Rows | backend/controllers/reportController.js:41-57 | a row is listed iff its category is given and has a present row (budget or spent not 0) |
| Reports.Listed | backend/controllers/reportController.js:41-57 | the categories that get a row, in the given order; distinct ids stay distinct |
| Reports.RowsInOrder | backend/controllers/reportController.js:41-57 | the rows are the in-order map of the listed categories: the i-th row belongs to the i-th category that gets a row |
| Reports.RowsUnique | backend/controllers/reportController.js:41-57 | with distinct category ids, no two rows share a category |
| Reports.ReportListsCategoryOnce | backend/controllers/reportController.js:11-57 | with distinct stored category ids, a successful report lists each category at most once |
| Reports.MonthlyReport | backend/controllers/reportController.js:11-13 | a 400 with "Month parameter is required" iff the month is missing or empty |
| Reports.InMonthIndex | backend/controllers/reportController.js:33-37 | for a well-formed key, the prefix test is "dated in that calendar month" |
| Reports.CategorySpentIsMonthSpent | backend/controllers/reportController.js:45-47 | a row's spent is the ledger sum of the user's category for that month |
| Reports.BudgetForIsLimit | backend/controllers/reportController.js:42-43 | with one budget per key, a row's budget is the limit `addExpense` reads |
| Reports.ReportAgreesWithLedger | backend/controllers/reportController.js:41-57 | for a well-formed month: rows only for the user's categories, with budget, spent and remaining = budget - spent; a category is listed iff budget or spent is not 0 |
| Reports.MalformedMonthSpendsNothing | backend/controllers/reportController.js:33-37 | a month text that is not `YYYY-MM` matches no expense, so every row has spent 0 and a budget |
| Insights.Matching | backend/controllers/insightsController.js:21 | the categories, of any owner, whose join field equals the expense's category |
| Insights.Join | backend/controllers/insightsController.js:21-22 | a joined document exists iff its expense is kept and its category matches it; unmatched expenses vanish |
| Insights.MonthlyTotals | backend/controllers/insightsController.js:70 | the fallback zeros equal the sums over no documents, so the totals are always the two window sums |
| Insights.Groups | backend/controllers/insightsController.js:43-44 | exactly the categories of the joined documents, each once |
| Insights.AnomaliesOf | backend/controllers/insightsController.js:78-87 | the anomalies are exactly those of the analysed categories that are flagged |
| Insights.RecommendationsOf | backend/controllers/insightsController.js:91-98 | the recommendations are exactly those of the categories with a positive average |
| Insights.Analyse | backend/controllers/insightsController.js:75-98 | one category pushes exactly its anomaly and its recommendation, if the rules give them, after the existing ones |
| Insights.BuildReport | backend/controllers/insightsController.js:73-99 | the loop pushes exactly the anomalies and recommendations, in analysis order, next to the totals |
| Insights.GetSpendingInsights | backend/controllers/insightsController.js:4-101 | the response is the pipeline's result with categories joined on `_id` |
| Insights.IncreaseForm | backend/controllers/insightsController.js:79 | the increase over the average P/3 is 100(3c - P)/P |
| Insights.AnomalyCondition | backend/controllers/insightsController.js:78-80 | flagged iff this month > 0, the 3-month total P > 0 and 6c > 5P |
| Insights.AnomalyPercentage | backend/controllers/insightsController.js:84 | the reported increase is (200(3c - P) + P) div 2P, at least 150 |
| Insights.SuggestedBudget | backend/controllers/insightsController.js:91-97 | a suggestion exists iff P > 0; it is the least multiple of 100 that is at least the average P/3 |
| Insights.AnomalyHasRecommendation | backend/controllers/insightsController.js:78 | every flagged category also gets a suggestion |
| Insights.AsWrittenJoinFindsNothing | backend/controllers/insightsController.js:21 | joined on a plain `id`, the insights are 0, 0 and two empty lists for every collection |
| Insights.JoinKeepsExpenses | backend/controllers/insightsController.js:21-22 | joined on `_id` with every category present once, each expense is kept once, in order |
| Insights.CorrectedTotals | backend/controllers/insightsController.js:31-36 | when every expense's category exists exactly once, joined on `_id`, the totals are the user's sums from this month on and over last month |
| Insights.CorrectedCategoryStats | backend/controllers/insightsController.js:45-51 | joined on `_id`, for a stored category whose `_id` no other category holds, its figures are its sums from this month on and over the three months before, the latter the sum of three month sums; expenses of deleted categories may be in the ledger |
| Insights.GroupIsCategory | backend/controllers/insightsController.js:21-44 | for a stored category whose `_id` no other category holds, its `$group` holds exactly the expenses that reference it, in order, even when other expenses reference deleted categories |
| Insights.JoinDiscrepancy | backend/controllers/insightsController.js:21 | one expense of 500 this month: 500 joined on `_id`, 0 as written |
| InsightsPage.Label | frontend/src/pages/Insights.jsx:63-64 | "more" iff the trend is not negative; the number shown is the trend's absolute value |
| InsightsPage.TrendForm | frontend/src/pages/Insights.jsx:48-50 | with last month > 0, the trend is (200(c - l) + l) div 2l, the percentage rounded half up |
| InsightsPage.UpCondition | frontend/src/pages/Insights.jsx:48-51 | up whenever last month is not positive; otherwise up iff 200c >= 199l |
| InsightsPage.AsWrittenPageHasNoData | frontend/src/pages/Insights.jsx:35 | with the server's join as written, the page always shows "Not Enough Data" |
| Dashboard.FindBudgetView | frontend/src/pages/Dashboard.jsx:147 | the first listed budget of the category, None iff none is of it |
| Dashboard.IsDoneToday | frontend/src/pages/Dashboard.jsx:199-205 | iff some listed expense of the category has a non-empty label equal to the item's name after trim and lower-case, dated today |
| Dashboard.OneClickAdd | frontend/src/pages/Dashboard.jsx:63-79 | nothing is posted iff the amount is not positive; otherwise the category, amount, today's date and the label |
| Dashboard.CheckboxClick | frontend/src/pages/Dashboard.jsx:237 | a click posts iff the item is not done today and the amount is positive |
| Dashboard.PercentShowsOver | frontend/src/pages/Dashboard.jsx:152-153 | the bar passes 100 percent iff the card shows "Over" (the server's rule); 0 without a positive limit |
| Dashboard.DefaultKindIsDaily | frontend/src/pages/Dashboard.jsx:196 | a sub-item saved without a type is daily |
| Dashboard.GetSpentOfView | frontend/src/pages/Dashboard.jsx:56-60 | over populated expenses, the sum for an existing category is the sum by category id |
| Dashboard.CardSpentIsLedgerSpent | frontend/src/pages/Dashboard.jsx:151 | on the month listing, a card's spend is the month sum `addExpense` reports |
| Dashboard.FindBudgetViewOfView | frontend/src/pages/Dashboard.jsx:147 | over populated budgets, the lookup finds a budget iff one has the category, and then the view of the first stored budget of it |
| Dashboard.CardBudgetIsKeyed | frontend/src/pages/Dashboard.jsx:147-149 | with one budget per key, the card shows the stored budget's limit and items, else 0 and none |
| Dashboard.UnlabelledNeverDone | frontend/src/pages/Dashboard.jsx:199-205 | expenses without a label never mark an item done |
| Dashboard.CheckboxNeverTicks | frontend/src/pages/Dashboard.jsx:237 | after a click is stored and the month is listed again, the item is still not done and the same click posts again |
| Login.ValidationErrors | frontend/src/pages/Login.jsx:16-30 | an email error iff empty ("required") or not matching ("invalid"); a password error iff shorter than 6 ("required" when empty); no errors iff both pass |
| Login.ClearError | frontend/src/pages/Login.jsx:35-37 | the edited field's error is no longer truthy; every other entry is unchanged |
| Login.PatternUnanchored | frontend/src/pages/Login.jsx:20 | text around a matching address still matches |
| Login.PatternExamples | frontend/src/pages/Login.jsx:20 | "a@b.c" matches; "ab.c", "@b.c", "a@.c" and "a@b." do not |
| Login.LoginForm.HandleChange | frontend/src/pages/Login.jsx:32-38 | the field takes the value; errors become the cleared map; the other field and the mode stay |
| Login.LoginForm.HandleSubmit | frontend/src/pages/Login.jsx:40-44 | errors become the validation result; credentials are sent iff there are none |
| Login.LoginForm.ToggleMode | frontend/src/pages/Login.jsx:114 | the mode flips and all errors are cleared |

## Left out

- HTTP, routing, authentication and the database connection are left out. The user is an opaque id argument and the collections are values.
- Category CRUD is left out. Categories are given records.
- Concurrency is left out:
  - the parallel fetches (`Promise.all`);
  - the unguarded read-modify-write in `setBudget`.

  Each request is one sequential step.
- Clocks are parameters: the current month number `k` for insights, and "today" on the dashboard.
  - A clock year from 0 to 99, which `Date.UTC` would move to the 1900s, is not modelled.
  - The insights `month` query is ignored by the server, and so by the model.
- Time zones are left out. The server is taken to run in UTC.
  - The `addExpense` window ends with a local `setMonth` on a UTC midnight (backend/controllers/expenseController.js:30). In a zone west of UTC it ends before the first of the next month; the model uses the calendar month.
  - The dashboard formats expense dates in local time (frontend/src/pages/Dashboard.jsx:204); the model compares calendar dates.
- Calendar.ParseDate: only real `YYYY-MM-DD` dates with four-digit years parse.
  - Other text the JavaScript date parser accepts is rejected here: full timestamps, other formats, day overflow.
  - Dates carry no time of day.
- Amounts are integers. JavaScript floating point and `Number(...)` of non-numeric text (NaN) are not modelled.
  - Averages and percentages are exact rationals, and `Math.round` / `Math.ceil` are floor-based integer rounding.
- Expenses.ParseInt: decimal only. The `0x` prefix that `parseInt` also reads is not modelled.
- Insights.Groups: MongoDB leaves the order of `$group` output unspecified. The model takes first appearance, so the order of anomalies and recommendations is a choice.
- Text.Lower: ASCII letters only. JavaScript's `toLowerCase` also lower-cases other letters, so "É" and "é" give the same key on the dashboard but not in the model.
- Insights.CorrectedTotals: assumes every expense's category exists exactly once. An expense whose category was deleted is dropped by `$unwind` even under the corrected join, so its amount is missing from the totals; the lemma does not cover that case.
- Insights.GetSpendingInsights: joins categories on `_id` (the corrected join, see Findings). The join as written is `Insights.SpendingInsights` with `PlainIdField`.
- The `$lookup` / `$unwind` mechanics are reduced to a join relation.
  - Category documents hold `_id` and never a plain `id`.
  - Expenses always reference a category by id, because the schema requires it.
- Requests without a `category`, `limit` or `amount` are not modelled. The schema would reject them, and the request types here always carry these fields.
  - A missing `date` is modelled: `Expenses.Ingest` takes it as an option, and `None` (absent, `null`, or a value without a `slice` method such as a number, boolean or plain object) gives no response.
  - An array `date` is not modelled: arrays have a `slice` method, so such a request reaches the `try` and the save's date cast decides the response. The request type has no array date.
- Dashboard: loading, rendering, toasts and `fetchData` are left out.
  - The daily amount `Math.round(allocated / daysInMonth)` is a parameter of `Dashboard.CheckboxClick`.
  - The progress-bar width is left out.
- Login: the network calls after a valid submit (login, register, navigation) are left out. `HandleSubmit` returns the credentials it would send.
  - Length counts characters, not UTF-16 code units.
- Sub-item spend reconciliation does not exist in the code, so nothing about it is modelled. Sub-item `spent` changes only through a wholesale `items` replacement in `setBudget`.

## Findings

| source | as written | input that shows it | evidently intended | confidence | as-written member | corrected member |
|---|---|---|---|---|---|---|
| backend/controllers/insightsController.js:21 | the `$lookup` matches `foreignField: 'id'`, a field category documents never store, and `$unwind` then drops every expense | one expense of 500 dated 2025-11-15 in existing category 7, current month 2025-11: the current total is 0 instead of 500, and every response is 0, 0, [], [] | join on the category's `_id` | not executed | Insights.AsWrittenJoinFindsNothing | Insights.CorrectedTotals |
