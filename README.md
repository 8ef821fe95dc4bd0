# A verified model of the core of a Mongolian sales CRM

The system is a CRM for a sales team. It runs on Next.js with a hosted Postgres database (Supabase). Its users track:

- sales opportunities through a funnel of six stages (Cold, Warm, Hot, Won, Closed, Lost);
- service contracts (Warm, Hot, Closed);
- stock, expenses and salaries;
- targets per team.

The model covers the logic of the system and leaves out its screens and its database plumbing. Each source file of the core has its own module:

- **Record actions per table** (`SalesFunnel`, `ServiceContracts`, `Stock`, `Expenses`, `Salary`):
  - each table is a class whose `rows` field the actions update;
  - the signed-in user is an `Option<string>`;
  - a database error is a `failure` parameter that the action reports as `Err(StoreError(..))`, leaving the table unchanged.
  - `Store` holds what these actions share: the query helpers (select by id, update where, delete where, insert, the offset/limit page).
  - Derived columns are computed when a row is written. These are the price net of the 10% VAT, the progress to Won of a stage, the quantity adjustment that refuses to go below zero, and the restock date.
  - Summaries are folds over the rows: totals and per-key lines (category, status, stage, team), proved to add up to the totals.
- **Dashboard and settings** (`Dashboard`, `Settings`, `Ranking`):
  - the metrics pass over the opportunities;
  - team targets against closed and won sales, with the rounded percentage;
  - the six-stage funnel conversions and the monthly trends;
  - the top clients, an insertion sort highest first followed by `slice`;
  - the contract metrics;
  - the settings dictionaries.
  - JavaScript objects used as dictionaries are insertion-ordered association lists (`Groups`).
- **The Kanban board** (`Kanban`): a class with the board's six columns, built from the per-stage lists.
  - Dropping a card finds the dragged card and resolves the target stage. It moves the card at once, then asks the server for the stage change. When the server fails, the board is reset to the page's data.
  - The same file has the urgency classifier of a card's date.
- **The reminder route** (`NotificationCheck`): the scan over all users.
  - It files a reminder for each contract due within the next seven days and each hot or warm opportunity due in that window.
  - It skips a (user, related table, related row) key that already has a notification from the last 24 hours, and counts the inserts it issues.
  - Times are integers (milliseconds and day numbers).
  - Query failures and rejected inserts are sets in the environment the scan is given.
- **The notification bell** (`NotificationBell`): a class holding the list and the unread counter, with its fetch, mark-one and mark-all handlers, and the badge.
- **Form schemas** (`SalesFunnelSchema`, `ServiceContractSchema`, `StockSchema`, `ExpenseSchema`, `SalarySchema`): each is a predicate with the list of issues it reports, plus the select lists offered next to it.
- **Display helpers** (`Utils`): the Mongolian long and short dates, the relative-time buckets and the currency scale.
- **Seed scripts** (`SeedScript`, `ExcelParse`, `SqlText`):
  - the currency, percentage and date parsers;
  - the stage and status normalisation;
  - the row filter;
  - SQL string escaping, proved to read back as the original text.

Shared modules: `Common` (Option, Result, errors, JavaScript truthiness), `Seqs` (filters and sums as prefix folds), `Groups`, `JsText` (number text, padding, `trim`, the digit prefix `parseFloat` reads) and `Calendar` (days as year, month and day).

Numbers:

- Money is `int`: whole amounts only (see "## Left out").
- The net price, the progress and the percentages are exact `real`s.
- `Math.round` is `floor(x + 0.5)`.

## Model

| member | source | states |
|---|---|---|
| Common.OrZero | src/lib/actions/dashboard.ts:64 | the number when it is non-null and non-zero, else 0 |
| Common.Round | src/lib/actions/dashboard.ts:159 | `Math.round`: the integer within half of the value, halves rounded up |
| Common.PriceWithoutVat | src/lib/actions/sales-funnel.ts:75 | a net price exactly for a non-null non-zero price, and adding the 10% VAT back gives the price |
| Calendar.IsoDateRoundTrip | src/app/api/notifications/check/route.ts:40-41 | a day written as `YYYY-MM-DD` reads back as the same day |
| Store.SelectById | src/lib/actions/sales-funnel.ts:50-67 | a row exactly when one has the id, with that id, the only such row when ids are unique; otherwise the not-found message |
| Store.UpdateWhere | src/lib/actions/sales-funnel.ts:111-114 | `.update().eq('id', id)`: rows with the id are updated, all others stay, in place |
| Store.UpdateWhereSelect | src/lib/actions/sales-funnel.ts:111-114 | after an update the row selected by the id is the updated row |
| Store.DeleteWhere | src/lib/actions/sales-funnel.ts:161-164 | `.delete().eq('id', id)`: no row with the id is left, and every other row stays |
| Store.DeleteCount | src/lib/actions/sales-funnel.ts:161-164 | with unique ids a delete removes one row when the id is there and none otherwise |
| Store.Insert | src/lib/actions/sales-funnel.ts:83-86 | the row is appended exactly when its id is new, else a duplicate-key error; unique ids stay unique |
| Store.PageRange | src/lib/actions/sales-funnel.ts:33-39 | with an offset the page is rows offset to offset + size - 1 (size the limit or 25); with only a limit the first rows; otherwise every row |
| Store.PageOfFilter | src/lib/actions/sales-funnel.ts:20-39 | every row of a page of a filtered listing is a table row passing the filter |
| Store.PagesTile | src/lib/actions/sales-funnel.ts:37-39 | pages 0 to k - 1 of size n together are the first k * n rows |
| SalesFunnel.NewOpportunity | src/lib/actions/sales-funnel.ts:75-81 | the inserted row carries exactly the form's fields, the price net of VAT (price / 1.1 for a truthy price, null otherwise) and the creating user, with no progress recorded |
| SalesFunnel.UpdatePayload | src/lib/actions/sales-funnel.ts:104-109 | the net price is added to the update only when the price is truthy; otherwise the update is the input unchanged, and no other column is touched |
| SalesFunnel.UpdateDerivesVat | src/lib/actions/sales-funnel.ts:104-115 | after an update with a truthy price the stored net price is that price / 1.1 |
| SalesFunnel.UpdateKeepsStaleVat | src/lib/actions/sales-funnel.ts:104-109 | an update setting the price to 0 or null leaves the old net price, which then disagrees with the price |
| SalesFunnel.ProgressToWon | src/lib/actions/sales-funnel.ts:133 | the stage's progress lies in [0, 1] and is 1 exactly for Closed |
| SalesFunnel.ProgressAlongFunnel | src/lib/actions/sales-funnel.ts:133 | progress never falls along the funnel from Cold to Closed |
| SalesFunnel.StageChange | src/lib/actions/sales-funnel.ts:135-142 | a stage change writes the stage and its progress and leaves every other column as it was |
| SalesFunnel.StageChangeIdempotent | src/lib/actions/sales-funnel.ts:130-142 | repeating a stage change changes nothing more; the stage and progress written depend only on the target stage |
| SalesFunnel.SalesFunnelTable.GetSalesFunnel | src/lib/actions/sales-funnel.ts:7-48 | a query error is thrown as its message; otherwise the count is the number of rows passing the stage and team filters, and the data is the requested page of those rows |
| SalesFunnel.SalesFunnelTable.GetById | src/lib/actions/sales-funnel.ts:50-67 | returns the row with the id exactly when there is one, else the error "Бүртгэл олдсонгүй"; a query error is thrown as its message |
| SalesFunnel.SalesFunnelTable.Create | src/lib/actions/sales-funnel.ts:69-99 | without a user: "Not authenticated" and no change; a store error: no change; otherwise exactly the new row is appended and returned |
| SalesFunnel.SalesFunnelTable.Update | src/lib/actions/sales-funnel.ts:101-128 | the row with the id gets the update (with the derived net price) and every other row stays; a missing id gives "Бүртгэл олдсонгүй" and no change |
| SalesFunnel.SalesFunnelTable.UpdateStage | src/lib/actions/sales-funnel.ts:130-156 | only the row with the id gets the stage and its progress; a missing id gives "Record not found" and no change |
| SalesFunnel.SalesFunnelTable.Delete | src/lib/actions/sales-funnel.ts:158-172 | removes exactly the rows with the id; a missing id is not an error |
| SalesFunnel.SalesFunnelTable.GetByStage | src/lib/actions/sales-funnel.ts:174-204 | six lists in the order Cold, Warm, Hot, Won, Closed, Lost, each holding exactly the rows of that stage in query order |
| SalesFunnel.PageMember | src/lib/actions/sales-funnel.ts:33-39 | a row of a page is a row of the listing the page was cut from |
| SalesFunnel.ByStageCovers | src/lib/actions/sales-funnel.ts:188-201 | the six stage lists together hold exactly the rows whose stage is one of the six, none twice |
| ServiceContracts.NewContract | src/lib/actions/service-contracts.ts:70-76 | the inserted row carries exactly the form's fields, the price net of VAT (price / 1.1 for a truthy price, null otherwise) and the creating user |
| ServiceContracts.UpdatePayload | src/lib/actions/service-contracts.ts:99-104 | the net price is added to the update only when the price is truthy; otherwise the update is the input unchanged |
| ServiceContracts.UpdateNetPrice | src/lib/actions/service-contracts.ts:99-110 | a truthy price stores price / 1.1 as the net price; otherwise the net price is whatever the input gave, or the old one; the id never changes |
| ServiceContracts.ServiceContractTable.GetServiceContracts | src/lib/actions/service-contracts.ts:7-43 | a query error is thrown as its message; otherwise the count is the number of rows of the requested stage, and the data is the requested page of them |
| ServiceContracts.ServiceContractTable.GetById | src/lib/actions/service-contracts.ts:45-62 | returns the row with the id exactly when there is one, else "Гэрээ олдсонгүй" |
| ServiceContracts.ServiceContractTable.Create | src/lib/actions/service-contracts.ts:64-94 | without a user: "Not authenticated" and no change; a store error: no change; otherwise exactly the new row is appended and returned |
| ServiceContracts.ServiceContractTable.Update | src/lib/actions/service-contracts.ts:96-123 | the row with the id gets the update (with the derived net price) and every other row stays; a missing id gives "Гэрээ олдсонгүй" and no change |
| ServiceContracts.ServiceContractTable.Delete | src/lib/actions/service-contracts.ts:125-146 | without a user: "Not authenticated"; when nothing is deleted (row missing or not permitted): "Устгах эрх байхгүй эсвэл бүртгэл олдсонгүй" and no change; otherwise exactly the rows with the id are removed |
| Stock.NewItem | src/lib/actions/stock.ts:79-83 | the inserted row carries exactly the form's fields and the creating user; its total value is left to the database |
| Stock.Apply | src/lib/actions/stock.ts:102-110 | an update never changes the row's id or creator |
| Stock.Adjust | src/lib/actions/stock.ts:138-149 | a quantity adjustment moves the quantity by the change, records today as the restock date only when stock is added, and changes nothing else |
| Stock.AdjustUndo | src/lib/actions/stock.ts:138-149 | taking back an addition restores the quantity but keeps the restock date of the addition |
| Stock.AdjustCompose | src/lib/actions/stock.ts:138 | two adjustments in a row move the quantity by their sum |
| Stock.LowStockRule | src/lib/actions/stock.ts:45-48 | a minimum level of 0 or none never flags an item, even one with no stock; with a non-zero minimum the test is quantity ≤ minimum |
| Stock.AdjustRequest | src/components/stock/data-table.tsx:78-82 | a non-positive amount requests nothing; otherwise the change is the amount, positive exactly for the "add" button |
| Stock.RequestRestocksOnlyOnAdd | src/components/stock/data-table.tsx:78-82 | only an "add" request raises the quantity and records a restock; a "remove" request lowers it and keeps the old restock date |
| Stock.TotalPreview | src/components/stock/form.tsx:57-59 | the form's value preview is quantity × unit price, 0 when either is empty or 0, and never negative for non-negative inputs |
| Stock.Summarize | src/lib/actions/stock.ts:189-214 | the summary counts every row, sums quantities and values (null as 0), counts the low-stock rows, and its per-category lines (empty category as 'Бусад') have distinct keys, cover every row and add up to the totals |
| Stock.SummaryLine | src/lib/actions/stock.ts:198-207 | a category's line counts exactly that category's rows and sums exactly their quantities and values |
| Stock.StockTable.GetStock | src/lib/actions/stock.ts:7-52 | the count is the number of rows of the category; the data is the requested page, then filtered to low-stock rows when asked (after paging, as written); a query error is thrown as its message |
| Stock.StockTable.GetById | src/lib/actions/stock.ts:54-71 | returns the row with the id exactly when there is one, else "Бүртгэл олдсонгүй" |
| Stock.StockTable.GetStockSummary | src/lib/actions/stock.ts:177-217 | a failed query gives the store error; otherwise the summary of the whole table (`Stock.Summarize`): item count, total quantity, total value, low-stock count and the per-category lines with 'Бусад' for a missing category, the lines counting every row |
| Stock.StockTable.Create | src/lib/actions/stock.ts:73-100 | without a user: "Not authenticated" and no change; a store error: no change; otherwise exactly the new row is appended and returned |
| Stock.StockTable.Update | src/lib/actions/stock.ts:102-122 | the row with the id gets the update and every other row stays; a missing id gives "Бүртгэл олдсонгүй" and no change |
| Stock.StockTable.UpdateQuantity | src/lib/actions/stock.ts:124-159 | a failed read or missing row gives "Бүртгэл олдсонгүй"; a result below zero gives "Тоо хэмжээ хасах байж болохгүй"; both leave the table unchanged; otherwise only that row is adjusted; a table with no negative quantity keeps none |
| Stock.StockTable.Delete | src/lib/actions/stock.ts:161-175 | removes exactly the rows with the id; a missing id is not an error |
| Expenses.NewExpense | src/lib/actions/expenses.ts:80-84 | the inserted row carries exactly the form's fields and the creating user |
| Expenses.Apply | src/lib/actions/expenses.ts:103-110 | an update never changes the row's id or creator |
| Expenses.InRangeBounds | src/lib/actions/expenses.ts:30-36 | with no bounds every expense is in range; with both bounds a start after the end admits nothing |
| Expenses.Summarize | src/lib/actions/expenses.ts:165-180 | the total is the sum of the amounts (null as 0), the count is the number of rows, and the per-category lines have distinct keys, name exactly the categories present and add up to the total |
| Expenses.SummaryLine | src/lib/actions/expenses.ts:169-175 | a category's line is the sum of exactly that category's amounts |
| Expenses.ExpenseTable.GetExpenses | src/lib/actions/expenses.ts:7-53 | the count is the number of rows of the category within the date bounds; the data is the requested page of them; a query error is thrown as its message |
| Expenses.ExpenseTable.GetById | src/lib/actions/expenses.ts:55-72 | returns the row with the id exactly when there is one, else "Бүртгэл олдсонгүй" |
| Expenses.ExpenseTable.GetExpensesSummary | src/lib/actions/expenses.ts:141-183 | the summary of exactly the rows within the date bounds |
| Expenses.ExpenseTable.Create | src/lib/actions/expenses.ts:74-101 | without a user: "Not authenticated" and no change; a store error (a missing date included): no change; otherwise exactly the new row is appended and returned |
| Expenses.ExpenseTable.Update | src/lib/actions/expenses.ts:103-123 | the row with the id gets the update and every other row stays; a missing id gives "Бүртгэл олдсонгүй" and no change |
| Expenses.ExpenseTable.Delete | src/lib/actions/expenses.ts:125-139 | removes exactly the rows with the id; a missing id is not an error |
| Expenses.SummaryMatchesListing | src/lib/actions/expenses.ts:141-163 | the summary counts exactly the rows the listing with the same date bounds counts |
| Salary.NewSalary | src/lib/actions/salary.ts:75-79 | the inserted row carries exactly the form's fields and the creating user; the net salary is left to the database |
| Salary.NetPreview | src/components/salary/form.tsx:57-60 | the form's net preview is base + bonus − deductions, an empty field counting as 0 |
| Salary.NetPreviewMonotone | src/components/salary/form.tsx:57-60 | a larger bonus never lowers the preview and larger deductions never raise it |
| Salary.Apply | src/lib/actions/salary.ts:98-105 | an update never changes the row's id or creator |
| Salary.StatusPatchOnly | src/lib/actions/salary.ts:120-127 | a status update writes the status alone, and repeating it changes nothing more |
| Salary.Summarize | src/lib/actions/salary.ts:176-199 | the four totals are the sums of their columns (null as 0); the per-status lines (empty status as 'Pending') have distinct non-empty keys, cover every row and add up to the count and the net total |
| Salary.SummaryLine | src/lib/actions/salary.ts:183-191 | a status's line counts exactly that status's rows and sums exactly their net salaries |
| Salary.SalaryTable.GetSalaries | src/lib/actions/salary.ts:7-48 | the count is the number of rows of the status and month; the data is the requested page of them, each of the month when one is given |
| Salary.SalaryTable.GetById | src/lib/actions/salary.ts:50-67 | returns the row with the id exactly when there is one, else "Бүртгэл олдсонгүй" |
| Salary.SalaryTable.GetSalarySummary | src/lib/actions/salary.ts:157-202 | the summary of exactly the rows of the month, or of every row without one |
| Salary.SalaryTable.Create | src/lib/actions/salary.ts:69-96 | without a user: "Not authenticated" and no change; a store error (a missing date included): no change; otherwise exactly the new row is appended and returned |
| Salary.SalaryTable.Update | src/lib/actions/salary.ts:98-118 | the row with the id gets the update and every other row stays; a missing id gives "Бүртгэл олдсонгүй" and no change |
| Salary.SalaryTable.UpdateStatus | src/lib/actions/salary.ts:120-139 | only the row with the id gets the status, nothing else of it changes; a missing id gives "Бүртгэл олдсонгүй" and no change |
| Salary.SalaryTable.Delete | src/lib/actions/salary.ts:141-155 | removes exactly the rows with the id; a missing id is not an error |
| Salary.SummaryMatchesListing | src/lib/actions/salary.ts:157-174 | the summary for a month counts exactly the rows the listing for that month counts |
| Settings.ProbabilityOf | src/lib/actions/settings.ts:58 | a null probability reads as 0, any other as itself |
| Settings.TargetsTable | src/lib/actions/settings.ts:21-39 | the target dictionary has one entry per team; its teams are exactly those of the selected rows (of the setting type, with a team and a target); a team's target is that of its last row |
| Settings.ProbabilitiesTable | src/lib/actions/settings.ts:42-59 | the probability dictionary has one entry per stage, exactly the stages of the sales-funnel rows naming one, each with its last row's probability (null as 0) |
| Settings.CollectTargets | src/lib/actions/settings.ts:37-38 | the loop builds the dictionary of assigning each row's target to its team in order |
| Settings.GetSalesTargets | src/lib/actions/settings.ts:21-39 | a query error is thrown as its message; otherwise the sales-funnel team targets |
| Settings.GetStageProbabilities | src/lib/actions/settings.ts:42-59 | a query error is thrown as its message; otherwise the stage probabilities |
| Settings.GetServiceContractTargets | src/lib/actions/settings.ts:62-80 | a query error is thrown as its message; otherwise the service-contract team targets |
| Settings.GetAllSettings | src/lib/actions/settings.ts:83-94 | the three results together when all three succeed, otherwise a failure of one of them |
| ExpenseSchema.Issues | src/lib/validations/expenses.ts:3-11 | the form parses exactly when it has a description, a listed category, an amount of at least 1 and a date |
| ExpenseSchema.OptionalFieldsFree | src/lib/validations/expenses.ts:8-10 | vendor, receipt number and notes never make a valid form invalid |
| ExpenseSchema.CategoryTable | src/lib/validations/expenses.ts:15-21 | the select list offers each category once, exactly the schema's enum |
| SalarySchema.Issues | src/lib/validations/salary.ts:3-13 | the form parses exactly when it has a name, a base salary of at least 1, a payment date, a month and a listed status |
| SalarySchema.BonusAndDeductionsUnbounded | src/lib/validations/salary.ts:7-8 | bonus and deductions of any sign leave a valid form valid |
| SalarySchema.StatusTable | src/lib/validations/salary.ts:17-21 | the status list offers each status once, exactly the schema's enum |
| SalarySchema.PaymentMonthsEnds | src/lib/validations/salary.ts:23-48 | the month list has 24 entries, from 2025-01 to 2026-12 with their captions |
| SalarySchema.PaymentMonthsIncreasing | src/lib/validations/salary.ts:23-48 | the month keys are in strictly increasing string order |
| SalarySchema.MonthKeyBeforeNext | src/lib/validations/salary.ts:24-47 | for a four-digit year, a `YYYY-MM` key sorts before the key of the following month, across a year (and a decade or century) boundary too; December 9999 is excluded, its successor's year having five digits |
| SalesFunnelSchema.Issues | src/lib/validations/sales-funnel.ts:3-18 | the form parses exactly when it has a client name, a listed stage, and in range price, payment fraction (0 to 1) and paid amount, and listed team and status when given |
| SalesFunnelSchema.StageTable | src/lib/validations/sales-funnel.ts:22-29 | the stage list holds the six stages in funnel order, each once, exactly the schema's enum |
| SalesFunnelSchema.TeamAndStatusTables | src/lib/validations/sales-funnel.ts:31-44 | the team and status lists offer each value once, exactly the schema's enums |
| ServiceContractSchema.Issues | src/lib/validations/service-contract.ts:3-17 | the form parses exactly when it has a client name, a listed stage, and in range price, payment fraction and yearly payment, and a listed status when given |
| ServiceContractSchema.StageTable | src/lib/validations/service-contract.ts:21-25 | the select list offers each contract stage once, exactly the schema's enum |
| StockSchema.Issues | src/lib/validations/stock.ts:3-14 | the form parses exactly when it has a product name, a listed category when given, and a quantity of at least 0 |
| StockSchema.PriceAndMinimumUnbounded | src/lib/validations/stock.ts:8-9 | a negative unit price or minimum level leaves a valid form valid |
| StockSchema.CategoryTable | src/lib/validations/stock.ts:18-24 | the select list offers each category once, exactly the schema's enum |
| Utils.MonthNamesNumbered | src/lib/utils.ts:9-13 | the table has twelve entries and entry i names month i + 1 |
| Utils.FormatDateMn | src/lib/utils.ts:16-27 | '-' without a date; otherwise the year, "оны", the month's name and the day |
| Utils.FormatDateShortMn | src/lib/utils.ts:30-41 | '-' without a date; otherwise `YYYY.MM.DD` |
| Utils.FormatDateShortMnRoundTrip | src/lib/utils.ts:30-41 | the short text reads back as the same day, and '-' reads back as no day |
| Utils.RelativeTime | src/lib/utils.ts:60-76 | no date gives '-'; otherwise the bucket of the elapsed whole days |
| Utils.RelativeTimeBrackets | src/lib/utils.ts:68-75 | each bucket is chosen by its day range and rounds the days down to its unit |
| Utils.FutureDateReadsAsNegativeDays | src/lib/utils.ts:68-72 | a date less than a week ahead is worded as a negative number of days ago |
| Utils.CurrencyScale | src/lib/utils.ts:44-57 | '-' without an amount; otherwise the largest of billions, millions and thousands the amount reaches, with the amount in that unit |
| Utils.CurrencyScaleMonotone | src/lib/utils.ts:47-56 | a larger amount never gets a smaller unit |
| Dashboard.PriceInStage | src/lib/actions/dashboard.ts:63-70 | adding a stage's price to a running total for rows of that stage sums the prices of exactly that stage's rows |
| Dashboard.GetDashboardMetrics | src/lib/actions/dashboard.ts:35-99 | a failed query gives the empty metrics; otherwise the one-pass loop computes the metrics of the rows |
| Dashboard.TallyOf | src/lib/actions/dashboard.ts:72-85 | a stage's or team's entry counts and sums exactly that key's rows, and a key with no rows has no entry |
| Dashboard.MetricsConsistent | src/lib/actions/dashboard.ts:59-97 | both breakdowns list each key once, cover every row and add up to the total count and the total value |
| Dashboard.StageValues | src/lib/actions/dashboard.ts:63-70 | the closed, won, hot and lost values equal the value of that stage's entry, or 0 without one |
| Dashboard.Percentage | src/lib/actions/dashboard.ts:159 | 0 without a positive target; otherwise the ratio in percent rounded to the nearest integer, within 0..100 for a part within the whole, 100 for the whole |
| Dashboard.CollectTeamTargets | src/lib/actions/dashboard.ts:130-136 | the loop assigns each team with a non-zero target its target, the last assignment winning |
| Dashboard.CollectActuals | src/lib/actions/dashboard.ts:140-144 | the loop adds each row's price to its team's actual figure |
| Dashboard.GetTeamTargets | src/lib/actions/dashboard.ts:101-162 | a failed settings query gives no lines; a failed sales query counts no sales; otherwise one line per team with a target |
| Dashboard.TargetTeams | src/lib/actions/dashboard.ts:130-138 | each team has one target, exactly the teams with a non-zero target in a sales-funnel setting |
| Dashboard.TargetValue | src/lib/actions/dashboard.ts:132-136 | a team's target is non-zero and comes from one of its sales-funnel settings |
| Dashboard.ActualValue | src/lib/actions/dashboard.ts:119-144 | a team's actual figure is the sum of the prices of its closed and won rows |
| Dashboard.TeamTargetsMeaning | src/lib/actions/dashboard.ts:131-161 | the report lists each team with a target once and only those, each with its target, its closed and won sales and their rounded percentage |
| Dashboard.FunnelConversions | src/lib/actions/dashboard.ts:164-199 | six lines in funnel order; zeros on failure; otherwise each stage's count, value and rounded share of all rows, within 0..100 |
| Dashboard.ConversionsCover | src/lib/actions/dashboard.ts:183-196 | the six counts add up to the rows in one of the six stages, and to all rows when every row has one of them |
| Dashboard.GetMonthlyTrends | src/lib/actions/dashboard.ts:201-239 | a failed query gives no months; otherwise the monthly totals of the rows |
| Dashboard.MonthKeySameMonth | src/lib/actions/dashboard.ts:221-222 | two days share a `YYYY-MM` key exactly when they fall in the same month |
| Dashboard.TrendsConsistent | src/lib/actions/dashboard.ts:216-238 | each month once; every dated row's month is listed; the totals add up to the dated rows' prices and the closed totals to the closed rows' prices |
| Dashboard.GetTopClients | src/lib/actions/dashboard.ts:241-267 | a failed query gives no clients; otherwise the top clients of the rows |
| Dashboard.ClientTotal | src/lib/actions/dashboard.ts:255-260 | each client's total is the sum of the prices of that client's rows |
| Dashboard.TopClientsMeaning | src/lib/actions/dashboard.ts:255-266 | each client once, highest total first, each total its client's prices, at most `limit` (10 by default), and no client left out has a higher total than one listed |
| Dashboard.CreatedDates | src/lib/actions/dashboard.ts:309-313 | exactly the creation dates the contracts have |
| Dashboard.Earliest | src/lib/actions/dashboard.ts:315 | none for no dates; otherwise a listed date no later than any other |
| Dashboard.Latest | src/lib/actions/dashboard.ts:316 | none for no dates; otherwise a listed date no earlier than any other |
| Dashboard.ContractMetricsOf | src/lib/actions/dashboard.ts:269-336 | the empty metrics on failure; otherwise the count, the closed count of the stage breakdown, the first five contracts, and earliest and latest dates that bound every creation date |
| Dashboard.ContractStagesCover | src/lib/actions/dashboard.ts:318-323 | with every contract in one of the three stages, the stage counts add up to the count |
| Dashboard.ContractValueSplit | src/lib/actions/dashboard.ts:294-297 | the closed value and the value of the other contracts make up the total |
| Ranking.InsertDesc | src/lib/actions/dashboard.ts:264 | the insertion step of the sort adds exactly the one entry |
| Ranking.SortDesc | src/lib/actions/dashboard.ts:264 | the sort is a permutation of the entries |
| Ranking.Take | src/lib/actions/dashboard.ts:265 | `slice(0, n)` is a prefix of length n, the whole for n past the end, and |s| + n entries for a negative n |
| Ranking.InsertDescSorted | src/lib/actions/dashboard.ts:264 | inserting into a list sorted highest first keeps it sorted |
| Ranking.SortDescSorted | src/lib/actions/dashboard.ts:264 | the sort orders by value, highest first |
| Ranking.InsertDescKeys | src/lib/actions/dashboard.ts:263-264 | inserting an entry under a new key keeps the keys distinct and adds that key |
| Ranking.SortDescKeys | src/lib/actions/dashboard.ts:263-264 | sorting entries with distinct keys keeps them distinct, with the same keys |
| Ranking.TakeTop | src/lib/actions/dashboard.ts:263-265 | an entry left out of the top n is worth no more than any entry kept |
| Kanban.ByStageSorted | src/lib/actions/sales-funnel.ts:174-204 | the board built from the per-stage lists has every card in the column of its stage |
| Kanban.FindInColumn | src/components/sales-funnel/kanban-board.tsx:229 | finds a card with the id exactly when the column has one |
| Kanban.FindFrom | src/components/sales-funnel/kanban-board.tsx:227-233 | the first column from c on holding a card with the id, and that card; none when no such column |
| Kanban.ColumnOf | src/components/sales-funnel/kanban-board.tsx:257-260 | a column exactly for the six stage names, the one of that stage |
| Kanban.DropMeaning | src/components/sales-funnel/kanban-board.tsx:239-263 | a drop moves a card on the board with the dragged id to another column, that of the card dropped on or of the stage named; no target or no card means no move |
| Kanban.MovedColumns | src/components/sales-funnel/kanban-board.tsx:265-272 | the card leaves its column and is appended to the target with the target's stage; the other columns stay |
| Kanban.MoveKeepsTotals | src/components/sales-funnel/kanban-board.tsx:265-272 | with ids unique in the card's column, a move keeps the number of cards and the board's value |
| Kanban.MoveKeepsSorted | src/components/sales-funnel/kanban-board.tsx:265-272 | a move keeps every card in the column of its stage |
| Kanban.KanbanBoard.constructor | src/components/sales-funnel/kanban-board.tsx:216 | the board starts with the page's columns |
| Kanban.KanbanBoard.FindItem | src/components/sales-funnel/kanban-board.tsx:227-233 | the loop finds what the find function does |
| Kanban.KanbanBoard.HandleDragEnd | src/components/sales-funnel/kanban-board.tsx:239-283 | no move leaves board and table alone; a move the server accepts moves the card and changes that row's stage; a failure resets the board to the page's data |
| Kanban.GetSmartDate | src/components/sales-funnel/kanban-board.tsx:45-87 | no date gives empty text; urgent exactly for 0 to 3 days ahead, past exactly for a day before today, never both; dates more than a week ahead or 30 days back show as `YYYY.MM.DD` |
| NotificationCheck.WindowIsEightDays | src/app/api/notifications/check/route.ts:34-41 | the close-date window runs from today to the day seven days later: eight days |
| NotificationCheck.DaysUntilInWindow | src/app/api/notifications/check/route.ts:60-62 | a contract in the window expires in 0 to 7 days, counted in whole days rounded up |
| NotificationCheck.NotificationStore.constructor | src/app/api/notifications/check/route.ts:64 | the notifications table starts empty |
| NotificationCheck.RemindContracts | src/app/api/notifications/check/route.ts:48-78 | the loop does what the reminder fold over the user's due contracts specifies: an insert for each contract without a notification of the same key in the last 24 hours, each insert counted |
| NotificationCheck.RemindSales | src/app/api/notifications/check/route.ts:100-125 | the same for the user's hot and warm opportunities due in the window |
| NotificationCheck.Post | src/app/api/notifications/check/route.ts:16-132 | a failed users query gives status 500 "Failed to fetch users" and no change; otherwise the table is the scan over all users and the answer is "Created <n> notifications" with the counter |
| NotificationCheck.RemindAllGrows | src/app/api/notifications/check/route.ts:48-78 | a user's reminder pass only appends reminders for that user, stamped now, and counts at least what it appends |
| NotificationCheck.UserScanGrows | src/app/api/notifications/check/route.ts:33-125 | a failed contracts query skips the user; a failed sales query skips the opportunities; otherwise both passes only append the user's reminders |
| NotificationCheck.ScanUsersGrows | src/app/api/notifications/check/route.ts:32-126 | the loop over the users only appends reminders for them |
| NotificationCheck.FreshKeys | src/app/api/notifications/check/route.ts:49-58 | when every duplicate lookup answers, a key is never filed twice and never repeats one filed in the last 24 hours |
| NotificationCheck.ScanMeaning | src/app/api/notifications/check/route.ts:30-131 | the scan keeps every notification, adds only reminders for the users about contracts and hot or warm opportunities due in the window, counts every insert issued (exactly the rows added when none is rejected), and with answering lookups files no duplicate key within 24 hours; with distinct user, contract and opportunity ids, no two reminders share a (user, related table, related row) key whatever the lookups answer |
| NotificationCheck.RemindAllDistinct | src/app/api/notifications/check/route.ts:48-78 | a pass over reminders with distinct keys adds rows with distinct keys, each one of the reminders' keys, whatever the duplicate checks and inserts answer |
| NotificationCheck.ScanUsersDistinct | src/app/api/notifications/check/route.ts:32-126 | with distinct user ids, contract ids and opportunity ids, the rows a scan adds have pairwise distinct (user, related table, related row) keys, even when duplicate checks fail |
| NotificationCheck.AllContractQueriesFail | src/app/api/notifications/check/route.ts:43-46 | when every user's contracts query fails, nothing is filed, the sales pass included |
| NotificationBell.MarkRead | src/components/layout/notification-bell.tsx:57-59 | the notification with the id becomes read; nothing else changes |
| NotificationBell.MarkAllRead | src/components/layout/notification-bell.tsx:71 | every notification becomes read; nothing else changes |
| NotificationBell.Decrement | src/components/layout/notification-bell.tsx:60 | one less, never below 0 |
| NotificationBell.Badge | src/components/layout/notification-bell.tsx:101-107 | hidden exactly at 0 or less; "99+" exactly above 99; otherwise the digits of the count |
| NotificationBell.Bell.constructor | src/components/layout/notification-bell.tsx:25-27 | an empty list, a zero counter, loading |
| NotificationBell.Bell.FetchNotifications | src/components/layout/notification-bell.tsx:31-42 | on success the list is the fetched one and the counter its unread count; on failure both stay; loading ends either way |
| NotificationBell.Bell.HandleNotificationClick | src/components/layout/notification-bell.tsx:53-65 | clicking an unread notification whose server call succeeds marks it read and lowers the counter; otherwise nothing changes |
| NotificationBell.Bell.HandleMarkAllAsRead | src/components/layout/notification-bell.tsx:67-77 | on success everything is read and the counter is 0, consistent with the list; on failure nothing changes |
| NotificationBell.MarkReadAbsent | src/components/layout/notification-bell.tsx:57-59 | marking an id no notification has changes nothing |
| NotificationBell.UnreadMarkRead | src/components/layout/notification-bell.tsx:57-60 | with unique ids, marking an unread notification read lowers the unread count by exactly one |
| NotificationBell.ClickKeepsCount | src/components/layout/notification-bell.tsx:57-60 | a click on an unread notification keeps the counter equal to the unread count of the list |
| NotificationBell.MarkAllMeaning | src/components/layout/notification-bell.tsx:71-72 | after marking all read nothing is unread, marking again changes nothing, and a later click changes nothing |
| NotificationBell.BadgeShowsUnread | src/components/layout/notification-bell.tsx:101-107 | the badge shows exactly when some notification is unread |
| SqlText.Doubled | supabase/generate-seed.js:64 | doubling the quotes never shortens the text |
| SqlText.EscapeSql | supabase/generate-seed.js:62-65 | `NULL` exactly for a missing value; otherwise a quoted literal |
| SqlText.UndoubleDoubled | supabase/generate-seed.js:64 | reading the doubled quotes back gives the original text |
| SqlText.DoubledPaired | supabase/generate-seed.js:64 | after doubling, every quote is one of a pair, so no value ends the literal early |
| SqlText.EscapeSqlRoundTrip | supabase/parse-excel.js:40-43 | the inside of an escaped value has its quotes in pairs and reads back as the value |
| SeedScript.Undecorated | supabase/generate-seed.js:13 | the cleaned text has no currency sign, dollar, comma or white space |
| SeedScript.CurrencyIgnoresDecoration | supabase/generate-seed.js:10-16 | a value parses as its cleaned text does |
| SeedScript.CurrencyOfDigits | supabase/generate-seed.js:10-16 | a value whose cleaned text is digits parses to their number |
| SeedScript.DropFirstPercent | supabase/generate-seed.js:21 | only the first '%' is removed |
| SeedScript.PercentOfNat | supabase/generate-seed.js:19-25 | "n%" reads as n/100 for n above 1, and as n itself otherwise |
| SeedScript.PercentInRange | supabase/generate-seed.js:24 | a number from 0 to 100 becomes a fraction from 0 to 1, and one up to 1 stays as it is |
| SeedScript.MonthNumber | supabase/generate-seed.js:37-43 | a known abbreviation is three word characters and gives a two-digit month |
| SeedScript.ParseDateDayMonYear | supabase/generate-seed.js:35-45 | `D-Mon-YYYY` text becomes the ISO date `YYYY-MM-DD` with the day padded |
| SeedScript.DayMonYearFound | supabase/generate-seed.js:35 | the pattern matches `D-Mon-YYYY` text at its start with its three parts |
| SeedScript.NoDayMonYearInIso | supabase/generate-seed.js:35 | an ISO date contains no `D-Mon-YYYY` match |
| SeedScript.ParseDateIso | supabase/generate-seed.js:49-50 | an ISO date is returned unchanged |
| SeedScript.ParseDateEmpty | supabase/generate-seed.js:29 | a missing or empty value gives null |
| SeedScript.MapStage | supabase/generate-seed.js:68-75 | the result is one of the valid stages of the sheet |
| SeedScript.MapStageMeaning | supabase/generate-seed.js:68-75 | emitted stages are ones the forms accept, valid stages are kept, and mapping twice changes nothing |
| SeedScript.MapStatusMeaning | supabase/generate-seed.js:78-87 | emitted statuses are ones the forms accept, "Complete" and "Completed" become "Complate", valid statuses are kept, and mapping twice changes nothing |
| SeedScript.ValidRowsMeaning | supabase/generate-seed.js:113-117 | a row is emitted exactly when it has a client name other than the header and a stage |
| ExcelParse.ParseNumberDigits | supabase/parse-excel.js:33-37 | digits parse to their number, as the currency parser reads them |
| ExcelParse.ParseNumberStopsAtComma | supabase/parse-excel.js:35 | "1,500" reads as 1, unlike the currency parser |
| ExcelParse.ParseNumberEmpty | supabase/parse-excel.js:34 | a missing or empty cell gives null |
| ExcelParse.MapStageAgrees | supabase/parse-excel.js:46-56 | the stage table maps exactly as the seed generator's sales stage list does |
| ExcelParse.MapStatusAgrees | supabase/parse-excel.js:59-67 | the status table agrees with the seed generator's except on "Completed", which it maps to "Not started" |

## Left out

- Database and auth plumbing is not modelled: the Supabase client, the session lookup and `revalidatePath`/`router.refresh`. The user is a parameter and cache revalidation does nothing. The `.or(... ilike ...)` text search and the `order(...)` of each listing belong to the database. Listings keep the table's order and ignore the search text.
- Columns the database computes (`total_value` of stock, `net_salary` of salaries) are not computed: a created row leaves them empty.
- Insert answering with no row cannot arise in the model (an insert returns the row it wrote), so the "nothing returned" branches of the create actions are not modelled.
- JavaScript objects used as dictionaries list integer-like keys first in `Object.entries`. The model keeps plain insertion order, which agrees for every key the code uses (stage, team, category, status and month names).
- Settings.GetAllSettings: reports the failure of the first fetch in argument order, while `Promise.all` rejects with whichever fails first in time.
- Dashboard.ContractMetricsOf: returns the earliest and latest creation days as days, not as the `toISOString` text of their midnight.
- Amounts (prices, paid amounts, quantities, unit prices, salaries, bonuses, deductions, expenses) are JavaScript doubles in the source, and its zod schemas accept fractional ones. The model takes them as whole `int`s, so fractional amounts are outside the model and the floating-point rounding of the `reduce` sums, of `price / 1.1` and of `(actual / target) * 100` is not modelled. The exact totals, the lines adding up to them, and the schemas' `Issues` agreeing with `Valid`, are stated for whole amounts only.
- Stock.StockTable.UpdateQuantity: the source reads the row and then writes the new quantity in a separate request, with no lock, transaction or condition on the old value. The model runs the read and the write as one step with nothing in between. So it does not capture a concurrent adjustment being lost (last write wins), and `Stock.AdjustCompose` holds only for adjustments that run one after the other. Each request's refusal of a negative result is modelled.
- SalesFunnel.SalesFunnelTable.Create, ServiceContracts.ServiceContractTable.Create, Stock.StockTable.Create (and the `Update`s of the same tables): the forms default the optional date fields to the empty text `''`, which the schemas accept and the actions pass on to the insert, where a date column refuses it. The model's dates are a day or nothing, so empty date text is read as no date, and the store error such an insert meets is not modelled.
- The `Patch` datatypes of the update actions leave out `id` and `created_by`, which the source's update types allow. Every form in the source sends neither, so the `Apply` functions' promise that an update keeps the row's id and creator holds for every caller in the source, and holds by construction in the model.
- Formatting with `toFixed`, `toLocaleString` and `Intl.NumberFormat` is not modelled; `Utils.CurrencyScale` models the choice of unit and the scaled amount, not the rendered text.
- Utils.FormatDateShortMn: its contract states the '-' case only; the text for a day is given by `Utils.FormatDateShortMnRoundTrip`, which reads it back as the same day.
- Utils.RelativeTime: its contract states the no-date case only; the buckets are stated by `Utils.RelativeTimeBrackets`.
- Parsing date text with `new Date(..)` and the time zone are not modelled. Dates arrive as days, the clock as a parameter (`now`, or the day difference of the Kanban card), and a failed parse as a missing date. The seed script's `new Date` fallback of `parseDate` is the `fallback` parameter.
- `parseFloat` is modelled for an optional sign, digits and one fractional part; exponents, `Infinity` and hexadecimal forms are not.
- `statusMap[status]` and `stageMap[stage]` in the seed scripts also find keys inherited from `Object.prototype` (such as `constructor`); the model treats them as unknown values.
- The SQL text the seed scripts assemble is not modelled beyond `escapeSql`, because it depends on JavaScript's rendering of numbers. Excel reading and `parseExcelDate` (a foreign call into the XLSX library) are not modelled either, and neither is the file write.
- The reminder route's `is_read`/`read_at` columns are left to the database defaults. The clock is read once per invocation, where the route reads it once per user, and a failure of the whole handler (`Internal server error`) is not modelled.
- Push notifications, the service worker and `src/lib/actions/notifications.ts` are not part of this model: they are browser APIs, timers and single database calls.
- Ranking.SortDesc: the sort is stable like `Array.prototype.sort`, but the model states only that it is a permutation sorted highest first, not which of two equal totals comes first.
- Rendering (tables, forms, charts, cards, the sidebar) is not modelled. The form previews (net salary, stock value) and the stock adjust button's guard are modelled as functions.
