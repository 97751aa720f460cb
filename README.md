# SIM reseller back office: the derived-state engine

This project is a Dafny model of the bookkeeping core of a back-office
application for a business that buys SIM cards in batches and resells them,
wholesale to agents and retail to walk-in buyers. It proves properties of
that core.

The application stores six kinds of records:
- SIM types
- import batches (packages)
- customers
- sale orders
- cash transactions (receipts IN, payments OUT)
- due-date logs

From these records it derives everything its screens show. The model covers:

- **Engine** (`engine.dfy`, module `Engine`). Per SIM type it computes:
  - imported quantity and import price
  - the weighted-average unit cost, rounded half up, or 0 when nothing was imported
  - units sold, matched by SIM type or through a legacy package reference
  - current stock, which may be negative, and a low-stock flag at 50 units or less

  Per order it computes:
  - amount, cost, profit, paid amount, and remaining balance clamped at 0
  - a PAID / PARTIAL / UNPAID status and an overdue flag
  - a four-level debt classification: RECOVERY at four or more due-date extensions, WARNING at three, otherwise OVERDUE when past due

  Per customer it computes:
  - GMV and current debt
  - the earliest open due date
  - the worst debt level under NORMAL < WARNING < OVERDUE < RECOVERY

  It also builds the aggregated per-type package rows shown on the dashboard.
- **Period** (`period.dfy`): the inclusive date-window filter and the sums that the Reports, Dashboard and cash-ledger screens share.
- **CashFlow** (`cash_flow.dfy`):
  - the ledger filter, newest-first listing and IN/OUT/balance summary
  - the orders that can still take a payment
  - the entry form as a class: submit, type switch, and linking an order, which fills in its remaining balance
- **SalesList** (`sales_list.dfy`):
  - the product picker and the per-tab order list
  - the order form as a class: submitting creates the order and, for a sale paid at once, the receipt that settles it
- **Reports** (`reports.dfy`):
  - the debt list and the period totals
  - the month-by-month breakdown, an imperative method with loops that collect the distinct month keys
  - the due-date extension form as a class
- **Dashboard** (`dashboard.dfy`):
  - the four period cards and today's figures
  - the list of debts due within the next week, earliest first
- **Shared modules**: `Types` holds the records, `IsoDate` compares dates as JavaScript compares strings, and `Collections` holds filter, sum, find and a stable sort by a string key, each with its lemmas.

Dates are ISO 8601 strings ("YYYY-MM-DD" for calendar dates, full timestamps for "now"). They are compared character by character, and for strings of the same layout that order is chronological. A due date is a calendar date, which `new Date(dueDate)` reads as midnight UTC; the overdue test therefore compares the timestamp "YYYY-MM-DDT00:00:00.000Z" with "now". The clock values "now", "today" and "today + 7 days" are parameters. Money and quantities are unbounded integers.

Fresh ids and codes (`generateId`, `generateCode`) are parameters too. Calls into the application store (`onAdd`, `onAddTransaction`, `onUpdateDueDate`) are recorded as a sequence of calls on the screen object, in the order they are made.

On optional values the model follows the declarations and the code's truthiness tests:
- `types.ts` declares `simTypeId` and `dueDate` of an order as plain strings, and the code tests them by truthiness. They are `string`, with the empty string meaning "unset". The fields declared optional are `Option<string>` and count as set only when present and non-empty.

## Model

| member | source | states |
|---|---|---|
| Engine.WeightedAvgCost | App.tsx:74 | 0 when nothing was imported; otherwise the integer nearest to price/quantity with halves rounded up, stated as `2Qr - Q <= 2P < 2Qr + Q`; non-negative for a non-negative price |
| Engine.InventoryStatFor | App.tsx:70-98 | batches are the packages of the type, in store order; imported is the sum of their quantities and the average cost is the rounded quotient of their total price by it; totalSold is the sum over orders counting toward the type; stock = imported - sold (may be negative); LOW_STOCK iff stock <= 50; average cost 0 when nothing imported |
| Engine.InventoryStats | App.tsx:69-100 | one stat per SIM type, in registry order |
| Engine.WeightedAvgCostOfBatches | App.tsx:71-74 | the type's average cost times its imported quantity is the batches' total import price to within half a unit per SIM |
| Engine.CountsTowardUnique | App.tsx:76-85 | an order counts toward at most one type id, whether matched by type or through its package |
| Engine.TotalSoldAppend | App.tsx:76-85 | appending an order raises a type's units sold by the order's quantity exactly when the order counts toward that type |
| Engine.SoldConservation | App.tsx:76-87 | with distinct type ids, the units sold summed over all types equal the quantities of the orders that match some type: no sale counted twice or lost |
| Engine.ProductName | App.tsx:103-114 | the name of the first SIM type with the order's type id, or for a legacy order of the first package with its package id; "Unknown" when there is none or its name is empty; never empty, and any other result is the name of a matching type or package |
| Engine.CostPerSim | App.tsx:104-111 | the average cost of the first stat with the order's SIM type; 0 for package-only orders and for unknown types |
| Engine.Remaining | App.tsx:124 | never negative, at least amount - paid, and either 0 or exactly amount - paid |
| Engine.CustomerName | App.tsx:141-142 | the name of the first customer whose id is the order's customer id, otherwise the order's agent name |
| Engine.GetOrderStats | App.tsx:102-158 | amount = qty*price, cost = qty*costPerSim, profit = amount - cost; paid sums linked IN receipts only; remaining >= 0 and 0 iff paid covers the amount; PAID iff remaining = 0; PARTIAL iff open and something paid; overdue iff open, dated and its due date's midnight UTC is before now; an open order with four or more extensions is RECOVERY, with three WARNING, with fewer OVERDUE exactly when overdue and otherwise NORMAL; bad debt iff RECOVERY; a settled order is NORMAL and not overdue; product and customer names are those of ProductName and CustomerName |
| Engine.OrderStats | App.tsx:160 | one derived order per stored order, in order |
| Engine.PaymentStatusMeaning | App.tsx:124-128 | PAID iff paid >= amount; PARTIAL iff 0 < paid < amount; UNPAID iff nothing paid and something owed |
| Engine.PaidAmountAppend | App.tsx:120-122 | a new transaction changes an order's paid amount only when it is an IN receipt linked to that order, and then by its amount |
| Engine.ChangeCountDecides | App.tsx:132-137 | for an open debt, four or more extensions give RECOVERY and three give WARNING whatever the dates; fewer give OVERDUE exactly when overdue |
| Engine.OverdueMeaning | App.tsx:130-137 | level OVERDUE iff open, extended fewer than three times, dated, and midnight UTC of the due date is before now |
| Engine.DueInstant | App.tsx:130 | a calendar date "YYYY-MM-DD" is read as its midnight UTC timestamp, which never sorts before the date itself |
| Engine.PackageOnlyOrderHasNoCost | App.tsx:111-118 | an order naming only a package has cost 0 and its whole amount as profit |
| Engine.WorstLevel | App.tsx:171-177 | the fold's result ranks at least the start and every order's level, and is the start or some order's level |
| Engine.MinDate | App.tsx:168-169 | the earliest of a non-empty list of dates, itself one of them |
| Engine.NextDueDate | App.tsx:167-169 | none iff no open dated order; otherwise the earliest due date among open dated orders, attained by one of them |
| Engine.CustomerStatFor | App.tsx:163-179 | GMV and debt are the sums over the customer's orders; next due date as above; the worst level ranks at least every own order's level and is NORMAL or attained |
| Engine.CustomerStats | App.tsx:162-181 | one rollup per customer, in registry order |
| Engine.OrderStatsSound | App.tsx:124-137 | every derived order has remaining >= 0 and is NORMAL when settled |
| Engine.NoDebtMeansNormal | App.tsx:164-177 | over sound orders a customer's debt is >= 0, and with no debt there is no next due date and the level is NORMAL |
| Engine.CustomerWithoutDebt | App.tsx:160-181 | the same, through the whole pipeline from the store |
| Engine.DashboardPackage | App.tsx:183-194 | the aggregated row carries the type id and name, code "AGG", no type link, no import date, the imported units as quantity, average cost times imported units as price, the sold units, stock, average cost and stock status |
| Engine.DashboardPackages | App.tsx:183-194 | one aggregated row per inventory stat, in order |
| IsoDate.LessTotal | components/Dashboard.tsx:60 | any two distinct dates are ordered one way or the other |
| IsoDate.LessEqTransitive | components/Dashboard.tsx:59 | "due no later than" is transitive |
| IsoDate.MonthKey | components/Reports.tsx:92 | a date of full length yields a seven-character key that prefixes it; a shorter one is kept whole |
| IsoDate.StartsWithMonth | components/Reports.tsx:96 | for a full-length date, starting with a month key is having that month |
| Collections.Find | App.tsx:81 | none iff nothing matches; otherwise the first match |
| Collections.SortBy | components/CashFlow.tsx:73 | a permutation of its input, ordered by the key ascending or descending |
| Period.OrdersInPeriod | components/Reports.tsx:36-42 | keeps exactly the orders whose date is within the inclusive bounds, an empty bound skipped; both empty keeps all |
| Period.TxsInPeriod | components/Reports.tsx:44-50 | the same for transactions |
| Period.BalanceIsSignedSum | components/CashFlow.tsx:76-78 | total IN minus total OUT is the ledger's signed sum |
| Period.ReceivablesNonNegative | components/Dashboard.tsx:40 | receivables over derived orders are never negative |
| CashFlow.PendingOrders | components/CashFlow.tsx:31-33 | exactly the orders with a positive remaining balance |
| CashFlow.FilteredTransactionsInPeriod | components/CashFlow.tsx:62-71 | the two-step filter is the inclusive period filter; with no bounds it is the identity |
| CashFlow.SortedTransactions | components/CashFlow.tsx:73 | a permutation of the filtered ledger, newest first |
| CashFlow.ComputeSummary | components/CashFlow.tsx:75-79 | IN and OUT totals over the filtered ledger; balance is the signed sum |
| CashFlow.SortedLedgerSummary | components/CashFlow.tsx:73-79 | the newest-first listing has the same IN, OUT and balance as the filtered ledger it sorts |
| CashFlow.CashFlowScreen.constructor | components/CashFlow.tsx:16-29 | receipts, no amount, wholesale-income category, transfer, empty link and note |
| CashFlow.CashFlowScreen.HandleSubmit | components/CashFlow.tsx:35-51 | emits one transaction of the current type, an empty link as none; clears only amount, link and note; closes the form |
| CashFlow.CashFlowScreen.HandleTypeChange | components/CashFlow.tsx:53-60 | sets the type, the category for that direction, clears the link; nothing else changes |
| CashFlow.CashFlowScreen.LinkOrder | components/CashFlow.tsx:288-296 | sets the link; fills the amount with the remaining balance of the first order with that id only if one exists and no amount was entered; otherwise the amount is kept |
| SalesList.AvailableProducts | components/SalesList.tsx:35 | exactly the SIM types with stock > 0 |
| SalesList.FilteredOrders | components/SalesList.tsx:108 | a permutation of the active tab's orders, newest first |
| SalesList.AgentName | components/SalesList.tsx:42-53 | wholesale: the name of the first customer with the chosen id, else "Đại lý"; retail: the buyer info, else "Khách lẻ" |
| SalesList.OrderNote | components/SalesList.tsx:49-52 | a retail sale with buyer info gets the note "Khách: {info}. {note}"; otherwise the note as typed; the typed note always ends the result |
| SalesList.NewOrder | components/SalesList.tsx:57-71 | the given id and code, the form's date, SIM type, quantity and price, no package; change count 0, finished iff paid, sale type = tab, no due date when paid, customer only for wholesale; the agent name and note of AgentName and OrderNote |
| SalesList.AutoPayment | components/SalesList.tsx:73-85 | an IN receipt with the given id and code for qty*price on the order's date, linked to the order and to no package, paid by the chosen method, under the wholesale or retail income category by sale type, with the note "Tự động: {category} đơn {order code}" |
| SalesList.PaidAtCreationIsSettled | components/SalesList.tsx:73-87 | with its receipt in the ledger (and no negative receipt linked to it), a paid-at-creation order has remaining 0, is PAID, NORMAL, not overdue, not bad debt |
| SalesList.NewOrderDisplayName | components/SalesList.tsx:45-62 | the engine shows a new order under the name written on it |
| SalesList.NewOrderSold | components/SalesList.tsx:64-65 | a new order raises units sold of its own SIM type by its quantity and of no other type |
| SalesList.SalesScreen.constructor | components/SalesList.tsx:18-33 | wholesale tab, paid, transfer, blank form, nothing emitted |
| SalesList.SalesScreen.HandleSubmit | components/SalesList.tsx:37-105 | without a SIM type nothing changes; otherwise emits the receipt iff paid, then the order, closes and resets the form |
| Reports.DebtOrders | components/Reports.tsx:34 | exactly the orders with a positive remaining balance |
| Reports.ComputeStats | components/Reports.tsx:52-59 | revenue and profit sums over the period's orders; IN and OUT sums over its transactions; their difference is the signed sum |
| Reports.MonthRowFor | components/Reports.tsx:95-104 | a month's receipts, payments and profit are the sums over records whose date starts with the month key |
| Reports.MonthlyData | components/Reports.tsx:90-105 | one row per distinct month key of the records, strictly ascending, each row the sums for its month |
| Reports.SortedMonthRows | components/Reports.tsx:95 | rows over the sorted distinct keys are strictly ascending and name exactly the records' months |
| Reports.MonthsPartition | components/Reports.tsx:96-97 | splitting records by distinct covering months loses and doubles nothing |
| Reports.MonthlyColumnsTotal | components/Reports.tsx:90-105 | the month rows' receipts, payments and profit add up to the period totals |
| Reports.DueDateEditor.constructor | components/Reports.tsx:29-32 | closed, nothing selected, empty date and reason |
| Reports.DueDateEditor.Open | components/Reports.tsx:286 | selects the order, proposes its current due date, opens the form |
| Reports.DueDateEditor.HandleUpdateSubmit | components/Reports.tsx:107-121 | nothing without a selected order; otherwise emits the order id, new date and a log of old and new date and reason; closes the form and clears the reason |
| Dashboard.ComputeTotals | components/Dashboard.tsx:39-44 | stock over all packages; IN and OUT totals over the period's transactions; receivables and profit over the period's orders; cash balance is IN minus OUT, the signed sum; receivables >= 0 over derived orders |
| Dashboard.AgreesWithReports | components/Dashboard.tsx:41-44 | for one period the overview and the reports show the same IN, OUT and profit |
| Dashboard.TotalStockBalance | components/Dashboard.tsx:39 | over the aggregated rows, total stock is total imported minus the units of every order matching a known type |
| Dashboard.ComputeToday | components/Dashboard.tsx:47-49 | revenue, profit and count over all orders dated today; all zero when there are none |
| Dashboard.TodayWithinPeriod | components/Dashboard.tsx:47-49 | when the period contains today, today's orders are exactly today's orders of the period |
| Dashboard.WeeklyDebtOrders | components/Dashboard.tsx:56-60 | a permutation of the open orders due no later than next week, overdue ones included, earliest first |
| Dashboard.OverdueIsDueThisWeek | components/Dashboard.tsx:56-60 | every order the engine marks overdue is on the weekly list while the clock has not passed next week |

## Left out

- Rendering, tabs, modals, styling, charts, the Zalo reminder text, clipboard writes and the XLSX import. These are user interface and foreign libraries.
- Authentication, the Supabase profile fetch and realtime channel, and the application store (`useAppStore`, including `updateOrderDueDate`). These are network I/O or code that is not part of this model. The due-date change count is an input, and the store's handling of the calls the screens emit is not modelled.
- The helpers in `utils` (`generateId`, `generateCode`, `formatCurrency`, `formatDate`, number formatting). Ids and codes are parameters, and formatting is display only.
- `cashflowData` in `components/Reports.tsx`, whose result is never used, and the `chartData` day loop in `components/Dashboard.tsx`, which steps through calendar days with `Date`.
- `components/CustomerCRM.tsx`, `components/SimInventory.tsx` and `components/ProductManager.tsx`. These are form and search user interface.
- JavaScript `Date` parsing and time zones. The code sorts by `new Date(..).getTime()` and `localeCompare`, and compares `now > new Date(dueDate)`. The model compares ISO strings instead: for sorting, strings of one layout; for the overdue test, the due date's midnight UTC timestamp against "now", which agrees when "now" is a UTC timestamp ending in "Z" with milliseconds, as `toISOString` writes it. Unparseable dates, which JavaScript turns into NaN, are not modelled.
- Characters are Unicode scalar values, not UTF-16 code units. String order differs only outside the Basic Multilingual Plane, which never occurs in ISO dates.
- Floating point. Money and quantities are unbounded integers, and `Number(...)` conversions of form fields are taken as already done. `Math.round` is exact integer rounding half up.
- The starting dates of the period filters (the first of the month, today) and the computation of "today + 7 days". These are parameters.
- Form inputs are modelled as direct assignments to the screen objects' public fields. The period bounds are parameters of the filter functions.
- Engine.NextDueDate: returns the earliest due date as stored. The source re-renders it through `new Date(..).toISOString()`, which only changes its format.
- Collections.SortBy: the sort is a stable insertion sort, but its contracts state only permutation and order. The relative order of records with equal keys is not stated.
- Reports.MonthlyColumnsTotal: stated only when every date has at least the seven characters of "YYYY-MM". A shorter date becomes its own "month" key, which can prefix other dates and count their records twice.
- SalesList.PaidAtCreationIsSettled: assumes no other receipt linked to the order has a negative amount. The ledger does not forbid one.
