/** The overview screen (components/Dashboard.tsx): the four period cards,
    today's sales, and the orders whose payment falls due within a week. */
module Dashboard {
  import opened Types
  import opened Collections
  import opened IsoDate
  import Engine
  import Period
  import Reports

  function StockOf(p: SimPackageWithStats): int { p.stock }

  /** The cards of the overview. */
  datatype Totals = Totals(
    totalStock: int,
    totalReceivables: int,
    totalIn: int,
    totalOut: int,
    cashBalance: int,
    totalEstimatedProfit: int)

  /** The cards over all packages and the period's orders and transactions. */
  function ComputeTotals(packages: seq<SimPackageWithStats>, filteredOrders: seq<SaleOrderWithStats>,
                         filteredTxs: seq<Transaction>): (r: Totals)
    ensures r.totalStock == Sum(packages, StockOf)
    ensures r.totalReceivables == Sum(filteredOrders, Engine.RemainingOf)
    ensures r.totalIn == Period.TotalOf(filteredTxs, In) && r.totalOut == Period.TotalOf(filteredTxs, Out)
    ensures r.totalEstimatedProfit == Sum(filteredOrders, Period.ProfitOf)
    ensures r.cashBalance == r.totalIn - r.totalOut == Sum(filteredTxs, Period.SignedAmount)
    ensures (forall o :: o in filteredOrders ==> Engine.SoundOrderStat(o)) ==> r.totalReceivables >= 0
  {
    var totalIn := Period.TotalOf(filteredTxs, In);
    var totalOut := Period.TotalOf(filteredTxs, Out);
    Period.BalanceIsSignedSum(filteredTxs);
    var r := Totals(
      Sum(packages, StockOf),
      Sum(filteredOrders, Engine.RemainingOf),
      totalIn, totalOut, totalIn - totalOut,
      Sum(filteredOrders, Period.ProfitOf));
    if forall o :: o in filteredOrders ==> Engine.SoundOrderStat(o) then
      Period.ReceivablesNonNegative(filteredOrders);
      r
    else
      r
  }

  /** For the same period the overview and the reports show the same
      receipts, payments and profit. */
  lemma AgreesWithReports(packages: seq<SimPackageWithStats>, orders: seq<SaleOrderWithStats>,
                          txs: seq<Transaction>, start: string, end: string)
    ensures var filteredOrders := Period.OrdersInPeriod(orders, start, end);
            var filteredTxs := Period.TxsInPeriod(txs, start, end);
            var d := ComputeTotals(packages, filteredOrders, filteredTxs);
            var s := Reports.ComputeStats(filteredOrders, filteredTxs);
            d.totalIn == s.totalIn && d.totalOut == s.totalOut && d.totalEstimatedProfit == s.totalProfit
  {
    var filteredTxs := Period.TxsInPeriod(txs, start, end);
    SumFilter(filteredTxs, Period.OfType(In), Engine.TxAmount, Period.InAmount);
    SumFilter(filteredTxs, Period.OfType(Out), Engine.TxAmount, Period.OutAmount);
  }

  function CurrentStockOf(s: InventoryProductStat): int { s.currentStock }
  function ImportedOf(s: InventoryProductStat): int { s.totalImported }

  lemma {:induction false} StockSplit(inventory: seq<InventoryProductStat>)
    requires forall s :: s in inventory ==> s.currentStock == s.totalImported - s.totalSold
    ensures Sum(inventory, CurrentStockOf) == Sum(inventory, ImportedOf) - Sum(inventory, Engine.StatSold)
  {
    if inventory != [] {
      StockSplit(inventory[1..]);
    }
  }

  lemma {:induction false} DashboardStock(inventory: seq<InventoryProductStat>)
    ensures Sum(Engine.DashboardPackages(inventory), StockOf) == Sum(inventory, CurrentStockOf)
  {
    if inventory != [] {
      var p := Engine.DashboardPackages(inventory);
      assert p[1..] == Engine.DashboardPackages(inventory[1..]);
      DashboardStock(inventory[1..]);
    }
  }

  /** The stock card over the aggregated package rows is everything imported
      less every unit sold by an order that names a known SIM type, when SIM
      type ids are distinct. */
  lemma TotalStockBalance(st: Store)
    requires Engine.DistinctIds(st.simTypes)
    ensures var inventory := Engine.InventoryStats(st);
            Sum(Engine.DashboardPackages(inventory), StockOf) ==
            Sum(inventory, ImportedOf) - Sum(st.orders, Engine.MatchedQuantity(st.simTypes, st.packages))
  {
    var inventory := Engine.InventoryStats(st);
    DashboardStock(inventory);
    StockSplit(inventory);
    Engine.SoldConservation(st);
  }

  // ----- today -----

  /** `o => o.date === day` */
  function OnDay(day: string): SaleOrderWithStats -> bool
  {
    (o: SaleOrderWithStats) => o.order.date == day
  }

  datatype TodayStats = TodayStats(revenue: int, profit: int, count: int)

  /** Today's revenue, profit and number of orders, over all orders whatever the period. */
  function ComputeToday(orders: seq<SaleOrderWithStats>, today: string): (r: TodayStats)
    ensures r.count == |Filter(orders, OnDay(today))| && r.count <= |orders|
    ensures r.revenue == Sum(Filter(orders, OnDay(today)), Engine.TotalAmountOf)
    ensures r.profit == Sum(Filter(orders, OnDay(today)), Period.ProfitOf)
    ensures (forall o :: o in orders ==> o.order.date != today) ==> r == TodayStats(0, 0, 0)
  {
    var todays := Filter(orders, OnDay(today));
    var r := TodayStats(Sum(todays, Engine.TotalAmountOf), Sum(todays, Period.ProfitOf), |todays|);
    if forall o :: o in orders ==> o.order.date != today then
      FilterNone(orders, OnDay(today));
      r
    else
      r
  }

  /** When the period includes today, today's orders are among the period's:
      selecting today's orders from the period's gives the same list. */
  lemma TodayWithinPeriod(orders: seq<SaleOrderWithStats>, today: string, start: string, end: string)
    requires InRange(today, start, end)
    ensures Filter(Period.OrdersInPeriod(orders, start, end), OnDay(today)) == Filter(orders, OnDay(today))
  {
    if start == "" && end == "" {
    } else {
      FilterFilter(orders, Period.OrderInPeriod(start, end), OnDay(today), OnDay(today));
    }
  }

  // ----- this week's debts -----

  /** An open order with a due date no later than `nextWeek`. */
  predicate IsDueBy(o: SaleOrderWithStats, nextWeek: string)
  {
    o.remaining > 0 && o.order.dueDate != "" && LessEq(o.order.dueDate, nextWeek)
  }

  /** `o => o.remaining > 0 && o.dueDate && o.dueDate <= nextWeek` */
  function DueBy(nextWeek: string): SaleOrderWithStats -> bool
  {
    (o: SaleOrderWithStats) => IsDueBy(o, nextWeek)
  }

  function DueDateOf(o: SaleOrderWithStats): string { o.order.dueDate }

  /** `weeklyDebtOrders`: the open orders due by `nextWeek` (overdue ones
      included), earliest due date first. */
  function WeeklyDebtOrders(orders: seq<SaleOrderWithStats>, nextWeek: string): (r: seq<SaleOrderWithStats>)
    ensures multiset(r) == multiset(Filter(orders, DueBy(nextWeek)))
    ensures forall o :: o in r <==> o in orders && IsDueBy(o, nextWeek)
    ensures forall i, j :: 0 <= i < j < |r| ==> LessEq(r[i].order.dueDate, r[j].order.dueDate)
  {
    var due := Filter(orders, DueBy(nextWeek));
    var r := SortBy(due, DueDateOf, false);
    assert forall o :: o in r <==> o in multiset(due);
    r
  }

  /** An order the engine marks overdue is on this week's list whenever the
      clock has not passed the end of the week. */
  lemma OverdueIsDueThisWeek(st: Store, inventory: seq<InventoryProductStat>, order: SaleOrder,
                             now: string, nextWeek: string, orders: seq<SaleOrderWithStats>)
    requires Engine.GetOrderStats(st, inventory, order, now) in orders
    requires Engine.GetOrderStats(st, inventory, order, now).isOverdue
    requires LessEq(now, nextWeek)
    ensures Engine.GetOrderStats(st, inventory, order, now) in WeeklyDebtOrders(orders, nextWeek)
  {
    var due := Engine.DueInstant(order.dueDate);
    LessAsymmetric(due, now);
    LessEqTransitive(due, now, nextWeek);
    LessEqTransitive(order.dueDate, due, nextWeek);
  }
}
