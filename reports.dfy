/** The reports screen (components/Reports.tsx): the list of orders still
    owing money, the period totals, the month-by-month breakdown behind the
    two charts, and the form that moves an order's due date and logs why. */
module Reports {
  import opened Types
  import opened Collections
  import opened IsoDate
  import Engine
  import Period

  /** `debtOrders`: every order with an outstanding balance, whatever its date. */
  function DebtOrders(orders: seq<SaleOrderWithStats>): (r: seq<SaleOrderWithStats>)
    ensures forall o :: o in r <==> o in orders && o.remaining > 0
  {
    Filter(orders, Period.HasBalance)
  }

  datatype StatsData = StatsData(totalRevenue: int, totalProfit: int, totalIn: int, totalOut: int)

  /** `statsData` over the already filtered orders and transactions. */
  function ComputeStats(filteredOrders: seq<SaleOrderWithStats>, filteredTxs: seq<Transaction>): (r: StatsData)
    ensures r.totalRevenue == Sum(filteredOrders, Engine.TotalAmountOf)
    ensures r.totalProfit == Sum(filteredOrders, Period.ProfitOf)
    ensures r.totalIn == Sum(filteredTxs, Period.InAmount) && r.totalOut == Sum(filteredTxs, Period.OutAmount)
    ensures r.totalIn - r.totalOut == Sum(filteredTxs, Period.SignedAmount)
  {
    SumFilter(filteredTxs, Period.OfType(In), Engine.TxAmount, Period.InAmount);
    SumFilter(filteredTxs, Period.OfType(Out), Engine.TxAmount, Period.OutAmount);
    Period.BalanceIsSignedSum(filteredTxs);
    StatsData(
      Sum(filteredOrders, Engine.TotalAmountOf),
      Sum(filteredOrders, Period.ProfitOf),
      Period.TotalOf(filteredTxs, In),
      Period.TotalOf(filteredTxs, Out))
  }

  // ----- the monthly breakdown -----

  /** One bar of the charts: a month key, its receipts, payments and profit. */
  datatype MonthRow = MonthRow(name: string, thu: int, chi: int, profit: int)

  function RowThu(r: MonthRow): int { r.thu }
  function RowChi(r: MonthRow): int { r.chi }
  function RowProfit(r: MonthRow): int { r.profit }

  /** `x => date(x).startsWith(m)` */
  function InMonth<T>(date: T -> string, m: string): T -> bool
  {
    (x: T) => StartsWith(date(x), m)
  }

  /** The row of month `m`: the transactions and orders whose date starts with `m`. */
  function MonthRowFor(txs: seq<Transaction>, orders: seq<SaleOrderWithStats>, m: string): (r: MonthRow)
    ensures r.name == m
    ensures r.thu == Sum(Filter(txs, InMonth(Period.TxDate, m)), Period.InAmount)
    ensures r.chi == Sum(Filter(txs, InMonth(Period.TxDate, m)), Period.OutAmount)
    ensures r.profit == Sum(Filter(orders, InMonth(Period.OrderDate, m)), Period.ProfitOf)
  {
    var monthTxs := Filter(txs, InMonth(Period.TxDate, m));
    var monthOrders := Filter(orders, InMonth(Period.OrderDate, m));
    SumFilter(monthTxs, Period.OfType(In), Engine.TxAmount, Period.InAmount);
    SumFilter(monthTxs, Period.OfType(Out), Engine.TxAmount, Period.OutAmount);
    MonthRow(m, Period.TotalOf(monthTxs, In), Period.TotalOf(monthTxs, Out), Sum(monthOrders, Period.ProfitOf))
  }

  function Identity(s: string): string { s }

  /** `m` is the month key of some transaction or order of the period. */
  predicate IsMonthOf(txs: seq<Transaction>, orders: seq<SaleOrderWithStats>, m: string)
  {
    (exists k :: 0 <= k < |txs| && MonthKey(txs[k].date) == m) ||
    (exists k :: 0 <= k < |orders| && MonthKey(orders[k].order.date) == m)
  }

  function Names(rows: seq<MonthRow>): (r: seq<string>)
    ensures |r| == |rows| && forall i :: 0 <= i < |rows| ==> r[i] == rows[i].name
  {
    if rows == [] then [] else [rows[0].name] + Names(rows[1..])
  }

  /** `monthlyData`: collects the distinct month keys of the transactions and
      then of the orders, sorts them, and builds one row per month. */
  method MonthlyData(txs: seq<Transaction>, orders: seq<SaleOrderWithStats>) returns (rows: seq<MonthRow>)
    ensures forall i :: 0 <= i < |rows| ==> rows[i] == MonthRowFor(txs, orders, rows[i].name)
    ensures forall i, j :: 0 <= i < j < |rows| ==> Less(rows[i].name, rows[j].name)
    ensures forall m :: IsMonthOf(txs, orders, m) <==> m in Names(rows)
  {
    var months: seq<string> := [];
    var i := 0;
    while i < |txs|
      invariant 0 <= i <= |txs|
      invariant Distinct(months)
      invariant forall m :: m in months <==> exists k :: 0 <= k < i && MonthKey(txs[k].date) == m
    {
      var key := MonthKey(txs[i].date);
      if key !in months {
        months := months + [key];
      }
      i := i + 1;
    }
    var j := 0;
    while j < |orders|
      invariant 0 <= j <= |orders|
      invariant Distinct(months)
      invariant forall m :: m in months <==>
                  (exists k :: 0 <= k < |txs| && MonthKey(txs[k].date) == m) ||
                  (exists k :: 0 <= k < j && MonthKey(orders[k].order.date) == m)
    {
      var key := MonthKey(orders[j].order.date);
      if key !in months {
        months := months + [key];
      }
      j := j + 1;
    }
    var sorted := SortBy(months, Identity, false);
    assert |sorted| == |multiset(sorted)| == |months|;
    rows := seq(|sorted|, k requires 0 <= k < |sorted| => MonthRowFor(txs, orders, sorted[k]));
    SortedMonthRows(txs, orders, months, sorted, rows);
  }

  /** The rows built from the sorted distinct month keys of the records. */
  lemma SortedMonthRows(txs: seq<Transaction>, orders: seq<SaleOrderWithStats>, months: seq<string>,
                        sorted: seq<string>, rows: seq<MonthRow>)
    requires Distinct(months)
    requires forall m :: m in months <==> IsMonthOf(txs, orders, m)
    requires sorted == SortBy(months, Identity, false)
    requires |rows| == |sorted|
    requires forall k :: 0 <= k < |sorted| ==> rows[k] == MonthRowFor(txs, orders, sorted[k])
    ensures forall i :: 0 <= i < |rows| ==> rows[i] == MonthRowFor(txs, orders, rows[i].name)
    ensures forall i, j :: 0 <= i < j < |rows| ==> Less(rows[i].name, rows[j].name)
    ensures forall m :: IsMonthOf(txs, orders, m) <==> m in Names(rows)
  {
    DistinctPermutation(sorted, months);
    forall a, b | 0 <= a < b < |rows|
      ensures Less(rows[a].name, rows[b].name)
    {
      SortedDistinctStrict(sorted, Identity, a, b);
    }
    assert Names(rows) == sorted;
    forall m
      ensures m in sorted <==> m in months
    {
      assert m in sorted <==> m in multiset(sorted);
      assert m in months <==> m in multiset(months);
    }
  }

  // ----- the monthly columns add up to the period totals -----

  /** The total of `v` over the records of each month of `ms`, added up. */
  function SumOverMonths<T(!new)>(ms: seq<string>, xs: seq<T>, date: T -> string, v: T -> int): int
  {
    if ms == [] then 0 else Sum(Filter(xs, InMonth(date, ms[0])), v) + SumOverMonths(ms[1..], xs, date, v)
  }

  lemma {:induction false} SumOverMonthsAppend<T(!new)>(ms: seq<string>, a: seq<T>, b: seq<T>, date: T -> string, v: T -> int)
    ensures SumOverMonths(ms, a + b, date, v) == SumOverMonths(ms, a, date, v) + SumOverMonths(ms, b, date, v)
  {
    if ms != [] {
      SumOverMonthsAppend(ms[1..], a, b, date, v);
      FilterAppend(a, b, InMonth(date, ms[0]));
      SumAppend(Filter(a, InMonth(date, ms[0])), Filter(b, InMonth(date, ms[0])), v);
    }
  }

  /** Records of no listed month contribute nothing. */
  lemma {:induction false} SumOverMonthsNone<T(!new)>(ms: seq<string>, xs: seq<T>, date: T -> string, v: T -> int)
    requires forall m :: m in ms ==> |m| == 7
    requires forall x :: x in xs ==> |date(x)| >= 7 && MonthKey(date(x)) !in ms
    ensures SumOverMonths(ms, xs, date, v) == 0
  {
    if ms != [] {
      SumOverMonthsNone(ms[1..], xs, date, v);
      forall x | x in xs
        ensures !InMonth(date, ms[0])(x)
      {
        StartsWithMonth(date(x), ms[0]);
      }
      FilterNone(xs, InMonth(date, ms[0]));
    }
  }

  /** A record of a listed month is counted exactly once. */
  lemma {:induction false} SumOverMonthsOne<T(!new)>(ms: seq<string>, x: T, date: T -> string, v: T -> int)
    requires Distinct(ms) && forall m :: m in ms ==> |m| == 7
    requires |date(x)| >= 7 && MonthKey(date(x)) in ms
    ensures SumOverMonths(ms, [x], date, v) == v(x)
  {
    StartsWithMonth(date(x), ms[0]);
    assert [x][1..] == [];
    assert Sum([x], v) == v(x);
    if MonthKey(date(x)) == ms[0] {
      assert Filter([x], InMonth(date, ms[0])) == [x] by {
        assert [x][1..] == [];
      }
      assert ms[0] !in ms[1..];
      SumOverMonthsNone(ms[1..], [x], date, v);
    } else {
      assert Filter([x], InMonth(date, ms[0])) == [] by {
        assert [x][1..] == [];
      }
      SumOverMonthsOne(ms[1..], x, date, v);
    }
  }

  /** Splitting by distinct months that cover every record loses and doubles nothing. */
  lemma {:induction false} MonthsPartition<T(!new)>(ms: seq<string>, xs: seq<T>, date: T -> string, v: T -> int)
    requires Distinct(ms) && forall m :: m in ms ==> |m| == 7
    requires forall x :: x in xs ==> |date(x)| >= 7 && MonthKey(date(x)) in ms
    ensures SumOverMonths(ms, xs, date, v) == Sum(xs, v)
  {
    if xs == [] {
      SumOverMonthsNone(ms, xs, date, v);
    } else {
      assert xs == [xs[0]] + xs[1..];
      SumOverMonthsAppend(ms, [xs[0]], xs[1..], date, v);
      SumOverMonthsOne(ms, xs[0], date, v);
      MonthsPartition(ms, xs[1..], date, v);
    }
  }

  /** Each column of rows built by `MonthRowFor` is the per-month sum over their names. */
  lemma {:induction false} ColumnsOverMonths(txs: seq<Transaction>, orders: seq<SaleOrderWithStats>, rows: seq<MonthRow>)
    requires forall i :: 0 <= i < |rows| ==> rows[i] == MonthRowFor(txs, orders, rows[i].name)
    ensures Sum(rows, RowThu) == SumOverMonths(Names(rows), txs, Period.TxDate, Period.InAmount)
    ensures Sum(rows, RowChi) == SumOverMonths(Names(rows), txs, Period.TxDate, Period.OutAmount)
    ensures Sum(rows, RowProfit) == SumOverMonths(Names(rows), orders, Period.OrderDate, Period.ProfitOf)
  {
    if rows != [] {
      ColumnsOverMonths(txs, orders, rows[1..]);
      assert Names(rows)[1..] == Names(rows[1..]);
    }
  }

  /** Strictly ascending names are distinct. */
  lemma AscendingNamesDistinct(rows: seq<MonthRow>)
    requires forall i, j :: 0 <= i < j < |rows| ==> Less(rows[i].name, rows[j].name)
    ensures Distinct(Names(rows))
  {
    var ms := Names(rows);
    forall i, j | 0 <= i < j < |ms|
      ensures ms[i] != ms[j]
    {
      if ms[i] == ms[j] {
        LessIrreflexive(ms[i]);
      }
    }
  }

  /** Every month key of full-length dates is seven characters long. */
  lemma MonthKeysFull(txs: seq<Transaction>, orders: seq<SaleOrderWithStats>, m: string)
    requires forall t :: t in txs ==> |t.date| >= 7
    requires forall o :: o in orders ==> |o.order.date| >= 7
    requires IsMonthOf(txs, orders, m)
    ensures |m| == 7
  {
    if exists k :: 0 <= k < |txs| && MonthKey(txs[k].date) == m {
      var k :| 0 <= k < |txs| && MonthKey(txs[k].date) == m;
      assert txs[k] in txs;
    } else {
      var k :| 0 <= k < |orders| && MonthKey(orders[k].order.date) == m;
      assert orders[k] in orders;
    }
  }

  /** Names that are exactly the month keys of the records cover every record. */
  lemma NamesCover(txs: seq<Transaction>, orders: seq<SaleOrderWithStats>, rows: seq<MonthRow>)
    requires forall t :: t in txs ==> |t.date| >= 7
    requires forall o :: o in orders ==> |o.order.date| >= 7
    requires forall m :: IsMonthOf(txs, orders, m) <==> m in Names(rows)
    ensures forall m :: m in Names(rows) ==> |m| == 7
    ensures forall t :: t in txs ==> MonthKey(Period.TxDate(t)) in Names(rows)
    ensures forall o :: o in orders ==> MonthKey(Period.OrderDate(o)) in Names(rows)
  {
    var ms := Names(rows);
    forall m | m in ms
      ensures |m| == 7
    {
      MonthKeysFull(txs, orders, m);
    }
    forall t | t in txs
      ensures MonthKey(Period.TxDate(t)) in ms
    {
      var k :| 0 <= k < |txs| && txs[k] == t;
      assert IsMonthOf(txs, orders, MonthKey(t.date));
    }
    forall o | o in orders
      ensures MonthKey(Period.OrderDate(o)) in ms
    {
      var k :| 0 <= k < |orders| && orders[k] == o;
      assert IsMonthOf(txs, orders, MonthKey(o.order.date));
    }
  }

  /** The chart's months add up to the period's totals: the receipts, the
      payments and the profit of every record land in exactly one month,
      provided every date is at least a calendar month "YYYY-MM" long. */
  lemma MonthlyColumnsTotal(txs: seq<Transaction>, orders: seq<SaleOrderWithStats>, rows: seq<MonthRow>)
    requires forall t :: t in txs ==> |t.date| >= 7
    requires forall o :: o in orders ==> |o.order.date| >= 7
    requires forall i :: 0 <= i < |rows| ==> rows[i] == MonthRowFor(txs, orders, rows[i].name)
    requires forall i, j :: 0 <= i < j < |rows| ==> Less(rows[i].name, rows[j].name)
    requires forall m :: IsMonthOf(txs, orders, m) <==> m in Names(rows)
    ensures Sum(rows, RowThu) == ComputeStats(orders, txs).totalIn
    ensures Sum(rows, RowChi) == ComputeStats(orders, txs).totalOut
    ensures Sum(rows, RowProfit) == ComputeStats(orders, txs).totalProfit
  {
    AscendingNamesDistinct(rows);
    NamesCover(txs, orders, rows);
    ColumnsOverMonths(txs, orders, rows);
    MonthsPartition(Names(rows), txs, Period.TxDate, Period.InAmount);
    MonthsPartition(Names(rows), txs, Period.TxDate, Period.OutAmount);
    MonthsPartition(Names(rows), orders, Period.OrderDate, Period.ProfitOf);
  }

  // ----- moving a due date -----

  /** One call of `onUpdateDueDate`: the order, its new due date and the log entry. */
  datatype DueDateUpdate = DueDateUpdate(orderId: string, newDate: string, log: DueDateLog)

  /** The due-date form's state; `updates` lists what was handed to `onUpdateDueDate`. */
  class DueDateEditor {
    var isModalOpen: bool
    var selectedOrder: Option<SaleOrderWithStats>
    var newDueDate: string
    var reason: string
    var updates: seq<DueDateUpdate>

    constructor ()
      ensures !isModalOpen && selectedOrder.None? && newDueDate == "" && reason == "" && updates == []
    {
      isModalOpen := false;
      selectedOrder := None;
      newDueDate := "";
      reason := "";
      updates := [];
    }

    /** The "extend" button: selects the order and proposes its current due date. */
    method Open(order: SaleOrderWithStats)
      modifies this
      ensures selectedOrder == Some(order) && newDueDate == order.order.dueDate && isModalOpen
      ensures reason == old(reason) && updates == old(updates)
    {
      selectedOrder := Some(order);
      newDueDate := order.order.dueDate;
      isModalOpen := true;
    }

    /** `handleUpdateSubmit`: with no order selected nothing happens; otherwise
        the change is handed on with a log of the previous and the new date,
        the form closes and the reason is cleared. */
    method HandleUpdateSubmit(logId: string, updatedAt: string)
      modifies this
      ensures old(selectedOrder).None? ==>
                updates == old(updates) && isModalOpen == old(isModalOpen) && reason == old(reason)
      ensures old(selectedOrder).Some? ==>
                var o := old(selectedOrder).value.order;
                && updates == old(updates) + [DueDateUpdate(o.id, old(newDueDate),
                                                DueDateLog(logId, o.id, o.dueDate, old(newDueDate), old(reason), updatedAt))]
                && !isModalOpen && reason == ""
      ensures selectedOrder == old(selectedOrder) && newDueDate == old(newDueDate)
    {
      if selectedOrder.None? {
        return;
      }
      var o := selectedOrder.value.order;
      var log := DueDateLog(logId, o.id, o.dueDate, newDueDate, reason, updatedAt);
      updates := updates + [DueDateUpdate(o.id, newDueDate, log)];
      isModalOpen := false;
      reason := "";
    }
  }
}
