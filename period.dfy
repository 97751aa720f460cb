/** The reductions the Reports and Dashboard screens (and the cash-flow
    summary) share: keeping the records of a period and totalling money by
    direction, by order amount, profit and outstanding balance. */
module Period {
  import opened Types
  import opened Collections
  import opened IsoDate
  import Engine

  function OrderDate(o: SaleOrderWithStats): string { o.order.date }
  function TxDate(t: Transaction): string { t.date }
  function ProfitOf(o: SaleOrderWithStats): int { o.profit }

  /** The period test of Reports.tsx and Dashboard.tsx for an order. */
  function OrderInPeriod(start: string, end: string): SaleOrderWithStats -> bool
  {
    (o: SaleOrderWithStats) => InRange(o.order.date, start, end)
  }

  /** The period test of Reports.tsx and Dashboard.tsx for a transaction. */
  function TxInPeriod(start: string, end: string): Transaction -> bool
  {
    (t: Transaction) => InRange(t.date, start, end)
  }

  /** `orders.filter(...)` by inclusive period bounds, an empty bound skipped. */
  function OrdersInPeriod(orders: seq<SaleOrderWithStats>, start: string, end: string): (r: seq<SaleOrderWithStats>)
    ensures forall o :: o in r <==> o in orders && InRange(o.order.date, start, end)
    ensures start == "" && end == "" ==> r == orders
  {
    var r := Filter(orders, OrderInPeriod(start, end));
    assert start == "" && end == "" ==> r == orders by {
      if start == "" && end == "" { FilterAll(orders, OrderInPeriod(start, end)); }
    }
    r
  }

  /** `transactions.filter(...)` by inclusive period bounds, an empty bound skipped. */
  function TxsInPeriod(txs: seq<Transaction>, start: string, end: string): (r: seq<Transaction>)
    ensures forall t :: t in r <==> t in txs && InRange(t.date, start, end)
    ensures start == "" && end == "" ==> r == txs
  {
    var r := Filter(txs, TxInPeriod(start, end));
    assert start == "" && end == "" ==> r == txs by {
      if start == "" && end == "" { FilterAll(txs, TxInPeriod(start, end)); }
    }
    r
  }

  /** `o => o.remaining > 0`: an order that still owes money. */
  predicate HasBalance(o: SaleOrderWithStats)
  {
    o.remaining > 0
  }

  /** `t => t.type === ty` */
  function OfType(ty: TxType): Transaction -> bool
  {
    (t: Transaction) => t.txType == ty
  }

  /** `txs.filter(t => t.type === ty).reduce((s, t) => s + t.amount, 0)` */
  function TotalOf(txs: seq<Transaction>, ty: TxType): int
  {
    Sum(Filter(txs, OfType(ty)), Engine.TxAmount)
  }

  /** A transaction's effect on the cash balance: receipts add, payments subtract. */
  function SignedAmount(t: Transaction): int
  {
    if t.txType == In then t.amount else -t.amount
  }

  function InAmount(t: Transaction): int { if t.txType == In then t.amount else 0 }
  function OutAmount(t: Transaction): int { if t.txType == Out then t.amount else 0 }

  /** The balance `totalIn - totalOut` is the signed sum of the ledger. */
  lemma {:induction false} BalanceIsSignedSum(txs: seq<Transaction>)
    ensures TotalOf(txs, In) - TotalOf(txs, Out) == Sum(txs, SignedAmount)
  {
    SumFilter(txs, OfType(In), Engine.TxAmount, InAmount);
    SumFilter(txs, OfType(Out), Engine.TxAmount, OutAmount);
    SignedSplit(txs);
  }

  lemma {:induction false} SignedSplit(txs: seq<Transaction>)
    ensures Sum(txs, InAmount) - Sum(txs, OutAmount) == Sum(txs, SignedAmount)
  {
    if txs != [] {
      SignedSplit(txs[1..]);
    }
  }

  /** The outstanding balance of a set of orders is never negative. */
  lemma ReceivablesNonNegative(orders: seq<SaleOrderWithStats>)
    requires forall o :: o in orders ==> Engine.SoundOrderStat(o)
    ensures Sum(orders, Engine.RemainingOf) >= 0
  {
    SumNonNegative(orders, Engine.RemainingOf);
  }
}
