/** The cash ledger screen (components/CashFlow.tsx): the period filter, the
    IN/OUT summary, the list of orders still owing money, and the entry form
    whose submit hands a new transaction to the store. */
module CashFlow {
  import opened Types
  import opened Collections
  import opened IsoDate
  import Engine
  import Period

  /** `pendingOrders`: the orders that can still receive a payment. */
  function PendingOrders(orders: seq<SaleOrderWithStats>): (r: seq<SaleOrderWithStats>)
    ensures forall o :: o in r <==> o in orders && o.remaining > 0
  {
    Filter(orders, Period.HasBalance)
  }

  /** `t => t.date >= filterStart` */
  function NotBefore(filterStart: string): Transaction -> bool
  {
    (t: Transaction) => !Less(t.date, filterStart)
  }

  /** `t => t.date <= filterEnd` */
  function NotAfter(filterEnd: string): Transaction -> bool
  {
    (t: Transaction) => !Less(filterEnd, t.date)
  }

  /** `filteredTransactions`: the start bound, then the end bound, each only when set. */
  function FilteredTransactions(txs: seq<Transaction>, filterStart: string, filterEnd: string): seq<Transaction>
  {
    var afterStart := if filterStart != "" then Filter(txs, NotBefore(filterStart)) else txs;
    if filterEnd != "" then Filter(afterStart, NotAfter(filterEnd)) else afterStart
  }

  /** The two-step filter keeps exactly the transactions of the inclusive
      period, so with no bounds it keeps the whole ledger. */
  lemma FilteredTransactionsInPeriod(txs: seq<Transaction>, filterStart: string, filterEnd: string)
    ensures FilteredTransactions(txs, filterStart, filterEnd) == Period.TxsInPeriod(txs, filterStart, filterEnd)
    ensures filterStart == "" && filterEnd == "" ==> FilteredTransactions(txs, filterStart, filterEnd) == txs
  {
    var inPeriod := Period.TxInPeriod(filterStart, filterEnd);
    if filterStart != "" && filterEnd != "" {
      FilterFilter(txs, NotBefore(filterStart), NotAfter(filterEnd), inPeriod);
    } else if filterStart != "" {
      FilterCongruent(txs, NotBefore(filterStart), inPeriod);
    } else if filterEnd != "" {
      FilterCongruent(txs, NotAfter(filterEnd), inPeriod);
    } else {
      FilterAll(txs, inPeriod);
    }
  }

  /** `sortedTransactions`: the filtered ledger, newest first. */
  function SortedTransactions(filtered: seq<Transaction>): (r: seq<Transaction>)
    ensures multiset(r) == multiset(filtered)
    ensures forall i, j :: 0 <= i < j < |r| ==> LessEq(r[j].date, r[i].date)
  {
    var r := SortBy(filtered, Period.TxDate, true);
    assert SortedBy(r, Period.TxDate, true);
    r
  }

  datatype Summary = Summary(totalIn: int, totalOut: int, balance: int)

  /** `summary` over the filtered ledger. */
  function ComputeSummary(filtered: seq<Transaction>): (r: Summary)
    ensures r.totalIn == Period.TotalOf(filtered, In) && r.totalOut == Period.TotalOf(filtered, Out)
    ensures r.balance == Sum(filtered, Period.SignedAmount)
  {
    var totalIn := Period.TotalOf(filtered, In);
    var totalOut := Period.TotalOf(filtered, Out);
    Period.BalanceIsSignedSum(filtered);
    Summary(totalIn, totalOut, totalIn - totalOut)
  }

  /** Sorting the ledger for display leaves the summary unchanged. */
  lemma SortedLedgerSummary(filtered: seq<Transaction>)
    ensures ComputeSummary(SortedTransactions(filtered)) == ComputeSummary(filtered)
  {
    var sorted := SortedTransactions(filtered);
    SumFilter(sorted, Period.OfType(In), Engine.TxAmount, Period.InAmount);
    SumFilter(filtered, Period.OfType(In), Engine.TxAmount, Period.InAmount);
    SumFilter(sorted, Period.OfType(Out), Engine.TxAmount, Period.OutAmount);
    SumFilter(filtered, Period.OfType(Out), Engine.TxAmount, Period.OutAmount);
    SumPermutation(sorted, filtered, Period.InAmount);
    SumPermutation(sorted, filtered, Period.OutAmount);
  }

  /** The entry form's fields. */
  datatype CashForm = CashForm(
    date: string,
    amount: int,
    category: string,
    txMethod: TxMethod,
    saleOrderId: string,
    note: string)

  /** `o => o.id === orderId` */
  function OrderWithId(orderId: string): SaleOrderWithStats -> bool
  {
    (o: SaleOrderWithStats) => o.order.id == orderId
  }

  /** The screen's state; `added` lists the transactions handed to `onAdd`. */
  class CashFlowScreen {
    var transactionType: TxType
    var formData: CashForm
    var isModalOpen: bool
    var added: seq<Transaction>

    /** The initial form: today's date, no amount, receipts from wholesale. */
    constructor (today: string)
      ensures transactionType == In && !isModalOpen && added == []
      ensures formData == CashForm(today, 0, "Thu bán sỉ", Transfer, "", "")
    {
      transactionType := In;
      formData := CashForm(today, 0, "Thu bán sỉ", Transfer, "", "");
      isModalOpen := false;
      added := [];
    }

    /** `handleSubmit`: emits one transaction of the current type (an empty
        order link becomes no link), closes the form and clears amount, link
        and note while keeping date, category and method. */
    method HandleSubmit(id: string, code: string)
      modifies this
      ensures added == old(added) + [Transaction(id, code, old(formData).date, old(transactionType),
                                                 old(formData).category, old(formData).amount, old(formData).txMethod,
                                                 if old(formData).saleOrderId == "" then None else Some(old(formData).saleOrderId),
                                                 None, old(formData).note)]
      ensures formData == old(formData).(amount := 0, saleOrderId := "", note := "")
      ensures transactionType == old(transactionType) && !isModalOpen
    {
      var link := if formData.saleOrderId == "" then None else Some(formData.saleOrderId);
      var tx := Transaction(id, code, formData.date, transactionType, formData.category,
                            formData.amount, formData.txMethod, link, None, formData.note);
      added := added + [tx];
      isModalOpen := false;
      formData := formData.(amount := 0, saleOrderId := "", note := "");
    }

    /** `handleTypeChange`: the category follows the direction and the order
        link is cleared; nothing else changes. */
    method HandleTypeChange(ty: TxType)
      modifies this
      ensures transactionType == ty
      ensures formData == old(formData).(category := if ty == In then "Thu bán sỉ" else "Chi nhập SIM", saleOrderId := "")
      ensures added == old(added) && isModalOpen == old(isModalOpen)
    {
      transactionType := ty;
      formData := formData.(category := if ty == In then "Thu bán sỉ" else "Chi nhập SIM", saleOrderId := "");
    }

    /** Choosing an order in the link list: the amount is filled with the
        order's remaining balance only if the order exists and no amount has
        been typed yet. */
    method LinkOrder(orderId: string, orders: seq<SaleOrderWithStats>)
      modifies this
      ensures formData.saleOrderId == orderId
      ensures formData.date == old(formData).date && formData.category == old(formData).category
      ensures formData.txMethod == old(formData).txMethod && formData.note == old(formData).note
      ensures old(formData).amount == 0 ==>
                forall i :: 0 <= i < |orders| && orders[i].order.id == orderId &&
                            (forall k :: 0 <= k < i ==> orders[k].order.id != orderId) ==>
                  formData.amount == orders[i].remaining
      ensures !((exists o :: o in orders && o.order.id == orderId) && old(formData).amount == 0) ==>
                formData.amount == old(formData).amount
      ensures transactionType == old(transactionType) && added == old(added) && isModalOpen == old(isModalOpen)
    {
      var order := Find(orders, OrderWithId(orderId));
      if order.Some? && formData.amount == 0 {
        formData := formData.(saleOrderId := orderId, amount := order.value.remaining);
      } else {
        formData := formData.(saleOrderId := orderId);
      }
    }
  }
}
