/** The sales screen (components/SalesList.tsx): the product picker, the list
    of orders of the active tab, and the order form, whose submit creates an
    order and, for a sale paid up front, the receipt that settles it. */
module SalesList {
  import opened Types
  import opened Collections
  import opened IsoDate
  import Engine
  import Period

  /** `p => p.currentStock > 0` */
  predicate InStock(s: InventoryProductStat)
  {
    s.currentStock > 0
  }

  /** `availableProducts`: the SIM types that can still be sold. */
  function AvailableProducts(inventory: seq<InventoryProductStat>): (r: seq<InventoryProductStat>)
    ensures forall s :: s in r <==> s in inventory && s.currentStock > 0
  {
    Filter(inventory, InStock)
  }

  /** `o => o.saleType === tab` */
  function OfSaleType(tab: SaleType): SaleOrderWithStats -> bool
  {
    (o: SaleOrderWithStats) => o.order.saleType == tab
  }

  /** `filteredOrders`: the orders of the active tab, newest first. */
  function FilteredOrders(orderStats: seq<SaleOrderWithStats>, tab: SaleType): (r: seq<SaleOrderWithStats>)
    ensures multiset(r) == multiset(Filter(orderStats, OfSaleType(tab)))
    ensures forall o :: o in r <==> o in orderStats && o.order.saleType == tab
    ensures forall i, j :: 0 <= i < j < |r| ==> LessEq(r[j].order.date, r[i].order.date)
  {
    var mine := Filter(orderStats, OfSaleType(tab));
    var r := SortBy(mine, Period.OrderDate, true);
    assert forall o :: o in r <==> o in multiset(mine);
    r
  }

  /** The order form's fields. */
  datatype SaleForm = SaleForm(
    customerId: string,
    retailCustomerInfo: string,
    simTypeId: string,
    quantity: int,
    salePrice: int,
    date: string,
    dueDate: string,
    note: string)

  /** `resetForm`'s field values, dated `today`. */
  function BlankForm(today: string): SaleForm
  {
    SaleForm("", "", "", 1, 0, today, "", "")
  }

  /** The buyer name written on the order. */
  function AgentName(tab: SaleType, form: SaleForm, customers: seq<Customer>): (r: string)
    ensures tab == Wholesale && (forall c :: c in customers ==> c.id != form.customerId) ==> r == "Đại lý"
    ensures tab == Wholesale && (exists c :: c in customers && c.id == form.customerId) ==>
              exists c :: c in customers && c.id == form.customerId && r == c.name
    ensures tab == Wholesale ==>
              forall i :: 0 <= i < |customers| && customers[i].id == form.customerId &&
                          (forall k :: 0 <= k < i ==> customers[k].id != form.customerId) ==>
                r == customers[i].name
    ensures tab == Retail ==> r == if form.retailCustomerInfo != "" then form.retailCustomerInfo else "Khách lẻ"
  {
    if tab == Wholesale then
      var c := Find(customers, Engine.CustomerWithId(Some(form.customerId)));
      if c.Some? then c.value.name else "Đại lý"
    else if form.retailCustomerInfo != "" then form.retailCustomerInfo
    else "Khách lẻ"
  }

  /** The note, prefixed with the one-off buyer for retail sales. */
  function OrderNote(tab: SaleType, form: SaleForm): (r: string)
    ensures tab == Retail && form.retailCustomerInfo != "" ==>
              r == "Khách: " + form.retailCustomerInfo + ". " + form.note
    ensures !(tab == Retail && form.retailCustomerInfo != "") ==> r == form.note
    ensures |form.note| <= |r| && r[|r| - |form.note|..] == form.note
  {
    if tab == Retail && form.retailCustomerInfo != "" then
      "Khách: " + form.retailCustomerInfo + ". " + form.note
    else
      form.note
  }

  /** `newOrder` of `handleSubmit`. */
  function NewOrder(orderId: string, orderCode: string, tab: SaleType, isPaid: bool,
                    form: SaleForm, customers: seq<Customer>): (r: SaleOrder)
    ensures r.id == orderId && r.code == orderCode && r.date == form.date
    ensures r.saleType == tab && r.simTypeId == form.simTypeId && r.simPackageId == None
    ensures r.quantity == form.quantity && r.salePrice == form.salePrice
    ensures r.note == OrderNote(tab, form)
    ensures r.dueDateChanges == Some(0) && r.isFinished == isPaid
    ensures r.dueDate == if isPaid then "" else form.dueDate
    ensures r.customerId == if tab == Wholesale then Some(form.customerId) else None
    ensures r.agentName == AgentName(tab, form, customers)
  {
    SaleOrder(
      orderId, orderCode, form.date,
      if tab == Wholesale then Some(form.customerId) else None,
      AgentName(tab, form, customers),
      tab, form.simTypeId, None,
      form.quantity, form.salePrice,
      if isPaid then "" else form.dueDate,
      Some(0),
      OrderNote(tab, form),
      isPaid)
  }

  function ReceiptCategory(tab: SaleType): string
  {
    if tab == Wholesale then "Thu bán sỉ" else "Thu bán lẻ"
  }

  /** The automatic receipt of a sale paid at creation. */
  function AutoPayment(txId: string, txCode: string, order: SaleOrder, payMethod: TxMethod): (r: Transaction)
    ensures r.txType == In && r.saleOrderId == Some(order.id)
    ensures r.amount == order.quantity * order.salePrice && r.date == order.date
    ensures r.id == txId && r.code == txCode && r.txMethod == payMethod && r.simPackageId == None
    ensures r.category == (if order.saleType == Wholesale then "Thu bán sỉ" else "Thu bán lẻ")
    ensures r.note == "Tự động: " + r.category + " đơn " + order.code
  {
    Transaction(
      txId, txCode, order.date, In, ReceiptCategory(order.saleType),
      order.quantity * order.salePrice, payMethod, Some(order.id), None,
      "Tự động: " + ReceiptCategory(order.saleType) + " đơn " + order.code)
  }

  /** An order paid at creation is settled as soon as its receipt is in the
      ledger, provided no other receipt linked to it is negative. */
  lemma {:induction false} PaidAtCreationIsSettled(
    st: Store, inventory: seq<InventoryProductStat>, now: string,
    order: SaleOrder, txId: string, txCode: string, payMethod: TxMethod,
    before: seq<Transaction>, after: seq<Transaction>)
    requires st.transactions == before + [AutoPayment(txId, txCode, order, payMethod)] + after
    requires forall t :: t in before + after && t.saleOrderId == Some(order.id) && t.txType == In ==> t.amount >= 0
    ensures var r := Engine.GetOrderStats(st, inventory, order, now);
            r.remaining == 0 && r.status == Paid && r.debtLevel == Normal && !r.isOverdue && !r.isBadDebt
  {
    var tx := AutoPayment(txId, txCode, order, payMethod);
    var p := Engine.PaymentFor(order.id);
    FilterAppend(before + [tx], after, p);
    FilterAppend(before, [tx], p);
    SumAppend(Filter(before, p) + Filter([tx], p), Filter(after, p), Engine.TxAmount);
    SumAppend(Filter(before, p), Filter([tx], p), Engine.TxAmount);
    SumNonNegative(Filter(before, p), Engine.TxAmount);
    SumNonNegative(Filter(after, p), Engine.TxAmount);
  }

  /** Under the engine, a new order is shown under the name written on it. */
  lemma NewOrderDisplayName(st: Store, inventory: seq<InventoryProductStat>, now: string,
                            orderId: string, orderCode: string, tab: SaleType, isPaid: bool, form: SaleForm)
    ensures var o := NewOrder(orderId, orderCode, tab, isPaid, form, st.customers);
            Engine.GetOrderStats(st, inventory, o, now).customerName == o.agentName
  {
  }

  /** A new order adds its quantity to the sales of its own SIM type only. */
  lemma NewOrderSold(orders: seq<SaleOrder>, packages: seq<SimPackage>, typeId: string,
                     orderId: string, orderCode: string, tab: SaleType, isPaid: bool,
                     form: SaleForm, customers: seq<Customer>)
    requires form.simTypeId != ""
    ensures var o := NewOrder(orderId, orderCode, tab, isPaid, form, customers);
            Engine.TotalSold(orders + [o], typeId, packages) ==
            Engine.TotalSold(orders, typeId, packages) + (if typeId == form.simTypeId then form.quantity else 0)
  {
    Engine.TotalSoldAppend(orders, NewOrder(orderId, orderCode, tab, isPaid, form, customers), typeId, packages);
  }

  /** The calls `handleSubmit` makes on the store, in order. */
  datatype StoreCall = AddTransaction(tx: Transaction) | AddOrder(order: SaleOrder)

  /** The screen's state; `calls` lists what was handed to `onAddTransaction` and `onAdd`. */
  class SalesScreen {
    var activeTab: SaleType
    var isModalOpen: bool
    var isPaid: bool
    var paymentMethod: TxMethod
    var formData: SaleForm
    var calls: seq<StoreCall>

    constructor (today: string)
      ensures activeTab == Wholesale && !isModalOpen && isPaid && paymentMethod == Transfer
      ensures formData == BlankForm(today) && calls == []
    {
      activeTab := Wholesale;
      isModalOpen := false;
      isPaid := true;
      paymentMethod := Transfer;
      formData := BlankForm(today);
      calls := [];
    }

    /** `handleSubmit`: without a SIM type nothing happens; otherwise the
        receipt (for a paid sale) and then the order are handed to the store,
        the form closes and is reset. */
    method HandleSubmit(customers: seq<Customer>, orderId: string, orderCode: string,
                        txId: string, txCode: string, today: string)
      modifies this
      ensures old(formData).simTypeId == "" ==>
                calls == old(calls) && formData == old(formData) && isPaid == old(isPaid) &&
                paymentMethod == old(paymentMethod) && isModalOpen == old(isModalOpen)
      ensures old(formData).simTypeId != "" ==>
                var o := NewOrder(orderId, orderCode, old(activeTab), old(isPaid), old(formData), customers);
                && calls == old(calls) + (if old(isPaid) then [AddTransaction(AutoPayment(txId, txCode, o, old(paymentMethod)))] else [])
                                       + [AddOrder(o)]
                && formData == BlankForm(today) && isPaid && paymentMethod == Transfer && !isModalOpen
      ensures activeTab == old(activeTab)
    {
      if formData.simTypeId == "" {
        return;
      }
      var order := NewOrder(orderId, orderCode, activeTab, isPaid, formData, customers);
      if isPaid {
        calls := calls + [AddTransaction(AutoPayment(txId, txCode, order, paymentMethod))];
      }
      calls := calls + [AddOrder(order)];
      isModalOpen := false;
      formData := BlankForm(today);
      isPaid := true;
      paymentMethod := Transfer;
    }
  }
}
