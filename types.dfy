/** Records of the SIM back office (types.ts), as immutable values.
    Money and quantities are unbounded integers; dates are ISO 8601 strings. */
module Types {

  datatype Option<+T> = None | Some(value: T)

  /** JavaScript truthiness of an optional string: set and not empty. */
  predicate Present(s: Option<string>)
  {
    s.Some? && s.value != ""
  }

  datatype SaleType = Wholesale | Retail
  datatype TxType = In | Out
  datatype TxMethod = Cash | Transfer | Cod
  datatype StockStatus = Ok | LowStock
  datatype PaymentStatus = Paid | Partial | Unpaid
  datatype DebtLevel = Normal | Warning | Overdue | Recovery

  datatype SimType = SimType(id: string, name: string)

  /** One import batch; its `name` is what legacy orders display. */
  datatype SimPackage = SimPackage(
    id: string,
    code: string,
    name: string,
    simTypeId: Option<string>,
    importDate: string,
    quantity: int,
    totalImportPrice: int)

  datatype Customer = Customer(
    id: string,
    cid: string,
    name: string,
    phone: string,
    email: string,
    address: string,
    customerType: SaleType,
    note: string)

  /** A sale. `simTypeId` and `dueDate` are declared as strings: "" means unset
      (legacy orders carry only `simPackageId`; orders paid up front get no due date).
      `dueDateChanges` is None for records stored without a count. */
  datatype SaleOrder = SaleOrder(
    id: string,
    code: string,
    date: string,
    customerId: Option<string>,
    agentName: string,
    saleType: SaleType,
    simTypeId: string,
    simPackageId: Option<string>,
    quantity: int,
    salePrice: int,
    dueDate: string,
    dueDateChanges: Option<int>,
    note: string,
    isFinished: bool)

  datatype Transaction = Transaction(
    id: string,
    code: string,
    date: string,
    txType: TxType,
    category: string,
    amount: int,
    txMethod: TxMethod,
    saleOrderId: Option<string>,
    simPackageId: Option<string>,
    note: string)

  datatype DueDateLog = DueDateLog(
    id: string,
    orderId: string,
    oldDate: string,
    newDate: string,
    reason: string,
    updatedAt: string)

  datatype InventoryProductStat = InventoryProductStat(
    simTypeId: string,
    name: string,
    totalImported: int,
    totalSold: int,
    currentStock: int,
    weightedAvgCost: int,
    status: StockStatus,
    batches: seq<SimPackage>)

  /** A package row of the dashboard, built from one inventory stat. */
  datatype SimPackageWithStats = SimPackageWithStats(
    pkg: SimPackage,
    sold: int,
    stock: int,
    costPerSim: int,
    status: StockStatus)

  /** An order together with the figures the engine derives for it. */
  datatype SaleOrderWithStats = SaleOrderWithStats(
    order: SaleOrder,
    productName: string,
    customerName: string,
    totalAmount: int,
    cost: int,
    profit: int,
    paidAmount: int,
    remaining: int,
    status: PaymentStatus,
    isOverdue: bool,
    isBadDebt: bool,
    debtLevel: DebtLevel)

  datatype CustomerWithStats = CustomerWithStats(
    customer: Customer,
    gmv: int,
    currentDebt: int,
    nextDueDate: Option<string>,
    worstDebtLevel: DebtLevel)

  /** The records the application store holds. */
  datatype Store = Store(
    simTypes: seq<SimType>,
    packages: seq<SimPackage>,
    customers: seq<Customer>,
    orders: seq<SaleOrder>,
    transactions: seq<Transaction>)
}
