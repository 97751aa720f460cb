/** The derived-state engine of the application shell (App.tsx): inventory
    statistics per SIM type, the financial and debt view of each order, and
    the rollup per customer, computed in that order from a store snapshot.
    The wall-clock instant `now` is a parameter (an ISO 8601 timestamp). */
module Engine {
  import opened Types
  import opened Collections
  import IsoDate

  /** At or below this stock a SIM type is flagged LOW_STOCK. */
  const LowStockThreshold: int := 50

  // =====================================================================
  // Inventory statistics per SIM type (App.tsx:69-100)
  // =====================================================================

  lemma DivBounds(a: int, d: int)
    requires d > 0
    ensures d * (a / d) <= a < d * (a / d) + d
  {
  }

  /** `Math.round(totalImportPrice / totalImported)`, or 0 when nothing was
      imported: the integer nearest to the quotient, halves rounded up. */
  function WeightedAvgCost(totalImportPrice: int, totalImported: int): (r: int)
    ensures totalImported <= 0 ==> r == 0
    ensures totalImported > 0 ==>
      2 * totalImported * r - totalImported <= 2 * totalImportPrice < 2 * totalImported * r + totalImported
    ensures totalImported > 0 && totalImportPrice >= 0 ==> r >= 0
  {
    if totalImported > 0 then
      var r := (2 * totalImportPrice + totalImported) / (2 * totalImported);
      DivBounds(2 * totalImportPrice + totalImported, 2 * totalImported);
      r
    else
      0
  }

  function PackageQuantity(p: SimPackage): int { p.quantity }
  function PackagePrice(p: SimPackage): int { p.totalImportPrice }

  /** `p => p.simTypeId === typeId` */
  function BatchOf(typeId: string): SimPackage -> bool
  {
    (p: SimPackage) => p.simTypeId == Some(typeId)
  }

  /** `p => p.id === id` */
  function PackageWithId(id: string): SimPackage -> bool
  {
    (p: SimPackage) => p.id == id
  }

  /** The matching rule of `totalSold`: an order names its type directly, or,
      when it has none, names a package that belongs to the type. */
  predicate CountsToward(o: SaleOrder, typeId: string, packages: seq<SimPackage>)
  {
    if o.simTypeId != "" then
      o.simTypeId == typeId
    else if Present(o.simPackageId) then
      var pkg := Find(packages, PackageWithId(o.simPackageId.value));
      pkg.Some? && pkg.value.simTypeId == Some(typeId)
    else
      false
  }

  /** The quantity an order contributes to the type's `totalSold`. */
  function SoldQuantity(typeId: string, packages: seq<SimPackage>): SaleOrder -> int
  {
    (o: SaleOrder) => if CountsToward(o, typeId, packages) then o.quantity else 0
  }

  function TotalSold(orders: seq<SaleOrder>, typeId: string, packages: seq<SimPackage>): int
  {
    Sum(orders, SoldQuantity(typeId, packages))
  }

  function InventoryStatFor(t: SimType, packages: seq<SimPackage>, orders: seq<SaleOrder>): (r: InventoryProductStat)
    ensures r.simTypeId == t.id && r.name == t.name
    ensures r.batches == Filter(packages, BatchOf(t.id))
    ensures forall p :: p in r.batches <==> p in packages && p.simTypeId == Some(t.id)
    ensures r.totalImported == Sum(r.batches, PackageQuantity)
    ensures r.weightedAvgCost == WeightedAvgCost(Sum(r.batches, PackagePrice), r.totalImported)
    ensures r.totalSold == TotalSold(orders, t.id, packages)
    ensures r.currentStock == r.totalImported - r.totalSold
    ensures r.status == LowStock <==> r.currentStock <= LowStockThreshold
    ensures r.totalImported == 0 ==> r.weightedAvgCost == 0
  {
    var batches := Filter(packages, BatchOf(t.id));
    var totalImported := Sum(batches, PackageQuantity);
    var totalImportPrice := Sum(batches, PackagePrice);
    var totalSold := TotalSold(orders, t.id, packages);
    var currentStock := totalImported - totalSold;
    InventoryProductStat(
      t.id, t.name, totalImported, totalSold, currentStock,
      WeightedAvgCost(totalImportPrice, totalImported),
      if currentStock <= LowStockThreshold then LowStock else Ok,
      batches)
  }

  /** `inventoryStats`: one stat per SIM type, in catalogue order. */
  function InventoryStats(st: Store): (r: seq<InventoryProductStat>)
    ensures |r| == |st.simTypes|
    ensures forall i :: 0 <= i < |r| ==> r[i] == InventoryStatFor(st.simTypes[i], st.packages, st.orders)
  {
    seq(|st.simTypes|, i requires 0 <= i < |st.simTypes| => InventoryStatFor(st.simTypes[i], st.packages, st.orders))
  }

  /** An order is counted toward at most one SIM type. */
  lemma CountsTowardUnique(o: SaleOrder, a: string, b: string, packages: seq<SimPackage>)
    requires CountsToward(o, a, packages) && CountsToward(o, b, packages)
    ensures a == b
  {
  }

  /** The batch average is the import price per unit: rounding the average
      back out gives the import price to within half a unit per SIM. */
  lemma WeightedAvgCostOfBatches(t: SimType, packages: seq<SimPackage>, orders: seq<SaleOrder>)
    ensures var r := InventoryStatFor(t, packages, orders);
            var price := Sum(r.batches, PackagePrice);
            r.totalImported > 0 ==>
              2 * r.totalImported * r.weightedAvgCost - r.totalImported <= 2 * price
              < 2 * r.totalImported * r.weightedAvgCost + r.totalImported
  {
  }

  /** A new order changes `totalSold` of exactly the type it counts toward. */
  lemma TotalSoldAppend(orders: seq<SaleOrder>, o: SaleOrder, typeId: string, packages: seq<SimPackage>)
    ensures TotalSold(orders + [o], typeId, packages) ==
            TotalSold(orders, typeId, packages) + (if CountsToward(o, typeId, packages) then o.quantity else 0)
  {
    SumAppend(orders, [o], SoldQuantity(typeId, packages));
  }

  predicate CountsTowardSome(o: SaleOrder, types: seq<SimType>, packages: seq<SimPackage>)
  {
    exists t :: t in types && CountsToward(o, t.id, packages)
  }

  function MatchedQuantity(types: seq<SimType>, packages: seq<SimPackage>): SaleOrder -> int
  {
    (o: SaleOrder) => if CountsTowardSome(o, types, packages) then o.quantity else 0
  }

  function StatSold(s: InventoryProductStat): int { s.totalSold }

  predicate DistinctIds(types: seq<SimType>)
  {
    forall i, j :: 0 <= i < j < |types| ==> types[i].id != types[j].id
  }

  /** What the SIM types of `types` sell of one order, summed over the types. */
  function SoldAcross(types: seq<SimType>, o: SaleOrder, packages: seq<SimPackage>): int
  {
    if types == [] then 0
    else SoldQuantity(types[0].id, packages)(o) + SoldAcross(types[1..], o, packages)
  }

  lemma {:induction false} SoldAcrossOne(types: seq<SimType>, o: SaleOrder, packages: seq<SimPackage>)
    requires DistinctIds(types)
    ensures SoldAcross(types, o, packages) == MatchedQuantity(types, packages)(o)
  {
    if types != [] {
      SoldAcrossOne(types[1..], o, packages);
      if CountsToward(o, types[0].id, packages) {
        assert forall t :: t in types[1..] ==> !CountsToward(o, t.id, packages);
      } else {
        assert CountsTowardSome(o, types, packages) <==> CountsTowardSome(o, types[1..], packages) by {
          if CountsTowardSome(o, types, packages) {
            var t :| t in types && CountsToward(o, t.id, packages);
            assert t != types[0];
            assert t in types[1..];
          }
        }
      }
    }
  }

  function TotalSoldAcross(types: seq<SimType>, orders: seq<SaleOrder>, packages: seq<SimPackage>): int
  {
    if types == [] then 0 else TotalSold(orders, types[0].id, packages) + TotalSoldAcross(types[1..], orders, packages)
  }

  lemma {:induction false} TotalSoldAcrossCons(types: seq<SimType>, o: SaleOrder, orders: seq<SaleOrder>, packages: seq<SimPackage>)
    ensures TotalSoldAcross(types, [o] + orders, packages) ==
            SoldAcross(types, o, packages) + TotalSoldAcross(types, orders, packages)
  {
    if types != [] {
      TotalSoldAcrossCons(types[1..], o, orders, packages);
      assert ([o] + orders)[1..] == orders;
    }
  }

  lemma {:induction false} TotalSoldAcrossMatched(types: seq<SimType>, orders: seq<SaleOrder>, packages: seq<SimPackage>)
    requires DistinctIds(types)
    ensures TotalSoldAcross(types, orders, packages) == Sum(orders, MatchedQuantity(types, packages))
  {
    if orders == [] {
      if types != [] {
        TotalSoldAcrossMatched(types[1..], orders, packages);
      }
    } else {
      assert orders == [orders[0]] + orders[1..];
      TotalSoldAcrossCons(types, orders[0], orders[1..], packages);
      SoldAcrossOne(types, orders[0], packages);
      TotalSoldAcrossMatched(types, orders[1..], packages);
    }
  }

  lemma {:induction false} StatsSoldAcross(stats: seq<InventoryProductStat>, types: seq<SimType>,
                                           packages: seq<SimPackage>, orders: seq<SaleOrder>)
    requires |stats| == |types|
    requires forall i :: 0 <= i < |stats| ==> stats[i] == InventoryStatFor(types[i], packages, orders)
    ensures Sum(stats, StatSold) == TotalSoldAcross(types, orders, packages)
  {
    if types != [] {
      StatsSoldAcross(stats[1..], types[1..], packages, orders);
    }
  }

  /** Sales are conserved across the inventory table: with distinct type ids,
      the `totalSold` column adds up to the quantity of every order that
      matches some type, each order counted once. */
  lemma SoldConservation(st: Store)
    requires DistinctIds(st.simTypes)
    ensures Sum(InventoryStats(st), StatSold) == Sum(st.orders, MatchedQuantity(st.simTypes, st.packages))
  {
    StatsSoldAcross(InventoryStats(st), st.simTypes, st.packages, st.orders);
    TotalSoldAcrossMatched(st.simTypes, st.orders, st.packages);
  }

  // =====================================================================
  // Per-order statistics: getOrderStats (App.tsx:102-158)
  // =====================================================================

  /** `t => t.id === id` */
  function TypeWithId(id: string): SimType -> bool
  {
    (t: SimType) => t.id == id
  }

  /** `s => s.simTypeId === id` */
  function StatWithId(id: string): InventoryProductStat -> bool
  {
    (s: InventoryProductStat) => s.simTypeId == id
  }

  /** `c => c.id === customerId` (never matches an absent id) */
  function CustomerWithId(customerId: Option<string>): Customer -> bool
  {
    (c: Customer) => Some(c.id) == customerId
  }

  /** `t => t.saleOrderId === orderId && t.type === 'IN'` */
  function PaymentFor(orderId: string): Transaction -> bool
  {
    (t: Transaction) => t.saleOrderId == Some(orderId) && t.txType == In
  }

  function TxAmount(t: Transaction): int { t.amount }

  /** The name shown for an order's product: the first SIM type with the
      order's type id, or for a legacy order the first package with its
      package id; "Unknown" when there is no such record or it has no name. */
  function ProductName(st: Store, order: SaleOrder): (r: string)
    ensures r != ""
    ensures order.simTypeId != "" ==>
              forall i :: 0 <= i < |st.simTypes| && st.simTypes[i].id == order.simTypeId &&
                          (forall k :: 0 <= k < i ==> st.simTypes[k].id != order.simTypeId) ==>
                r == if st.simTypes[i].name != "" then st.simTypes[i].name else "Unknown"
    ensures order.simTypeId == "" && Present(order.simPackageId) ==>
              forall i :: 0 <= i < |st.packages| && st.packages[i].id == order.simPackageId.value &&
                          (forall k :: 0 <= k < i ==> st.packages[k].id != order.simPackageId.value) ==>
                r == if st.packages[i].name != "" then st.packages[i].name else "Unknown"
    ensures order.simTypeId != "" && (forall t :: t in st.simTypes ==> t.id != order.simTypeId) ==> r == "Unknown"
    ensures order.simTypeId == "" && Present(order.simPackageId) ==>
              (forall p :: p in st.packages ==> p.id != order.simPackageId.value) ==> r == "Unknown"
    ensures order.simTypeId == "" && !Present(order.simPackageId) ==> r == "Unknown"
    ensures r != "Unknown" ==>
              (exists t :: t in st.simTypes && t.id == order.simTypeId && t.name == r) ||
              (Present(order.simPackageId) && exists p :: p in st.packages && p.id == order.simPackageId.value && p.name == r)
  {
    if order.simTypeId != "" then
      var ty := Find(st.simTypes, TypeWithId(order.simTypeId));
      if ty.Some? && ty.value.name != "" then ty.value.name else "Unknown"
    else if Present(order.simPackageId) then
      var pkg := Find(st.packages, PackageWithId(order.simPackageId.value));
      if pkg.Some? && pkg.value.name != "" then pkg.value.name else "Unknown"
    else
      "Unknown"
  }

  /** The cost basis per SIM: the type's weighted average when the order
      names a type, and 0 for package-only (legacy) orders. */
  function CostPerSim(inventory: seq<InventoryProductStat>, order: SaleOrder): (r: int)
    ensures order.simTypeId == "" ==> r == 0
    ensures order.simTypeId != "" && (exists s :: s in inventory && s.simTypeId == order.simTypeId) ==>
              exists s :: s in inventory && s.simTypeId == order.simTypeId && r == s.weightedAvgCost
    ensures order.simTypeId != "" ==>
              forall i :: 0 <= i < |inventory| && inventory[i].simTypeId == order.simTypeId &&
                          (forall k :: 0 <= k < i ==> inventory[k].simTypeId != order.simTypeId) ==>
                r == inventory[i].weightedAvgCost
    ensures (forall s :: s in inventory ==> s.simTypeId != order.simTypeId) ==> r == 0
  {
    if order.simTypeId != "" then
      var stat := Find(inventory, StatWithId(order.simTypeId));
      if stat.Some? then stat.value.weightedAvgCost else 0
    else
      0
  }

  /** `paidAmount`: the IN transactions linked to the order. */
  function PaidAmount(transactions: seq<Transaction>, orderId: string): int
  {
    Sum(Filter(transactions, PaymentFor(orderId)), TxAmount)
  }

  /** `Math.max(0, totalAmount - paidAmount)` */
  function Remaining(totalAmount: int, paidAmount: int): (r: int)
    ensures r >= 0 && r >= totalAmount - paidAmount
    ensures r == 0 || r == totalAmount - paidAmount
  {
    if totalAmount - paidAmount > 0 then totalAmount - paidAmount else 0
  }

  function PayStatus(remaining: int, paidAmount: int): PaymentStatus
  {
    if remaining <= 0 then Paid
    else if paidAmount > 0 then Partial
    else Unpaid
  }

  /** `order.dueDateChanges || 0` */
  function ChangeCount(order: SaleOrder): int
  {
    match order.dueDateChanges
    case Some(n) => n
    case None => 0
  }

  /** `new Date(dueDate)` written as a timestamp: a calendar date
      "YYYY-MM-DD" denotes midnight UTC of that day; anything longer is
      taken as already a timestamp. */
  function DueInstant(dueDate: string): (r: string)
    ensures IsoDate.LessEq(dueDate, r)
    ensures |dueDate| == 10 ==> r == dueDate + "T00:00:00.000Z"
  {
    if |dueDate| == 10 then
      IsoDate.PrefixLessEq(dueDate, "T00:00:00.000Z");
      dueDate + "T00:00:00.000Z"
    else
      IsoDate.LessEqRefl(dueDate);
      dueDate
  }

  /** Past due: an open balance and a due instant strictly before `now`. */
  function IsOverdue(remaining: int, dueDate: string, now: string): bool
  {
    remaining > 0 && dueDate != "" && IsoDate.Less(DueInstant(dueDate), now)
  }

  /** The debt classification; its rules are tried in this fixed order. */
  function DebtLevelOf(remaining: int, changes: int, isOverdue: bool): DebtLevel
  {
    if remaining > 0 then
      if changes >= 4 then Recovery
      else if changes == 3 then Warning
      else if isOverdue then Overdue
      else Normal
    else
      Normal
  }

  function CustomerName(customers: seq<Customer>, order: SaleOrder): (r: string)
    ensures (forall c :: c in customers ==> Some(c.id) != order.customerId) ==> r == order.agentName
    ensures order.customerId.None? ==> r == order.agentName
    ensures (exists c :: c in customers && Some(c.id) == order.customerId) ==>
              exists c :: c in customers && Some(c.id) == order.customerId && r == c.name
    ensures forall i :: 0 <= i < |customers| && Some(customers[i].id) == order.customerId &&
                        (forall k :: 0 <= k < i ==> Some(customers[k].id) != order.customerId) ==>
              r == customers[i].name
  {
    var c := Find(customers, CustomerWithId(order.customerId));
    if c.Some? then c.value.name else order.agentName
  }

  function GetOrderStats(st: Store, inventory: seq<InventoryProductStat>, order: SaleOrder, now: string): (r: SaleOrderWithStats)
    ensures r.order == order
    ensures r.totalAmount == order.quantity * order.salePrice
    ensures r.cost == order.quantity * CostPerSim(inventory, order)
    ensures r.profit == r.totalAmount - r.cost
    ensures r.paidAmount == PaidAmount(st.transactions, order.id)
    ensures r.remaining >= 0 && (r.remaining == 0 <==> r.paidAmount >= r.totalAmount)
    ensures r.remaining > 0 ==> r.remaining == r.totalAmount - r.paidAmount
    ensures r.status == Paid <==> r.remaining == 0
    ensures r.status == Partial <==> r.remaining > 0 && r.paidAmount > 0
    ensures r.isOverdue <==> r.remaining > 0 && order.dueDate != "" && IsoDate.Less(DueInstant(order.dueDate), now)
    ensures r.remaining > 0 && ChangeCount(order) >= 4 ==> r.debtLevel == Recovery
    ensures r.remaining > 0 && ChangeCount(order) == 3 ==> r.debtLevel == Warning
    ensures ChangeCount(order) < 3 ==> r.debtLevel == if r.isOverdue then Overdue else Normal
    ensures r.isBadDebt <==> r.debtLevel == Recovery
    ensures r.remaining == 0 ==> r.debtLevel == Normal && !r.isOverdue
    ensures r.productName == ProductName(st, order) && r.productName != ""
    ensures r.customerName == CustomerName(st.customers, order)
  {
    var totalAmount := order.quantity * order.salePrice;
    var cost := order.quantity * CostPerSim(inventory, order);
    var paidAmount := PaidAmount(st.transactions, order.id);
    var remaining := Remaining(totalAmount, paidAmount);
    var isOverdue := IsOverdue(remaining, order.dueDate, now);
    var debtLevel := DebtLevelOf(remaining, ChangeCount(order), isOverdue);
    var r := SaleOrderWithStats(
      order,
      ProductName(st, order),
      CustomerName(st.customers, order),
      totalAmount,
      cost,
      totalAmount - cost,
      paidAmount,
      remaining,
      PayStatus(remaining, paidAmount),
      isOverdue,
      debtLevel == Recovery,
      debtLevel);
    if remaining > 0 then
      ChangeCountDecides(remaining, ChangeCount(order), isOverdue);
      r
    else
      r
  }

  /** `orderStats`: every order of the store with its derived figures. */
  function OrderStats(st: Store, now: string): (r: seq<SaleOrderWithStats>)
    ensures |r| == |st.orders|
    ensures forall i :: 0 <= i < |r| ==> r[i] == GetOrderStats(st, InventoryStats(st), st.orders[i], now)
  {
    var inventory := InventoryStats(st);
    seq(|st.orders|, i requires 0 <= i < |st.orders| => GetOrderStats(st, inventory, st.orders[i], now))
  }

  /** The payment status read against the amounts themselves. */
  lemma PaymentStatusMeaning(totalAmount: int, paidAmount: int)
    ensures var s := PayStatus(Remaining(totalAmount, paidAmount), paidAmount);
            && (s == Paid <==> paidAmount >= totalAmount)
            && (s == Partial <==> 0 < paidAmount < totalAmount)
            && (s == Unpaid <==> paidAmount <= 0 && paidAmount < totalAmount)
  {
  }

  /** Only IN transactions linked to the order move its paid amount. */
  lemma PaidAmountAppend(transactions: seq<Transaction>, t: Transaction, orderId: string)
    ensures PaidAmount(transactions + [t], orderId) ==
            PaidAmount(transactions, orderId) + (if t.txType == In && t.saleOrderId == Some(orderId) then t.amount else 0)
  {
    FilterAppend(transactions, [t], PaymentFor(orderId));
    SumAppend(Filter(transactions, PaymentFor(orderId)), Filter([t], PaymentFor(orderId)), TxAmount);
  }

  /** The change count outranks the calendar: at four extensions an open debt
      is RECOVERY and at three it is WARNING, whatever the due date and `now`. */
  lemma ChangeCountDecides(remaining: int, changes: int, isOverdue: bool)
    requires remaining > 0
    ensures changes >= 4 ==> DebtLevelOf(remaining, changes, isOverdue) == Recovery
    ensures changes == 3 ==> DebtLevelOf(remaining, changes, isOverdue) == Warning
    ensures changes < 3 ==> DebtLevelOf(remaining, changes, isOverdue) == (if isOverdue then Overdue else Normal)
  {
  }

  /** OVERDUE is reported only for an open, dated order that is past due and
      extended fewer than three times. */
  lemma OverdueMeaning(st: Store, inventory: seq<InventoryProductStat>, order: SaleOrder, now: string)
    ensures var r := GetOrderStats(st, inventory, order, now);
            r.debtLevel == Overdue <==>
              r.remaining > 0 && ChangeCount(order) < 3 && order.dueDate != "" && IsoDate.Less(DueInstant(order.dueDate), now)
  {
  }

  /** The legacy asymmetry: an order naming only a package has no cost basis,
      so its whole amount is profit. */
  lemma PackageOnlyOrderHasNoCost(st: Store, inventory: seq<InventoryProductStat>, order: SaleOrder, now: string)
    requires order.simTypeId == ""
    ensures GetOrderStats(st, inventory, order, now).cost == 0
    ensures GetOrderStats(st, inventory, order, now).profit == order.quantity * order.salePrice
  {
    var r := GetOrderStats(st, inventory, order, now);
    assert CostPerSim(inventory, order) == 0;
    assert r.cost == order.quantity * 0 == 0;
  }

  // =====================================================================
  // Per-customer rollup (App.tsx:162-181)
  // =====================================================================

  /** `levels.indexOf(level)` with levels = NORMAL, WARNING, OVERDUE, RECOVERY */
  function Rank(level: DebtLevel): nat
  {
    match level
    case Normal => 0
    case Warning => 1
    case Overdue => 2
    case Recovery => 3
  }

  /** The `forEach` that keeps the worse of the running level and each order's. */
  function WorstLevel(orders: seq<SaleOrderWithStats>, worst: DebtLevel): (r: DebtLevel)
    ensures Rank(worst) <= Rank(r)
    ensures forall o :: o in orders ==> Rank(o.debtLevel) <= Rank(r)
    ensures r == worst || exists o :: o in orders && o.debtLevel == r
  {
    if orders == [] then worst
    else
      var next := if Rank(orders[0].debtLevel) > Rank(worst) then orders[0].debtLevel else worst;
      assert forall o :: o in orders ==> o == orders[0] || o in orders[1..];
      WorstLevel(orders[1..], next)
  }

  /** `o => o.customerId === customerId` */
  function OfCustomer(customerId: string): SaleOrderWithStats -> bool
  {
    (o: SaleOrderWithStats) => o.order.customerId == Some(customerId)
  }

  /** `o => o.remaining > 0 && o.dueDate` */
  predicate OpenWithDueDate(o: SaleOrderWithStats)
  {
    o.remaining > 0 && o.order.dueDate != ""
  }

  function TotalAmountOf(o: SaleOrderWithStats): int { o.totalAmount }
  function RemainingOf(o: SaleOrderWithStats): int { o.remaining }

  /** `Math.min(...dates)` over a non-empty list. */
  function MinDate(dates: seq<string>): (r: string)
    requires |dates| > 0
    ensures r in dates
    ensures forall d :: d in dates ==> IsoDate.LessEq(r, d)
  {
    if |dates| == 1 then
      IsoDate.LessEqRefl(dates[0]);
      dates[0]
    else
      var m := MinDate(dates[1..]);
      assert forall d :: d in dates ==> d == dates[0] || d in dates[1..];
      if IsoDate.Less(dates[0], m) then
        assert forall d :: d in dates[1..] ==> IsoDate.LessEq(dates[0], d) by {
          forall d | d in dates[1..]
            ensures IsoDate.LessEq(dates[0], d)
          {
            IsoDate.LessEqTotal(dates[0], m);
            IsoDate.LessEqTransitive(dates[0], m, d);
          }
        }
        IsoDate.LessEqRefl(dates[0]);
        dates[0]
      else
        m
  }

  /** `nextDueDate`: the earliest due date among open, dated orders, or null. */
  function NextDueDate(orders: seq<SaleOrderWithStats>): (r: Option<string>)
    ensures r.None? <==> forall o :: o in orders ==> !OpenWithDueDate(o)
    ensures r.Some? ==> exists o :: o in orders && OpenWithDueDate(o) && o.order.dueDate == r.value
    ensures r.Some? ==> forall o :: o in orders && OpenWithDueDate(o) ==> IsoDate.LessEq(r.value, o.order.dueDate)
  {
    var open := Filter(orders, OpenWithDueDate);
    var dates := seq(|open|, i requires 0 <= i < |open| => open[i].order.dueDate);
    if |dates| > 0 then
      var m := MinDate(dates);
      assert forall o :: o in open ==> o.order.dueDate in dates by {
        forall o | o in open
          ensures o.order.dueDate in dates
        {
          var i :| 0 <= i < |open| && open[i] == o;
          assert dates[i] == o.order.dueDate;
        }
      }
      var k :| 0 <= k < |dates| && dates[k] == m;
      assert open[k] in open;
      Some(m)
    else
      None
  }

  function CustomerStatFor(c: Customer, orderStats: seq<SaleOrderWithStats>): (r: CustomerWithStats)
    ensures r.customer == c
    ensures var mine := Filter(orderStats, OfCustomer(c.id));
            && r.gmv == Sum(mine, TotalAmountOf)
            && r.currentDebt == Sum(mine, RemainingOf)
            && r.nextDueDate == NextDueDate(mine)
    ensures forall o :: o in orderStats && o.order.customerId == Some(c.id) ==>
              Rank(o.debtLevel) <= Rank(r.worstDebtLevel)
    ensures r.worstDebtLevel == Normal ||
            exists o :: o in orderStats && o.order.customerId == Some(c.id) && o.debtLevel == r.worstDebtLevel
  {
    var mine := Filter(orderStats, OfCustomer(c.id));
    CustomerWithStats(c, Sum(mine, TotalAmountOf), Sum(mine, RemainingOf), NextDueDate(mine), WorstLevel(mine, Normal))
  }

  /** `customerStats`: one rollup per customer, in registry order. */
  function CustomerStats(customers: seq<Customer>, orderStats: seq<SaleOrderWithStats>): (r: seq<CustomerWithStats>)
    ensures |r| == |customers|
    ensures forall i :: 0 <= i < |r| ==> r[i] == CustomerStatFor(customers[i], orderStats)
  {
    seq(|customers|, i requires 0 <= i < |customers| => CustomerStatFor(customers[i], orderStats))
  }

  /** What every order the engine derives satisfies. */
  predicate SoundOrderStat(o: SaleOrderWithStats)
  {
    o.remaining >= 0 && (o.remaining == 0 ==> o.debtLevel == Normal)
  }

  lemma OrderStatsSound(st: Store, now: string)
    ensures forall o :: o in OrderStats(st, now) ==> SoundOrderStat(o)
  {
  }

  /** A customer who owes nothing has no next due date and is NORMAL. */
  lemma {:induction false} NoDebtMeansNormal(c: Customer, orderStats: seq<SaleOrderWithStats>)
    requires forall o :: o in orderStats ==> SoundOrderStat(o)
    ensures var r := CustomerStatFor(c, orderStats);
            r.currentDebt >= 0 &&
            (r.currentDebt == 0 ==> r.nextDueDate.None? && r.worstDebtLevel == Normal)
  {
    var mine := Filter(orderStats, OfCustomer(c.id));
    SumNonNegative(mine, RemainingOf);
    if Sum(mine, RemainingOf) == 0 {
      SumZero(mine, RemainingOf);
    }
  }

  /** Over the whole pipeline: a customer without debt is NORMAL with no due date. */
  lemma CustomerWithoutDebt(st: Store, now: string, i: int)
    requires 0 <= i < |st.customers|
    ensures var r := CustomerStats(st.customers, OrderStats(st, now))[i];
            r.currentDebt >= 0 &&
            (r.currentDebt == 0 ==> r.nextDueDate.None? && r.worstDebtLevel == Normal)
  {
    OrderStatsSound(st, now);
    NoDebtMeansNormal(st.customers[i], OrderStats(st, now));
  }

  // =====================================================================
  // Aggregated package rows for the dashboard (App.tsx:183-194)
  // =====================================================================

  function DashboardPackage(stat: InventoryProductStat): (r: SimPackageWithStats)
    ensures r.pkg.id == stat.simTypeId && r.pkg.name == stat.name && r.pkg.code == "AGG"
    ensures r.pkg.simTypeId == None && r.pkg.importDate == ""
    ensures r.pkg.quantity == stat.totalImported && r.pkg.totalImportPrice == stat.weightedAvgCost * stat.totalImported
    ensures r.stock == stat.currentStock && r.sold == stat.totalSold
    ensures r.costPerSim == stat.weightedAvgCost && r.status == stat.status
  {
    SimPackageWithStats(
      SimPackage(stat.simTypeId, "AGG", stat.name, None, "", stat.totalImported, stat.weightedAvgCost * stat.totalImported),
      stat.totalSold, stat.currentStock, stat.weightedAvgCost, stat.status)
  }

  function DashboardPackages(inventory: seq<InventoryProductStat>): (r: seq<SimPackageWithStats>)
    ensures |r| == |inventory|
    ensures forall i :: 0 <= i < |r| ==> r[i] == DashboardPackage(inventory[i])
  {
    seq(|inventory|, i requires 0 <= i < |inventory| => DashboardPackage(inventory[i]))
  }
}
