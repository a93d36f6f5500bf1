/** The dashboard summary of one company: counts of its records and its low-stock rows. */
module Summary {
  import opened Wrappers
  import opened Models
  import opened Lists
  import opened Inventory
  import opened Billing

  datatype LowStockEntry = LowStockEntry(itemId: string, itemName: string, currentStock: int, minLevel: int)

  datatype DashboardSummary = DashboardSummary(
    totalCustomers: nat,
    totalSuppliers: nat,
    totalItems: nat,
    pendingSalesOrders: nat,
    pendingPurchaseOrders: nat,
    overdueInvoices: nat,
    lowStockItems: seq<LowStockEntry>)

  /** The entry for a stock row: only when its item is in the catalog and the row is at or below the item's minimum. */
  function LowStockEntryFor(row: Stock, items: seq<Item>): (r: Option<LowStockEntry>)
    ensures r.Some? <==> FindItem(items, row.itemId).Some? && row.quantity <= FindItem(items, row.itemId).value.minStockLevel
    ensures r.Some? ==> r.value.itemId == row.itemId && r.value.currentStock == row.quantity
    ensures r.Some? ==> r.value.currentStock <= r.value.minLevel
    ensures r.Some? ==> r.value.itemName == FindItem(items, row.itemId).value.name
  {
    match FindItem(items, row.itemId)
    case Some(item) =>
      if row.quantity <= item.minStockLevel then Some(LowStockEntry(row.itemId, item.name, row.quantity, item.minStockLevel))
      else None
    case None => None
  }

  /** The low-stock entries of a company's rows, in collection order. */
  function LowStock(stock: seq<Stock>, items: seq<Item>, companyId: string): seq<LowStockEntry> {
    if stock == [] then []
    else
      var last := stock[|stock| - 1];
      LowStock(stock[..|stock| - 1], items, companyId)
      + (if last.companyId == companyId then match LowStockEntryFor(last, items) case Some(e) => [e] case None => [] else [])
  }

  /** Every entry comes from a row of the company that is low. */
  lemma {:induction false} LowStockSound(stock: seq<Stock>, items: seq<Item>, companyId: string)
    ensures |LowStock(stock, items, companyId)| <= |stock|
    ensures forall e :: e in LowStock(stock, items, companyId) ==>
      exists i :: 0 <= i < |stock| && stock[i].companyId == companyId && LowStockEntryFor(stock[i], items) == Some(e)
  {
    if stock != [] {
      var n := |stock| - 1;
      LowStockSound(stock[..n], items, companyId);
      forall e | e in LowStock(stock, items, companyId)
        ensures exists i :: 0 <= i < |stock| && stock[i].companyId == companyId && LowStockEntryFor(stock[i], items) == Some(e)
      {
        if e in LowStock(stock[..n], items, companyId) {
          var i :| 0 <= i < n && stock[..n][i].companyId == companyId && LowStockEntryFor(stock[..n][i], items) == Some(e);
          assert stock[..n][i] == stock[i];
        } else {
          assert stock[n].companyId == companyId && LowStockEntryFor(stock[n], items) == Some(e);
        }
      }
    }
  }

  /** Every low row of the company has its entry. */
  lemma {:induction false} LowStockComplete(stock: seq<Stock>, items: seq<Item>, companyId: string)
    ensures forall i :: 0 <= i < |stock| && stock[i].companyId == companyId && LowStockEntryFor(stock[i], items).Some? ==>
      LowStockEntryFor(stock[i], items).value in LowStock(stock, items, companyId)
  {
    if stock != [] {
      var n := |stock| - 1;
      LowStockComplete(stock[..n], items, companyId);
      forall i | 0 <= i < n ensures stock[..n][i] == stock[i] { }
    }
  }

  /** Rows are taken in order: the entries of a concatenation are those of the first part, then those of the second. */
  lemma {:induction false} LowStockAppend(a: seq<Stock>, b: seq<Stock>, items: seq<Item>, companyId: string)
    ensures LowStock(a + b, items, companyId) == LowStock(a, items, companyId) + LowStock(b, items, companyId)
    decreases |b|
  {
    if b == [] {
      assert a + b == a;
    } else {
      var n := |b| - 1;
      assert (a + b)[..|a + b| - 1] == a + b[..n] && (a + b)[|a + b| - 1] == b[n];
      LowStockAppend(a, b[..n], items, companyId);
      var tail := if b[n].companyId == companyId then
        match LowStockEntryFor(b[n], items) case Some(e) => [e] case None => [] else [];
      AppendAssoc(LowStock(a, items, companyId), LowStock(b[..n], items, companyId), tail);
    }
  }

  /** A prefix of the rows one longer has at most one more entry. */
  lemma LowStockGrows(stock: seq<Stock>, j: nat, items: seq<Item>, companyId: string)
    requires j < |stock|
    ensures |LowStock(stock[..j], items, companyId)| <= |LowStock(stock[..j + 1], items, companyId)|
                                                      <= |LowStock(stock[..j], items, companyId)| + 1
  {
    assert stock[..j + 1][..j] == stock[..j];
  }

  /** `[:10]`. */
  function FirstTen<T>(xs: seq<T>): (r: seq<T>)
    ensures |r| == if |xs| <= 10 then |xs| else 10
    ensures r == xs[..|r|]
  {
    if |xs| <= 10 then xs else xs[..10]
  }

  predicate PendingOrApprovedSo(so: SalesOrder) { so.status == SoPending || so.status == SoApproved }
  predicate PendingOrApprovedPo(po: PurchaseOrder) { po.status == PoPending || po.status == PoApproved }

  /** The summary the dashboard endpoint returns for a company at time `now`. */
  function Summarize(customers: seq<Customer>, suppliers: seq<Supplier>, items: seq<Item>,
                     salesOrders: seq<SalesOrder>, purchaseOrders: seq<PurchaseOrder>, invoices: seq<Invoice>,
                     stock: seq<Stock>, companyId: string, now: int): (r: DashboardSummary)
    ensures r.totalItems <= |items| && r.overdueInvoices <= |invoices|
    ensures |r.lowStockItems| <= 10
  {
    DashboardSummary(
      |Filter(customers, (c: Customer) => c.companyId == companyId)|,
      |Filter(suppliers, (s: Supplier) => s.companyId == companyId)|,
      |Filter(items, (it: Item) => it.companyId == companyId)|,
      |Filter(salesOrders, (so: SalesOrder) => so.companyId == companyId && PendingOrApprovedSo(so))|,
      |Filter(purchaseOrders, (po: PurchaseOrder) => po.companyId == companyId && PendingOrApprovedPo(po))|,
      |Filter(invoices, (inv: Invoice) => IsOverdue(inv, companyId, now))|,
      FirstTen(LowStock(stock, items, companyId)))
  }

  /** The three totals count the company's customers, suppliers and items. */
  lemma SummaryTotals(customers: seq<Customer>, suppliers: seq<Supplier>, items: seq<Item>,
                      salesOrders: seq<SalesOrder>, purchaseOrders: seq<PurchaseOrder>, invoices: seq<Invoice>,
                      stock: seq<Stock>, companyId: string, now: int)
    ensures
      var r := Summarize(customers, suppliers, items, salesOrders, purchaseOrders, invoices, stock, companyId, now);
      && r.totalCustomers == |set i | 0 <= i < |customers| && customers[i].companyId == companyId|
      && r.totalSuppliers == |set i | 0 <= i < |suppliers| && suppliers[i].companyId == companyId|
      && r.totalItems == |set i | 0 <= i < |items| && items[i].companyId == companyId|
  {
    var r := Summarize(customers, suppliers, items, salesOrders, purchaseOrders, invoices, stock, companyId, now);
    assert r.totalCustomers == |set i | 0 <= i < |customers| && customers[i].companyId == companyId| by {
      var p := (c: Customer) => c.companyId == companyId;
      FilterCountOf(customers, p, set i | 0 <= i < |customers| && customers[i].companyId == companyId);
    }
    assert r.totalSuppliers == |set i | 0 <= i < |suppliers| && suppliers[i].companyId == companyId| by {
      var p := (s: Supplier) => s.companyId == companyId;
      FilterCountOf(suppliers, p, set i | 0 <= i < |suppliers| && suppliers[i].companyId == companyId);
    }
    var p := (it: Item) => it.companyId == companyId;
    FilterCountOf(items, p, set i | 0 <= i < |items| && items[i].companyId == companyId);
  }

  /** The pending counts are the company's sales and purchase orders that are pending or approved. */
  lemma SummaryPending(customers: seq<Customer>, suppliers: seq<Supplier>, items: seq<Item>,
                      salesOrders: seq<SalesOrder>, purchaseOrders: seq<PurchaseOrder>, invoices: seq<Invoice>,
                      stock: seq<Stock>, companyId: string, now: int)
    ensures
      var r := Summarize(customers, suppliers, items, salesOrders, purchaseOrders, invoices, stock, companyId, now);
      && r.pendingSalesOrders == |set i | 0 <= i < |salesOrders| && salesOrders[i].companyId == companyId
                                    && salesOrders[i].status in {SoPending, SoApproved}|
      && r.pendingPurchaseOrders == |set i | 0 <= i < |purchaseOrders| && purchaseOrders[i].companyId == companyId
                                       && purchaseOrders[i].status in {PoPending, PoApproved}|
  {
    var r := Summarize(customers, suppliers, items, salesOrders, purchaseOrders, invoices, stock, companyId, now);
    assert r.pendingSalesOrders == |set i | 0 <= i < |salesOrders| && salesOrders[i].companyId == companyId
                                      && salesOrders[i].status in {SoPending, SoApproved}| by {
      var p := (so: SalesOrder) => so.companyId == companyId && PendingOrApprovedSo(so);
      FilterCountOf(salesOrders, p, set i | 0 <= i < |salesOrders| && salesOrders[i].companyId == companyId
                                               && salesOrders[i].status in {SoPending, SoApproved});
    }
    var p := (po: PurchaseOrder) => po.companyId == companyId && PendingOrApprovedPo(po);
    FilterCountOf(purchaseOrders, p, set i | 0 <= i < |purchaseOrders| && purchaseOrders[i].companyId == companyId
                                                && purchaseOrders[i].status in {PoPending, PoApproved});
  }

  /** The overdue count is the company's invoices due before `now` that are pending or partially paid; one without a due date is never counted. */
  lemma SummaryOverdue(customers: seq<Customer>, suppliers: seq<Supplier>, items: seq<Item>,
                      salesOrders: seq<SalesOrder>, purchaseOrders: seq<PurchaseOrder>, invoices: seq<Invoice>,
                      stock: seq<Stock>, companyId: string, now: int)
    ensures
      Summarize(customers, suppliers, items, salesOrders, purchaseOrders, invoices, stock, companyId, now).overdueInvoices
        == |set i | 0 <= i < |invoices| && invoices[i].companyId == companyId
                    && invoices[i].dueDate.Some? && invoices[i].dueDate.value < now
                    && invoices[i].status in {InvPending, InvPartiallyPaid}|
  {
    var p := (inv: Invoice) => IsOverdue(inv, companyId, now);
    FilterCountOf(invoices, p, set i | 0 <= i < |invoices| && invoices[i].companyId == companyId
                                          && invoices[i].dueDate.Some? && invoices[i].dueDate.value < now
                                          && invoices[i].status in {InvPending, InvPartiallyPaid});
  }

  /**
    The summary lists at most ten low-stock entries; each is a low row of
    the company, and when there are ten or fewer low rows, all are listed.
  */
  lemma SummaryLowStock(customers: seq<Customer>, suppliers: seq<Supplier>, items: seq<Item>,
                        salesOrders: seq<SalesOrder>, purchaseOrders: seq<PurchaseOrder>, invoices: seq<Invoice>,
                        stock: seq<Stock>, companyId: string, now: int)
    ensures forall e :: e in Summarize(customers, suppliers, items, salesOrders, purchaseOrders, invoices, stock, companyId, now).lowStockItems ==>
      exists i :: 0 <= i < |stock| && stock[i].companyId == companyId && LowStockEntryFor(stock[i], items) == Some(e)
    ensures |LowStock(stock, items, companyId)| <= 10 ==>
      forall i :: 0 <= i < |stock| && stock[i].companyId == companyId && LowStockEntryFor(stock[i], items).Some? ==>
        LowStockEntryFor(stock[i], items).value in Summarize(customers, suppliers, items, salesOrders, purchaseOrders, invoices, stock, companyId, now).lowStockItems
  {
    LowStockSound(stock, items, companyId);
    LowStockComplete(stock, items, companyId);
    var all := LowStock(stock, items, companyId);
    var shown := FirstTen(all);
    forall e | e in shown ensures e in all {
      var k :| 0 <= k < |shown| && shown[k] == e;
      assert all[k] == e;
    }
  }

  /**
    With more than ten low rows, the ten listed are the entries of the
    earliest low rows: some prefix of the rows yields exactly them, and every
    later row's entry comes after them and is left out.
  */
  lemma {:induction false} SummaryFirstTen(customers: seq<Customer>, suppliers: seq<Supplier>, items: seq<Item>,
                                           salesOrders: seq<SalesOrder>, purchaseOrders: seq<PurchaseOrder>,
                                           invoices: seq<Invoice>, stock: seq<Stock>, companyId: string, now: int)
    ensures
      var shown := Summarize(customers, suppliers, items, salesOrders, purchaseOrders, invoices, stock, companyId, now).lowStockItems;
      var all := LowStock(stock, items, companyId);
      && (|all| <= 10 ==> shown == all)
      && (|all| > 10 ==> |shown| == 10 && exists j :: 0 <= j <= |stock| && shown == LowStock(stock[..j], items, companyId)
                                                     && all == shown + LowStock(stock[j..], items, companyId))
  {
    var all := LowStock(stock, items, companyId);
    if |all| > 10 {
      var j := TenthLowRow(stock, items, companyId);
      assert stock[..j] + stock[j..] == stock;
      LowStockAppend(stock[..j], stock[j..], items, companyId);
      assert all[..10] == LowStock(stock[..j], items, companyId);
    }
  }

  /** With more than ten low rows, some prefix of the rows holds exactly ten of them. */
  lemma TenthLowRow(stock: seq<Stock>, items: seq<Item>, companyId: string) returns (j: nat)
    requires |LowStock(stock, items, companyId)| > 10
    ensures j <= |stock| && |LowStock(stock[..j], items, companyId)| == 10
  {
    j := 0;
    assert stock[..0] == [];
    while j < |stock| && |LowStock(stock[..j], items, companyId)| < 10
      invariant j <= |stock|
      invariant |LowStock(stock[..j], items, companyId)| <= 10
      decreases |stock| - j
    {
      LowStockGrows(stock, j, items, companyId);
      j := j + 1;
    }
    assert stock[..|stock|] == stock;
  }
}
