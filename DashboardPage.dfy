/**
  The dashboard page: the summary fetched for the user's company, the four
  stat tiles and the alerts panel drawn from it. The server's answer to
  the summary request is a parameter, `None` when the request fails.
*/
module DashboardPage {
  import opened Wrappers
  import opened Json
  import opened Session
  import opened Models
  import opened Summary

  const LoadFailed := "Failed to load dashboard data"

  function SummaryPath(user: Value): string {
    "/dashboard/summary?company_id=" + CompanyParam(user)
  }

  datatype Tile = Tile(title: string, value: nat, href: string)

  /** A summary field with the page's `|| 0` default for a summary that has not arrived. */
  function FieldOr0(data: Option<DashboardSummary>, field: DashboardSummary -> nat): (r: nat)
    ensures data.None? ==> r == 0
    ensures data.Some? ==> r == field(data.value)
  {
    match data
    case Some(d) => field(d)
    case None => 0
  }

  /** The four tiles, in order: customers, suppliers, items, pending sales orders. */
  function Stats(data: Option<DashboardSummary>): (r: seq<Tile>)
    ensures |r| == 4
    ensures data.None? ==> forall i :: 0 <= i < 4 ==> r[i].value == 0
    ensures data.Some? ==>
      r[0].value == data.value.totalCustomers && r[1].value == data.value.totalSuppliers
      && r[2].value == data.value.totalItems && r[3].value == data.value.pendingSalesOrders
  {
    [ Tile("Total Customers", FieldOr0(data, (d: DashboardSummary) => d.totalCustomers), "/customers"),
      Tile("Total Suppliers", FieldOr0(data, (d: DashboardSummary) => d.totalSuppliers), "/suppliers"),
      Tile("Total Items", FieldOr0(data, (d: DashboardSummary) => d.totalItems), "/items"),
      Tile("Pending Sales Orders", FieldOr0(data, (d: DashboardSummary) => d.pendingSalesOrders), "/sales-orders") ]
  }

  /** The low-stock block: the count, the entries listed under it, and the "+N more" line when there is one. */
  datatype LowStockBlock = LowStockBlock(count: nat, listed: seq<LowStockEntry>, more: Option<nat>)

  /** The alerts panel: each banner with its count when shown, the low-stock block, and whether "No alerts" shows. */
  datatype Alerts = Alerts(pendingPurchaseOrders: Option<nat>, overdueInvoices: Option<nat>,
                           lowStock: Option<LowStockBlock>, noAlerts: bool)

  /** A count as the page shows it: a banner only for a positive count. */
  function Banner(n: nat): Option<nat> {
    if n > 0 then Some(n) else None
  }

  function LowStockBlockOf(entries: seq<LowStockEntry>): Option<LowStockBlock> {
    if |entries| > 0 then
      var listed := if |entries| <= 3 then entries else entries[..3];
      Some(LowStockBlock(|entries|, listed, if |entries| > 3 then Some(|entries| - 3) else None))
    else None
  }

  function AlertsOf(data: Option<DashboardSummary>): Alerts {
    match data
    case None => Alerts(None, None, None, true)
    case Some(d) =>
      Alerts(Banner(d.pendingPurchaseOrders), Banner(d.overdueInvoices), LowStockBlockOf(d.lowStockItems),
             d.pendingPurchaseOrders == 0 && d.overdueInvoices == 0 && |d.lowStockItems| == 0)
  }

  /** Each banner shows exactly when its count is positive, and shows that count. */
  lemma BannersShowPositiveCounts(data: Option<DashboardSummary>)
    ensures AlertsOf(data).pendingPurchaseOrders.Some? <==> data.Some? && data.value.pendingPurchaseOrders > 0
    ensures AlertsOf(data).overdueInvoices.Some? <==> data.Some? && data.value.overdueInvoices > 0
    ensures AlertsOf(data).pendingPurchaseOrders.Some? ==> AlertsOf(data).pendingPurchaseOrders.value == data.value.pendingPurchaseOrders
    ensures AlertsOf(data).overdueInvoices.Some? ==> AlertsOf(data).overdueInvoices.value == data.value.overdueInvoices
  {
  }

  /**
    The low-stock block shows exactly when there are entries; it lists the
    first `min(3, n)` of them in order and adds "+(n - 3) more" exactly
    when there are more than three.
  */
  lemma LowStockBlockShape(entries: seq<LowStockEntry>)
    ensures LowStockBlockOf(entries).Some? <==> |entries| > 0
    ensures LowStockBlockOf(entries).Some? ==>
      var b := LowStockBlockOf(entries).value;
      && b.count == |entries|
      && |b.listed| == (if |entries| < 3 then |entries| else 3) && b.listed == entries[..|b.listed|]
      && (b.more.Some? <==> |entries| > 3)
      && (b.more.Some? ==> b.more.value + |b.listed| == |entries|)
  {
  }

  /** "No alerts" shows exactly when neither banner nor the low-stock block does. */
  lemma NoAlertsExactlyWhenNothingElse(data: Option<DashboardSummary>)
    ensures AlertsOf(data).noAlerts <==>
      AlertsOf(data).pendingPurchaseOrders.None? && AlertsOf(data).overdueInvoices.None? && AlertsOf(data).lowStock.None?
  {
  }

  /** A summary from the server lists at most ten low-stock entries, so "+N more" never exceeds seven. */
  lemma {:induction false} MoreAtMostSeven(customers: seq<Customer>, suppliers: seq<Supplier>, items: seq<Item>,
                                           salesOrders: seq<SalesOrder>, purchaseOrders: seq<PurchaseOrder>,
                                           invoices: seq<Invoice>, stock: seq<Stock>, companyId: string, now: int)
    ensures
      var data := Some(Summarize(customers, suppliers, items, salesOrders, purchaseOrders, invoices, stock, companyId, now));
      AlertsOf(data).lowStock.Some? && AlertsOf(data).lowStock.value.more.Some? ==> AlertsOf(data).lowStock.value.more.value <= 7
  {
    var d := Summarize(customers, suppliers, items, salesOrders, purchaseOrders, invoices, stock, companyId, now);
    assert |d.lowStockItems| <= 10;
  }

  class DashboardView {
    const user: Value
    var dashboardData: Option<DashboardSummary>
    var loading: bool
    var error: string

    constructor (user: Value)
      ensures this.user == user && dashboardData.None? && loading && error == ""
    {
      this.user := user;
      dashboardData := None;
      loading := true;
      error := "";
    }

    /**
      `fetchDashboardData`: an answer replaces the summary and leaves the
      error as it was; a failure keeps the summary and sets the error.
      Loading ends either way.
    */
    method FetchDashboardData(server: string -> Option<DashboardSummary>)
      modifies this`dashboardData, this`loading, this`error
      ensures !loading
      ensures server(SummaryPath(user)).Some? ==> dashboardData == server(SummaryPath(user)) && error == old(error)
      ensures server(SummaryPath(user)).None? ==> dashboardData == old(dashboardData) && error == LoadFailed
    {
      loading := true;
      var answer := server(SummaryPath(user));
      if answer.Some? {
        dashboardData := answer;
      } else {
        error := LoadFailed;
      }
      loading := false;
    }
  }
}
