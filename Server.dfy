/**
  The API server's collections and the endpoints that change them. Each
  collection is a sequence in insertion order; the endpoints step through
  their input as the server does and are proved against the specification
  functions of the modules they import.
*/
module Server {
  import opened Wrappers
  import opened Models
  import opened Lists
  import opened Inventory
  import opened Receipts
  import opened Sales
  import opened Billing
  import opened Summary
  import opened Auth

  class Database {
    var users: seq<User>
    var items: seq<Item>
    var customers: seq<Customer>
    var suppliers: seq<Supplier>
    var purchaseOrders: seq<PurchaseOrder>
    var salesOrders: seq<SalesOrder>
    var stock: seq<Stock>
    var batches: seq<Batch>
    var movements: seq<StockMovement>
    var grns: seq<GRN>
    var invoices: seq<Invoice>
    var payments: seq<Payment>

    /**
      What the endpoints keep true: for every item and company the stock on
      hand is the net of all movements recorded; one stock row per item,
      location and company; every invoice's balance is its total less what
      has been paid; no two users share an email.
    */
    ghost predicate Valid()
      reads this
    {
      && Ledger(stock, movements)
      && UniqueKeys(stock)
      && (forall inv :: inv in invoices ==> Balanced(inv))
      && UniqueEmails(users)
    }

    constructor ()
      ensures Valid()
      ensures users == [] && items == [] && customers == [] && suppliers == []
      ensures purchaseOrders == [] && salesOrders == [] && stock == [] && batches == []
      ensures movements == [] && grns == [] && invoices == [] && payments == []
    {
      users, items, customers, suppliers := [], [], [], [];
      purchaseOrders, salesOrders, stock, batches := [], [], [], [];
      movements, grns, invoices, payments := [], [], [], [];
    }

    /** `POST /auth/register`. */
    method Register(req: UserCreate, userId: string, hash: string -> string) returns (r: Result<User, HttpError>)
      requires Valid()
      modifies this`users
      ensures Valid()
      ensures FindUserByEmail(old(users), req.email).Some? ==> r == Err(EmailTaken) && users == old(users)
      ensures FindUserByEmail(old(users), req.email).None? ==>
        r == Ok(NewUser(req, userId, hash)) && users == old(users) + [NewUser(req, userId, hash)]
    {
      if FindUserByEmail(users, req.email).Some? {
        return Err(EmailTaken);
      }
      var u := NewUser(req, userId, hash);
      RegisterKeepsEmailsUnique(users, req, userId, hash);
      users := users + [u];
      r := Ok(u);
    }

    /** `POST /auth/login`, over the stored users. */
    function SignIn(req: LoginRequest, verify: (string, string) -> bool, createToken: string -> string): (r: Result<LoginResponse, HttpError>)
      reads this
      ensures r.Ok? ==> r.value.user in users && r.value.user.isActive && r.value.user.email == req.email
      ensures r.Err? ==> r.error == BadCredentials || r.error == InactiveUser
    {
      Login(users, req, verify, createToken)
    }

    /** One line of a goods receipt: upsert the stock row, open a batch when due, record the movement. */
    method ReceiveLine(grn: GRN, line: GRNItem, now: int)
      modifies this`stock, this`batches, this`movements
      ensures Receipt(stock, batches, movements) == ReceiveOne(Receipt(old(stock), old(batches), old(movements)), items, grn, line, now)
    {
      var existing := FindRow(stock, line.itemId, grn.locationId, grn.companyId);
      if existing.Some? {
        var i := existing.value;
        stock := stock[i := stock[i].(quantity := stock[i].quantity + line.receivedQuantity)];
      } else {
        stock := stock + [Stock(grn.companyId, line.itemId, grn.locationId, quantity := line.receivedQuantity, lastUpdated := now)];
      }
      var batch := NewBatch(items, grn, line);
      if batch.Some? {
        batches := batches + [batch.value];
      }
      movements := movements + [PurchaseMovement(grn, line, now)];
    }

    /** The loop over a receipt's lines. */
    method ReceiveLines(grn: GRN, now: int)
      modifies this`stock, this`batches, this`movements
      ensures Receipt(stock, batches, movements)
           == ReceiveAll(Receipt(old(stock), old(batches), old(movements)), items, grn, grn.items, now)
    {
      var j := 0;
      assert grn.items[0..] == grn.items;
      while j < |grn.items|
        invariant 0 <= j <= |grn.items|
        invariant ReceiveAll(Receipt(old(stock), old(batches), old(movements)), items, grn, grn.items, now)
               == ReceiveAll(Receipt(stock, batches, movements), items, grn, grn.items[j..], now)
      {
        var line := grn.items[j];
        assert grn.items[j..][0] == line && grn.items[j..][1..] == grn.items[j + 1..];
        ReceiveLine(grn, line, now);
        j := j + 1;
      }
    }

    /** `POST /grn`: receive every line, then store the receipt. */
    method CreateGrn(grn: GRN, user: string, now: int) returns (saved: GRN)
      requires Valid()
      modifies this`stock, this`batches, this`movements, this`grns
      ensures Valid()
      ensures saved == grn.(createdBy := user)
      ensures Receipt(stock, batches, movements)
           == ReceiveAll(Receipt(old(stock), old(batches), old(movements)), items, saved, grn.items, now)
      ensures grns == old(grns) + [saved]
    {
      saved := grn.(createdBy := user);
      ReceiveAllUnique(Receipt(stock, batches, movements), items, saved, saved.items, now);
      ReceiveAllKeepsLedger(Receipt(stock, batches, movements), items, saved, saved.items, now);
      ReceiveLines(saved, now);
      grns := grns + [saved];
    }

    /**
      The deduction loop of one invoice line over the rows the query
      fetched: stop once nothing remains, otherwise take from the next row
      what it held when fetched, at most what remains.
    */
    method DrawDown(found: seq<Found>, requested: int, ctx: SaleCtx)
      requires InRange(stock, found)
      modifies this`stock, this`movements
      ensures stock == Fifo(old(stock), found, requested, ctx).0
      ensures movements == old(movements) + Fifo(old(stock), found, requested, ctx).1
    {
      var remaining := requested;
      ghost var produced: seq<StockMovement> := [];
      var k := 0;
      assert found[0..] == found;
      while k < |found|
        invariant 0 <= k <= |found|
        invariant |stock| == |old(stock)|
        invariant InRange(stock, found)
        invariant movements == old(movements) + produced
        invariant Fifo(old(stock), found, requested, ctx).0 == Fifo(stock, found[k..], remaining, ctx).0
        invariant Fifo(old(stock), found, requested, ctx).1 == produced + Fifo(stock, found[k..], remaining, ctx).1
      {
        if remaining <= 0 {
          break;
        }
        var f := found[k];
        assert found[k..][0] == f && found[k..][1..] == found[k + 1..];
        var deduct := Min(remaining, f.row.quantity);
        var m := SaleMovement(ctx, f.row.locationId, deduct);
        var drawn := stock[f.pos := stock[f.pos].(quantity := stock[f.pos].quantity - deduct)];
        FifoStep(stock, found[k..], remaining, ctx);
        ghost var rest := Fifo(drawn, found[k + 1..], remaining - deduct, ctx);
        assert Fifo(stock, found[k..], remaining, ctx) == (rest.0, [m] + rest.1);
        AppendAssoc(produced, [m], rest.1);
        AppendAssoc(old(movements), produced, [m]);
        stock := drawn;
        remaining := remaining - deduct;
        movements := movements + [m];
        produced := produced + [m];
        k := k + 1;
      }
    }

    /** The loop over an invoice's lines: a line is drawn down only when the invoice names a company. */
    method DeductLines(inv: Invoice, now: int)
      modifies this`stock, this`movements
      ensures (stock, movements) == DeductAll(old(stock), old(movements), inv, inv.items, now)
    {
      var j := 0;
      assert inv.items[0..] == inv.items;
      while j < |inv.items|
        invariant 0 <= j <= |inv.items|
        invariant DeductAll(old(stock), old(movements), inv, inv.items, now)
               == DeductAll(stock, movements, inv, inv.items[j..], now)
      {
        var line := inv.items[j];
        assert inv.items[j..][0] == line && inv.items[j..][1..] == inv.items[j + 1..];
        ghost var step := DeductLine(stock, inv, line, now);
        ghost var before := movements;
        assert DeductAll(stock, movements, inv, inv.items[j..], now)
            == DeductAll(step.0, movements + step.1, inv, inv.items[j + 1..], now);
        if inv.companyId != "" {
          var found := Query(stock, line.itemId, inv.companyId);
          QueryFacts(stock, line.itemId, inv.companyId);
          DrawDown(found, line.quantity, SaleContext(inv, line, now));
        } else {
          assert before + step.1 == before;
        }
        j := j + 1;
      }
    }

    /** `POST /invoices`: compute the balance, draw every line down from stock, then store the invoice. */
    method CreateInvoice(inv: Invoice, user: string, now: int) returns (saved: Invoice)
      requires Valid()
      modifies this`stock, this`movements, this`invoices
      ensures Valid()
      ensures saved == Issue(inv, user)
      ensures (stock, movements) == DeductAll(old(stock), old(movements), saved, inv.items, now)
      ensures invoices == old(invoices) + [saved]
    {
      saved := inv.(createdBy := user);
      saved := saved.(balanceAmount := saved.totalAmount - saved.paidAmount);
      DeductAllSafe(stock, movements, saved, saved.items, now);
      SaleKeepsKeys(stock, DeductAll(stock, movements, saved, saved.items, now).0);
      DeductAllKeepsLedger(stock, movements, saved, saved.items, now);
      DeductLines(saved, now);
      invoices := invoices + [saved];
    }

    /** `POST /payments`: apply the payment to its invoice, if one is stored, then store the payment. */
    method CreatePayment(p: Payment, user: string) returns (saved: Payment)
      requires Valid()
      modifies this`invoices, this`payments
      ensures Valid()
      ensures saved == p.(createdBy := user)
      ensures invoices == RecordPayment(old(invoices), saved)
      ensures payments == old(payments) + [saved]
    {
      saved := p.(createdBy := user);
      var found := FindInvoice(invoices, saved.invoiceId);
      if found.Some? {
        var i := found.value;
        var invoice := invoices[i];
        var newPaid := invoice.paidAmount + saved.amount;
        var newBalance := invoice.totalAmount - newPaid;
        var status := if newBalance <= 0 then InvPaid else InvPartiallyPaid;
        invoices := invoices[i := invoice.(paidAmount := newPaid, balanceAmount := newBalance, status := status)];
      }
      RecordPaymentKeepsBalances(old(invoices), saved);
      payments := payments + [saved];
    }

    /** `GET /dashboard/summary`: the counts, then the low-stock scan over the company's rows, cut to ten. */
    method Dashboard(companyId: string, now: int) returns (s: DashboardSummary)
      ensures s == Summarize(customers, suppliers, items, salesOrders, purchaseOrders, invoices, stock, companyId, now)
    {
      var low: seq<LowStockEntry> := [];
      var i := 0;
      while i < |stock|
        invariant 0 <= i <= |stock|
        invariant low == LowStock(stock[..i], items, companyId)
      {
        assert stock[..i + 1][..i] == stock[..i];
        var row := stock[i];
        if row.companyId == companyId {
          var item := FindItem(items, row.itemId);
          if item.Some? && row.quantity <= item.value.minStockLevel {
            low := low + [LowStockEntry(row.itemId, item.value.name, row.quantity, item.value.minStockLevel)];
          }
        }
        i := i + 1;
      }
      assert stock[..|stock|] == stock;
      s := DashboardSummary(
        |Filter(customers, (c: Customer) => c.companyId == companyId)|,
        |Filter(suppliers, (x: Supplier) => x.companyId == companyId)|,
        |Filter(items, (it: Item) => it.companyId == companyId)|,
        |Filter(salesOrders, (so: SalesOrder) => so.companyId == companyId && PendingOrApprovedSo(so))|,
        |Filter(purchaseOrders, (po: PurchaseOrder) => po.companyId == companyId && PendingOrApprovedPo(po))|,
        |Filter(invoices, (inv: Invoice) => IsOverdue(inv, companyId, now))|,
        if |low| <= 10 then low else low[..10]);
    }
  }
}
