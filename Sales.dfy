/**
  Invoicing takes the invoiced quantities out of stock: for every line of an
  invoice that names a company, the oldest rows of the item are drawn down
  first, each with a sale movement against the invoice.
*/
module Sales {
  import opened Models
  import opened Inventory
  import opened Receipts

  function SaleContext(inv: Invoice, line: InvoiceItem, now: int): SaleCtx {
    SaleCtx(inv.companyId, line.itemId, inv.invoiceId, inv.createdBy, now)
  }

  lemma FetchedIsWell(stock: seq<Stock>, found: seq<Found>, itemId: string, companyId: string)
    requires Fetched(stock, found, itemId, companyId)
    ensures WellFetched(stock, found)
    ensures forall k :: 0 <= k < |found| ==> RowOf(stock[found[k].pos], itemId, companyId)
  {
  }

  /** One invoice line: no stock change without a company, otherwise the FIFO deduction over the query's rows. */
  function DeductLine(stock: seq<Stock>, inv: Invoice, line: InvoiceItem, now: int): (r: (seq<Stock>, seq<StockMovement>))
    ensures |r.0| == |stock|
  {
    if inv.companyId == "" then (stock, [])
    else
      QueryFacts(stock, line.itemId, inv.companyId);
      Fifo(stock, Query(stock, line.itemId, inv.companyId), line.quantity, SaleContext(inv, line, now))
  }

  /** The loop over an invoice's lines, in order, appending each line's movements to `ms`. */
  function DeductAll(stock: seq<Stock>, ms: seq<StockMovement>, inv: Invoice, lines: seq<InvoiceItem>, now: int)
    : (r: (seq<Stock>, seq<StockMovement>))
    ensures |r.0| == |stock|
    decreases |lines|
  {
    if lines == [] then (stock, ms)
    else
      var first := DeductLine(stock, inv, lines[0], now);
      DeductAll(first.0, ms + first.1, inv, lines[1..], now)
  }

  lemma DeductLineSafe(stock: seq<Stock>, inv: Invoice, line: InvoiceItem, now: int)
    ensures SaleStep(stock, DeductLine(stock, inv, line, now).0)
  {
    if inv.companyId != "" {
      var q := Query(stock, line.itemId, inv.companyId);
      QueryFacts(stock, line.itemId, inv.companyId);
      FetchedIsWell(stock, q, line.itemId, inv.companyId);
      FifoSafe(stock, q, line.quantity, SaleContext(inv, line, now));
    }
  }

  /**
    Conservation for one line: its movements add up to minus the smaller of
    the invoiced quantity and what the company had of the item in rows with
    a positive quantity; an invoice without a company moves nothing.
  */
  lemma DeductLineConservation(stock: seq<Stock>, inv: Invoice, line: InvoiceItem, now: int)
    ensures SumMoved(DeductLine(stock, inv, line, now).1)
         == if inv.companyId == "" then 0
            else -Min(Max(line.quantity, 0), Available(stock, line.itemId, inv.companyId))
  {
    if inv.companyId != "" {
      var q := Query(stock, line.itemId, inv.companyId);
      QueryFacts(stock, line.itemId, inv.companyId);
      FetchedIsWell(stock, q, line.itemId, inv.companyId);
      FifoConservation(stock, q, line.quantity, SaleContext(inv, line, now));
    }
  }

  /**
    First in, first out, in terms of the rows themselves: when a line draws
    on a row of its item, every row of the item in the company that was
    updated strictly earlier and had a positive quantity has been emptied.
  */
  lemma DeductLineFifo(stock: seq<Stock>, inv: Invoice, line: InvoiceItem, now: int, older: nat, newer: nat)
    requires inv.companyId != ""
    requires older < |stock| && newer < |stock|
    requires IsCandidate(stock[older], line.itemId, inv.companyId)
    requires stock[older].lastUpdated < stock[newer].lastUpdated
    requires DeductLine(stock, inv, line, now).0[newer].quantity < stock[newer].quantity
    ensures DeductLine(stock, inv, line, now).0[older].quantity == 0
  {
    var q := Query(stock, line.itemId, inv.companyId);
    var ctx := SaleContext(inv, line, now);
    QueryFacts(stock, line.itemId, inv.companyId);
    FetchedIsWell(stock, q, line.itemId, inv.companyId);
    var k := FifoTouched(stock, q, line.quantity, ctx, newer);
    var l :| 0 <= l < |q| && q[l] == Found(older, stock[older]);
    FifoByAge(stock, q, line.quantity, ctx, l, k);
  }

  /** Each total on hand changes by exactly the net quantity of the line's movements. */
  lemma DeductLineLedger(stock: seq<Stock>, inv: Invoice, line: InvoiceItem, now: int, itemId: string, companyId: string)
    ensures TotalQty(DeductLine(stock, inv, line, now).0, itemId, companyId)
         == TotalQty(stock, itemId, companyId) + MovedQty(DeductLine(stock, inv, line, now).1, itemId, companyId)
  {
    if inv.companyId != "" {
      var q := Query(stock, line.itemId, inv.companyId);
      QueryFacts(stock, line.itemId, inv.companyId);
      FetchedIsWell(stock, q, line.itemId, inv.companyId);
      FifoLedger(stock, q, line.quantity, SaleContext(inv, line, now), itemId, companyId);
    }
  }

  /** A sale movement for this invoice and line, taking a positive quantity out. */
  predicate IsSaleOf(m: StockMovement, inv: Invoice, now: int) {
    && m.movementType == Sale && m.referenceId == inv.invoiceId && m.referenceType == "invoice"
    && m.companyId == inv.companyId && m.createdBy == inv.createdBy && m.movementDate == now
    && m.quantity < 0
  }

  lemma DeductLineMovements(stock: seq<Stock>, inv: Invoice, line: InvoiceItem, now: int)
    ensures forall j :: 0 <= j < |DeductLine(stock, inv, line, now).1| ==>
      IsSaleOf(DeductLine(stock, inv, line, now).1[j], inv, now) && DeductLine(stock, inv, line, now).1[j].itemId == line.itemId
  {
    if inv.companyId != "" {
      var q := Query(stock, line.itemId, inv.companyId);
      QueryFacts(stock, line.itemId, inv.companyId);
      FetchedIsWell(stock, q, line.itemId, inv.companyId);
      FifoMovements(stock, q, line.quantity, SaleContext(inv, line, now));
    }
  }

  /** Over a whole invoice, every row only ever loses quantity, and no row is taken below zero. */
  lemma {:induction false} DeductAllSafe(stock: seq<Stock>, ms: seq<StockMovement>, inv: Invoice, lines: seq<InvoiceItem>, now: int)
    ensures SaleStep(stock, DeductAll(stock, ms, inv, lines, now).0)
    decreases |lines|
  {
    if lines != [] {
      var first := DeductLine(stock, inv, lines[0], now);
      DeductLineSafe(stock, inv, lines[0], now);
      DeductAllSafe(first.0, ms + first.1, inv, lines[1..], now);
    }
  }

  /** Ledger balance: an invoice keeps stock on hand equal to the net of the movements recorded. */
  lemma {:induction false} DeductAllKeepsLedger(stock: seq<Stock>, ms: seq<StockMovement>, inv: Invoice, lines: seq<InvoiceItem>, now: int)
    requires Ledger(stock, ms)
    ensures Ledger(DeductAll(stock, ms, inv, lines, now).0, DeductAll(stock, ms, inv, lines, now).1)
    decreases |lines|
  {
    if lines != [] {
      var first := DeductLine(stock, inv, lines[0], now);
      forall itemId, companyId ensures TotalQty(first.0, itemId, companyId) == MovedQty(ms + first.1, itemId, companyId) {
        DeductLineLedger(stock, inv, lines[0], now, itemId, companyId);
        MovedQtyAppend(ms, first.1, itemId, companyId);
      }
      DeductAllKeepsLedger(first.0, ms + first.1, inv, lines[1..], now);
    }
  }

  /**
    Movements already recorded stay as they were, every movement an invoice
    adds is a sale against it, and an invoice without a company adds none
    and changes no stock.
  */
  lemma {:induction false} DeductAllMovements(stock: seq<Stock>, ms: seq<StockMovement>, inv: Invoice, lines: seq<InvoiceItem>, now: int)
    ensures |DeductAll(stock, ms, inv, lines, now).1| >= |ms|
    ensures DeductAll(stock, ms, inv, lines, now).1[..|ms|] == ms
    ensures forall j :: |ms| <= j < |DeductAll(stock, ms, inv, lines, now).1| ==> IsSaleOf(DeductAll(stock, ms, inv, lines, now).1[j], inv, now)
    ensures inv.companyId == "" ==> DeductAll(stock, ms, inv, lines, now) == (stock, ms)
    decreases |lines|
  {
    if lines != [] {
      var first := DeductLine(stock, inv, lines[0], now);
      var next := ms + first.1;
      DeductLineMovements(stock, inv, lines[0], now);
      DeductAllMovements(first.0, next, inv, lines[1..], now);
      var r := DeductAll(stock, ms, inv, lines, now).1;
      assert r[..|next|][..|ms|] == r[..|ms|];
      forall j | |ms| <= j < |next| ensures r[j] == first.1[j - |ms|] {
        assert r[..|next|][j] == r[j];
      }
      if inv.companyId == "" {
        assert next == ms;
      }
    }
  }

  /** A sale never creates or re-keys a row, so at most one row per key stays true. */
  lemma SaleKeepsKeys(before: seq<Stock>, after: seq<Stock>)
    requires SaleStep(before, after)
    requires UniqueKeys(before)
    ensures UniqueKeys(after)
  {
  }
}
