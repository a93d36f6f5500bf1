/**
  Receiving goods against a purchase order: each line of a goods receipt
  note adds its received quantity to the stock row of the item at the
  receipt's location (creating the row when there is none), opens a batch
  for batch-tracked items, and records one purchase movement.
*/
module Receipts {
  import opened Wrappers
  import opened Models
  import opened Lists
  import opened Inventory

  predicate AtKey(r: Stock, itemId: string, locationId: string, companyId: string) {
    r.itemId == itemId && r.locationId == locationId && r.companyId == companyId
  }

  /** `db.stock.find_one({item_id, location_id, company_id})`: the first row with that key. */
  function FindRow(stock: seq<Stock>, itemId: string, locationId: string, companyId: string): (r: Option<nat>)
    ensures r.Some? ==> r.value < |stock| && AtKey(stock[r.value], itemId, locationId, companyId)
    ensures r.Some? ==> forall j :: 0 <= j < r.value ==> !AtKey(stock[j], itemId, locationId, companyId)
    ensures r.None? ==> forall j :: 0 <= j < |stock| ==> !AtKey(stock[j], itemId, locationId, companyId)
  {
    FirstIndex(stock, (s: Stock) => AtKey(s, itemId, locationId, companyId))
  }

  /** The quantity of an item at a location, as the row the server finds for it says (zero without one). */
  function OnHand(stock: seq<Stock>, itemId: string, locationId: string, companyId: string): int {
    match FindRow(stock, itemId, locationId, companyId)
    case Some(i) => stock[i].quantity
    case None => 0
  }

  /** At most one row per item, location and company. */
  predicate UniqueKeys(stock: seq<Stock>) {
    forall i, j :: 0 <= i < j < |stock| ==> !AtKey(stock[j], stock[i].itemId, stock[i].locationId, stock[i].companyId)
  }

  /** The stock upsert for one received line. */
  function ReceiveStock(stock: seq<Stock>, grn: GRN, line: GRNItem, now: int): (r: seq<Stock>)
    ensures |stock| <= |r| <= |stock| + 1
  {
    match FindRow(stock, line.itemId, grn.locationId, grn.companyId)
    case Some(i) => stock[i := stock[i].(quantity := stock[i].quantity + line.receivedQuantity)]
    case None => stock + [Stock(grn.companyId, line.itemId, grn.locationId, quantity := line.receivedQuantity, lastUpdated := now)]
  }

  /** Two row lists with the same keys row by row have the same first match for every key. */
  lemma FindRowSameKeys(a: seq<Stock>, b: seq<Stock>, itemId: string, locationId: string, companyId: string)
    requires |a| == |b|
    requires forall j :: 0 <= j < |a| ==> AtKey(a[j], itemId, locationId, companyId) == AtKey(b[j], itemId, locationId, companyId)
    ensures FindRow(a, itemId, locationId, companyId) == FindRow(b, itemId, locationId, companyId)
  {
  }

  /** Appending a row of another key leaves every first match where it was. */
  lemma FindRowAppendOther(stock: seq<Stock>, r: Stock, itemId: string, locationId: string, companyId: string)
    requires !AtKey(r, itemId, locationId, companyId)
    ensures FindRow(stock + [r], itemId, locationId, companyId) == FindRow(stock, itemId, locationId, companyId)
  {
    assert forall j :: 0 <= j < |stock| ==> (stock + [r])[j] == stock[j];
    assert (stock + [r])[|stock|] == r;
  }

  /**
    Receiving a line adds its quantity to what is on hand of that item at
    the receipt's location, and changes nothing on hand for any other item,
    location or company.
  */
  lemma ReceiveOnHand(stock: seq<Stock>, grn: GRN, line: GRNItem, now: int, itemId: string, locationId: string, companyId: string)
    ensures OnHand(ReceiveStock(stock, grn, line, now), itemId, locationId, companyId)
         == OnHand(stock, itemId, locationId, companyId)
            + (if itemId == line.itemId && locationId == grn.locationId && companyId == grn.companyId
               then line.receivedQuantity else 0)
  {
    var r := ReceiveStock(stock, grn, line, now);
    match FindRow(stock, line.itemId, grn.locationId, grn.companyId)
    case Some(i) =>
      FindRowSameKeys(stock, r, itemId, locationId, companyId);
      var f := FindRow(stock, itemId, locationId, companyId);
      if f.Some? && f.value == i {
        assert AtKey(stock[i], line.itemId, grn.locationId, grn.companyId);
      }
    case None =>
      var row := Stock(grn.companyId, line.itemId, grn.locationId, quantity := line.receivedQuantity, lastUpdated := now);
      if itemId == line.itemId && locationId == grn.locationId && companyId == grn.companyId {
        var f := FindRow(r, itemId, locationId, companyId);
        assert AtKey(r[|stock|], itemId, locationId, companyId);
        assert forall j :: 0 <= j < |stock| ==> r[j] == stock[j];
      } else {
        FindRowAppendOther(stock, row, itemId, locationId, companyId);
        var f := FindRow(stock, itemId, locationId, companyId);
        if f.Some? { assert r[f.value] == stock[f.value]; }
      }
  }

  /** Receiving never creates a second row for a key. */
  lemma ReceiveUnique(stock: seq<Stock>, grn: GRN, line: GRNItem, now: int)
    requires UniqueKeys(stock)
    ensures UniqueKeys(ReceiveStock(stock, grn, line, now))
  {
    var r := ReceiveStock(stock, grn, line, now);
    match FindRow(stock, line.itemId, grn.locationId, grn.companyId)
    case Some(i) =>
      assert forall j :: 0 <= j < |r| ==> r[j] == stock[j].(quantity := r[j].quantity);
    case None =>
      assert forall j :: 0 <= j < |stock| ==> r[j] == stock[j];
  }

  /** The upsert changes the item's total in the receipt's company by the received quantity, and no other total. */
  lemma ReceiveLedger(stock: seq<Stock>, grn: GRN, line: GRNItem, now: int, itemId: string, companyId: string)
    ensures TotalQty(ReceiveStock(stock, grn, line, now), itemId, companyId)
         == TotalQty(stock, itemId, companyId)
            + (if itemId == line.itemId && companyId == grn.companyId then line.receivedQuantity else 0)
  {
    match FindRow(stock, line.itemId, grn.locationId, grn.companyId)
    case Some(i) =>
      TotalQtyUpdate(stock, i, stock[i].quantity + line.receivedQuantity, itemId, companyId);
    case None =>
      TotalQtyAppend(stock, Stock(grn.companyId, line.itemId, grn.locationId, quantity := line.receivedQuantity, lastUpdated := now), itemId, companyId);
  }

  /**
    The batch a line opens: only for an item the catalog marks batch-tracked
    and a non-empty batch number; everything received is available.
  */
  function NewBatch(items: seq<Item>, grn: GRN, line: GRNItem): (r: Option<Batch>)
    ensures r.Some? <==> FindItem(items, line.itemId).Some? && FindItem(items, line.itemId).value.isBatchTracked
                         && line.batchNumber.Some? && line.batchNumber.value != ""
    ensures r.Some? ==> r.value.quantityAvailable == r.value.quantityReceived == line.receivedQuantity
    ensures r.Some? ==> r.value.itemId == line.itemId && r.value.batchNumber == line.batchNumber.value
    ensures r.Some? ==> r.value.companyId == grn.companyId && r.value.locationId == grn.locationId
    ensures r.Some? ==> r.value.purchaseDate == grn.grnDate && r.value.purchasePrice == line.unitPrice
  {
    match FindItem(items, line.itemId)
    case Some(item) =>
      if item.isBatchTracked && line.batchNumber.Some? && line.batchNumber.value != "" then
        Some(Batch(grn.companyId, line.itemId, line.batchNumber.value,
                   manufacturingDate := line.manufacturingDate, expiryDate := line.expiryDate,
                   purchaseDate := grn.grnDate, purchasePrice := line.unitPrice,
                   quantityReceived := line.receivedQuantity, quantityAvailable := line.receivedQuantity,
                   locationId := grn.locationId))
      else None
    case None => None
  }

  function PurchaseMovement(grn: GRN, line: GRNItem, now: int): StockMovement {
    StockMovement(grn.companyId, line.itemId, locationId := grn.locationId, movementType := Purchase,
                  quantity := line.receivedQuantity, referenceId := grn.poId, referenceType := "purchase_order",
                  movementDate := now, createdBy := grn.createdBy)
  }

  function OptionSeq<T>(o: Option<T>): seq<T> {
    match o
    case Some(x) => [x]
    case None => []
  }

  /** The collections a receipt writes to: stock rows, batches and movements. */
  datatype Receipt = Receipt(stock: seq<Stock>, batches: seq<Batch>, movements: seq<StockMovement>)

  /** Receiving one line. */
  function ReceiveOne(acc: Receipt, items: seq<Item>, grn: GRN, line: GRNItem, now: int): Receipt {
    Receipt(ReceiveStock(acc.stock, grn, line, now),
            acc.batches + OptionSeq(NewBatch(items, grn, line)),
            acc.movements + [PurchaseMovement(grn, line, now)])
  }

  /** The loop over a receipt's lines, in order. */
  function ReceiveAll(acc: Receipt, items: seq<Item>, grn: GRN, lines: seq<GRNItem>, now: int): (r: Receipt)
    ensures |r.movements| == |acc.movements| + |lines|
    ensures |acc.batches| <= |r.batches| <= |acc.batches| + |lines|
    decreases |lines|
  {
    if lines == [] then acc
    else ReceiveAll(ReceiveOne(acc, items, grn, lines[0], now), items, grn, lines[1..], now)
  }

  /** One purchase movement per line, in line order, for the quantity received and against the purchase order. */
  function PurchaseMovements(grn: GRN, lines: seq<GRNItem>, now: int): (r: seq<StockMovement>)
    ensures |r| == |lines|
    ensures forall k :: 0 <= k < |lines| ==> r[k] == PurchaseMovement(grn, lines[k], now)
  {
    if lines == [] then [] else [PurchaseMovement(grn, lines[0], now)] + PurchaseMovements(grn, lines[1..], now)
  }

  /** A receipt appends exactly the lines' purchase movements; earlier movements stay as they were. */
  lemma {:induction false} ReceiveAllMovements(acc: Receipt, items: seq<Item>, grn: GRN, lines: seq<GRNItem>, now: int)
    ensures ReceiveAll(acc, items, grn, lines, now).movements == acc.movements + PurchaseMovements(grn, lines, now)
    decreases |lines|
  {
    if lines != [] {
      var next := ReceiveOne(acc, items, grn, lines[0], now);
      ReceiveAllMovements(next, items, grn, lines[1..], now);
      AppendAssoc(acc.movements, [PurchaseMovement(grn, lines[0], now)], PurchaseMovements(grn, lines[1..], now));
    }
  }

  /** The sum of what the lines received of one item. */
  function Received(lines: seq<GRNItem>, itemId: string): int {
    if lines == [] then 0
    else (if lines[0].itemId == itemId then lines[0].receivedQuantity else 0) + Received(lines[1..], itemId)
  }

  /**
    After a receipt, what is on hand of each item at the receipt's location
    has grown by everything received of it; nothing changed anywhere else.
  */
  lemma {:induction false} ReceiveAllOnHand(acc: Receipt, items: seq<Item>, grn: GRN, lines: seq<GRNItem>, now: int,
                                            itemId: string, locationId: string, companyId: string)
    ensures OnHand(ReceiveAll(acc, items, grn, lines, now).stock, itemId, locationId, companyId)
         == OnHand(acc.stock, itemId, locationId, companyId)
            + (if locationId == grn.locationId && companyId == grn.companyId then Received(lines, itemId) else 0)
    decreases |lines|
  {
    if lines != [] {
      ReceiveOnHand(acc.stock, grn, lines[0], now, itemId, locationId, companyId);
      ReceiveAllOnHand(ReceiveOne(acc, items, grn, lines[0], now), items, grn, lines[1..], now, itemId, locationId, companyId);
    }
  }

  lemma {:induction false} ReceiveAllUnique(acc: Receipt, items: seq<Item>, grn: GRN, lines: seq<GRNItem>, now: int)
    requires UniqueKeys(acc.stock)
    ensures UniqueKeys(ReceiveAll(acc, items, grn, lines, now).stock)
    decreases |lines|
  {
    if lines != [] {
      ReceiveUnique(acc.stock, grn, lines[0], now);
      ReceiveAllUnique(ReceiveOne(acc, items, grn, lines[0], now), items, grn, lines[1..], now);
    }
  }

  /** Receiving one line keeps stock on hand equal to the net of the movements. */
  lemma ReceiveOneKeepsLedger(acc: Receipt, items: seq<Item>, grn: GRN, line: GRNItem, now: int)
    requires Ledger(acc.stock, acc.movements)
    ensures Ledger(ReceiveOne(acc, items, grn, line, now).stock, ReceiveOne(acc, items, grn, line, now).movements)
  {
    var m := PurchaseMovement(grn, line, now);
    forall itemId, companyId
      ensures TotalQty(ReceiveStock(acc.stock, grn, line, now), itemId, companyId) == MovedQty(acc.movements + [m], itemId, companyId)
    {
      ReceiveLedger(acc.stock, grn, line, now, itemId, companyId);
      MovedQtyAppend(acc.movements, [m], itemId, companyId);
    }
  }

  /** Ledger balance: a receipt keeps stock on hand equal to the net of the movements recorded. */
  lemma {:induction false} ReceiveAllKeepsLedger(acc: Receipt, items: seq<Item>, grn: GRN, lines: seq<GRNItem>, now: int)
    requires Ledger(acc.stock, acc.movements)
    ensures Ledger(ReceiveAll(acc, items, grn, lines, now).stock, ReceiveAll(acc, items, grn, lines, now).movements)
    decreases |lines|
  {
    if lines != [] {
      ReceiveOneKeepsLedger(acc, items, grn, lines[0], now);
      ReceiveAllKeepsLedger(ReceiveOne(acc, items, grn, lines[0], now), items, grn, lines[1..], now);
    }
  }

  /**
    Batches already stored stay as they were, and every batch a receipt
    opens belongs to a batch-tracked item and starts with all it received
    available.
  */
  lemma {:induction false} ReceiveAllBatches(acc: Receipt, items: seq<Item>, grn: GRN, lines: seq<GRNItem>, now: int)
    ensures ReceiveAll(acc, items, grn, lines, now).batches[..|acc.batches|] == acc.batches
    ensures forall k :: |acc.batches| <= k < |ReceiveAll(acc, items, grn, lines, now).batches| ==>
      var b := ReceiveAll(acc, items, grn, lines, now).batches[k];
      && b.quantityAvailable == b.quantityReceived
      && b.companyId == grn.companyId && b.locationId == grn.locationId && b.batchNumber != ""
      && FindItem(items, b.itemId).Some? && FindItem(items, b.itemId).value.isBatchTracked
    decreases |lines|
  {
    if lines != [] {
      var next := ReceiveOne(acc, items, grn, lines[0], now);
      ReceiveAllBatches(next, items, grn, lines[1..], now);
      var r := ReceiveAll(acc, items, grn, lines, now).batches;
      assert r[..|next.batches|][..|acc.batches|] == r[..|acc.batches|];
      forall k | |acc.batches| <= k < |next.batches| ensures r[k] == next.batches[k] {
        assert r[..|next.batches|][k] == r[k];
      }
    }
  }
}
