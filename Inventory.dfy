/**
  The stock ledger behind goods receipts and invoices, as values: the query
  that finds the stock rows an invoice line may draw from, the first-in
  first-out deduction over them, and the sums that the ledger keeps equal.
*/
module Inventory {
  import opened Wrappers
  import opened Models
  import opened Lists

  function Min(a: int, b: int): int { if a <= b then a else b }
  function Max(a: int, b: int): int { if a >= b then a else b }

  /** `db.items.find_one({"item_id": ...})`: the first catalog entry with that id, in any company. */
  function FindItem(items: seq<Item>, itemId: string): (r: Option<Item>)
    ensures r.Some? ==> r.value in items && r.value.itemId == itemId
    ensures r.Some? ==> exists i :: 0 <= i < |items| && items[i] == r.value && forall j :: 0 <= j < i ==> items[j].itemId != itemId
    ensures r.None? <==> forall it :: it in items ==> it.itemId != itemId
  {
    match FirstIndex(items, (it: Item) => it.itemId == itemId)
    case Some(i) => Some(items[i])
    case None => None
  }

  // ------------------------------------------------------- ledger sums

  predicate RowOf(r: Stock, itemId: string, companyId: string) {
    r.itemId == itemId && r.companyId == companyId
  }

  /** The quantity on hand of one item in one company, over all its rows and locations. */
  function TotalQty(stock: seq<Stock>, itemId: string, companyId: string): int {
    if stock == [] then 0
    else
      var last := stock[|stock| - 1];
      TotalQty(stock[..|stock| - 1], itemId, companyId) + (if RowOf(last, itemId, companyId) then last.quantity else 0)
  }

  /** The net quantity that the movements of one item in one company record. */
  function MovedQty(ms: seq<StockMovement>, itemId: string, companyId: string): int {
    if ms == [] then 0
    else (if ms[0].itemId == itemId && ms[0].companyId == companyId then ms[0].quantity else 0)
         + MovedQty(ms[1..], itemId, companyId)
  }

  lemma {:induction false} MovedQtyAppend(a: seq<StockMovement>, b: seq<StockMovement>, itemId: string, companyId: string)
    ensures MovedQty(a + b, itemId, companyId) == MovedQty(a, itemId, companyId) + MovedQty(b, itemId, companyId)
  {
    if a == [] {
      assert a + b == b;
    } else {
      assert (a + b)[0] == a[0] && (a + b)[1..] == a[1..] + b;
      MovedQtyAppend(a[1..], b, itemId, companyId);
    }
  }

  /** Ledger balance: for every item and company, the stock on hand is the net of the movements. */
  ghost predicate Ledger(stock: seq<Stock>, ms: seq<StockMovement>) {
    forall itemId, companyId :: TotalQty(stock, itemId, companyId) == MovedQty(ms, itemId, companyId)
  }

  /** Changing one row's quantity changes the total of its own item and company by the difference, and no other total. */
  lemma {:induction false} TotalQtyUpdate(stock: seq<Stock>, i: nat, q: int, itemId: string, companyId: string)
    requires i < |stock|
    ensures TotalQty(stock[i := stock[i].(quantity := q)], itemId, companyId)
         == TotalQty(stock, itemId, companyId)
            + (if RowOf(stock[i], itemId, companyId) then q - stock[i].quantity else 0)
  {
    var s' := stock[i := stock[i].(quantity := q)];
    var n := |stock|;
    if i == n - 1 {
      assert s'[..n - 1] == stock[..n - 1];
    } else {
      assert s'[..n - 1] == stock[..n - 1][i := stock[i].(quantity := q)];
      TotalQtyUpdate(stock[..n - 1], i, q, itemId, companyId);
    }
  }

  /** Adding a row adds its quantity to its own item and company. */
  lemma TotalQtyAppend(stock: seq<Stock>, r: Stock, itemId: string, companyId: string)
    ensures TotalQty(stock + [r], itemId, companyId)
         == TotalQty(stock, itemId, companyId) + (if RowOf(r, itemId, companyId) then r.quantity else 0)
  {
    assert (stock + [r])[..|stock|] == stock;
  }

  // ------------------------------------------------------- the query

  /** A fetched stock document: the row's position in the collection and the row as read. */
  datatype Found = Found(pos: nat, row: Stock)

  /** The filter `{item_id, company_id, quantity: {$gt: 0}}`. */
  predicate IsCandidate(r: Stock, itemId: string, companyId: string) {
    RowOf(r, itemId, companyId) && r.quantity > 0
  }

  /** The rows among the first `n` that the filter selects, in collection order. */
  function Matching(stock: seq<Stock>, itemId: string, companyId: string, n: nat): (r: seq<Found>)
    requires n <= |stock|
    ensures forall k :: 0 <= k < |r| ==>
      r[k].pos < n && r[k].row == stock[r[k].pos] && IsCandidate(r[k].row, itemId, companyId)
    ensures forall k, l :: 0 <= k < l < |r| ==> r[k].pos < r[l].pos
    ensures forall i :: 0 <= i < n && IsCandidate(stock[i], itemId, companyId) ==> Found(i, stock[i]) in r
  {
    if n == 0 then []
    else
      Matching(stock, itemId, companyId, n - 1)
      + (if IsCandidate(stock[n - 1], itemId, companyId) then [Found(n - 1, stock[n - 1])] else [])
  }

  /** What the filter makes available: the sum of the positive quantities of the item in the company. */
  function Available(stock: seq<Stock>, itemId: string, companyId: string): int {
    if stock == [] then 0
    else
      var last := stock[|stock| - 1];
      Available(stock[..|stock| - 1], itemId, companyId) + (if IsCandidate(last, itemId, companyId) then last.quantity else 0)
  }

  function SumQty(fs: seq<Found>): int {
    if fs == [] then 0 else fs[0].row.quantity + SumQty(fs[1..])
  }

  lemma {:induction false} SumQtyAppend(a: seq<Found>, b: seq<Found>)
    ensures SumQty(a + b) == SumQty(a) + SumQty(b)
  {
    if a == [] {
      assert a + b == b;
    } else {
      assert (a + b)[0] == a[0] && (a + b)[1..] == a[1..] + b;
      SumQtyAppend(a[1..], b);
    }
  }

  lemma AvailableStep(stock: seq<Stock>, itemId: string, companyId: string, n: nat)
    requires 0 < n <= |stock|
    ensures Available(stock[..n], itemId, companyId)
         == Available(stock[..n - 1], itemId, companyId) + (if IsCandidate(stock[n - 1], itemId, companyId) then stock[n - 1].quantity else 0)
  {
    assert stock[..n][..n - 1] == stock[..n - 1];
  }

  lemma MatchingStep(stock: seq<Stock>, itemId: string, companyId: string, n: nat)
    requires 0 < n <= |stock|
    ensures SumQty(Matching(stock, itemId, companyId, n))
         == SumQty(Matching(stock, itemId, companyId, n - 1)) + (if IsCandidate(stock[n - 1], itemId, companyId) then stock[n - 1].quantity else 0)
  {
    var m := Matching(stock, itemId, companyId, n - 1);
    var tail := if IsCandidate(stock[n - 1], itemId, companyId) then [Found(n - 1, stock[n - 1])] else [];
    SumQtyAppend(m, tail);
  }

  lemma {:induction false} MatchingSum(stock: seq<Stock>, itemId: string, companyId: string, n: nat)
    requires n <= |stock|
    ensures SumQty(Matching(stock, itemId, companyId, n)) == Available(stock[..n], itemId, companyId)
  {
    if n > 0 {
      MatchingSum(stock, itemId, companyId, n - 1);
      MatchingStep(stock, itemId, companyId, n);
      AvailableStep(stock, itemId, companyId, n);
    }
  }

  predicate SortedByAge(s: seq<Found>) {
    forall i, j :: 0 <= i < j < |s| ==> s[i].row.lastUpdated <= s[j].row.lastUpdated
  }

  predicate DistinctPos(s: seq<Found>) {
    forall i, j :: 0 <= i < j < |s| ==> s[i].pos != s[j].pos
  }

  /** Puts `x` before the first element that is not older than it. */
  function Insert(x: Found, s: seq<Found>): seq<Found> {
    if s == [] || x.row.lastUpdated <= s[0].row.lastUpdated then [x] + s
    else [s[0]] + Insert(x, s[1..])
  }

  /** `.sort("last_updated", 1)`: oldest first; rows with equal timestamps keep collection order. */
  function SortByAge(xs: seq<Found>): seq<Found> {
    if xs == [] then [] else Insert(xs[0], SortByAge(xs[1..]))
  }

  lemma {:induction false} InsertMultiset(x: Found, s: seq<Found>)
    ensures multiset(Insert(x, s)) == multiset(s) + multiset{x}
  {
    if s != [] && x.row.lastUpdated > s[0].row.lastUpdated {
      InsertMultiset(x, s[1..]);
      assert s == [s[0]] + s[1..];
    }
  }

  lemma InsertMembers(x: Found, s: seq<Found>)
    ensures forall y :: y in Insert(x, s) <==> y == x || y in s
  {
    InsertMultiset(x, s);
    forall y ensures y in Insert(x, s) <==> y == x || y in s {
      assert y in Insert(x, s) <==> y in multiset(Insert(x, s));
      assert y in s <==> y in multiset(s);
    }
  }

  lemma {:induction false} InsertSum(x: Found, s: seq<Found>)
    ensures SumQty(Insert(x, s)) == x.row.quantity + SumQty(s)
  {
    if s != [] && x.row.lastUpdated > s[0].row.lastUpdated {
      InsertSum(x, s[1..]);
    }
  }

  lemma {:induction false} InsertSorted(x: Found, s: seq<Found>)
    requires SortedByAge(s)
    ensures SortedByAge(Insert(x, s))
  {
    if s != [] && x.row.lastUpdated > s[0].row.lastUpdated {
      InsertSorted(x, s[1..]);
      InsertMembers(x, s[1..]);
      var r := Insert(x, s[1..]);
      assert forall y :: y in r ==> s[0].row.lastUpdated <= y.row.lastUpdated;
      assert forall i :: 0 <= i < |r| ==> r[i] in r;
    }
  }

  lemma {:induction false} InsertDistinct(x: Found, s: seq<Found>)
    requires DistinctPos(s)
    requires forall y :: y in s ==> y.pos != x.pos
    ensures DistinctPos(Insert(x, s))
  {
    if s != [] && x.row.lastUpdated > s[0].row.lastUpdated {
      assert DistinctPos(s[1..]);
      InsertDistinct(x, s[1..]);
      InsertMembers(x, s[1..]);
      var r := Insert(x, s[1..]);
      assert forall y :: y in r ==> y.pos != s[0].pos;
      assert forall i :: 0 <= i < |r| ==> r[i] in r;
    }
  }

  lemma {:induction false} SortFacts(xs: seq<Found>)
    ensures multiset(SortByAge(xs)) == multiset(xs)
    ensures SumQty(SortByAge(xs)) == SumQty(xs)
    ensures SortedByAge(SortByAge(xs))
  {
    if xs != [] {
      SortFacts(xs[1..]);
      var rest := SortByAge(xs[1..]);
      InsertMultiset(xs[0], rest);
      InsertSum(xs[0], rest);
      InsertSorted(xs[0], rest);
      assert xs == [xs[0]] + xs[1..];
    }
  }

  lemma {:induction false} SortDistinct(xs: seq<Found>)
    requires DistinctPos(xs)
    ensures DistinctPos(SortByAge(xs))
  {
    if xs != [] {
      assert DistinctPos(xs[1..]);
      SortDistinct(xs[1..]);
      SortFacts(xs[1..]);
      var rest := SortByAge(xs[1..]);
      forall y | y in rest ensures y.pos != xs[0].pos {
        assert y in multiset(xs[1..]);
      }
      InsertDistinct(xs[0], rest);
    }
  }

  /** `db.stock.find({item_id, company_id, quantity: {$gt: 0}}).sort("last_updated", 1)`. */
  function Query(stock: seq<Stock>, itemId: string, companyId: string): seq<Found> {
    SortByAge(Matching(stock, itemId, companyId, |stock|))
  }

  /** The fetched documents name distinct rows of `stock`, as they stand, each with a positive quantity. */
  predicate Fetched(stock: seq<Stock>, found: seq<Found>, itemId: string, companyId: string) {
    && DistinctPos(found)
    && forall k :: 0 <= k < |found| ==>
         found[k].pos < |stock| && found[k].row == stock[found[k].pos] && IsCandidate(found[k].row, itemId, companyId)
  }

  /**
    The query returns exactly the rows of the item in the company whose
    quantity is positive, each once, oldest first; their quantities add up to
    what is available.
  */
  lemma QueryFacts(stock: seq<Stock>, itemId: string, companyId: string)
    ensures Fetched(stock, Query(stock, itemId, companyId), itemId, companyId)
    ensures SortedByAge(Query(stock, itemId, companyId))
    ensures forall i :: 0 <= i < |stock| && IsCandidate(stock[i], itemId, companyId) ==>
              Found(i, stock[i]) in Query(stock, itemId, companyId)
    ensures SumQty(Query(stock, itemId, companyId)) == Available(stock, itemId, companyId)
  {
    var m := Matching(stock, itemId, companyId, |stock|);
    QueryRows(stock, itemId, companyId);
    QueryComplete(stock, itemId, companyId);
    SortFacts(m);
    MatchingSum(stock, itemId, companyId, |stock|);
    assert stock[..|stock|] == stock;
  }

  /** Every fetched document is a distinct candidate row as it stands. */
  lemma QueryRows(stock: seq<Stock>, itemId: string, companyId: string)
    ensures Fetched(stock, Query(stock, itemId, companyId), itemId, companyId)
  {
    var m := Matching(stock, itemId, companyId, |stock|);
    var q := Query(stock, itemId, companyId);
    SortFacts(m);
    SortDistinct(m);
    forall k | 0 <= k < |q|
      ensures q[k].pos < |stock| && q[k].row == stock[q[k].pos] && IsCandidate(q[k].row, itemId, companyId)
    {
      assert q[k] in multiset(m);
    }
  }

  /** No candidate row is missed. */
  lemma QueryComplete(stock: seq<Stock>, itemId: string, companyId: string)
    ensures forall i :: 0 <= i < |stock| && IsCandidate(stock[i], itemId, companyId) ==>
              Found(i, stock[i]) in Query(stock, itemId, companyId)
  {
    var m := Matching(stock, itemId, companyId, |stock|);
    SortFacts(m);
    forall i | 0 <= i < |stock| && IsCandidate(stock[i], itemId, companyId)
      ensures Found(i, stock[i]) in Query(stock, itemId, companyId)
    {
      assert Found(i, stock[i]) in multiset(m);
    }
  }

  // ------------------------------------------------- FIFO deduction

  /** What a sale movement records besides its location and quantity. */
  datatype SaleCtx = SaleCtx(companyId: string, itemId: string, invoiceId: string, createdBy: string, now: int)

  function SaleMovement(ctx: SaleCtx, locationId: string, deducted: int): StockMovement {
    StockMovement(ctx.companyId, ctx.itemId, locationId := locationId, movementType := Sale,
                  quantity := -deducted, referenceId := ctx.invoiceId, referenceType := "invoice",
                  movementDate := ctx.now, createdBy := ctx.createdBy)
  }

  predicate InRange(stock: seq<Stock>, found: seq<Found>) {
    forall k :: 0 <= k < |found| ==> found[k].pos < |stock|
  }

  /**
    The deduction loop: while something remains, take from the next fetched
    row the smaller of what remains and the quantity it was read with,
    decrement that row, and record a sale movement at its location.
  */
  function Fifo(stock: seq<Stock>, found: seq<Found>, remaining: int, ctx: SaleCtx): (r: (seq<Stock>, seq<StockMovement>))
    requires InRange(stock, found)
    ensures |r.0| == |stock|
    decreases |found|
  {
    if found == [] || remaining <= 0 then (stock, [])
    else
      var f := found[0];
      var d := Min(remaining, f.row.quantity);
      var rest := Fifo(stock[f.pos := stock[f.pos].(quantity := stock[f.pos].quantity - d)], found[1..], remaining - d, ctx);
      (rest.0, [SaleMovement(ctx, f.row.locationId, d)] + rest.1)
  }

  /** One turn of the deduction: the first fetched row is drawn from, then the rest are. */
  lemma FifoStep(stock: seq<Stock>, found: seq<Found>, remaining: int, ctx: SaleCtx)
    requires InRange(stock, found) && found != [] && remaining > 0
    ensures
      var d := Min(remaining, found[0].row.quantity);
      var s1 := stock[found[0].pos := stock[found[0].pos].(quantity := stock[found[0].pos].quantity - d)];
      && InRange(s1, found[1..])
      && Fifo(stock, found, remaining, ctx)
         == (Fifo(s1, found[1..], remaining - d, ctx).0, [SaleMovement(ctx, found[0].row.locationId, d)] + Fifo(s1, found[1..], remaining - d, ctx).1)
  {
  }

  predicate AllPositive(found: seq<Found>) {
    forall k :: 0 <= k < |found| ==> found[k].row.quantity > 0
  }

  /** What the loop takes from the k-th fetched row: all of it while the request exceeds the rows before it, then the rest, then nothing. */
  function Take(found: seq<Found>, requested: int, k: nat): int
    requires k < |found|
  {
    Min(found[k].row.quantity, Max(0, requested - SumQty(found[..k])))
  }

  lemma {:induction false} SumQtyNonNeg(found: seq<Found>)
    requires AllPositive(found)
    ensures SumQty(found) >= 0
    ensures found != [] ==> SumQty(found) > 0
  {
    if found != [] {
      assert AllPositive(found[1..]) by {
        forall k | 0 <= k < |found[1..]| ensures found[1..][k].row.quantity > 0 { assert found[1..][k] == found[k + 1]; }
      }
      SumQtyNonNeg(found[1..]);
    }
  }

  lemma AllPositiveSlice(found: seq<Found>, a: nat, b: nat)
    requires AllPositive(found)
    requires a <= b <= |found|
    ensures AllPositive(found[a..b])
  {
    forall i | 0 <= i < b - a ensures found[a..b][i].row.quantity > 0 { assert found[a..b][i] == found[a + i]; }
  }

  lemma SumQtyPrefixSplit(found: seq<Found>, k: nat)
    requires 0 < k <= |found|
    ensures SumQty(found[..k]) == found[0].row.quantity + SumQty(found[1..][..k - 1])
  {
    assert found[..k][1..] == found[1..][..k - 1];
  }

  lemma AllPositiveTail(found: seq<Found>)
    requires found != [] && AllPositive(found)
    ensures AllPositive(found[1..])
  {
    forall k | 0 <= k < |found[1..]| ensures found[1..][k].row.quantity > 0 { assert found[1..][k] == found[k + 1]; }
  }

  /** After the first row, the loop's remainder gives the same takes as the closed form over the whole list. */
  lemma TakeShift(found: seq<Found>, requested: int, k: nat)
    requires AllPositive(found)
    requires 0 < k < |found|
    requires requested > 0
    ensures Take(found[1..], requested - Min(requested, found[0].row.quantity), k - 1) == Take(found, requested, k)
  {
    SumQtyPrefixSplit(found, k);
    AllPositiveTail(found);
    assert found[1..][..k - 1] == found[1..k];
    assert found[1..][k - 1] == found[k];
    AllPositiveSlice(found, 1, k);
    SumQtyNonNeg(found[1..k]);
  }

  lemma TakeNonPositive(found: seq<Found>, requested: int, k: nat)
    requires AllPositive(found)
    requires k < |found|
    requires requested <= 0
    ensures Take(found, requested, k) == 0
  {
    AllPositiveSlice(found, 0, k);
    assert found[0..k] == found[..k];
    SumQtyNonNeg(found[..k]);
  }

  predicate Untouched(found: seq<Found>, i: nat) {
    forall k :: 0 <= k < |found| ==> found[k].pos != i
  }

  /** The loop leaves every field but `quantity` alone, and rows it did not fetch untouched. */
  lemma {:induction false} FifoFrame(stock: seq<Stock>, found: seq<Found>, remaining: int, ctx: SaleCtx)
    requires InRange(stock, found)
    ensures forall i :: 0 <= i < |stock| ==>
      Fifo(stock, found, remaining, ctx).0[i] == stock[i].(quantity := Fifo(stock, found, remaining, ctx).0[i].quantity)
    ensures forall i :: 0 <= i < |stock| && Untouched(found, i) ==> Fifo(stock, found, remaining, ctx).0[i] == stock[i]
    decreases |found|
  {
    if found != [] && remaining > 0 {
      var f := found[0];
      var d := Min(remaining, f.row.quantity);
      var s1 := stock[f.pos := stock[f.pos].(quantity := stock[f.pos].quantity - d)];
      FifoFrame(s1, found[1..], remaining - d, ctx);
      forall i | 0 <= i < |stock| && Untouched(found, i) ensures Untouched(found[1..], i) {
        forall k | 0 <= k < |found[1..]| ensures found[1..][k].pos != i { assert found[1..][k] == found[k + 1]; }
      }
    }
  }

  predicate WellFetched(stock: seq<Stock>, found: seq<Found>) {
    InRange(stock, found) && DistinctPos(found) && AllPositive(found)
  }

  lemma WellFetchedTail(stock: seq<Stock>, found: seq<Found>, d: int)
    requires WellFetched(stock, found) && found != []
    ensures WellFetched(stock[found[0].pos := stock[found[0].pos].(quantity := d)], found[1..])
  {
    AllPositiveTail(found);
  }

  /**
    Closed form of the loop: the k-th fetched row loses exactly
    min(its quantity, max(0, request - quantities of the rows before it)).
  */
  lemma {:induction false} FifoClosedForm(stock: seq<Stock>, found: seq<Found>, requested: int, ctx: SaleCtx, k: nat)
    requires WellFetched(stock, found)
    requires k < |found|
    ensures Fifo(stock, found, requested, ctx).0[found[k].pos].quantity
         == stock[found[k].pos].quantity - Take(found, requested, k)
    decreases |found|
  {
    if requested <= 0 {
      TakeNonPositive(found, requested, k);
    } else {
      var f := found[0];
      var d := Min(requested, f.row.quantity);
      var s1 := stock[f.pos := stock[f.pos].(quantity := stock[f.pos].quantity - d)];
      WellFetchedTail(stock, found, stock[f.pos].quantity - d);
      if k == 0 {
        FifoFrame(s1, found[1..], requested - d, ctx);
        forall j | 0 <= j < |found[1..]| ensures found[1..][j].pos != f.pos { assert found[1..][j] == found[j + 1]; }
        assert Untouched(found[1..], f.pos);
        assert found[..0] == [];
      } else {
        FifoClosedForm(s1, found[1..], requested - d, ctx, k - 1);
        TakeShift(found, requested, k);
        assert found[1..][k - 1] == found[k];
      }
    }
  }

  function SumMoved(ms: seq<StockMovement>): int {
    if ms == [] then 0 else ms[0].quantity + SumMoved(ms[1..])
  }

  /**
    One sale movement per row the loop takes from, in fetch order: the j-th
    movement is at the j-th fetched row's location and records minus what
    was taken there; a row gets a movement exactly when something is taken.
  */
  lemma FifoMovements(stock: seq<Stock>, found: seq<Found>, requested: int, ctx: SaleCtx)
    requires WellFetched(stock, found)
    ensures |Fifo(stock, found, requested, ctx).1| <= |found|
    ensures forall k :: 0 <= k < |found| ==>
      (k < |Fifo(stock, found, requested, ctx).1| <==> Take(found, requested, k) > 0)
    ensures forall j :: 0 <= j < |Fifo(stock, found, requested, ctx).1| ==>
      Fifo(stock, found, requested, ctx).1[j] == SaleMovement(ctx, found[j].row.locationId, Take(found, requested, j))
  {
    FifoMovementCount(stock, found, requested, ctx);
    forall k | 0 <= k < |found|
      ensures k < |Fifo(stock, found, requested, ctx).1| <==> Take(found, requested, k) > 0
    {
      FifoMovementTaken(stock, found, requested, ctx, k);
    }
    forall j | 0 <= j < |Fifo(stock, found, requested, ctx).1|
      ensures Fifo(stock, found, requested, ctx).1[j] == SaleMovement(ctx, found[j].row.locationId, Take(found, requested, j))
    {
      FifoMovementAt(stock, found, requested, ctx, j);
    }
  }

  /** The deduction records at most one movement per fetched row. */
  lemma {:induction false} FifoMovementCount(stock: seq<Stock>, found: seq<Found>, requested: int, ctx: SaleCtx)
    requires WellFetched(stock, found)
    ensures |Fifo(stock, found, requested, ctx).1| <= |found|
    decreases |found|
  {
    if requested > 0 && found != [] {
      var f := found[0];
      var d := Min(requested, f.row.quantity);
      var s1 := stock[f.pos := stock[f.pos].(quantity := stock[f.pos].quantity - d)];
      WellFetchedTail(stock, found, stock[f.pos].quantity - d);
      FifoMovementCount(s1, found[1..], requested - d, ctx);
    }
  }

  /** Row `k` gets a movement exactly when something is taken from it, so the movements come first. */
  lemma {:induction false} FifoMovementTaken(stock: seq<Stock>, found: seq<Found>, requested: int, ctx: SaleCtx, k: nat)
    requires WellFetched(stock, found)
    requires k < |found|
    ensures k < |Fifo(stock, found, requested, ctx).1| <==> Take(found, requested, k) > 0
    decreases |found|
  {
    if requested <= 0 {
      TakeNonPositive(found, requested, k);
    } else {
      var f := found[0];
      var d := Min(requested, f.row.quantity);
      var s1 := stock[f.pos := stock[f.pos].(quantity := stock[f.pos].quantity - d)];
      assert |Fifo(stock, found, requested, ctx).1| == 1 + |Fifo(s1, found[1..], requested - d, ctx).1|;
      if k == 0 {
        assert found[..0] == [];
      } else {
        WellFetchedTail(stock, found, stock[f.pos].quantity - d);
        FifoMovementTaken(s1, found[1..], requested - d, ctx, k - 1);
        TakeShift(found, requested, k);
      }
    }
  }

  /** The j-th movement is at the j-th fetched row's location and records minus what is taken there. */
  lemma {:induction false} FifoMovementAt(stock: seq<Stock>, found: seq<Found>, requested: int, ctx: SaleCtx, j: nat)
    requires WellFetched(stock, found)
    requires j < |Fifo(stock, found, requested, ctx).1|
    ensures j < |found|
    ensures Fifo(stock, found, requested, ctx).1[j] == SaleMovement(ctx, found[j].row.locationId, Take(found, requested, j))
    decreases |found|
  {
    var f := found[0];
    var d := Min(requested, f.row.quantity);
    var s1 := stock[f.pos := stock[f.pos].(quantity := stock[f.pos].quantity - d)];
    var rest := Fifo(s1, found[1..], requested - d, ctx).1;
    assert Fifo(stock, found, requested, ctx).1 == [SaleMovement(ctx, f.row.locationId, d)] + rest;
    if j == 0 {
      assert found[..0] == [];
    } else {
      WellFetchedTail(stock, found, stock[f.pos].quantity - d);
      FifoMovementAt(s1, found[1..], requested - d, ctx, j - 1);
      TakeShift(found, requested, j);
    }
  }

  /**
    Conservation: the movements of one line add up to minus
    min(requested, what the fetched rows held), or nothing for a request of
    zero or less; any shortfall is dropped.
  */
  lemma {:induction false} FifoConservation(stock: seq<Stock>, found: seq<Found>, requested: int, ctx: SaleCtx)
    requires InRange(stock, found) && AllPositive(found)
    ensures SumMoved(Fifo(stock, found, requested, ctx).1) == -Min(Max(requested, 0), SumQty(found))
    decreases |found|
  {
    if found == [] || requested <= 0 {
      if found != [] { SumQtyNonNeg(found); }
    } else {
      var f := found[0];
      var d := Min(requested, f.row.quantity);
      var s1 := stock[f.pos := stock[f.pos].(quantity := stock[f.pos].quantity - d)];
      AllPositiveTail(found);
      FifoConservation(s1, found[1..], requested - d, ctx);
      SumQtyNonNeg(found[1..]);
    }
  }

  /**
    First in, first out: the loop takes from a row only after every row
    fetched before it has been brought to zero.
  */
  lemma FifoOrder(stock: seq<Stock>, found: seq<Found>, requested: int, ctx: SaleCtx, j: nat, k: nat)
    requires WellFetched(stock, found)
    requires forall i :: 0 <= i < |found| ==> found[i].row == stock[found[i].pos]
    requires j < k < |found|
    requires Take(found, requested, k) > 0
    ensures Fifo(stock, found, requested, ctx).0[found[j].pos].quantity == 0
  {
    FifoClosedForm(stock, found, requested, ctx, j);
    PrefixGrows(found, j + 1, k);
    assert found[..j + 1] == found[..j] + [found[j]];
    SumQtyAppend(found[..j], [found[j]]);
    assert SumQty([found[j]]) == found[j].row.quantity;
  }

  /**
    What a sale may do to a row: change only its quantity, never raise it,
    and never take it below zero (a row that ends negative was negative and
    left alone).
  */
  predicate SaleStep(before: seq<Stock>, after: seq<Stock>) {
    |after| == |before| &&
    forall i :: 0 <= i < |before| ==>
      && after[i] == before[i].(quantity := after[i].quantity)
      && after[i].quantity <= before[i].quantity
      && (after[i].quantity < 0 ==> after[i] == before[i])
  }

  /** Over rows fetched as they stand, the loop is a sale step. */
  lemma FifoSafe(stock: seq<Stock>, found: seq<Found>, requested: int, ctx: SaleCtx)
    requires WellFetched(stock, found)
    requires forall k :: 0 <= k < |found| ==> found[k].row == stock[found[k].pos]
    ensures SaleStep(stock, Fifo(stock, found, requested, ctx).0)
  {
    FifoFrame(stock, found, requested, ctx);
    var r := Fifo(stock, found, requested, ctx).0;
    forall i | 0 <= i < |stock|
      ensures r[i].quantity <= stock[i].quantity && (r[i].quantity < 0 ==> r[i] == stock[i])
    {
      if !Untouched(found, i) {
        var k :| 0 <= k < |found| && found[k].pos == i;
        FifoClosedForm(stock, found, requested, ctx, k);
      }
    }
  }

  /** A row the loop changed was one of the fetched rows. */
  lemma FifoTouched(stock: seq<Stock>, found: seq<Found>, requested: int, ctx: SaleCtx, i: nat) returns (k: nat)
    requires InRange(stock, found)
    requires i < |stock|
    requires Fifo(stock, found, requested, ctx).0[i] != stock[i]
    ensures k < |found| && found[k].pos == i
  {
    FifoFrame(stock, found, requested, ctx);
    k :| 0 <= k < |found| && found[k].pos == i;
  }

  /**
    First in, first out by age: over rows fetched oldest first, a row the
    loop takes from has every strictly older fetched row emptied.
  */
  lemma FifoByAge(stock: seq<Stock>, found: seq<Found>, requested: int, ctx: SaleCtx, l: nat, k: nat)
    requires WellFetched(stock, found) && SortedByAge(found)
    requires forall i :: 0 <= i < |found| ==> found[i].row == stock[found[i].pos]
    requires l < |found| && k < |found|
    requires found[l].row.lastUpdated < found[k].row.lastUpdated
    requires Fifo(stock, found, requested, ctx).0[found[k].pos].quantity < stock[found[k].pos].quantity
    ensures Fifo(stock, found, requested, ctx).0[found[l].pos].quantity == 0
  {
    FifoClosedForm(stock, found, requested, ctx, k);
    FifoOrder(stock, found, requested, ctx, l, k);
  }

  lemma {:induction false} PrefixGrows(found: seq<Found>, a: nat, b: nat)
    requires AllPositive(found)
    requires a <= b <= |found|
    ensures SumQty(found[..a]) <= SumQty(found[..b])
  {
    assert found[..b] == found[..a] + found[a..b];
    SumQtyAppend(found[..a], found[a..b]);
    AllPositiveSlice(found, a, b);
    SumQtyNonNeg(found[a..b]);
  }

  /**
    Ledger balance: for every item and company, the deduction changes the
    quantity on hand by exactly the net quantity of the movements it writes.
  */
  lemma {:induction false} FifoLedger(stock: seq<Stock>, found: seq<Found>, requested: int, ctx: SaleCtx, itemId: string, companyId: string)
    requires InRange(stock, found)
    requires forall k :: 0 <= k < |found| ==> RowOf(stock[found[k].pos], ctx.itemId, ctx.companyId)
    ensures TotalQty(Fifo(stock, found, requested, ctx).0, itemId, companyId)
         == TotalQty(stock, itemId, companyId) + MovedQty(Fifo(stock, found, requested, ctx).1, itemId, companyId)
    decreases |found|
  {
    if found != [] && requested > 0 {
      var f := found[0];
      var d := Min(requested, f.row.quantity);
      var s1 := stock[f.pos := stock[f.pos].(quantity := stock[f.pos].quantity - d)];
      TotalQtyUpdate(stock, f.pos, stock[f.pos].quantity - d, itemId, companyId);
      forall k | 0 <= k < |found[1..]| ensures RowOf(s1[found[1..][k].pos], ctx.itemId, ctx.companyId) {
        assert found[1..][k] == found[k + 1];
      }
      FifoLedger(s1, found[1..], requested - d, ctx, itemId, companyId);
      var rest := Fifo(s1, found[1..], requested - d, ctx).1;
      assert ([SaleMovement(ctx, f.row.locationId, d)] + rest)[1..] == rest;
    }
  }
}
