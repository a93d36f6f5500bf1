/**
  The record types of the ERP backend: the enumerations, the stored records
  with their default field values, the generated document identifiers
  (`PO-20240115-1a2b3c4d`) and the check that a text is a MongoDB object id.

  Money (prices, totals, paid and balance amounts) is counted in integer
  paise; timestamps are integers (later is larger). Generated uuid fields of
  rows that the server never reads back (`stock_id`, `batch_id`,
  `movement_id`, the Mongo `_id`) are not part of the records: the model
  identifies a row by its position in its collection.
*/
module Models {
  import opened Wrappers

  // ---------------------------------------------------------------- enums

  datatype UserRole = SuperAdmin | Admin | Manager | Staff | Accountant

  /** The value each role is stored and sent as. */
  function RoleText(r: UserRole): string {
    match r
    case SuperAdmin => "super_admin"
    case Admin => "admin"
    case Manager => "manager"
    case Staff => "staff"
    case Accountant => "accountant"
  }

  /** Reading a role from its stored value, as the enum's validation does. */
  function ParseRole(s: string): (r: Option<UserRole>)
    ensures r.Some? ==> RoleText(r.value) == s
  {
    if s == "super_admin" then Some(SuperAdmin)
    else if s == "admin" then Some(Admin)
    else if s == "manager" then Some(Manager)
    else if s == "staff" then Some(Staff)
    else if s == "accountant" then Some(Accountant)
    else None
  }

  /** Every role reads back as itself, so the five stored values are distinct. */
  lemma RoleRoundTrip(r: UserRole)
    ensures ParseRole(RoleText(r)) == Some(r)
  {
  }

  datatype PurchaseOrderStatus = PoDraft | PoPending | PoApproved | PoPartiallyReceived | PoReceived | PoCancelled
  datatype GRNStatus = GrnPending | GrnPartial | GrnComplete
  datatype SalesOrderStatus = SoDraft | SoPending | SoApproved | SoPartiallyFulfilled | SoFulfilled | SoCancelled
  datatype InvoiceStatus = InvDraft | InvPending | InvPaid | InvPartiallyPaid | InvOverdue | InvCancelled
  datatype PaymentMode = Cash | Cheque | BankTransfer | Upi | Card | Online
  datatype PaymentStatus = PayPending | PaySuccess | PayFailed | PayCancelled
  datatype StockMovementType = Purchase | Sale | Transfer | Adjustment | Return

  // -------------------------------------------------------------- records

  datatype User = User(
    userId: string,
    email: string,
    name: string,
    phone: string,
    role: UserRole,
    companyId: string,
    locationIds: seq<string> := [],
    passwordHash: Option<string> := None,
    isActive: bool := true)

  datatype UserCreate = UserCreate(
    email: string,
    name: string,
    phone: string,
    role: UserRole,
    companyId: string,
    locationIds: seq<string> := [],
    password: string)

  datatype ItemCategory = ItemCategory(
    categoryId: string,
    companyId: string,
    name: string,
    description: Option<string> := None,
    parentCategoryId: Option<string> := None,
    isActive: bool := true)

  datatype Item = Item(
    itemId: string,
    companyId: string,
    name: string,
    description: Option<string> := None,
    sku: string,
    hsnCode: string,
    categoryId: string,
    unit: string,
    gstRate: real,
    purchasePrice: int,
    sellingPrice: int,
    minStockLevel: int := 0,
    maxStockLevel: Option<int> := None,
    isBatchTracked: bool := false,
    isActive: bool := true)

  datatype Batch = Batch(
    companyId: string,
    itemId: string,
    batchNumber: string,
    manufacturingDate: Option<int> := None,
    expiryDate: Option<int> := None,
    purchaseDate: int,
    purchasePrice: int,
    quantityReceived: int,
    quantityAvailable: int,
    locationId: string,
    supplierId: Option<string> := None,
    isActive: bool := true)

  datatype Stock = Stock(
    companyId: string,
    itemId: string,
    locationId: string,
    batchId: Option<string> := None,
    quantity: int,
    reservedQuantity: int := 0,
    lastUpdated: int)

  datatype Customer = Customer(
    customerId: string,
    companyId: string,
    name: string,
    email: Option<string> := None,
    phone: string,
    gstin: Option<string> := None,
    billingAddress: string,
    shippingAddress: Option<string> := None,
    city: string,
    state: string,
    pincode: string,
    creditLimit: int := 0,
    creditDays: int := 0,
    isActive: bool := true)

  datatype Supplier = Supplier(
    supplierId: string,
    companyId: string,
    name: string,
    email: Option<string> := None,
    phone: string,
    gstin: Option<string> := None,
    address: string,
    city: string,
    state: string,
    pincode: string,
    paymentTerms: string := "Net 30",
    isActive: bool := true)

  datatype PurchaseOrderItem = PurchaseOrderItem(
    itemId: string,
    quantity: int,
    unitPrice: int,
    gstRate: real,
    totalAmount: int,
    receivedQuantity: int := 0)

  datatype PurchaseOrder = PurchaseOrder(
    poId: string,
    companyId: string,
    supplierId: string,
    locationId: string,
    poNumber: string,
    poDate: int,
    expectedDelivery: Option<int> := None,
    items: seq<PurchaseOrderItem>,
    subtotal: int,
    gstAmount: int,
    totalAmount: int,
    status: PurchaseOrderStatus := PoDraft,
    notes: Option<string> := None,
    createdBy: string)

  datatype GRNItem = GRNItem(
    itemId: string,
    orderedQuantity: int,
    receivedQuantity: int,
    unitPrice: int,
    batchNumber: Option<string> := None,
    manufacturingDate: Option<int> := None,
    expiryDate: Option<int> := None)

  datatype GRN = GRN(
    grnId: string,
    companyId: string,
    poId: string,
    supplierId: string,
    locationId: string,
    grnNumber: string,
    grnDate: int,
    items: seq<GRNItem>,
    status: GRNStatus := GrnPending,
    notes: Option<string> := None,
    createdBy: string)

  datatype SalesOrderItem = SalesOrderItem(
    itemId: string,
    quantity: int,
    unitPrice: int,
    gstRate: real,
    totalAmount: int,
    fulfilledQuantity: int := 0)

  datatype SalesOrder = SalesOrder(
    soId: string,
    companyId: string,
    customerId: string,
    locationId: string,
    soNumber: string,
    soDate: int,
    deliveryDate: Option<int> := None,
    items: seq<SalesOrderItem>,
    subtotal: int,
    gstAmount: int,
    totalAmount: int,
    status: SalesOrderStatus := SoDraft,
    notes: Option<string> := None,
    createdBy: string)

  datatype InvoiceItem = InvoiceItem(
    itemId: string,
    quantity: int,
    unitPrice: int,
    gstRate: real,
    cgstAmount: int,
    sgstAmount: int,
    igstAmount: int,
    totalAmount: int)

  datatype Invoice = Invoice(
    invoiceId: string,
    companyId: string,
    customerId: string,
    soId: Option<string> := None,
    invoiceNumber: string,
    invoiceDate: int,
    dueDate: Option<int> := None,
    items: seq<InvoiceItem>,
    subtotal: int,
    totalCgst: int,
    totalSgst: int,
    totalIgst: int,
    totalGst: int,
    totalAmount: int,
    paidAmount: int := 0,
    balanceAmount: int,
    status: InvoiceStatus := InvDraft,
    paymentTerms: string := "Net 30",
    notes: Option<string> := None,
    createdBy: string)

  datatype Payment = Payment(
    paymentId: string,
    companyId: string,
    invoiceId: string,
    customerId: string,
    amount: int,
    paymentMode: PaymentMode,
    paymentDate: int,
    referenceNumber: Option<string> := None,
    gatewayPaymentId: Option<string> := None,
    status: PaymentStatus := PayPending,
    notes: Option<string> := None,
    createdBy: string)

  /** A movement's quantity is positive for stock coming in and negative for stock going out. */
  datatype StockMovement = StockMovement(
    companyId: string,
    itemId: string,
    batchId: Option<string> := None,
    locationId: string,
    movementType: StockMovementType,
    quantity: int,
    referenceId: string,
    referenceType: string,
    movementDate: int,
    createdBy: string)

  /** Orders and invoices start as drafts; goods receipts and payments start as pending. */
  lemma StatusDefaults(po: PurchaseOrder, so: SalesOrder, inv: Invoice, grn: GRN, pay: Payment)
    ensures PurchaseOrder(po.poId, po.companyId, po.supplierId, po.locationId, po.poNumber, po.poDate,
                          items := po.items, subtotal := po.subtotal, gstAmount := po.gstAmount,
                          totalAmount := po.totalAmount, createdBy := po.createdBy).status == PoDraft
    ensures SalesOrder(so.soId, so.companyId, so.customerId, so.locationId, so.soNumber, so.soDate,
                       items := so.items, subtotal := so.subtotal, gstAmount := so.gstAmount,
                       totalAmount := so.totalAmount, createdBy := so.createdBy).status == SoDraft
    ensures Invoice(inv.invoiceId, inv.companyId, inv.customerId, invoiceNumber := inv.invoiceNumber,
                    invoiceDate := inv.invoiceDate, items := inv.items, subtotal := inv.subtotal,
                    totalCgst := inv.totalCgst, totalSgst := inv.totalSgst, totalIgst := inv.totalIgst,
                    totalGst := inv.totalGst, totalAmount := inv.totalAmount,
                    balanceAmount := inv.balanceAmount, createdBy := inv.createdBy).status == InvDraft
    ensures GRN(grn.grnId, grn.companyId, grn.poId, grn.supplierId, grn.locationId, grn.grnNumber,
                grn.grnDate, grn.items, createdBy := grn.createdBy).status == GrnPending
    ensures Payment(pay.paymentId, pay.companyId, pay.invoiceId, pay.customerId, pay.amount,
                    pay.paymentMode, pay.paymentDate, createdBy := pay.createdBy).status == PayPending
  {
  }

  /**
    Levels, reservations, credit and amounts paid start at zero; an invoice
    stored without payment terms gets "Net 30", like a supplier.
  */
  lemma NumericDefaults(it: Item, st: Stock, c: Customer, inv: Invoice)
    ensures Item(it.itemId, it.companyId, it.name, sku := it.sku, hsnCode := it.hsnCode, categoryId := it.categoryId,
                 unit := it.unit, gstRate := it.gstRate, purchasePrice := it.purchasePrice,
                 sellingPrice := it.sellingPrice).minStockLevel == 0
    ensures Stock(st.companyId, st.itemId, st.locationId, quantity := st.quantity,
                  lastUpdated := st.lastUpdated).reservedQuantity == 0
    ensures var d := Customer(c.customerId, c.companyId, c.name, phone := c.phone, billingAddress := c.billingAddress,
                              city := c.city, state := c.state, pincode := c.pincode);
      d.creditLimit == 0 && d.creditDays == 0
    ensures var d := Invoice(inv.invoiceId, inv.companyId, inv.customerId, invoiceNumber := inv.invoiceNumber,
                             invoiceDate := inv.invoiceDate, items := inv.items, subtotal := inv.subtotal,
                             totalCgst := inv.totalCgst, totalSgst := inv.totalSgst, totalIgst := inv.totalIgst,
                             totalGst := inv.totalGst, totalAmount := inv.totalAmount,
                             balanceAmount := inv.balanceAmount, createdBy := inv.createdBy);
      d.paidAmount == 0 && d.paymentTerms == "Net 30"
  {
  }

  // ----------------------------------------------- generated document ids

  /** The document kinds whose identifiers carry a date and a uuid fragment. */
  datatype DocumentKind = PurchaseOrderDoc | GrnDoc | SalesOrderDoc | InvoiceDoc | PaymentDoc

  function Prefix(k: DocumentKind): string {
    match k
    case PurchaseOrderDoc => "PO-"
    case GrnDoc => "GRN-"
    case SalesOrderDoc => "SO-"
    case InvoiceDoc => "INV-"
    case PaymentDoc => "PAY-"
  }

  /** A calendar day as `datetime.now()` gives it; years before 1000 are not modelled. */
  datatype Date = Date(year: int, month: int, day: int)

  predicate ValidDate(d: Date) {
    1000 <= d.year <= 9999 && 1 <= d.month <= 12 && 1 <= d.day <= 31
  }

  predicate IsDigit(c: char) {
    '0' <= c <= '9'
  }

  function Pow10(n: nat): (r: nat)
    ensures r >= 1
  {
    if n == 0 then 1 else 10 * Pow10(n - 1)
  }

  /** `n` written in decimal with exactly `width` digits, zero-padded on the left. */
  function Digits(n: nat, width: nat): (r: string)
    ensures |r| == width
    ensures forall i :: 0 <= i < |r| ==> IsDigit(r[i])
  {
    if width == 0 then "" else Digits(n / 10, width - 1) + [('0' as int + n % 10) as char]
  }

  /** The number a string of decimal digits denotes. */
  function DigitsValue(s: string): nat
    requires forall i :: 0 <= i < |s| ==> IsDigit(s[i])
  {
    if s == [] then 0
    else
      assert IsDigit(s[|s| - 1]);
      DigitsValue(s[..|s| - 1]) * 10 + (s[|s| - 1] as int - '0' as int)
  }

  lemma {:induction false} DigitsRoundTrip(n: nat, width: nat)
    requires n < Pow10(width)
    ensures DigitsValue(Digits(n, width)) == n
  {
    if width > 0 {
      var s := Digits(n, width);
      assert s[..|s| - 1] == Digits(n / 10, width - 1);
      assert n / 10 < Pow10(width - 1);
      DigitsRoundTrip(n / 10, width - 1);
    }
  }

  /** `strftime('%Y%m%d')`. */
  function Ymd(d: Date): (r: string)
    requires ValidDate(d)
  {
    Digits(d.year, 4) + Digits(d.month, 2) + Digits(d.day, 2)
  }

  /** Python's `s[:8]`: the first eight characters, or all of a shorter string. */
  function Take8(u: string): (r: string)
    ensures |r| == if |u| < 8 then |u| else 8
  {
    if |u| < 8 then u else u[..8]
  }

  /** The default identifier of a document: prefix, date, '-', first eight characters of a uuid. */
  function DocumentId(k: DocumentKind, d: Date, uuid: string): (r: string)
    requires ValidDate(d)
  {
    Prefix(k) + Ymd(d) + "-" + Take8(uuid)
  }

  /** The kind whose prefix an identifier starts with, if any. */
  function KindOf(id: string): (r: Option<DocumentKind>)
    ensures r.Some? ==> |Prefix(r.value)| <= |id| && id[..|Prefix(r.value)|] == Prefix(r.value)
  {
    if |id| >= 3 && id[..3] == "PO-" then Some(PurchaseOrderDoc)
    else if |id| >= 4 && id[..4] == "GRN-" then Some(GrnDoc)
    else if |id| >= 3 && id[..3] == "SO-" then Some(SalesOrderDoc)
    else if |id| >= 4 && id[..4] == "INV-" then Some(InvoiceDoc)
    else if |id| >= 4 && id[..4] == "PAY-" then Some(PaymentDoc)
    else None
  }

  /** Reads the `YYYYMMDD-xxxxxxxx` part that follows the prefix. */
  function ParseDateAndUuid(rest: string): Option<(Date, string)> {
    if |rest| == 17 && (forall i :: 0 <= i < 8 ==> IsDigit(rest[i])) && rest[8] == '-' then
      Some((Date(DigitsValue(rest[..4]), DigitsValue(rest[4..6]), DigitsValue(rest[6..8])), rest[9..]))
    else None
  }

  /** Reads back the kind, the date and the uuid fragment of a generated identifier. */
  function ParseDocumentId(id: string): Option<(DocumentKind, Date, string)> {
    match KindOf(id)
    case None => None
    case Some(k) =>
      match ParseDateAndUuid(id[|Prefix(k)|..])
      case None => None
      case Some(p) => Some((k, p.0, p.1))
  }

  lemma KindOfPrefixed(k: DocumentKind, rest: string)
    ensures KindOf(Prefix(k) + rest) == Some(k)
  {
    var id := Prefix(k) + rest;
    assert id[..|Prefix(k)|] == Prefix(k);
    assert id[0] == Prefix(k)[0] && id[1] == Prefix(k)[1];
    assert id[..3][0] == id[0] && id[..3][1] == id[1];
    assert |id| >= 4 ==> id[..4][0] == id[0] && id[..4][1] == id[1];
  }

  lemma ParseDateAndUuidRoundTrip(d: Date, u8: string)
    requires ValidDate(d) && |u8| == 8
    ensures ParseDateAndUuid(Ymd(d) + "-" + u8) == Some((d, u8))
  {
    var y, m, dd := Digits(d.year, 4), Digits(d.month, 2), Digits(d.day, 2);
    var rest := y + m + dd + "-" + u8;
    assert rest == Ymd(d) + "-" + u8;
    assert rest[..4] == y && rest[4..6] == m && rest[6..8] == dd && rest[9..] == u8;
    assert forall i :: 0 <= i < 8 ==> IsDigit(rest[i]) by {
      forall i | 0 <= i < 8 ensures IsDigit(rest[i]) {
        if i < 4 { assert rest[i] == y[i]; }
        else if i < 6 { assert rest[i] == m[i - 4]; }
        else { assert rest[i] == dd[i - 6]; }
      }
    }
    DigitsRoundTrip(d.year, 4);
    DigitsRoundTrip(d.month, 2);
    DigitsRoundTrip(d.day, 2);
  }

  /**
    A generated identifier determines its kind, its day and its uuid fragment:
    reading it back gives them again, and it is always prefix-length + 17 long.
  */
  lemma DocumentIdRoundTrip(k: DocumentKind, d: Date, uuid: string)
    requires ValidDate(d)
    requires |uuid| >= 8
    ensures |DocumentId(k, d, uuid)| == |Prefix(k)| + 17
    ensures ParseDocumentId(DocumentId(k, d, uuid)) == Some((k, d, uuid[..8]))
  {
    var rest := Ymd(d) + "-" + uuid[..8];
    var id := DocumentId(k, d, uuid);
    assert id == Prefix(k) + rest;
    KindOfPrefixed(k, rest);
    assert id[|Prefix(k)|..] == rest;
    ParseDateAndUuidRoundTrip(d, uuid[..8]);
  }

  // ------------------------------------------------------------ object ids

  predicate IsHexDigit(c: char) {
    '0' <= c <= '9' || 'a' <= c <= 'f' || 'A' <= c <= 'F'
  }

  function HexValue(c: char): (v: nat)
    requires IsHexDigit(c)
    ensures v < 16
  {
    if '0' <= c <= '9' then c as int - '0' as int
    else if 'a' <= c <= 'f' then c as int - 'a' as int + 10
    else c as int - 'A' as int + 10
  }

  function HexChar(v: nat): (c: char)
    requires v < 16
    ensures IsHexDigit(c) && HexValue(c) == v
  {
    if v < 10 then ('0' as int + v) as char else ('a' as int + v - 10) as char
  }

  /** A MongoDB object id: twelve bytes. */
  datatype ObjectId = ObjectId(bytes: seq<nat>)

  predicate ValidObjectId(o: ObjectId) {
    |o.bytes| == 12 && forall i :: 0 <= i < 12 ==> o.bytes[i] < 256
  }

  /** `str(ObjectId)`: two lower-case hex digits per byte. */
  function ObjectIdText(o: ObjectId): (r: string)
    requires ValidObjectId(o)
    ensures |r| == 24
  {
    HexBytes(o.bytes)
  }

  function HexBytes(b: seq<nat>): (r: string)
    requires forall i :: 0 <= i < |b| ==> b[i] < 256
    ensures |r| == 2 * |b|
    ensures forall i :: 0 <= i < |r| ==> IsHexDigit(r[i])
  {
    if b == [] then "" else [HexChar(b[0] / 16), HexChar(b[0] % 16)] + HexBytes(b[1..])
  }

  function UnhexBytes(s: string): (b: seq<nat>)
    requires |s| % 2 == 0
    requires forall i :: 0 <= i < |s| ==> IsHexDigit(s[i])
    ensures |b| == |s| / 2
    ensures forall i :: 0 <= i < |b| ==> b[i] < 256
  {
    if s == [] then [] else [HexValue(s[0]) * 16 + HexValue(s[1])] + UnhexBytes(s[2..])
  }

  lemma {:induction false} UnhexHex(b: seq<nat>)
    requires forall i :: 0 <= i < |b| ==> b[i] < 256
    ensures UnhexBytes(HexBytes(b)) == b
  {
    if b != [] {
      var s := HexBytes(b);
      assert s[2..] == HexBytes(b[1..]);
      UnhexHex(b[1..]);
    }
  }

  /**
    `PyObjectId.validate` on a text: a valid object id is exactly 24 hex
    digits; anything else raises "Invalid objectid".
  */
  function ValidateObjectId(v: string): (r: Result<ObjectId, string>)
    ensures r.Ok? <==> |v| == 24 && forall i :: 0 <= i < |v| ==> IsHexDigit(v[i])
    ensures r.Err? ==> r.error == "Invalid objectid"
    ensures r.Ok? ==> ValidObjectId(r.value)
  {
    if |v| == 24 && forall i :: 0 <= i < |v| ==> IsHexDigit(v[i]) then Ok(ObjectId(UnhexBytes(v)))
    else Err("Invalid objectid")
  }

  /** The text of an object id validates back to the same object id. */
  lemma ObjectIdRoundTrip(o: ObjectId)
    requires ValidObjectId(o)
    ensures ValidateObjectId(ObjectIdText(o)) == Ok(o)
  {
    UnhexHex(o.bytes);
  }
}
