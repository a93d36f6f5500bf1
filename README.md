# Medical ERP core: inventory ledger, billing and the web client's state

This project models the core of a small ERP for medical distributors. It has a
FastAPI backend over MongoDB and a React web client. The model covers two parts.

**The backend ledger.** Each MongoDB collection is an in-memory sequence of
records, held as the fields of the class `Server.Database`.

- **Goods receipts (`POST /grn`).** Every received line upserts the stock row
  of its (item, location, company). It opens a batch for a batch-tracked item
  and records a purchase movement.
- **Invoices (`POST /invoices`).** The balance is computed first. Then every
  line is drawn down from the company's stock rows, oldest row first, by the
  `remaining_qty` loop. Each deduction records one sale movement.
- **Payments (`POST /payments`).** A payment adds to the paid amount of its
  invoice, recomputes the balance and sets the status to paid or partially paid.
- **The dashboard summary.** It gives record counts, pending orders, overdue
  invoices and up to ten low-stock rows.
- **Sign-in and registration.**

The record types, enumerations, status defaults, generated document ids and
the object-id check of `models.py` are datatypes and functions in `Models`.

Around these operations the model proves the ledger's invariants:

- stock on hand equals the net of the recorded movements, for every item and
  company;
- one stock row per key;
- every balance equals total less paid;
- emails are unique.

It also proves what a sale does:

- the deduction is min(requested, available), and a shortfall is dropped;
- no row goes below zero;
- rows are consumed oldest first;
- exactly one movement is recorded per deduction.

**The web client.**

- **Session store (`App.js`).** Sign-in, sign-out and the restore effect,
  together with local storage, the `Authorization` header, `useAuth` and the
  route guard.
- **Sign-in page (`Login.js`).**
- **Sidebar shell (`Layout.js`).** Which link is highlighted, the link test
  ids, the role label and the mobile sheet.
- **Dashboard page (`Dashboard.js`).** The tiles and the alerts panel.
- **Item, customer and supplier pages.** Their search filters, fetches and
  add dialogs.

Each page whose state changes step by step is a class. Its methods update
the fields the component's `useState` hooks hold. The server's answer to a
request is a parameter: `server(path)` is `None` when the request fails, and
`accepted` is the outcome of a POST. The client stores the user object in
local storage through `JSON.stringify` and reads it back through `JSON.parse`.
That round trip is modelled in `Json` for flat objects whose members are
strings, booleans, `null` or arrays of strings, which is the shape of the user
the sign-in endpoint returns, and proved.

Modules follow the program: `Models` (models.py), `Auth`, `Inventory`,
`Receipts`, `Sales`, `Billing`, `Summary` and `Server` (server.py), then
`Session` (App.js), `LoginPage`, `Layout`, `DashboardPage`, `ItemManagement`,
`CustomerManagement` and `SupplierManagement`, on top of the helpers `Wrappers`,
`Text`, `Lists`, `Search` and `Json`.

## Model

| member | source | states |
|---|---|---|
| Models.ParseRole | backend/models.py:25-30 | a stored role text is read only as the role whose stored value it is |
| Models.RoleRoundTrip | backend/models.py:25-30 | each of the five roles reads back as itself, so their stored values are distinct |
| Models.StatusDefaults | backend/models.py:254-414 | purchase orders, sales orders and invoices start as draft; goods receipts and payments start as pending |
| Models.NumericDefaults | backend/models.py:129-377 | min stock level, reserved quantity, credit limit and days, and paid amount default to 0; invoice payment terms default to "Net 30" |
| Models.Digits | backend/models.py:243 | a number written with exactly the given count of decimal digits |
| Models.DigitsRoundTrip | backend/models.py:243 | zero-padded digits read back as the number they encode |
| Models.Take8 | backend/models.py:243 | Python's `[:8]`: eight characters, or all of a shorter text |
| Models.KindOf | backend/models.py:243-405 | an id is assigned a document kind only when it starts with that kind's prefix |
| Models.KindOfPrefixed | backend/models.py:243-405 | the prefixes PO-, GRN-, SO-, INV- and PAY- are told apart: each prefixed id reads back its own kind |
| Models.ParseDateAndUuidRoundTrip | backend/models.py:243 | the `YYYYMMDD-xxxxxxxx` part of an id reads back as the date and uuid fragment written |
| Models.DocumentIdRoundTrip | backend/models.py:243-405 | a generated id is prefix + 17 characters and reads back as its kind, date and the first 8 characters of the uuid |
| Models.HexChar | backend/models.py:14-17 | a hex digit whose value is the given number |
| Models.ObjectIdText | backend/models.py:14-17 | an object id is written as 24 characters |
| Models.HexBytes | backend/models.py:14-17 | bytes are written as two hex digits each |
| Models.UnhexBytes | backend/models.py:14-17 | hex text of even length is read as half as many bytes, each below 256 |
| Models.UnhexHex | backend/models.py:14-17 | reading back the hex text of some bytes gives those bytes |
| Models.ValidateObjectId | backend/models.py:14-17 | a text is accepted iff it is 24 hex digits; otherwise the error is "Invalid objectid" |
| Models.ObjectIdRoundTrip | backend/models.py:14-17 | the text of an object id validates to that same object id |
| Auth.FindUserByEmail | backend/server.py:64 | the first user with the email; none iff no user has it |
| Auth.Login | backend/server.py:61-84 | 401 iff the email is unknown or the password does not verify against the stored hash; 400 iff the user is found and verified but inactive; success iff the first user with the email is found, verified and active, and then the reply carries exactly that user and a bearer token whose subject is the user's id |
| Auth.NewUser | backend/server.py:93-100 | a registered user keeps the submitted fields, stores the hash instead of the password, and is active |
| Auth.RegisterKeepsEmailsUnique | backend/server.py:86-101 | registering a new email keeps emails unique |
| Auth.LoginAfterRegister | backend/server.py:61-101 | signing in with the password just registered succeeds as the new user |
| Billing.Issue | backend/server.py:309-310 | the stored invoice's balance is total less paid, and its author is the caller; nothing else changes |
| Billing.ApplyPayment | backend/server.py:445-460 | paid grows by the amount and the balance is total less the new paid; the status is paid iff the new paid reaches the total, else partially paid |
| Billing.PaymentsAccumulate | backend/server.py:445-460 | two payments leave an invoice as one payment of their sum does |
| Billing.FindInvoice | backend/server.py:444 | the first invoice with the id; none when no invoice has it |
| Billing.RecordPayment | backend/server.py:443-461 | the first invoice with the payment's id takes the payment; no other invoice changes, and with no such invoice none does |
| Billing.PaymentReachesInvoice | backend/server.py:443-461 | the named stored invoice's paid amount grows by the payment, its balance is total minus paid, and it is paid iff paid reaches the total, else partially paid |
| Billing.RecordPaymentKeepsBalances | backend/server.py:443-461 | recording a payment keeps every balance equal to total less paid |
| Billing.PaidInFullNotOverdue | backend/server.py:495-500 | an invoice whose payments reach its total is never counted overdue |
| Billing.ShortPaymentOverdue | backend/server.py:495-500 | a partly paid invoice past its due date is counted overdue |
| Inventory.FindItem | backend/server.py:244 | the first catalog entry with the item id, in any company; none iff there is none |
| Inventory.MovedQtyAppend | backend/models.py:450-463 | the net quantity moved over two runs of movements is the sum of both |
| Inventory.TotalQtyUpdate | backend/server.py:328-331 | setting one row's quantity changes its own item and company total by the difference and no other total |
| Inventory.TotalQtyAppend | backend/server.py:234-241 | a new row adds its quantity to its own item and company total only |
| Inventory.Matching | backend/server.py:316-319 | the filtered rows are exactly the item's rows of the company with positive quantity, in collection order |
| Inventory.MatchingSum | backend/server.py:316-319 | the filtered rows hold exactly the available quantity |
| Inventory.SortFacts | backend/server.py:320 | the sort by `last_updated` is a permutation with the same total and is oldest first |
| Inventory.SortDistinct | backend/server.py:320 | the sort never repeats a row |
| Inventory.QueryFacts | backend/server.py:316-320 | the query returns distinct candidate rows as they stand, oldest first, every candidate included, holding all that is available |
| Inventory.QueryRows | backend/server.py:316-320 | every document fetched is a distinct candidate row as it stands |
| Inventory.QueryComplete | backend/server.py:316-320 | no candidate row is missed |
| Inventory.Fifo | backend/server.py:322-345 | the deduction loop keeps the number of rows; its behaviour is stated by the lemmas below |
| Inventory.FifoFrame | backend/server.py:327-331 | only quantities change, and rows not fetched are untouched |
| Inventory.FifoClosedForm | backend/server.py:322-332 | the k-th fetched row loses min(its quantity, what the request exceeds the earlier rows by) |
| Inventory.FifoMovements | backend/server.py:334-345 | one movement per row drawn from, in fetch order, each minus what was taken at that row's location |
| Inventory.FifoMovementCount | backend/server.py:323-345 | at most one movement per fetched row |
| Inventory.FifoMovementTaken | backend/server.py:323-345 | a row gets a movement iff something is taken from it |
| Inventory.FifoMovementAt | backend/server.py:334-345 | the j-th movement is at the j-th row's location and records minus what was taken there |
| Inventory.FifoConservation | backend/server.py:322-332 | the movements total minus min(requested, available); a shortfall is dropped |
| Inventory.FifoOrder | backend/server.py:316-332 | a later fetched row is drawn from only when every earlier one is emptied |
| Inventory.FifoSafe | backend/server.py:327-331 | rows only lose quantity and none goes below zero |
| Inventory.FifoTouched | backend/server.py:323-331 | a changed row was one of the fetched rows |
| Inventory.FifoByAge | backend/server.py:316-332 | a strictly newer row is drawn from only after every older candidate is emptied |
| Inventory.FifoLedger | backend/server.py:327-345 | each item total changes by exactly the net of the movements recorded |
| Receipts.FindRow | backend/server.py:223-227 | the first stock row with the item, location and company; none when there is none |
| Receipts.ReceiveStock | backend/server.py:221-241 | the upsert keeps every row and adds at most one |
| Receipts.ReceiveOnHand | backend/server.py:229-241 | the quantity at the received key grows by the received quantity; every other key keeps its quantity |
| Receipts.ReceiveUnique | backend/server.py:223-241 | receiving never creates a second row for a key |
| Receipts.ReceiveLedger | backend/server.py:229-271 | the item's total in the company grows by the received quantity, and no other total changes |
| Receipts.NewBatch | backend/server.py:244-258 | a batch is opened iff the item exists, is batch-tracked and the line has a non-empty batch number; it holds all that was received |
| Receipts.ReceiveAll | backend/server.py:221-271 | one movement per line, and at most one new batch per line |
| Receipts.PurchaseMovements | backend/server.py:261-271 | each line's movement is a purchase of the received quantity against the purchase order |
| Receipts.ReceiveAllMovements | backend/server.py:221-271 | a receipt appends exactly its lines' purchase movements, in line order |
| Receipts.ReceiveAllOnHand | backend/server.py:221-241 | at the receipt's location and company each item's quantity on hand grows by all the lines received of it; nothing changes at any other key |
| Receipts.ReceiveAllUnique | backend/server.py:221-241 | a receipt keeps one row per key |
| Receipts.ReceiveOneKeepsLedger | backend/server.py:221-271 | one received line keeps stock on hand equal to the net of the movements |
| Receipts.ReceiveAllKeepsLedger | backend/server.py:221-271 | a whole receipt keeps stock on hand equal to the net of the movements |
| Receipts.ReceiveAllBatches | backend/server.py:243-258 | earlier batches stay as they were; each new batch is at the receipt's company and location, has a non-empty batch number and starts with all it received available |
| Sales.DeductLine | backend/server.py:313-345 | a line keeps the number of stock rows |
| Sales.DeductAll | backend/server.py:313-345 | an invoice keeps the number of stock rows |
| Sales.DeductLineSafe | backend/server.py:322-332 | a line only lowers quantities and takes no row below zero |
| Sales.DeductLineConservation | backend/server.py:315-332 | a line deducts min(line quantity, the item's positive stock in the company); nothing without a company |
| Sales.DeductLineFifo | backend/server.py:316-332 | when a newer row is drawn from, every older candidate row is emptied |
| Sales.DeductLineLedger | backend/server.py:315-345 | each total changes by the net of the line's movements |
| Sales.DeductLineMovements | backend/server.py:334-345 | every movement of a line is a sale of a positive quantity for this invoice |
| Sales.DeductAllSafe | backend/server.py:313-332 | over an invoice rows only lose quantity and none goes below zero |
| Sales.DeductAllKeepsLedger | backend/server.py:313-345 | an invoice keeps stock on hand equal to the net of the movements |
| Sales.DeductAllMovements | backend/server.py:313-345 | earlier movements are kept, all new ones are this invoice's sales, and an invoice without a company changes nothing |
| Sales.SaleKeepsKeys | backend/server.py:327-331 | a sale keeps one row per key |
| Summary.LowStockEntryFor | backend/server.py:505-513 | a row is listed iff its item exists and its quantity is at most the item's minimum level; the entry carries the item's name and the row's quantity |
| Summary.LowStockSound | backend/server.py:503-513 | every entry comes from a low row of the company |
| Summary.LowStockComplete | backend/server.py:503-513 | every low row of the company has its entry |
| Summary.FirstTen | backend/server.py:522 | `[:10]`: the first ten entries, or all of fewer |
| Summary.Summarize | backend/server.py:476-523 | the item count is within the catalog, the overdue count within the invoices, and at most ten low-stock entries |
| Summary.SummaryTotals | backend/server.py:479-481 | the customer, supplier and item totals are the numbers of positions holding a record of the company |
| Summary.SummaryPending | backend/server.py:484-492 | the pending counts are the numbers of the company's sales and purchase orders whose status is pending or approved |
| Summary.SummaryOverdue | backend/server.py:495-500 | the overdue count is the number of the company's invoices with a due date before `now` and status pending or partially paid |
| Summary.LowStockAppend | backend/server.py:503-513 | rows are visited in order: the entries of earlier rows precede those of later rows |
| Summary.SummaryFirstTen | backend/server.py:503-522 | with at most ten low rows all are listed in row order; with more, exactly ten are listed, they are the entries of the earliest low rows, and every later low row's entry follows them unlisted |
| Summary.SummaryLowStock | backend/server.py:503-522 | the listed entries are low rows of the company, and all of them when there are at most ten |
| Server.Database.constructor | backend/server.py:24-25 | an empty database satisfies the ledger invariants |
| Server.Database.Register | backend/server.py:86-101 | a taken email gives "Email already registered" and stores nothing; otherwise the new user is appended; the invariants hold |
| Server.Database.SignIn | backend/server.py:61-84 | a success is an active stored user with that email; a failure is one of the two sign-in errors |
| Server.Database.ReceiveLine | backend/server.py:221-271 | the stock, batches and movements become those of receiving the line |
| Server.Database.ReceiveLines | backend/server.py:221-271 | the loop over the lines ends in the state of receiving them all in order |
| Server.Database.CreateGrn | backend/server.py:216-274 | the receipt is stored with its author after receiving every line; the invariants hold |
| Server.Database.DrawDown | backend/server.py:322-345 | the `remaining_qty` loop ends in the stock and movements of the deduction |
| Server.Database.DeductLines | backend/server.py:313-345 | the loop over lines ends in the state of deducting them all in order |
| Server.Database.CreateInvoice | backend/server.py:307-348 | the invoice is stored with its balance and author after its lines are drawn down; the invariants hold |
| Server.Database.CreatePayment | backend/server.py:439-464 | the payment is applied to its invoice, if stored, and then stored itself; the invariants hold |
| Server.Database.Dashboard | backend/server.py:476-523 | the summary of the stored collections for the company |
| Json.Get | frontend/src/pages/ItemManagement.js:41 | `obj[key]` finds a value iff the object has the key, and it is that key's value |
| Json.SkipWs | frontend/src/App.js:47 | skipping whitespace leaves text that does not start with whitespace |
| Json.HexValue | frontend/src/App.js:47 | a hex digit's value is below 16 |
| Json.HexQuad | frontend/src/App.js:47 | four hex digits give a code unit below 0x10000 |
| Json.ReadChar | frontend/src/App.js:47 | reading one character of a string literal consumes at least one character of the text |
| Json.ParseStringBody | frontend/src/App.js:47 | reading a string literal consumes its closing quote |
| Json.ParseLeaf | frontend/src/App.js:47 | reading a value consumes text |
| Json.ParseMember | frontend/src/App.js:47 | reading a member consumes text |
| Json.StringBodyRoundTrip | frontend/src/App.js:47-63 | an escaped string followed by a quote reads back as the string, leaving what follows |
| Json.QuoteRoundTrip | frontend/src/App.js:47-63 | a quoted string reads back as itself |
| Json.LeafRoundTrip | frontend/src/App.js:47-63 | a written value reads back as itself |
| Json.MemberRoundTrip | frontend/src/App.js:47-63 | a written member reads back as itself |
| Json.PutNew | frontend/src/App.js:47 | a new key is appended |
| Json.PutExisting | frontend/src/App.js:47 | a repeated key keeps its place and takes the later value |
| Json.MembersRoundTrip | frontend/src/App.js:47-63 | the written members read back as the object |
| Json.ParseItems | frontend/src/App.js:47 | reading the items of an array consumes text |
| Json.ItemsRoundTrip | frontend/src/App.js:47-63 | the written items of an array read back as the array, leaving what follows the bracket |
| Json.ArrayRoundTrip | frontend/src/App.js:47-63 | a written array of strings, empty or not, reads back as itself |
| Json.ObjectRoundTrip | frontend/src/App.js:47-63 | a written object reads back with nothing left over |
| Json.ParseStringify | frontend/src/App.js:47-63 | `JSON.parse(JSON.stringify(v))` gives back `v` for every object with distinct keys |
| Session.Mounted | frontend/src/App.js:36-37 | on load nobody is signed in, loading is on and there is no header |
| Session.StoredToken | frontend/src/App.js:41-42 | a token is used iff one is stored and not empty |
| Session.StoredUserText | frontend/src/App.js:47 | the stored user entry, or `{}` when it is missing or empty |
| Session.Cleared | frontend/src/App.js:50-51 | both session entries are gone and every other entry is kept |
| Session.LoginSurvivesReload | frontend/src/App.js:40-65 | after sign-in with any flat user, arrays of strings included, a reload the server accepts gives back the same user and header |
| Session.UserJson | backend/models.py:32-42 | the user as the sign-in endpoint sends it has distinct keys, is truthy, and carries its company, location ids, role and active flag under their wire names |
| Session.SignedInUserSurvivesReload | frontend/src/App.js:40-65 | a user signed in through the endpoint, `location_ids` array included, is signed in again after an accepted reload and keeps their own company |
| Session.LogoutUndoesLogin | frontend/src/App.js:60-72 | sign-in followed by sign-out leaves what sign-out alone leaves |
| Session.LoggedOutIsSignedOut | frontend/src/App.js:67-72 | after sign-out there is no user, no stored session and no header |
| Session.LogoutSurvivesReload | frontend/src/App.js:40-72 | a reload after sign-out finds no session and only ends loading |
| Session.RestoreEndsLoading | frontend/src/App.js:40-58 | loading is off after every outcome of the restore |
| Session.RestoreWithoutToken | frontend/src/App.js:41-57 | without a stored token no request is made and only loading changes |
| Session.RestoreRejected | frontend/src/App.js:49-54 | a rejected session loses both entries and the header, and the user stays as it was |
| Session.RestoreAccepted | frontend/src/App.js:42-54 | an accepted session sets the header and the user parsed from storage; a stored user that does not parse ends in the catch branch, which clears both entries and the header |
| Session.RestoreArrayMember | frontend/src/App.js:45-48 | a stored user `{"a":[]}` under an accepted token is signed in as itself, with storage and header kept |
| Session.RestoreWithoutStoredUser | frontend/src/App.js:47 | with no stored user an accepted session signs in as `{}` |
| Session.AuthProvider.constructor | frontend/src/App.js:35-37 | the provider starts in the state of a freshly loaded page |
| Session.AuthProvider.Login | frontend/src/App.js:60-65 | `login` stores both entries, sets the user and the bearer header |
| Session.AuthProvider.Logout | frontend/src/App.js:67-72 | `logout` clears the user, both entries and the header |
| Session.AuthProvider.Restore | frontend/src/App.js:40-58 | the mount effect moves to the restored state |
| Session.UseAuth | frontend/src/App.js:27-33 | the context when a provider is above the caller, otherwise the error thrown |
| Session.PageAt | frontend/src/App.js:98-111 | a path shows a page iff the table lists it, and the page listed |
| Session.RouteGuard | frontend/src/App.js:74-116 | the spinner is shown iff loading; after that, `/login` shows the sign-in page iff nobody is signed in, else redirects to `/`; any other path shows the shell iff someone is signed in, else redirects to `/login` |
| Session.SpinnerUntilRestored | frontend/src/App.js:40-83 | a freshly loaded page shows only the spinner, and after the restore effect the spinner is gone whatever its outcome |
| Session.Company | frontend/src/pages/ItemManagement.js:41 | the user's company id, or `demo-company` exactly when it is missing or falsy |
| Session.CompanyParam | frontend/src/pages/ItemManagement.js:57 | the company as written into a query string: the string itself, never empty unless the company is an array, whose items are joined by commas |
| Session.CompanyOfUser | frontend/src/pages/ItemManagement.js:41 | a user with a non-empty company id gets that company |
| LoginPage.ErrorText | frontend/src/pages/Login.js:46 | the server's detail when it sent a non-empty one, else the fallback |
| LoginPage.ErrorAlwaysShown | frontend/src/pages/Login.js:46 | the error shown after a failure is never empty |
| LoginPage.LoginForm.constructor | frontend/src/pages/Login.js:17-34 | not loading, no error, both forms blank |
| LoginPage.LoginForm.Submit | frontend/src/pages/Login.js:37-39 | every submit sets loading and clears the error |
| LoginPage.LoginForm.HandleLogin | frontend/src/pages/Login.js:36-51 | on success exactly the reply's user and token go to `login`; on failure the error is the detail or "Login failed" and the session is unchanged; loading ends |
| LoginPage.LoginForm.HandleRegister | frontend/src/pages/Login.js:53-76 | on success the register form is blanked; on failure the error is the detail or "Registration failed" and the form kept; the sign-in form is untouched; loading ends |
| Search.EmptyTermMatches | frontend/src/pages/ItemManagement.js:119-122 | an empty term matches any text |
| Search.FoldedIgnoresTermCase | frontend/src/pages/ItemManagement.js:120 | the case of the term never matters |
| Search.ContactWithoutEmail | frontend/src/pages/CustomerManagement.js:79-83 | a contact without an email, or with an empty one, matches only through name or phone |
| ItemManagement.BlankItem | frontend/src/pages/ItemManagement.js:28-42 | every text field empty, not batch-tracked, the user's company |
| ItemManagement.BlankCategory | frontend/src/pages/ItemManagement.js:44-48 | name and description empty, the user's company |
| ItemManagement.FilteredItems | frontend/src/pages/ItemManagement.js:119-122 | an item is shown iff its name or SKU contains the term, ignoring case |
| ItemManagement.EmptySearchShowsAll | frontend/src/pages/ItemManagement.js:119-122 | an empty search shows the whole list |
| ItemManagement.SearchKeepsOrder | frontend/src/pages/ItemManagement.js:119-122 | the filter keeps the fetched order |
| ItemManagement.CategoryName | frontend/src/pages/ItemManagement.js:124-127 | the name of the first category with the id, else "Unknown Category" |
| ItemManagement.ItemManagementPage.constructor | frontend/src/pages/ItemManagement.js:21-48 | empty lists, loading, empty search, dialogs closed, blank forms |
| ItemManagement.ItemManagementPage.Visible | frontend/src/pages/ItemManagement.js:119-122 | the table shows exactly the matching items |
| ItemManagement.ItemManagementPage.FetchItems | frontend/src/pages/ItemManagement.js:55-64 | an answer replaces the items, a failure keeps them; loading ends either way |
| ItemManagement.ItemManagementPage.FetchCategories | frontend/src/pages/ItemManagement.js:66-73 | an answer replaces the categories, a failure keeps them |
| ItemManagement.ItemManagementPage.HandleAddItem | frontend/src/pages/ItemManagement.js:75-100 | accepted: blank form, dialog closed, items fetched again; refused: nothing changes |
| ItemManagement.ItemManagementPage.HandleAddCategory | frontend/src/pages/ItemManagement.js:102-117 | accepted: blank form, dialog closed, categories fetched again; refused: nothing changes |
| CustomerManagement.BlankCustomer | frontend/src/pages/CustomerManagement.js:23-36 | all eleven data fields empty, the user's company |
| CustomerManagement.FilteredCustomers | frontend/src/pages/CustomerManagement.js:79-83 | a customer is shown iff the name contains the term ignoring case, or the phone contains it as typed, or a non-empty email contains it ignoring case |
| CustomerManagement.EmptySearchShowsAll | frontend/src/pages/CustomerManagement.js:79-83 | an empty search shows the whole list |
| CustomerManagement.SearchKeepsOrder | frontend/src/pages/CustomerManagement.js:79-83 | the filter keeps the fetched order |
| CustomerManagement.CustomerManagementPage.constructor | frontend/src/pages/CustomerManagement.js:17-36 | empty list, loading, empty search, dialog closed, blank form |
| CustomerManagement.CustomerManagementPage.Visible | frontend/src/pages/CustomerManagement.js:79-83 | the table shows exactly the matching customers |
| CustomerManagement.CustomerManagementPage.FetchCustomers | frontend/src/pages/CustomerManagement.js:42-51 | an answer replaces the customers, a failure keeps them; loading ends either way |
| CustomerManagement.CustomerManagementPage.HandleAddCustomer | frontend/src/pages/CustomerManagement.js:53-77 | accepted: blank form, dialog closed, list fetched again; refused: nothing changes |
| SupplierManagement.BlankSupplier | frontend/src/pages/SupplierManagement.js:23-34 | every data field empty but payment terms "Net 30", the user's company |
| SupplierManagement.SameDefaultTerms | frontend/src/pages/SupplierManagement.js:32 | the page's blank terms are those the server gives a supplier stored without any |
| SupplierManagement.FilteredSuppliers | frontend/src/pages/SupplierManagement.js:75-79 | a supplier is shown iff the name contains the term ignoring case, or the phone contains it as typed, or a non-empty email contains it ignoring case |
| SupplierManagement.EmptySearchShowsAll | frontend/src/pages/SupplierManagement.js:75-79 | an empty search shows the whole list |
| SupplierManagement.SearchKeepsOrder | frontend/src/pages/SupplierManagement.js:75-79 | the filter keeps the fetched order |
| SupplierManagement.SupplierManagementPage.constructor | frontend/src/pages/SupplierManagement.js:17-34 | empty list, loading, empty search, dialog closed, blank form |
| SupplierManagement.SupplierManagementPage.Visible | frontend/src/pages/SupplierManagement.js:75-79 | the table shows exactly the matching suppliers |
| SupplierManagement.SupplierManagementPage.FetchSuppliers | frontend/src/pages/SupplierManagement.js:40-49 | an answer replaces the suppliers, a failure keeps them; loading ends either way |
| SupplierManagement.SupplierManagementPage.HandleAddSupplier | frontend/src/pages/SupplierManagement.js:51-73 | accepted: blank form, dialog closed, list fetched again; refused: nothing changes |
| DashboardPage.FieldOr0 | frontend/src/pages/Dashboard.js:72 | a summary field, or 0 before a summary has arrived |
| DashboardPage.Stats | frontend/src/pages/Dashboard.js:69-102 | four tiles: customers, suppliers, items and pending sales orders, each 0 without data |
| DashboardPage.BannersShowPositiveCounts | frontend/src/pages/Dashboard.js:199-217 | each banner shows iff its count is positive, with that count |
| DashboardPage.LowStockBlockShape | frontend/src/pages/Dashboard.js:235-265 | the block shows iff there are entries; it lists the first min(3, n) in order, and "+(n - 3) more" iff n > 3 |
| DashboardPage.NoAlertsExactlyWhenNothingElse | frontend/src/pages/Dashboard.js:272 | "No alerts" shows iff no banner and no low-stock block does |
| DashboardPage.MoreAtMostSeven | frontend/src/pages/Dashboard.js:262-265 | with the server's ten-entry cap, "+N more" never exceeds seven |
| DashboardPage.DashboardView.constructor | frontend/src/pages/Dashboard.js:24-26 | no data, loading, no error |
| DashboardPage.DashboardView.FetchDashboardData | frontend/src/pages/Dashboard.js:32-44 | an answer replaces the summary; a failure keeps it and sets "Failed to load dashboard data"; loading ends |
| Layout.DashboardOnlyAtRoot | frontend/src/components/Layout.js:62 | the dashboard link is highlighted on `/` only |
| Layout.AtMostOneActive | frontend/src/components/Layout.js:29-45 | no two sidebar links are highlighted on the same path |
| Layout.EveryLinkRoutes | frontend/src/components/Layout.js:29-45 | every sidebar link leads to a page inside the shell |
| Layout.HyphenateSpaces | frontend/src/components/Layout.js:67 | the result has no whitespace and is no longer than the input |
| Layout.HyphenateWithoutSpaces | frontend/src/components/Layout.js:67 | text without whitespace is unchanged |
| Layout.HyphenateRunsOnce | frontend/src/components/Layout.js:67 | each run of whitespace becomes exactly one hyphen |
| Layout.TwoWordTestId | frontend/src/components/Layout.js:67 | "Purchase Orders" gives `nav-purchase-orders`: lower-cased words joined by a hyphen |
| Layout.RoleLabel | frontend/src/components/Layout.js:118 | only the first underscore becomes a space |
| Layout.RoleLabelOneUnderscore | frontend/src/components/Layout.js:118 | `super_admin` reads `super admin` |
| Layout.Shell.constructor | frontend/src/components/Layout.js:27 | the mobile sheet starts closed |
| Layout.Shell.OpenChange | frontend/src/components/Layout.js:144 | the sheet's state follows its open and close events |
| Layout.Shell.ClickLink | frontend/src/components/Layout.js:68 | a click closes the sheet in the mobile sidebar and leaves it alone in the desktop one |
| Text.Lower | frontend/src/pages/ItemManagement.js:120 | `toLowerCase` folds character by character and keeps the length |
| Text.LowerIdempotent | frontend/src/pages/ItemManagement.js:120 | folding twice is folding once |
| Text.LowerAppend | frontend/src/pages/ItemManagement.js:120 | folding distributes over concatenation |
| Text.ContainsIff | frontend/src/pages/ItemManagement.js:120 | `includes` holds iff the term occurs at some offset |
| Text.ContainsEmpty | frontend/src/pages/ItemManagement.js:120 | every text includes the empty text |
| Lists.FirstIndex | frontend/src/pages/ItemManagement.js:125 | `find`: the first position that passes, none iff none does |
| Lists.Filter | frontend/src/pages/ItemManagement.js:119-122 | `filter` keeps exactly the elements that pass |
| Lists.FilterAppend | frontend/src/pages/ItemManagement.js:119-122 | `filter` keeps the order of the list |
| Lists.FilterSingleton | frontend/src/pages/ItemManagement.js:119-122 | a one-element list keeps its element iff it passes |
| Lists.FilterCount | backend/server.py:479-500 | the filter's length is the number of positions whose element passes |
| Lists.FilterKeepsAll | frontend/src/pages/ItemManagement.js:119-122 | `filter` returns the whole list iff every element passes |

## Left out

- **Storage and network.** MongoDB, Motor, FastAPI routing, dependency injection, CORS and logging are not modelled. The collections are fields of `Server.Database`, one request runs at a time, and the caller's user id is a parameter.
- **The Razorpay order endpoint.** It calls a foreign payment gateway. The other read-only endpoints and `create_company`, locations, categories, items, customers, suppliers and orders only insert or list, and are outside this model.
- **Password hashing, token creation and token checking.** They come from an auth module that is not part of this model. They are parameters: `verify`, `hash` and `createToken`.
- **Money and time.**
  - Money is counted in integer paise rather than Python floats, and no float rounding is claimed.
  - Timestamps are integers, and the clock reading `now` is a parameter.
  - Dates in generated ids are years 1000 to 9999.
- **Generated identifiers.**
  - uuids are parameters.
  - `stock_id`, `batch_id`, `movement_id` and `_id` are not generated; a row is identified by its position in its collection.
  - The `$inc` updates address rows by position, which matches `stock_id` as long as the ids are unique.
- **Sort order of equal timestamps.** MongoDB leaves the order of rows with equal `last_updated` unspecified. The model takes collection order.
- **The age of a stock row.** The goods-receipt `$inc` does not bump `last_updated`, so a row's FIFO age is the time it was created. The model keeps this as written.
- **Concurrency.** Two requests racing on one stock row are not modelled, nor is `find_one` choosing among duplicate rows. The model proves instead that one row per key is kept.
- **Auth.Login:** a user stored without `password_hash` is checked against the empty string, as `.get("password_hash", "")` does.
- **The JSON user object.**
  - Only flat objects whose members are strings, booleans, `null` or arrays of strings are modelled: no numbers, nested objects or arrays of anything else. A stored value holding one of those is read as a syntax error, where `JSON.parse` would accept it.
  - `\u` escapes of surrogate halves are refused.
  - JavaScript's ordering of integer-like keys is not modelled.
- **Session.UserJson:** the `_id`, `created_at` and `updated_at` members, which the endpoint sends as strings, are not listed, since the model's users carry no timestamps.
- **Session.Route:** paths are compared exactly. React Router also matches them ignoring letter case and a trailing slash, so `/Items` or `/items/` reach the item page in the browser but an unknown page here.
- **Session.CompanyParam:** a non-empty parameter is promised only when `company_id` is not an array. An array is truthy, so `||` keeps it, and a template literal writes its items joined by commas, which is empty for `[]`.
- **Layout.RoleLabel:** the role is taken as a string. A role of another type, on which `replace` would throw, is not modelled.
- **LoginPage.ErrorText:** the detail is taken as an optional string. FastAPI's validation-error detail, which is a list, is not modelled.
- **Client presentation.** Toasts, console output, CSS `capitalize`, icons and JSX markup are left out, as are keystroke handlers that copy input into the form state (form edits, search typing, dialog toggles). The API base URL is also left out.
- **Asynchronous ordering.** A refetch after an add is treated as completing before the next event. Interleavings of overlapping requests are not modelled.
- **Text.Lower:** only ASCII letters are folded. Unicode case mapping is not modelled.
- **Placeholder pages.** The purchase-order, sales-order, invoice, inventory, payment, report, company-settings and user-management pages only simulate loading, so they are not modelled.
