/**
  The browser session kept by the application shell: the signed-in user,
  the loading flag shown while a stored session is being checked, the
  `token` and `user` entries of local storage, and the `Authorization`
  header sent with every request (a bearer token, section 2.1 of RFC 6750).
  Also the route guard and the `useAuth` accessor, and the company every
  page falls back to when the user has none.
*/
module Session {
  import opened Wrappers
  import opened Json
  import Models

  const TokenKey := "token"
  const UserKey := "user"
  const DemoCompany := "demo-company"

  function Bearer(token: string): string {
    "Bearer " + token
  }

  /** The session as a value: `user` is `null` (an `Atom(Null)`) while nobody is signed in. */
  datatype State = State(user: Value, loading: bool, storage: map<string, string>, authHeader: Option<string>)

  /** A freshly loaded page: nobody signed in yet, loading, storage as the browser kept it. */
  function Mounted(storage: map<string, string>): (r: State)
    ensures !Truthy(r.user) && r.loading && r.storage == storage && r.authHeader.None?
  {
    State(Atom(Null), true, storage, None)
  }

  /** `localStorage.getItem(key)`, with `null` for a missing key. */
  function Item(storage: map<string, string>, key: string): Option<string> {
    if key in storage then Some(storage[key]) else None
  }

  /** The stored token when it is truthy, that is present and not empty. */
  function StoredToken(storage: map<string, string>): (r: Option<string>)
    ensures r.Some? <==> TokenKey in storage && storage[TokenKey] != ""
    ensures r.Some? ==> r.value == storage[TokenKey]
  {
    match Item(storage, TokenKey)
    case Some(t) => if t != "" then Some(t) else None
    case None => None
  }

  /** The text parsed for the user on restore: the stored entry, or `{}` when it is missing or empty. */
  function StoredUserText(storage: map<string, string>): (r: string)
    ensures UserKey in storage && storage[UserKey] != "" ==> r == storage[UserKey]
    ensures !(UserKey in storage && storage[UserKey] != "") ==> r == "{}"
  {
    match Item(storage, UserKey)
    case Some(u) => if u != "" then u else "{}"
    case None => "{}"
  }

  /** Both session entries removed, as `logout` and a failed restore do. */
  function Cleared(storage: map<string, string>): (r: map<string, string>)
    ensures TokenKey !in r && UserKey !in r
    ensures forall k :: k in r <==> k in storage && k != TokenKey && k != UserKey
    ensures forall k :: k in r ==> r[k] == storage[k]
  {
    storage - {TokenKey, UserKey}
  }

  // ------------------------------------------------------------------ transitions

  /** `login(userData, token)`: remember the user, store both entries, send the token from now on. */
  function LoggedIn(s: State, u: Value, token: string): State {
    s.(user := u,
       storage := s.storage[TokenKey := token][UserKey := Stringify(u)],
       authHeader := Some(Bearer(token)))
  }

  /** `logout()`: forget the user, drop both entries and the header. */
  function LoggedOut(s: State): State {
    s.(user := Atom(Null), storage := Cleared(s.storage), authHeader := None)
  }

  /**
    The restore effect run once on mount. Without a truthy stored token no
    request is made. With one, the header is set and the session is checked
    with a request whose outcome is `verified`; on success the stored user
    is parsed, and a failed request or a stored user that does not parse
    both end in the catch branch, which clears the entries and the header.
    Loading ends whatever happens.
  */
  function Restored(s: State, verified: bool): State {
    match StoredToken(s.storage)
    case None => s.(loading := false)
    case Some(t) =>
      var parsed := if verified then Parse(StoredUserText(s.storage)) else None;
      match parsed
      case Some(u) => s.(user := u, authHeader := Some(Bearer(t)), loading := false)
      case None => s.(storage := Cleared(s.storage), authHeader := None, loading := false)
  }

  // ------------------------------------------------------------------ properties

  /** After signing in, reloading the page with a session the server accepts gives back the same user. */
  lemma LoginSurvivesReload(s: State, u: Value, token: string)
    requires WellFormed(u) && token != ""
    ensures
      var r := Restored(Mounted(LoggedIn(s, u, token).storage), true);
      r.user == u && r.authHeader == Some(Bearer(token)) && !r.loading
  {
    var storage := LoggedIn(s, u, token).storage;
    assert StoredToken(storage) == Some(token);
    assert Stringify(u) != [] by {
      match u
      case Atom(a) => assert StringifyLeaf(a) != [];
      case Object(_) =>
    }
    assert StoredUserText(storage) == Stringify(u);
    ParseStringify(u);
  }

  /** The user as the sign-in endpoint sends it and `login` stores it: its fields under their wire names. */
  function UserJson(u: Models.User): (r: Value)
    ensures r.Object? && WellFormed(r) && Truthy(r)
    ensures ("company_id", Str(u.companyId)) in r.members && ("location_ids", Strs(u.locationIds)) in r.members
    ensures ("role", Str(Models.RoleText(u.role))) in r.members && ("is_active", Bool(u.isActive)) in r.members
  {
    var ms := [
      ("user_id", Str(u.userId)), ("email", Str(u.email)), ("name", Str(u.name)), ("phone", Str(u.phone)),
      ("role", Str(Models.RoleText(u.role))), ("company_id", Str(u.companyId)), ("location_ids", Strs(u.locationIds)),
      ("password_hash", match u.passwordHash case Some(h) => Str(h) case None => Null),
      ("is_active", Bool(u.isActive))];
    assert ms[5] == ("company_id", Str(u.companyId)) && ms[6] == ("location_ids", Strs(u.locationIds));
    assert ms[4] == ("role", Str(Models.RoleText(u.role))) && ms[8] == ("is_active", Bool(u.isActive));
    Object(ms)
  }

  /**
    A user signed in through the endpoint is signed in again after a reload
    the server accepts, with the same members, location ids included, and
    the pages fall back on their own company, not the demo one.
  */
  lemma SignedInUserSurvivesReload(s: State, u: Models.User, token: string)
    requires token != "" && u.companyId != ""
    ensures
      var r := Restored(Mounted(LoggedIn(s, UserJson(u), token).storage), true);
      r.user == UserJson(u) && r.authHeader == Some(Bearer(token)) && !r.loading
      && Company(r.user) == Str(u.companyId)
  {
    LoginSurvivesReload(s, UserJson(u), token);
    CompanyOfUser(UserJson(u), u.companyId);
  }

  /** Signing out after signing in leaves what signing out alone would: sign-in leaves no trace. */
  lemma LogoutUndoesLogin(s: State, u: Value, token: string)
    ensures LoggedOut(LoggedIn(s, u, token)) == LoggedOut(s)
  {
    var a := Cleared(LoggedIn(s, u, token).storage);
    var b := Cleared(s.storage);
    assert forall k :: k in a <==> k in b;
    assert a == b;
  }

  /** After signing out nobody is signed in, nothing is stored for the session and no token is sent. */
  lemma LoggedOutIsSignedOut(s: State)
    ensures
      var r := LoggedOut(s);
      !Truthy(r.user) && StoredToken(r.storage).None? && r.authHeader.None? && r.loading == s.loading
  {
  }

  /** A reload after signing out finds no session and makes no request. */
  lemma {:induction false} LogoutSurvivesReload(s: State, verified: bool)
    ensures Restored(Mounted(LoggedOut(s).storage), verified) == Mounted(LoggedOut(s).storage).(loading := false)
  {
    assert StoredToken(LoggedOut(s).storage).None?;
  }

  /** Loading ends in every outcome of the restore. */
  lemma RestoreEndsLoading(s: State, verified: bool)
    ensures !Restored(s, verified).loading
  {
  }

  /** With no truthy stored token the outcome of a request cannot matter, since none is made, and only loading changes. */
  lemma RestoreWithoutToken(s: State)
    requires StoredToken(s.storage).None?
    ensures Restored(s, true) == Restored(s, false) == s.(loading := false)
  {
  }

  /** A stored session the server rejects is forgotten: entries and header gone, user as it was. */
  lemma RestoreRejected(s: State)
    requires StoredToken(s.storage).Some?
    ensures
      var r := Restored(s, false);
      r.user == s.user && r.storage == Cleared(s.storage) && r.authHeader.None?
  {
  }

  /**
    A stored session the server accepts keeps the token as the header and
    signs in whatever the stored user parses to; an absent or empty stored
    user gives the empty object, which counts as signed in. A stored user
    that does not parse throws inside the success handler, which lands in
    the catch branch like a rejected session.
  */
  lemma RestoreAccepted(s: State)
    requires StoredToken(s.storage).Some?
    ensures
      var r := Restored(s, true);
      var parsed := Parse(StoredUserText(s.storage));
      && (parsed.Some? ==>
            r.user == parsed.value && r.storage == s.storage && r.authHeader == Some(Bearer(s.storage[TokenKey])))
      && (parsed.None? ==> r.user == s.user && r.storage == Cleared(s.storage) && r.authHeader.None?)
      && !r.loading
  {
  }

  /** A stored user holding an array is restored, not cleared: `{"a":[]}` signs in as itself. */
  lemma RestoreArrayMember(s: State)
    requires s.storage == map[TokenKey := "t", UserKey := "{\"a\":[]}"]
    ensures
      var r := Restored(s, true);
      r.user == Object([("a", Strs([]))]) && r.storage == s.storage && r.authHeader == Some(Bearer("t"))
  {
    var u := Object([("a", Strs([]))]);
    assert Stringify(u) == "{\"a\":[]}" by {
      assert Escape("a") == "a";
      assert StringifyItems([]) == "";
    }
    ParseStringify(u);
  }

  /** With no stored user, an accepted session signs in as `{}`. */
  lemma RestoreWithoutStoredUser(s: State)
    requires StoredToken(s.storage).Some? && UserKey !in s.storage
    ensures Restored(s, true).user == Object([])
  {
    assert Parse("{}") == Some(Object([])) by {
      ParseStringify(Object([]));
      assert Stringify(Object([])) == "{}";
    }
  }

  // ------------------------------------------------------------------ the provider

  /** The component that owns the session and hands it to every page through the context. */
  class AuthProvider {
    var user: Value
    var loading: bool
    var storage: map<string, string>
    var authHeader: Option<string>

    function Current(): State
      reads this
    {
      State(user, loading, storage, authHeader)
    }

    constructor (browserStorage: map<string, string>)
      ensures Current() == Mounted(browserStorage)
    {
      user := Atom(Null);
      loading := true;
      storage := browserStorage;
      authHeader := None;
    }

    method Login(u: Value, token: string)
      modifies this
      ensures Current() == LoggedIn(old(Current()), u, token)
    {
      user := u;
      storage := storage[TokenKey := token];
      storage := storage[UserKey := Stringify(u)];
      authHeader := Some(Bearer(token));
    }

    method Logout()
      modifies this
      ensures Current() == LoggedOut(old(Current()))
    {
      user := Atom(Null);
      storage := storage - {TokenKey};
      storage := storage - {UserKey};
      authHeader := None;
    }

    /** The mount effect; `verified` is the outcome of the check request when one is made. */
    method Restore(verified: bool)
      modifies this
      ensures Current() == Restored(old(Current()), verified)
    {
      var token := Item(storage, TokenKey);
      if token.Some? && token.value != "" {
        authHeader := Some(Bearer(token.value));
        var parsed := if verified then Parse(StoredUserText(storage)) else None;
        if parsed.Some? {
          user := parsed.value;
        } else {
          storage := storage - {TokenKey};
          storage := storage - {UserKey};
          authHeader := None;
        }
      }
      loading := false;
    }
  }

  // ------------------------------------------------------------------ context and routes

  /** What the context hands to the pages. */
  datatype AuthContext = AuthContext(user: Value)

  const OutsideProvider := "useAuth must be used within AuthProvider"

  /** `useAuth()`: the context, or the error thrown when no provider is above the caller. */
  function UseAuth(context: Option<AuthContext>): (r: Result<AuthContext, string>)
    ensures r.Ok? <==> context.Some?
    ensures r.Ok? ==> r.value == context.value
    ensures r.Err? ==> r.error == OutsideProvider
  {
    match context
    case Some(c) => Ok(c)
    case None => Err(OutsideProvider)
  }

  /** The pages inside the shell, by path. */
  const Pages: seq<(string, string)> := [
    ("/", "Dashboard"), ("/items", "ItemManagement"), ("/customers", "CustomerManagement"),
    ("/suppliers", "SupplierManagement"), ("/purchase-orders", "PurchaseOrders"),
    ("/sales-orders", "SalesOrders"), ("/invoices", "Invoices"), ("/inventory", "Inventory"),
    ("/payments", "Payments"), ("/reports", "Reports"), ("/settings/company", "CompanySettings"),
    ("/settings/users", "UserManagement")]

  function PageAt(path: string, table: seq<(string, string)>): (r: Option<string>)
    ensures r.Some? ==> (path, r.value) in table
    ensures r.None? <==> forall i :: 0 <= i < |table| ==> table[i].0 != path
  {
    if table == [] then None
    else if table[0].0 == path then Some(table[0].1)
    else PageAt(path, table[1..])
  }

  /**
    What the application shows: the spinner while the stored session is
    being checked, then the sign-in page, a redirect, or the shell around a
    page (none for an unknown path).
  */
  datatype Screen = Spinner | SignInPage | Redirect(to: string) | Shell(page: Option<string>)

  function Route(path: string, loading: bool, user: Value): Screen {
    if loading then Spinner
    else if path == "/login" then (if Truthy(user) then Redirect("/") else SignInPage)
    else if Truthy(user) then Shell(PageAt(path, Pages))
    else Redirect("/login")
  }

  /**
    The guard: nothing but the spinner while loading; after that, the shell
    is shown exactly to a signed-in user off the sign-in path, and everyone
    else is sent elsewhere or signs in.
  */
  lemma RouteGuard(path: string, loading: bool, user: Value)
    ensures Route(path, loading, user) == Spinner <==> loading
    ensures Route(path, loading, user).Shell? <==> !loading && Truthy(user) && path != "/login"
    ensures Route(path, loading, user) == SignInPage <==> !loading && !Truthy(user) && path == "/login"
    ensures Route(path, loading, user) == Redirect("/login") <==> !loading && !Truthy(user) && path != "/login"
    ensures Route(path, loading, user) == Redirect("/") <==> !loading && Truthy(user) && path == "/login"
  {
  }

  /** The spinner is shown until the restore effect has run, and never after it. */
  lemma SpinnerUntilRestored(s: State, verified: bool, path: string)
    ensures Route(path, Mounted(s.storage).loading, Mounted(s.storage).user) == Spinner
    ensures Route(path, Restored(s, verified).loading, Restored(s, verified).user) != Spinner
  {
  }

  // ------------------------------------------------------------------ company

  /**
    `user?.company_id || 'demo-company'` as the pages put it in their forms:
    the user's company when it is truthy, otherwise the demo company.
  */
  function Company(user: Value): (r: Leaf)
    ensures Truthy(Atom(r))
    ensures r == Str(DemoCompany) <==> (Get(user, "company_id").None? || !Truthy(Atom(Get(user, "company_id").value))
                                        || Get(user, "company_id").value == Str(DemoCompany))
  {
    match Get(user, "company_id")
    case Some(c) => if Truthy(Atom(c)) then c else Str(DemoCompany)
    case None => Str(DemoCompany)
  }

  /** The items of an array as a template literal writes it: separated by commas, unquoted. */
  function JoinItems(xs: seq<string>): (r: string)
    ensures |xs| > 1 ==> r != ""
    ensures |xs| == 1 ==> r == xs[0]
  {
    if xs == [] then "" else if |xs| == 1 then xs[0] else xs[0] + "," + JoinItems(xs[1..])
  }

  /** The same value written into a query string by a template literal. */
  function CompanyParam(user: Value): (r: string)
    ensures !Company(user).Strs? ==> r != ""
    ensures Company(user).Str? ==> r == Company(user).s
    ensures Company(user).Strs? ==> r == JoinItems(Company(user).items)
  {
    match Company(user)
    case Str(s) => s
    case Bool(b) => if b then "true" else "false"
    case Null => "null"
    case Strs(xs) => JoinItems(xs)
  }

  /** The company a signed-in user gets is the one stored for them, when it is a non-empty string. */
  lemma CompanyOfUser(user: Value, c: string)
    requires user.Object? && DistinctKeys(user.members) && ("company_id", Str(c)) in user.members && c != ""
    ensures Company(user) == Str(c) && CompanyParam(user) == c
  {
    var k :| 0 <= k < |user.members| && user.members[k] == ("company_id", Str(c));
    var g := Get(user, "company_id");
    var j :| 0 <= j < |user.members| && user.members[j] == ("company_id", g.value);
    assert j == k;
  }
}
