/**
  Signing in and registering. Password hashing and token signing are not
  modelled: they are the functions `hash`, `verify` and `createToken` that
  the caller supplies.
*/
module Auth {
  import opened Wrappers
  import opened Models
  import opened Lists

  datatype LoginRequest = LoginRequest(email: string, password: string)
  datatype LoginResponse = LoginResponse(accessToken: string, tokenType: string, user: User)
  datatype HttpError = HttpError(status: int, detail: string)

  const BadCredentials := HttpError(401, "Incorrect email or password")
  const InactiveUser := HttpError(400, "Inactive user")
  const EmailTaken := HttpError(400, "Email already registered")

  /** `db.users.find_one({"email": ...})`. */
  function FindUserByEmail(users: seq<User>, email: string): (r: Option<nat>)
    ensures r.Some? ==> r.value < |users| && users[r.value].email == email
    ensures r.Some? ==> forall j :: 0 <= j < r.value ==> users[j].email != email
    ensures r.None? <==> forall j :: 0 <= j < |users| ==> users[j].email != email
  {
    FirstIndex(users, (u: User) => u.email == email)
  }

  /** The stored hash, or the empty string for a user stored without one. */
  function StoredHash(u: User): string {
    u.passwordHash.GetOr("")
  }

  /**
    The sign-in endpoint: an unknown email and a wrong password give the
    same 401; a right password for an inactive user gives 400; otherwise a
    bearer token for the user's id.
  */
  function Login(users: seq<User>, req: LoginRequest, verify: (string, string) -> bool, createToken: string -> string)
    : (r: Result<LoginResponse, HttpError>)
    ensures r == Err(BadCredentials) <==>
      FindUserByEmail(users, req.email).None? || !verify(req.password, StoredHash(users[FindUserByEmail(users, req.email).value]))
    ensures r == Err(InactiveUser) <==>
      FindUserByEmail(users, req.email).Some?
      && verify(req.password, StoredHash(users[FindUserByEmail(users, req.email).value]))
      && !users[FindUserByEmail(users, req.email).value].isActive
    ensures r.Ok? <==>
      FindUserByEmail(users, req.email).Some?
      && verify(req.password, StoredHash(users[FindUserByEmail(users, req.email).value]))
      && users[FindUserByEmail(users, req.email).value].isActive
    ensures r.Ok? ==> r.value.user == users[FindUserByEmail(users, req.email).value]
    ensures r.Ok? ==> r.value.user in users && r.value.user.email == req.email && r.value.user.isActive
    ensures r.Ok? ==> r.value.accessToken == createToken(r.value.user.userId) && r.value.tokenType == "bearer"
  {
    match FindUserByEmail(users, req.email)
    case None => Err(BadCredentials)
    case Some(i) =>
      if !verify(req.password, StoredHash(users[i])) then Err(BadCredentials)
      else if !users[i].isActive then Err(InactiveUser)
      else Ok(LoginResponse(createToken(users[i].userId), "bearer", users[i]))
  }

  /** The user a registration stores: the submitted fields, the password's hash in place of the password, active. */
  function NewUser(req: UserCreate, userId: string, hash: string -> string): (u: User)
    ensures u.email == req.email && u.name == req.name && u.phone == req.phone && u.role == req.role
    ensures u.companyId == req.companyId && u.locationIds == req.locationIds
    ensures u.passwordHash == Some(hash(req.password)) && u.isActive && u.userId == userId
  {
    User(userId, req.email, req.name, req.phone, req.role, req.companyId, req.locationIds,
         passwordHash := Some(hash(req.password)))
  }

  predicate UniqueEmails(users: seq<User>) {
    forall i, j :: 0 <= i < j < |users| ==> users[i].email != users[j].email
  }

  /** Registering a new email keeps emails unique. */
  lemma RegisterKeepsEmailsUnique(users: seq<User>, req: UserCreate, userId: string, hash: string -> string)
    requires UniqueEmails(users)
    requires FindUserByEmail(users, req.email).None?
    ensures UniqueEmails(users + [NewUser(req, userId, hash)])
  {
  }

  /**
    Whoever has just registered can sign in with the same email and
    password, provided the hash verifies the password it was made from.
  */
  lemma LoginAfterRegister(users: seq<User>, req: UserCreate, userId: string, hash: string -> string,
                           verify: (string, string) -> bool, createToken: string -> string)
    requires FindUserByEmail(users, req.email).None?
    requires verify(req.password, hash(req.password))
    ensures Login(users + [NewUser(req, userId, hash)], LoginRequest(req.email, req.password), verify, createToken)
         == Ok(LoginResponse(createToken(userId), "bearer", NewUser(req, userId, hash)))
  {
    var us := users + [NewUser(req, userId, hash)];
    assert us[|users|].email == req.email;
    assert forall j :: 0 <= j < |users| ==> us[j] == users[j];
    assert FindUserByEmail(us, req.email) == Some(|users|);
  }
}
