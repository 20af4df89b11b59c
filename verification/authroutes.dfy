/**
 * Registration and login. Registration always creates a client; login answers every failed
 * credential check with the same reply. Password hashing, password comparison and token
 * signing are parameters: `hash` stands for bcrypt's hash, `matches` for its compare, and
 * `sign` for issuing the session token from the user's id, email and role.
 */
module AuthRoutes {
  import opened Wrappers
  import opened Text
  import opened Database
  import opened Responses

  const RegisterFieldsRequired := "Username (or Name), email, and password are required"
  const EmailRegistered := "Email already registered"
  const LoginFieldsRequired := "Email and password are required"
  const InvalidCredentials := "Invalid credentials"

  /** The user part of a registration or login reply. */
  datatype AuthUser = AuthUser(id: Id, username: string, email: string, role: Role)

  /** A successful registration or login: the signed token and the user. */
  datatype Session = Session(token: string, user: AuthUser)

  /** The body of `POST /register`. */
  datatype RegisterRequest = RegisterRequest(
    username: Option<string>,
    email: Option<string>,
    password: Option<string>,
    firstName: Option<string>,
    lastName: Option<string>,
    name: Option<string>,
    phoneNumber: Option<string>)

  /** The username a registration stores: the given one, or else the name. */
  function FinalUsername(req: RegisterRequest): Option<string> {
    Or(req.username, req.name)
  }

  predicate RegisterFieldsPresent(req: RegisterRequest) {
    Truthy(FinalUsername(req)) && Truthy(req.email) && Truthy(req.password)
  }

  /**
   * The first and last name a registration stores: when no (truthy) first name is given but a
   * name is, the trimmed name is split at its first space; otherwise both are kept as given.
   */
  function FinalNames(req: RegisterRequest): (r: (Option<string>, Option<string>))
    ensures Truthy(req.firstName) || !Truthy(req.name) ==> r == (req.firstName, req.lastName)
    ensures !Truthy(req.firstName) && Truthy(req.name) ==>
      && r.0.Some? && r.1.Some? && ' ' !in r.0.value
      && (' ' in Trim(req.name.value) ==> Trim(req.name.value) == r.0.value + " " + r.1.value)
      && (' ' !in Trim(req.name.value) ==> r == (Some(Trim(req.name.value)), Some("")))
  {
    if !Truthy(req.firstName) && Truthy(req.name) then
      var parts := NameParts(Trim(req.name.value));
      (Some(parts.0), Some(parts.1))
    else (req.firstName, req.lastName)
  }

  /** The user a successful registration stores. */
  function NewClient(req: RegisterRequest, hash: string -> Digest): User
    requires RegisterFieldsPresent(req)
  {
    var names := FinalNames(req);
    User(FinalUsername(req).value, hash(req.password.value), Client, req.email.value, names.0, names.1, req.phoneNumber)
  }

  /**
   * `POST /register`: username (or name), email and password are required; a registered email
   * is refused; a taken username fails the save. The new user is a client.
   */
  function Register(
    users: map<Id, User>, req: RegisterRequest, hash: string -> Digest, sign: (Id, string, Role) -> string, newId: Id): (r: Step<map<Id, User>, Session>)
    requires newId !in users
    ensures r.reply.Err? ==> r.store == users
    ensures !RegisterFieldsPresent(req) ==> r.reply == Err(BadRequest(RegisterFieldsRequired))
    ensures RegisterFieldsPresent(req) && EmailTaken(users, req.email.value) ==> r.reply == Err(BadRequest(EmailRegistered))
    ensures RegisterFieldsPresent(req) && !EmailTaken(users, req.email.value) && UsernameTaken(users, FinalUsername(req).value) ==>
      r.reply == Err(ServerError(ServerErrorText))
    ensures r.reply.Ok? <==>
      RegisterFieldsPresent(req) && !EmailTaken(users, req.email.value) && !UsernameTaken(users, FinalUsername(req).value)
    ensures r.reply.Ok? ==>
      && r.store == users[newId := NewClient(req, hash)]
      && r.store[newId].role == Client
      && r.reply.value == Session(sign(newId, req.email.value, Client), AuthUser(newId, FinalUsername(req).value, req.email.value, Client))
  {
    if !RegisterFieldsPresent(req) then Step(users, Err(BadRequest(RegisterFieldsRequired)))
    else if FindByEmail(users, req.email.value).Some? then Step(users, Err(BadRequest(EmailRegistered)))
    else if UsernameTaken(users, FinalUsername(req).value) then Step(users, Err(ServerError(ServerErrorText)))
    else
      var u := NewClient(req, hash);
      Step(users[newId := u], Ok(Session(sign(newId, u.email, Client), AuthUser(newId, u.username, u.email, Client))))
  }

  /** Registration keeps emails and usernames unique. */
  lemma RegisterPreservesWellFormed(
    users: map<Id, User>, req: RegisterRequest, hash: string -> Digest, sign: (Id, string, Role) -> string, newId: Id)
    requires newId !in users && UsersWellFormed(users)
    ensures UsersWellFormed(Register(users, req, hash, sign, newId).store)
  {
    var r := Register(users, req, hash, sign, newId);
    if r.reply.Ok? {
      var u := r.store[newId];
      forall a, b | a in r.store && b in r.store && a != b
        ensures r.store[a].email != r.store[b].email && r.store[a].username != r.store[b].username
      {
        if a == newId {
          assert b in users;
        } else if b == newId {
          assert a in users;
        }
      }
    }
  }

  /**
   * A name with blanks around it is trimmed before the split, so a registration without a
   * first name stores the name's first word and the rest, whatever blanks surround them.
   */
  lemma RegisterSplitsTrimmedName(req: RegisterRequest, first: string, last: string, lead: string, trail: string)
    requires !Truthy(req.firstName)
    requires first != "" && ' ' !in first && !IsSpace(first[0])
    requires last != "" && !IsSpace(last[|last| - 1])
    requires req.name == Some(lead + first + " " + last + trail)
    requires forall i :: 0 <= i < |lead| ==> IsSpace(lead[i])
    requires forall i :: 0 <= i < |trail| ==> IsSpace(trail[i])
    ensures FinalNames(req) == (Some(first), Some(last))
  {
    var core := first + " " + last;
    assert req.name.value == lead + core + trail;
    TrimAround(lead, core, trail);
    NamePartsOf(first, last);
  }

  /** Trimming removes exactly the blanks around a text that starts and ends with non-blanks. */
  lemma TrimAround(lead: string, core: string, trail: string)
    requires core != [] && !IsSpace(core[0]) && !IsSpace(core[|core| - 1])
    requires forall i :: 0 <= i < |lead| ==> IsSpace(lead[i])
    requires forall i :: 0 <= i < |trail| ==> IsSpace(trail[i])
    ensures Trim(lead + core + trail) == core
  {
    var s := lead + core + trail;
    var t := TrimStart(s);
    assert !IsSpace(s[|lead|]);
    assert |t| == |core| + |trail|;
    assert t == core + trail;
    var e := TrimEnd(t);
    assert !IsSpace(t[|core| - 1]);
    assert |e| == |core|;
    assert e == core;
  }

  /**
   * `POST /login`: email and password are required; an unknown email and a wrong password
   * both get the same 401 reply; otherwise a session for the user holding the email.
   */
  function Login(
    users: map<Id, User>, email: Option<string>, password: Option<string>,
    matches: (string, Digest) -> bool, sign: (Id, string, Role) -> string): (r: Reply<Session>)
    ensures !Truthy(email) || !Truthy(password) ==> r == Err(BadRequest(LoginFieldsRequired))
    ensures r.Ok? <==>
      && Truthy(email) && Truthy(password)
      && FindByEmail(users, email.value).Some?
      && matches(password.value, users[FindByEmail(users, email.value).value].password)
    ensures r.Err? && Truthy(email) && Truthy(password) ==> r == Err(Unauthorized(InvalidCredentials))
    ensures r.Ok? ==>
      var id := FindByEmail(users, email.value).value;
      r.value == Session(sign(id, email.value, users[id].role), AuthUser(id, users[id].username, email.value, users[id].role))
  {
    if !Truthy(email) || !Truthy(password) then Err(BadRequest(LoginFieldsRequired))
    else
      match FindByEmail(users, email.value)
      case None => Err(Unauthorized(InvalidCredentials))
      case Some(id) =>
        if !matches(password.value, users[id].password) then Err(Unauthorized(InvalidCredentials))
        else
          var u := users[id];
          Ok(Session(sign(id, u.email, u.role), AuthUser(id, u.username, u.email, u.role)))
  }

  /** An unknown email and a wrong password cannot be told apart. */
  lemma LoginFailureUniform(
    users: map<Id, User>, unknown: string, known: string, password: string,
    matches: (string, Digest) -> bool, sign: (Id, string, Role) -> string)
    requires unknown != "" && known != "" && password != ""
    requires !EmailTaken(users, unknown)
    requires forall u :: u in users && users[u].email == known ==> !matches(password, users[u].password)
    ensures Login(users, Some(unknown), Some(password), matches, sign)
         == Login(users, Some(known), Some(password), matches, sign)
  {
  }

  /**
   * Whoever registers can log in: with a hash the compare accepts, logging in with the same
   * email and password after a successful registration yields a session for the new client.
   */
  lemma RegisterThenLogin(
    users: map<Id, User>, req: RegisterRequest, hash: string -> Digest, matches: (string, Digest) -> bool,
    sign: (Id, string, Role) -> string, newId: Id)
    requires newId !in users && UsersWellFormed(users)
    requires forall p :: matches(p, hash(p))
    requires Register(users, req, hash, sign, newId).reply.Ok?
    ensures var s := Register(users, req, hash, sign, newId).store;
      var r := Login(s, req.email, req.password, matches, sign);
      r.Ok? && r.value.user == AuthUser(newId, FinalUsername(req).value, req.email.value, Client)
  {
    var s := Register(users, req, hash, sign, newId).store;
    RegisterPreservesWellFormed(users, req, hash, sign, newId);
    FindByEmailUnique(s, req.email.value, newId);
  }
}
