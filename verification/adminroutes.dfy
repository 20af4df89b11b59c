/**
 * The admin's writing routes and plain listings: creating invoices on behalf of a client,
 * managing sales representatives, and reading any invoice's communications.
 */
module AdminRoutes {
  import opened Wrappers
  import opened Text
  import opened Database
  import opened Responses
  import ClientRoutes
  import SalesRoutes

  const AllFieldsRequired := "All required fields must be provided"
  const ClientNotFound := "Client not found"
  const SalesNotFound := "Sales representative not found"
  const SalesFieldsRequired := "Username, email and password are required"
  const EmailRegistered := "Email already registered"
  const EmailInUse := "Email already in use"
  const SalesDeleted := "Sales representative deleted successfully"
  const InvoiceNotFound := "Invoice not found"

  /** `GET /clients` and `GET /sales`: every user with the role, without the password digest. */
  function UsersWithRole(users: map<Id, User>, role: Role): (r: map<Id, Profile>)
    ensures forall id :: id in r <==> HasRole(users, id, role)
    ensures forall id :: id in r ==> id in users && r[id] == ProfileOf(id, users[id])
  {
    map id | id in users && users[id].role == role :: ProfileOf(id, users[id])
  }

  /** `GET /invoice/:id/communications` for the admin: any invoice, no assignment scope. */
  function Communications(invoices: map<Id, Invoice>, id: Id): (r: Reply<seq<Communication>>)
    ensures r.Ok? <==> id in invoices
    ensures r.Ok? ==> r.value == invoices[id].communications
    ensures r.Err? ==> r.error == NotFound(InvoiceNotFound)
  {
    if id in invoices then Ok(invoices[id].communications) else Err(NotFound(InvoiceNotFound))
  }

  /** The body of `POST /invoices`. The due date is a day number; an absent `items` is the empty list. */
  datatype InvoiceRequest = InvoiceRequest(
    clientId: Option<Id>,
    salesPersonId: Option<Id>,
    amount: Option<int>,
    dueDay: Option<int>,
    items: seq<Item>,
    clientName: Option<string>,
    invoiceNumber: Option<string>)

  /** The four required fields are present and truthy (an amount of 0 counts as missing). */
  predicate InvoiceFieldsPresent(req: InvoiceRequest) {
    req.clientId.Some? && req.salesPersonId.Some? && TruthyNumber(req.amount) && req.dueDay.Some?
  }

  /**
   * `POST /invoices`: required fields first, then the client, then the sales representative,
   * each of which must resolve to a user with that role; a taken invoice number fails the
   * save. The new invoice is pending with one history entry recording the admin, and is named
   * as the request says or else after the client.
   */
  function CreateInvoice(invoices: map<Id, Invoice>, users: map<Id, User>, actor: Id, req: InvoiceRequest, newId: Id): (r: Step<map<Id, Invoice>, Invoice>)
    requires newId !in invoices
    ensures r.reply.Err? ==> r.store == invoices
    ensures !InvoiceFieldsPresent(req) ==> r.reply == Err(BadRequest(AllFieldsRequired))
    ensures InvoiceFieldsPresent(req) && !HasRole(users, req.clientId.value, Client) ==> r.reply == Err(NotFound(ClientNotFound))
    ensures InvoiceFieldsPresent(req) && HasRole(users, req.clientId.value, Client) && !HasRole(users, req.salesPersonId.value, Sales) ==>
      r.reply == Err(NotFound(SalesNotFound))
    ensures InvoiceFieldsPresent(req) && HasRole(users, req.clientId.value, Client) && HasRole(users, req.salesPersonId.value, Sales)
            && InvoiceNumberTaken(invoices, req.invoiceNumber) ==>
      r.reply == Err(ServerError(ServerErrorText))
    ensures r.reply.Ok? <==>
      && InvoiceFieldsPresent(req)
      && HasRole(users, req.clientId.value, Client)
      && HasRole(users, req.salesPersonId.value, Sales)
      && !InvoiceNumberTaken(invoices, req.invoiceNumber)
    ensures r.reply.Ok? ==>
      var inv := r.reply.value;
      var client := users[req.clientId.value];
      && r.store == invoices[newId := inv]
      && inv.id == newId && inv.client == req.clientId.value && inv.salesPerson == req.salesPersonId.value
      && inv.amount == req.amount.value && inv.dueDay == req.dueDay.value
      && inv.status == Pending && inv.statusHistory == [HistoryEntry(Pending, actor)]
      && (Truthy(req.clientName) ==> inv.clientName == req.clientName.value)
      && (!Truthy(req.clientName) ==> inv.clientName == Show(client.firstName) + " " + Show(client.lastName))
      && inv.items == req.items && inv.invoiceNumber == req.invoiceNumber
      && inv.filePath.None?
      && inv.communications == [] && inv.emailNotifications == []
  {
    if !InvoiceFieldsPresent(req) then Step(invoices, Err(BadRequest(AllFieldsRequired)))
    else if !HasRole(users, req.clientId.value, Client) then Step(invoices, Err(NotFound(ClientNotFound)))
    else if !HasRole(users, req.salesPersonId.value, Sales) then Step(invoices, Err(NotFound(SalesNotFound)))
    else if InvoiceNumberTaken(invoices, req.invoiceNumber) then Step(invoices, Err(ServerError(ServerErrorText)))
    else
      var client := users[req.clientId.value];
      var name := Or(req.clientName, Some(Show(client.firstName) + " " + Show(client.lastName))).value;
      var inv := Invoice(newId, name, req.amount.value, req.dueDay.value, Pending, req.clientId.value, req.salesPersonId.value,
                         req.items, req.invoiceNumber, None, [HistoryEntry(Pending, actor)], [], []);
      Step(invoices[newId := inv], Ok(inv))
  }

  /** Creation keeps the invoice store well formed. */
  lemma CreateInvoicePreservesWellFormed(invoices: map<Id, Invoice>, users: map<Id, User>, actor: Id, req: InvoiceRequest, newId: Id)
    requires newId !in invoices
    requires InvoicesWellFormed(invoices)
    ensures InvoicesWellFormed(CreateInvoice(invoices, users, actor, req, newId).store)
  {
    var r := CreateInvoice(invoices, users, actor, req, newId);
    if r.reply.Ok? {
      InsertKeepsWellFormed(invoices, r.reply.value);
    }
  }

  /** Another user with this username or email would make the save fail on a unique index. */
  predicate Clashes(users: map<Id, User>, id: Id, u: User) {
    exists k :: k in users && k != id && (users[k].username == u.username || users[k].email == u.email)
  }

  /** A store with a user `u` under `id` added or replaced, when `u` clashes with nobody, keeps the unique indexes. */
  lemma PutKeepsWellFormed(users: map<Id, User>, id: Id, u: User)
    requires UsersWellFormed(users) && !Clashes(users, id, u)
    ensures UsersWellFormed(users[id := u])
  {
    var s := users[id := u];
    forall a, b | a in s && b in s && a != b
      ensures s[a].email != s[b].email && s[a].username != s[b].username
    {
      if a == id {
        assert b in users && b != id;
      } else if b == id {
        assert a in users && a != id;
      }
    }
  }

  /** The body of `POST /sales`. */
  datatype SalesRequest = SalesRequest(
    username: Option<string>,
    email: Option<string>,
    password: Option<string>,
    firstName: Option<string>,
    lastName: Option<string>)

  predicate SalesFieldsPresent(req: SalesRequest) {
    Truthy(req.username) && Truthy(req.email) && Truthy(req.password)
  }

  /**
   * `POST /sales`: username, email and password are required; a registered email is refused;
   * a taken username fails the save. The new user has role sales and the hashed password;
   * the reply leaves the digest out. `hash` stands for bcrypt and `newId` for the fresh id.
   */
  function CreateSales(users: map<Id, User>, req: SalesRequest, hash: string -> Digest, newId: Id): (r: Step<map<Id, User>, Profile>)
    requires newId !in users
    ensures r.reply.Err? ==> r.store == users
    ensures !SalesFieldsPresent(req) ==> r.reply == Err(BadRequest(SalesFieldsRequired))
    ensures SalesFieldsPresent(req) && EmailTaken(users, req.email.value) ==> r.reply == Err(BadRequest(EmailRegistered))
    ensures SalesFieldsPresent(req) && !EmailTaken(users, req.email.value) && UsernameTaken(users, req.username.value) ==>
      r.reply == Err(ServerError(ServerErrorText))
    ensures r.reply.Ok? <==>
      SalesFieldsPresent(req) && !EmailTaken(users, req.email.value) && !UsernameTaken(users, req.username.value)
    ensures r.reply.Ok? ==>
      && r.store == users[newId := User(req.username.value, hash(req.password.value), Sales, req.email.value,
                                        req.firstName, req.lastName, None)]
      && r.reply.value == ProfileOf(newId, r.store[newId])
  {
    if !SalesFieldsPresent(req) then Step(users, Err(BadRequest(SalesFieldsRequired)))
    else if FindByEmail(users, req.email.value).Some? then Step(users, Err(BadRequest(EmailRegistered)))
    else if UsernameTaken(users, req.username.value) then Step(users, Err(ServerError(ServerErrorText)))
    else
      var u := User(req.username.value, hash(req.password.value), Sales, req.email.value, req.firstName, req.lastName, None);
      Step(users[newId := u], Ok(ProfileOf(newId, u)))
  }

  /** Sales creation keeps emails and usernames unique, and the new user is a sales representative. */
  lemma CreateSalesPreservesWellFormed(users: map<Id, User>, req: SalesRequest, hash: string -> Digest, newId: Id)
    requires newId !in users && UsersWellFormed(users)
    ensures UsersWellFormed(CreateSales(users, req, hash, newId).store)
    ensures CreateSales(users, req, hash, newId).reply.Ok? ==> HasRole(CreateSales(users, req, hash, newId).store, newId, Sales)
  {
    var r := CreateSales(users, req, hash, newId);
    if r.reply.Ok? {
      PutKeepsWellFormed(users, newId, r.store[newId]);
    }
  }

  /** The body of `PUT /sales/:id`: every field may be left out. */
  datatype SalesUpdate = SalesUpdate(
    username: Option<string>,
    email: Option<string>,
    firstName: Option<string>,
    lastName: Option<string>,
    password: Option<string>)

  /** The user after the update: fields left out are kept, a truthy password is hashed, the role is untouched. */
  function Patched(u: User, req: SalesUpdate, hash: string -> Digest): (r: User)
    ensures r.role == u.role && r.phoneNumber == u.phoneNumber
    ensures r.username == req.username.GetOr(u.username) && r.email == req.email.GetOr(u.email)
    ensures r.firstName == (if req.firstName.Some? then req.firstName else u.firstName)
    ensures r.lastName == (if req.lastName.Some? then req.lastName else u.lastName)
    ensures r.password == if Truthy(req.password) then hash(req.password.value) else u.password
  {
    User(req.username.GetOr(u.username),
         if Truthy(req.password) then hash(req.password.value) else u.password,
         u.role,
         req.email.GetOr(u.email),
         if req.firstName.Some? then req.firstName else u.firstName,
         if req.lastName.Some? then req.lastName else u.lastName,
         u.phoneNumber)
  }

  /** The update after its email check: the target must exist; a clash on a unique index fails the save. */
  function ApplySalesUpdate(users: map<Id, User>, id: Id, req: SalesUpdate, hash: string -> Digest): (r: Step<map<Id, User>, Profile>)
    ensures r.reply.Err? ==> r.store == users
    ensures id !in users ==> r.reply == Err(NotFound(SalesNotFound))
    ensures id in users && Clashes(users, id, Patched(users[id], req, hash)) ==> r.reply == Err(ServerError(ServerErrorText))
    ensures r.reply.Ok? <==> id in users && !Clashes(users, id, Patched(users[id], req, hash))
    ensures r.reply.Ok? ==>
      && r.store == users[id := Patched(users[id], req, hash)]
      && r.reply.value == ProfileOf(id, r.store[id])
  {
    if id !in users then Step(users, Err(NotFound(SalesNotFound)))
    else
      var u := Patched(users[id], req, hash);
      if Clashes(users, id, u) then Step(users, Err(ServerError(ServerErrorText)))
      else Step(users[id := u], Ok(ProfileOf(id, u)))
  }

  /**
   * `PUT /sales/:id` as written: the email check runs `findOne({ email })` even when the
   * body has no email, and refuses the update whenever the user found is not the target.
   * There is no role check on the target.
   */
  function UpdateSales(users: map<Id, User>, id: Id, req: SalesUpdate, hash: string -> Digest): (r: Step<map<Id, User>, Profile>)
    ensures r.reply.Err? ==> r.store == users
    ensures FindOneByEmail(users, req.email).Some? && FindOneByEmail(users, req.email).value != id ==>
      r.reply == Err(BadRequest(EmailInUse))
    ensures !(FindOneByEmail(users, req.email).Some? && FindOneByEmail(users, req.email).value != id) ==>
      r == ApplySalesUpdate(users, id, req, hash)
    ensures r.reply.Ok? ==> r == ApplySalesUpdate(users, id, req, hash)
  {
    var existing := FindOneByEmail(users, req.email);
    if existing.Some? && existing.value != id then Step(users, Err(BadRequest(EmailInUse)))
    else ApplySalesUpdate(users, id, req, hash)
  }

  /**
   * `PUT /sales/:id` as evidently intended: the email check applies only when an email is
   * given, so an update that leaves the email out is judged on the target alone.
   */
  function UpdateSalesIntended(users: map<Id, User>, id: Id, req: SalesUpdate, hash: string -> Digest): (r: Step<map<Id, User>, Profile>)
    ensures r.reply.Err? ==> r.store == users
    ensures req.email.Some? && FindByEmail(users, req.email.value).Some? && FindByEmail(users, req.email.value).value != id ==>
      r.reply == Err(BadRequest(EmailInUse))
    ensures !(req.email.Some? && FindByEmail(users, req.email.value).Some? && FindByEmail(users, req.email.value).value != id) ==>
      r == ApplySalesUpdate(users, id, req, hash)
    ensures req.email.None? ==> r == ApplySalesUpdate(users, id, req, hash)
  {
    if req.email.Some? && FindByEmail(users, req.email.value).Some? && FindByEmail(users, req.email.value).value != id then
      Step(users, Err(BadRequest(EmailInUse)))
    else ApplySalesUpdate(users, id, req, hash)
  }

  /**
   * As written, an update without an email is refused for every target but the user with the
   * least id, however harmless the change.
   */
  lemma UpdateWithoutEmailRefused(users: map<Id, User>, id: Id, first: Id, req: SalesUpdate, hash: string -> Digest)
    requires req.email.None?
    requires first in users && id in users && first < id
    ensures UpdateSales(users, id, req, hash).reply == Err(BadRequest(EmailInUse))
  {
    var found := FindOneByEmail(users, None);
    assert found.value <= first;
  }

  /** As intended, an update without an email that clashes with nobody succeeds and keeps the email. */
  lemma UpdateWithoutEmailAccepted(users: map<Id, User>, id: Id, req: SalesUpdate, hash: string -> Digest)
    requires req.email.None? && id in users
    requires req.username.None? || !UsernameTaken(users - {id}, req.username.value)
    requires UsersWellFormed(users)
    ensures UpdateSalesIntended(users, id, req, hash).reply.Ok?
    ensures UpdateSalesIntended(users, id, req, hash).store[id].email == users[id].email
  {
    var u := Patched(users[id], req, hash);
    forall k | k in users && k != id
      ensures users[k].username != u.username && users[k].email != u.email
    {
      if req.username.Some? {
        assert k in users - {id};
      }
    }
  }

  /** Both versions of the update keep emails and usernames unique. */
  lemma UpdateSalesPreservesWellFormed(users: map<Id, User>, id: Id, req: SalesUpdate, hash: string -> Digest)
    requires UsersWellFormed(users)
    ensures UsersWellFormed(UpdateSales(users, id, req, hash).store)
    ensures UsersWellFormed(UpdateSalesIntended(users, id, req, hash).store)
  {
    var r := ApplySalesUpdate(users, id, req, hash);
    if r.reply.Ok? {
      PutKeepsWellFormed(users, id, Patched(users[id], req, hash));
    }
  }

  /** The update route does not check the target's role: an admin or a client can be edited through it. */
  lemma UpdateIgnoresRole(users: map<Id, User>, id: Id, req: SalesUpdate, hash: string -> Digest)
    requires id in users && users[id].role != Sales
    requires UpdateSales(users, id, req, hash).reply.Ok?
    ensures UpdateSales(users, id, req, hash).store[id].role == users[id].role
  {
  }

  /** `DELETE /sales/:id`: only a user with role sales is removed; anyone else is not found. */
  function DeleteSales(users: map<Id, User>, id: Id): (r: Step<map<Id, User>, string>)
    ensures r.reply.Ok? <==> HasRole(users, id, Sales)
    ensures r.reply.Ok? ==> r.store == users - {id} && r.reply.value == SalesDeleted
    ensures r.reply.Err? ==> r.store == users && r.reply.error == NotFound(SalesNotFound)
  {
    if HasRole(users, id, Sales) then Step(users - {id}, Ok(SalesDeleted)) else Step(users, Err(NotFound(SalesNotFound)))
  }

  /** Deleting never removes an admin or a client, and never breaks the unique indexes. */
  lemma DeleteKeepsOthers(users: map<Id, User>, id: Id)
    requires UsersWellFormed(users)
    ensures forall k :: k in users && users[k].role != Sales ==> k in DeleteSales(users, id).store
    ensures UsersWellFormed(DeleteSales(users, id).store)
  {
  }

  /**
   * The admin's sales listing and the clients' directory of sales representatives list the
   * same users, with the same username and email.
   */
  lemma SalesListingsAgree(users: map<Id, User>)
    ensures forall id :: id in UsersWithRole(users, Sales) <==> id in ClientRoutes.AvailableSales(users)
    ensures forall id :: id in UsersWithRole(users, Sales) ==>
      ClientRoutes.AvailableSales(users)[id]
      == ClientRoutes.SalesContact(id, UsersWithRole(users, Sales)[id].username, UsersWithRole(users, Sales)[id].email)
  {
  }

  /**
   * A sales representative the admin creates is listed at once by `GET /sales` and offered to
   * clients by `GET /client/available-sales`; nobody else enters or leaves either listing.
   */
  lemma CreatedSalesListed(users: map<Id, User>, req: SalesRequest, hash: string -> Digest, newId: Id)
    requires newId !in users
    ensures var r := CreateSales(users, req, hash, newId);
      r.reply.Ok? ==>
        && newId in UsersWithRole(r.store, Sales) && UsersWithRole(r.store, Sales)[newId] == r.reply.value
        && newId in ClientRoutes.AvailableSales(r.store)
        && ClientRoutes.AvailableSales(r.store)[newId] == ClientRoutes.SalesContact(newId, req.username.value, req.email.value)
        && forall k :: k != newId ==> (k in UsersWithRole(r.store, Sales) <==> k in UsersWithRole(users, Sales))
  {
  }

  /**
   * A deleted sales representative disappears from both listings, and nobody else leaves or
   * enters them.
   */
  lemma DeletedSalesUnlisted(users: map<Id, User>, id: Id)
    ensures var s := DeleteSales(users, id).store;
      && id !in UsersWithRole(s, Sales) && id !in ClientRoutes.AvailableSales(s)
      && forall k :: k != id ==> (k in UsersWithRole(s, Sales) <==> k in UsersWithRole(users, Sales))
  {
  }

  /**
   * The admin reads the same communications as the assigned sales representative, and also
   * those of every invoice the representative cannot see.
   */
  lemma CommunicationsAgree(invoices: map<Id, Invoice>, id: Id, actor: Id)
    ensures SalesRoutes.AssignedTo(invoices, id, actor) ==>
      Communications(invoices, id) == SalesRoutes.Communications(invoices, id, actor)
    ensures SalesRoutes.Communications(invoices, id, actor).Ok? ==> Communications(invoices, id).Ok?
    ensures id in invoices && !SalesRoutes.AssignedTo(invoices, id, actor) ==>
      Communications(invoices, id).Ok? && SalesRoutes.Communications(invoices, id, actor).Err?
  {
  }
}
