/**
 * The client's routes: listing the client's own invoices, listing the sales representatives
 * to choose from, and creating an invoice, optionally with an attachment that has already
 * passed the upload filter.
 */
module ClientRoutes {
  import opened Wrappers
  import opened Text
  import opened Database
  import opened Responses
  import opened FileUpload
  import EmailReminder

  const FieldsRequired := "Amount, due date, and sales representative are required"
  const SalesNotFound := "Sales representative not found"

  /** The message of the TypeError raised when the acting client's document is missing. */
  const MissingClientError := "Cannot read properties of null (reading 'firstName')"

  /** The message of a save refused by a unique index. */
  const DuplicateKeyError := "E11000 duplicate key error"

  /** Where stored attachments are served from. */
  const UploadsPrefix := "/uploads/invoices/"

  /** `GET /client/my-invoices`: the invoices whose client is the actor, in natural (id) order. */
  function MyInvoices(invoices: map<Id, Invoice>, actor: Id): (r: map<Id, Invoice>)
    ensures forall id :: id in r <==> id in invoices && invoices[id].client == actor
    ensures forall id :: id in r ==> id in invoices && r[id] == invoices[id]
  {
    map id | id in invoices && invoices[id].client == actor :: invoices[id]
  }

  /** One sales representative as the selection list shows it. */
  datatype SalesContact = SalesContact(id: Id, username: string, email: string)

  /** `GET /client/available-sales`: every user with role sales, by id. */
  function AvailableSales(users: map<Id, User>): (r: map<Id, SalesContact>)
    ensures forall id :: id in r <==> HasRole(users, id, Sales)
    ensures forall id :: id in r ==> id in users && r[id] == SalesContact(id, users[id].username, users[id].email)
  {
    map id | id in users && users[id].role == Sales :: SalesContact(id, users[id].username, users[id].email)
  }

  /**
   * The body of `POST /client/create`. The due date is a day number; an absent `items` is the
   * empty list. The description is read but the schema has no path for it, so it is not stored.
   */
  datatype CreateRequest = CreateRequest(
    amount: Option<int>,
    dueDay: Option<int>,
    salesPersonId: Option<Id>,
    description: Option<string>,
    items: seq<Item>,
    invoiceNumber: Option<string>)

  /** The stored file's path: the random prefix chosen at storage time followed by the original extension. */
  function StoredPath(attachment: Option<UploadedFile>, storedPrefix: string): (r: Option<string>)
    ensures r.None? <==> attachment.None?
    ensures r.Some? ==> r.value == UploadsPrefix + storedPrefix + ExtName(attachment.value.originalName)
  {
    match attachment
    case None => None
    case Some(f) => Some(UploadsPrefix + storedPrefix + ExtName(f.originalName))
  }

  /** The invoice a successful creation stores. */
  function NewInvoice(newId: Id, client: User, actor: Id, salesPerson: Id, amount: int, dueDay: int, req: CreateRequest, filePath: Option<string>): Invoice {
    Invoice(
      newId, Show(client.firstName) + " " + Show(client.lastName), amount, dueDay, Pending, actor, salesPerson,
      req.items, req.invoiceNumber, filePath,
      [HistoryEntry(Pending, actor)], [], [])
  }

  /** The attachment, if any, passed the upload filter and the size limit. */
  predicate UploadAccepted(attachment: Option<UploadedFile>) {
    attachment.Some? ==> UploadError(attachment.value).None?
  }

  /** The required fields are present and truthy. */
  predicate FieldsPresent(req: CreateRequest) {
    TruthyNumber(req.amount) && req.dueDay.Some? && req.salesPersonId.Some?
  }

  /**
   * `POST /client/create`: the attachment is filtered before the handler runs; then amount,
   * due date and sales representative must be given (an amount of 0 counts as missing); the
   * sales representative must be a user with role sales; the acting client's document must
   * exist; the invoice number must not be taken. The new invoice is pending, belongs to the
   * actor, is named after the actor, and has one history entry recording the actor.
   * `newId` is the fresh document id and `storedPrefix` the random file-name prefix.
   */
  function CreateInvoice(
    invoices: map<Id, Invoice>, users: map<Id, User>, actor: Id, req: CreateRequest,
    attachment: Option<UploadedFile>, storedPrefix: string, newId: Id): (r: Step<map<Id, Invoice>, Invoice>)
    requires newId !in invoices
    ensures r.reply.Err? ==> r.store == invoices
    ensures !UploadAccepted(attachment) ==> r.reply == Err(ErrorPage(UploadError(attachment.value).value))
    ensures UploadAccepted(attachment) && !FieldsPresent(req) ==> r.reply == Err(BadRequest(FieldsRequired))
    ensures UploadAccepted(attachment) && FieldsPresent(req) && !HasRole(users, req.salesPersonId.value, Sales) ==>
      r.reply == Err(NotFound(SalesNotFound))
    ensures UploadAccepted(attachment) && FieldsPresent(req) && HasRole(users, req.salesPersonId.value, Sales) && actor !in users ==>
      r.reply == Err(ServerError(MissingClientError))
    ensures UploadAccepted(attachment) && FieldsPresent(req) && HasRole(users, req.salesPersonId.value, Sales) && actor in users
            && InvoiceNumberTaken(invoices, req.invoiceNumber) ==>
      r.reply == Err(ServerError(DuplicateKeyError))
    ensures r.reply.Ok? <==>
      && UploadAccepted(attachment) && FieldsPresent(req)
      && HasRole(users, req.salesPersonId.value, Sales)
      && actor in users
      && !InvoiceNumberTaken(invoices, req.invoiceNumber)
    ensures r.reply.Ok? ==>
      var inv := r.reply.value;
      && r.store == invoices[newId := inv]
      && inv.id == newId && inv.client == actor && inv.salesPerson == req.salesPersonId.value
      && inv.amount == req.amount.value && inv.dueDay == req.dueDay.value
      && inv.status == Pending && inv.statusHistory == [HistoryEntry(Pending, actor)]
      && inv.clientName == Show(users[actor].firstName) + " " + Show(users[actor].lastName)
      && inv.items == req.items && inv.invoiceNumber == req.invoiceNumber
      && inv.filePath == StoredPath(attachment, storedPrefix)
      && inv.communications == [] && inv.emailNotifications == []
  {
    if !UploadAccepted(attachment) then
      Step(invoices, Err(ErrorPage(UploadError(attachment.value).value)))
    else if !FieldsPresent(req) then
      Step(invoices, Err(BadRequest(FieldsRequired)))
    else if !HasRole(users, req.salesPersonId.value, Sales) then
      Step(invoices, Err(NotFound(SalesNotFound)))
    else if actor !in users then
      Step(invoices, Err(ServerError(MissingClientError)))
    else if InvoiceNumberTaken(invoices, req.invoiceNumber) then
      Step(invoices, Err(ServerError(DuplicateKeyError)))
    else
      var inv := NewInvoice(newId, users[actor], actor, req.salesPersonId.value, req.amount.value, req.dueDay.value,
                            req, StoredPath(attachment, storedPrefix));
      Step(invoices[newId := inv], Ok(inv))
  }

  /** A missing field is reported before the sales representative is looked up. */
  lemma ValidationFirst(
    invoices: map<Id, Invoice>, users: map<Id, User>, actor: Id, req: CreateRequest, storedPrefix: string, newId: Id)
    requires newId !in invoices
    requires !FieldsPresent(req)
    ensures CreateInvoice(invoices, users, actor, req, None, storedPrefix, newId) == Step(invoices, Err(BadRequest(FieldsRequired)))
  {
  }

  /** Creation keeps the invoice store well formed. */
  lemma CreatePreservesWellFormed(
    invoices: map<Id, Invoice>, users: map<Id, User>, actor: Id, req: CreateRequest,
    attachment: Option<UploadedFile>, storedPrefix: string, newId: Id)
    requires newId !in invoices
    requires InvoicesWellFormed(invoices)
    ensures InvoicesWellFormed(CreateInvoice(invoices, users, actor, req, attachment, storedPrefix, newId).store)
  {
    var r := CreateInvoice(invoices, users, actor, req, attachment, storedPrefix, newId);
    if r.reply.Ok? {
      InsertKeepsWellFormed(invoices, r.reply.value);
    }
  }

  /** A created invoice shows up in the client's listing and in its sales representative's. */
  lemma CreatedInvoiceVisible(
    invoices: map<Id, Invoice>, users: map<Id, User>, actor: Id, req: CreateRequest,
    attachment: Option<UploadedFile>, storedPrefix: string, newId: Id)
    requires newId !in invoices
    ensures var r := CreateInvoice(invoices, users, actor, req, attachment, storedPrefix, newId);
      var s := r.store;
      r.reply.Ok? ==>
      && newId in MyInvoices(s, actor)
      && newId in MyInvoices(s, actor) - MyInvoices(invoices, actor).Keys
      && HasRole(users, s[newId].salesPerson, Sales)
      && s[newId].salesPerson == req.salesPersonId.value
  {
  }

  /**
   * A freshly created invoice due in fourteen days gets, from that day's reminder run, exactly
   * the client reminder addressed to the acting client, and the reminders name the client as
   * the invoice does.
   */
  lemma CreatedInvoiceReminded(
    invoices: map<Id, Invoice>, users: map<Id, User>, actor: Id, req: CreateRequest,
    attachment: Option<UploadedFile>, storedPrefix: string, newId: Id, today: int, adminEmail: Option<string>)
    requires newId !in invoices
    ensures var r := CreateInvoice(invoices, users, actor, req, attachment, storedPrefix, newId);
      r.reply.Ok? && req.dueDay == Some(today + 14) ==>
      && EmailReminder.Plan(r.reply.value, users, today, adminEmail)
         == [EmailReminder.Reminder(newId, EmailReminder.Client14Days, Some(users[actor].email))]
      && EmailReminder.DisplayName(r.reply.value, users) == r.reply.value.clientName
  {
    var r := CreateInvoice(invoices, users, actor, req, attachment, storedPrefix, newId);
    if r.reply.Ok? && req.dueDay == Some(today + 14) {
      var inv := r.reply.value;
      assert EmailReminder.Considered(inv);
      assert inv.dueDay - today == 14;
      assert EmailReminder.ClientEmail(inv, users) == Some(users[actor].email);
    }
  }

  /** An attachment's stored path keeps the original extension. */
  lemma AttachmentKeepsExtension(stem: string, ext: string, mimetype: string, size: nat, storedPrefix: string)
    requires stem != [] && '/' !in stem && stem != "."
    requires '.' !in ext && '/' !in ext
    ensures StoredPath(Some(UploadedFile(stem + "." + ext, mimetype, size)), storedPrefix)
         == Some(UploadsPrefix + storedPrefix + ("." + ext))
  {
    ExtNameOfFileName(stem, ext);
  }
}
