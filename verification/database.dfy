/**
 * The two document collections, users and invoices, with the enumerations, defaults and
 * uniqueness constraints their schemas declare, and the lookups the routes perform on them.
 * A collection is a map from document id to document; the collection's natural order is the
 * order of ids, so `findOne` returns the matching document with the least id.
 */
module Database {
  import opened Wrappers

  /** A document id. */
  type Id = nat

  /** A stored bcrypt digest; it is never inspected, only produced and compared by parameters. */
  type Digest = string

  datatype Role = Admin | Sales | Client

  datatype Status = Pending | Paid | Overdue | Cancelled

  datatype CommType = Email | Call | Message | Other

  function StatusName(s: Status): string {
    match s
    case Pending => "pending"
    case Paid => "paid"
    case Overdue => "overdue"
    case Cancelled => "cancelled"
  }

  function CommTypeName(c: CommType): string {
    match c
    case Email => "email"
    case Call => "call"
    case Message => "message"
    case Other => "other"
  }

  /** A request's status text read against the closed status enumeration. */
  function ParseStatus(t: Option<string>): (r: Option<Status>)
    ensures r.Some? ==> t == Some(StatusName(r.value))
    ensures forall s :: t == Some(StatusName(s)) ==> r == Some(s)
  {
    match t
    case Some("pending") => Some(Pending)
    case Some("paid") => Some(Paid)
    case Some("overdue") => Some(Overdue)
    case Some("cancelled") => Some(Cancelled)
    case _ => None
  }

  /** The type a new communication gets when a value is given or left out; None is a validation failure. */
  function CastCommType(t: Option<string>): (r: Option<CommType>)
    ensures t.None? ==> r == Some(Other)
    ensures t.Some? && r.Some? ==> t.value == CommTypeName(r.value)
    ensures forall c :: t == Some(CommTypeName(c)) ==> r == Some(c)
  {
    match t
    case None => Some(Other)
    case Some("email") => Some(Email)
    case Some("call") => Some(Call)
    case Some("message") => Some(Message)
    case Some("other") => Some(Other)
    case _ => None
  }

  datatype User = User(
    username: string,
    password: Digest,
    role: Role,
    email: string,
    firstName: Option<string>,
    lastName: Option<string>,
    phoneNumber: Option<string>)

  /** A user as the listing routes return it: everything but the password digest. */
  datatype Profile = Profile(
    id: Id,
    username: string,
    role: Role,
    email: string,
    firstName: Option<string>,
    lastName: Option<string>,
    phoneNumber: Option<string>)

  function ProfileOf(id: Id, u: User): Profile {
    Profile(id, u.username, u.role, u.email, u.firstName, u.lastName, u.phoneNumber)
  }

  datatype Item = Item(description: Option<string>, quantity: Option<int>, price: Option<int>)

  /** One status assignment; the timestamp is not modelled. */
  datatype HistoryEntry = HistoryEntry(status: Status, changedBy: Id)

  /** One message about an invoice; the timestamp is not modelled. */
  datatype Communication = Communication(sender: Id, message: string, kind: CommType)

  /**
   * One reminder delivery attempt. `kind` is the reminder's name; `success` is absent when the
   * sender had no recipient and so returned nothing. The send time is not modelled.
   */
  datatype Notification = Notification(kind: string, recipient: Option<string>, success: Option<bool>)

  /**
   * How a schema object declares one of its keys: by a bare type (`message: String`) or by an
   * options object that itself holds a `type` key (`type: { type: String, enum: ... }`).
   */
  datatype FieldDecl = Bare(typeName: string) | WithOptions(typeName: string)

  /**
   * The object written as an array's element in a schema. When it has a `type` key whose value
   * is a bare type, Mongoose reads the whole object as the declaration of that scalar type (its
   * other keys become ignored options), so the array holds scalars and not sub-documents.
   */
  predicate DeclaresScalar(element: map<string, FieldDecl>) {
    "type" in element && element["type"].Bare?
  }

  /** The `emailNotifications` element as the invoice schema declares it: `type` is given as a bare `String`. */
  const NotificationElement: map<string, FieldDecl> :=
    map["type" := Bare("String"), "recipient" := Bare("String"), "success" := Bare("Boolean"), "sentAt" := WithOptions("Date")]

  /** The `emailNotifications` element with `type` declared through an options object, as `communications` does. */
  const NotificationElementIntended: map<string, FieldDecl> :=
    map["type" := WithOptions("String"), "recipient" := Bare("String"), "success" := Bare("Boolean"), "sentAt" := WithOptions("Date")]

  /** The `communications` element as the invoice schema declares it. */
  const CommunicationElement: map<string, FieldDecl> :=
    map["sender" := WithOptions("ObjectId"), "message" := Bare("String"), "type" := WithOptions("String"), "timestamp" := WithOptions("Date")]

  /** The two log arrays are declared differently: communications hold sub-documents, notifications hold strings. */
  lemma ElementDeclarations()
    ensures DeclaresScalar(NotificationElement)
    ensures !DeclaresScalar(CommunicationElement)
    ensures !DeclaresScalar(NotificationElementIntended)
  {
  }

  /**
   * An invoice document; the due date is a day number and the amount a whole number. The schema
   * declares no top-level description, so a description given on creation is not stored.
   */
  datatype Invoice = Invoice(
    id: Id,
    clientName: string,
    amount: int,
    dueDay: int,
    status: Status,
    client: Id,
    salesPerson: Id,
    items: seq<Item>,
    invoiceNumber: Option<string>,
    filePath: Option<string>,
    statusHistory: seq<HistoryEntry>,
    communications: seq<Communication>,
    emailNotifications: seq<Notification>)

  /** The invoice's status is the one its last history entry records. */
  predicate HistoryConsistent(inv: Invoice) {
    |inv.statusHistory| > 0 && inv.status == inv.statusHistory[|inv.statusHistory| - 1].status
  }

  /** The unique indexes on users: no two users share an email or a username. */
  ghost predicate UsersWellFormed(users: map<Id, User>) {
    forall a, b :: a in users && b in users && a != b ==>
      users[a].email != users[b].email && users[a].username != users[b].username
  }

  /** The sparse unique index on invoice numbers: only invoices that carry one must differ. */
  ghost predicate InvoiceNumbersUnique(invoices: map<Id, Invoice>) {
    forall a, b :: a in invoices && b in invoices && a != b && invoices[a].invoiceNumber.Some? ==>
      invoices[a].invoiceNumber != invoices[b].invoiceNumber
  }

  /** Every invoice sits under its own id, keeps its history consistent, and numbers are unique. */
  ghost predicate InvoicesWellFormed(invoices: map<Id, Invoice>) {
    && (forall k :: k in invoices ==> invoices[k].id == k && HistoryConsistent(invoices[k]))
    && InvoiceNumbersUnique(invoices)
  }

  /** Storing a fresh invoice with a free number, a consistent history and its own id keeps the store well formed. */
  lemma InsertKeepsWellFormed(invoices: map<Id, Invoice>, inv: Invoice)
    requires InvoicesWellFormed(invoices)
    requires inv.id !in invoices && HistoryConsistent(inv)
    requires !InvoiceNumberTaken(invoices, inv.invoiceNumber)
    ensures InvoicesWellFormed(invoices[inv.id := inv])
  {
    var s := invoices[inv.id := inv];
    forall a, b | a in s && b in s && a != b && s[a].invoiceNumber.Some?
      ensures s[a].invoiceNumber != s[b].invoiceNumber
    {
      if a == inv.id {
        assert b in invoices;
      } else if b == inv.id {
        assert a in invoices && invoices[a].invoiceNumber == s[a].invoiceNumber;
      }
    }
  }

  /** Rewriting an invoice in place, number unchanged and history consistent, keeps the store well formed. */
  lemma ReplaceKeepsWellFormed(invoices: map<Id, Invoice>, inv: Invoice)
    requires InvoicesWellFormed(invoices)
    requires inv.id in invoices && HistoryConsistent(inv)
    requires inv.invoiceNumber == invoices[inv.id].invoiceNumber
    ensures InvoicesWellFormed(invoices[inv.id := inv])
  {
    var s := invoices[inv.id := inv];
    assert forall k :: k in s ==> s[k].invoiceNumber == invoices[k].invoiceNumber;
  }

  predicate EmailTaken(users: map<Id, User>, email: string) {
    exists u :: u in users && users[u].email == email
  }

  predicate UsernameTaken(users: map<Id, User>, username: string) {
    exists u :: u in users && users[u].username == username
  }

  /** Saving an invoice with this number would break the sparse unique index. */
  predicate InvoiceNumberTaken(invoices: map<Id, Invoice>, n: Option<string>) {
    n.Some? && exists k :: k in invoices && invoices[k].invoiceNumber == n
  }

  /** Every nonempty set of ids has a least element. */
  lemma {:induction false} HasLeast(s: set<Id>)
    requires s != {}
    ensures exists m :: m in s && forall x :: x in s ==> m <= x
    decreases s
  {
    var y :| y in s;
    if s != {y} {
      HasLeast(s - {y});
      var m :| m in s - {y} && forall x :: x in s - {y} ==> m <= x;
      var least := if y < m then y else m;
      forall x | x in s
        ensures least <= x
      {
        if x != y {
          assert x in s - {y};
        }
      }
      assert least in s;
    } else {
      assert forall x :: x in s ==> y <= x;
    }
  }

  function Least(s: set<Id>): (m: Id)
    requires s != {}
    ensures m in s && forall x :: x in s ==> m <= x
  {
    HasLeast(s);
    var m :| m in s && forall x :: x in s ==> m <= x;
    m
  }

  /** `User.findOne({ email })`: the first user, in natural order, with that email. */
  function FindByEmail(users: map<Id, User>, email: string): (r: Option<Id>)
    ensures r.Some? <==> EmailTaken(users, email)
    ensures r.Some? ==> r.value in users && users[r.value].email == email
    ensures r.Some? ==> forall u :: u in users && users[u].email == email ==> r.value <= u
  {
    var owners := set u | u in users && users[u].email == email;
    if EmailTaken(users, email) then
      assert owners != {} by {
        var u :| u in users && users[u].email == email;
        assert u in owners;
      }
      assert forall u :: u in users && users[u].email == email ==> u in owners;
      Some(Least(owners))
    else
      None
  }

  /** Under the unique index, `findOne({ email })` finds the one user holding that email. */
  lemma FindByEmailUnique(users: map<Id, User>, email: string, u: Id)
    requires UsersWellFormed(users)
    requires u in users && users[u].email == email
    ensures FindByEmail(users, email) == Some(u)
  {
  }

  /**
   * `User.findOne({ email })` when the request may leave `email` undefined: a key whose value
   * is undefined is dropped from the filter, so the query then matches every user and returns
   * the first one.
   */
  function FindOneByEmail(users: map<Id, User>, email: Option<string>): (r: Option<Id>)
    ensures email.Some? ==> r == FindByEmail(users, email.value)
    ensures email.None? ==> (r.Some? <==> users != map[])
    ensures email.None? && r.Some? ==> r.value in users && forall u :: u in users ==> r.value <= u
  {
    match email
    case Some(e) => FindByEmail(users, e)
    case None =>
      if users == map[] then None
      else
        assert users.Keys != {} by {
          var u :| u in users;
          assert u in users.Keys;
        }
        Some(Least(users.Keys))
  }

  /** `User.findById(id)` followed by a role test: the user exists and has that role. */
  predicate HasRole(users: map<Id, User>, id: Id, role: Role) {
    id in users && users[id].role == role
  }
}
