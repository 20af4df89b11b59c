/**
 * The sales representative's routes. Every route but one is scoped to the invoices whose
 * `salesPerson` is the acting user: reading one, listing them, listing their clients, reading
 * the communications, and changing the status. Adding a communication looks the invoice up by
 * id alone.
 */
module SalesRoutes {
  import opened Wrappers
  import opened Text
  import opened Database
  import opened Responses

  const InvalidStatus := "Invalid status"
  const InvoiceNotFound := "Invoice not found"
  const MessageRequired := "Message is required"

  /** The invoice exists and is assigned to the acting sales representative. */
  predicate AssignedTo(invoices: map<Id, Invoice>, id: Id, actor: Id) {
    id in invoices && invoices[id].salesPerson == actor
  }

  /** `GET /my-invoices`: the invoices assigned to the actor, in natural (id) order. */
  function MyInvoices(invoices: map<Id, Invoice>, actor: Id): (r: map<Id, Invoice>)
    ensures forall id :: id in r <==> AssignedTo(invoices, id, actor)
    ensures forall id :: id in r ==> id in invoices && r[id] == invoices[id]
  {
    map id | id in invoices && invoices[id].salesPerson == actor :: invoices[id]
  }

  /**
   * `GET /my-clients`: the distinct clients of the actor's invoices, as stored users without
   * their password digests. A client reference that resolves to no user yields nothing.
   */
  function MyClients(invoices: map<Id, Invoice>, users: map<Id, User>, actor: Id): (r: map<Id, Profile>)
    ensures forall c :: c in r <==> c in users && exists id :: AssignedTo(invoices, id, actor) && invoices[id].client == c
    ensures forall c :: c in r ==> r[c] == ProfileOf(c, users[c])
  {
    var clients := set id | id in invoices && invoices[id].salesPerson == actor :: invoices[id].client;
    map c | c in users && c in clients :: ProfileOf(c, users[c])
  }

  /** `GET /invoice/:id`: the invoice if it is assigned to the actor, otherwise not found. */
  function InvoiceDetail(invoices: map<Id, Invoice>, id: Id, actor: Id): (r: Reply<Invoice>)
    ensures r.Ok? <==> AssignedTo(invoices, id, actor)
    ensures r.Ok? ==> r.value == invoices[id]
    ensures r.Err? ==> r.error == NotFound(InvoiceNotFound)
  {
    if AssignedTo(invoices, id, actor) then Ok(invoices[id]) else Err(NotFound(InvoiceNotFound))
  }

  /** `GET /invoice/:id/communications`: the invoice's communications in append order, with the same scope as the detail. */
  function Communications(invoices: map<Id, Invoice>, id: Id, actor: Id): (r: Reply<seq<Communication>>)
    ensures r.Ok? <==> AssignedTo(invoices, id, actor)
    ensures r.Ok? ==> r.value == invoices[id].communications
    ensures r.Err? ==> r.error == NotFound(InvoiceNotFound)
  {
    if AssignedTo(invoices, id, actor) then Ok(invoices[id].communications) else Err(NotFound(InvoiceNotFound))
  }

  /**
   * `PUT /invoice/:id/status`: a status outside the enumeration is refused first; then an
   * invoice not assigned to the actor is not found; otherwise the status is set and one
   * history entry recording it and the actor is appended.
   */
  function UpdateStatus(invoices: map<Id, Invoice>, id: Id, status: Option<string>, actor: Id): (r: Step<map<Id, Invoice>, Invoice>)
    ensures r.reply.Err? ==> r.store == invoices
    ensures ParseStatus(status).None? ==> r.reply == Err(BadRequest(InvalidStatus))
    ensures ParseStatus(status).Some? && !AssignedTo(invoices, id, actor) ==> r.reply == Err(NotFound(InvoiceNotFound))
    ensures r.reply.Ok? <==> ParseStatus(status).Some? && AssignedTo(invoices, id, actor)
    ensures r.reply.Ok? ==>
      && StatusName(r.reply.value.status) == status.value
      && r.reply.value.statusHistory == invoices[id].statusHistory + [HistoryEntry(r.reply.value.status, actor)]
      && r.reply.value == invoices[id].(status := r.reply.value.status, statusHistory := r.reply.value.statusHistory)
      && r.store == invoices[id := r.reply.value]
  {
    match ParseStatus(status)
    case None => Step(invoices, Err(BadRequest(InvalidStatus)))
    case Some(s) =>
      if !AssignedTo(invoices, id, actor) then Step(invoices, Err(NotFound(InvoiceNotFound)))
      else
        var inv := invoices[id];
        var updated := inv.(status := s, statusHistory := inv.statusHistory + [HistoryEntry(s, actor)]);
        Step(invoices[id := updated], Ok(updated))
  }

  /** The status update keeps every invoice's status equal to its last history entry's, and the store well formed. */
  lemma UpdateStatusPreservesWellFormed(invoices: map<Id, Invoice>, id: Id, status: Option<string>, actor: Id)
    requires InvoicesWellFormed(invoices)
    ensures InvoicesWellFormed(UpdateStatus(invoices, id, status, actor).store)
  {
    var r := UpdateStatus(invoices, id, status, actor);
    if r.reply.Ok? {
      var inv := r.reply.value;
      assert inv.statusHistory[|inv.statusHistory| - 1] == HistoryEntry(inv.status, actor);
      ReplaceKeepsWellFormed(invoices, inv);
    }
  }

  /**
   * There is no transition graph: an assigned invoice can be moved to any status, out of
   * paid or cancelled included, and the history records each move in order.
   */
  lemma AnyTransition(invoices: map<Id, Invoice>, id: Id, actor: Id, s: Status, t: Status)
    requires AssignedTo(invoices, id, actor)
    ensures var first := UpdateStatus(invoices, id, Some(StatusName(s)), actor);
      var second := UpdateStatus(first.store, id, Some(StatusName(t)), actor);
      && first.reply.Ok? && second.reply.Ok?
      && second.reply.value.status == t
      && second.reply.value.statusHistory
         == invoices[id].statusHistory + [HistoryEntry(s, actor), HistoryEntry(t, actor)]
  {
    var first := UpdateStatus(invoices, id, Some(StatusName(s)), actor);
    assert first.reply.value.status == s;
    assert AssignedTo(first.store, id, actor);
    var second := UpdateStatus(first.store, id, Some(StatusName(t)), actor);
    assert second.reply.value.status == t;
  }

  /**
   * `POST /invoice/:id/communication`: an absent or empty message is refused; a missing
   * invoice is not found; otherwise one communication from the actor, of the default type,
   * is appended. The reply is the sender and the message.
   */
  function AddCommunication(invoices: map<Id, Invoice>, id: Id, message: Option<string>, actor: Id): (r: Step<map<Id, Invoice>, (Id, string)>)
    ensures r.reply.Err? ==> r.store == invoices
    ensures !Truthy(message) ==> r.reply == Err(BadRequest(MessageRequired))
    ensures Truthy(message) && id !in invoices ==> r.reply == Err(NotFound(InvoiceNotFound))
    ensures r.reply.Ok? <==> Truthy(message) && id in invoices
    ensures r.reply.Ok? ==>
      && r.reply.value == (actor, message.value)
      && id in r.store && r.store.Keys == invoices.Keys
      && r.store[id].communications == invoices[id].communications + [Communication(actor, message.value, Other)]
      && r.store[id] == invoices[id].(communications := r.store[id].communications)
      && forall k :: k in invoices && k != id ==> r.store[k] == invoices[k]
  {
    if !Truthy(message) then Step(invoices, Err(BadRequest(MessageRequired)))
    else if id !in invoices then Step(invoices, Err(NotFound(InvoiceNotFound)))
    else
      var inv := invoices[id];
      var c := Communication(actor, message.value, CastCommType(None).value);
      Step(invoices[id := inv.(communications := inv.communications + [c])], Ok((actor, message.value)))
  }

  /** Adding a communication leaves every status and history alone, so the store stays well formed. */
  lemma AddCommunicationPreservesWellFormed(invoices: map<Id, Invoice>, id: Id, message: Option<string>, actor: Id)
    requires InvoicesWellFormed(invoices)
    ensures InvoicesWellFormed(AddCommunication(invoices, id, message, actor).store)
  {
    var r := AddCommunication(invoices, id, message, actor);
    if r.reply.Ok? {
      ReplaceKeepsWellFormed(invoices, r.store[id]);
    }
  }

  /**
   * Adding a communication is not scoped: a sales representative can write to an invoice
   * assigned to someone else, whose status the same user cannot change.
   */
  lemma CommunicationUnscoped(invoices: map<Id, Invoice>, id: Id, message: string, status: Status, actor: Id)
    requires id in invoices && invoices[id].salesPerson != actor && message != ""
    ensures AddCommunication(invoices, id, Some(message), actor).reply.Ok?
    ensures UpdateStatus(invoices, id, Some(StatusName(status)), actor).reply == Err(NotFound(InvoiceNotFound))
  {
  }

  /** Communications come back in the order they were added. */
  lemma CommunicationsInOrder(invoices: map<Id, Invoice>, id: Id, actor: Id, first: string, second: string)
    requires AssignedTo(invoices, id, actor) && first != "" && second != ""
    ensures var s1 := AddCommunication(invoices, id, Some(first), actor).store;
      var s2 := AddCommunication(s1, id, Some(second), actor).store;
      Communications(s2, id, actor)
      == Ok(invoices[id].communications + [Communication(actor, first, Other), Communication(actor, second, Other)])
  {
    var s1 := AddCommunication(invoices, id, Some(first), actor).store;
    var s2 := AddCommunication(s1, id, Some(second), actor).store;
    var c1 := Communication(actor, first, Other);
    var c2 := Communication(actor, second, Other);
    assert s1[id].communications == invoices[id].communications + [c1];
    assert AssignedTo(s1, id, actor);
    assert s2[id].communications == (invoices[id].communications + [c1]) + [c2];
    assert AssignedTo(s2, id, actor);
    assert (invoices[id].communications + [c1]) + [c2] == invoices[id].communications + [c1, c2];
  }

  /** The single-invoice routes see exactly what the listing shows. */
  lemma ScopesAgree(invoices: map<Id, Invoice>, id: Id, actor: Id, status: Status)
    ensures InvoiceDetail(invoices, id, actor).Ok? <==> id in MyInvoices(invoices, actor)
    ensures Communications(invoices, id, actor).Ok? <==> id in MyInvoices(invoices, actor)
    ensures UpdateStatus(invoices, id, Some(StatusName(status)), actor).reply.Ok? <==> id in MyInvoices(invoices, actor)
    ensures id in MyInvoices(invoices, actor) ==> InvoiceDetail(invoices, id, actor).value == MyInvoices(invoices, actor)[id]
  {
  }
}
