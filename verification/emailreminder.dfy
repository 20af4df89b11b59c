/**
 * The reminder job. One run walks the invoices that are neither paid nor cancelled and, for
 * each, compares its due day with today: 14 days ahead the client is reminded, 7 days ahead
 * the client and the sales representative, 1 day ahead the configured admin mailbox. Every
 * send attempt, successful or not, is pushed onto the invoice's notification log, and the
 * run counts the successful ones. Whether a push is stored depends on how the schema declares
 * the log's element, so the run takes that declaration as a parameter: as the schema is
 * written no push is stored. Nothing records which reminders were already sent, so a run is
 * a function of the invoices and today alone.
 */
module EmailReminder {
  import opened Wrappers
  import opened Text
  import opened Database

  datatype ReminderKind = Client14Days | Client7Days | Sales7Days | Manager1Day

  /** The template key and log name of a reminder. */
  function KindName(k: ReminderKind): string {
    match k
    case Client14Days => "client_14_days"
    case Client7Days => "client_7_days"
    case Sales7Days => "sales_7_days"
    case Manager1Day => "manager_1_day"
  }

  /** The reminder a template key names, if any. */
  function KindNamed(name: string): (r: Option<ReminderKind>)
    ensures r.Some? ==> KindName(r.value) == name
    ensures forall k :: KindName(k) == name ==> r == Some(k)
  {
    match name
    case "client_14_days" => Some(Client14Days)
    case "client_7_days" => Some(Client7Days)
    case "sales_7_days" => Some(Sales7Days)
    case "manager_1_day" => Some(Manager1Day)
    case _ => None
  }

  /** How many days before the due day a reminder goes out. */
  function LeadDays(k: ReminderKind): nat {
    match k
    case Client14Days => 14
    case Client7Days => 7
    case Sales7Days => 7
    case Manager1Day => 1
  }

  /** What the templates are filled from. */
  datatype EmailData = EmailData(
    invoiceId: Id,
    clientName: string,
    clientEmail: Option<string>,
    salesEmail: Option<string>,
    amount: int,
    dueDay: int)

  function Heading(k: ReminderKind): string {
    match k
    case Client14Days => "Invoice Reminder"
    case Client7Days => "Invoice Due Soon"
    case Sales7Days => "Client Invoice Alert"
    case Manager1Day => "URGENT: Invoice Due Tomorrow"
  }

  /**
   * `getEmailTemplate`: a body for each known template key and the empty string for any other
   * key. Only the heading and the addressee of a body are modelled.
   */
  function GetEmailTemplate(kind: string, data: EmailData): (html: string)
    ensures html == "" <==> KindNamed(kind).None?
  {
    match KindNamed(kind)
    case None => ""
    case Some(k) => Heading(k) + ": " + data.clientName
  }

  /** One call of the mail transport. */
  datatype Delivery = Delivery(invoiceId: Id, kind: ReminderKind, to: string)

  /**
   * `sendEmail`: without a recipient (absent or empty) the transport is not called and the
   * result is `undefined`; otherwise the transport's verdict, with its errors already turned
   * into `false`.
   */
  function SendEmail(to: Option<string>, invoiceId: Id, kind: ReminderKind, transport: Delivery -> bool): (r: Option<bool>)
    ensures r.None? <==> !Truthy(to)
    ensures r.Some? ==> r.value == transport(Delivery(invoiceId, kind, to.value))
  {
    if Truthy(to) then Some(transport(Delivery(invoiceId, kind, to.value))) else None
  }

  /** `logEmailNotification`: one entry appended to the log, whatever the outcome; nothing else changes. */
  function LogEmailNotification(inv: Invoice, kind: ReminderKind, recipient: Option<string>, success: Option<bool>): (r: Invoice)
    ensures |r.emailNotifications| == |inv.emailNotifications| + 1
    ensures r.emailNotifications[..|inv.emailNotifications|] == inv.emailNotifications
    ensures r.emailNotifications[|inv.emailNotifications|] == Notification(KindName(kind), recipient, success)
    ensures r == inv.(emailNotifications := r.emailNotifications)
  {
    inv.(emailNotifications := inv.emailNotifications + [Notification(KindName(kind), recipient, success)])
  }

  /**
   * `logEmailNotification` against an array whose element is declared by `element`. Pushing an
   * object into an array of scalars fails the cast; the error is caught and only logged, so the
   * invoice is left as it was. Otherwise the entry is appended.
   */
  function LogWith(
    element: map<string, FieldDecl>, inv: Invoice, kind: ReminderKind, recipient: Option<string>, success: Option<bool>): (r: Invoice)
    ensures r == inv.(emailNotifications := r.emailNotifications)
    ensures r.emailNotifications == inv.emailNotifications <==> DeclaresScalar(element)
  {
    if DeclaresScalar(element) then inv else LogEmailNotification(inv, kind, recipient, success)
  }

  /** `logEmailNotification` against the schema as declared. */
  function LogEmailNotificationAsWritten(inv: Invoice, kind: ReminderKind, recipient: Option<string>, success: Option<bool>): (r: Invoice)
    ensures r.emailNotifications == inv.emailNotifications <==> DeclaresScalar(NotificationElement)
  {
    LogWith(NotificationElement, inv, kind, recipient, success)
  }

  /** With the schema as declared no notification is ever stored: every push leaves the invoice unchanged. */
  lemma NotificationNeverStored(inv: Invoice, kind: ReminderKind, recipient: Option<string>, success: Option<bool>)
    ensures LogEmailNotificationAsWritten(inv, kind, recipient, success) == inv
  {
    ElementDeclarations();
  }

  /** With `type` declared through an options object, the push appends exactly the entry the job builds. */
  lemma IntendedDeclarationStores(inv: Invoice, kind: ReminderKind, recipient: Option<string>, success: Option<bool>)
    ensures LogWith(NotificationElementIntended, inv, kind, recipient, success) == LogEmailNotification(inv, kind, recipient, success)
    ensures |LogWith(NotificationElementIntended, inv, kind, recipient, success).emailNotifications| == |inv.emailNotifications| + 1
  {
    ElementDeclarations();
  }

  /** The job's query keeps every invoice whose status is not paid or cancelled. */
  predicate Considered(inv: Invoice) {
    inv.status != Paid && inv.status != Cancelled
  }

  /** The threshold table: the reminders a whole-day distance to the due day triggers, in sending order. */
  function KindsFor(daysUntilDue: int): seq<ReminderKind> {
    if daysUntilDue == 14 then [Client14Days]
    else if daysUntilDue == 7 then [Client7Days, Sales7Days]
    else if daysUntilDue == 1 then [Manager1Day]
    else []
  }

  /** The client's email when the client reference resolves. */
  function ClientEmail(inv: Invoice, users: map<Id, User>): Option<string> {
    if inv.client in users then Some(users[inv.client].email) else None
  }

  /** The sales representative's email when the reference resolves. */
  function SalesEmail(inv: Invoice, users: map<Id, User>): Option<string> {
    if inv.salesPerson in users then Some(users[inv.salesPerson].email) else None
  }

  /** The client's display name: "first last" of the resolved client, else the stored name. */
  function DisplayName(inv: Invoice, users: map<Id, User>): string {
    if inv.client in users then
      Show(users[inv.client].firstName) + " " + Show(users[inv.client].lastName)
    else inv.clientName
  }

  function EmailDataFor(inv: Invoice, users: map<Id, User>): EmailData {
    EmailData(inv.id, DisplayName(inv, users), ClientEmail(inv, users), SalesEmail(inv, users), inv.amount, inv.dueDay)
  }

  function RecipientOf(k: ReminderKind, data: EmailData, adminEmail: Option<string>): Option<string> {
    match k
    case Client14Days => data.clientEmail
    case Client7Days => data.clientEmail
    case Sales7Days => data.salesEmail
    case Manager1Day => adminEmail
  }

  /** A reminder the run has decided to send: for which invoice, which kind, to whom. */
  datatype Reminder = Reminder(invoiceId: Id, kind: ReminderKind, recipient: Option<string>)

  function RemindersFor(id: Id, kinds: seq<ReminderKind>, data: EmailData, adminEmail: Option<string>): (p: seq<Reminder>)
    ensures |p| == |kinds|
    ensures forall i :: 0 <= i < |p| ==> p[i] == Reminder(id, kinds[i], RecipientOf(kinds[i], data, adminEmail))
  {
    if kinds == [] then []
    else [Reminder(id, kinds[0], RecipientOf(kinds[0], data, adminEmail))] + RemindersFor(id, kinds[1..], data, adminEmail)
  }

  /** What one run decides for one invoice, before anything is sent. */
  function Plan(inv: Invoice, users: map<Id, User>, today: int, adminEmail: Option<string>): (p: seq<Reminder>)
    ensures !Considered(inv) ==> p == []
    ensures inv.dueDay - today !in {14, 7, 1} ==> p == []
    ensures Considered(inv) && inv.dueDay - today == 14 ==>
      p == [Reminder(inv.id, Client14Days, ClientEmail(inv, users))]
    ensures Considered(inv) && inv.dueDay - today == 7 ==>
      p == [Reminder(inv.id, Client7Days, ClientEmail(inv, users)), Reminder(inv.id, Sales7Days, SalesEmail(inv, users))]
    ensures Considered(inv) && inv.dueDay - today == 1 ==>
      p == [Reminder(inv.id, Manager1Day, adminEmail)]
  {
    if Considered(inv) then
      RemindersFor(inv.id, KindsFor(inv.dueDay - today), EmailDataFor(inv, users), adminEmail)
    else []
  }

  /** The decisions for a whole list of invoices, in order. */
  function Schedule(invoices: seq<Invoice>, users: map<Id, User>, today: int, adminEmail: Option<string>): seq<Reminder> {
    if invoices == [] then []
    else Plan(invoices[0], users, today, adminEmail) + Schedule(invoices[1..], users, today, adminEmail)
  }

  /** One send attempt and its outcome. */
  datatype Attempt = Attempt(reminder: Reminder, success: Option<bool>)

  /** What a run leaves behind: the invoices after the log pushes, the attempts, the transport calls, the count. */
  datatype Run = Run(invoices: seq<Invoice>, attempts: seq<Attempt>, deliveries: seq<Delivery>, emailsSent: nat)

  function LogEntry(a: Attempt): Notification {
    Notification(KindName(a.reminder.kind), a.reminder.recipient, a.success)
  }

  function LogEntries(attempts: seq<Attempt>): (r: seq<Notification>)
    ensures |r| == |attempts|
    ensures forall i :: 0 <= i < |r| ==> r[i] == LogEntry(attempts[i])
  {
    if attempts == [] then [] else [LogEntry(attempts[0])] + LogEntries(attempts[1..])
  }

  function RemindersOf(attempts: seq<Attempt>): (r: seq<Reminder>)
    ensures |r| == |attempts|
    ensures forall i :: 0 <= i < |r| ==> r[i] == attempts[i].reminder
  {
    if attempts == [] then [] else [attempts[0].reminder] + RemindersOf(attempts[1..])
  }

  /** The attempts that `if (success)` counts. */
  function Successes(attempts: seq<Attempt>): nat {
    if attempts == [] then 0
    else (if attempts[0].success == Some(true) then 1 else 0) + Successes(attempts[1..])
  }

  /** The transport calls the attempts made: one per attempt with a recipient. */
  function Deliveries(attempts: seq<Attempt>): seq<Delivery> {
    if attempts == [] then []
    else
      var r := attempts[0].reminder;
      (if Truthy(r.recipient) then [Delivery(r.invoiceId, r.kind, r.recipient.value)] else [])
      + Deliveries(attempts[1..])
  }

  lemma {:induction false} RemindersAppend(a: seq<Attempt>, b: seq<Attempt>)
    ensures RemindersOf(a + b) == RemindersOf(a) + RemindersOf(b)
  {
    assert forall i :: 0 <= i < |a| ==> (a + b)[i] == a[i];
    assert forall i :: 0 <= i < |b| ==> (a + b)[|a| + i] == b[i];
  }

  lemma {:induction false} SuccessesAppend(a: seq<Attempt>, b: seq<Attempt>)
    ensures Successes(a + b) == Successes(a) + Successes(b)
    decreases |a|
  {
    if a == [] {
      assert a + b == b;
    } else {
      SuccessesAppend(a[1..], b);
      assert (a + b)[1..] == a[1..] + b;
    }
  }

  lemma {:induction false} DeliveriesAppend(a: seq<Attempt>, b: seq<Attempt>)
    ensures Deliveries(a + b) == Deliveries(a) + Deliveries(b)
    decreases |a|
  {
    if a == [] {
      assert a + b == b;
    } else {
      DeliveriesAppend(a[1..], b);
      assert (a + b)[0] == a[0];
      assert (a + b)[1..] == a[1..] + b;
    }
  }

  lemma ViewsAppend(a: seq<Attempt>, b: seq<Attempt>)
    ensures RemindersOf(a + b) == RemindersOf(a) + RemindersOf(b)
    ensures Successes(a + b) == Successes(a) + Successes(b)
    ensures Deliveries(a + b) == Deliveries(a) + Deliveries(b)
  {
    RemindersAppend(a, b);
    SuccessesAppend(a, b);
    DeliveriesAppend(a, b);
  }

  /** Every attempt carries the outcome `sendEmail` gives for its reminder. */
  ghost predicate Sent(attempts: seq<Attempt>, transport: Delivery -> bool) {
    forall i :: 0 <= i < |attempts| ==>
      attempts[i].success == SendEmail(attempts[i].reminder.recipient, attempts[i].reminder.invoiceId, attempts[i].reminder.kind, transport)
  }

  /**
   * Sends the reminders of one invoice in order, pushing a log entry after each attempt and
   * counting the successes. `element` is how the schema declares a log entry:
   * `NotificationElement` for the schema as written, `NotificationElementIntended` for the fix.
   */
  function Dispatch(element: map<string, FieldDecl>, inv: Invoice, todo: seq<Reminder>, transport: Delivery -> bool): (r: Run)
    ensures |r.invoices| == 1
    ensures |r.attempts| == |todo|
    decreases |todo|
  {
    if todo == [] then Run([inv], [], [], 0)
    else
      var rem := todo[0];
      var success := SendEmail(rem.recipient, rem.invoiceId, rem.kind, transport);
      var rest := Dispatch(element, LogWith(element, inv, rem.kind, rem.recipient, success), todo[1..], transport);
      Run(rest.invoices, [Attempt(rem, success)] + rest.attempts,
          (if Truthy(rem.recipient) then [Delivery(rem.invoiceId, rem.kind, rem.recipient.value)] else []) + rest.deliveries,
          (if success == Some(true) then 1 else 0) + rest.emailsSent)
  }

  /** `Dispatch` makes one attempt per reminder, in the reminders' order. */
  lemma {:induction false} DispatchReminders(element: map<string, FieldDecl>, inv: Invoice, todo: seq<Reminder>, transport: Delivery -> bool)
    ensures RemindersOf(Dispatch(element, inv, todo, transport).attempts) == todo
    decreases |todo|
  {
    if todo != [] {
      var rem := todo[0];
      var success := SendEmail(rem.recipient, rem.invoiceId, rem.kind, transport);
      var logged := LogWith(element, inv, rem.kind, rem.recipient, success);
      DispatchReminders(element, logged, todo[1..], transport);
      var r := Dispatch(element, inv, todo, transport);
      assert r.attempts[0].reminder == rem;
      assert r.attempts[1..] == Dispatch(element, logged, todo[1..], transport).attempts;
    }
  }

  /** Each attempt of `Dispatch` carries the outcome `sendEmail` gives. */
  lemma {:induction false} DispatchSent(element: map<string, FieldDecl>, inv: Invoice, todo: seq<Reminder>, transport: Delivery -> bool)
    ensures Sent(Dispatch(element, inv, todo, transport).attempts, transport)
    decreases |todo|
  {
    if todo != [] {
      var rem := todo[0];
      var success := SendEmail(rem.recipient, rem.invoiceId, rem.kind, transport);
      var logged := LogWith(element, inv, rem.kind, rem.recipient, success);
      DispatchSent(element, logged, todo[1..], transport);
      var r := Dispatch(element, inv, todo, transport);
      var rest := Dispatch(element, logged, todo[1..], transport).attempts;
      assert r.attempts == [Attempt(rem, success)] + rest;
      forall i | 0 < i < |r.attempts|
        ensures r.attempts[i] == rest[i - 1]
      {
      }
    }
  }

  /** `Dispatch` counts the successful attempts and calls the transport once per attempt with a recipient. */
  lemma {:induction false} DispatchCounts(element: map<string, FieldDecl>, inv: Invoice, todo: seq<Reminder>, transport: Delivery -> bool)
    ensures Dispatch(element, inv, todo, transport).emailsSent == Successes(Dispatch(element, inv, todo, transport).attempts)
    ensures Dispatch(element, inv, todo, transport).deliveries == Deliveries(Dispatch(element, inv, todo, transport).attempts)
    decreases |todo|
  {
    if todo != [] {
      var rem := todo[0];
      var success := SendEmail(rem.recipient, rem.invoiceId, rem.kind, transport);
      var logged := LogWith(element, inv, rem.kind, rem.recipient, success);
      DispatchCounts(element, logged, todo[1..], transport);
      var r := Dispatch(element, inv, todo, transport);
      assert r.attempts[0] == Attempt(rem, success);
      assert r.attempts[1..] == Dispatch(element, logged, todo[1..], transport).attempts;
    }
  }

  /** The entries the pushes of a run leave in a log: none when the element declares a scalar, else one per attempt. */
  function Stored(element: map<string, FieldDecl>, attempts: seq<Attempt>): seq<Notification> {
    if DeclaresScalar(element) then [] else LogEntries(attempts)
  }

  /** `Dispatch` leaves the log extended by what its pushes store. */
  lemma {:induction false} DispatchEntries(element: map<string, FieldDecl>, inv: Invoice, todo: seq<Reminder>, transport: Delivery -> bool)
    ensures Dispatch(element, inv, todo, transport).invoices[0].emailNotifications
         == inv.emailNotifications + Stored(element, Dispatch(element, inv, todo, transport).attempts)
    decreases |todo|
  {
    if todo != [] {
      var rem := todo[0];
      var success := SendEmail(rem.recipient, rem.invoiceId, rem.kind, transport);
      var logged := LogWith(element, inv, rem.kind, rem.recipient, success);
      DispatchEntries(element, logged, todo[1..], transport);
      var r := Dispatch(element, inv, todo, transport);
      var rest := Dispatch(element, logged, todo[1..], transport);
      assert r.invoices == rest.invoices;
      if DeclaresScalar(element) {
        assert logged == inv;
        assert Stored(element, r.attempts) == [] == Stored(element, rest.attempts);
      } else {
        var a := Attempt(rem, success);
        assert r.attempts == [a] + rest.attempts;
        assert Stored(element, r.attempts) == LogEntries(r.attempts);
        assert Stored(element, rest.attempts) == LogEntries(rest.attempts);
        LogEntriesCons(a, rest.attempts);
        var entries := LogEntries(rest.attempts);
        assert logged.emailNotifications == inv.emailNotifications + [LogEntry(a)];
        assert (inv.emailNotifications + [LogEntry(a)]) + entries == inv.emailNotifications + ([LogEntry(a)] + entries);
      }
    }
  }

  /** `Dispatch` changes nothing in the invoice but its log. */
  lemma {:induction false} DispatchKeeps(element: map<string, FieldDecl>, inv: Invoice, todo: seq<Reminder>, transport: Delivery -> bool)
    ensures Dispatch(element, inv, todo, transport).invoices[0]
         == inv.(emailNotifications := Dispatch(element, inv, todo, transport).invoices[0].emailNotifications)
    decreases |todo|
  {
    if todo != [] {
      var rem := todo[0];
      var success := SendEmail(rem.recipient, rem.invoiceId, rem.kind, transport);
      var logged := LogWith(element, inv, rem.kind, rem.recipient, success);
      DispatchKeeps(element, logged, todo[1..], transport);
      assert Dispatch(element, inv, todo, transport).invoices == Dispatch(element, logged, todo[1..], transport).invoices;
    }
  }

  /**
   * `Dispatch` changes nothing in the invoice but its log, which grows by one entry per attempt
   * when the element is a sub-document and stays as it was when the element declares a scalar.
   */
  lemma DispatchLog(element: map<string, FieldDecl>, inv: Invoice, todo: seq<Reminder>, transport: Delivery -> bool)
    ensures Dispatch(element, inv, todo, transport).invoices[0]
         == inv.(emailNotifications := inv.emailNotifications + Stored(element, Dispatch(element, inv, todo, transport).attempts))
    ensures DeclaresScalar(element) ==> Dispatch(element, inv, todo, transport).invoices[0] == inv
  {
    DispatchEntries(element, inv, todo, transport);
    DispatchKeeps(element, inv, todo, transport);
    if DeclaresScalar(element) {
      assert inv.emailNotifications + [] == inv.emailNotifications;
    }
  }

  lemma LogEntriesCons(a: Attempt, rest: seq<Attempt>)
    ensures LogEntries([a] + rest) == [LogEntry(a)] + LogEntries(rest)
  {
    assert ([a] + rest)[0] == a && ([a] + rest)[1..] == rest;
  }

  lemma DispatchFacts(element: map<string, FieldDecl>, inv: Invoice, todo: seq<Reminder>, transport: Delivery -> bool)
    ensures var r := Dispatch(element, inv, todo, transport);
      && r.invoices[0] == inv.(emailNotifications := inv.emailNotifications + Stored(element, r.attempts))
      && (DeclaresScalar(element) ==> r.invoices[0] == inv)
      && RemindersOf(r.attempts) == todo
      && Sent(r.attempts, transport)
      && r.emailsSent == Successes(r.attempts)
      && r.deliveries == Deliveries(r.attempts)
  {
    DispatchReminders(element, inv, todo, transport);
    DispatchSent(element, inv, todo, transport);
    DispatchCounts(element, inv, todo, transport);
    DispatchLog(element, inv, todo, transport);
  }

  /**
   * `after` is `before` with exactly one log entry per planned reminder appended, in order,
   * each recording the reminder's kind, its recipient and the outcome of sending it.
   */
  ghost predicate Logged(before: Invoice, after: Invoice, plan: seq<Reminder>, transport: Delivery -> bool) {
    var n := |before.emailNotifications|;
    && after == before.(emailNotifications := after.emailNotifications)
    && |after.emailNotifications| == n + |plan|
    && after.emailNotifications[..n] == before.emailNotifications
    && forall j :: 0 <= j < |plan| ==>
         after.emailNotifications[n + j]
         == Notification(KindName(plan[j].kind), plan[j].recipient,
                         SendEmail(plan[j].recipient, plan[j].invoiceId, plan[j].kind, transport))
  }

  /**
   * What the pushes of `plan` leave of `before` when the log's element is declared by
   * `element`: the invoice as it was when the element declares a scalar, else `Logged`.
   */
  ghost predicate LoggedWith(
    element: map<string, FieldDecl>, before: Invoice, after: Invoice, plan: seq<Reminder>, transport: Delivery -> bool) {
    if DeclaresScalar(element) then after == before else Logged(before, after, plan, transport)
  }

  lemma DispatchLogs(element: map<string, FieldDecl>, inv: Invoice, plan: seq<Reminder>, transport: Delivery -> bool)
    ensures LoggedWith(element, inv, Dispatch(element, inv, plan, transport).invoices[0], plan, transport)
  {
    var r := Dispatch(element, inv, plan, transport);
    DispatchFacts(element, inv, plan, transport);
    if !DeclaresScalar(element) {
      var n := |inv.emailNotifications|;
      var after := r.invoices[0];
      assert after.emailNotifications == inv.emailNotifications + LogEntries(r.attempts);
      forall j | 0 <= j < |plan|
        ensures after.emailNotifications[n + j]
             == Notification(KindName(plan[j].kind), plan[j].recipient,
                             SendEmail(plan[j].recipient, plan[j].invoiceId, plan[j].kind, transport))
      {
        assert RemindersOf(r.attempts)[j] == r.attempts[j].reminder;
      }
    }
  }

  /** Runs one after the other, as the job's loop accumulates them. */
  function Then(a: Run, b: Run): Run {
    Run(a.invoices + b.invoices, a.attempts + b.attempts, a.deliveries + b.deliveries, a.emailsSent + b.emailsSent)
  }

  lemma ThenAssociative(a: Run, b: Run, c: Run)
    ensures Then(a, Then(b, c)) == Then(Then(a, b), c)
  {
    assert a.invoices + (b.invoices + c.invoices) == (a.invoices + b.invoices) + c.invoices;
    assert a.attempts + (b.attempts + c.attempts) == (a.attempts + b.attempts) + c.attempts;
    assert a.deliveries + (b.deliveries + c.deliveries) == (a.deliveries + b.deliveries) + c.deliveries;
  }

  /**
   * `processInvoiceReminders` over the invoices the job's query returned, in order. `today`
   * and the due days are day numbers; `adminEmail` is the configured manager mailbox;
   * `element` is the declaration of a log entry.
   */
  function ProcessInvoiceReminders(
    element: map<string, FieldDecl>, invoices: seq<Invoice>, users: map<Id, User>, today: int, adminEmail: Option<string>,
    transport: Delivery -> bool): (r: Run)
    ensures |r.invoices| == |invoices|
    decreases |invoices|
  {
    if invoices == [] then Run([], [], [], 0)
    else
      var head := Dispatch(element, invoices[0], Plan(invoices[0], users, today, adminEmail), transport);
      var tail := ProcessInvoiceReminders(element, invoices[1..], users, today, adminEmail, transport);
      Then(head, tail)
  }

  /** The run attempts exactly the scheduled reminders, in order, each with the outcome `sendEmail` gives. */
  lemma {:induction false} ProcessAttempts(
    element: map<string, FieldDecl>, invoices: seq<Invoice>, users: map<Id, User>, today: int, adminEmail: Option<string>,
    transport: Delivery -> bool)
    ensures var r := ProcessInvoiceReminders(element, invoices, users, today, adminEmail, transport);
      && RemindersOf(r.attempts) == Schedule(invoices, users, today, adminEmail)
      && Sent(r.attempts, transport)
    decreases |invoices|
  {
    if invoices != [] {
      var plan := Plan(invoices[0], users, today, adminEmail);
      var head := Dispatch(element, invoices[0], plan, transport);
      var tail := ProcessInvoiceReminders(element, invoices[1..], users, today, adminEmail, transport);
      ProcessAttempts(element, invoices[1..], users, today, adminEmail, transport);
      DispatchReminders(element, invoices[0], plan, transport);
      DispatchSent(element, invoices[0], plan, transport);
      RemindersAppend(head.attempts, tail.attempts);
      var all := head.attempts + tail.attempts;
      forall i | 0 <= i < |all|
        ensures all[i] == if i < |head.attempts| then head.attempts[i] else tail.attempts[i - |head.attempts|]
      {
      }
    }
  }

  /** `emailsSent` counts the successful attempts; the transport is called once per attempt with a recipient. */
  lemma {:induction false} ProcessCounts(
    element: map<string, FieldDecl>, invoices: seq<Invoice>, users: map<Id, User>, today: int, adminEmail: Option<string>,
    transport: Delivery -> bool)
    ensures var r := ProcessInvoiceReminders(element, invoices, users, today, adminEmail, transport);
      && r.emailsSent == Successes(r.attempts)
      && r.deliveries == Deliveries(r.attempts)
    decreases |invoices|
  {
    if invoices != [] {
      var plan := Plan(invoices[0], users, today, adminEmail);
      var head := Dispatch(element, invoices[0], plan, transport);
      var tail := ProcessInvoiceReminders(element, invoices[1..], users, today, adminEmail, transport);
      ProcessCounts(element, invoices[1..], users, today, adminEmail, transport);
      DispatchCounts(element, invoices[0], plan, transport);
      SuccessesAppend(head.attempts, tail.attempts);
      DeliveriesAppend(head.attempts, tail.attempts);
    }
  }

  /**
   * Every invoice comes back with nothing changed but its log, which holds its plan's entries
   * appended when the element is a sub-document and is untouched when it declares a scalar.
   */
  lemma {:induction false} ProcessLogs(
    element: map<string, FieldDecl>, invoices: seq<Invoice>, users: map<Id, User>, today: int, adminEmail: Option<string>,
    transport: Delivery -> bool)
    ensures var r := ProcessInvoiceReminders(element, invoices, users, today, adminEmail, transport);
      forall i :: 0 <= i < |invoices| ==>
        LoggedWith(element, invoices[i], r.invoices[i], Plan(invoices[i], users, today, adminEmail), transport)
    decreases |invoices|
  {
    if invoices != [] {
      var r := ProcessInvoiceReminders(element, invoices, users, today, adminEmail, transport);
      var head := Dispatch(element, invoices[0], Plan(invoices[0], users, today, adminEmail), transport);
      var tail := ProcessInvoiceReminders(element, invoices[1..], users, today, adminEmail, transport);
      ProcessLogs(element, invoices[1..], users, today, adminEmail, transport);
      DispatchLogs(element, invoices[0], Plan(invoices[0], users, today, adminEmail), transport);
      assert r.invoices == head.invoices + tail.invoices;
      forall i | 0 <= i < |invoices|
        ensures LoggedWith(element, invoices[i], r.invoices[i], Plan(invoices[i], users, today, adminEmail), transport)
      {
        if i > 0 {
          assert r.invoices[i] == tail.invoices[i - 1];
          assert invoices[i] == invoices[1..][i - 1];
        }
      }
    }
  }

  /**
   * The job as written stores no notification: the log's element declares a scalar, every
   * push fails, and every invoice comes back exactly as it was fetched.
   */
  lemma JobStoresNothing(invoices: seq<Invoice>, users: map<Id, User>, today: int, adminEmail: Option<string>, transport: Delivery -> bool)
    ensures ProcessInvoiceReminders(NotificationElement, invoices, users, today, adminEmail, transport).invoices == invoices
  {
    var r := ProcessInvoiceReminders(NotificationElement, invoices, users, today, adminEmail, transport);
    ElementDeclarations();
    ProcessLogs(NotificationElement, invoices, users, today, adminEmail, transport);
    forall i | 0 <= i < |invoices|
      ensures r.invoices[i] == invoices[i]
    {
      assert LoggedWith(NotificationElement, invoices[i], r.invoices[i], Plan(invoices[i], users, today, adminEmail), transport);
    }
  }

  /** With the intended declaration, every invoice's log grows by one entry per planned reminder. */
  lemma JobLogsWhenIntended(invoices: seq<Invoice>, users: map<Id, User>, today: int, adminEmail: Option<string>, transport: Delivery -> bool)
    ensures var r := ProcessInvoiceReminders(NotificationElementIntended, invoices, users, today, adminEmail, transport);
      forall i :: 0 <= i < |invoices| ==> Logged(invoices[i], r.invoices[i], Plan(invoices[i], users, today, adminEmail), transport)
  {
    ElementDeclarations();
    ProcessLogs(NotificationElementIntended, invoices, users, today, adminEmail, transport);
  }

  /**
   * How the log is declared changes what is stored, never what is sent: the attempts, the
   * transport calls and the count are the same under any two declarations.
   */
  lemma AttemptsIgnoreDeclaration(
    e1: map<string, FieldDecl>, e2: map<string, FieldDecl>, invoices: seq<Invoice>, users: map<Id, User>, today: int,
    adminEmail: Option<string>, transport: Delivery -> bool)
    ensures var r1 := ProcessInvoiceReminders(e1, invoices, users, today, adminEmail, transport);
      var r2 := ProcessInvoiceReminders(e2, invoices, users, today, adminEmail, transport);
      r1.attempts == r2.attempts && r1.deliveries == r2.deliveries && r1.emailsSent == r2.emailsSent
  {
    var r1 := ProcessInvoiceReminders(e1, invoices, users, today, adminEmail, transport);
    var r2 := ProcessInvoiceReminders(e2, invoices, users, today, adminEmail, transport);
    ProcessAttempts(e1, invoices, users, today, adminEmail, transport);
    ProcessAttempts(e2, invoices, users, today, adminEmail, transport);
    ProcessCounts(e1, invoices, users, today, adminEmail, transport);
    ProcessCounts(e2, invoices, users, today, adminEmail, transport);
    assert |r1.attempts| == |RemindersOf(r1.attempts)| == |RemindersOf(r2.attempts)| == |r2.attempts|;
    forall i | 0 <= i < |r1.attempts|
      ensures r1.attempts[i] == r2.attempts[i]
    {
      assert RemindersOf(r1.attempts)[i] == RemindersOf(r2.attempts)[i];
    }
  }

  /** Some listed invoice that the query keeps has this id. */
  ghost predicate KeptId(invoices: seq<Invoice>, id: Id) {
    exists i :: 0 <= i < |invoices| && Considered(invoices[i]) && invoices[i].id == id
  }

  /** Every scheduled reminder belongs to a listed invoice that the query keeps. */
  lemma {:induction false} ScheduleOwners(invoices: seq<Invoice>, users: map<Id, User>, today: int, adminEmail: Option<string>)
    ensures forall rem :: rem in Schedule(invoices, users, today, adminEmail) ==> KeptId(invoices, rem.invoiceId)
    decreases |invoices|
  {
    if invoices != [] {
      var plan := Plan(invoices[0], users, today, adminEmail);
      var rest := Schedule(invoices[1..], users, today, adminEmail);
      assert Schedule(invoices, users, today, adminEmail) == plan + rest;
      ScheduleOwners(invoices[1..], users, today, adminEmail);
      forall rem: Reminder | rem in plan + rest
        ensures KeptId(invoices, rem.invoiceId)
      {
        if rem in plan {
          assert Considered(invoices[0]) && rem.invoiceId == invoices[0].id;
        } else {
          assert KeptId(invoices[1..], rem.invoiceId);
          var i :| 0 <= i < |invoices[1..]| && Considered(invoices[1..][i]) && invoices[1..][i].id == rem.invoiceId;
          assert invoices[1..][i] == invoices[i + 1];
        }
      }
    }
  }

  /** The listed invoices are distinct documents. */
  predicate DistinctIds(invoices: seq<Invoice>) {
    forall i, j :: 0 <= i < j < |invoices| ==> invoices[i].id != invoices[j].id
  }

  /**
   * A paid or cancelled invoice is never reminded: the run makes no attempt for it and
   * returns it unchanged, however the log is declared.
   */
  lemma TerminalUntouched(
    element: map<string, FieldDecl>, invoices: seq<Invoice>, users: map<Id, User>, today: int, adminEmail: Option<string>,
    transport: Delivery -> bool, i: nat)
    requires DistinctIds(invoices)
    requires i < |invoices| && !Considered(invoices[i])
    ensures var r := ProcessInvoiceReminders(element, invoices, users, today, adminEmail, transport);
      && r.invoices[i] == invoices[i]
      && forall a :: a in r.attempts ==> a.reminder.invoiceId != invoices[i].id
  {
    var r := ProcessInvoiceReminders(element, invoices, users, today, adminEmail, transport);
    var sched := Schedule(invoices, users, today, adminEmail);
    ProcessLogs(element, invoices, users, today, adminEmail, transport);
    ProcessAttempts(element, invoices, users, today, adminEmail, transport);
    ScheduleOwners(invoices, users, today, adminEmail);
    assert LoggedWith(element, invoices[i], r.invoices[i], [], transport);
    if !DeclaresScalar(element) {
      assert r.invoices[i].emailNotifications == invoices[i].emailNotifications;
    }
    forall a | a in r.attempts
      ensures a.reminder.invoiceId != invoices[i].id
    {
      var j :| 0 <= j < |r.attempts| && r.attempts[j] == a;
      assert RemindersOf(r.attempts)[j] == sched[j];
      assert sched[j] in sched;
      var k :| 0 <= k < |invoices| && Considered(invoices[k]) && invoices[k].id == sched[j].invoiceId;
      assert k != i;
    }
  }

  /**
   * Each reminder goes out on exactly one day: an invoice the query keeps gets a reminder of
   * kind `k` precisely when it is due `LeadDays(k)` days after today.
   */
  lemma ThresholdDay(inv: Invoice, users: map<Id, User>, today: int, adminEmail: Option<string>, k: ReminderKind)
    requires Considered(inv)
    ensures (exists j :: 0 <= j < |Plan(inv, users, today, adminEmail)| && Plan(inv, users, today, adminEmail)[j].kind == k)
        <==> today == inv.dueDay - LeadDays(k)
  {
    var p := Plan(inv, users, today, adminEmail);
    if today == inv.dueDay - LeadDays(k) {
      match k
      case Client14Days => assert p[0].kind == k;
      case Client7Days => assert p[0].kind == k;
      case Sales7Days => assert p[1].kind == k;
      case Manager1Day => assert p[0].kind == k;
    }
  }

  /** Only an attempt with a recipient reaches the transport, and only a delivered one can be counted. */
  lemma {:induction false} SentBounded(attempts: seq<Attempt>, transport: Delivery -> bool)
    requires Sent(attempts, transport)
    ensures Successes(attempts) <= |Deliveries(attempts)| <= |attempts|
    ensures (forall d :: transport(d)) ==> Successes(attempts) == |Deliveries(attempts)|
    decreases |attempts|
  {
    if attempts != [] {
      assert Sent(attempts[1..], transport) by {
        forall i | 0 <= i < |attempts[1..]|
          ensures attempts[1..][i] == attempts[i + 1]
        {
        }
      }
      SentBounded(attempts[1..], transport);
    }
  }

  /** The run's count never exceeds its transport calls, which never exceed its attempts. */
  lemma EmailsSentBounded(
    element: map<string, FieldDecl>, invoices: seq<Invoice>, users: map<Id, User>, today: int, adminEmail: Option<string>,
    transport: Delivery -> bool)
    ensures var r := ProcessInvoiceReminders(element, invoices, users, today, adminEmail, transport);
      && r.emailsSent <= |r.deliveries| <= |r.attempts|
      && ((forall d :: transport(d)) ==> r.emailsSent == |r.deliveries|)
  {
    var r := ProcessInvoiceReminders(element, invoices, users, today, adminEmail, transport);
    ProcessAttempts(element, invoices, users, today, adminEmail, transport);
    ProcessCounts(element, invoices, users, today, adminEmail, transport);
    SentBounded(r.attempts, transport);
  }

  /** Logging a reminder does not change what the job decides for an invoice. */
  lemma {:induction false} ScheduleIgnoresLogs(
    before: seq<Invoice>, after: seq<Invoice>, users: map<Id, User>, today: int, adminEmail: Option<string>)
    requires |before| == |after|
    requires forall i :: 0 <= i < |before| ==> after[i] == before[i].(emailNotifications := after[i].emailNotifications)
    ensures Schedule(after, users, today, adminEmail) == Schedule(before, users, today, adminEmail)
    decreases |before|
  {
    if before != [] {
      assert after[0] == before[0].(emailNotifications := after[0].emailNotifications);
      assert Plan(after[0], users, today, adminEmail) == Plan(before[0], users, today, adminEmail);
      ScheduleIgnoresLogs(before[1..], after[1..], users, today, adminEmail);
    }
  }

  /**
   * Two runs on the same day push an invoice's plan twice: the log grows by the plan twice
   * when the element is a sub-document, and not at all when it declares a scalar.
   */
  lemma LoggedTwice(
    element: map<string, FieldDecl>, before: Invoice, middle: Invoice, after: Invoice, users: map<Id, User>, today: int,
    adminEmail: Option<string>, first: Delivery -> bool, second: Delivery -> bool)
    requires LoggedWith(element, before, middle, Plan(before, users, today, adminEmail), first)
    requires LoggedWith(element, middle, after, Plan(middle, users, today, adminEmail), second)
    ensures |after.emailNotifications|
         == |before.emailNotifications| + (if DeclaresScalar(element) then 0 else 2 * |Plan(before, users, today, adminEmail)|)
  {
    assert Plan(middle, users, today, adminEmail) == Plan(before, users, today, adminEmail);
  }

  /**
   * Nothing marks a reminder as sent: a second run on the same day, over the invoices the
   * first one returned, attempts the same reminders again, so every invoice's log grows by
   * its plan twice, or not at all when the element declares a scalar.
   */
  lemma SameDayRerunRepeats(
    element: map<string, FieldDecl>, invoices: seq<Invoice>, users: map<Id, User>, today: int, adminEmail: Option<string>,
    first: Delivery -> bool, second: Delivery -> bool)
    ensures var r1 := ProcessInvoiceReminders(element, invoices, users, today, adminEmail, first);
      var r2 := ProcessInvoiceReminders(element, r1.invoices, users, today, adminEmail, second);
      && RemindersOf(r2.attempts) == RemindersOf(r1.attempts)
      && forall i :: 0 <= i < |invoices| ==>
           |r2.invoices[i].emailNotifications|
           == |invoices[i].emailNotifications|
              + (if DeclaresScalar(element) then 0 else 2 * |Plan(invoices[i], users, today, adminEmail)|)
  {
    var r1 := ProcessInvoiceReminders(element, invoices, users, today, adminEmail, first);
    var r2 := ProcessInvoiceReminders(element, r1.invoices, users, today, adminEmail, second);
    ProcessLogs(element, invoices, users, today, adminEmail, first);
    ProcessLogs(element, r1.invoices, users, today, adminEmail, second);
    ProcessAttempts(element, invoices, users, today, adminEmail, first);
    ProcessAttempts(element, r1.invoices, users, today, adminEmail, second);
    forall i | 0 <= i < |invoices|
      ensures r1.invoices[i] == invoices[i].(emailNotifications := r1.invoices[i].emailNotifications)
    {
      assert LoggedWith(element, invoices[i], r1.invoices[i], Plan(invoices[i], users, today, adminEmail), first);
    }
    ScheduleIgnoresLogs(invoices, r1.invoices, users, today, adminEmail);
    forall i | 0 <= i < |invoices|
      ensures |r2.invoices[i].emailNotifications|
           == |invoices[i].emailNotifications|
              + (if DeclaresScalar(element) then 0 else 2 * |Plan(invoices[i], users, today, adminEmail)|)
    {
      LoggedTwice(element, invoices[i], r1.invoices[i], r2.invoices[i], users, today, adminEmail, first, second);
    }
  }

  /** Processing one more invoice extends the run by that invoice's dispatch. */
  lemma {:induction false} ProcessSnoc(
    element: map<string, FieldDecl>, invoices: seq<Invoice>, inv: Invoice, users: map<Id, User>, today: int,
    adminEmail: Option<string>, transport: Delivery -> bool)
    ensures ProcessInvoiceReminders(element, invoices + [inv], users, today, adminEmail, transport)
         == Then(ProcessInvoiceReminders(element, invoices, users, today, adminEmail, transport),
                 Dispatch(element, inv, Plan(inv, users, today, adminEmail), transport))
    decreases |invoices|
  {
    var last := Dispatch(element, inv, Plan(inv, users, today, adminEmail), transport);
    var xs := invoices + [inv];
    if invoices == [] {
      assert xs == [inv] && xs[1..] == [];
      assert last.invoices + [] == last.invoices && last.attempts + [] == last.attempts && last.deliveries + [] == last.deliveries;
    } else {
      assert xs[0] == invoices[0] && xs[1..] == invoices[1..] + [inv];
      ProcessSnoc(element, invoices[1..], inv, users, today, adminEmail, transport);
      var head := Dispatch(element, invoices[0], Plan(invoices[0], users, today, adminEmail), transport);
      var mid := ProcessInvoiceReminders(element, invoices[1..], users, today, adminEmail, transport);
      ThenAssociative(head, mid, last);
    }
  }

  /**
   * The job's loop: one pass over the invoices, updating each and adding its successful
   * sends to the count it logs at the end. With the schema as written (`NotificationElement`)
   * the invoices come back as fetched; with `NotificationElementIntended` each log grows by
   * its plan.
   */
  method ReminderJob(
    element: map<string, FieldDecl>, invoices: seq<Invoice>, users: map<Id, User>, today: int, adminEmail: Option<string>,
    transport: Delivery -> bool)
    returns (updated: seq<Invoice>, emailsSent: nat)
    ensures |updated| == |invoices|
    ensures forall i :: 0 <= i < |invoices| ==>
      LoggedWith(element, invoices[i], updated[i], Plan(invoices[i], users, today, adminEmail), transport)
    ensures DeclaresScalar(element) ==> updated == invoices
    ensures emailsSent == Successes(ProcessInvoiceReminders(element, invoices, users, today, adminEmail, transport).attempts)
  {
    var run := Run([], [], [], 0);
    var i := 0;
    while i < |invoices|
      invariant 0 <= i <= |invoices|
      invariant run == ProcessInvoiceReminders(element, invoices[..i], users, today, adminEmail, transport)
    {
      JobStep(element, invoices, i, users, today, adminEmail, transport);
      run := Then(run, Dispatch(element, invoices[i], Plan(invoices[i], users, today, adminEmail), transport));
      i := i + 1;
    }
    assert invoices[..i] == invoices;
    JobResult(element, invoices, users, today, adminEmail, transport);
    updated, emailsSent := run.invoices, run.emailsSent;
  }

  lemma JobResult(
    element: map<string, FieldDecl>, invoices: seq<Invoice>, users: map<Id, User>, today: int, adminEmail: Option<string>,
    transport: Delivery -> bool)
    ensures var r := ProcessInvoiceReminders(element, invoices, users, today, adminEmail, transport);
      && (forall i :: 0 <= i < |invoices| ==>
            LoggedWith(element, invoices[i], r.invoices[i], Plan(invoices[i], users, today, adminEmail), transport))
      && (DeclaresScalar(element) ==> r.invoices == invoices)
      && r.emailsSent == Successes(r.attempts)
  {
    var r := ProcessInvoiceReminders(element, invoices, users, today, adminEmail, transport);
    ProcessLogs(element, invoices, users, today, adminEmail, transport);
    ProcessCounts(element, invoices, users, today, adminEmail, transport);
    if DeclaresScalar(element) {
      forall i | 0 <= i < |invoices|
        ensures r.invoices[i] == invoices[i]
      {
        assert LoggedWith(element, invoices[i], r.invoices[i], Plan(invoices[i], users, today, adminEmail), transport);
      }
    }
  }

  /** One iteration of the job's loop adds the next invoice's dispatch to the run so far. */
  lemma JobStep(
    element: map<string, FieldDecl>, invoices: seq<Invoice>, i: nat, users: map<Id, User>, today: int,
    adminEmail: Option<string>, transport: Delivery -> bool)
    requires i < |invoices|
    ensures ProcessInvoiceReminders(element, invoices[..i + 1], users, today, adminEmail, transport)
         == Then(ProcessInvoiceReminders(element, invoices[..i], users, today, adminEmail, transport),
                 Dispatch(element, invoices[i], Plan(invoices[i], users, today, adminEmail), transport))
  {
    assert invoices[..i + 1] == invoices[..i] + [invoices[i]];
    ProcessSnoc(element, invoices[..i], invoices[i], users, today, adminEmail, transport);
  }
}
