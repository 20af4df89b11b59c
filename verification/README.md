# Invoice management backend, modelled in Dafny

This project models the server side of an invoice management system with three kinds of
users. Administrators manage sales representatives and see every invoice. Sales
representatives work the invoices assigned to them. Clients raise invoices, optionally with a
file attached. A daily job e-mails payment reminders as due dates approach.

The model covers these parts of the system:

- the document schema and its unique indexes (`Database`);
- the HTTP routes of the three roles and of authentication (`AdminRoutes`, `AdminReports`,
  `SalesRoutes`, `ClientRoutes`, `AuthRoutes`);
- the attachment filter (`FileUpload`);
- the reminder job (`EmailReminder`);
- the script that creates an administrator (`CreateAdmin`).

The two collections are maps from document id to document: `map<Id, User>` and
`map<Id, Invoice>`. Ids are natural numbers, and their order stands for MongoDB's natural
order, so `findOne` returns the least matching id. Every route is a pure function from the
store and the request to a `Step`: the store afterwards and a `Reply`. A reply is a value or
an `ApiError` that carries the HTTP status code. Every route's contract covers its error
paths, in the order the handler checks them.

Things the code cannot see are passed in as parameters:

- a fresh document id;
- bcrypt's hash and compare;
- token signing;
- the mail transport's verdict;
- today's date;
- the `ADMIN_EMAIL` setting;
- the random file-name prefix of a stored upload.

Dates are whole day numbers and amounts are whole numbers. The read-only reports work on a
snapshot of the collection, as a sequence.

`Text` models the JavaScript string behaviour the handlers depend on:

- truthiness, where `undefined` and `""` are falsy and, for numbers, `0` is too;
- `||` fallbacks;
- template literals that print `undefined`;
- `split`/`join`, `trim` and `toLowerCase`;
- unanchored regular-expression tests.

These are points where the behaviour depends on Mongoose, and the choices made here:

- Keys that are `undefined` in an update document are dropped, so a field left out of
  `PUT /sales/:id` keeps its value. This is Mongoose 7 behaviour.
- `findOne({ email: undefined })` is the query `{}`. It returns the first user in natural order.
- A save refused by a unique index ends in the route's catch block, which answers 500.
- `findOneAndUpdate` does not run validators by default.
- The schemas are strict, so a path the schema does not declare, such as an invoice's top-level
  `description`, is dropped on save.
- An array element written as an object whose `type` key holds a bare type declares an array of
  that scalar type. The reminder job therefore takes the declaration of a log entry as a
  parameter: `NotificationElement` is the schema as written, under which no notification is
  stored, and `NotificationElementIntended` is the corrected one.

## Model

| member | source | states |
|---|---|---|
| Database.ParseStatus | backend/utils/database.js:44 | a status text is accepted exactly when it names one of the four enumeration values, and then yields that value |
| Database.CastCommType | backend/utils/database.js:62 | a communication type left out defaults to "other"; a given one must name a type |
| Database.ElementDeclarations | backend/utils/database.js:59-70 | the notification element is read as a scalar String declaration (its `type` key holds a bare type), while the communication element is a sub-document |
| Database.InsertKeepsWellFormed | backend/utils/database.js:52-58 | a fresh invoice under its own id, with a free invoice number and a history that ends in its status, keeps the sparse unique index and every history consistent |
| Database.ReplaceKeepsWellFormed | backend/utils/database.js:52-58 | rewriting an invoice with its number unchanged and a consistent history keeps the store well formed |
| Database.FindByEmail | backend/routes/authRoutes.js:20 | `findOne({ email })` finds a user exactly when one holds the email, and returns the least such id |
| Database.FindByEmailUnique | backend/utils/database.js:34 | under the unique email index, the lookup returns the one user holding the email |
| Database.FindOneByEmail | backend/routes/adminRoutes.js:148 | with an email it is the email lookup; without one it returns the least id of any user, and nothing only when there are no users |
| Text.JoinSplit | backend/routes/authRoutes.js:31-33 | joining the pieces of a split on one character gives back the string |
| Text.SplitJoin | backend/routes/authRoutes.js:31-33 | splitting a join of separator-free pieces gives back the pieces |
| Text.NameParts | backend/routes/authRoutes.js:31-33 | the first piece is space-free, and with a space present the string is first piece, a space, then the rest |
| Text.NamePartsOf | backend/scripts/createAdmin.js:32-34 | splitting "word rest", where the word has no space, gives back the word and the rest |
| Text.ContainsAt | backend/utils/fileUpload.js:39-41 | the regex test succeeds exactly when the literal sits at some position of the subject |
| FileUpload.ExtName | backend/utils/fileUpload.js:34 | `path.extname` is empty or a dot followed by text without dots or slashes |
| FileUpload.ExtNameOfFileName | backend/utils/fileUpload.js:34 | the extension of "stem.ext" is ".ext" |
| FileUpload.NoExtension | backend/utils/fileUpload.js:34 | a name without a dot, or a dot file such as ".pdf", has an empty extension |
| FileUpload.UploadError | backend/utils/fileUpload.js:38-54 | an attachment is accepted exactly when it passes the filter and is within the limit; the filter's error comes before the size error |
| FileUpload.SizeLimit | backend/utils/fileUpload.js:52 | a file of 10485760 bytes passes and one byte more is refused |
| FileUpload.FilterOnFileName | backend/utils/fileUpload.js:38-43 | for "stem.ext" the filter is exactly: lower-cased ".ext" and the raw mimetype both contain one of the four words |
| FileUpload.UpperCaseExtensionAccepted | backend/utils/fileUpload.js:40 | an upper-case ".PDF" extension passes, since it is lower-cased before the test |
| FileUpload.ExtensionCaseIgnored | backend/utils/fileUpload.js:40 | the extension's letter case never changes the verdict |
| FileUpload.MimetypeUnanchored | backend/utils/fileUpload.js:39-41 | any mimetype containing "pdf" passes the mimetype test |
| FileUpload.MimetypeCaseSensitive | backend/utils/fileUpload.js:41 | a mimetype lacking the lower-case letters j and p is refused with the file-type error |
| FileUpload.UpperCaseMimetypeRefused | backend/utils/fileUpload.js:41 | "APPLICATION/PDF" is refused |
| FileUpload.TextExtensionRefused | backend/utils/fileUpload.js:40 | a ".txt" extension fails the test |
| EmailReminder.KindNamed | backend/cron/emailReminder.js:57-163 | the template keys and the reminder kinds correspond one to one |
| EmailReminder.GetEmailTemplate | backend/cron/emailReminder.js:22-163 | the body is empty exactly for a key that names no template |
| EmailReminder.SendEmail | backend/cron/emailReminder.js:167-189 | without a truthy recipient the transport is not called and the result is `undefined`; otherwise it is the transport's verdict for this delivery |
| EmailReminder.LogEmailNotification | backend/cron/emailReminder.js:192-207 | the intended push: exactly one entry with the kind, the recipient and the outcome is appended, and nothing else changes |
| EmailReminder.LogWith | backend/cron/emailReminder.js:192-207 | the log is left unchanged exactly when the element declaration makes the array scalar; the rest of the invoice never changes |
| EmailReminder.LogEmailNotificationAsWritten | backend/cron/emailReminder.js:192-207 | against the schema as declared, the log changes only if the notification element is not scalar |
| EmailReminder.NotificationNeverStored | backend/utils/database.js:65-70 | with the schema as declared, every push leaves the invoice unchanged |
| EmailReminder.IntendedDeclarationStores | backend/utils/database.js:65-70 | with `type` declared through an options object, the push appends exactly the entry the job builds |
| EmailReminder.RemindersFor | backend/cron/emailReminder.js:235-295 | one reminder per kind, in order, each addressed by its kind |
| EmailReminder.Plan | backend/cron/emailReminder.js:214-295 | the full threshold table: a paid or cancelled invoice gets nothing; 14 days gives the client reminder to the client; 7 days gives the client reminder then the sales reminder; 1 day gives the manager reminder to the admin mailbox; any other distance gives nothing |
| EmailReminder.ThresholdDay | backend/cron/emailReminder.js:235-295 | an invoice the query keeps gets a reminder of a kind exactly on the day that is its lead time before the due day |
| EmailReminder.Dispatch | backend/cron/emailReminder.js:235-295 | one invoice's sends produce one attempt per planned reminder, each followed by a push against the given element declaration |
| EmailReminder.DispatchReminders | backend/cron/emailReminder.js:235-295 | the attempts follow the plan, in order |
| EmailReminder.DispatchSent | backend/cron/emailReminder.js:239-293 | each attempt carries the outcome `sendEmail` gives |
| EmailReminder.DispatchCounts | backend/cron/emailReminder.js:247-294 | the count is the number of successful attempts; the transport is called once per attempt with a recipient |
| EmailReminder.DispatchLog | backend/cron/emailReminder.js:246-293 | nothing but the log changes; the log gains one entry per attempt when the element is a sub-document, and with a scalar element (the schema as written) the invoice comes back unchanged |
| EmailReminder.DispatchLogs | backend/cron/emailReminder.js:246-293 | with a scalar element the invoice is unchanged; otherwise it has its old log, then one entry per planned reminder with its kind, recipient and outcome |
| EmailReminder.ProcessInvoiceReminders | backend/cron/emailReminder.js:210-302 | the run, under a given declaration of the log's element, returns one invoice for each invoice it was given |
| EmailReminder.ProcessAttempts | backend/cron/emailReminder.js:221-296 | the run attempts exactly the scheduled reminders, in order, each with `sendEmail`'s outcome |
| EmailReminder.ProcessCounts | backend/cron/emailReminder.js:247-294 | `emailsSent` counts the successful attempts |
| EmailReminder.ProcessLogs | backend/cron/emailReminder.js:221-296 | every invoice comes back with nothing but its log changed: unchanged with a scalar element, with its plan's entries appended otherwise |
| EmailReminder.JobStoresNothing | backend/utils/database.js:65-70 | as written, a whole run returns every invoice exactly as it was fetched: no notification is stored |
| EmailReminder.JobLogsWhenIntended | backend/cron/emailReminder.js:246-293 | with the intended declaration, every invoice's log gains one entry per planned reminder with its kind, recipient and outcome |
| EmailReminder.AttemptsIgnoreDeclaration | backend/cron/emailReminder.js:239-294 | the declaration of the log changes nothing that is sent: attempts, transport calls and `emailsSent` are the same under any two declarations |
| EmailReminder.ScheduleOwners | backend/cron/emailReminder.js:214-221 | every scheduled reminder belongs to a listed invoice that the status query keeps |
| EmailReminder.TerminalUntouched | backend/cron/emailReminder.js:214 | a paid or cancelled invoice is never reminded and comes back unchanged, under any declaration |
| EmailReminder.SentBounded | backend/cron/emailReminder.js:167-189 | successes are at most the transport calls, which are at most the attempts; they are equal when the transport always succeeds |
| EmailReminder.EmailsSentBounded | backend/cron/emailReminder.js:247-294 | the run's count is at most its transport calls, which are at most its attempts |
| EmailReminder.ScheduleIgnoresLogs | backend/cron/emailReminder.js:214-233 | logging does not change what the job decides |
| EmailReminder.LoggedTwice | backend/cron/emailReminder.js:192-207 | two runs of the same plan add it to the log twice with a sub-document element, and leave the log as it was with a scalar one |
| EmailReminder.SameDayRerunRepeats | backend/cron/emailReminder.js:306-317 | a second run on the same day attempts the same reminders again; each log grows by its plan twice with a sub-document element and not at all as written |
| EmailReminder.ProcessSnoc | backend/cron/emailReminder.js:221-296 | processing one more invoice extends the run by that invoice's sends |
| EmailReminder.ReminderJob | backend/cron/emailReminder.js:210-302 | the loop returns one invoice per invoice and the count of successful sends; as written (scalar element) the invoices come back as fetched, and with a sub-document element each is logged as its plan says |
| SalesRoutes.MyInvoices | backend/routes/salesRoutes.js:23-30 | exactly the invoices assigned to the actor, unchanged |
| SalesRoutes.MyClients | backend/routes/salesRoutes.js:12-20 | exactly the existing users who are the client of one of the actor's invoices, without their password digests |
| SalesRoutes.InvoiceDetail | backend/routes/salesRoutes.js:33-45 | the invoice exactly when it is assigned to the actor, otherwise 404 |
| SalesRoutes.Communications | backend/routes/salesRoutes.js:107-119 | the communications exactly when the invoice is assigned to the actor, otherwise 404 |
| SalesRoutes.UpdateStatus | backend/routes/salesRoutes.js:48-74 | an unknown status gives 400 first; an invoice not assigned to the actor gives 404; otherwise the status is set and one history entry with the status and the actor is appended |
| SalesRoutes.UpdateStatusPreservesWellFormed | backend/routes/salesRoutes.js:57-64 | the update keeps every status equal to the last history entry's |
| SalesRoutes.AnyTransition | backend/routes/salesRoutes.js:50-64 | any status can follow any other, paid and cancelled included, and the history records each move in order |
| SalesRoutes.AddCommunication | backend/routes/salesRoutes.js:77-104 | a falsy message gives 400; a missing invoice gives 404; otherwise one communication of type "other" from the actor is appended and nothing else changes |
| SalesRoutes.AddCommunicationPreservesWellFormed | backend/routes/salesRoutes.js:85-94 | adding a communication keeps the store well formed |
| SalesRoutes.CommunicationUnscoped | backend/routes/salesRoutes.js:85-98 | a sales representative can write to an invoice assigned to someone else, though they cannot change its status |
| SalesRoutes.CommunicationsInOrder | backend/routes/salesRoutes.js:85-115 | two communications come back in the order they were added |
| SalesRoutes.ScopesAgree | backend/routes/salesRoutes.js:25-64 | the detail, communications and status routes succeed exactly for the invoices the listing shows |
| ClientRoutes.MyInvoices | backend/routes/clientRoutes.js:13-20 | exactly the invoices whose client is the actor, unchanged |
| ClientRoutes.AvailableSales | backend/routes/clientRoutes.js:65-72 | exactly the users with role sales, with their username and email |
| ClientRoutes.StoredPath | backend/utils/fileUpload.js:32-35 | the stored path exists exactly when a file was sent, and ends in the original extension |
| ClientRoutes.CreateInvoice | backend/routes/clientRoutes.js:23-62 | guard order: a refused upload never reaches the handler and gets Express's default 500 error page; the description is not stored, as the schema has no path for it; missing fields give 400; a non-sales representative gives 404; then 500 for a missing actor or a taken number; success stores a pending invoice of the actor with the request's items and invoice number, the stored file's path, and one history entry |
| ClientRoutes.ValidationFirst | backend/routes/clientRoutes.js:28-35 | missing fields are reported before the sales representative is looked up |
| ClientRoutes.CreatePreservesWellFormed | backend/routes/clientRoutes.js:39-56 | creation keeps the store well formed |
| ClientRoutes.CreatedInvoiceVisible | backend/routes/clientRoutes.js:39-56 | a created invoice appears in the client's listing and in its sales representative's |
| ClientRoutes.CreatedInvoiceReminded | backend/cron/emailReminder.js:225-248 | an invoice a client creates due in fourteen days gets exactly one reminder that day, the client reminder, addressed to that client; the reminders name the client as the invoice does |
| ClientRoutes.AttachmentKeepsExtension | backend/routes/clientRoutes.js:49 | the stored path of "stem.ext" is the uploads prefix, the random prefix, then ".ext" |
| AdminReports.CountSplit | backend/routes/adminRoutes.js:22-33 | counts over disjoint status sets add up |
| AdminReports.SumSplit | backend/routes/adminRoutes.js:325-333 | sums over disjoint status sets add up |
| AdminReports.CountAll | backend/utils/database.js:44 | every invoice has one of the four statuses, so the counts and sums over all of them are the totals |
| AdminReports.Stats | backend/routes/adminRoutes.js:15-50 | revenue is the sum over paid invoices; the paid, pending and overdue counts are the numbers of invoices with that status; the invoice total is their sum, which leaves out exactly the cancelled invoices; the user counts are the numbers of clients and sales representatives |
| AdminReports.KpiFigures | backend/routes/adminRoutes.js:321-374 | the total is the sum of all amounts; collected is the sum over paid, outstanding over pending and overdue, overdue over overdue alone; collected + outstanding + cancelled is the total; the user counts are the numbers of clients and sales representatives |
| AdminReports.DashboardMatchesAnalytics | backend/routes/adminRoutes.js:15-50 | each dashboard counter and KPI amount is what the analytics listing reports for that status name |
| AdminReports.DashboardsAgree | backend/routes/adminRoutes.js:15-50 | the dashboard revenue is the KPI collected amount, and the two invoice totals differ by the cancelled count |
| AdminReports.StatusConstraint | backend/routes/adminRoutes.js:255-257 | no constraint exactly when the status is absent, empty or "all"; otherwise the literal status |
| AdminReports.Matching | backend/routes/adminRoutes.js:271 | an invoice is listed exactly when it is in the snapshot and satisfies the constraint |
| AdminReports.MatchingKeepsOccurrences | backend/routes/adminRoutes.js:271 | a matching invoice is listed as many times as the snapshot holds it, and any other not at all |
| AdminReports.Analytics | backend/routes/adminRoutes.js:249-303 | the listed invoices are the matching ones; the summary's count and total are over them |
| AdminReports.MatchingStatus | backend/routes/adminRoutes.js:287-291 | filtering on a status name counts and sums exactly that status's invoices |
| AdminReports.AnalyticsFilter | backend/routes/adminRoutes.js:255-291 | "all" behaves like no filter and keeps everything; a status name gives that status's count and sum |
| AdminReports.UnknownStatusFindsNothing | backend/routes/adminRoutes.js:255-256 | a status outside the enumeration finds nothing |
| AdminReports.Export | backend/routes/adminRoutes.js:377-390 | the export lists exactly the snapshot's invoices that the status parameter selects |
| AdminReports.ExportAgreesWithAnalytics | backend/routes/adminRoutes.js:381 | the export and the analytics listing apply the same filter |
| AdminRoutes.UsersWithRole | backend/routes/adminRoutes.js:88-105 | exactly the users with the role, without password digests |
| AdminRoutes.Communications | backend/routes/adminRoutes.js:306-318 | the communications of any existing invoice, otherwise 404 |
| AdminRoutes.CreateInvoice | backend/routes/adminRoutes.js:187-223 | guard order: fields, then client, then sales representative; a taken number gives 500; success stores a pending invoice with the request's items and invoice number, named as requested or after the client |
| AdminRoutes.CreateInvoicePreservesWellFormed | backend/routes/adminRoutes.js:205-217 | creation keeps the store well formed |
| AdminRoutes.PutKeepsWellFormed | backend/utils/database.js:31-34 | storing a user that clashes with nobody keeps the unique indexes |
| AdminRoutes.CreateSales | backend/routes/adminRoutes.js:108-139 | missing fields give 400; a registered email gives 400; a taken username gives 500; success stores a sales representative |
| AdminRoutes.CreateSalesPreservesWellFormed | backend/routes/adminRoutes.js:121-132 | sales creation keeps the unique indexes, and the new user has role sales |
| AdminRoutes.Patched | backend/routes/adminRoutes.js:153-162 | fields left out are kept, a truthy password is hashed, and the role and phone are untouched |
| AdminRoutes.ApplySalesUpdate | backend/routes/adminRoutes.js:153-166 | a missing target gives 404; a clash on a unique index gives 500; otherwise the patched user is stored |
| AdminRoutes.UpdateSales | backend/routes/adminRoutes.js:143-168 | as written: when the email lookup finds a user other than the target, the answer is 400 "Email already in use", even when the request has no email; otherwise the update is applied |
| AdminRoutes.UpdateWithoutEmailRefused | backend/routes/adminRoutes.js:148-151 | as written, an update without an email is refused whenever some user precedes the target |
| AdminRoutes.UpdateSalesIntended | backend/routes/adminRoutes.js:147-166 | the email check runs only when an email is given; a request that passes it is applied |
| AdminRoutes.UpdateWithoutEmailAccepted | backend/routes/adminRoutes.js:147-166 | as intended, an update without an email that clashes with nobody succeeds and keeps the email |
| AdminRoutes.UpdateSalesPreservesWellFormed | backend/routes/adminRoutes.js:143-168 | both versions keep the unique indexes |
| AdminRoutes.UpdateIgnoresRole | backend/routes/adminRoutes.js:158-162 | the update does not check the target's role, and keeps it |
| AdminRoutes.DeleteSales | backend/routes/adminRoutes.js:171-184 | a user is removed exactly when it has role sales, otherwise 404 |
| AdminRoutes.DeleteKeepsOthers | backend/routes/adminRoutes.js:174 | deletion never removes an admin or a client, and keeps the unique indexes |
| AdminRoutes.SalesListingsAgree | backend/routes/adminRoutes.js:98-105 | `GET /sales` and the clients' `GET /client/available-sales` list the same users with the same username and email |
| AdminRoutes.CreatedSalesListed | backend/routes/adminRoutes.js:98-139 | a created sales representative appears in both listings with the request's username and email, and no other user enters or leaves them |
| AdminRoutes.DeletedSalesUnlisted | backend/routes/adminRoutes.js:98-184 | a deleted sales representative disappears from both listings, and no other user enters or leaves them |
| AdminRoutes.CommunicationsAgree | backend/routes/adminRoutes.js:306-318 | on an invoice assigned to a sales representative, the admin reads the same communications they do; the admin also reads any other existing invoice's |
| AuthRoutes.FinalNames | backend/routes/authRoutes.js:27-34 | without a truthy first name but with a name, the trimmed name is split at its first space; otherwise the given names are kept |
| AuthRoutes.Register | backend/routes/authRoutes.js:9-67 | missing username-or-name, email or password gives 400; a registered email gives 400; a taken username gives 500; success stores a client and replies with its id, username, email and role |
| AuthRoutes.RegisterPreservesWellFormed | backend/routes/authRoutes.js:36-46 | registration keeps the unique indexes |
| AuthRoutes.RegisterSplitsTrimmedName | backend/routes/authRoutes.js:30-34 | blanks around "first last" are removed before the split, so the first and last names are the words |
| AuthRoutes.TrimAround | backend/routes/authRoutes.js:31 | trimming removes exactly the surrounding white space |
| AuthRoutes.Login | backend/routes/authRoutes.js:70-107 | missing email or password gives 400; otherwise success exactly when a user holds the email and the password matches its digest, and every other failure is 401 "Invalid credentials" |
| AuthRoutes.LoginFailureUniform | backend/routes/authRoutes.js:78-86 | an unknown email and a wrong password get the same reply |
| AuthRoutes.RegisterThenLogin | backend/routes/authRoutes.js:9-107 | whoever registers can then log in with the same email and password, as a client |
| CreateAdmin.AdminUser | backend/scripts/createAdmin.js:31-44 | the email doubles as the username; the role is admin; the untrimmed name is split at its first space; no phone |
| CreateAdmin.CreateAdmin | backend/scripts/createAdmin.js:7-57 | fewer than four arguments is a usage error; an existing email exits with 1; an empty email or digest, or a taken username, fails the save; exit code 0 exactly when the admin is stored |
| CreateAdmin.CreateAdminPreservesWellFormed | backend/scripts/createAdmin.js:36-46 | the script keeps the unique indexes |
| CreateAdmin.CreatedAdminCanLogIn | backend/scripts/createAdmin.js:36-51 | the created admin can log in with the given email and password and is reported as admin |
| CreateAdmin.LeadingBlankKept | backend/scripts/createAdmin.js:32-34 | unlike registration, a name starting with a blank gives an empty first name |

## Left out

- Console output, the HTTP layer itself, status 201 versus 200, and the JSON shapes beyond the fields named in the replies.
- The JWT middleware that sets `req.user` and checks roles is not part of this model. Each route takes the acting user's id as a parameter.
- Token signing, bcrypt hashing and bcrypt comparison are the parameters `sign`, `hash` and `matches`. The token's expiry and secret are not modelled.
- Timestamps are not modelled: `changedAt`, `timestamp`, `sentAt`, `createdAt` and `updatedAt`.
- Dates are day numbers. dayjs's start-of-day and day difference become subtraction of day numbers, and the UTC schedule of the reminder job is not modelled.
- The cron registration, the job's manual trigger route, the mail transporter's configuration and the HTML and text bodies of the e-mails are not modelled. A template is modelled by its heading and addressee only.
- `parseFloat` and floating-point amounts are not modelled; amounts are integers. A multipart amount of "0" is a truthy string in the source, while here a zero amount is always falsy.
- AdminReports.KpiFigures: the collection-rate percentage is left out, because it is a floating-point division.
- The period filters of `GET /analytics` and the date bounds of the export are not modelled: they compare `createdAt` with the clock. The groupings by status, by sales representative and by month, and `GET /dashboard/monthly-revenue`, are not modelled either: they are aggregation pipelines over dates.
- `GET /dashboard/all-invoices` and `GET /clients-with-sales` return populated documents and are not modelled. Population in general (replacing a reference by selected fields of the user) is not modelled.
- An id that is not a valid ObjectId raises a CastError and gets a 500. That path is not modelled, since ids here are natural numbers.
- JSON `null` is not told apart from an absent field.
- Lower-casing covers ASCII letters only.
- The multer storage itself is not modelled. The random file-name prefix is the parameter `storedPrefix`.
- The maintenance scripts that add test invoices and fix indexes are not modelled. Neither is the server bootstrap.
- Mongo's error texts are shortened to their leading words (`DuplicateKeyError`).
- EmailReminder.Dispatch: its contract states only the sizes. What it computes is stated by the `Dispatch…` lemmas, to keep each proof small.
- EmailReminder.GetEmailTemplate: the "empty exactly for a key that names no template" promise is stated for ordinary keys only. In the source, `templates[type] || ''` returns an inherited function for a prototype key such as "constructor". The job never passes such a key.
- The HTML page Express's default handler renders for a refused upload is not modelled. Its status (500) and the error's message are.
- EmailReminder.ProcessInvoiceReminders: its contract states only the number of invoices returned. What it computes is stated by `ProcessAttempts`, `ProcessCounts` and `ProcessLogs`.

## Findings

| source | as written | input that shows it | evidently intended | confidence | as-written member | corrected member |
|---|---|---|---|---|---|---|
| backend/utils/database.js:65-70 | the `emailNotifications` element is `{ type: String, recipient: String, ... }`, which Mongoose reads as "an array of String" because the `type` key holds a bare type | any reminder push: an object cannot be cast to a string, the update fails, and `logEmailNotification` swallows the error, so no notification is ever stored | declare the field through an options object, `type: { type: String }`, as `communications` does, so that each attempt is logged | medium, not executed | EmailReminder.LogEmailNotificationAsWritten | EmailReminder.LogEmailNotification |
| backend/routes/adminRoutes.js:147-151 | `User.findOne({ email })` runs even when the body has no email; `{ email: undefined }` matches every user | `PUT /sales/:id` with only `firstName` for a target that is not the first user: the lookup finds the first user and answers 400 "Email already in use" | look up the email only when one is given | medium, not executed | AdminRoutes.UpdateSales | AdminRoutes.UpdateSalesIntended |
