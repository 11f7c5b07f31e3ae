# Solar monitoring backend: telemetry, tickets and profiles in Dafny

This project models the three controllers of a solar-installation monitoring
backend (an Express/Mongoose service) and proves what they promise.

- **Energy telemetry** (`energy.dfy`, module `Energy`). It models the access
  check shared by the four client-facing endpoints, the period table of the
  history endpoint, the newest-first range query with its limit, the newest
  `realtime` sample, the synthetic samples answered when a client has no data,
  the today/month/year summary with its literal placeholders, ingestion with
  its defaults, and the admin's fleet statistics. The EnergyData collection is
  a class whose only writer, `AddEnergyData`, appends to a `seq`. The reads are
  functions over that `seq`.
- **Tickets** (`tickets.dfy`, module `Tickets`, with `text.dfy`, module `Text`).
  It models the role-scoped listing, lookup by id, and creation with the owner
  forced to the caller. It models the partial update that sets a truthy status
  and puts a dated entry (`[date]: trimmed note`) above the existing notes,
  with a blank line between them. It also models deletion. JavaScript's `trim`
  and the note history are in `Text`.
- **Users** (`users.dfy`, module `Users`). It models the admin's client list,
  the client lookups with their shared "exists and has role client" guard, the
  credential view with its `N/A` fallback, and the caller's profile update.
  The profile update is a field-wise "body value if truthy, else keep" merge
  whose answer never holds the password. It also models the temporary-password
  reset.
- `common.dfy` (module `Common`) holds the caller identity, the error answers
  and JavaScript truthiness. `sorting.dfy` (module `Sorting`) holds the
  store's `sort({ field: -1 })` and `limit(n)`.

Modelling choices:

- Ids are strings. The caller is a verified `(id, role, name)` triple.
- Time is an integer number of milliseconds. Quantities are `real`.
- A clock reading and the calendar arithmetic done on it (one month ago, one
  year ago, midnight, the 1st of the month, January 1st) are passed in as a
  `Clock`.
- Each `Math.random()` value is a `Unit` in [0, 1). The strings of
  `toLocaleString()` and the new document ids are parameters.
- A value written with `x || d` in the source is modelled as truthiness. An
  absent string and `""` are both falsy, and an absent number and `0` are both
  falsy.

Modelling choices the code dictates:

- Ingestion stores a missing production or consumption as the schema default
  0. It does not reject the sample.
- A validation failure is answered with the catch-all 500, not a separate
  validation error.
- `isActive`, the flag the fleet statistics count, is not a path of the User
  schema. Users written through the schema never carry it. Where the
  library keeps filter paths the schema does not declare (Mongoose 7 and
  later by default), `activeClients` is then 0 for them
  (`AdminStatsWithoutActiveFlag`). The model follows that reading; see
  "## Left out" for Mongoose 6.
- `photo` is not a path of the User schema either. `updateProfile` answers
  the body's photo but never stores it.
- The password set by `updateProfile` is stored exactly as given, with no
  hashing on this path.
- `getTicketById` and `updateTicket` do not check who owns the ticket. The
  model has no caller parameter for them, as in the source.

The GET endpoints and ingestion use the corrected access rule
(`SubjectOf` + `Authorized`). The behaviour as written is kept beside it and
explained under "## Findings".

## Model

| member | source | states |
|---|---|---|
| Common.StatusCode | src/controllers/energyController.js:13 | a refusal is answered 403 and only a refusal is; a missing record is 404 and only it is |
| Energy.AuthorizedExactly | src/controllers/energyController.js:12-14 | an admin may ask about any subject; a client may ask exactly when the subject is their own id |
| Energy.DefaultPathRefusedAsWritten | src/controllers/energyController.js:9-14 | as written, a client who omits `:clientId` is refused, because the `_id` object is never `===` to its string; the corrected rule allows it |
| Energy.IngestDefaultRefusedAsWritten | src/controllers/energyController.js:203-208 | as written, a client who omits the body's `clientId` is refused; the corrected rule allows it |
| Energy.AsWrittenDiffersOnlyOnDefault | src/controllers/energyController.js:47-53 | the written check never allows what the corrected one refuses, and the two agree whenever a client id is supplied |
| Energy.ParsePeriod | src/models/EnergyData.js:33-37 | a period string is accepted exactly when it is one of realtime, hourly, daily or monthly |
| Energy.FindMembers | src/controllers/energyController.js:77-80 | the query returns a sample exactly when it is stored and matches every given filter |
| Energy.FindCounts | src/controllers/energyController.js:77-80 | each matching sample is returned as often as it is stored, and a non-matching one never |
| Energy.Latest | src/controllers/energyController.js:17-20 | the answer is a stored realtime sample of the client that no other such sample is newer than; there is no answer exactly when the client has no realtime sample |
| Energy.MockRealtime | src/controllers/energyController.js:24-32 | the fabricated sample belongs to the subject, is stamped now, has period realtime, production in [2,7), consumption in [1,4), gridImport in [0,1) and gridExport in [0,2) |
| Energy.GetRealTimeData | src/controllers/energyController.js:7-35 | it answers 403 exactly when the caller may not see the subject, whatever the store holds; otherwise it answers the subject's newest realtime sample, or a fabricated one when there is none |
| Energy.ResolvePeriod | src/controllers/energyController.js:56-75 | week gives (now - 7 days, 7), month gives (one month ago, 30), year gives (one year ago, 12), and any other token gives (now - 24 h, 24) |
| Energy.PeriodWindowsNested | src/controllers/energyController.js:56-75 | in a consistent calendar, the windows of year, month, week and day start in that order before now, and every period asks for at least 7 points |
| Energy.HistoryIsNewestInWindow | src/controllers/energyController.js:77-82 | the history holds only the subject's samples with timestamp >= start, in non-increasing timestamp order, min(limit, matching) of them, each taken from the matching samples no more often than it is stored, and no matching sample left out is newer than one returned |
| Energy.HistoryInWindow | src/controllers/energyController.js:77-80 | every returned sample is a stored sample of the subject inside the window |
| Energy.HistoryKeepsNewest | src/controllers/energyController.js:81-82 | a matching sample cut off by the limit is no newer than any sample returned |
| Sorting.NewestFirstLimit | src/controllers/energyController.js:81-82 | sorting newest first and limiting gives an ordered sub-multiset of the input of the limited length, holding the newest elements |
| Energy.MockHistory | src/controllers/energyController.js:86-94 | the mock history has exactly n points; point i is hourly, belongs to the subject, is stamped now - i hours, has production in [10,40), consumption in [5,30), gridImport in [0,5) and gridExport in [0,10); the timestamps strictly decrease |
| Energy.MockHistoryInsideWindow | src/controllers/energyController.js:85-95 | for every period, the fabricated points lie inside that period's window |
| Energy.GetHistoryData | src/controllers/energyController.js:45-98 | it answers 403 exactly when the caller may not see the subject; otherwise the answer is never empty, holds only the subject's samples, and is the real history or, when that is empty, the fabricated one of the period's length |
| Energy.WindowTotals | src/controllers/energyController.js:174-178 | savings are production minus consumption, taken after the placeholder substitution |
| Energy.PlaceholderRule | src/controllers/energyController.js:173-189 | a window's value is its placeholder exactly when the sum is zero, whether no row matched or the rows add up to zero |
| Energy.GetSummary | src/controllers/energyController.js:108-196 | it answers 403 exactly when the caller may not see the subject; in every window of the answer, savings equal production minus consumption |
| Energy.SummaryWindows | src/controllers/energyController.js:117-189 | each window sums the subject's samples since midnight, the 1st of the month or January 1st, and a zero sum becomes 45.5/32.1, 1234.5/890.2 or 14567.8/10234.5 |
| Energy.SummaryOfNoSamples | src/controllers/energyController.js:173-189 | a subject without samples gets today {45.5, 32.1, 13.4}, month {1234.5, 890.2, 344.3} and year {14567.8, 10234.5, 4333.3} |
| Energy.EarlierStartSumsMore | src/controllers/energyController.js:121-171 | with non-negative quantities, a window that starts earlier sums at least as much production and consumption |
| Energy.SummaryWindowsNested | src/controllers/energyController.js:120-171 | with non-negative quantities, the year's raw production and consumption sums are each at least the month's, which are at least today's |
| Energy.Ingest | src/controllers/energyController.js:201-217 | a refusal happens exactly when the caller may not write for the defaulted subject; the stored sample has the body's client id or the caller's, the period given or hourly, the clock's timestamp, and the four quantities copied unchanged (0 when missing, no sign check); a period outside the enumeration stores nothing |
| Energy.EnergyStore.AddEnergyData | src/controllers/energyController.js:201-219 | the collection gains exactly the ingested sample at its end, or stays unchanged on a refusal or invalid period |
| Energy.EnergyStore.constructor | src/models/EnergyData.js:3-38 | the collection starts empty |
| Energy.IngestShiftsWindowSum | src/controllers/energyController.js:210-217 | storing a sample moves a window's production and consumption sums by exactly its own quantities when it belongs to that client and window, and leaves them alone otherwise |
| Energy.GetAdminStats | src/controllers/energyController.js:229-259 | it gives the client count, the active-client count, and an inactive count that equals the clients not flagged active and so is never negative |
| Energy.ClientsSplitByActivity | src/controllers/energyController.js:256 | the clients are exactly the active ones plus the inactive ones |
| Energy.AdminTotalsArePlainSums | src/controllers/energyController.js:238-258 | today's fleet production and consumption are the plain sums of all clients' samples since midnight; the zero default never substitutes anything |
| Energy.NoFlagNoActive | src/controllers/energyController.js:232 | with no user flagged active, the active count is 0 |
| Energy.AdminStatsWithoutActiveFlag | src/controllers/energyController.js:231-232 | when no user carries the active flag, no client is active and every client counts as inactive |
| Energy.AdminStatsOfEmptyFleet | src/controllers/energyController.js:253-259 | with no users and no samples, the statistics are all zero, with no placeholder |
| Text.Trim | src/controllers/ticketController.js:16 | the result is the slice left after removing whitespace from both ends, and it neither starts nor ends with whitespace |
| Text.TrimEmptyIffBlank | src/controllers/ticketController.js:16 | `trim()` is empty exactly when the note is whitespace only |
| Text.Prepend | src/controllers/ticketController.js:21-23 | the new entry is a prefix of the result; with an empty history, the result is the entry alone; otherwise the old history is the result's suffix, after a blank line |
| Text.PrependIsJoin | src/controllers/ticketController.js:20-23 | prepending an entry to a joined history gives the joined history with that entry first |
| Tickets.ParseStatus | src/models/Ticket.js:14-18 | a status string is accepted exactly when it is open, in_progress, resolved or closed |
| Tickets.GetTicketById | src/controllers/ticketController.js:46-52 | it answers 404 exactly when no ticket has the id, and otherwise a stored ticket with that id |
| Tickets.OwnedBy | src/controllers/ticketController.js:40 | the client query keeps exactly the tickets of that client, each as often as it is stored |
| Tickets.GetTicketsScope | src/controllers/ticketController.js:38-44 | an admin sees every ticket, a client exactly their own, both newest createdAt first |
| Tickets.NoteEntry | src/controllers/ticketController.js:17-18 | the entry is `[`, the date, `]: ` and the trimmed note, in that order |
| Tickets.UpdatedTicket | src/controllers/ticketController.js:12-30 | only status, adminNotes and updatedAt can change; the status changes only for a truthy status and a status outside the enumeration fails; the notes are left alone unless a non-blank note is given, and then get the dated entry on top |
| Tickets.NoteHistoryPreserved | src/controllers/ticketController.js:16-24 | after an update the old notes are still the tail of the notes; a new note's entry heads them, followed by a blank line when there was history |
| Tickets.UpdateExtendsHistory | src/controllers/ticketController.js:20-23 | read as a list of entries, the history grows by exactly the new entry on top |
| Tickets.TicketStore.UpdateTicket | src/controllers/ticketController.js:3-36 | an unknown id answers 404 and changes nothing; otherwise only that ticket is replaced by its updated version, or nothing changes when validation fails |
| Tickets.NewTicket | src/controllers/ticketController.js:54-59 | the new ticket's clientId and clientName are always the caller's; the other fields come from the body; the status defaults to open and the notes to empty; a missing title, description or name, or an unknown status, fails |
| Tickets.OwnerComesFromCaller | src/controllers/ticketController.js:56 | the clientId and clientName of the body make no difference to the created ticket |
| Tickets.TicketStore.CreateTicket | src/controllers/ticketController.js:54-58 | the collection gains exactly the new ticket at its end; a taken id or a failed validation stores nothing |
| Tickets.Without | src/controllers/ticketController.js:63 | after the delete, exactly the tickets with other ids remain; an unknown id changes nothing |
| Tickets.WithoutKeepsUnique | src/controllers/ticketController.js:63 | deleting keeps ticket ids unique |
| Tickets.TicketStore.DeleteTicket | src/controllers/ticketController.js:61-66 | the collection loses the ticket with that id, if there is one, and the call always succeeds |
| Tickets.TicketStore.constructor | src/models/Ticket.js:3-20 | the collection starts empty, with unique ids |
| Common.IndexOf | src/controllers/userController.js:46 | the lookup finds a record with the id, and finds none exactly when no record has it; users and tickets share it |
| Users.Populate | src/controllers/userController.js:26-28 | the populated installation is the referenced one, and is null when the reference is missing or dangling |
| Users.ClientsOf | src/controllers/userController.js:9 | the query keeps exactly the users with role client |
| Users.GetClientsListsClients | src/controllers/userController.js:9-12 | the client list has one entry per client, only clients, every client's view, newest createdAt first |
| Users.EveryClientListed | src/controllers/userController.js:9-11 | every client appears, with its installation populated |
| Users.OnlyClientsListed | src/controllers/userController.js:9 | nothing but clients appears |
| Users.FindClient | src/controllers/userController.js:30-32 | the guard answers 404 unless a user with the id exists and has role client; with unique ids it passes exactly when such a client exists |
| Users.GetClientById | src/controllers/userController.js:24-39 | it answers 404 exactly when the guard fails, and otherwise the stored client's id, name, email, phone, address, role and creation time with its installation populated, and no password |
| Users.ClientByIdIsListed | src/controllers/userController.js:24-39 | a client found by id is answered with the same view the client list gives it |
| Users.GetClientCredentials | src/controllers/userController.js:81-101 | it answers 404 exactly when the guard fails; otherwise it gives the client's email and the installation's code, or `N/A` when there is no installation or no code |
| Users.MergeProfile | src/controllers/userController.js:49-56 | name, phone and address each take the body's value if and only if it is truthy; the password changes only for a truthy body password; no other field changes |
| Users.ProfileOf | src/controllers/userController.js:60-68 | the answer holds id, name, email, phone, address, photo and role of the saved user and no password; its photo is the body's when truthy |
| Users.MergeKeepsWellFormed | src/controllers/userController.js:49-58 | the merge keeps the required fields valid and never alters id, email or role |
| Users.UserStore.UpdateProfile | src/controllers/userController.js:44-76 | an unknown caller answers 404 and changes nothing; otherwise only the caller's record is replaced by the merged one, and the answer is its projection |
| Users.UserStore.constructor | src/models/User.js:3-12 | the collection starts empty and valid |
| Users.UserStore.ResetClientPasswordAsWritten | src/controllers/userController.js:106-130 | as written, a failed guard answers 404 and every client answers 500, because the password generator is not exported |
| Users.UserStore.ResetClientPassword | src/controllers/userController.js:106-130 | as intended, a failed guard answers 404 and changes nothing; otherwise only the client's password becomes the temporary one, which is answered with the email |

## Findings

| source | as written | input that shows it | evidently intended | confidence | as-written member | corrected member |
|---|---|---|---|---|---|---|
| src/controllers/energyController.js:9-14 | with no `:clientId`, the subject is `req.user._id`, an object. It is compared with `!==` against `req.user._id.toString()`, and that comparison always differs. | a caller with role client requests `GET /api/energy/realtime` (also `/history` or `/summary`) without an id, and is answered 403 | the caller sees their own data; the routes are declared "with and without clientId" | not executed; it assumes the authentication middleware (not part of this model) puts a document with an ObjectId `_id` in `req.user` | Energy.DefaultPathRefusedAsWritten | Energy.GetRealTimeData |
| src/controllers/energyController.js:203-211 | the check compares the raw body `clientId` with the caller's id. The default to the caller's id at line 211 comes only after the check. | a caller with role client posts a sample without `clientId`, and is answered 403 | the sample is stored for the caller | not executed | Energy.IngestDefaultRefusedAsWritten | Energy.Ingest |
| src/controllers/userController.js:115-116 | `generateTempPassword` is taken from authController, whose exports (src/controllers/authController.js:111) do not include it. Calling `undefined` throws. | an admin resets the password of any existing client, and is answered 500; the password is unchanged | the client gets the generated temporary password, and it is answered with the email | not executed | Users.UserStore.ResetClientPasswordAsWritten | Users.UserStore.ResetClientPassword |

## Left out

- Routing, authentication and the `admin` route guard are not part of this model. Neither is the database connection. The admin-only endpoints (fleet statistics, client lookups, ticket deletion) are modelled without the guard that sits in front of them.
- authController is not part of this model: password hashing, token signing and registration. So is the generator of temporary passwords, which is a parameter of `ResetClientPassword`.
- Installation code generation is not modelled, because it is random. Installations appear only as an id and an optional code.
- Ids that are not valid ObjectIds are not modelled. The store rejects them with a cast error, answered 500. The model takes every id as well-formed.
- Any other store failure is a catch-all 500. It is not modelled beyond the `ServerError` answer. Console logging is not modelled.
- The day and week windows are exact multiples of 24 hours. The source moves local calendar fields, so across a daylight-saving change the window differs by an hour. The month and year steps and the window starts of the summary are given in `Clock`, not computed.
- The history endpoint reads the clock once for the window (src/controllers/energyController.js:56) and once per fabricated point (line 88). The model uses one reading for all of them, so its fabricated points are exactly an hour apart where the source's are at most an hour apart.
- The store leaves the order of samples with equal timestamps unspecified. The model keeps store order among them. This affects which of two equally new realtime samples is answered.
- Quantities are exact reals. Floating-point rounding, `NaN` (also falsy under `||`), and request values that are not strings or numbers are not modelled.
- `createTicket` spreads the whole body into the document. Only the fields of the Ticket schema are modelled. A body `_id` or timestamps are not.
- The `message` strings of the responses are not modelled.
- Tickets.TicketStore.UpdateTicket: performed as one atomic step. The source reads the old notes and then writes `$set` in a second round trip, so two concurrent note updates can both prepend to the same old notes and one entry is lost, and a ticket deleted in between is answered `success: true` with `data: null`. The model does not capture that interleaving; `NoteHistoryPreserved` holds for one update on its own.
- Energy.GetAdminStats: under Mongoose 6's default `strictQuery`, the `isActive` condition, not being a schema path, is stripped from the filter, so `activeClients` equals `totalClients` and `inactiveClients` is 0. The model follows the later default, which keeps the condition; the library version is not pinned by the sources.
- Energy.GetSummary: its own contract states only the refusal rule and the savings identity. The window values are stated by `SummaryWindows`, and the placeholders for a subject without data by `SummaryOfNoSamples`. The summary is modelled as it behaves under Mongoose 6, where `Types.ObjectId(clientId)` may be called without `new` (src/controllers/energyController.js:124, 142, 160). Under Mongoose 7 and later that call throws for every id, so every authorized summary is answered 500; the model does not capture that. `GetAdminStats`, by contrast, follows the Mongoose 7 default for `strictQuery` (see its line above), so the two members describe different library versions; the sources pin none.
