# CrewHub booking marketplace: a Dafny model

CrewHub connects customers ("users") with workers who take home-repair
jobs. This project models the marketplace's core in Dafny 4.11 and proves
properties of that model.

- **The schema** (`schema.dfy`, module `Schema`): the four tables (users,
  appointments, reviews, reports), the role and status enumerations with
  their texts, and the defaults an insert receives.
- **The store** (`storage.dfy`, class `Storage.DatabaseStorage`): the
  tables as sequences in insertion order, one serial counter per table
  (ids start at 1) and a creation counter that stands in for `defaultNow()`.
  `Valid()` says that ids and creation times strictly increase and that
  usernames are distinct. Every mutator keeps `Valid()` and states its whole
  new state.
- **The passwords** (`passwords.dfy`): the stored format
  `hex(scrypt(password, salt)) + "." + salt`, and the comparison that splits
  it on ".".
- **The HTTP handlers** (`routes.dfy`, module `Routes`):
  - the session guard;
  - registration and login;
  - the worker list and worker profile, with the mean rating;
  - the availability toggle;
  - appointment creation, listing and status update;
  - reviews and reports;
  - the two admin endpoints.

  The session is an optional user id. Each handler returns a response and
  the session as it stands afterwards.
- **The shared API** (`shared_routes.dfy`): `buildUrl` as a loop proved
  against a fold over the parameters, and the status-update input enum.
- **The client's decision logic**:
  - the router's role gate (`app.dfy`);
  - the login page's redirect, its form rules and the registration body
    (`auth_page.dfy`);
  - the worker dashboard's tabs and its status-gated actions
    (`worker_dashboard.dfy`). This is the only place where the intended life
    cycle (pending, then accepted or rejected; accepted, then completed) is
    expressed.

`wrappers.dfy` (Option) and `text.dfy` (JavaScript `indexOf`, `includes`,
`replace`, `split` and `String(n)`) are helpers.

Things that are not modelled directly:

- scrypt is an abstract deterministic function `(password, salt) -> 64-byte key`;
- the random salt bytes are an input;
- date parsing (`new Date(...)`, `toISOString()`) is a function parameter;
- request bodies arrive already decoded.

## Where the code and its description differ

In each case below the model follows the code.

- Nothing checks the life cycle. A status update needs only a session: there
  is no check that the caller owns the appointment, and none on the current
  status (`Routes.UpdateStatus`, `WorkerDashboard.UnguardedReopens`). The
  guarded transition exists only as `WorkerDashboard.GuardedStatus`.
- A rating is an unconstrained integer. The range 1 to 5 is only documented
  (`Schema.DocumentedRating`); the bounds on the mean are proved under that
  assumption.
- The registration schema does not require its strings to be non-empty.
  `workerType` is free text on the server, and the schema accepts role "admin".
- No handler parses the status-update input schema or the create-input
  schemas. The create handlers spread the raw body, so a `status` or
  `visitTime` in the body reaches the insert (`Routes.AppointmentBody`). A JSON
  body carries `visitTime` as text, which the model treats as an already
  converted timestamp; how drizzle's timestamp column handles text is not
  modelled. So
  does an `id` or a `createdAt` in the body, which the model does not carry
  (see Left out).
- An admin's appointment list uses the worker's scope: the worker column
  matched against the admin's id (`Routes.AdminListsAsWorker`).
- The login page redirects an admin to "/admin", which has no route
  (`AuthPage.AdminRedirectUnrouted`).
- A rejected appointment appears in no tab of the worker dashboard (see
  Findings).

## Model

| member | source | states |
|---|---|---|
| `Schema.ParseRole` | shared/schema.ts:16 | the role column is exactly one of "user", "worker" and "admin"; reading it back inverts the role text |
| `Schema.ParseStatus` | shared/schema.ts:32 | appointment status is exactly one of pending, accepted, rejected and completed |
| `Schema.ParseReportStatus` | shared/schema.ts:52 | report status is exactly pending or resolved |
| `Schema.UserRow` | shared/schema.ts:8-24 | a user insert gets role "user" when it gives none and is available unless it says false; the nullable worker fields are kept as given |
| `Schema.AppointmentRow` | shared/schema.ts:26-35 | an appointment without a status starts as pending; the visit time is nullable and kept as given |
| `Schema.ReviewRow` | shared/schema.ts:37-45 | a stored review carries the given rating, worker, customer and appointment |
| `Schema.ReportRow` | shared/schema.ts:47-54 | a report without a status starts as pending |
| `Text.Contains` | server/storage.ts:65 | `includes` holds exactly when the pattern occurs at some index |
| `Text.ReplaceFirst` | shared/routes.ts:160 | `replace` with a string pattern changes only the first occurrence, and changes nothing without one |
| `Text.Split` | server/routes.ts:22 | a text without the separator splits into itself alone |
| `Text.JoinSplit` | server/routes.ts:22 | joining the pieces of `split` with the separator gives the text back |
| `Text.SplitPiecesFree` | server/routes.ts:22 | no piece of `split` contains the separator, so the pieces are the separator-free stretches between separators |
| `Text.SplitJoin` | server/routes.ts:22 | splitting `a + "." + b`, when neither part contains ".", gives exactly `[a, b]` |
| `Passwords.HexEncode` | server/routes.ts:18 | hex text has two digits per byte |
| `Passwords.HexDecode` | server/routes.ts:23 | `Buffer.from(s, "hex")`: byte k is the value of digits 2k and 2k+1, and decoding stops at the first pair that is not two hex digits (or at the end) |
| `Passwords.HexRoundTrip` | server/routes.ts:23 | decoding the hex text of a byte string gives the bytes back |
| `Passwords.HashPassword` | server/routes.ts:15-19 | the stored text is 128 characters without a ".", then a ".", then exactly the salt's 32 hex digits |
| `Passwords.ComparePassword` | server/routes.ts:21-26 | no result (the source throws) exactly when the stored text has no "." or its hash part does not decode to 64 bytes; otherwise the result says whether the decoded hash equals scrypt of the supplied password under the stored salt |
| `Passwords.CompareHashed` | server/routes.ts:15-26 | a password checks against a stored hash exactly when scrypt gives the same key for it under the stored salt |
| `Passwords.CompareOwnHash` | server/routes.ts:15-26 | comparePassword(hashPassword(p), p) is true |
| `Storage.DatabaseStorage.constructor` | server/storage.ts:220 | the store starts with four empty tables and is valid |
| `Storage.DatabaseStorage.GetUser` | server/storage.ts:39-42 | the row with that id, or nothing exactly when no row has it |
| `Storage.DatabaseStorage.GetUserByUsername` | server/storage.ts:44-47 | the row with that username, or nothing exactly when no row has it |
| `Storage.DatabaseStorage.CreateUser` | server/storage.ts:49-52 | a new username appends exactly the default-filled row; a taken one is refused and changes no table, though it uses up an id |
| `Storage.UsersAppend` | shared/schema.ts:10 | appending a row with a fresh username, the next id and the current time keeps the table valid, usernames unique included |
| `Storage.FindUserUnique` | shared/schema.ts:9 | ids tell rows apart, so a lookup by a row's id finds that row |
| `Storage.DatabaseStorage.GetWorkers` | server/storage.ts:54-68 | the result is exactly the workers, in table order, of the given type (when a type is given) whose pincode contains the given text (when one is given); with no filters, every worker |
| `Storage.PincodeFilterExample` | server/storage.ts:64-66 | the filter "100" keeps a worker at pincode "10001" and drops one at "20002" |
| `Storage.DatabaseStorage.GetWorker` | server/storage.ts:70-73 | a row is returned only when both the id matches and the role is worker; nothing exactly when no such row exists |
| `Storage.DatabaseStorage.GetWorkerIsWorkerUser` | server/storage.ts:70-73 | getWorker(id) is getUser(id) when that user is a worker, and nothing otherwise |
| `Storage.WithAvailability` | server/storage.ts:75-80 | the rows with that id get the new availability and every other row stays |
| `Storage.WithAvailabilityTouchesOnly` | server/storage.ts:75-80 | the availability update changes no row with another id and no field but `isAvailable` |
| `Storage.WithAvailabilityValid` | server/storage.ts:75-80 | the availability update keeps the users table valid |
| `Storage.DatabaseStorage.UpdateWorkerAvailability` | server/storage.ts:75-81 | the users table becomes the availability update of the old one, the other tables stay, and the updated row is returned |
| `Storage.DatabaseStorage.CreateAppointment` | server/storage.ts:83-86 | exactly one row is appended, with the next id, the current time and the defaults |
| `Storage.Scoped` | server/storage.ts:90-92 | the scoped list holds exactly the appointments whose customer (role "user") or worker (any other role) is the caller, newest first |
| `Storage.DatabaseStorage.ScopedAppointments` | server/storage.ts:88-92 | the caller's appointments, exactly, in strictly descending creation order |
| `Storage.DatabaseStorage.ScopedAppointmentsDetermined` | server/storage.ts:90-92 | membership and descending order fix the list: any list with both properties is the scoped list |
| `Storage.DatabaseStorage.GetAppointments` | server/storage.ts:88-102 | each scoped appointment, in order, with the user records of its customer and its worker |
| `Storage.ApplyStatus` | server/storage.ts:104-110 | the status is set, a missing visit time leaves the stored one, and no other field changes |
| `Storage.WithStatus` | server/storage.ts:104-110 | every row with that id gets the update whatever its current status; every other row stays |
| `Storage.WithStatusValid` | server/storage.ts:104-110 | the status update keeps the appointments table valid |
| `Storage.DatabaseStorage.UpdateAppointmentStatus` | server/storage.ts:104-110 | the appointments table becomes the unguarded status update of the old one, and nothing else changes |
| `Storage.DatabaseStorage.CreateReview` | server/storage.ts:112-115 | exactly one review row is appended |
| `Storage.DatabaseStorage.GetWorkerReviews` | server/storage.ts:117-119 | exactly the reviews of that worker, each once, in ascending id order |
| `Storage.DatabaseStorage.GetWorkerReviewsDetermined` | server/storage.ts:117-119 | any list with those members in ascending id order is the worker's review list, so its length (the mean's divisor) is fixed |
| `Storage.DatabaseStorage.CreateReport` | server/storage.ts:121-124 | exactly one report row is appended, pending unless the insert says otherwise |
| `Storage.DatabaseStorage.GetReports` | server/storage.ts:126-136 | every report exactly once, newest first, with the reporter's and the reported worker's records |
| `Storage.DatabaseStorage.GetStats` | server/storage.ts:138-148 | the counts of users with role "user", of workers, and of pending appointments; the first two together never exceed the number of users |
| `Storage.ActiveAfterNewAppointment` | server/storage.ts:83-86 | after one more appointment, the pending count that `getStats` reports (server/storage.ts:141) grows by exactly one when the insert names no status or pending, and stays otherwise |
| `Storage.CustomersAndWorkers` | server/storage.ts:139-140 | customers and workers together are at most all users |
| `Storage.DatabaseStorage.Seed` | server/storage.ts:150-217 | with any user present, no field changes; on an empty users table, the admin, one customer and two workers, then one pending appointment between that customer and the first worker, using four user ids, one appointment id and five clock ticks |
| `Storage.DatabaseStorage.SeedRows` | server/storage.ts:155-214 | the seeded rows are inserted in order, with consecutive ids and creation times, and the counters advance by exactly the rows inserted |
| `Storage.DatabaseStorage.SeedUserRows` | server/storage.ts:158-205 | the four seeded users are appended in order, and only the user counter and the clock move |
| `Storage.SeedUsers` | server/storage.ts:158-205 | the seeded users are admin, customer, worker and worker, with consecutive ids |
| `Routes.Authenticated` | server/routes.ts:47-51 | the guard refuses exactly a missing session id and the falsy id 0 |
| `Routes.StoredUserAuthenticates` | server/routes.ts:47-51 | the session id of every stored user passes the guard, since serial ids start at 1 |
| `Routes.Register` | server/routes.ts:55-75 | an invalid body gets 400 with its first message; a taken username gets 400 "Username already exists" and changes nothing; otherwise the user is stored with the hashed password (not the supplied one), answered with 201, and the session holds the new id |
| `Routes.Login` | server/routes.ts:77-96 | the literal admin credentials log in as the admin whenever the admin exists; otherwise 401 "Invalid credentials" with the session unchanged exactly when the username is unknown or the password does not match; success only when it matches |
| `Routes.UsernameUnique` | shared/schema.ts:10 | a lookup by a row's username finds that row |
| `Routes.LoginAfterRegister` | server/routes.ts:63-95 | a user whose stored password is the hash of p logs in with p, as themself |
| `Routes.LoginFailuresIndistinguishable` | server/routes.ts:89-92 | an unknown username and a wrong password get the same reply |
| `Routes.Logout` | server/routes.ts:98-102 | the session is destroyed and 200 is sent |
| `Routes.Me` | server/routes.ts:104-108 | without a session, 401; otherwise the session's user record, or an empty body when no row has that id |
| `Routes.ListWorkers` | server/routes.ts:111-114 | the worker search, open to everyone |
| `Routes.AverageRating` | server/routes.ts:120-124 | 0 with no reviews; otherwise the mean, whose product with the count is the sum of the ratings |
| `Routes.SumRatingsBounds` | server/routes.ts:123 | ratings in the documented range give a sum between n and 5n |
| `Routes.AverageRatingBounds` | server/routes.ts:120-124 | ratings in 1..5 give a mean in 1..5 |
| `Routes.AverageRatingExample` | server/routes.ts:120-124 | ratings 5, 3 and 4 average to 4 |
| `Routes.GetWorkerProfile` | server/routes.ts:116-127 | 404 "Worker not found" exactly when no row with that id is a worker; otherwise the worker with the mean of their ratings |
| `Routes.ToggleAvailability` | server/routes.ts:129-135 | without a session, 401 and nothing changes; a caller who is not a stored worker gets 403 and nothing changes; otherwise only the caller's own row changes, and only in `isAvailable` |
| `Routes.AppointmentInsert` | server/routes.ts:139-142 | the stored customer is the session's id, whatever the body says |
| `Routes.CreateAppointment` | server/routes.ts:138-144 | without a session, 401 and nothing changes; otherwise exactly one appointment is appended, with the session's id as its customer |
| `Routes.ListAppointments` | server/routes.ts:146-152 | without a session, 401; with no row for the session's id, 401 as status text; otherwise exactly the caller's appointments, newest first |
| `Routes.AdminListsAsWorker` | server/routes.ts:150 | an admin sees the list a worker with the same id would see |
| `Routes.RequestVisitTime` | server/routes.ts:159 | a visit time reaches the update only when it is a non-empty text |
| `Routes.UpdateStatus` | server/routes.ts:154-162 | without a session, 401 and nothing changes; with any session, whatever the caller's role and whoever owns the appointment, the unguarded status update |
| `Routes.CreateReview` | server/routes.ts:165-171 | without a session, 401 and nothing changes; otherwise one review is appended, with the session's id as its customer |
| `Routes.CreateReport` | server/routes.ts:174-180 | without a session, 401 and nothing changes; otherwise one report is appended, with the session's id as its reporter |
| `Routes.ListReports` | server/routes.ts:182-189 | without a session, 401; a caller who is not a stored admin gets 403, and only such a caller does; an admin gets every report |
| `Routes.AdminStatistics` | server/routes.ts:191-197 | without a session, 401; 403 exactly for callers who are not stored admins; an admin gets the three counts |
| `SharedRoutes.ParamText` | shared/routes.ts:160 | `String(value)`: a text stays as it is and an integer becomes its decimal text |
| `SharedRoutes.ApplyParam` | shared/routes.ts:158-162 | a parameter whose `:key` is absent leaves the url; otherwise only the first occurrence is replaced by the value's text |
| `SharedRoutes.BuildUrl` | shared/routes.ts:155-165 | with no parameters, the path unchanged; otherwise the parameters applied one after another, each to the result of the previous |
| `SharedRoutes.ApplyParamsAppend` | shared/routes.ts:158-162 | applying two parameter lists in turn is applying their concatenation |
| `SharedRoutes.ApplyParamsAbsent` | shared/routes.ts:159 | parameters whose placeholders never occur leave the url as it is |
| `SharedRoutes.FillPlaceholder` | shared/routes.ts:158-162 | a template whose only `:key` follows a prefix without ":" gets the value's text in its place, with the prefix and the rest kept |
| `SharedRoutes.UpdateStatusUrl` | shared/routes.ts:103 | the status path for appointment n is "/api/appointments/" then the digits of n then "/status" |
| `SharedRoutes.ParseStatusUpdate` | shared/routes.ts:104-107 | a status update asks for exactly "accepted", "rejected" or "completed", never pending; the visit time passes as given |
| `App.ProtectedRoute` | client/src/App.tsx:14-39 | while loading, only the spinner; with no user, to "/auth"; an allowed role renders the page; a disallowed worker goes to "/worker-dashboard", any other disallowed role to "/dashboard" |
| `App.Resolve` | client/src/App.tsx:41-60 | "/dashboard" admits user and admin, "/worker-dashboard" admits worker and admin; any other exact path is public or not found (wouter's looser matching is under Left out) |
| `App.RedirectSettles` | client/src/App.tsx:31-55 | a user turned away from a dashboard lands on a page that renders for them, so the gate never loops |
| `App.DashboardAccess` | client/src/App.tsx:48-55 | which roles each dashboard shows itself to |
| `AuthPage.LoggedInRedirect` | client/src/pages/AuthPage.tsx:28-34 | a logged-in worker goes to "/worker-dashboard", an admin to "/admin", anyone else to "/dashboard"; without a user the forms show |
| `AuthPage.AdminRedirectUnrouted` | client/src/pages/AuthPage.tsx:31 | the admin's redirect target is a not-found page |
| `AuthPage.LoggedInRedirectRenders` | client/src/pages/AuthPage.tsx:28-34 | a customer's or a worker's redirect target renders for them |
| `AuthPage.LoginFormErrors` | client/src/pages/AuthPage.tsx:19-22 | the login form is accepted exactly when neither field is empty, with one message per empty field |
| `AuthPage.DecimalValueOfNatText` | client/src/pages/AuthPage.tsx:172 | reading back the decimal text of a number gives the number |
| `AuthPage.ToNumber` | client/src/pages/AuthPage.tsx:172 | `Number` keeps a number, reads `null` as 0 and `undefined` as NaN |
| `AuthPage.TypedChargeIsSent` | client/src/pages/AuthPage.tsx:172 | a charge typed as decimal digits becomes that number |
| `AuthPage.SubmitRegistration` | client/src/pages/AuthPage.tsx:165-175 | a non-worker body loses `workerType` and `visitingCharge`; a worker body keeps them, with the charge converted to a number; every other field is copied |
| `AuthPage.WorkerFieldsOnlyForWorkers` | client/src/pages/AuthPage.tsx:166-169 | only a worker's body carries worker fields |
| `AuthPage.DefaultSubmission` | client/src/pages/AuthPage.tsx:150-160 | the untouched defaults make a customer body with no worker fields |
| `AuthPage.WorkerChargeSent` | client/src/pages/AuthPage.tsx:170-173 | a worker's typed charge is sent as a number |
| `WorkerDashboard.TabStatus` | client/src/pages/WorkerDashboard.tsx:54-62 | the tabs pass "pending", "accepted" and "completed" |
| `WorkerDashboard.AppointmentList` | client/src/pages/WorkerDashboard.tsx:75-79 | exactly the appointments whose status matches the prop ("history": completed or rejected), in order; nothing before the data arrives |
| `WorkerDashboard.TabContents` | client/src/pages/WorkerDashboard.tsx:54-79 | each tab, as written, shows exactly the appointments of its one status |
| `WorkerDashboard.RejectedInNoTab` | client/src/pages/WorkerDashboard.tsx:54-79 | a rejected appointment shows in no tab |
| `WorkerDashboard.CorrectedTabContents` | client/src/pages/WorkerDashboard.tsx:75-78 | with the history tab passing "history", that tab shows completed and rejected appointments |
| `WorkerDashboard.CorrectedTabsPartition` | client/src/pages/WorkerDashboard.tsx:75-78 | with that correction every appointment shows in exactly one tab |
| `WorkerDashboard.Actions` | client/src/pages/WorkerDashboard.tsx:158-192 | Accept and Reject are offered exactly for pending appointments, Complete exactly for accepted ones |
| `WorkerDashboard.HandleAccept` | client/src/pages/WorkerDashboard.tsx:102-111 | nothing is sent while the visit time is empty; otherwise "accepted" with the visit time |
| `WorkerDashboard.HandleReject` | client/src/pages/WorkerDashboard.tsx:117-119 | "rejected", with no visit time |
| `WorkerDashboard.HandleComplete` | client/src/pages/WorkerDashboard.tsx:113-115 | "completed", with no visit time |
| `WorkerDashboard.DashboardRequestsLegal` | client/src/pages/WorkerDashboard.tsx:158-192 | every request a shown button sends is a legal transition from the current status, and passes the status-update input schema |
| `WorkerDashboard.AcceptedHasVisitTime` | client/src/pages/WorkerDashboard.tsx:102-110 | an appointment accepted from the dashboard has a visit time once the server applies the request |
| `WorkerDashboard.GuardedStatus` | client/src/pages/WorkerDashboard.tsx:158-192 | the life cycle as a guarded transition: refused exactly when illegal, otherwise the server's update |
| `WorkerDashboard.GuardAgreesOnDashboardRequests` | client/src/pages/WorkerDashboard.tsx:158-192 | for the dashboard's own requests, the guarded and the unguarded update agree |
| `WorkerDashboard.UnguardedReopens` | server/storage.ts:104-110 | the server sets a completed appointment back to pending, which the guard refuses |

## Left out

- I/O and frameworks. The following become plain function arguments and results:
  - express routing and sessions: a handler takes and returns the session's user id;
  - the MemoryStore session expiry;
  - drizzle and Postgres: sequences in memory;
  - fetch and react-query on the client.
- Concurrency. Every request and every store operation is atomic and sequential. The `Promise.all` population runs in order, and the interleaving of simultaneous requests is not modelled.
- Routes.Register: the 500 "Internal server error" branch is absent. `createUser` throws there for reasons the model does not represent: a concurrent duplicate username, or a value out of range for a 32-bit `integer` column (a `visitingCharge` above 2147483647 passes the generated insert schema).
- Schema.User: `visitingCharge` is a Postgres 32-bit `integer` column, and `id` a 32-bit `serial`. The model's fields are unbounded, so an insert that Postgres refuses as out of range succeeds in the model.
- Schema.Appointment: `userId`, `workerId` and `id` are 32-bit in the database and unbounded in the model.
- Schema.Review: `rating`, `workerId`, `userId`, `appointmentId` and `id` are 32-bit in the database and unbounded in the model.
- Schema.Report: `reporterId`, `reportedWorkerId` and `id` are 32-bit in the database and unbounded in the model.
- Storage.DatabaseStorage: the serial counters never run out, where a Postgres `serial` stops at 2147483647.
- SharedRoutes.ParamText: an integer is written with all its digits, through Text.IntText. JavaScript's `String(n)` writes exponent form ("1e+21") once |n| reaches 10^21.
- AuthPage.ToNumber: long digit text is read exactly. `Number` rounds beyond 2^53.
- Routes.AverageRating: the mean is an exact rational, where the source divides in floating point.
- Lookups by a body field: request bodies and query strings arrive already decoded into typed records. A missing or mistyped field, which makes only the database call throw, is not modelled; `req.query` holding arrays is not modelled either.
- Storage.DatabaseStorage.UpdateAppointmentStatus: the status is one of the four values. A text column with an enum hint also accepts other text, which the model does not represent. An update with neither a status nor a visit time, which drizzle refuses, is not modelled either.
- Routes.UpdateStatus: `Number(req.params.id)` is an integer here. A non-numeric id (NaN) is not modelled.
- Routes.GetWorkerProfile: same as Routes.UpdateStatus, the id is an integer.
- SharedRoutes.ParamValue: numbers are integers, so `String` of a fraction is not modelled. The order of `Object.entries`, which puts integer-like keys first, is the given order of the entries.
- Text.ReplaceFirst: special `$` patterns in the replacement text are not interpreted.
- AuthPage.ToNumber: only digits-only text is read. Text with spaces, signs, a decimal point, an exponent or a hex prefix is NaN in the model. The zod resolver's validation, which runs before `onSubmit`, is not modelled.
- AuthPage.WorkerChargeSent: the form schema may refuse a text `visitingCharge` before `onSubmit` runs. In that case the text-charge path that this lemma and AuthPage.TypedChargeIsSent describe is unreachable in the real form, and only the number and null cases of AuthPage.ToNumber occur.
- App.Resolve: the paths are compared as exact strings. wouter's `Route` matches case-insensitively and accepts one trailing slash, so "/dashboard/" or "/DASHBOARD" shows the protected dashboard, where the model gives the not-found page.
- Date handling is replaced by function parameters: `new Date(...)`, `toISOString()` and the timestamps' wall-clock values. `createdAt` is a counter shared by all tables.
- The crypto primitives are abstract:
  - scrypt is an uninterpreted deterministic function;
  - `randomBytes(16)` is an input;
  - `timingSafeEqual` is plain equality, with its length check modelled as the throwing (`None`) case.
- `console.log` in the seed is left out.
- Rendering is left out: JSX, layout, the status badge, the date formatting, and the Navbar, Home, UserDashboard and hook files.
- An explicit `null` for `isAvailable` on insert is left out; an absent value gets the default true.
- Routes.AppointmentBody: the body types carry no `id` or `createdAt`, though the spread body would pass them to the insert. A client-chosen id could break the ascending ids that `Valid()` assumes, and a duplicate one makes the insert throw. The model always uses the serial id and the clock. The same holds for Routes.ReviewBody and Routes.ReportBody.
- Storage.DatabaseStorage.GetWorkers: the query has no `ORDER BY`, so the database promises no order. The model fixes insertion order. The same holds for Storage.DatabaseStorage.GetWorkerReviews, which the model lists in ascending id order.
- Schema.Report: the report `status` column has a default but no `.notNull()`. An explicit `null` status is left out, as for `isAvailable`.

## Findings

| source | as written | input that shows it | evidently intended | confidence | as-written member | corrected member |
|---|---|---|---|---|---|---|
| client/src/pages/WorkerDashboard.tsx:60-62 | the History tab passes status "completed", so the list's `'history'` branch (completed or rejected) is dead | a worker with one appointment whose status is "rejected": it shows in none of the three tabs | the History tab passes "history" and shows completed and rejected appointments, so the tabs partition the worker's appointments | not executed | `WorkerDashboard.RejectedInNoTab` | `WorkerDashboard.CorrectedTabsPartition` |
