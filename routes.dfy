/**
 * The HTTP handlers of the server: what each endpoint answers and what it
 * does to the store and to the caller's session.
 *
 * The session is the optional `userId` it holds. A handler returns the
 * response together with the session as it stands afterwards. Request
 * bodies are given already decoded; random salts and scrypt are parameters.
 */
module Routes {
  import opened Wrappers
  import opened Schema
  import opened Storage
  import Passwords

  /** The JSON (or status text) a handler sends. */
  datatype Payload =
    | UserJson(user: Option<User>)
    | UsersJson(users: seq<User>)
    | WorkerProfileJson(worker: User, averageRating: real)
    | AppointmentJson(appointment: Option<Appointment>)
    | AppointmentsJson(appointments: seq<PopulatedAppointment>)
    | ReviewJson(review: Review)
    | ReportJson(report: Report)
    | ReportsJson(reports: seq<PopulatedReport>)
    | StatsJson(stats: AdminStats)
    | MessageJson(message: string)
    | StatusText(text: string)

  /**
   * `Unhandled` is a handler whose promise rejects (an exception outside any
   * `try`): no response of the handler's own is sent.
   */
  datatype Response = Response(code: int, payload: Payload) | Unhandled

  /** A response and the session after the request. */
  datatype Reply = Reply(response: Response, session: Option<nat>)

  /** `requireAuth`: a missing id and the id 0 are both falsy. */
  predicate Authenticated(session: Option<nat>): (b: bool)
    ensures !b <==> session.None? || session == Some(0)
  {
    session.Some? && session.value != 0
  }

  /** Serial ids start at 1, so the session id of every stored user passes the guard. */
  lemma StoredUserAuthenticates(db: DatabaseStorage, u: User)
    requires db.Valid() && u in db.users
    ensures Authenticated(Some(u.id))
  {
    var i :| 0 <= i < |db.users| && db.users[i] == u;
  }

  const Unauthorized: Response := Response(401, MessageJson("Unauthorized"))
  const UnauthorizedStatus: Response := Response(401, StatusText("Unauthorized"))
  const Forbidden: Response := Response(403, StatusText("Forbidden"))
  const InvalidCredentials: Response := Response(401, MessageJson("Invalid credentials"))
  const UsernameTaken: Response := Response(400, MessageJson("Username already exists"))
  const WorkerNotFound: Response := Response(404, MessageJson("Worker not found"))

  const AdminUsername: string := "admin@crewhub.com"
  const AdminPassword: string := "admin"

  // ---------------------------------------------------------------------
  // auth

  /** The register body after schema parsing: the insert, or the first validation message. */
  datatype RegisterInput = Parsed(input: InsertUser) | Invalid(message: string)

  /**
   * `POST /api/register`: a taken username is refused with 400; otherwise
   * the user is stored with the hashed password and the session is logged in.
   */
  method Register(db: DatabaseStorage, scrypt: Passwords.Scrypt, salt: seq<Passwords.Byte>,
                  body: RegisterInput, session: Option<nat>) returns (r: Reply)
    requires db.Valid() && |salt| == Passwords.SaltLength
    modifies db
    ensures db.Valid()
    ensures body.Invalid? ==>
      r == Reply(Response(400, MessageJson(body.message)), session) && unchanged(db)
    ensures body.Parsed? && old(db.GetUserByUsername(body.input.username)).Some? ==>
      r == Reply(UsernameTaken, session) && unchanged(db)
    ensures body.Parsed? && old(db.GetUserByUsername(body.input.username)).None? ==>
      var stored := body.input.(password := Passwords.HashPassword(scrypt, body.input.password, salt));
      var u := UserRow(old(db.nextUserId), stored, old(db.clock));
      && db.users == old(db.users) + [u]
      && u.password == Passwords.HashPassword(scrypt, body.input.password, salt)
      && r == Reply(Response(201, UserJson(Some(u))), Some(u.id))
      && db.appointments == old(db.appointments) && db.reviews == old(db.reviews)
      && db.reports == old(db.reports)
    ensures body.Parsed? && old(db.GetUserByUsername(body.input.username)).None? ==>
      && db.nextUserId == old(db.nextUserId) + 1 && db.clock == old(db.clock) + 1
      && db.nextAppointmentId == old(db.nextAppointmentId) && db.nextReviewId == old(db.nextReviewId)
      && db.nextReportId == old(db.nextReportId)
  {
    if body.Invalid? {
      return Reply(Response(400, MessageJson(body.message)), session);
    }
    var input := body.input;
    if db.GetUserByUsername(input.username).Some? {
      return Reply(UsernameTaken, session);
    }
    var hashedPassword := Passwords.HashPassword(scrypt, input.password, salt);
    var created := db.CreateUser(input.(password := hashedPassword));
    var user := created.value;
    r := Reply(Response(201, UserJson(Some(user))), Some(user.id));
  }

  /** The literal admin credentials, honoured only while the admin account exists. */
  predicate AdminBypass(db: DatabaseStorage, username: string, password: string)
    reads db
  {
    username == AdminUsername && password == AdminPassword && db.GetUserByUsername(AdminUsername).Some?
  }

  /**
   * `POST /api/login`. An unknown username and a wrong password get the same
   * 401 answer; a stored password without "." or of the wrong length makes
   * the comparison throw.
   */
  function Login(db: DatabaseStorage, scrypt: Passwords.Scrypt, username: string, password: string,
                 session: Option<nat>): (r: Reply)
    reads db
    ensures AdminBypass(db, username, password) ==>
      r == Reply(Response(200, UserJson(db.GetUserByUsername(AdminUsername))), Some(db.GetUserByUsername(AdminUsername).value.id))
    ensures !AdminBypass(db, username, password) ==>
      (r.response == InvalidCredentials <==>
        (db.GetUserByUsername(username).None?
         || Passwords.ComparePassword(scrypt, db.GetUserByUsername(username).value.password, password) == Some(false)))
    ensures !AdminBypass(db, username, password) && r.response.Response? && r.response.code == 200 ==>
      exists u :: (u in db.users && u.username == username && r == Reply(Response(200, UserJson(Some(u))), Some(u.id))
                   && Passwords.ComparePassword(scrypt, u.password, password) == Some(true))
    ensures r.response == InvalidCredentials || r.response.Unhandled? ==> r.session == session
  {
    if AdminBypass(db, username, password) then
      var admin := db.GetUserByUsername(AdminUsername).value;
      Reply(Response(200, UserJson(Some(admin))), Some(admin.id))
    else
      match db.GetUserByUsername(username)
      case None => Reply(InvalidCredentials, session)
      case Some(user) =>
        match Passwords.ComparePassword(scrypt, user.password, password)
        case None => Reply(Unhandled, session)
        case Some(ok) =>
          if ok then Reply(Response(200, UserJson(Some(user))), Some(user.id))
          else Reply(InvalidCredentials, session)
  }

  /** The username column is unique, so the row found by username is the one that has it. */
  lemma {:induction false} UsernameUnique(db: DatabaseStorage, u: User)
    requires db.Valid() && u in db.users
    ensures db.GetUserByUsername(u.username) == Some(u)
  {
    var r := db.GetUserByUsername(u.username);
    var i :| 0 <= i < |db.users| && db.users[i] == u;
    var j :| 0 <= j < |db.users| && db.users[j] == r.value;
    assert i == j by {
      assert db.users[i].username == db.users[j].username;
    }
  }

  /** Whoever registered with a password logs in with it and is logged in as themself. */
  lemma LoginAfterRegister(db: DatabaseStorage, scrypt: Passwords.Scrypt, salt: seq<Passwords.Byte>,
                           u: User, password: string, session: Option<nat>)
    requires db.Valid() && u in db.users && |salt| == Passwords.SaltLength
    requires u.password == Passwords.HashPassword(scrypt, password, salt)
    ensures Login(db, scrypt, u.username, password, session) == Reply(Response(200, UserJson(Some(u))), Some(u.id))
  {
    UsernameUnique(db, u);
    Passwords.CompareOwnHash(scrypt, password, salt);
  }

  /** The two failed logins cannot be told apart by their reply. */
  lemma LoginFailuresIndistinguishable(db: DatabaseStorage, scrypt: Passwords.Scrypt,
                                       unknown: string, known: string, wrong: string, session: Option<nat>)
    requires db.GetUserByUsername(unknown).None?
    requires db.GetUserByUsername(known).Some?
    requires Passwords.ComparePassword(scrypt, db.GetUserByUsername(known).value.password, wrong) == Some(false)
    requires !AdminBypass(db, known, wrong)
    ensures Login(db, scrypt, unknown, wrong, session) == Login(db, scrypt, known, wrong, session)
    ensures Login(db, scrypt, known, wrong, session) == Reply(InvalidCredentials, session)
  {
    assert !AdminBypass(db, unknown, wrong) by {
      if unknown == AdminUsername {
        assert db.GetUserByUsername(AdminUsername).None?;
      }
    }
  }

  /** `POST /api/logout`: the session is destroyed. */
  function Logout(session: Option<nat>): (r: Reply)
    ensures r.session.None? && r.response == Response(200, StatusText("OK"))
  {
    Reply(Response(200, StatusText("OK")), None)
  }

  /** `GET /api/user`: the session's user record (an empty body when the row is gone). */
  function Me(db: DatabaseStorage, session: Option<nat>): (r: Response)
    reads db
    ensures !Authenticated(session) <==> r == UnauthorizedStatus
    ensures Authenticated(session) ==>
      r.Response? && r.code == 200 && r.payload.UserJson?
      && (r.payload.user.Some? ==> r.payload.user.value in db.users && r.payload.user.value.id == session.value)
      && (r.payload.user.None? <==> forall u :: u in db.users ==> u.id != session.value)
  {
    if !Authenticated(session) then UnauthorizedStatus
    else Response(200, UserJson(db.GetUser(session.value)))
  }

  // ---------------------------------------------------------------------
  // workers

  /** `GET /api/workers`: open to everyone. */
  function ListWorkers(db: DatabaseStorage, query: WorkerFilters): (r: Response)
    reads db
    ensures r.Response? && r.code == 200 && r.payload.UsersJson?
    ensures forall u :: u in r.payload.users <==> u in db.users && MatchesFilters(u, query)
  {
    Response(200, UsersJson(db.GetWorkers(query)))
  }

  /** The running total of the ratings, from the first review on (`reduce` with 0). */
  function SumRatings(reviews: seq<Review>): int {
    if reviews == [] then 0 else SumRatings(reviews[..|reviews| - 1]) + reviews[|reviews| - 1].rating
  }

  /** The mean rating; 0 when there are no reviews. Exact, where the source divides in floating point. */
  function AverageRating(reviews: seq<Review>): (avg: real)
    ensures reviews == [] ==> avg == 0.0
    ensures reviews != [] ==> avg * (|reviews| as real) == SumRatings(reviews) as real
  {
    if |reviews| > 0 then SumRatings(reviews) as real / (|reviews| as real) else 0.0
  }

  lemma {:induction false} SumRatingsBounds(reviews: seq<Review>)
    requires forall i :: 0 <= i < |reviews| ==> DocumentedRating(reviews[i].rating)
    ensures |reviews| <= SumRatings(reviews) <= 5 * |reviews|
  {
    if reviews != [] {
      SumRatingsBounds(reviews[..|reviews| - 1]);
    }
  }

  /** With ratings in the documented range, the mean lies in it as well. */
  lemma AverageRatingBounds(reviews: seq<Review>)
    requires reviews != []
    requires forall i :: 0 <= i < |reviews| ==> DocumentedRating(reviews[i].rating)
    ensures 1.0 <= AverageRating(reviews) <= 5.0
  {
    SumRatingsBounds(reviews);
    MeanBounds(SumRatings(reviews) as real, |reviews| as real);
  }

  lemma ProductPositive(x: real, y: real)
    requires x > 0.0 && y > 0.0
    ensures x * y > 0.0
  {
  }

  /** A total between n and 5n over n items has a mean between 1 and 5. */
  lemma MeanBounds(sum: real, n: real)
    requires n > 0.0 && n <= sum <= 5.0 * n
    ensures 1.0 <= sum / n <= 5.0
  {
    var q := sum / n;
    assert q * n == sum;
    assert 1.0 <= q by {
      if q < 1.0 {
        ProductPositive(1.0 - q, n);
      }
    }
    assert q <= 5.0 by {
      if q > 5.0 {
        ProductPositive(q - 5.0, n);
      }
    }
  }

  /** Ratings 5, 3 and 4 average to 4. */
  lemma AverageRatingExample(a: Review, b: Review, c: Review)
    requires a.rating == 5 && b.rating == 3 && c.rating == 4
    ensures AverageRating([a, b, c]) == 4.0
  {
    assert [a, b, c][..2] == [a, b];
    assert [a, b][..1] == [a];
    assert [a][..0] == [];
    assert SumRatings([a]) == 5;
    assert SumRatings([a, b]) == 8;
    assert SumRatings([a, b, c]) == 12;
  }

  /** `GET /api/workers/:id`: the worker with their mean rating, or 404 for a missing id or a non-worker. */
  function GetWorkerProfile(db: DatabaseStorage, id: int): (r: Response)
    requires db.Valid()
    reads db
    ensures r == WorkerNotFound <==> forall u :: u in db.users && u.id == id ==> u.role != Worker
    ensures r != WorkerNotFound ==>
      r.Response? && r.code == 200 && r.payload.WorkerProfileJson?
      && r.payload.worker in db.users && r.payload.worker.id == id && r.payload.worker.role == Worker
      && r.payload.averageRating == AverageRating(db.GetWorkerReviews(id))
  {
    match db.GetWorker(id)
    case None => WorkerNotFound
    case Some(worker) =>
      Response(200, WorkerProfileJson(worker, AverageRating(db.GetWorkerReviews(worker.id))))
  }

  /**
   * `PATCH /api/workers/availability`: only a worker may call it, and the
   * only row it touches is the caller's own.
   */
  method ToggleAvailability(db: DatabaseStorage, session: Option<nat>, isAvailable: bool) returns (r: Response)
    requires db.Valid()
    modifies db
    ensures db.Valid()
    ensures !Authenticated(session) ==> r == Unauthorized && unchanged(db)
    ensures Authenticated(session) && (old(db.GetUser(session.value)).None? || old(db.GetUser(session.value)).value.role != Worker) ==>
      r == Forbidden && unchanged(db)
    ensures Authenticated(session) && old(db.GetUser(session.value)).Some? && old(db.GetUser(session.value)).value.role == Worker ==>
      && db.users == WithAvailability(old(db.users), session.value, isAvailable)
      && r == Response(200, UserJson(db.GetUser(session.value)))
      && db.appointments == old(db.appointments) && db.reviews == old(db.reviews) && db.reports == old(db.reports)
    ensures db.nextUserId == old(db.nextUserId) && db.nextAppointmentId == old(db.nextAppointmentId)
    ensures db.nextReviewId == old(db.nextReviewId) && db.nextReportId == old(db.nextReportId) && db.clock == old(db.clock)
    ensures Authenticated(session) ==> OnlyAvailabilityOf(old(db.users), db.users, session.value)
  {
    if !Authenticated(session) {
      return Unauthorized;
    }
    var user := db.GetUser(session.value);
    if user.None? || user.value.role != Worker {
      return Forbidden;
    }
    WithAvailabilityTouchesOnly(db.users, user.value.id, isAvailable);
    var updated := db.UpdateWorkerAvailability(user.value.id, isAvailable);
    r := Response(200, UserJson(updated));
  }

  // ---------------------------------------------------------------------
  // appointments

  /**
   * The body of `POST /api/appointments`, as the handler spreads it: a
   * `userId` in it is overwritten by the session's, while a `status` or
   * `visitTime` in it reaches the insert.
   */
  datatype AppointmentBody = AppointmentBody(
    userId: Option<int>,
    workerId: int,
    issueDescription: string,
    address: string,
    status: Option<AppointmentStatus>,
    visitTime: Option<Timestamp>)

  function AppointmentInsert(callerId: int, body: AppointmentBody): (v: InsertAppointment)
    ensures v.userId == callerId && v.workerId == body.workerId
    ensures v.status == body.status && v.visitTime == body.visitTime
  {
    InsertAppointment(callerId, body.workerId, body.issueDescription, body.address, body.status, body.visitTime)
  }

  method CreateAppointment(db: DatabaseStorage, session: Option<nat>, body: AppointmentBody) returns (r: Response)
    requires db.Valid()
    modifies db
    ensures db.Valid()
    ensures !Authenticated(session) ==> r == Unauthorized && unchanged(db)
    ensures Authenticated(session) ==>
      var a := AppointmentRow(old(db.nextAppointmentId), AppointmentInsert(session.value, body), old(db.clock));
      && db.appointments == old(db.appointments) + [a]
      && a.userId == session.value
      && r == Response(201, AppointmentJson(Some(a)))
      && db.users == old(db.users) && db.reviews == old(db.reviews) && db.reports == old(db.reports)
    ensures Authenticated(session) ==>
      && db.nextAppointmentId == old(db.nextAppointmentId) + 1 && db.clock == old(db.clock) + 1
      && db.nextUserId == old(db.nextUserId) && db.nextReviewId == old(db.nextReviewId)
      && db.nextReportId == old(db.nextReportId)
  {
    if !Authenticated(session) {
      return Unauthorized;
    }
    var a := db.CreateAppointment(AppointmentInsert(session.value, body));
    r := Response(201, AppointmentJson(Some(a)));
  }

  /**
   * `GET /api/appointments`: the caller's appointments, newest first; as the
   * customer for role "user", as the worker for every other role.
   */
  function ListAppointments(db: DatabaseStorage, session: Option<nat>): (r: Response)
    requires db.Valid()
    reads db
    ensures !Authenticated(session) ==> r == Unauthorized
    ensures Authenticated(session) && db.GetUser(session.value).None? ==> r == UnauthorizedStatus
    ensures Authenticated(session) && db.GetUser(session.value).Some? ==>
      var caller := db.GetUser(session.value).value;
      && r.Response? && r.code == 200 && r.payload.AppointmentsJson?
      && |r.payload.appointments| == |db.ScopedAppointments(caller.id, caller.role)|
      && (forall a :: a in db.ScopedAppointments(caller.id, caller.role) <==>
            a in db.appointments && (if caller.role == Customer then a.userId == session.value else a.workerId == session.value))
      && (forall i :: 0 <= i < |r.payload.appointments| ==>
            r.payload.appointments[i].appointment == db.ScopedAppointments(caller.id, caller.role)[i])
  {
    if !Authenticated(session) then Unauthorized
    else match db.GetUser(session.value)
      case None => UnauthorizedStatus
      case Some(caller) => Response(200, AppointmentsJson(db.GetAppointments(caller.id, caller.role)))
  }

  /** An admin's list is the one a worker with the same id would get. */
  lemma AdminListsAsWorker(db: DatabaseStorage, session: Option<nat>)
    requires db.Valid() && Authenticated(session)
    requires db.GetUser(session.value).Some? && db.GetUser(session.value).value.role == Admin
    ensures ListAppointments(db, session).payload.appointments == db.GetAppointments(session.value, Worker)
  {
    var caller := db.GetUser(session.value).value;
    db.ScopedAppointmentsDetermined(caller.id, Worker, db.ScopedAppointments(caller.id, Admin));
  }

  /** A visit time in the body becomes a date when it is a non-empty text; otherwise it is left out. */
  function RequestVisitTime(visitTime: Option<string>, parseDate: string -> Timestamp): (t: Option<Timestamp>)
    ensures t.Some? <==> visitTime.Some? && visitTime.value != ""
    ensures t.Some? ==> t.value == parseDate(visitTime.value)
  {
    if visitTime.Some? && visitTime.value != "" then Some(parseDate(visitTime.value)) else None
  }

  /**
   * `PATCH /api/appointments/:id/status`: any logged-in caller may set any
   * appointment's status; neither ownership nor the current status is checked.
   */
  method UpdateStatus(db: DatabaseStorage, session: Option<nat>, id: int, status: AppointmentStatus,
                      visitTime: Option<string>, parseDate: string -> Timestamp) returns (r: Response)
    requires db.Valid()
    modifies db
    ensures db.Valid()
    ensures !Authenticated(session) ==> r == Unauthorized && unchanged(db)
    ensures Authenticated(session) ==>
      && db.appointments == WithStatus(old(db.appointments), id, status, RequestVisitTime(visitTime, parseDate))
      && r == Response(200, AppointmentJson(First(db.appointments, (a: Appointment) => a.id == id)))
      && db.users == old(db.users) && db.reviews == old(db.reviews) && db.reports == old(db.reports)
    ensures db.nextUserId == old(db.nextUserId) && db.nextAppointmentId == old(db.nextAppointmentId)
    ensures db.nextReviewId == old(db.nextReviewId) && db.nextReportId == old(db.nextReportId) && db.clock == old(db.clock)
  {
    if !Authenticated(session) {
      return Unauthorized;
    }
    var updated := db.UpdateAppointmentStatus(id, status, RequestVisitTime(visitTime, parseDate));
    r := Response(200, AppointmentJson(updated));
  }

  // ---------------------------------------------------------------------
  // reviews and reports

  /** The body of `POST /api/reviews`; its `userId`, if any, is overwritten. */
  datatype ReviewBody = ReviewBody(userId: Option<int>, appointmentId: int, workerId: int, rating: int, comment: Option<string>)

  method CreateReview(db: DatabaseStorage, session: Option<nat>, body: ReviewBody) returns (r: Response)
    requires db.Valid()
    modifies db
    ensures db.Valid()
    ensures !Authenticated(session) ==> r == Unauthorized && unchanged(db)
    ensures Authenticated(session) ==>
      var v := InsertReview(body.appointmentId, body.workerId, session.value, body.rating, body.comment);
      && db.reviews == old(db.reviews) + [ReviewRow(old(db.nextReviewId), v, old(db.clock))]
      && r == Response(201, ReviewJson(ReviewRow(old(db.nextReviewId), v, old(db.clock))))
      && db.users == old(db.users) && db.appointments == old(db.appointments) && db.reports == old(db.reports)
    ensures Authenticated(session) ==>
      && db.nextReviewId == old(db.nextReviewId) + 1 && db.clock == old(db.clock) + 1
      && db.nextUserId == old(db.nextUserId) && db.nextAppointmentId == old(db.nextAppointmentId)
      && db.nextReportId == old(db.nextReportId)
  {
    if !Authenticated(session) {
      return Unauthorized;
    }
    var review := db.CreateReview(InsertReview(body.appointmentId, body.workerId, session.value, body.rating, body.comment));
    r := Response(201, ReviewJson(review));
  }

  /** The body of `POST /api/reports`; its `reporterId`, if any, is overwritten. */
  datatype ReportBody = ReportBody(reporterId: Option<int>, reportedWorkerId: int, reason: string, status: Option<ReportStatus>)

  method CreateReport(db: DatabaseStorage, session: Option<nat>, body: ReportBody) returns (r: Response)
    requires db.Valid()
    modifies db
    ensures db.Valid()
    ensures !Authenticated(session) ==> r == Unauthorized && unchanged(db)
    ensures Authenticated(session) ==>
      var v := InsertReport(session.value, body.reportedWorkerId, body.reason, body.status);
      && db.reports == old(db.reports) + [ReportRow(old(db.nextReportId), v, old(db.clock))]
      && r == Response(201, ReportJson(ReportRow(old(db.nextReportId), v, old(db.clock))))
      && db.users == old(db.users) && db.appointments == old(db.appointments) && db.reviews == old(db.reviews)
    ensures Authenticated(session) ==>
      && db.nextReportId == old(db.nextReportId) + 1 && db.clock == old(db.clock) + 1
      && db.nextUserId == old(db.nextUserId) && db.nextAppointmentId == old(db.nextAppointmentId)
      && db.nextReviewId == old(db.nextReviewId)
  {
    if !Authenticated(session) {
      return Unauthorized;
    }
    var report := db.CreateReport(InsertReport(session.value, body.reportedWorkerId, body.reason, body.status));
    r := Response(201, ReportJson(report));
  }

  /** The caller is a stored user whose role is admin. */
  predicate IsAdminCaller(db: DatabaseStorage, session: Option<nat>)
    reads db
  {
    Authenticated(session) && db.GetUser(session.value).Some? && db.GetUser(session.value).value.role == Admin
  }

  /** `GET /api/admin/reports`. */
  function ListReports(db: DatabaseStorage, session: Option<nat>): (r: Response)
    requires db.Valid()
    reads db
    ensures !Authenticated(session) ==> r == Unauthorized
    ensures Authenticated(session) ==> (r == Forbidden <==> !IsAdminCaller(db, session))
    ensures IsAdminCaller(db, session) ==>
      r.Response? && r.code == 200 && r.payload.ReportsJson? && |r.payload.reports| == |db.reports|
      && (forall x :: x in db.reports <==> exists i :: 0 <= i < |r.payload.reports| && r.payload.reports[i].report == x)
  {
    if !Authenticated(session) then Unauthorized
    else if !IsAdminCaller(db, session) then Forbidden
    else Response(200, ReportsJson(db.GetReports()))
  }

  /** `GET /api/admin/stats`. */
  function AdminStatistics(db: DatabaseStorage, session: Option<nat>): (r: Response)
    reads db
    ensures !Authenticated(session) ==> r == Unauthorized
    ensures Authenticated(session) ==> (r == Forbidden <==> !IsAdminCaller(db, session))
    ensures IsAdminCaller(db, session) ==>
      r.Response? && r.code == 200 && r.payload.StatsJson?
      && r.payload.stats.totalUsers == Count(db.users, IsCustomer)
      && r.payload.stats.totalWorkers == Count(db.users, IsWorker)
      && r.payload.stats.activeAppointments == Count(db.appointments, IsPending)
  {
    if !Authenticated(session) then Unauthorized
    else if !IsAdminCaller(db, session) then Forbidden
    else Response(200, StatsJson(db.GetStats()))
  }
}
