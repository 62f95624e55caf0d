/**
 * The four tables of the marketplace and their enumerated text columns:
 * users, appointments, reviews and reports, with the defaults the schema
 * gives to the columns an insert may leave out.
 */
module Schema {
  import opened Wrappers

  /** The `role` column: stored as the text "user", "worker" or "admin". */
  datatype Role = Customer | Worker | Admin

  /** The `status` column of appointments. */
  datatype AppointmentStatus = Pending | Accepted | Rejected | Completed

  /** The `status` column of reports. */
  datatype ReportStatus = ReportPending | ReportResolved

  function RoleText(r: Role): string {
    match r
    case Customer => "user"
    case Worker => "worker"
    case Admin => "admin"
  }

  /** Reading the `role` text back; any text outside the enumeration is refused. */
  function ParseRole(s: string): (r: Option<Role>)
    ensures r.Some? <==> s in {"user", "worker", "admin"}
    ensures r.Some? ==> RoleText(r.value) == s
  {
    if s == "user" then Some(Customer)
    else if s == "worker" then Some(Worker)
    else if s == "admin" then Some(Admin)
    else None
  }

  function StatusText(s: AppointmentStatus): string {
    match s
    case Pending => "pending"
    case Accepted => "accepted"
    case Rejected => "rejected"
    case Completed => "completed"
  }

  function ParseStatus(s: string): (r: Option<AppointmentStatus>)
    ensures r.Some? <==> s in {"pending", "accepted", "rejected", "completed"}
    ensures r.Some? ==> StatusText(r.value) == s
  {
    if s == "pending" then Some(Pending)
    else if s == "accepted" then Some(Accepted)
    else if s == "rejected" then Some(Rejected)
    else if s == "completed" then Some(Completed)
    else None
  }

  function ReportStatusText(s: ReportStatus): string {
    match s
    case ReportPending => "pending"
    case ReportResolved => "resolved"
  }

  function ParseReportStatus(s: string): (r: Option<ReportStatus>)
    ensures r.Some? <==> s in {"pending", "resolved"}
    ensures r.Some? ==> ReportStatusText(r.value) == s
  {
    if s == "pending" then Some(ReportPending)
    else if s == "resolved" then Some(ReportResolved)
    else None
  }

  lemma RoleTextRoundTrip(r: Role)
    ensures ParseRole(RoleText(r)) == Some(r)
  {
    match r
    case Customer =>
    case Worker =>
    case Admin =>
  }

  lemma StatusTextRoundTrip(s: AppointmentStatus)
    ensures ParseStatus(StatusText(s)) == Some(s)
  {
    match s
    case Pending =>
    case Accepted =>
    case Rejected =>
    case Completed =>
  }

  lemma ReportStatusTextRoundTrip(s: ReportStatus)
    ensures ParseReportStatus(ReportStatusText(s)) == Some(s)
  {
    match s
    case ReportPending =>
    case ReportResolved =>
  }

  /** Timestamps are instants on an integer scale; `createdAt` is the store's creation counter. */
  type Timestamp = int

  /** A row of `users`. `workerType` and `visitingCharge` are nullable and meant for workers only. */
  datatype User = User(
    id: nat,
    username: string,
    password: string,
    fullName: string,
    mobile: string,
    address: string,
    pincode: string,
    role: Role,
    workerType: Option<string>,
    visitingCharge: Option<int>,
    isAvailable: bool,
    createdAt: nat)

  /** A row of `appointments`; `userId` and `workerId` are plain integers, not checked against `users`. */
  datatype Appointment = Appointment(
    id: nat,
    userId: int,
    workerId: int,
    issueDescription: string,
    address: string,
    status: AppointmentStatus,
    visitTime: Option<Timestamp>,
    createdAt: nat)

  /** A row of `reviews`; `rating` is an unconstrained integer (documented as 1 to 5). */
  datatype Review = Review(
    id: nat,
    appointmentId: int,
    workerId: int,
    userId: int,
    rating: int,
    comment: Option<string>,
    createdAt: nat)

  /** A row of `reports`. */
  datatype Report = Report(
    id: nat,
    reporterId: int,
    reportedWorkerId: int,
    reason: string,
    status: ReportStatus,
    createdAt: nat)

  /** The insert shape of `users`: id and createdAt are generated; role and isAvailable have defaults. */
  datatype InsertUser = InsertUser(
    username: string,
    password: string,
    fullName: string,
    mobile: string,
    address: string,
    pincode: string,
    role: Option<Role>,
    workerType: Option<string>,
    visitingCharge: Option<int>,
    isAvailable: Option<bool>)

  /**
   * The insert shape of `appointments`. The schema's insert type omits
   * `status`, but a caller that passes one (the seed does) has it stored.
   */
  datatype InsertAppointment = InsertAppointment(
    userId: int,
    workerId: int,
    issueDescription: string,
    address: string,
    status: Option<AppointmentStatus>,
    visitTime: Option<Timestamp>)

  datatype InsertReview = InsertReview(
    appointmentId: int,
    workerId: int,
    userId: int,
    rating: int,
    comment: Option<string>)

  datatype InsertReport = InsertReport(
    reporterId: int,
    reportedWorkerId: int,
    reason: string,
    status: Option<ReportStatus>)

  const DefaultRole: Role := Customer
  const DefaultAppointmentStatus: AppointmentStatus := Pending
  const DefaultReportStatus: ReportStatus := ReportPending
  const DefaultAvailability: bool := true

  /** The row the database stores for an insert, given the generated id and creation time. */
  function UserRow(id: nat, v: InsertUser, createdAt: nat): (u: User)
    ensures u.id == id && u.createdAt == createdAt
    ensures u.username == v.username && u.password == v.password
    ensures u.role == (if v.role.Some? then v.role.value else Customer)
    ensures u.isAvailable == (v.isAvailable != Some(false))
    ensures u.workerType == v.workerType && u.visitingCharge == v.visitingCharge
  {
    User(id, v.username, v.password, v.fullName, v.mobile, v.address, v.pincode,
         v.role.GetOr(DefaultRole), v.workerType, v.visitingCharge,
         v.isAvailable.GetOr(DefaultAvailability), createdAt)
  }

  function AppointmentRow(id: nat, v: InsertAppointment, createdAt: nat): (a: Appointment)
    ensures a.id == id && a.createdAt == createdAt
    ensures a.userId == v.userId && a.workerId == v.workerId
    ensures v.status.None? ==> a.status == Pending
    ensures v.status.Some? ==> a.status == v.status.value
    ensures a.visitTime == v.visitTime
  {
    Appointment(id, v.userId, v.workerId, v.issueDescription, v.address,
                v.status.GetOr(DefaultAppointmentStatus), v.visitTime, createdAt)
  }

  function ReviewRow(id: nat, v: InsertReview, createdAt: nat): (r: Review)
    ensures r.id == id && r.createdAt == createdAt && r.rating == v.rating
    ensures r.workerId == v.workerId && r.userId == v.userId && r.appointmentId == v.appointmentId
  {
    Review(id, v.appointmentId, v.workerId, v.userId, v.rating, v.comment, createdAt)
  }

  function ReportRow(id: nat, v: InsertReport, createdAt: nat): (r: Report)
    ensures r.id == id && r.createdAt == createdAt
    ensures r.reporterId == v.reporterId && r.reportedWorkerId == v.reportedWorkerId
    ensures v.status.None? ==> r.status == ReportPending
  {
    Report(id, v.reporterId, v.reportedWorkerId, v.reason,
           v.status.GetOr(DefaultReportStatus), createdAt)
  }

  /** The documented rating range, which no column constraint enforces. */
  predicate DocumentedRating(rating: int) {
    1 <= rating <= 5
  }
}
