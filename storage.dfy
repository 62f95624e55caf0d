/**
 * `DatabaseStorage`: the four tables held as sequences in insertion order,
 * with one serial counter per table (ids start at 1) and a creation counter
 * that stands in for `defaultNow()`.
 */
module Storage {
  import opened Wrappers
  import opened Text
  import opened Schema
  import Passwords

  // ---------------------------------------------------------------------
  // Sequence operations that the queries are made of

  /** The elements of `s` that satisfy `p`, in order (a `where` clause, `Array.filter`). */
  function Filter<T(==,!new)>(s: seq<T>, p: T -> bool): (r: seq<T>)
    ensures |r| <= |s|
    ensures forall x :: x in r <==> x in s && p(x)
    ensures forall i :: 0 <= i < |r| ==> p(r[i])
  {
    if s == [] then []
    else (if p(s[0]) then [s[0]] else []) + Filter(s[1..], p)
  }

  lemma {:induction false} FilterExtensional<T(!new)>(s: seq<T>, p: T -> bool, q: T -> bool)
    requires forall x :: x in s ==> p(x) == q(x)
    ensures Filter(s, p) == Filter(s, q)
  {
    if s != [] {
      FilterExtensional(s[1..], p, q);
    }
  }

  /** Filtering twice is filtering once by the conjunction. */
  lemma {:induction false} FilterTwice<T(!new)>(s: seq<T>, p: T -> bool, q: T -> bool, pq: T -> bool)
    requires forall x :: x in s ==> pq(x) == (p(x) && q(x))
    ensures Filter(Filter(s, p), q) == Filter(s, pq)
  {
    if s != [] {
      FilterTwice(s[1..], p, q, pq);
      if p(s[0]) {
        assert Filter(s, p) == [s[0]] + Filter(s[1..], p);
        assert Filter(s, p)[1..] == Filter(s[1..], p);
      } else {
        assert Filter(s, p) == Filter(s[1..], p);
      }
    }
  }

  lemma {:induction false} FilterAppend<T(!new)>(s: seq<T>, x: T, p: T -> bool)
    ensures Filter(s + [x], p) == Filter(s, p) + (if p(x) then [x] else [])
  {
    if s == [] {
      assert [x][1..] == [];
      assert s + [x] == [x];
    } else {
      var t := s + [x];
      assert t[0] == s[0];
      assert t[1..] == s[1..] + [x];
      FilterAppend(s[1..], x, p);
      assert Filter(t, p) == (if p(s[0]) then [s[0]] else []) + Filter(s[1..] + [x], p);
      assert Filter(s, p) == (if p(s[0]) then [s[0]] else []) + Filter(s[1..], p);
    }
  }

  /** `count(*)` of a `where` clause. */
  function Count<T(==,!new)>(s: seq<T>, p: T -> bool): (n: nat)
    ensures n <= |s|
  {
    |Filter(s, p)|
  }

  /** The first element that satisfies `p` (the destructuring `const [row] = ...`). */
  function First<T(==,!new)>(s: seq<T>, p: T -> bool): (r: Option<T>)
    ensures r.Some? ==> r.value in s && p(r.value)
    ensures r.None? <==> forall x :: x in s ==> !p(x)
    ensures r.Some? ==> exists i :: 0 <= i < |s| && s[i] == r.value && forall j :: 0 <= j < i ==> !p(s[j])
  {
    if s == [] then None
    else if p(s[0]) then Some(s[0])
    else
      var r := First(s[1..], p);
      if r.Some? then
        var i :| 0 <= i < |s[1..]| && s[1..][i] == r.value && forall j :: 0 <= j < i ==> !p(s[1..][j]);
        assert s[i + 1] == r.value && forall j :: 0 <= j < i + 1 ==> !p(s[j]);
        r
      else r
  }

  function Reverse<T(==,!new)>(s: seq<T>): (r: seq<T>)
    ensures |r| == |s|
    ensures forall i :: 0 <= i < |s| ==> r[i] == s[|s| - 1 - i]
    ensures forall x :: x in r <==> x in s
  {
    if s == [] then [] else Reverse(s[1..]) + [s[0]]
  }

  predicate Ascending<T(==,!new)>(s: seq<T>, key: T -> int) {
    forall i, j :: 0 <= i < j < |s| ==> key(s[i]) < key(s[j])
  }

  predicate Descending<T(==,!new)>(s: seq<T>, key: T -> int) {
    forall i, j :: 0 <= i < j < |s| ==> key(s[i]) > key(s[j])
  }

  lemma {:induction false} FilterAscending<T(!new)>(s: seq<T>, p: T -> bool, key: T -> int)
    requires Ascending(s, key)
    ensures Ascending(Filter(s, p), key)
  {
    if s != [] {
      FilterAscending(s[1..], p, key);
      var rest := Filter(s[1..], p);
      forall y | y in rest ensures key(s[0]) < key(y) {
        var k :| 0 <= k < |s[1..]| && s[1..][k] == y;
        assert s[k + 1] == y;
      }
    }
  }

  lemma ReverseAscending<T(!new)>(s: seq<T>, key: T -> int)
    requires Ascending(s, key)
    ensures Descending(Reverse(s), key)
  {
  }

  /** A descending order by a key that tells elements apart is unique for a given set of elements. */
  lemma {:induction false} DescendingUnique<T(!new)>(a: seq<T>, b: seq<T>, key: T -> int)
    requires Descending(a, key) && Descending(b, key)
    requires forall x :: x in a <==> x in b
    ensures a == b
  {
    if b != [] {
      assert b[0] in b;
    }
    if a != [] {
      assert a[0] in b;
      assert b != [];
      assert b[0] in a;
      var i :| 0 <= i < |a| && a[i] == b[0];
      var j :| 0 <= j < |b| && b[j] == a[0];
      assert key(b[0]) <= key(a[0]);
      assert key(a[0]) <= key(b[0]);
      assert i == 0;
      assert a[0] == b[0];
      forall x ensures x in a[1..] <==> x in b[1..] {
        if x in a[1..] {
          var k :| 0 <= k < |a[1..]| && a[1..][k] == x;
          assert key(x) < key(a[0]);
          assert x in b && x != b[0];
          var m :| 0 <= m < |b| && b[m] == x;
          assert m != 0;
          assert b[1..][m - 1] == x;
        }
        if x in b[1..] {
          var k :| 0 <= k < |b[1..]| && b[1..][k] == x;
          assert key(x) < key(b[0]);
          assert x in a && x != a[0];
          var m :| 0 <= m < |a| && a[m] == x;
          assert m != 0;
          assert a[1..][m - 1] == x;
        }
      }
      DescendingUnique(a[1..], b[1..], key);
      assert a == [a[0]] + a[1..] && b == [b[0]] + b[1..];
    }
  }

  // ---------------------------------------------------------------------
  // Keys and row predicates

  function AppointmentCreated(a: Appointment): int { a.createdAt }
  function ReviewId(r: Review): int { r.id }
  /** The review id negated, so that ascending ids read as a descending key. */
  function ReviewIdNegated(r: Review): int { -(r.id as int) }

  predicate IsCustomer(u: User) { u.role == Customer }
  predicate IsWorker(u: User) { u.role == Worker }
  predicate IsPending(a: Appointment) { a.status == Pending }

  /** The optional query parameters of the worker search. */
  datatype WorkerFilters = WorkerFilters(pincode: Option<string>, workerType: Option<string>)

  /** JavaScript truthiness of an optional string: present and not empty. */
  predicate Given(o: Option<string>) {
    o.Some? && o.value != ""
  }

  /** What a worker search promises: a worker, of the given type, whose pincode contains the given text. */
  predicate MatchesFilters(u: User, f: WorkerFilters) {
    && u.role == Worker
    && (Given(f.workerType) ==> u.workerType == f.workerType)
    && (Given(f.pincode) ==> Contains(u.pincode, f.pincode.value))
  }

  /** The pincode filter is a substring test: "100" keeps a worker at "10001" and drops one at "20002". */
  lemma PincodeFilterExample(u: User, v: User)
    requires u.role == Worker && u.pincode == "10001"
    requires v.role == Worker && v.pincode == "20002"
    ensures MatchesFilters(u, WorkerFilters(Some("100"), None))
    ensures !MatchesFilters(v, WorkerFilters(Some("100"), None))
  {
    assert Occurs(u.pincode, "100", 0) by {
      assert u.pincode[0..3] == "100";
    }
    forall i ensures !Occurs(v.pincode, "100", i) {
      if 0 <= i && i + 3 <= |v.pincode| {
        assert v.pincode[i..i + 3][0] == v.pincode[i];
      }
    }
  }

  /** Whose appointments a caller sees: as the customer for role "user", as the worker otherwise. */
  predicate InScope(a: Appointment, callerId: int, role: Role) {
    if role == Customer then a.userId == callerId else a.workerId == callerId
  }

  datatype AdminStats = AdminStats(totalUsers: nat, totalWorkers: nat, activeAppointments: nat)

  datatype PopulatedAppointment = PopulatedAppointment(appointment: Appointment, user: Option<User>, worker: Option<User>)

  datatype PopulatedReport = PopulatedReport(report: Report, reporter: Option<User>, reportedWorker: Option<User>)

  // ---------------------------------------------------------------------
  // Row updates (`update ... set ... where id = ...`)

  /** `set({ isAvailable })` on every row with that id; nothing else changes. */
  function WithAvailability(users: seq<User>, id: int, isAvailable: bool): (r: seq<User>)
    ensures |r| == |users|
    ensures forall i :: 0 <= i < |users| ==>
      r[i] == if users[i].id == id then users[i].(isAvailable := isAvailable) else users[i]
  {
    if users == [] then []
    else
      [if users[0].id == id then users[0].(isAvailable := isAvailable) else users[0]]
      + WithAvailability(users[1..], id, isAvailable)
  }

  /** `after` differs from `before` at most in the availability of rows whose id is `id`. */
  predicate OnlyAvailabilityOf(before: seq<User>, after: seq<User>, id: int) {
    && |after| == |before|
    && (forall i :: 0 <= i < |before| && before[i].id != id ==> after[i] == before[i])
    && (forall i :: 0 <= i < |before| ==> after[i] == before[i].(isAvailable := after[i].isAvailable))
  }

  lemma WithAvailabilityTouchesOnly(users: seq<User>, id: int, isAvailable: bool)
    ensures OnlyAvailabilityOf(users, WithAvailability(users, id, isAvailable), id)
  {
  }

  /**
   * `set({ status, visitTime })`: a missing visit time is an `undefined`
   * value, which the update leaves out, so the stored visit time stays.
   */
  function ApplyStatus(a: Appointment, status: AppointmentStatus, visitTime: Option<Timestamp>): (b: Appointment)
    ensures b.status == status
    ensures b.visitTime == if visitTime.Some? then visitTime else a.visitTime
    ensures b.id == a.id && b.userId == a.userId && b.workerId == a.workerId && b.createdAt == a.createdAt
    ensures b.issueDescription == a.issueDescription && b.address == a.address
  {
    a.(status := status, visitTime := if visitTime.Some? then visitTime else a.visitTime)
  }

  function WithStatus(appts: seq<Appointment>, id: int, status: AppointmentStatus, visitTime: Option<Timestamp>): (r: seq<Appointment>)
    ensures |r| == |appts|
    ensures forall i :: 0 <= i < |appts| ==>
      r[i] == if appts[i].id == id then ApplyStatus(appts[i], status, visitTime) else appts[i]
  {
    if appts == [] then []
    else
      [if appts[0].id == id then ApplyStatus(appts[0], status, visitTime) else appts[0]]
      + WithStatus(appts[1..], id, status, visitTime)
  }

  // ---------------------------------------------------------------------
  // What every table keeps: rows in insertion order, so ids and creation
  // times strictly increase; ids lie below the table's serial counter and
  // creation times below the clock.

  ghost predicate UsersValid(users: seq<User>, nextId: nat, clock: nat) {
    && (forall i :: 0 <= i < |users| ==> 1 <= users[i].id < nextId && users[i].createdAt < clock)
    && (forall i, j :: 0 <= i < j < |users| ==>
          users[i].id < users[j].id && users[i].createdAt < users[j].createdAt)
    // the unique constraint on `username`
    && (forall i, j :: 0 <= i < j < |users| ==> users[i].username != users[j].username)
  }

  ghost predicate AppointmentsValid(appts: seq<Appointment>, nextId: nat, clock: nat) {
    && (forall i :: 0 <= i < |appts| ==> 1 <= appts[i].id < nextId && appts[i].createdAt < clock)
    && (forall i, j :: 0 <= i < j < |appts| ==>
          appts[i].id < appts[j].id && appts[i].createdAt < appts[j].createdAt)
  }

  ghost predicate ReviewsValid(reviews: seq<Review>, nextId: nat, clock: nat) {
    && (forall i :: 0 <= i < |reviews| ==> 1 <= reviews[i].id < nextId && reviews[i].createdAt < clock)
    && (forall i, j :: 0 <= i < j < |reviews| ==>
          reviews[i].id < reviews[j].id && reviews[i].createdAt < reviews[j].createdAt)
  }

  ghost predicate ReportsValid(reports: seq<Report>, nextId: nat, clock: nat) {
    && (forall i :: 0 <= i < |reports| ==> 1 <= reports[i].id < nextId && reports[i].createdAt < clock)
    && (forall i, j :: 0 <= i < j < |reports| ==>
          reports[i].id < reports[j].id && reports[i].createdAt < reports[j].createdAt)
  }

  lemma UsersAppend(users: seq<User>, row: User, nextId: nat, clock: nat)
    requires UsersValid(users, nextId, clock) && 1 <= nextId
    requires row.id == nextId && row.createdAt == clock
    requires forall x :: x in users ==> x.username != row.username
    ensures UsersValid(users + [row], nextId + 1, clock + 1)
  {
    var s := users + [row];
    forall i, j | 0 <= i < j < |s| ensures s[i].username != s[j].username {
      if j == |users| { assert s[i] in users; }
    }
  }

  lemma AppointmentsAppend(appts: seq<Appointment>, row: Appointment, nextId: nat, clock: nat)
    requires AppointmentsValid(appts, nextId, clock) && 1 <= nextId
    requires row.id == nextId && row.createdAt == clock
    ensures AppointmentsValid(appts + [row], nextId + 1, clock + 1)
  {
  }

  lemma ReviewsAppend(reviews: seq<Review>, row: Review, nextId: nat, clock: nat)
    requires ReviewsValid(reviews, nextId, clock) && 1 <= nextId
    requires row.id == nextId && row.createdAt == clock
    ensures ReviewsValid(reviews + [row], nextId + 1, clock + 1)
  {
  }

  lemma ReportsAppend(reports: seq<Report>, row: Report, nextId: nat, clock: nat)
    requires ReportsValid(reports, nextId, clock) && 1 <= nextId
    requires row.id == nextId && row.createdAt == clock
    ensures ReportsValid(reports + [row], nextId + 1, clock + 1)
  {
  }

  lemma WithAvailabilityValid(users: seq<User>, id: int, isAvailable: bool, nextId: nat, clock: nat)
    requires UsersValid(users, nextId, clock)
    ensures UsersValid(WithAvailability(users, id, isAvailable), nextId, clock)
  {
    var r := WithAvailability(users, id, isAvailable);
    forall i | 0 <= i < |r|
      ensures r[i].id == users[i].id && r[i].createdAt == users[i].createdAt && r[i].username == users[i].username
    {
      assert r[i] == if users[i].id == id then users[i].(isAvailable := isAvailable) else users[i];
    }
  }

  lemma WithStatusValid(appts: seq<Appointment>, id: int, status: AppointmentStatus, visitTime: Option<Timestamp>, nextId: nat, clock: nat)
    requires AppointmentsValid(appts, nextId, clock)
    ensures AppointmentsValid(WithStatus(appts, id, status, visitTime), nextId, clock)
  {
    var r := WithStatus(appts, id, status, visitTime);
    forall i | 0 <= i < |r|
      ensures r[i].id == appts[i].id && r[i].createdAt == appts[i].createdAt
    {
      assert r[i] == if appts[i].id == id then ApplyStatus(appts[i], status, visitTime) else appts[i];
    }
  }

  // ---------------------------------------------------------------------
  // Queries over the tables

  /** `select ... where id = ...`, first row. */
  function FindUser(users: seq<User>, id: int): (u: Option<User>)
    ensures u.Some? ==> u.value in users && u.value.id == id
    ensures u.None? <==> forall x :: x in users ==> x.id != id
  {
    First(users, (x: User) => x.id == id)
  }

  /** Ids tell rows apart, so the row with that id is the one found. */
  lemma FindUserUnique(users: seq<User>, nextId: nat, clock: nat, u: User)
    requires UsersValid(users, nextId, clock) && u in users
    ensures FindUser(users, u.id) == Some(u)
  {
    var r := FindUser(users, u.id);
    var i :| 0 <= i < |users| && users[i] == u;
    var j :| 0 <= j < |users| && users[j] == r.value;
    assert i == j by {
      assert users[i].id == users[j].id;
    }
  }

  function PopulateAppointments(appts: seq<Appointment>, users: seq<User>): (r: seq<PopulatedAppointment>)
    ensures |r| == |appts|
    ensures forall i :: 0 <= i < |r| ==>
      r[i].appointment == appts[i] && r[i].user == FindUser(users, appts[i].userId)
      && r[i].worker == FindUser(users, appts[i].workerId)
  {
    seq(|appts|, i requires 0 <= i < |appts| =>
      PopulatedAppointment(appts[i], FindUser(users, appts[i].userId), FindUser(users, appts[i].workerId)))
  }

  function PopulateReports(reports: seq<Report>, users: seq<User>): (r: seq<PopulatedReport>)
    ensures |r| == |reports|
    ensures forall i :: 0 <= i < |r| ==>
      r[i].report == reports[i] && r[i].reporter == FindUser(users, reports[i].reporterId)
      && r[i].reportedWorker == FindUser(users, reports[i].reportedWorkerId)
  {
    seq(|reports|, i requires 0 <= i < |reports| =>
      PopulatedReport(reports[i], FindUser(users, reports[i].reporterId), FindUser(users, reports[i].reportedWorkerId)))
  }

  /** Appointments in scope, newest first. */
  function Scoped(appts: seq<Appointment>, callerId: int, role: Role): (r: seq<Appointment>)
    requires forall i, j :: 0 <= i < j < |appts| ==> appts[i].createdAt < appts[j].createdAt
    ensures forall a :: a in r <==> a in appts && InScope(a, callerId, role)
    ensures Descending(r, AppointmentCreated)
  {
    var p := (a: Appointment) => InScope(a, callerId, role);
    assert Ascending(appts, AppointmentCreated);
    FilterAscending(appts, p, AppointmentCreated);
    ReverseAscending(Filter(appts, p), AppointmentCreated);
    Reverse(Filter(appts, p))
  }

  /** The seeded password texts come from two independent salts. */
  datatype SeedSalts = SeedSalts(user: seq<Passwords.Byte>, admin: seq<Passwords.Byte>)

  predicate ValidSalts(s: SeedSalts) {
    |s.user| == Passwords.SaltLength && |s.admin| == Passwords.SaltLength
  }

  class DatabaseStorage {
    var users: seq<User>
    var appointments: seq<Appointment>
    var reviews: seq<Review>
    var reports: seq<Report>
    var nextUserId: nat
    var nextAppointmentId: nat
    var nextReviewId: nat
    var nextReportId: nat
    var clock: nat

    ghost predicate Valid()
      reads this
    {
      && 1 <= nextUserId && 1 <= nextAppointmentId && 1 <= nextReviewId && 1 <= nextReportId
      && UsersValid(users, nextUserId, clock)
      && AppointmentsValid(appointments, nextAppointmentId, clock)
      && ReviewsValid(reviews, nextReviewId, clock)
      && ReportsValid(reports, nextReportId, clock)
    }

    constructor ()
      ensures Valid()
      ensures users == [] && appointments == [] && reviews == [] && reports == []
    {
      users, appointments, reviews, reports := [], [], [], [];
      nextUserId, nextAppointmentId, nextReviewId, nextReportId := 1, 1, 1, 1;
      clock := 0;
    }

    // -------------------------------------------------------------------
    // users

    function GetUser(id: int): (u: Option<User>)
      reads this
      ensures u.Some? ==> u.value in users && u.value.id == id
      ensures u.None? <==> forall x :: x in users ==> x.id != id
    {
      FindUser(users, id)
    }

    function GetUserByUsername(username: string): (u: Option<User>)
      reads this
      ensures u.Some? ==> u.value in users && u.value.username == username
      ensures u.None? <==> forall x :: x in users ==> x.username != username
    {
      First(users, (x: User) => x.username == username)
    }

    /**
     * `insert(users).values(v).returning()`. The serial value is drawn
     * before the unique constraint on `username` is checked, so a refused
     * insert still uses up an id.
     */
    method CreateUser(v: InsertUser) returns (u: Option<User>)
      requires Valid()
      modifies this
      ensures Valid()
      ensures nextUserId == old(nextUserId) + 1
      ensures old(GetUserByUsername(v.username)).Some? ==>
        u.None? && users == old(users) && clock == old(clock)
      ensures old(GetUserByUsername(v.username)).None? ==>
        u == Some(UserRow(old(nextUserId), v, old(clock)))
        && users == old(users) + [u.value] && clock == old(clock) + 1
      ensures appointments == old(appointments) && reviews == old(reviews) && reports == old(reports)
      ensures nextAppointmentId == old(nextAppointmentId) && nextReviewId == old(nextReviewId)
      ensures nextReportId == old(nextReportId)
    {
      if GetUserByUsername(v.username).Some? {
        DrawUserId();
        u := None;
      } else {
        var row := UserRow(nextUserId, v, clock);
        AppendUser(row);
        u := Some(row);
      }
    }

    /** Uses up one value of the `users.id` serial without inserting a row. */
    method DrawUserId()
      requires Valid()
      modifies this
      ensures Valid()
      ensures nextUserId == old(nextUserId) + 1
      ensures users == old(users) && appointments == old(appointments) && reviews == old(reviews) && reports == old(reports)
      ensures nextAppointmentId == old(nextAppointmentId) && nextReviewId == old(nextReviewId)
      ensures nextReportId == old(nextReportId) && clock == old(clock)
    {
      nextUserId := nextUserId + 1;
    }

    /** Inserts `row`, which takes the next id, the current time and a username not yet taken. */
    method AppendUser(row: User)
      requires Valid()
      requires row.id == nextUserId && row.createdAt == clock
      requires forall x :: x in users ==> x.username != row.username
      modifies this
      ensures Valid()
      ensures users == old(users) + [row]
      ensures nextUserId == old(nextUserId) + 1 && clock == old(clock) + 1
      ensures appointments == old(appointments) && reviews == old(reviews) && reports == old(reports)
      ensures nextAppointmentId == old(nextAppointmentId) && nextReviewId == old(nextReviewId)
      ensures nextReportId == old(nextReportId)
    {
      UsersAppend(users, row, nextUserId, clock);
      users := users + [row];
      nextUserId := nextUserId + 1;
      clock := clock + 1;
    }

    /** `createUser` for a username known to be free: the insert always succeeds. */
    method AddNewUser(v: InsertUser) returns (row: User)
      requires Valid()
      requires forall x :: x in users ==> x.username != v.username
      modifies this
      ensures Valid()
      ensures row == UserRow(old(nextUserId), v, old(clock))
      ensures users == old(users) + [row]
      ensures nextUserId == old(nextUserId) + 1 && clock == old(clock) + 1
      ensures appointments == old(appointments) && reviews == old(reviews) && reports == old(reports)
      ensures nextAppointmentId == old(nextAppointmentId) && nextReviewId == old(nextReviewId)
      ensures nextReportId == old(nextReportId)
    {
      var u := CreateUser(v);
      row := u.value;
    }

    function GetWorkers(filters: WorkerFilters): (r: seq<User>)
      reads this
      ensures forall u :: u in r <==> u in users && MatchesFilters(u, filters)
      ensures r == Filter(users, (u: User) => MatchesFilters(u, filters))
      ensures !Given(filters.pincode) && !Given(filters.workerType) ==> r == Filter(users, IsWorker)
    {
      var combined := (u: User) => MatchesFilters(u, filters);
      var byRole := (u: User) => u.role == Worker;
      var byRoleAndType := (u: User) => u.role == Worker && u.workerType == filters.workerType;
      var query := if Given(filters.workerType) then Filter(users, byRoleAndType) else Filter(users, byRole);
      var byPincode := (w: User) => Contains(w.pincode, if filters.pincode.Some? then filters.pincode.value else "");
      if Given(filters.pincode) then
        if Given(filters.workerType) then
          FilterTwice(users, byRoleAndType, byPincode, combined);
          Filter(query, byPincode)
        else
          FilterTwice(users, byRole, byPincode, combined);
          Filter(query, byPincode)
      else
        if Given(filters.workerType) then
          FilterExtensional(users, byRoleAndType, combined);
          query
        else
          FilterExtensional(users, byRole, combined);
          FilterExtensional(users, byRole, IsWorker);
          query
    }

    function GetWorker(id: int): (w: Option<User>)
      reads this
      ensures w.Some? ==> w.value in users && w.value.id == id && w.value.role == Worker
      ensures w.None? <==> forall u :: u in users && u.id == id ==> u.role != Worker
    {
      First(users, (u: User) => u.id == id && u.role == Worker)
    }

    /** `getWorker` is `getUser` restricted to workers. */
    lemma GetWorkerIsWorkerUser(id: int)
      requires Valid()
      ensures GetWorker(id) == if GetUser(id).Some? && GetUser(id).value.role == Worker then GetUser(id) else None
    {
      var w := GetWorker(id);
      if w.Some? { FindUserUnique(users, nextUserId, clock, w.value); }
    }

    method UpdateWorkerAvailability(id: int, isAvailable: bool) returns (updated: Option<User>)
      requires Valid()
      modifies this
      ensures Valid()
      ensures users == WithAvailability(old(users), id, isAvailable)
      ensures updated == GetUser(id)
      ensures appointments == old(appointments) && reviews == old(reviews) && reports == old(reports)
      ensures nextUserId == old(nextUserId) && nextAppointmentId == old(nextAppointmentId)
      ensures nextReviewId == old(nextReviewId) && nextReportId == old(nextReportId) && clock == old(clock)
    {
      WithAvailabilityValid(users, id, isAvailable, nextUserId, clock);
      SetUsers(WithAvailability(users, id, isAvailable));
      updated := GetUser(id);
    }

    /** Replaces the users table by one that keeps its invariant; nothing else changes. */
    method SetUsers(newUsers: seq<User>)
      requires Valid() && UsersValid(newUsers, nextUserId, clock)
      modifies this
      ensures Valid()
      ensures users == newUsers
      ensures appointments == old(appointments) && reviews == old(reviews) && reports == old(reports)
      ensures nextUserId == old(nextUserId) && nextAppointmentId == old(nextAppointmentId)
      ensures nextReviewId == old(nextReviewId) && nextReportId == old(nextReportId) && clock == old(clock)
    {
      users := newUsers;
    }

    // -------------------------------------------------------------------
    // appointments

    method CreateAppointment(v: InsertAppointment) returns (a: Appointment)
      requires Valid()
      modifies this
      ensures Valid()
      ensures a == AppointmentRow(old(nextAppointmentId), v, old(clock))
      ensures appointments == old(appointments) + [a]
      ensures nextAppointmentId == old(nextAppointmentId) + 1 && clock == old(clock) + 1
      ensures users == old(users) && reviews == old(reviews) && reports == old(reports)
      ensures nextUserId == old(nextUserId) && nextReviewId == old(nextReviewId) && nextReportId == old(nextReportId)
    {
      a := AppointmentRow(nextAppointmentId, v, clock);
      AppointmentsAppend(appointments, a, nextAppointmentId, clock);
      appointments := appointments + [a];
      nextAppointmentId := nextAppointmentId + 1;
      clock := clock + 1;
    }

    /** The caller's appointments, newest first. */
    function ScopedAppointments(callerId: int, role: Role): (r: seq<Appointment>)
      requires Valid()
      reads this
      ensures forall a :: a in r <==> a in appointments && InScope(a, callerId, role)
      ensures Descending(r, AppointmentCreated)
    {
      Scoped(appointments, callerId, role)
    }

    /** The two postconditions of `ScopedAppointments` fix the list completely. */
    lemma ScopedAppointmentsDetermined(callerId: int, role: Role, r: seq<Appointment>)
      requires Valid()
      requires forall a :: a in r <==> a in appointments && InScope(a, callerId, role)
      requires Descending(r, AppointmentCreated)
      ensures r == ScopedAppointments(callerId, role)
    {
      DescendingUnique(r, ScopedAppointments(callerId, role), AppointmentCreated);
    }

    /** `getAppointments`: the scoped list with each side's user record attached. */
    function GetAppointments(callerId: int, role: Role): (r: seq<PopulatedAppointment>)
      requires Valid()
      reads this
      ensures |r| == |ScopedAppointments(callerId, role)|
      ensures forall i :: 0 <= i < |r| ==>
        var a := ScopedAppointments(callerId, role)[i];
        r[i].appointment == a && r[i].user == GetUser(a.userId) && r[i].worker == GetUser(a.workerId)
    {
      PopulateAppointments(ScopedAppointments(callerId, role), users)
    }

    /** Writes the status (and a given visit time) to the row with that id, whatever its current status. */
    method UpdateAppointmentStatus(id: int, status: AppointmentStatus, visitTime: Option<Timestamp>)
      returns (updated: Option<Appointment>)
      requires Valid()
      modifies this
      ensures Valid()
      ensures appointments == WithStatus(old(appointments), id, status, visitTime)
      ensures updated == First(appointments, (a: Appointment) => a.id == id)
      ensures users == old(users) && reviews == old(reviews) && reports == old(reports)
      ensures nextUserId == old(nextUserId) && nextAppointmentId == old(nextAppointmentId)
      ensures nextReviewId == old(nextReviewId) && nextReportId == old(nextReportId) && clock == old(clock)
    {
      WithStatusValid(appointments, id, status, visitTime, nextAppointmentId, clock);
      appointments := WithStatus(appointments, id, status, visitTime);
      updated := First(appointments, (a: Appointment) => a.id == id);
    }

    // -------------------------------------------------------------------
    // reviews and reports

    method CreateReview(v: InsertReview) returns (r: Review)
      requires Valid()
      modifies this
      ensures Valid()
      ensures r == ReviewRow(old(nextReviewId), v, old(clock))
      ensures reviews == old(reviews) + [r]
      ensures nextReviewId == old(nextReviewId) + 1 && clock == old(clock) + 1
      ensures users == old(users) && appointments == old(appointments) && reports == old(reports)
      ensures nextUserId == old(nextUserId) && nextAppointmentId == old(nextAppointmentId) && nextReportId == old(nextReportId)
    {
      r := ReviewRow(nextReviewId, v, clock);
      ReviewsAppend(reviews, r, nextReviewId, clock);
      reviews := reviews + [r];
      nextReviewId := nextReviewId + 1;
      clock := clock + 1;
    }

    /** `getWorkerReviews`: the worker's reviews, each once, in table (ascending id) order. */
    function GetWorkerReviews(workerId: int): (r: seq<Review>)
      requires Valid()
      reads this
      ensures forall x :: x in r <==> x in reviews && x.workerId == workerId
      ensures Ascending(r, ReviewId)
      ensures |r| <= |reviews|
    {
      assert Ascending(reviews, ReviewId);
      FilterAscending(reviews, (x: Review) => x.workerId == workerId, ReviewId);
      Filter(reviews, (x: Review) => x.workerId == workerId)
    }

    /** Membership and ascending ids fix the worker's review list, so its length is the mean's divisor. */
    lemma GetWorkerReviewsDetermined(workerId: int, r: seq<Review>)
      requires Valid()
      requires forall x :: x in r <==> x in reviews && x.workerId == workerId
      requires Ascending(r, ReviewId)
      ensures r == GetWorkerReviews(workerId)
    {
      var g := GetWorkerReviews(workerId);
      assert Descending(r, ReviewIdNegated) by {
        forall i, j | 0 <= i < j < |r| ensures ReviewIdNegated(r[i]) > ReviewIdNegated(r[j]) {
          assert ReviewId(r[i]) < ReviewId(r[j]);
        }
      }
      assert Descending(g, ReviewIdNegated) by {
        forall i, j | 0 <= i < j < |g| ensures ReviewIdNegated(g[i]) > ReviewIdNegated(g[j]) {
          assert ReviewId(g[i]) < ReviewId(g[j]);
        }
      }
      DescendingUnique(r, g, ReviewIdNegated);
    }

    method CreateReport(v: InsertReport) returns (r: Report)
      requires Valid()
      modifies this
      ensures Valid()
      ensures r == ReportRow(old(nextReportId), v, old(clock))
      ensures reports == old(reports) + [r]
      ensures nextReportId == old(nextReportId) + 1 && clock == old(clock) + 1
      ensures users == old(users) && appointments == old(appointments) && reviews == old(reviews)
      ensures nextUserId == old(nextUserId) && nextAppointmentId == old(nextAppointmentId) && nextReviewId == old(nextReviewId)
    {
      r := ReportRow(nextReportId, v, clock);
      ReportsAppend(reports, r, nextReportId, clock);
      reports := reports + [r];
      nextReportId := nextReportId + 1;
      clock := clock + 1;
    }

    /** Every report, newest first, with the reporter's and the reported worker's records. */
    function GetReports(): (r: seq<PopulatedReport>)
      requires Valid()
      reads this
      ensures |r| == |reports|
      ensures forall x :: x in reports <==> exists i :: 0 <= i < |r| && r[i].report == x
      ensures forall i, j :: 0 <= i < j < |r| ==> r[i].report.createdAt > r[j].report.createdAt
      ensures forall i :: 0 <= i < |r| ==>
        r[i].reporter == GetUser(r[i].report.reporterId)
        && r[i].reportedWorker == GetUser(r[i].report.reportedWorkerId)
    {
      var newest := Reverse(reports);
      PopulateReports(newest, users)
    }

    function GetStats(): (s: AdminStats)
      reads this
      ensures s.totalUsers == Count(users, IsCustomer)
      ensures s.totalWorkers == Count(users, IsWorker)
      ensures s.activeAppointments == Count(appointments, IsPending)
      ensures s.totalUsers + s.totalWorkers <= |users|
    {
      CustomersAndWorkers(users);
      AdminStats(Count(users, IsCustomer), Count(users, IsWorker), Count(appointments, IsPending))
    }

    // -------------------------------------------------------------------
    // seed

    /**
     * On an empty `users` table, inserts the admin, one customer, two
     * workers and one pending appointment between that customer and the
     * first worker; otherwise changes nothing.
     */
    method Seed(scrypt: Passwords.Scrypt, salts: SeedSalts)
      requires Valid() && ValidSalts(salts)
      modifies this
      ensures Valid()
      ensures old(|users|) > 0 ==> unchanged(this)
      ensures old(|users|) == 0 ==>
        users == SeedUsers(Passwords.HashPassword(scrypt, "admin", salts.admin),
                           Passwords.HashPassword(scrypt, "password123", salts.user), old(nextUserId), old(clock))
        && appointments == old(appointments) + [AppointmentRow(old(nextAppointmentId), SeedAppointment(users[1].id, users[2].id), old(clock) + 4)]
        && nextUserId == old(nextUserId) + 4 && nextAppointmentId == old(nextAppointmentId) + 1
        && clock == old(clock) + 5
      ensures reviews == old(reviews) && reports == old(reports)
      ensures nextReviewId == old(nextReviewId) && nextReportId == old(nextReportId)
    {
      if |users| > 0 {
        return;
      }
      var hashedPassword := Passwords.HashPassword(scrypt, "password123", salts.user);
      var adminPassword := Passwords.HashPassword(scrypt, "admin", salts.admin);
      SeedRows(adminPassword, hashedPassword);
    }

    /** The inserts of `seed` on an empty `users` table, given the two password texts. */
    method SeedRows(adminPassword: string, hashedPassword: string)
      requires Valid() && users == []
      modifies this
      ensures Valid()
      ensures users == SeedUsers(adminPassword, hashedPassword, old(nextUserId), old(clock))
      ensures appointments == old(appointments) + [AppointmentRow(old(nextAppointmentId), SeedAppointment(users[1].id, users[2].id), old(clock) + 4)]
      ensures nextUserId == old(nextUserId) + 4 && nextAppointmentId == old(nextAppointmentId) + 1
      ensures clock == old(clock) + 5
      ensures reviews == old(reviews) && reports == old(reports)
      ensures nextReviewId == old(nextReviewId) && nextReportId == old(nextReportId)
    {
      SeedUserRows(adminPassword, hashedPassword);
      var _ := CreateAppointment(SeedAppointment(users[1].id, users[2].id));
    }

    /** The four user inserts of `seed`, in order. */
    method SeedUserRows(adminPassword: string, hashedPassword: string)
      requires Valid() && users == []
      modifies this
      ensures Valid()
      ensures users == SeedUsers(adminPassword, hashedPassword, old(nextUserId), old(clock))
      ensures nextUserId == old(nextUserId) + 4 && clock == old(clock) + 4
      ensures appointments == old(appointments) && reviews == old(reviews) && reports == old(reports)
      ensures nextAppointmentId == old(nextAppointmentId)
      ensures nextReviewId == old(nextReviewId) && nextReportId == old(nextReportId)
    {
      AddTwoUsers(AdminSeed(adminPassword), CustomerSeed(hashedPassword));
      AddTwoUsers(ElectricianSeed(hashedPassword), PlumberSeed(hashedPassword));
    }

    /** Two `createUser` calls in a row, with two usernames that are distinct and not yet taken. */
    method AddTwoUsers(a: InsertUser, b: InsertUser)
      requires Valid() && a.username != b.username
      requires forall x :: x in users ==> x.username != a.username && x.username != b.username
      modifies this
      ensures Valid()
      ensures users == old(users) + [UserRow(old(nextUserId), a, old(clock)), UserRow(old(nextUserId) + 1, b, old(clock) + 1)]
      ensures nextUserId == old(nextUserId) + 2 && clock == old(clock) + 2
      ensures appointments == old(appointments) && reviews == old(reviews) && reports == old(reports)
      ensures nextAppointmentId == old(nextAppointmentId)
      ensures nextReviewId == old(nextReviewId) && nextReportId == old(nextReportId)
    {
      var first := AddNewUser(a);
      var second := AddNewUser(b);
    }
  }

  /** The four seeded users: the admin, a customer, an electrician and a plumber. */
  function SeedUsers(adminPassword: string, hashed: string, firstId: nat, firstTime: nat): (users: seq<User>)
    ensures |users| == 4
    ensures users[0].role == Admin && users[1].role == Customer
    ensures users[2].role == Worker && users[3].role == Worker
    ensures forall i :: 0 <= i < 4 ==> users[i].id == firstId + i && users[i].createdAt == firstTime + i
  {
    [ UserRow(firstId, AdminSeed(adminPassword), firstTime),
      UserRow(firstId + 1, CustomerSeed(hashed), firstTime + 1),
      UserRow(firstId + 2, ElectricianSeed(hashed), firstTime + 2),
      UserRow(firstId + 3, PlumberSeed(hashed), firstTime + 3) ]
  }

  /**
   * The active-appointments count after one more appointment: it grows by one
   * exactly when the new row is pending, which it is unless the insert names
   * another status.
   */
  lemma ActiveAfterNewAppointment(appts: seq<Appointment>, id: nat, v: InsertAppointment, createdAt: nat)
    ensures Count(appts + [AppointmentRow(id, v, createdAt)], IsPending)
         == Count(appts, IsPending) + (if v.status.None? || v.status == Some(Pending) then 1 else 0)
  {
    FilterAppend(appts, AppointmentRow(id, v, createdAt), IsPending);
  }

  lemma {:induction false} CustomersAndWorkers(users: seq<User>)
    ensures Count(users, IsCustomer) + Count(users, IsWorker) <= |users|
  {
    if users != [] {
      CustomersAndWorkers(users[1..]);
    }
  }

  function AdminSeed(password: string): (v: InsertUser)
    ensures v.role == Some(Admin) && v.username == "admin@crewhub.com"
  {
    InsertUser("admin@crewhub.com", password, "Admin User", "9999999999", "Admin HQ", "000000",
               Some(Admin), None, None, None)
  }

  function CustomerSeed(password: string): (v: InsertUser)
    ensures v.role == Some(Customer) && v.username == "user@example.com"
  {
    InsertUser("user@example.com", password, "John Doe", "1234567890", "123 Maple St", "10001",
               Some(Customer), None, None, None)
  }

  function ElectricianSeed(password: string): (v: InsertUser)
    ensures v.role == Some(Worker) && v.workerType == Some("Electrician")
  {
    InsertUser("electrician@example.com", password, "Mike Spark", "9876543210", "456 Oak Ave", "10001",
               Some(Worker), Some("Electrician"), Some(50), Some(true))
  }

  function PlumberSeed(password: string): (v: InsertUser)
    ensures v.role == Some(Worker) && v.workerType == Some("Plumber")
  {
    InsertUser("plumber@example.com", password, "Bob Pipes", "5555555555", "789 Pine Rd", "10002",
               Some(Worker), Some("Plumber"), Some(40), Some(true))
  }

  function SeedAppointment(userId: int, workerId: int): (v: InsertAppointment)
    ensures v.status == Some(Pending) && v.userId == userId && v.workerId == workerId
  {
    InsertAppointment(userId, workerId, "Sparking outlet in kitchen", "123 Maple St", Some(Pending), None)
  }
}
