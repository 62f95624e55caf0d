/**
 * The worker's dashboard: three tabs that filter the worker's appointments
 * by status, and the Accept / Reject / Complete actions each card offers,
 * the only place where the intended life cycle of an appointment
 * (pending, then accepted or rejected; accepted, then completed) is drawn.
 */
module WorkerDashboard {
  import opened Wrappers
  import opened Schema
  import opened Storage
  import SharedRoutes
  import Routes

  datatype Tab = PendingTab | ScheduledTab | HistoryTab

  /** The status each tab passes to its list; the history tab passes "completed". */
  function TabStatus(tab: Tab): (s: string)
    ensures s in {"pending", "accepted", "completed"}
  {
    match tab
    case PendingTab => "pending"
    case ScheduledTab => "accepted"
    case HistoryTab => "completed"
  }

  /** `AppointmentList`'s test: "history" means completed or rejected, any other text that exact status. */
  predicate Shown(status: string, apt: PopulatedAppointment) {
    if status == "history" then StatusText(apt.appointment.status) in ["completed", "rejected"]
    else StatusText(apt.appointment.status) == status
  }

  /** The list a status prop shows; no data yet (`undefined`) shows nothing. */
  function AppointmentList(data: Option<seq<PopulatedAppointment>>, status: string): (r: seq<PopulatedAppointment>)
    ensures data.None? ==> r == []
    ensures data.Some? ==> forall a :: a in r <==> a in data.value && Shown(status, a)
    ensures data.Some? ==> r == Filter(data.value, (a: PopulatedAppointment) => Shown(status, a))
  {
    match data
    case None => []
    case Some(appts) => Filter(appts, (a: PopulatedAppointment) => Shown(status, a))
  }

  /** What a tab shows, as written. */
  function TabContents(data: Option<seq<PopulatedAppointment>>, tab: Tab): (r: seq<PopulatedAppointment>)
    ensures data.Some? ==> forall a :: a in r <==> a in data.value && StatusText(a.appointment.status) == TabStatus(tab)
  {
    AppointmentList(data, TabStatus(tab))
  }

  /** As written, a rejected appointment is in no tab, because no tab passes "history". */
  lemma RejectedInNoTab(appts: seq<PopulatedAppointment>, a: PopulatedAppointment, tab: Tab)
    requires a in appts && a.appointment.status == Rejected
    ensures a !in TabContents(Some(appts), tab)
  {
  }

  /** The history tab as its list's "history" branch intends it. */
  function CorrectedTabStatus(tab: Tab): string {
    match tab
    case PendingTab => "pending"
    case ScheduledTab => "accepted"
    case HistoryTab => "history"
  }

  function CorrectedTabContents(data: Option<seq<PopulatedAppointment>>, tab: Tab): (r: seq<PopulatedAppointment>)
    ensures data.None? ==> r == []
    ensures data.Some? ==> forall a :: a in r <==> a in data.value && Shown(CorrectedTabStatus(tab), a)
  {
    AppointmentList(data, CorrectedTabStatus(tab))
  }

  /** The tab an appointment of each status belongs to. */
  function HomeTab(status: AppointmentStatus): Tab {
    match status
    case Pending => PendingTab
    case Accepted => ScheduledTab
    case Rejected => HistoryTab
    case Completed => HistoryTab
  }

  /** With the corrected history tab, every appointment shows in exactly one tab: the tabs partition the list. */
  lemma CorrectedTabsPartition(appts: seq<PopulatedAppointment>, a: PopulatedAppointment, tab: Tab)
    requires a in appts
    ensures a in CorrectedTabContents(Some(appts), tab) <==> tab == HomeTab(a.appointment.status)
  {
    match a.appointment.status
    case Pending =>
    case Accepted =>
    case Rejected => assert StatusText(Rejected) == "rejected";
    case Completed => assert StatusText(Completed) == "completed";
  }

  // ---------------------------------------------------------------------
  // the card's actions

  datatype Action = Accept | Reject | Complete

  /** The buttons a card shows for an appointment's status. */
  function Actions(status: AppointmentStatus): (acts: set<Action>)
    ensures Accept in acts <==> status == Pending
    ensures Reject in acts <==> status == Pending
    ensures Complete in acts <==> status == Accepted
  {
    (if status == Pending then {Accept, Reject} else {})
    + (if status == Accepted then {Complete} else {})
  }

  /** The arguments of the status mutation: the path id, the status and an optional visit time. */
  datatype StatusRequest = StatusRequest(id: int, status: AppointmentStatus, visitTime: Option<string>)

  /**
   * `handleAccept`: nothing is sent while the visit-time input is empty;
   * otherwise "accepted" with the visit time as an ISO string.
   */
  function HandleAccept(id: int, visitTime: string, toIso: string -> string): (req: Option<StatusRequest>)
    ensures visitTime == "" <==> req.None?
    ensures req.Some? ==> req.value == StatusRequest(id, Accepted, Some(toIso(visitTime)))
  {
    if visitTime == "" then None else Some(StatusRequest(id, Accepted, Some(toIso(visitTime))))
  }

  function HandleReject(id: int): (req: StatusRequest)
    ensures req.status == Rejected && req.visitTime.None? && req.id == id
  {
    StatusRequest(id, Rejected, None)
  }

  function HandleComplete(id: int): (req: StatusRequest)
    ensures req.status == Completed && req.visitTime.None? && req.id == id
  {
    StatusRequest(id, Completed, None)
  }

  /** What the card sends when one of its buttons is used (`None`: nothing is sent). */
  function Press(action: Action, id: int, visitTime: string, toIso: string -> string): Option<StatusRequest> {
    match action
    case Accept => HandleAccept(id, visitTime, toIso)
    case Reject => Some(HandleReject(id))
    case Complete => Some(HandleComplete(id))
  }

  /** The intended life cycle. */
  predicate LegalTransition(from: AppointmentStatus, to: AppointmentStatus) {
    (from == Pending && (to == Accepted || to == Rejected)) || (from == Accepted && to == Completed)
  }

  /** Whatever button a card shows sends a legal transition, which the status input schema also accepts. */
  lemma DashboardRequestsLegal(a: Appointment, action: Action, visitTime: string, toIso: string -> string)
    requires action in Actions(a.status)
    requires Press(action, a.id, visitTime, toIso).Some?
    ensures LegalTransition(a.status, Press(action, a.id, visitTime, toIso).value.status)
    ensures var req := Press(action, a.id, visitTime, toIso).value;
      SharedRoutes.ParseStatusUpdate(StatusText(req.status), req.visitTime).Some?
  {
    var req := Press(action, a.id, visitTime, toIso).value;
    assert StatusText(req.status) in {"accepted", "rejected", "completed"};
  }

  /** An appointment accepted from the dashboard has a visit time once the server has applied the request. */
  lemma AcceptedHasVisitTime(a: Appointment, visitTime: string, toIso: string -> string, parseDate: string -> Timestamp)
    requires HandleAccept(a.id, visitTime, toIso).Some?
    requires toIso(visitTime) != ""
    ensures var req := HandleAccept(a.id, visitTime, toIso).value;
      var b := ApplyStatus(a, req.status, Routes.RequestVisitTime(req.visitTime, parseDate));
      b.status == Accepted && b.visitTime.Some?
  {
  }

  /**
   * The transition the server would enforce if it checked the life cycle:
   * an illegal request is refused and leaves the appointment as it is.
   */
  function GuardedStatus(a: Appointment, status: AppointmentStatus, visitTime: Option<Timestamp>): (r: Option<Appointment>)
    ensures r.Some? <==> LegalTransition(a.status, status)
    ensures r.Some? ==> r.value == ApplyStatus(a, status, visitTime)
  {
    if LegalTransition(a.status, status) then Some(ApplyStatus(a, status, visitTime)) else None
  }

  /** For the requests the dashboard sends, the guarded transition and the server's unguarded one agree. */
  lemma GuardAgreesOnDashboardRequests(a: Appointment, action: Action, visitTime: string,
                                       toIso: string -> string, t: Option<Timestamp>)
    requires action in Actions(a.status)
    requires Press(action, a.id, visitTime, toIso).Some?
    ensures GuardedStatus(a, Press(action, a.id, visitTime, toIso).value.status, t)
         == Some(ApplyStatus(a, Press(action, a.id, visitTime, toIso).value.status, t))
  {
    DashboardRequestsLegal(a, action, visitTime, toIso);
  }

  /** The server itself takes any status: a completed appointment can be set back to pending. */
  lemma UnguardedReopens(a: Appointment)
    requires a.status == Completed
    ensures ApplyStatus(a, Pending, None).status == Pending
    ensures GuardedStatus(a, Pending, None).None?
  {
  }
}
