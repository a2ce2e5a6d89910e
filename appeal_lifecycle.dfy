/** The appeal rules of internal/service/appeal_service.go, as steps from one `World` to the
    next: a driver appeals a trip that was flagged with a violation, the authorities review the
    appeal, and the parties comment on it. Who may do what is decided from the caller's role, the
    appeal's author and the ticket the appeal concerns. */
module AppealLifecycle {
  import opened Domain
  import opened Tables
  import opened Store
  import TR = TicketRepository
  import AR = AssignmentRepository
  import TripRepository

  /** The reason type as the request spells it: one of the four kinds the service accepts, or
      any other text. */
  datatype ReasonInput = Recognized(kind: AppealReasonType) | Unrecognized

  /** The fields of a create request. */
  datatype CreateAppealInput = CreateAppealInput(tripId: Raw<Id>, reason: ReasonInput, comment: string)

  function AppealCreatedAt(a: Appeal): int { a.createdAt }

  function CommentCreatedAt(c: AppealComment): int { c.createdAt }

  /** The row condition `ticket_id = ?` on appeals. */
  function OnTicket(ticketId: Id): Appeal -> bool
  {
    (a: Appeal) => a.ticketId == Some(ticketId)
  }

  /** The row condition `created_by_user_id = ?` on appeals. */
  function ByUser(userId: Id): Appeal -> bool
  {
    (a: Appeal) => a.createdByUserId == userId
  }

  /** The row condition `appeal_id = ?` on comments. */
  function OfAppeal(appealId: Id): AppealComment -> bool
  {
    (c: AppealComment) => c.appealId == appealId
  }

  /** The appeal with that id, or record-not-found. */
  function GetAppeal(rows: seq<Appeal>, id: Id): (r: Result<Appeal>)
    ensures r.Success? ==> r.value in rows && r.value.id == id
    ensures r.Failure? <==> forall i :: 0 <= i < |rows| ==> rows[i].id != id
    ensures r.Failure? ==> r.error == RecordNotFound
  {
    match Find(rows, AppealKey, id)
    case None => Failure(RecordNotFound)
    case Some(a) => Success(a)
  }

  /** The appeals of a ticket, latest first. */
  function ListAppealsByTicket(rows: seq<Appeal>, ticketId: Id): (r: seq<Appeal>)
    ensures forall a :: a in r <==> a in rows && a.ticketId == Some(ticketId)
    ensures multiset(r) == multiset(Filter(rows, OnTicket(ticketId)))
    ensures SortedDesc(r, AppealCreatedAt)
  {
    SortDesc(Filter(rows, OnTicket(ticketId)), AppealCreatedAt)
  }

  /** The appeals a user filed, latest first. */
  function ListAppealsByUser(rows: seq<Appeal>, userId: Id): (r: seq<Appeal>)
    ensures forall a :: a in r <==> a in rows && a.createdByUserId == userId
    ensures multiset(r) == multiset(Filter(rows, ByUser(userId)))
    ensures SortedDesc(r, AppealCreatedAt)
  {
    SortDesc(Filter(rows, ByUser(userId)), AppealCreatedAt)
  }

  /** The comments on an appeal, oldest first. */
  function CommentsOf(rows: seq<AppealComment>, appealId: Id): (r: seq<AppealComment>)
    ensures forall c :: c in r <==> c in rows && c.appealId == appealId
    ensures multiset(r) == multiset(Filter(rows, OfAppeal(appealId)))
    ensures SortedAsc(r, CommentCreatedAt)
  {
    SortAsc(Filter(rows, OfAppeal(appealId)), CommentCreatedAt)
  }

  /** Create reaches the comparison of the trip's driver with the caller's driver record, which
      the service makes without checking that the caller has one. */
  predicate ComparesDriver(w: World, p: Principal, input: CreateAppealInput)
  {
    && p.IsDriver()
    && input.reason.Recognized?
    && input.tripId.Well?
    && TripRepository.GetByID(w.trips, input.tripId.value).Success?
    && TripRepository.GetByID(w.trips, input.tripId.value).value.driverId.Some?
  }

  /** The appeal a driver files against a trip. */
  function NewAppeal(id: Id, trip: Trip, p: Principal, kind: AppealReasonType, comment: string, now: Time): Appeal
  {
    Appeal(id, Some(trip.id), trip.ticketId, p.userId, Submitted, TripStatusName(trip.status), Some(kind), comment, None, now)
  }

  /** Create: only a driver; the reason type is checked before the trip id is parsed; the trip
      must exist, be the caller's own and carry a violation. The new appeal is SUBMITTED, its
      reason is the trip's status, and it concerns the trip's ticket. */
  function Create(w: World, p: Principal, input: CreateAppealInput, now: Time): (s: Step<Result<Appeal>>)
    requires ComparesDriver(w, p, input) ==> p.driverId.Some?
    ensures !p.IsDriver() ==> s == Step(w, Failure(PermissionDenied))
    ensures p.IsDriver() && input.reason.Unrecognized? ==> s == Step(w, Failure(InvalidInput))
    ensures p.IsDriver() && input.tripId.Malformed? ==> s == Step(w, Failure(InvalidInput))
    ensures s.result.Failure? ==> s.world == w
    ensures s.result.Success? <==>
      && ComparesDriver(w, p, input)
      && TripRepository.GetByID(w.trips, input.tripId.value).value.driverId == p.driverId
      && TripRepository.GetByID(w.trips, input.tripId.value).value.status != Ok
    ensures s.result == Failure(Conflict) <==>
      && ComparesDriver(w, p, input)
      && TripRepository.GetByID(w.trips, input.tripId.value).value.driverId == p.driverId
      && TripRepository.GetByID(w.trips, input.tripId.value).value.status == Ok
    ensures s.result.Success? ==>
      var a := s.result.value;
      var trip := TripRepository.GetByID(w.trips, input.tripId.value).value;
      && a.id == w.nextId
      && a.status == Submitted
      && a.tripId == Some(trip.id) && a.ticketId == trip.ticketId
      && a.reason == TripStatusName(trip.status) && a.reason != "OK"
      && a.reasonType == Some(input.reason.kind)
      && a.createdByUserId == p.userId && a.comment == input.comment
      && a.adminResponse.None? && a.createdAt == now
      && s.world == w.(appeals := w.appeals + [a], nextId := w.nextId + 1)
    ensures Valid(w) ==> Valid(s.world)
  {
    if !p.IsDriver() then Step(w, Failure(PermissionDenied))
    else if input.reason.Unrecognized? then Step(w, Failure(InvalidInput))
    else if input.tripId.Malformed? then Step(w, Failure(InvalidInput))
    else match TripRepository.GetByID(w.trips, input.tripId.value)
      case Failure(_) => Step(w, Failure(NotFound))
      case Success(trip) =>
        if trip.driverId.None? || trip.driverId.value != p.driverId.value then Step(w, Failure(PermissionDenied))
        else if trip.status == Ok then Step(w, Failure(Conflict))
        else
          var a := NewAppeal(w.nextId, trip, p, input.reason.kind, input.comment, now);
          var w' := w.(appeals := w.appeals + [a], nextId := w.nextId + 1);
          assert Valid(w) ==> Valid(w') by {
            if Valid(w) {
              FreshIdValid(w);
              WellKeyedAppend(w.appeals, AppealKey, w.nextId, a);
            }
          }
          Step(w', Success(a))
  }

  /** ListByTicketID: the appeals of a stored ticket, for Akimat, for the KGU ZKH that created it
      and for its contractor. A driver gets every appeal it filed, on whatever ticket. */
  function ListByTicketID(w: World, p: Principal, ticketId: Id): (r: Result<seq<Appeal>>)
    ensures TR.GetByID(w.tickets, ticketId).Failure? ==> r == Failure(NotFound)
    ensures r.Success? <==>
      && TR.GetByID(w.tickets, ticketId).Success?
      && (|| p.IsAkimat() || p.IsDriver()
          || (p.IsKgu() && TR.GetByID(w.tickets, ticketId).value.createdByOrgId == p.orgId)
          || (p.IsContractor() && TR.GetByID(w.tickets, ticketId).value.contractorId == p.orgId))
    ensures r.Failure? && TR.GetByID(w.tickets, ticketId).Success? ==> r == Failure(PermissionDenied)
    ensures r.Success? && !p.IsDriver() ==> forall a :: a in r.value <==> a in w.appeals && a.ticketId == Some(ticketId)
    ensures r.Success? && p.IsDriver() ==> forall a :: a in r.value <==> a in w.appeals && a.createdByUserId == p.userId
    ensures r.Success? ==> SortedDesc(r.value, AppealCreatedAt)
  {
    match TR.GetByID(w.tickets, ticketId)
    case Failure(_) => Failure(NotFound)
    case Success(t) =>
      if p.IsAkimat() then Success(ListAppealsByTicket(w.appeals, t.id))
      else if p.IsKgu() then
        if t.createdByOrgId != p.orgId then Failure(PermissionDenied) else Success(ListAppealsByTicket(w.appeals, t.id))
      else if p.IsContractor() then
        if t.contractorId != p.orgId then Failure(PermissionDenied) else Success(ListAppealsByTicket(w.appeals, t.id))
      else if p.IsDriver() then Success(ListAppealsByUser(w.appeals, p.userId))
      else Failure(PermissionDenied)
  }

  /** ListDriverAppeals: a driver's own appeals; with a ticket (`None` stands for an absent or
      empty parameter) only those on that ticket, and only while the driver is actively assigned
      to it. */
  function ListDriverAppeals(w: World, p: Principal, ticketId: Option<Raw<Id>>): (r: Result<seq<Appeal>>)
    ensures !p.IsDriver() ==> r == Failure(PermissionDenied)
    ensures p.IsDriver() && ticketId.None? ==> r == Success(ListAppealsByUser(w.appeals, p.userId))
    ensures p.IsDriver() && ticketId.Some? && p.driverId.Some? && ticketId.value.Malformed? ==> r == Failure(InvalidInput)
    ensures r.Success? && ticketId.Some? <==>
      && p.IsDriver() && ticketId.Some? && p.driverId.Some? && ticketId.value.Well?
      && AR.HasActiveAssignment(w.assignments, ticketId.value.value, p.driverId.value)
    ensures r.Success? ==> forall a :: a in r.value ==> a in w.appeals && a.createdByUserId == p.userId
    ensures r.Success? && ticketId.Some? ==>
      forall a :: a in r.value <==> a in w.appeals && a.createdByUserId == p.userId && a.ticketId == Some(ticketId.value.value)
    ensures r.Success? ==> SortedDesc(r.value, AppealCreatedAt)
  {
    if !p.IsDriver() then Failure(PermissionDenied)
    else match ticketId
      case None => Success(ListAppealsByUser(w.appeals, p.userId))
      case Some(raw) =>
        if p.driverId.None? then Failure(PermissionDenied)
        else match raw
          case Malformed => Failure(InvalidInput)
          case Well(tid) =>
            if !AR.HasActiveAssignment(w.assignments, tid, p.driverId.value) then Failure(PermissionDenied)
            else
              var listed := ListAppealsByTicket(w.appeals, tid);
              FilterSortedDesc(listed, ByUser(p.userId), AppealCreatedAt);
              Success(Filter(listed, ByUser(p.userId)))
  }

  /** Whether the caller may read an appeal: Akimat always; KGU ZKH and the contractor when the
      appeal concerns no ticket or concerns one of theirs; a driver when it filed the appeal. A
      missing ticket is the lookup's own error. */
  function ReadAccess(w: World, p: Principal, a: Appeal): (r: Outcome)
    ensures p.IsAkimat() ==> r == Done
    ensures p.IsDriver() ==> (r == Done <==> a.createdByUserId == p.userId)
    ensures (p.IsKgu() || p.IsContractor()) && a.ticketId.None? ==> r == Done
    ensures (p.IsKgu() || p.IsContractor()) && a.ticketId.Some? && TR.GetByID(w.tickets, a.ticketId.value).Failure? ==>
      r == Fail(RecordNotFound)
    ensures p.IsKgu() && a.ticketId.Some? && TR.GetByID(w.tickets, a.ticketId.value).Success? ==>
      (r == Done <==> TR.GetByID(w.tickets, a.ticketId.value).value.createdByOrgId == p.orgId)
    ensures p.IsContractor() && a.ticketId.Some? && TR.GetByID(w.tickets, a.ticketId.value).Success? ==>
      (r == Done <==> TR.GetByID(w.tickets, a.ticketId.value).value.contractorId == p.orgId)
    ensures p.role == OtherRole || p.role == Landfill ==> r == Fail(PermissionDenied)
    ensures r == Done || r == Fail(PermissionDenied) || r == Fail(RecordNotFound)
  {
    if p.IsAkimat() then Done
    else if p.IsKgu() then
      match a.ticketId
      case None => Done
      case Some(tid) =>
        match TR.GetByID(w.tickets, tid)
        case Failure(e) => Fail(e)
        case Success(t) => if t.createdByOrgId != p.orgId then Fail(PermissionDenied) else Done
    else if p.IsContractor() then ContractorAccess(w, p, a)
    else if p.IsDriver() then
      if a.createdByUserId != p.userId then Fail(PermissionDenied) else Done
    else Fail(PermissionDenied)
  }

  /** A contractor's access to an appeal: granted when it concerns no ticket or one the
      contractor executes. */
  function ContractorAccess(w: World, p: Principal, a: Appeal): (r: Outcome)
    ensures a.ticketId.None? ==> r == Done
    ensures a.ticketId.Some? && TR.GetByID(w.tickets, a.ticketId.value).Failure? ==> r == Fail(RecordNotFound)
    ensures a.ticketId.Some? && TR.GetByID(w.tickets, a.ticketId.value).Success? ==>
      (r == Done <==> TR.GetByID(w.tickets, a.ticketId.value).value.contractorId == p.orgId)
    ensures r == Done || r == Fail(PermissionDenied) || r == Fail(RecordNotFound)
  {
    match a.ticketId
    case None => Done
    case Some(tid) =>
      match TR.GetByID(w.tickets, tid)
      case Failure(e) => Fail(e)
      case Success(t) => if t.contractorId != p.orgId then Fail(PermissionDenied) else Done
  }

  /** Whether the caller may comment on an appeal or read its comments: a driver on its own
      appeal, KGU ZKH and Akimat on any appeal, a contractor as for reading it. */
  function CommentAccess(w: World, p: Principal, a: Appeal): (r: Outcome)
    ensures p.IsDriver() ==> (r == Done <==> a.createdByUserId == p.userId)
    ensures p.IsKgu() || p.IsAkimat() ==> r == Done
    ensures p.IsContractor() ==> r == ContractorAccess(w, p, a)
    ensures p.role == OtherRole || p.role == Landfill ==> r == Fail(PermissionDenied)
  {
    if p.IsDriver() then
      if a.createdByUserId != p.userId then Fail(PermissionDenied) else Done
    else if p.IsKgu() || p.IsAkimat() then Done
    else if p.IsContractor() then ContractorAccess(w, p, a)
    else Fail(PermissionDenied)
  }

  /** Comment access is read access, except that KGU ZKH may comment on and read the comments of
      appeals on tickets another organisation created, which it may not read. */
  lemma CommentAccessWidensRead(w: World, p: Principal, a: Appeal)
    ensures ReadAccess(w, p, a) == Done ==> CommentAccess(w, p, a) == Done
    ensures !p.IsKgu() ==> ReadAccess(w, p, a) == CommentAccess(w, p, a)
    ensures (p.IsKgu() && a.ticketId.Some? && TR.GetByID(w.tickets, a.ticketId.value).Success? &&
             TR.GetByID(w.tickets, a.ticketId.value).value.createdByOrgId != p.orgId) ==>
      ReadAccess(w, p, a) == Fail(PermissionDenied) && CommentAccess(w, p, a) == Done
  {
  }

  /** GetByID: a stored appeal the caller may read. */
  function GetByID(w: World, p: Principal, id: Id): (r: Result<Appeal>)
    ensures GetAppeal(w.appeals, id).Failure? ==> r == Failure(NotFound)
    ensures r.Success? <==> GetAppeal(w.appeals, id).Success? && ReadAccess(w, p, GetAppeal(w.appeals, id).value) == Done
    ensures r.Success? ==> r.value in w.appeals && r.value.id == id
  {
    match GetAppeal(w.appeals, id)
    case Failure(_) => Failure(NotFound)
    case Success(a) =>
      match ReadAccess(w, p, a)
      case Fail(e) => Failure(e)
      case Done => Success(a)
  }

  /** The appeal as a review leaves it: the new status, and the response only when one is
      given. */
  function Reviewed(a: Appeal, status: AppealStatus, adminResponse: Option<string>): Appeal
  {
    a.(status := status, adminResponse := if adminResponse.Some? then adminResponse else a.adminResponse)
  }

  /** UpdateStatus: KGU ZKH or Akimat only; KGU ZKH only on appeals that concern no ticket or a
      ticket it created. Only the status and, when one is given, the response change; any status
      may follow any other. */
  function UpdateStatus(w: World, p: Principal, id: Id, status: AppealStatus, adminResponse: Option<string>): (s: Step<Outcome>)
    ensures !p.IsKgu() && !p.IsAkimat() ==> s == Step(w, Fail(PermissionDenied))
    ensures (p.IsKgu() || p.IsAkimat()) && GetAppeal(w.appeals, id).Failure? ==> s == Step(w, Fail(NotFound))
    ensures s.result.Fail? ==> s.world == w
    ensures s.result == Done <==>
      && (p.IsKgu() || p.IsAkimat())
      && GetAppeal(w.appeals, id).Success?
      && ReadAccess(w, p, GetAppeal(w.appeals, id).value) == Done
    ensures s.result == Done ==>
      var a := GetAppeal(w.appeals, id).value;
      && s.world == w.(appeals := Save(w.appeals, AppealKey, Reviewed(a, status, adminResponse)))
      && GetAppeal(s.world.appeals, id) == Success(Reviewed(a, status, adminResponse))
      && |s.world.appeals| == |w.appeals|
    ensures Valid(w) ==> Valid(s.world)
  {
    if !p.IsKgu() && !p.IsAkimat() then Step(w, Fail(PermissionDenied))
    else match GetAppeal(w.appeals, id)
      case Failure(_) => Step(w, Fail(NotFound))
      case Success(a) =>
        match ReadAccess(w, p, a)
        case Fail(e) => Step(w, Fail(e))
        case Done =>
          var u := Reviewed(a, status, adminResponse);
          assert Valid(w) ==> Valid(w.(appeals := Save(w.appeals, AppealKey, u))) by {
            if Valid(w) {
              var i :| 0 <= i < |w.appeals| && w.appeals[i] == a;
              WellKeyedSave(w.appeals, AppealKey, w.nextId, u);
            }
          }
          Step(w.(appeals := Save(w.appeals, AppealKey, u)), Done)
  }

  /** A review without a response keeps the response given before; nothing but the status and
      the response ever changes. */
  lemma ReviewKeepsResponse(w: World, p: Principal, id: Id, status: AppealStatus)
    requires UpdateStatus(w, p, id, status, None).result == Done
    ensures var a := GetAppeal(w.appeals, id).value;
      var b := GetAppeal(UpdateStatus(w, p, id, status, None).world.appeals, id).value;
      b == a.(status := status)
  {
  }

  /** AddComment: a comment by the caller on an appeal it may comment on. */
  function AddComment(w: World, p: Principal, appealId: Id, content: string, now: Time): (s: Step<Outcome>)
    ensures GetAppeal(w.appeals, appealId).Failure? ==> s == Step(w, Fail(NotFound))
    ensures s.result.Fail? ==> s.world == w
    ensures s.result == Done <==>
      GetAppeal(w.appeals, appealId).Success? && CommentAccess(w, p, GetAppeal(w.appeals, appealId).value) == Done
    ensures s.result == Done ==>
      s.world == w.(comments := w.comments + [AppealComment(w.nextId, appealId, p.userId, content, now)],
                    nextId := w.nextId + 1)
    ensures Valid(w) ==> Valid(s.world)
  {
    match GetAppeal(w.appeals, appealId)
    case Failure(_) => Step(w, Fail(NotFound))
    case Success(a) =>
      match CommentAccess(w, p, a)
      case Fail(e) => Step(w, Fail(e))
      case Done =>
        var c := AppealComment(w.nextId, a.id, p.userId, content, now);
        var w' := w.(comments := w.comments + [c], nextId := w.nextId + 1);
        assert Valid(w) ==> Valid(w') by {
          if Valid(w) {
            FreshIdValid(w);
            WellKeyedAppend(w.comments, CommentKey, w.nextId, c);
          }
        }
        Step(w', Done)
  }

  /** GetComments: the comments on an appeal the caller may comment on, oldest first. */
  function GetComments(w: World, p: Principal, appealId: Id): (r: Result<seq<AppealComment>>)
    ensures GetAppeal(w.appeals, appealId).Failure? ==> r == Failure(NotFound)
    ensures r.Success? <==>
      GetAppeal(w.appeals, appealId).Success? && CommentAccess(w, p, GetAppeal(w.appeals, appealId).value) == Done
    ensures r.Success? ==> forall c :: c in r.value <==> c in w.comments && c.appealId == appealId
    ensures r.Success? ==> SortedAsc(r.value, CommentCreatedAt)
  {
    match GetAppeal(w.appeals, appealId)
    case Failure(_) => Failure(NotFound)
    case Success(a) =>
      match CommentAccess(w, p, a)
      case Fail(e) => Failure(e)
      case Done => Success(CommentsOf(w.comments, a.id))
  }

  /** Whoever may add a comment may read the comments, and the two refuse with the same error. */
  lemma CommentRightsAgree(w: World, p: Principal, appealId: Id, content: string, now: Time)
    ensures AddComment(w, p, appealId, content, now).result.Fail? <==> GetComments(w, p, appealId).Failure?
    ensures AddComment(w, p, appealId, content, now).result.Fail? ==>
      AddComment(w, p, appealId, content, now).result.error == GetComments(w, p, appealId).error
  {
  }

  /** A comment once added is among the comments read back afterwards, by anyone allowed. */
  lemma CommentIsListed(w: World, p: Principal, q: Principal, appealId: Id, content: string, now: Time)
    requires AddComment(w, p, appealId, content, now).result == Done
    requires q.IsKgu() || q.IsAkimat()
    ensures var w' := AddComment(w, p, appealId, content, now).world;
      GetComments(w', q, appealId).Success? &&
      AppealComment(w.nextId, appealId, p.userId, content, now) in GetComments(w', q, appealId).value
  {
    var w' := AddComment(w, p, appealId, content, now).world;
    assert w'.appeals == w.appeals;
    assert w'.comments[|w.comments|] == AppealComment(w.nextId, appealId, p.userId, content, now);
  }
}
