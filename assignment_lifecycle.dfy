/** The assignment rules of internal/service/assignment_service.go, as steps from one `World` to
    the next: a contractor assigns drivers and vehicles to its tickets and withdraws them, and a
    driver marks the start and the end of its trip, which starts the ticket, reconciles the trip
    and may complete the ticket. */
module AssignmentLifecycle {
  import opened Domain
  import opened Tables
  import opened Store
  import TR = TicketRepository
  import AR = AssignmentRepository
  import TripRepository
  import TL = TicketLifecycle
  import TripLifecycle

  /** The text fields of a create request. */
  datatype CreateAssignmentInput = CreateAssignmentInput(ticketId: Raw<Id>, driverId: Raw<Id>, vehicleId: Raw<Id>)

  /** isTicketMutableForAssignments: assignments may change only while the ticket is PLANNED or
      IN_PROGRESS. */
  predicate IsTicketMutable(status: TicketStatus)
  {
    status == Planned || status == InProgress
  }

  /** The statuses that admit assignment changes are exactly those that still admit trips and
      driver marks. */
  lemma MutableIffNotTerminal(status: TicketStatus)
    ensures IsTicketMutable(status) <==> !TripLifecycle.Terminal(status)
  {
  }

  /** A finish stamp only ever follows a start stamp. */
  predicate Ordered(a: Assignment)
  {
    a.tripFinishedAt.Some? ==> a.tripStartedAt.Some?
  }

  ghost predicate StampsOrdered(w: World)
  {
    forall i :: 0 <= i < |w.assignments| ==> Ordered(w.assignments[i])
  }

  /** A trip stamp, once recorded, is kept: `b` is `a` later on. */
  ghost predicate MarksWithin(a: Assignment, b: Assignment)
  {
    && a.id == b.id
    && (a.tripStartedAt.Some? ==> b.tripStartedAt == a.tripStartedAt)
    && (a.tripFinishedAt.Some? ==> b.tripFinishedAt == a.tripFinishedAt)
  }

  /** Every assignment of `w` is still stored, at its place, with its trip stamps, in `w'`. */
  ghost predicate TripStampsKept(w: World, w': World)
  {
    && |w.assignments| <= |w'.assignments|
    && forall i :: 0 <= i < |w.assignments| ==> MarksWithin(w.assignments[i], w'.assignments[i])
  }

  /** What every step of the core keeps: the store stays valid, no ticket or assignment stamp is
      lost or changed, and finish stamps still follow start stamps. */
  ghost predicate Keeps(w: World, w': World)
  {
    && Valid(w')
    && TL.FactStampsKept(w, w')
    && TripStampsKept(w, w')
    && (StampsOrdered(w) ==> StampsOrdered(w'))
  }

  lemma KeepsTrans(w1: World, w2: World, w3: World)
    requires Keeps(w1, w2) && Keeps(w2, w3)
    ensures Keeps(w1, w3)
  {
    TripLifecycle.FactStampsKeptTrans(w1, w2, w3);
    forall i | 0 <= i < |w1.assignments| ensures MarksWithin(w1.assignments[i], w3.assignments[i]) {
      assert MarksWithin(w1.assignments[i], w2.assignments[i]);
    }
  }

  /** A step that leaves the assignments alone keeps their stamps. */
  lemma KeepsAssignments(w: World, w': World)
    requires w'.assignments == w.assignments
    requires Valid(w') && TL.FactStampsKept(w, w')
    ensures Keeps(w, w')
  {
    assert forall i :: 0 <= i < |w.assignments| ==> MarksWithin(w.assignments[i], w'.assignments[i]);
  }

  /** Rewriting the assignments row by row, keeping each row's key and stamps and never adding a
      finish stamp before a start stamp, keeps the store. */
  lemma RewriteKeeps(w: World, rows: seq<Assignment>)
    requires Valid(w)
    requires |rows| == |w.assignments|
    requires forall i :: 0 <= i < |rows| ==> MarksWithin(w.assignments[i], rows[i])
    requires forall i :: 0 <= i < |rows| && Ordered(w.assignments[i]) ==> Ordered(rows[i])
    ensures Keeps(w, w.(assignments := rows))
  {
    var w' := w.(assignments := rows);
    assert forall i :: 0 <= i < |rows| ==> rows[i].id == w.assignments[i].id;
    assert WellKeyed(rows, AR.AssignmentKey, w.nextId);
    assert forall i :: 0 <= i < |w.tickets| ==> TL.StampsWithin(w.tickets[i], w'.tickets[i]);
  }

  /** With distinct keys, the row stored at `i` is the one GetByID finds for its key. */
  lemma FoundRow(rows: seq<Assignment>, i: nat)
    requires KeysUnique(rows, AR.AssignmentKey)
    requires i < |rows|
    ensures AR.GetByID(rows, rows[i].id) == Success(rows[i])
  {
    FindUnique(rows, AR.AssignmentKey, rows[i].id, i);
  }

  /** A ticket stored in `w` is still found once every stamp of `w` is kept. */
  lemma TicketStillFound(w: World, w': World, id: Id)
    requires TL.FactStampsKept(w, w')
    requires TR.GetByID(w.tickets, id).Success?
    ensures TR.GetByID(w'.tickets, id).Success?
  {
    var i :| 0 <= i < |w.tickets| && w.tickets[i] == TR.GetByID(w.tickets, id).value;
    assert TL.StampsWithin(w.tickets[i], w'.tickets[i]);
  }

  /** The assignment a contractor's request creates. */
  function NewAssignment(id: Id, ticketId: Id, driverId: Id, vehicleId: Id, now: Time): Assignment
  {
    Assignment(id, ticketId, driverId, vehicleId, MarkNotStarted, now, None, true, None, None)
  }

  /** Create: only a contractor, only with well-formed identifiers, only on a stored ticket it
      executes, and only while that ticket is PLANNED or IN_PROGRESS. The new assignment is
      active, NOT_STARTED, assigned now, without trip stamps, under a fresh identifier. The
      driver and the vehicle are not looked up. */
  function Create(w: World, p: Principal, input: CreateAssignmentInput, now: Time): (s: Step<Result<Assignment>>)
    ensures !p.IsContractor() ==> s == Step(w, Failure(PermissionDenied))
    ensures p.IsContractor() && (input.ticketId.Malformed? || input.driverId.Malformed? || input.vehicleId.Malformed?) ==>
      s == Step(w, Failure(InvalidInput))
    ensures s.result.Failure? ==> s.world == w
    ensures s.result.Success? <==>
      && p.IsContractor()
      && input.ticketId.Well? && input.driverId.Well? && input.vehicleId.Well?
      && TR.GetByID(w.tickets, input.ticketId.value).Success?
      && TR.GetByID(w.tickets, input.ticketId.value).value.contractorId == p.orgId
      && IsTicketMutable(TR.GetByID(w.tickets, input.ticketId.value).value.status)
    ensures s.result == Failure(Conflict) <==>
      && p.IsContractor()
      && input.ticketId.Well? && input.driverId.Well? && input.vehicleId.Well?
      && TR.GetByID(w.tickets, input.ticketId.value).Success?
      && TR.GetByID(w.tickets, input.ticketId.value).value.contractorId == p.orgId
      && !IsTicketMutable(TR.GetByID(w.tickets, input.ticketId.value).value.status)
    ensures s.result.Success? ==>
      var a := s.result.value;
      && a.id == w.nextId
      && a.ticketId == input.ticketId.value && a.driverId == input.driverId.value && a.vehicleId == input.vehicleId.value
      && a.markStatus == MarkNotStarted && a.isActive && a.assignedAt == now
      && a.unassignedAt.None? && a.tripStartedAt.None? && a.tripFinishedAt.None?
      && s.world == w.(assignments := w.assignments + [a], nextId := w.nextId + 1)
    ensures Valid(w) && s.result.Success? ==> AR.GetByID(s.world.assignments, s.result.value.id) == s.result
    ensures Valid(w) ==> Keeps(w, s.world)
  {
    if !p.IsContractor() then Step(w, Failure(PermissionDenied))
    else if input.ticketId.Malformed? || input.driverId.Malformed? || input.vehicleId.Malformed? then
      Step(w, Failure(InvalidInput))
    else match TR.GetByID(w.tickets, input.ticketId.value)
      case Failure(_) => Step(w, Failure(NotFound))
      case Success(t) =>
        if t.contractorId != p.orgId then Step(w, Failure(PermissionDenied))
        else if !IsTicketMutable(t.status) then Step(w, Failure(Conflict))
        else
          var a := NewAssignment(w.nextId, input.ticketId.value, input.driverId.value, input.vehicleId.value, now);
          var w' := w.(assignments := w.assignments + [a], nextId := w.nextId + 1);
          assert Valid(w) ==> Keeps(w, w') && AR.GetByID(w'.assignments, a.id) == Success(a) by {
            if Valid(w) { AppendKeeps(w, a); }
          }
          Step(w', Success(a))
  }

  /** Inserting an assignment without stamps under the next identifier keeps the store. */
  lemma AppendKeeps(w: World, a: Assignment)
    requires Valid(w)
    requires a.id == w.nextId && a.tripStartedAt.None? && a.tripFinishedAt.None?
    ensures Keeps(w, w.(assignments := w.assignments + [a], nextId := w.nextId + 1))
    ensures AR.GetByID(w.assignments + [a], a.id) == Success(a)
  {
    var w' := w.(assignments := w.assignments + [a], nextId := w.nextId + 1);
    FreshIdValid(w);
    WellKeyedAppend(w.assignments, AR.AssignmentKey, w.nextId, a);
    assert forall i :: 0 <= i < |w.tickets| ==> TL.StampsWithin(w.tickets[i], w'.tickets[i]);
    assert forall i :: 0 <= i < |w.assignments| ==> MarksWithin(w.assignments[i], w'.assignments[i]);
    FoundRow(w'.assignments, |w.assignments|);
  }

  /** A new assignment keeps its ticket from being completed until its driver marks it
      COMPLETED or it is withdrawn. */
  lemma CreateBlocksCompletion(w: World, p: Principal, input: CreateAssignmentInput, now: Time)
    requires Create(w, p, input, now).result.Success?
    ensures var s := Create(w, p, input, now);
      && TR.CountIncompleteAssignmentsByTicketID(s.world.assignments, input.ticketId.value) > 0
      && !TL.ReadyToComplete(s.world, input.ticketId.value)
  {
    var s := Create(w, p, input, now);
    assert s.world.assignments[|w.assignments|] == s.result.value;
  }

  /** Delete: only a contractor, only an assignment that exists, only on a ticket it executes
      that is still PLANNED or IN_PROGRESS. The row is soft-deleted: it stays, inactive and
      stamped with the time it was withdrawn. A missing ticket is the lookup's own error. */
  function Delete(w: World, p: Principal, id: Id, now: Time): (s: Step<Outcome>)
    ensures !p.IsContractor() ==> s == Step(w, Fail(PermissionDenied))
    ensures p.IsContractor() && AR.GetByID(w.assignments, id).Failure? ==> s == Step(w, Fail(NotFound))
    ensures (p.IsContractor() && AR.GetByID(w.assignments, id).Success? &&
      TR.GetByID(w.tickets, AR.GetByID(w.assignments, id).value.ticketId).Failure?) ==> s == Step(w, Fail(RecordNotFound))
    ensures s.result.Fail? ==> s.world == w
    ensures s.result == Done <==>
      && p.IsContractor()
      && AR.GetByID(w.assignments, id).Success?
      && TR.GetByID(w.tickets, AR.GetByID(w.assignments, id).value.ticketId).Success?
      && TR.GetByID(w.tickets, AR.GetByID(w.assignments, id).value.ticketId).value.contractorId == p.orgId
      && IsTicketMutable(TR.GetByID(w.tickets, AR.GetByID(w.assignments, id).value.ticketId).value.status)
    ensures s.result == Done ==>
      && AR.GetByID(s.world.assignments, id) == Success(AR.SoftDeleted(AR.GetByID(w.assignments, id).value, now))
      && |s.world.assignments| == |w.assignments|
      && s.world == w.(assignments := AR.Delete(w.assignments, id, now))
    ensures Valid(w) ==> Keeps(w, s.world)
  {
    if !p.IsContractor() then Step(w, Fail(PermissionDenied))
    else match AR.GetByID(w.assignments, id)
      case Failure(_) => Step(w, Fail(NotFound))
      case Success(a) =>
        match TR.GetByID(w.tickets, a.ticketId)
        case Failure(e) => Step(w, Fail(e))
        case Success(t) =>
          if t.contractorId != p.orgId then Step(w, Fail(PermissionDenied))
          else if !IsTicketMutable(t.status) then Step(w, Fail(Conflict))
          else
            var rows := AR.Delete(w.assignments, id, now);
            assert Valid(w) ==> Keeps(w, w.(assignments := rows)) by {
              if Valid(w) { SoftDeleteKeeps(w, id, now); }
            }
            Step(w.(assignments := rows), Done)
  }

  lemma SoftDeleteKeeps(w: World, id: Id, now: Time)
    requires Valid(w)
    ensures Keeps(w, w.(assignments := AR.Delete(w.assignments, id, now)))
  {
    RewriteKeeps(w, AR.Delete(w.assignments, id, now));
  }

  /** A withdrawn assignment no longer blocks the completion of its ticket. */
  lemma DeleteUnblocks(w: World, p: Principal, id: Id, now: Time)
    requires Delete(w, p, id, now).result == Done
    ensures var s := Delete(w, p, id, now);
      forall i :: 0 <= i < |s.world.assignments| && s.world.assignments[i].id == id ==>
        !TR.IsIncompleteAssignment(s.world.assignments[i])
  {
  }

  /** The assignment row as a mark leaves it: IN_WORK stamps the start, COMPLETED the finish, and
      any other mark only replaces the status. */
  function Marked(a: Assignment, status: DriverMarkStatus, now: Time): Assignment
  {
    if status == MarkInWork then a.(tripStartedAt := Some(now), markStatus := status)
    else if status == MarkCompleted then a.(tripFinishedAt := Some(now), markStatus := status)
    else a.(markStatus := status)
  }

  /** The assignment a driver's mark is about, once the caller is known to be a driver with a
      driver record. */
  function OwnAssignment(w: World, p: Principal, id: Id): Option<Assignment>
  {
    if p.IsDriver() && p.driverId.Some? && AR.GetByID(w.assignments, id).Success? then
      Some(AR.GetByID(w.assignments, id).value)
    else None
  }

  /** The checks every mark must pass: the caller is a driver with a driver record, the
      assignment exists and is its own, and its ticket exists and takes no more trips. */
  predicate MarkAllowed(w: World, p: Principal, id: Id)
  {
    && p.IsDriver() && p.driverId.Some?
    && AR.GetByID(w.assignments, id).Success?
    && AR.GetByID(w.assignments, id).value.driverId == p.driverId.value
    && TR.GetByID(w.tickets, AR.GetByID(w.assignments, id).value.ticketId).Success?
    && !TripLifecycle.Terminal(TR.GetByID(w.tickets, AR.GetByID(w.assignments, id).value.ticketId).value.status)
  }

  /** The stamps of the assignment admit the mark: a trip starts once and finishes once, after it
      started. */
  predicate MarkFits(a: Assignment, status: DriverMarkStatus)
  {
    && (status == MarkInWork ==> a.tripStartedAt.None?)
    && (status == MarkCompleted ==> a.tripStartedAt.Some? && a.tripFinishedAt.None?)
  }

  /** UpdateDriverMarkStatus: the guards in the order the service checks them, then the mark. */
  function UpdateDriverMarkStatus(w: World, p: Principal, id: Id, status: DriverMarkStatus,
                                  anpr: TripLifecycle.Anpr, now: Time): (s: Step<Outcome>)
    ensures !p.IsDriver() || p.driverId.None? ==> s == Step(w, Fail(PermissionDenied))
    ensures p.IsDriver() && p.driverId.Some? && AR.GetByID(w.assignments, id).Failure? ==> s == Step(w, Fail(NotFound))
    ensures OwnAssignment(w, p, id).Some? ==> (
      var a := OwnAssignment(w, p, id).value;
      && (a.driverId != p.driverId.value ==> s == Step(w, Fail(PermissionDenied)))
      && (a.driverId == p.driverId.value && TR.GetByID(w.tickets, a.ticketId).Failure? ==> s == Step(w, Fail(RecordNotFound)))
      && ((a.driverId == p.driverId.value && TR.GetByID(w.tickets, a.ticketId).Success? &&
           TripLifecycle.Terminal(TR.GetByID(w.tickets, a.ticketId).value.status)) ==> s == Step(w, Fail(Conflict))))
    ensures MarkAllowed(w, p, id) && !MarkFits(AR.GetByID(w.assignments, id).value, status) ==> s == Step(w, Fail(Conflict))
    ensures s.result == Done ==>
      && MarkAllowed(w, p, id) && MarkFits(AR.GetByID(w.assignments, id).value, status)
      && AR.GetByID(s.world.assignments, id) == Success(Marked(AR.GetByID(w.assignments, id).value, status, now))
    ensures Valid(w) ==> (s.result == Done <==> MarkAllowed(w, p, id) && MarkFits(AR.GetByID(w.assignments, id).value, status))
    ensures Valid(w) && s.result.Fail? ==> s.world == w
    ensures Valid(w) ==> Keeps(w, s.world)
    ensures MarkAllowed(w, p, id) ==>
      var a := AR.GetByID(w.assignments, id).value;
      s == Mark(w, a, TR.GetByID(w.tickets, a.ticketId).value, status, anpr, now)
  {
    if !p.IsDriver() || p.driverId.None? then Step(w, Fail(PermissionDenied))
    else match AR.GetByID(w.assignments, id)
      case Failure(_) => Step(w, Fail(NotFound))
      case Success(a) =>
        if a.driverId != p.driverId.value then Step(w, Fail(PermissionDenied))
        else match TR.GetByID(w.tickets, a.ticketId)
          case Failure(e) => Step(w, Fail(e))
          case Success(t) =>
            if TripLifecycle.Terminal(t.status) then Step(w, Fail(Conflict))
            else Mark(w, a, t, status, anpr, now)
  }

  /** The mark itself, once the guards passed: IN_WORK, COMPLETED or any other status. */
  function Mark(w: World, a: Assignment, t: Ticket, status: DriverMarkStatus,
                anpr: TripLifecycle.Anpr, now: Time): (s: Step<Outcome>)
    requires AR.GetByID(w.assignments, a.id) == Success(a)
    requires TR.GetByID(w.tickets, a.ticketId) == Success(t)
    requires !TripLifecycle.Terminal(t.status)
    ensures !MarkFits(a, status) ==> s == Step(w, Fail(Conflict))
    ensures s.result == Done ==>
      MarkFits(a, status) && AR.GetByID(s.world.assignments, a.id) == Success(Marked(a, status, now))
    ensures Valid(w) ==> (s.result == Done <==> MarkFits(a, status))
    ensures Valid(w) && s.result.Fail? ==> s.world == w
    ensures Valid(w) ==> Keeps(w, s.world)
    ensures status == MarkInWork ==> s == StartWork(w, a, t, now)
    ensures status == MarkCompleted ==> s == FinishWork(w, a, anpr, now)
    ensures status == MarkNotStarted ==> s == MarkOnly(w, a, status)
  {
    if status == MarkInWork then
      assert Valid(w) ==> Keeps(w, StartWork(w, a, t, now).world) by {
        if Valid(w) { StartWorkKeeps(w, a, t, now); }
      }
      StartWork(w, a, t, now)
    else if status == MarkCompleted then FinishWork(w, a, anpr, now)
    else MarkOnly(w, a, status)
  }

  /** IN_WORK: refused once the trip has started; otherwise the start is stamped now, and a
      PLANNED ticket without a fact start moves to IN_PROGRESS, stamped now. */
  function StartWork(w: World, a: Assignment, t: Ticket, now: Time): (s: Step<Outcome>)
    ensures a.tripStartedAt.Some? ==> s == Step(w, Fail(Conflict))
    ensures a.tripStartedAt.None? ==>
      && s.result == Done
      && s.world == w.(assignments := s.world.assignments, tickets := s.world.tickets)
      && s.world.assignments == AR.UpdateTripStartedAt(w.assignments, a.id, now, MarkInWork)
    ensures a.tripStartedAt.None? && AR.GetByID(w.assignments, a.id) == Success(a) ==>
      AR.GetByID(s.world.assignments, a.id) == Success(Marked(a, MarkInWork, now))
    ensures a.tripStartedAt.None? && t.status == Planned && t.factStartAt.None? ==>
      && TR.GetByID(s.world.tickets, t.id) == Success(t.(status := InProgress, factStartAt := Some(now)))
      && s.world.tickets == TR.Update(w.tickets, t.(status := InProgress, factStartAt := Some(now)))
    ensures !(t.status == Planned && t.factStartAt.None?) ==> s.world.tickets == w.tickets
  {
    if a.tripStartedAt.Some? then Step(w, Fail(Conflict))
    else
      var marked := w.(assignments := AR.UpdateTripStartedAt(w.assignments, a.id, now, MarkInWork));
      if t.status == Planned && t.factStartAt.None? then
        Step(marked.(tickets := TR.Update(marked.tickets, t.(status := InProgress, factStartAt := Some(now)))), Done)
      else Step(marked, Done)
  }

  /** The IN_WORK mark keeps the world's invariants and stamps. */
  lemma StartWorkKeeps(w: World, a: Assignment, t: Ticket, now: Time)
    requires Valid(w)
    requires AR.GetByID(w.assignments, a.id) == Success(a)
    requires TR.GetByID(w.tickets, a.ticketId) == Success(t)
    ensures Keeps(w, StartWork(w, a, t, now).world)
  {
    if a.tripStartedAt.None? {
      var marked := w.(assignments := AR.UpdateTripStartedAt(w.assignments, a.id, now, MarkInWork));
      StartStampKeeps(w, a, now);
      if t.status == Planned && t.factStartAt.None? {
        TicketStartKeeps(w, marked, t.(status := InProgress, factStartAt := Some(now)));
      }
    }
  }

  /** Stamping the start of a trip that has not started keeps the world's invariants. */
  lemma StartStampKeeps(w: World, a: Assignment, now: Time)
    requires Valid(w)
    requires AR.GetByID(w.assignments, a.id) == Success(a)
    requires a.tripStartedAt.None?
    ensures Keeps(w, w.(assignments := AR.UpdateTripStartedAt(w.assignments, a.id, now, MarkInWork)))
  {
    var rows := AR.UpdateTripStartedAt(w.assignments, a.id, now, MarkInWork);
    forall i | 0 <= i < |rows| && w.assignments[i].id == a.id ensures w.assignments[i] == a {
      FoundRow(w.assignments, i);
    }
    RewriteKeeps(w, rows);
  }

  /** Saving the ticket moved to IN_PROGRESS after a step that kept the invariants keeps them. */
  lemma TicketStartKeeps(w: World, marked: World, u: Ticket)
    requires Keeps(w, marked)
    requires marked.tickets == w.tickets
    requires TR.GetByID(w.tickets, u.id).Success?
    requires TR.GetByID(w.tickets, u.id).value.factStartAt.None?
    requires u == TR.GetByID(w.tickets, u.id).value.(status := InProgress, factStartAt := u.factStartAt)
    ensures Keeps(w, marked.(tickets := TR.Update(marked.tickets, u)))
  {
    var started := marked.(tickets := TR.Update(marked.tickets, u));
    TL.SaveKeepsStamps(marked, u);
    KeepsAssignments(marked, started);
    KeepsTrans(w, marked, started);
  }

  /** Any other mark: only the status of the row changes. */
  function MarkOnly(w: World, a: Assignment, status: DriverMarkStatus): (s: Step<Outcome>)
    requires AR.GetByID(w.assignments, a.id) == Success(a)
    ensures s.result == Done
    ensures AR.GetByID(s.world.assignments, a.id) == Success(a.(markStatus := status))
    ensures s.world == w.(assignments := AR.UpdateDriverMarkStatus(w.assignments, a.id, status))
    ensures Valid(w) ==> Keeps(w, s.world)
  {
    var rows := AR.UpdateDriverMarkStatus(w.assignments, a.id, status);
    assert Valid(w) ==> Keeps(w, w.(assignments := rows)) by {
      if Valid(w) { RewriteKeeps(w, rows); }
    }
    Step(w.(assignments := rows), Done)
  }

  /** The world once the finish is stamped and the trip reconciled, whatever the reconciliation
      answered. */
  function Reconciled(w: World, a: Assignment, anpr: TripLifecycle.Anpr, now: Time): World
  {
    var marked := w.(assignments := AR.UpdateTripFinishedAt(w.assignments, a.id, now, MarkCompleted));
    TripLifecycle.CompleteTrip(marked, a.id, anpr, now).world
  }

  /** COMPLETED: refused unless the trip has started and not yet finished; otherwise the finish is
      stamped now, the assignment's trip is reconciled (its failure ignored) and the ticket is
      offered auto-completion, whose error is returned. */
  function FinishWork(w: World, a: Assignment, anpr: TripLifecycle.Anpr, now: Time): (s: Step<Outcome>)
    requires AR.GetByID(w.assignments, a.id) == Success(a)
    ensures !MarkFits(a, MarkCompleted) ==> s == Step(w, Fail(Conflict))
    ensures MarkFits(a, MarkCompleted) ==>
      && AR.GetByID(s.world.assignments, a.id) == Success(Marked(a, MarkCompleted, now))
      && s == TL.TryAutoComplete(Reconciled(w, a, anpr, now), a.ticketId, now)
    ensures Valid(w) && MarkFits(a, MarkCompleted) ==>
      && TripRepository.FindByAssignmentID(s.world.trips, a.id).Some?
      && TripRepository.FindByAssignmentID(s.world.trips, a.id).value.exitAt == Some(now)
      && TripRepository.FindByAssignmentID(s.world.trips, a.id).value.status == Ok
    ensures Valid(w) && MarkFits(a, MarkCompleted) && TR.GetByID(w.tickets, a.ticketId).Success? ==> s.result == Done
    ensures Valid(w) ==> Keeps(w, s.world)
  {
    if a.tripStartedAt.None? then Step(w, Fail(Conflict))
    else if a.tripFinishedAt.Some? then Step(w, Fail(Conflict))
    else
      var rows := AR.UpdateTripFinishedAt(w.assignments, a.id, now, MarkCompleted);
      var marked := w.(assignments := rows);
      var reconciled := TripLifecycle.CompleteTrip(marked, a.id, anpr, now);
      var s := TL.TryAutoComplete(reconciled.world, a.ticketId, now);
      assert AR.GetByID(rows, a.id) == Success(Marked(a, MarkCompleted, now));
      assert Valid(w) ==> FinishWorkFacts(w, a, anpr, now, marked, reconciled, s) by {
        if Valid(w) { FinishWorkKeeps(w, a, anpr, now, marked, reconciled, s); }
      }
      s
  }

  /** What the COMPLETED mark establishes, in terms of its three stages. */
  ghost predicate FinishWorkFacts(w: World, a: Assignment, anpr: TripLifecycle.Anpr, now: Time,
                                  marked: World, reconciled: Step<Result<Trip>>, s: Step<Outcome>)
  {
    && Keeps(w, s.world)
    && reconciled.result.Success?
    && TripRepository.FindByAssignmentID(s.world.trips, a.id) == Some(reconciled.result.value)
    && reconciled.result.value.exitAt == Some(now)
    && reconciled.result.value.status == Ok
    && (TR.GetByID(w.tickets, a.ticketId).Success? ==> s.result == Done)
  }

  lemma FinishWorkKeeps(w: World, a: Assignment, anpr: TripLifecycle.Anpr, now: Time,
                        marked: World, reconciled: Step<Result<Trip>>, s: Step<Outcome>)
    requires Valid(w)
    requires AR.GetByID(w.assignments, a.id) == Success(a)
    requires MarkFits(a, MarkCompleted)
    requires marked == w.(assignments := AR.UpdateTripFinishedAt(w.assignments, a.id, now, MarkCompleted))
    requires reconciled == TripLifecycle.CompleteTrip(marked, a.id, anpr, now)
    requires s == TL.TryAutoComplete(reconciled.world, a.ticketId, now)
    ensures FinishWorkFacts(w, a, anpr, now, marked, reconciled, s)
  {
    FinishStampKeeps(w, a, now);
    ReconcileKeeps(marked, a.id, anpr, now);
    KeepsTrans(w, marked, reconciled.world);
    AutoCompleteKeeps(reconciled.world, a.ticketId, now);
    KeepsTrans(w, reconciled.world, s.world);
    if TR.GetByID(w.tickets, a.ticketId).Success? {
      TicketStillFound(w, reconciled.world, a.ticketId);
    }
  }

  /** Stamping the finish of a started, unfinished trip keeps the store. */
  lemma FinishStampKeeps(w: World, a: Assignment, now: Time)
    requires Valid(w)
    requires AR.GetByID(w.assignments, a.id) == Success(a)
    requires MarkFits(a, MarkCompleted)
    ensures Keeps(w, w.(assignments := AR.UpdateTripFinishedAt(w.assignments, a.id, now, MarkCompleted)))
    ensures AR.GetByID(AR.UpdateTripFinishedAt(w.assignments, a.id, now, MarkCompleted), a.id) ==
      Success(Marked(a, MarkCompleted, now))
  {
    var rows := AR.UpdateTripFinishedAt(w.assignments, a.id, now, MarkCompleted);
    forall i | 0 <= i < |rows| && w.assignments[i].id == a.id ensures w.assignments[i] == a {
      FoundRow(w.assignments, i);
    }
    RewriteKeeps(w, rows);
  }

  /** Reconciling the trip of an assignment whose trip has started and finished succeeds, records
      the trip as the assignment's, and keeps the store. */
  lemma ReconcileKeeps(w: World, id: Id, anpr: TripLifecycle.Anpr, now: Time)
    requires Valid(w)
    requires AR.GetByID(w.assignments, id).Success?
    requires AR.GetByID(w.assignments, id).value.tripStartedAt.Some?
    requires AR.GetByID(w.assignments, id).value.tripFinishedAt.Some?
    ensures var r := TripLifecycle.CompleteTrip(w, id, anpr, now);
      && Keeps(w, r.world)
      && r.result.Success?
      && TripRepository.FindByAssignmentID(r.world.trips, id) == Some(r.result.value)
      && r.result.value.exitAt == AR.GetByID(w.assignments, id).value.tripFinishedAt
      && r.result.value.status == Ok
  {
    var r := TripLifecycle.CompleteTrip(w, id, anpr, now);
    KeepsAssignments(w, r.world);
  }

  /** Auto-completion keeps the store. */
  lemma AutoCompleteKeeps(w: World, ticketId: Id, now: Time)
    requires Valid(w)
    ensures Keeps(w, TL.TryAutoComplete(w, ticketId, now).world)
  {
    KeepsAssignments(w, TL.TryAutoComplete(w, ticketId, now).world);
  }

  /** A second IN_WORK or COMPLETED mark on the same assignment is refused: neither stamp is set
      twice. */
  lemma MarkTwiceConflicts(w: World, p: Principal, id: Id, status: DriverMarkStatus,
                           anpr: TripLifecycle.Anpr, anpr': TripLifecycle.Anpr, now: Time, later: Time)
    requires Valid(w)
    requires status == MarkInWork || status == MarkCompleted
    requires UpdateDriverMarkStatus(w, p, id, status, anpr, now).result == Done
    ensures var w1 := UpdateDriverMarkStatus(w, p, id, status, anpr, now).world;
      UpdateDriverMarkStatus(w1, p, id, status, anpr', later) == Step(w1, Fail(Conflict))
  {
    var w1 := UpdateDriverMarkStatus(w, p, id, status, anpr, now).world;
    var a := AR.GetByID(w.assignments, id).value;
    assert AR.GetByID(w1.assignments, id) == Success(Marked(a, status, now));
    TicketStillFound(w, w1, a.ticketId);
  }

  /** The driver's two marks in order, IN_WORK and then COMPLETED, both go through while the
      ticket takes trips, and leave the assignment started, finished and marked COMPLETED. */
  lemma StartThenFinish(w: World, p: Principal, id: Id, anpr: TripLifecycle.Anpr, now: Time, later: Time)
    requires Valid(w)
    requires MarkAllowed(w, p, id)
    requires AR.GetByID(w.assignments, id).value.tripStartedAt.None?
    requires AR.GetByID(w.assignments, id).value.tripFinishedAt.None?
    ensures var s1 := UpdateDriverMarkStatus(w, p, id, MarkInWork, anpr, now);
      var s2 := UpdateDriverMarkStatus(s1.world, p, id, MarkCompleted, anpr, later);
      && s1.result == Done && s2.result == Done
      && AR.GetByID(s2.world.assignments, id).value.tripStartedAt == Some(now)
      && AR.GetByID(s2.world.assignments, id).value.tripFinishedAt == Some(later)
      && AR.GetByID(s2.world.assignments, id).value.markStatus == MarkCompleted
  {
    InWorkKeepsMarkAllowed(w, p, id, anpr, now);
    var a := AR.GetByID(w.assignments, id).value;
    assert MarkFits(Marked(a, MarkInWork, now), MarkCompleted);
  }

  /** After the IN_WORK mark the world is still valid and the COMPLETED mark still passes its
      guards: the ticket is found and is PLANNED-turned-IN_PROGRESS or unchanged. */
  lemma InWorkKeepsMarkAllowed(w: World, p: Principal, id: Id, anpr: TripLifecycle.Anpr, now: Time)
    requires Valid(w)
    requires MarkAllowed(w, p, id)
    requires AR.GetByID(w.assignments, id).value.tripStartedAt.None?
    ensures var s1 := UpdateDriverMarkStatus(w, p, id, MarkInWork, anpr, now);
      && s1.result == Done && Valid(s1.world) && MarkAllowed(s1.world, p, id)
      && AR.GetByID(s1.world.assignments, id) == Success(Marked(AR.GetByID(w.assignments, id).value, MarkInWork, now))
  {
    var a := AR.GetByID(w.assignments, id).value;
    var t := TR.GetByID(w.tickets, a.ticketId).value;
    StartWorkLeavesTicketLive(w, a, t, now);
    assert UpdateDriverMarkStatus(w, p, id, MarkInWork, anpr, now) == StartWork(w, a, t, now);
  }

  /** The IN_WORK mark leaves the assignment's ticket found and still taking trips. */
  lemma StartWorkLeavesTicketLive(w: World, a: Assignment, t: Ticket, now: Time)
    requires TR.GetByID(w.tickets, a.ticketId) == Success(t)
    requires !TripLifecycle.Terminal(t.status)
    ensures var s1 := StartWork(w, a, t, now);
      TR.GetByID(s1.world.tickets, a.ticketId).Success?
      && !TripLifecycle.Terminal(TR.GetByID(s1.world.tickets, a.ticketId).value.status)
  {
    var s1 := StartWork(w, a, t, now);
    assert t.id == a.ticketId;
    if a.tripStartedAt.None? && t.status == Planned && t.factStartAt.None? {
      var u := t.(status := InProgress, factStartAt := Some(now));
      assert s1.world.tickets == TR.Update(w.tickets, u);
      assert TR.GetByID(s1.world.tickets, a.ticketId) == Success(u);
    } else {
      assert s1.world.tickets == w.tickets;
    }
  }

  /** When a driver completes a trip that was never recorded, the trip the reconciliation creates
      has no exit sensor events, so the ticket is not completed by that mark. */
  lemma UnrecordedTripBlocksAutoCompletion(w: World, p: Principal, id: Id, anpr: TripLifecycle.Anpr, now: Time)
    requires Valid(w)
    requires UpdateDriverMarkStatus(w, p, id, MarkCompleted, anpr, now).result == Done
    requires TripRepository.FindByAssignmentID(w.trips, id).None?
    ensures var s := UpdateDriverMarkStatus(w, p, id, MarkCompleted, anpr, now);
      var a := AR.GetByID(w.assignments, id).value;
      s.world == Reconciled(w, a, anpr, now) && !TL.ReadyToComplete(s.world, a.ticketId)
  {
    var a := AR.GetByID(w.assignments, id).value;
    var marked := w.(assignments := AR.UpdateTripFinishedAt(w.assignments, a.id, now, MarkCompleted));
    assert AR.GetByID(marked.assignments, id) == Success(Marked(a, MarkCompleted, now));
    TripLifecycle.AutoCreatedTripBlocksCompletion(marked, id, anpr, now);
  }

  /** The driver's own assignments among those listed. */
  function OfDriver(driverId: Id): Assignment -> bool
  {
    (a: Assignment) => a.driverId == driverId
  }

  /** ListByTicketID: the active assignments of a stored ticket the caller may access, latest
      first; a driver sees only its own. The access rule is the ticket's own. */
  function ListByTicketID(w: World, p: Principal, ticketId: Id): (r: Result<seq<Assignment>>)
    ensures TR.GetByID(w.tickets, ticketId).Failure? ==> r == Failure(NotFound)
    ensures r.Success? <==>
      TR.GetByID(w.tickets, ticketId).Success? && TL.CanAccessTicket(w.assignments, p, TR.GetByID(w.tickets, ticketId).value)
    ensures r.Failure? && TR.GetByID(w.tickets, ticketId).Success? ==> r == Failure(PermissionDenied)
    ensures r.Success? && !p.IsDriver() ==>
      forall a :: a in r.value <==> a in w.assignments && a.isActive && a.ticketId == ticketId
    ensures r.Success? && p.IsDriver() ==>
      forall a :: a in r.value <==> a in w.assignments && a.isActive && a.ticketId == ticketId && Some(a.driverId) == p.driverId
    ensures r.Success? ==> SortedDesc(r.value, AR.AssignedAt)
  {
    match TR.GetByID(w.tickets, ticketId)
    case Failure(_) => Failure(NotFound)
    case Success(t) =>
      var listed := AR.ListByTicketID(w.assignments, t.id);
      if p.IsAkimat() then Success(listed)
      else if p.IsKgu() then
        if t.createdByOrgId != p.orgId then Failure(PermissionDenied) else Success(listed)
      else if p.IsContractor() then
        if t.contractorId != p.orgId then Failure(PermissionDenied) else Success(listed)
      else if p.IsDriver() then
        if p.driverId.None? then Failure(PermissionDenied)
        else if !AR.HasActiveAssignment(w.assignments, t.id, p.driverId.value) then Failure(PermissionDenied)
        else
          var own := Filter(listed, OfDriver(p.driverId.value));
          FilterSortedDesc(listed, OfDriver(p.driverId.value), AR.AssignedAt);
          Success(own)
      else Failure(PermissionDenied)
  }
}
