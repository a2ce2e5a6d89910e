/** AssignmentService (internal/service/assignment_service.go) over the database object: each
    operation loads the assignment and its ticket, checks its guards, writes through the
    repositories and, for the driver's marks, calls the trip and ticket services in turn. Each is
    proved to perform exactly the step `AssignmentLifecycle` describes. */
module AssignmentService {
  import opened Domain
  import opened Tables
  import opened Store
  import TR = TicketRepository
  import AR = AssignmentRepository
  import TripLifecycle
  import TripService
  import TicketService
  import AL = AssignmentLifecycle

  method Create(db: Db, p: Principal, input: AL.CreateAssignmentInput, now: Time) returns (r: Result<Assignment>)
    modifies db
    ensures Step(db.Snapshot(), r) == AL.Create(old(db.Snapshot()), p, input, now)
  {
    if !p.IsContractor() {
      return Failure(PermissionDenied);
    }
    if input.ticketId.Malformed? || input.driverId.Malformed? || input.vehicleId.Malformed? {
      return Failure(InvalidInput);
    }
    var loaded := TR.GetByID(db.tickets, input.ticketId.value);
    if loaded.Failure? {
      return Failure(NotFound);
    }
    var ticket := loaded.value;
    if ticket.contractorId != p.orgId {
      return Failure(PermissionDenied);
    }
    if !AL.IsTicketMutable(ticket.status) {
      return Failure(Conflict);
    }
    var id := db.NewId();
    var assignment := Assignment(id, input.ticketId.value, input.driverId.value, input.vehicleId.value,
      MarkNotStarted, now, None, true, None, None);
    db.assignments := db.assignments + [assignment];
    return Success(assignment);
  }

  method Delete(db: Db, p: Principal, id: Id, now: Time) returns (r: Outcome)
    modifies db
    ensures Step(db.Snapshot(), r) == AL.Delete(old(db.Snapshot()), p, id, now)
  {
    if !p.IsContractor() {
      return Fail(PermissionDenied);
    }
    var found := AR.GetByID(db.assignments, id);
    if found.Failure? {
      return Fail(NotFound);
    }
    var loaded := TR.GetByID(db.tickets, found.value.ticketId);
    if loaded.Failure? {
      return Fail(loaded.error);
    }
    var ticket := loaded.value;
    if ticket.contractorId != p.orgId {
      return Fail(PermissionDenied);
    }
    if !AL.IsTicketMutable(ticket.status) {
      return Fail(Conflict);
    }
    db.assignments := AR.Delete(db.assignments, id, now);
    return Done;
  }

  /** UpdateDriverMarkStatus: the guards, then the mark the status asks for. */
  method UpdateDriverMarkStatus(db: Db, p: Principal, id: Id, status: DriverMarkStatus,
                                anpr: TripLifecycle.Anpr, now: Time) returns (r: Outcome)
    modifies db
    ensures Step(db.Snapshot(), r) == AL.UpdateDriverMarkStatus(old(db.Snapshot()), p, id, status, anpr, now)
  {
    if !p.IsDriver() || p.driverId.None? {
      return Fail(PermissionDenied);
    }
    var found := AR.GetByID(db.assignments, id);
    if found.Failure? {
      return Fail(NotFound);
    }
    var assignment := found.value;
    if assignment.driverId != p.driverId.value {
      return Fail(PermissionDenied);
    }
    var loaded := TR.GetByID(db.tickets, assignment.ticketId);
    if loaded.Failure? {
      return Fail(loaded.error);
    }
    var ticket := loaded.value;
    if TripLifecycle.Terminal(ticket.status) {
      return Fail(Conflict);
    }
    if status == MarkInWork {
      r := StartWork(db, assignment, ticket, now);
    } else if status == MarkCompleted {
      r := FinishWork(db, assignment, anpr, now);
    } else {
      db.assignments := AR.UpdateDriverMarkStatus(db.assignments, id, status);
      r := Done;
    }
  }

  /** IN_WORK: the start stamp, then the ticket's start when it is still PLANNED and unstarted; the
      ticket saved is the one loaded before the stamp was written. */
  method StartWork(db: Db, assignment: Assignment, ticket: Ticket, now: Time) returns (r: Outcome)
    modifies db
    ensures Step(db.Snapshot(), r) == AL.StartWork(old(db.Snapshot()), assignment, ticket, now)
  {
    if assignment.tripStartedAt.Some? {
      return Fail(Conflict);
    }
    db.assignments := AR.UpdateTripStartedAt(db.assignments, assignment.id, now, MarkInWork);
    var t := ticket;
    if t.status == Planned && t.factStartAt.None? {
      t := t.(status := InProgress, factStartAt := Some(now));
      db.tickets := TR.Update(db.tickets, t);
    }
    return Done;
  }

  /** COMPLETED: the finish stamp, then the trip reconciliation, whose outcome is dropped, then the
      ticket's auto-completion, whose outcome is returned. */
  method FinishWork(db: Db, assignment: Assignment, anpr: TripLifecycle.Anpr, now: Time) returns (r: Outcome)
    requires AR.GetByID(db.assignments, assignment.id) == Success(assignment)
    modifies db
    ensures Step(db.Snapshot(), r) == AL.FinishWork(old(db.Snapshot()), assignment, anpr, now)
  {
    ghost var w := db.Snapshot();
    if assignment.tripStartedAt.None? {
      return Fail(Conflict);
    }
    if assignment.tripFinishedAt.Some? {
      return Fail(Conflict);
    }
    db.assignments := AR.UpdateTripFinishedAt(db.assignments, assignment.id, now, MarkCompleted);
    var _ := TripService.CompleteTripAndCalculateVolume(db, assignment.id, anpr, now);
    assert db.Snapshot() == AL.Reconciled(w, assignment, anpr, now);
    r := TicketService.TryAutoComplete(db, assignment.ticketId, now);
  }

  /** ListByTicketID: the ticket's lookup and access check, then the listing; for a driver, the
      loop that keeps its own assignments. */
  method ListByTicketID(db: Db, p: Principal, ticketId: Id) returns (r: Result<seq<Assignment>>)
    ensures r == AL.ListByTicketID(db.Snapshot(), p, ticketId)
  {
    var loaded := TR.GetByID(db.tickets, ticketId);
    if loaded.Failure? {
      return Failure(NotFound);
    }
    var ticket := loaded.value;
    if p.IsAkimat() {
    } else if p.IsKgu() {
      if ticket.createdByOrgId != p.orgId {
        return Failure(PermissionDenied);
      }
    } else if p.IsContractor() {
      if ticket.contractorId != p.orgId {
        return Failure(PermissionDenied);
      }
    } else if p.IsDriver() {
      if p.driverId.None? {
        return Failure(PermissionDenied);
      }
      var has := AR.HasActiveAssignment(db.assignments, ticket.id, p.driverId.value);
      if !has {
        return Failure(PermissionDenied);
      }
      var assignments := AR.ListByTicketID(db.assignments, ticket.id);
      var result := FilterByDriver(assignments, p.driverId.value);
      return Success(result);
    } else {
      return Failure(PermissionDenied);
    }
    return Success(AR.ListByTicketID(db.assignments, ticket.id));
  }

  /** The loop keeping the driver's own assignments, in the order they were listed. */
  method FilterByDriver(assignments: seq<Assignment>, driverId: Id) returns (result: seq<Assignment>)
    ensures result == Filter(assignments, AL.OfDriver(driverId))
  {
    result := [];
    var i := 0;
    while i < |assignments|
      invariant i <= |assignments|
      invariant result == Filter(assignments[..i], AL.OfDriver(driverId))
    {
      if assignments[i].driverId == driverId {
        result := result + [assignments[i]];
      }
      assert assignments[..i + 1][..i] == assignments[..i];
      i := i + 1;
    }
    assert assignments[..|assignments|] == assignments;
  }
}
