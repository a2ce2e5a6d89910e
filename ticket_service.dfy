/** TicketService (internal/service/ticket_service.go) over the database object: each operation
    loads the ticket, checks its guards, changes the loaded record field by field and saves it
    back, and is proved to perform exactly the step `TicketLifecycle` describes. */
module TicketService {
  import opened Domain
  import opened Store
  import TR = TicketRepository
  import TripRepository
  import TL = TicketLifecycle

  method Create(db: Db, p: Principal, input: TL.CreateTicketInput, now: Time, granted: bool) returns (r: Result<Ticket>)
    modifies db
    ensures Step(db.Snapshot(), r) == TL.Create(old(db.Snapshot()), p, input, now, granted)
  {
    if !p.IsKgu() {
      return Failure(PermissionDenied);
    }
    if input.cleaningAreaId.Malformed? || input.contractorId.Malformed? || input.contractId.Malformed?
      || input.plannedStartAt.Malformed? || input.plannedEndAt.Malformed? {
      return Failure(InvalidInput);
    }
    var start := input.plannedStartAt.value;
    var end := input.plannedEndAt.value;
    if end <= start {
      return Failure(InvalidInput);
    }
    var id := db.NewId();
    var ticket := Ticket(id, input.cleaningAreaId.value, input.contractorId.value, input.contractId.value,
      p.orgId, Planned, start, end, None, None, input.description, now);
    db.tickets := db.tickets + [ticket];
    if granted {
      db.access := db.access[(ticket.cleaningAreaId, ticket.contractorId) := "TICKET"];
    }
    return Success(ticket);
  }

  method Cancel(db: Db, p: Principal, id: Id) returns (r: Outcome)
    modifies db
    ensures Step(db.Snapshot(), r) == TL.Cancel(old(db.Snapshot()), p, id)
  {
    if !p.IsKgu() {
      return Fail(PermissionDenied);
    }
    var found := TR.GetByID(db.tickets, id);
    if found.Failure? {
      return Fail(NotFound);
    }
    var ticket := found.value;
    if ticket.createdByOrgId != p.orgId {
      return Fail(PermissionDenied);
    }
    if ticket.factStartAt.Some? {
      return Fail(Conflict);
    }
    var tripCount := TR.CountTripsByTicketID(db.trips, ticket.id);
    if tripCount > 0 {
      return Fail(Conflict);
    }
    ticket := ticket.(status := Cancelled);
    db.tickets := TR.Update(db.tickets, ticket);
    return Done;
  }

  method Close(db: Db, p: Principal, id: Id) returns (r: Outcome)
    modifies db
    ensures Step(db.Snapshot(), r) == TL.Close(old(db.Snapshot()), p, id)
  {
    if !p.IsKgu() {
      return Fail(PermissionDenied);
    }
    var found := TR.GetByID(db.tickets, id);
    if found.Failure? {
      return Fail(NotFound);
    }
    var ticket := found.value;
    if ticket.createdByOrgId != p.orgId {
      return Fail(PermissionDenied);
    }
    if ticket.status != Completed {
      return Fail(Conflict);
    }
    ticket := ticket.(status := Closed);
    db.tickets := TR.Update(db.tickets, ticket);
    return Done;
  }

  method Complete(db: Db, p: Principal, id: Id, now: Time) returns (r: Outcome)
    modifies db
    ensures Step(db.Snapshot(), r) == TL.Complete(old(db.Snapshot()), p, id, now)
  {
    if !p.IsContractor() {
      return Fail(PermissionDenied);
    }
    var found := TR.GetByID(db.tickets, id);
    if found.Failure? {
      return Fail(NotFound);
    }
    var ticket := found.value;
    if ticket.contractorId != p.orgId {
      return Fail(PermissionDenied);
    }
    var incompleteTrips := TR.CountIncompleteTripsByTicketID(db.trips, ticket.id);
    if incompleteTrips > 0 {
      return Fail(Conflict);
    }
    var incompleteAssignments := TR.CountIncompleteAssignmentsByTicketID(db.assignments, ticket.id);
    if incompleteAssignments > 0 {
      return Fail(Conflict);
    }
    ticket := ticket.(status := Completed);
    if ticket.factEndAt.None? {
      ticket := ticket.(factEndAt := Some(now));
    }
    db.tickets := TR.Update(db.tickets, ticket);
    return Done;
  }

  method OnTripCreated(db: Db, ticketId: Id, now: Time) returns (r: Outcome)
    modifies db
    ensures Step(db.Snapshot(), r) == TL.OnTripCreated(old(db.Snapshot()), ticketId, now)
  {
    var found := TR.GetByID(db.tickets, ticketId);
    if found.Failure? {
      return Fail(found.error);
    }
    var ticket := found.value;
    if ticket.status == Planned && ticket.factStartAt.None? {
      var firstTrip := TripRepository.GetFirstTripByTicketID(db.trips, ticketId);
      if firstTrip.Some? {
        ticket := ticket.(status := InProgress, factStartAt := Some(now));
        db.tickets := TR.Update(db.tickets, ticket);
        return Done;
      }
    }
    return Done;
  }

  method TryAutoComplete(db: Db, ticketId: Id, now: Time) returns (r: Outcome)
    modifies db
    ensures Step(db.Snapshot(), r) == TL.TryAutoComplete(old(db.Snapshot()), ticketId, now)
  {
    var found := TR.GetByID(db.tickets, ticketId);
    if found.Failure? {
      return Fail(found.error);
    }
    var ticket := found.value;
    if ticket.status != InProgress {
      return Done;
    }
    var incompleteTrips := TR.CountIncompleteTripsByTicketID(db.trips, ticket.id);
    if incompleteTrips > 0 {
      return Done;
    }
    var incompleteAssignments := TR.CountIncompleteAssignmentsByTicketID(db.assignments, ticket.id);
    if incompleteAssignments > 0 {
      return Done;
    }
    ticket := ticket.(status := Completed);
    if ticket.factEndAt.None? {
      ticket := ticket.(factEndAt := Some(now));
    }
    db.tickets := TR.Update(db.tickets, ticket);
    return Done;
  }
}
