/** The ticket state machine of internal/service/ticket_service.go, as steps from one `World` to
    the next: creation, the guarded manual transitions (cancel, close, complete), the automatic
    transitions (start on the first trip, auto-completion) and the access decision. */
module TicketLifecycle {
  import opened Domain
  import opened Tables
  import opened Store
  import TR = TicketRepository
  import AR = AssignmentRepository
  import TripRepository

  /** The text fields of a create request. An empty contract id is one of the malformed forms. */
  datatype CreateTicketInput = CreateTicketInput(
    cleaningAreaId: Raw<Id>,
    contractorId: Raw<Id>,
    contractId: Raw<Id>,
    plannedStartAt: Raw<Time>,
    plannedEndAt: Raw<Time>,
    description: string)

  predicate Parses(input: CreateTicketInput)
  {
    && input.cleaningAreaId.Well?
    && input.contractorId.Well?
    && input.contractId.Well?
    && input.plannedStartAt.Well?
    && input.plannedEndAt.Well?
  }

  /** A fact stamp, once recorded, is kept: `u` is `t` later on. */
  ghost predicate StampsWithin(t: Ticket, u: Ticket)
  {
    && t.id == u.id
    && (t.factStartAt.Some? ==> u.factStartAt == t.factStartAt)
    && (t.factEndAt.Some? ==> u.factEndAt == t.factEndAt)
  }

  /** Every ticket of `w` is still stored, at its place, with its fact stamps, in `w'`. */
  ghost predicate FactStampsKept(w: World, w': World)
  {
    && |w.tickets| <= |w'.tickets|
    && forall i :: 0 <= i < |w.tickets| ==> StampsWithin(w.tickets[i], w'.tickets[i])
  }

  /** Saving a new version of a stored ticket that keeps its stamps keeps every stamp of the
      table, and keeps the store valid. */
  lemma SaveKeepsStamps(w: World, u: Ticket)
    requires Valid(w)
    requires TR.GetByID(w.tickets, u.id).Success?
    requires StampsWithin(TR.GetByID(w.tickets, u.id).value, u)
    ensures FactStampsKept(w, w.(tickets := TR.Update(w.tickets, u)))
    ensures Valid(w.(tickets := TR.Update(w.tickets, u)))
  {
    var rows := w.tickets;
    var r := TR.Update(rows, u);
    forall i | 0 <= i < |rows| ensures StampsWithin(rows[i], r[i]) {
      if rows[i].id == u.id {
        FindUnique(rows, TR.TicketKey, u.id, i);
      }
    }
    SaveTicketValid(w, u);
  }

  /** Create: only a KGU ZKH caller may create; every field must parse and the planned window
      must not be empty. The new ticket is PLANNED, has no fact stamps, belongs to the caller's
      organisation and receives a fresh identifier. The contractor's access to the cleaning area
      is granted on a best-effort basis: `granted` tells whether that write went through. */
  function Create(w: World, p: Principal, input: CreateTicketInput, now: Time, granted: bool): (s: Step<Result<Ticket>>)
    ensures s.result.Success? <==>
      p.IsKgu() && Parses(input) && input.plannedStartAt.value < input.plannedEndAt.value
    ensures !p.IsKgu() ==> s == Step(w, Failure(PermissionDenied))
    ensures p.IsKgu() && s.result.Failure? ==> s == Step(w, Failure(InvalidInput))
    ensures s.result.Success? ==>
      var t := s.result.value;
      && t.status == Planned && t.factStartAt.None? && t.factEndAt.None?
      && t.createdByOrgId == p.orgId
      && t.cleaningAreaId == input.cleaningAreaId.value
      && t.contractorId == input.contractorId.value
      && t.contractId == input.contractId.value
      && t.plannedStartAt == input.plannedStartAt.value
      && t.plannedEndAt == input.plannedEndAt.value
      && t.description == input.description
      && t.id == w.nextId
      && s.world.tickets == w.tickets + [t]
      && (Valid(w) ==> TR.GetByID(s.world.tickets, t.id) == Success(t))
      && s.world.access == (if granted then w.access[(t.cleaningAreaId, t.contractorId) := "TICKET"] else w.access)
      && s.world == w.(tickets := s.world.tickets, access := s.world.access, nextId := w.nextId + 1)
    ensures Valid(w) ==> Valid(s.world) && FactStampsKept(w, s.world)
  {
    if !p.IsKgu() then Step(w, Failure(PermissionDenied))
    else if !Parses(input) then Step(w, Failure(InvalidInput))
    else if input.plannedEndAt.value <= input.plannedStartAt.value then Step(w, Failure(InvalidInput))
    else
      var t := Ticket(w.nextId, input.cleaningAreaId.value, input.contractorId.value, input.contractId.value,
        p.orgId, Planned, input.plannedStartAt.value, input.plannedEndAt.value, None, None, input.description, now);
      var stored := w.(tickets := w.tickets + [t], nextId := w.nextId + 1);
      var w' := if granted then stored.(access := w.access[(t.cleaningAreaId, t.contractorId) := "TICKET"]) else stored;
      assert Valid(w) ==> Valid(w') && TR.GetByID(w'.tickets, t.id) == Success(t) by {
        if Valid(w) {
          FreshIdValid(w);
          WellKeyedAppend(w.tickets, TR.TicketKey, w.nextId, t);
          IndexOfFirst(w.tickets + [t], TR.TicketKey, t.id, |w.tickets|);
        }
      }
      Step(w', Success(t))
  }

  /** A failed access grant never fails creation: the outcome and the tickets do not depend on it. */
  lemma CreateIgnoresGrant(w: World, p: Principal, input: CreateTicketInput, now: Time)
    ensures Create(w, p, input, now, true).result == Create(w, p, input, now, false).result
    ensures Create(w, p, input, now, true).world.tickets == Create(w, p, input, now, false).world.tickets
  {
  }

  /** canAccessTicket: Akimat sees every ticket, KGU ZKH the tickets its organisation created, a
      contractor the tickets it executes, a driver the tickets it is actively assigned to; every
      other caller, and a driver without a driver record, sees none. */
  function CanAccessTicket(assignments: seq<Assignment>, p: Principal, t: Ticket): (ok: bool)
    ensures p.IsAkimat() ==> ok
    ensures p.IsKgu() ==> (ok <==> t.createdByOrgId == p.orgId)
    ensures p.IsContractor() ==> (ok <==> t.contractorId == p.orgId)
    ensures p.IsDriver() ==> (ok <==>
      (p.driverId.Some? &&
       exists i :: 0 <= i < |assignments| && assignments[i].isActive
         && assignments[i].ticketId == t.id && assignments[i].driverId == p.driverId.value))
    ensures p.role == OtherRole ==> !ok
  {
    if p.IsAkimat() then true
    else if p.IsKgu() then t.createdByOrgId == p.orgId
    else if p.IsContractor() then t.contractorId == p.orgId
    else if p.IsDriver() && p.driverId.Some? then AR.HasActiveAssignment(assignments, t.id, p.driverId.value)
    else false
  }

  /** Get: a stored ticket the caller may access. */
  function Get(w: World, p: Principal, id: Id): (r: Result<Ticket>)
    ensures r.Success? <==> TR.GetByID(w.tickets, id).Success? && CanAccessTicket(w.assignments, p, TR.GetByID(w.tickets, id).value)
    ensures r.Success? ==> r.value in w.tickets && r.value.id == id
    ensures TR.GetByID(w.tickets, id).Failure? ==> r == Failure(NotFound)
    ensures r.Failure? && TR.GetByID(w.tickets, id).Success? ==> r == Failure(PermissionDenied)
  {
    match TR.GetByID(w.tickets, id)
    case Failure(_) => Failure(NotFound)
    case Success(t) => if CanAccessTicket(w.assignments, p, t) then Success(t) else Failure(PermissionDenied)
  }

  const NoFilter := TR.TicketListFilter(None, None, None, None, None, None, None, None, None, None, None, None, None, None)

  /** List: the repository listing, scoped by role. KGU ZKH is restricted to its own tickets,
      a contractor to the tickets it executes and a driver to the tickets it is actively assigned
      to; each restriction replaces any filter the caller supplied on that column. */
  function ListTickets(w: World, p: Principal, f: TR.TicketListFilter): (r: Result<seq<Ticket>>)
    ensures r.Success? <==> p.IsAkimat() || p.IsKgu() || p.IsContractor() || (p.IsDriver() && p.driverId.Some?)
    ensures r.Failure? ==> r.error == PermissionDenied
    ensures r.Success? ==> forall t :: t in r.value ==> t in w.tickets && CanAccessTicket(w.assignments, p, t)
    ensures r.Success? ==> SortedDesc(r.value, TR.CreatedAt)
  {
    var r :=
      if p.IsAkimat() then Success(TR.List(w.tickets, w.assignments, f))
      else if p.IsKgu() then Success(TR.List(w.tickets, w.assignments, f.(createdByOrgId := Some(p.orgId))))
      else if p.IsContractor() then Success(TR.List(w.tickets, w.assignments, f.(contractorId := Some(p.orgId))))
      else if p.IsDriver() then
        if p.driverId.None? then Failure(PermissionDenied)
        else Success(TR.List(w.tickets, w.assignments, f.(driverId := p.driverId)))
      else Failure(PermissionDenied);
    assert r.Success? ==> forall t :: t in r.value ==> t in w.tickets && CanAccessTicket(w.assignments, p, t) by {
      if r.Success? && p.IsDriver() {
        forall t | t in r.value ensures CanAccessTicket(w.assignments, p, t) {
          ActiveBindingsHasActive(w.assignments, t.id, p.driverId.value);
        }
      }
    }
    r
  }

  /** The JOIN on assignments keeps a ticket exactly when HasActiveAssignment holds for it. */
  lemma ActiveBindingsHasActive(assignments: seq<Assignment>, ticketId: Id, driverId: Id)
    ensures TR.ActiveBindings(assignments, ticketId, driverId) > 0 <==> AR.HasActiveAssignment(assignments, ticketId, driverId)
  {
    if AR.HasActiveAssignment(assignments, ticketId, driverId) {
      var i :| 0 <= i < |assignments| && assignments[i].isActive && assignments[i].ticketId == ticketId && assignments[i].driverId == driverId;
      assert assignments[i] in assignments;
    }
  }

  /** Listing without a filter shows a caller exactly the tickets Get lets it read. */
  lemma ListShowsAccessible(w: World, p: Principal, t: Ticket)
    ensures ListTickets(w, p, NoFilter).Success? ==>
      (t in ListTickets(w, p, NoFilter).value <==> t in w.tickets && CanAccessTicket(w.assignments, p, t))
    ensures ListTickets(w, p, NoFilter).Failure? ==> !CanAccessTicket(w.assignments, p, t)
  {
    var r := ListTickets(w, p, NoFilter);
    if p.IsAkimat() {
      assert r == Success(TR.List(w.tickets, w.assignments, NoFilter));
      assert TR.Matches(NoFilter, t);
    } else if p.IsKgu() {
      var f := NoFilter.(createdByOrgId := Some(p.orgId));
      assert r == Success(TR.List(w.tickets, w.assignments, f));
      assert TR.Matches(f, t) <==> t.createdByOrgId == p.orgId;
    } else if p.IsContractor() {
      var f := NoFilter.(contractorId := Some(p.orgId));
      assert r == Success(TR.List(w.tickets, w.assignments, f));
      assert TR.Matches(f, t) <==> t.contractorId == p.orgId;
    } else if p.IsDriver() && p.driverId.Some? {
      var f := NoFilter.(driverId := p.driverId);
      assert r == Success(TR.List(w.tickets, w.assignments, f));
      assert TR.Matches(f, t);
      ActiveBindingsHasActive(w.assignments, t.id, p.driverId.value);
    }
  }

  /** Cancel: KGU ZKH of the creating organisation only; refused with a conflict once the ticket
      has a fact start or any trip refers to it. The current status is not examined. */
  function Cancel(w: World, p: Principal, id: Id): (s: Step<Outcome>)
    ensures !p.IsKgu() ==> s == Step(w, Fail(PermissionDenied))
    ensures p.IsKgu() && TR.GetByID(w.tickets, id).Failure? ==> s == Step(w, Fail(NotFound))
    ensures s.result.Fail? ==> s.world == w
    ensures s.result == Fail(Conflict) <==>
      p.IsKgu() && TR.GetByID(w.tickets, id).Success? &&
      var t := TR.GetByID(w.tickets, id).value;
      t.createdByOrgId == p.orgId && (t.factStartAt.Some? || TR.CountTripsByTicketID(w.trips, id) > 0)
    ensures s.result == Done <==>
      p.IsKgu() && TR.GetByID(w.tickets, id).Success? &&
      var t := TR.GetByID(w.tickets, id).value;
      t.createdByOrgId == p.orgId && t.factStartAt.None? && TR.CountTripsByTicketID(w.trips, id) == 0
    ensures s.result == Done ==>
      TR.GetByID(s.world.tickets, id) == Success(TR.GetByID(w.tickets, id).value.(status := Cancelled))
      && s.world == w.(tickets := TR.Update(w.tickets, TR.GetByID(w.tickets, id).value.(status := Cancelled)))
    ensures Valid(w) ==> Valid(s.world) && FactStampsKept(w, s.world)
  {
    if !p.IsKgu() then Step(w, Fail(PermissionDenied))
    else match TR.GetByID(w.tickets, id)
      case Failure(_) => Step(w, Fail(NotFound))
      case Success(t) =>
        if t.createdByOrgId != p.orgId then Step(w, Fail(PermissionDenied))
        else if t.factStartAt.Some? then Step(w, Fail(Conflict))
        else if TR.CountTripsByTicketID(w.trips, t.id) > 0 then Step(w, Fail(Conflict))
        else
          var u := t.(status := Cancelled);
          assert Valid(w) ==> Valid(w.(tickets := TR.Update(w.tickets, u))) && FactStampsKept(w, w.(tickets := TR.Update(w.tickets, u))) by {
            if Valid(w) { SaveKeepsStamps(w, u); }
          }
          Step(w.(tickets := TR.Update(w.tickets, u)), Done)
  }

  /** The same world with the status of ticket `id` replaced. */
  function WithStatus(w: World, id: Id, status: TicketStatus): World
  {
    w.(tickets := UpdateWhere(w.tickets, TR.TicketKey, id, (t: Ticket) => t.(status := status)))
  }

  lemma WithStatusFound(w: World, id: Id, status: TicketStatus)
    ensures TR.GetByID(WithStatus(w, id, status).tickets, id) ==
      match TR.GetByID(w.tickets, id)
      case Failure(e) => Failure(e)
      case Success(t) => Success(t.(status := status))
  {
    FindAfterUpdate(w.tickets, TR.TicketKey, id, (t: Ticket) => t.(status := status));
  }

  /** Cancel answers the same whatever the ticket's status: a COMPLETED or CLOSED ticket without
      fact start and trips is cancelled like a PLANNED one. */
  lemma CancelIgnoresStatus(w: World, p: Principal, id: Id, status: TicketStatus)
    ensures Cancel(WithStatus(w, id, status), p, id).result == Cancel(w, p, id).result
  {
    WithStatusFound(w, id, status);
  }

  /** The ticket as completion leaves it: COMPLETED, with the end stamp set now unless it was
      already set. */
  function CompletedAt(t: Ticket, now: Time): (u: Ticket)
    ensures u.status == Completed
    ensures u.factEndAt == if t.factEndAt.Some? then t.factEndAt else Some(now)
    ensures u == t.(status := Completed, factEndAt := u.factEndAt)
  {
    t.(status := Completed, factEndAt := if t.factEndAt.None? then Some(now) else t.factEndAt)
  }

  /** Nothing blocks completion: no trip of the ticket lacks its exit and no active assignment
      of it lacks the driver's COMPLETED mark. */
  predicate ReadyToComplete(w: World, ticketId: Id)
  {
    TR.CountIncompleteTripsByTicketID(w.trips, ticketId) == 0
      && TR.CountIncompleteAssignmentsByTicketID(w.assignments, ticketId) == 0
  }

  /** Close: KGU ZKH of the creating organisation only, and only from COMPLETED; only the status
      changes. */
  function Close(w: World, p: Principal, id: Id): (s: Step<Outcome>)
    ensures !p.IsKgu() ==> s == Step(w, Fail(PermissionDenied))
    ensures p.IsKgu() && TR.GetByID(w.tickets, id).Failure? ==> s == Step(w, Fail(NotFound))
    ensures s.result.Fail? ==> s.world == w
    ensures s.result == Fail(Conflict) <==>
      p.IsKgu() && TR.GetByID(w.tickets, id).Success? &&
      TR.GetByID(w.tickets, id).value.createdByOrgId == p.orgId && TR.GetByID(w.tickets, id).value.status != Completed
    ensures s.result == Done <==>
      p.IsKgu() && TR.GetByID(w.tickets, id).Success? &&
      TR.GetByID(w.tickets, id).value.createdByOrgId == p.orgId && TR.GetByID(w.tickets, id).value.status == Completed
    ensures s.result == Done ==>
      TR.GetByID(s.world.tickets, id) == Success(TR.GetByID(w.tickets, id).value.(status := Closed))
      && s.world == w.(tickets := TR.Update(w.tickets, TR.GetByID(w.tickets, id).value.(status := Closed)))
    ensures Valid(w) ==> Valid(s.world) && FactStampsKept(w, s.world)
  {
    if !p.IsKgu() then Step(w, Fail(PermissionDenied))
    else match TR.GetByID(w.tickets, id)
      case Failure(_) => Step(w, Fail(NotFound))
      case Success(t) =>
        if t.createdByOrgId != p.orgId then Step(w, Fail(PermissionDenied))
        else if t.status != Completed then Step(w, Fail(Conflict))
        else
          var u := t.(status := Closed);
          assert Valid(w) ==> Valid(w.(tickets := TR.Update(w.tickets, u))) && FactStampsKept(w, w.(tickets := TR.Update(w.tickets, u))) by {
            if Valid(w) { SaveKeepsStamps(w, u); }
          }
          Step(w.(tickets := TR.Update(w.tickets, u)), Done)
  }

  /** Complete: the ticket's contractor only; refused with a conflict while a trip or an active
      assignment of the ticket is incomplete. The current status is not examined. */
  function Complete(w: World, p: Principal, id: Id, now: Time): (s: Step<Outcome>)
    ensures !p.IsContractor() ==> s == Step(w, Fail(PermissionDenied))
    ensures p.IsContractor() && TR.GetByID(w.tickets, id).Failure? ==> s == Step(w, Fail(NotFound))
    ensures s.result.Fail? ==> s.world == w
    ensures s.result == Fail(Conflict) <==>
      p.IsContractor() && TR.GetByID(w.tickets, id).Success? &&
      TR.GetByID(w.tickets, id).value.contractorId == p.orgId && !ReadyToComplete(w, id)
    ensures s.result == Done <==>
      p.IsContractor() && TR.GetByID(w.tickets, id).Success? &&
      TR.GetByID(w.tickets, id).value.contractorId == p.orgId && ReadyToComplete(w, id)
    ensures s.result == Done ==>
      TR.GetByID(s.world.tickets, id) == Success(CompletedAt(TR.GetByID(w.tickets, id).value, now))
      && s.world == w.(tickets := TR.Update(w.tickets, CompletedAt(TR.GetByID(w.tickets, id).value, now)))
    ensures Valid(w) ==> Valid(s.world) && FactStampsKept(w, s.world)
  {
    if !p.IsContractor() then Step(w, Fail(PermissionDenied))
    else match TR.GetByID(w.tickets, id)
      case Failure(_) => Step(w, Fail(NotFound))
      case Success(t) =>
        if t.contractorId != p.orgId then Step(w, Fail(PermissionDenied))
        else if TR.CountIncompleteTripsByTicketID(w.trips, t.id) > 0 then Step(w, Fail(Conflict))
        else if TR.CountIncompleteAssignmentsByTicketID(w.assignments, t.id) > 0 then Step(w, Fail(Conflict))
        else
          var u := CompletedAt(t, now);
          assert Valid(w) ==> Valid(w.(tickets := TR.Update(w.tickets, u))) && FactStampsKept(w, w.(tickets := TR.Update(w.tickets, u))) by {
            if Valid(w) { SaveKeepsStamps(w, u); }
          }
          Step(w.(tickets := TR.Update(w.tickets, u)), Done)
  }

  /** Complete answers the same whatever the ticket's status: even a CANCELLED or CLOSED ticket is
      completed again when nothing is pending. */
  lemma CompleteIgnoresStatus(w: World, p: Principal, id: Id, now: Time, status: TicketStatus)
    ensures Complete(WithStatus(w, id, status), p, id, now).result == Complete(w, p, id, now).result
  {
    WithStatusFound(w, id, status);
  }

  /** The ticket's first trip has been recorded while it is still PLANNED and unstarted. */
  predicate StartsOnTrip(w: World, ticketId: Id)
  {
    && TR.GetByID(w.tickets, ticketId).Success?
    && TR.GetByID(w.tickets, ticketId).value.status == Planned
    && TR.GetByID(w.tickets, ticketId).value.factStartAt.None?
    && exists t :: t in w.trips && t.ticketId == Some(ticketId)
  }

  /** OnTripCreated: a PLANNED ticket without fact start moves to IN_PROGRESS, stamped now, once a
      trip refers to it; otherwise nothing changes. A missing ticket is the lookup's error. */
  function OnTripCreated(w: World, ticketId: Id, now: Time): (s: Step<Outcome>)
    ensures s.result.Fail? <==> TR.GetByID(w.tickets, ticketId).Failure?
    ensures s.result.Fail? ==> s.result == Fail(RecordNotFound)
    ensures !StartsOnTrip(w, ticketId) ==> s.world == w
    ensures StartsOnTrip(w, ticketId) ==>
      TR.GetByID(s.world.tickets, ticketId) ==
        Success(TR.GetByID(w.tickets, ticketId).value.(status := InProgress, factStartAt := Some(now)))
      && s.world == w.(tickets := TR.Update(w.tickets, TR.GetByID(w.tickets, ticketId).value.(status := InProgress, factStartAt := Some(now))))
    ensures Valid(w) ==> Valid(s.world) && FactStampsKept(w, s.world)
  {
    match TR.GetByID(w.tickets, ticketId)
    case Failure(e) => Step(w, Fail(e))
    case Success(t) =>
      if t.status == Planned && t.factStartAt.None? then
        if TripRepository.GetFirstTripByTicketID(w.trips, ticketId).Some? then
          var u := t.(status := InProgress, factStartAt := Some(now));
          assert Valid(w) ==> Valid(w.(tickets := TR.Update(w.tickets, u))) && FactStampsKept(w, w.(tickets := TR.Update(w.tickets, u))) by {
            if Valid(w) { SaveKeepsStamps(w, u); }
          }
          Step(w.(tickets := TR.Update(w.tickets, u)), Done)
        else Step(w, Done)
      else Step(w, Done)
  }

  /** The ticket is IN_PROGRESS and nothing blocks its completion. */
  predicate AutoCompletes(w: World, ticketId: Id)
  {
    && TR.GetByID(w.tickets, ticketId).Success?
    && TR.GetByID(w.tickets, ticketId).value.status == InProgress
    && ReadyToComplete(w, ticketId)
  }

  /** TryAutoComplete: an IN_PROGRESS ticket with nothing pending becomes COMPLETED; any other
      ticket is left as it is, and the call still succeeds. It never reports a conflict. */
  function TryAutoComplete(w: World, ticketId: Id, now: Time): (s: Step<Outcome>)
    ensures s.result.Fail? <==> TR.GetByID(w.tickets, ticketId).Failure?
    ensures s.result == Done || s.result == Fail(RecordNotFound)
    ensures !AutoCompletes(w, ticketId) ==> s.world == w
    ensures AutoCompletes(w, ticketId) ==>
      TR.GetByID(s.world.tickets, ticketId) == Success(CompletedAt(TR.GetByID(w.tickets, ticketId).value, now))
      && s.world == w.(tickets := TR.Update(w.tickets, CompletedAt(TR.GetByID(w.tickets, ticketId).value, now)))
    ensures Valid(w) ==> Valid(s.world) && FactStampsKept(w, s.world)
  {
    match TR.GetByID(w.tickets, ticketId)
    case Failure(e) => Step(w, Fail(e))
    case Success(t) =>
      if t.status != InProgress then Step(w, Done)
      else if TR.CountIncompleteTripsByTicketID(w.trips, t.id) > 0 then Step(w, Done)
      else if TR.CountIncompleteAssignmentsByTicketID(w.assignments, t.id) > 0 then Step(w, Done)
      else
        var u := CompletedAt(t, now);
        assert Valid(w) ==> Valid(w.(tickets := TR.Update(w.tickets, u))) && FactStampsKept(w, w.(tickets := TR.Update(w.tickets, u))) by {
          if Valid(w) { SaveKeepsStamps(w, u); }
        }
        Step(w.(tickets := TR.Update(w.tickets, u)), Done)
  }

  /** A second auto-completion, at any later time, changes nothing and answers as the first. */
  lemma TryAutoCompleteIdempotent(w: World, ticketId: Id, now: Time, later: Time)
    ensures TryAutoComplete(TryAutoComplete(w, ticketId, now).world, ticketId, later) ==
      Step(TryAutoComplete(w, ticketId, now).world, TryAutoComplete(w, ticketId, now).result)
  {
    var s := TryAutoComplete(w, ticketId, now);
    if AutoCompletes(w, ticketId) {
      assert TR.GetByID(s.world.tickets, ticketId).value.status == Completed;
    }
  }
}
