/** AppealService (internal/service/appeal_service.go) over the database object. Each operation
    is proved to do exactly what the matching function of `AppealLifecycle` describes. */
module AppealService {
  import opened Domain
  import opened Tables
  import opened Store
  import TR = TicketRepository
  import AR = AssignmentRepository
  import TripRepository
  import APL = AppealLifecycle

  method Create(db: Db, p: Principal, input: APL.CreateAppealInput, now: Time) returns (r: Result<Appeal>)
    requires APL.ComparesDriver(db.Snapshot(), p, input) ==> p.driverId.Some?
    modifies db
    ensures Step(db.Snapshot(), r) == APL.Create(old(db.Snapshot()), p, input, now)
  {
    if !p.IsDriver() {
      return Failure(PermissionDenied);
    }
    if input.reason.Unrecognized? {
      return Failure(InvalidInput);
    }
    if input.tripId.Malformed? {
      return Failure(InvalidInput);
    }
    var found := TripRepository.GetByID(db.trips, input.tripId.value);
    if found.Failure? {
      return Failure(NotFound);
    }
    var trip := found.value;
    if trip.driverId.None? || trip.driverId.value != p.driverId.value {
      return Failure(PermissionDenied);
    }
    if trip.status == Ok {
      return Failure(Conflict);
    }
    var id := db.NewId();
    var appeal := APL.NewAppeal(id, trip, p, input.reason.kind, input.comment, now);
    db.appeals := db.appeals + [appeal];
    return Success(appeal);
  }

  method ListByTicketID(db: Db, p: Principal, ticketId: Id) returns (r: Result<seq<Appeal>>)
    ensures r == APL.ListByTicketID(db.Snapshot(), p, ticketId)
  {
    var loaded := TR.GetByID(db.tickets, ticketId);
    if loaded.Failure? {
      return Failure(NotFound);
    }
    var ticket := loaded.value;
    if p.IsAkimat() {
    } else if p.IsKgu() {
      if ticket.createdByOrgId != p.orgId {
        return Failure(PermissionDenied);
      }
    } else if p.IsContractor() {
      if ticket.contractorId != p.orgId {
        return Failure(PermissionDenied);
      }
    } else if p.IsDriver() {
      return Success(APL.ListAppealsByUser(db.appeals, p.userId));
    } else {
      return Failure(PermissionDenied);
    }
    return Success(APL.ListAppealsByTicket(db.appeals, ticket.id));
  }

  /** ListDriverAppeals: with a ticket, the driver's active assignment is checked and the ticket's
      appeals are filtered by a loop down to the driver's own. */
  method ListDriverAppeals(db: Db, p: Principal, ticketId: Option<Raw<Id>>) returns (r: Result<seq<Appeal>>)
    ensures r == APL.ListDriverAppeals(db.Snapshot(), p, ticketId)
  {
    if !p.IsDriver() {
      return Failure(PermissionDenied);
    }
    if ticketId.Some? {
      if p.driverId.None? {
        return Failure(PermissionDenied);
      }
      if ticketId.value.Malformed? {
        return Failure(InvalidInput);
      }
      var tid := ticketId.value.value;
      var has := AR.HasActiveAssignment(db.assignments, tid, p.driverId.value);
      if !has {
        return Failure(PermissionDenied);
      }
      var appeals := APL.ListAppealsByTicket(db.appeals, tid);
      var filtered := FilterByCreator(appeals, p.userId);
      return Success(filtered);
    }
    return Success(APL.ListAppealsByUser(db.appeals, p.userId));
  }

  /** The loop keeping the appeals a user filed, in the order they were listed. */
  method FilterByCreator(appeals: seq<Appeal>, userId: Id) returns (filtered: seq<Appeal>)
    ensures filtered == Filter(appeals, APL.ByUser(userId))
  {
    filtered := [];
    var i := 0;
    while i < |appeals|
      invariant i <= |appeals|
      invariant filtered == Filter(appeals[..i], APL.ByUser(userId))
    {
      if appeals[i].createdByUserId == userId {
        filtered := filtered + [appeals[i]];
      }
      assert appeals[..i + 1][..i] == appeals[..i];
      i := i + 1;
    }
    assert appeals[..|appeals|] == appeals;
  }

  method GetByID(db: Db, p: Principal, id: Id) returns (r: Result<Appeal>)
    ensures r == APL.GetByID(db.Snapshot(), p, id)
  {
    var found := APL.GetAppeal(db.appeals, id);
    if found.Failure? {
      return Failure(NotFound);
    }
    var appeal := found.value;
    var access := CheckReadAccess(db, p, appeal);
    if access.Fail? {
      return Failure(access.error);
    }
    return Success(appeal);
  }

  /** The role checks GetByID makes once the appeal is loaded. */
  method CheckReadAccess(db: Db, p: Principal, appeal: Appeal) returns (r: Outcome)
    ensures r == APL.ReadAccess(db.Snapshot(), p, appeal)
  {
    if p.IsAkimat() {
    } else if p.IsKgu() {
      if appeal.ticketId.Some? {
        var loaded := TR.GetByID(db.tickets, appeal.ticketId.value);
        if loaded.Failure? {
          return Fail(loaded.error);
        }
        if loaded.value.createdByOrgId != p.orgId {
          return Fail(PermissionDenied);
        }
      }
    } else if p.IsContractor() {
      r := CheckContractorAccess(db, p, appeal);
      return;
    } else if p.IsDriver() {
      if appeal.createdByUserId != p.userId {
        return Fail(PermissionDenied);
      }
    } else {
      return Fail(PermissionDenied);
    }
    return Done;
  }

  /** The contractor's check, common to reading an appeal and to its comments. */
  method CheckContractorAccess(db: Db, p: Principal, appeal: Appeal) returns (r: Outcome)
    ensures r == APL.ContractorAccess(db.Snapshot(), p, appeal)
  {
    if appeal.ticketId.Some? {
      var loaded := TR.GetByID(db.tickets, appeal.ticketId.value);
      if loaded.Failure? {
        return Fail(loaded.error);
      }
      if loaded.value.contractorId != p.orgId {
        return Fail(PermissionDenied);
      }
    }
    return Done;
  }

  method UpdateStatus(db: Db, p: Principal, id: Id, status: AppealStatus, adminResponse: Option<string>) returns (r: Outcome)
    modifies db
    ensures Step(db.Snapshot(), r) == APL.UpdateStatus(old(db.Snapshot()), p, id, status, adminResponse)
  {
    if !p.IsKgu() && !p.IsAkimat() {
      return Fail(PermissionDenied);
    }
    var found := APL.GetAppeal(db.appeals, id);
    if found.Failure? {
      return Fail(NotFound);
    }
    var appeal := found.value;
    if p.IsKgu() && appeal.ticketId.Some? {
      var loaded := TR.GetByID(db.tickets, appeal.ticketId.value);
      if loaded.Failure? {
        return Fail(loaded.error);
      }
      if loaded.value.createdByOrgId != p.orgId {
        return Fail(PermissionDenied);
      }
    }
    appeal := appeal.(status := status);
    if adminResponse.Some? {
      appeal := appeal.(adminResponse := adminResponse);
    }
    db.appeals := Save(db.appeals, AppealKey, appeal);
    return Done;
  }

  /** The role checks AddComment and GetComments make once the appeal is loaded. */
  method CheckCommentAccess(db: Db, p: Principal, appeal: Appeal) returns (r: Outcome)
    ensures r == APL.CommentAccess(db.Snapshot(), p, appeal)
  {
    if p.IsDriver() {
      if appeal.createdByUserId != p.userId {
        return Fail(PermissionDenied);
      }
    } else if p.IsKgu() || p.IsAkimat() {
    } else if p.IsContractor() {
      r := CheckContractorAccess(db, p, appeal);
      return;
    } else {
      return Fail(PermissionDenied);
    }
    return Done;
  }

  method AddComment(db: Db, p: Principal, appealId: Id, content: string, now: Time) returns (r: Outcome)
    modifies db
    ensures Step(db.Snapshot(), r) == APL.AddComment(old(db.Snapshot()), p, appealId, content, now)
  {
    var found := APL.GetAppeal(db.appeals, appealId);
    if found.Failure? {
      return Fail(NotFound);
    }
    var appeal := found.value;
    var access := CheckCommentAccess(db, p, appeal);
    if access.Fail? {
      return access;
    }
    var id := db.NewId();
    db.comments := db.comments + [AppealComment(id, appeal.id, p.userId, content, now)];
    return Done;
  }

  method GetComments(db: Db, p: Principal, appealId: Id) returns (r: Result<seq<AppealComment>>)
    ensures r == APL.GetComments(db.Snapshot(), p, appealId)
  {
    var found := APL.GetAppeal(db.appeals, appealId);
    if found.Failure? {
      return Failure(NotFound);
    }
    var appeal := found.value;
    var access := CheckCommentAccess(db, p, appeal);
    if access.Fail? {
      return Failure(access.error);
    }
    return Success(APL.CommentsOf(db.comments, appeal.id));
  }
}
