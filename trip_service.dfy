/** TripService (internal/service/trip_service.go) over the database object: the methods that
    write trips, and the two loops that sum volumes. Each is proved to do exactly what the
    matching function of `TripLifecycle` describes. */
module TripService {
  import opened Domain
  import opened Tables
  import opened Store
  import TR = TicketRepository
  import AR = AssignmentRepository
  import TripRepository
  import PlateNormalizer
  import AnprClient
  import TicketService
  import TL = TripLifecycle

  method Create(db: Db, input: TL.CreateTripInput, now: Time) returns (r: Result<Trip>)
    modifies db
    ensures Step(db.Snapshot(), r) == TL.Create(old(db.Snapshot()), input, now)
  {
    ghost var w := db.Snapshot();
    if !TL.Parses(input) {
      return Failure(InvalidInput);
    }
    var ticketId := TL.Given(input.ticketId);
    var assignmentId := TL.Given(input.assignmentId);
    var driverId := TL.Given(input.driverId);
    var vehicleId := TL.Given(input.vehicleId);

    var assignment: Option<Assignment> := None;
    if assignmentId.Some? {
      var found := AR.GetByID(db.assignments, assignmentId.value);
      if found.Failure? {
        return Failure(NotFound);
      }
      if !found.value.isActive {
        return Failure(Conflict);
      }
      assignment := Some(found.value);
    }
    if assignment.None? && driverId.Some? {
      assignment := AR.FindActiveByDriver(db.assignments, driverId.value);
    }
    if assignment.None? && vehicleId.Some? {
      assignment := AR.FindActiveByVehicle(db.assignments, vehicleId.value);
    }
    assert assignment == TL.ResolveAssignment(db.assignments, assignmentId, driverId, vehicleId).value;
    if assignment.Some? {
      ticketId := Some(assignment.value.ticketId);
      assignmentId := Some(assignment.value.id);
      driverId := Some(assignment.value.driverId);
      vehicleId := Some(assignment.value.vehicleId);
    }
    assert TL.Attribution(ticketId, assignmentId, driverId, vehicleId) == TL.Attribute(input, assignment);
    assert TL.Create(w, input, now) == TL.Record(w, input, TL.Attribute(input, assignment), now);

    r := Record(db, input, TL.Attribution(ticketId, assignmentId, driverId, vehicleId), now);
  }

  /** Create, once the trip is attributed: the ticket checks, the insertion and the ticket's
      reaction, whose error is returned. */
  method Record(db: Db, input: TL.CreateTripInput, at: TL.Attribution, now: Time) returns (r: Result<Trip>)
    requires TL.Parses(input)
    modifies db
    ensures Step(db.Snapshot(), r) == TL.Record(old(db.Snapshot()), input, at, now)
  {
    if at.ticketId.Some? {
      var ticket := TR.GetByID(db.tickets, at.ticketId.value);
      if ticket.Failure? {
        return Failure(NotFound);
      }
      if TL.Terminal(ticket.value.status) {
        return Failure(Conflict);
      }
    }
    ghost var w := db.Snapshot();
    var id := db.NewId();
    var trip := TL.RecordedTrip(id, input, at);
    db.trips := db.trips + [trip];
    assert db.Snapshot() == w.(trips := w.trips + [trip], nextId := w.nextId + 1);
    if at.ticketId.Some? {
      var reaction := TicketService.OnTripCreated(db, at.ticketId.value, now);
      match reaction {
        case Fail(e) => return Failure(e);
        case Done =>
      }
    }
    return Success(trip);
  }

  /** CalculateVolumeForAssignment: the guards, the ANPR call and the summing loop. */
  method CalculateVolumeForAssignment(db: Db, a: Assignment, anpr: TL.Anpr) returns (r: Result<real>)
    ensures r == TL.CalculateVolume(db.vehicles, a, anpr)
  {
    if a.tripStartedAt.None? {
      return Failure(Failed("trip not started"));
    }
    if a.tripFinishedAt.None? {
      return Failure(Failed("trip not finished"));
    }
    var plate := AR.GetVehiclePlateNumber(db.vehicles, a.vehicleId);
    if plate.Failure? {
      return Failure(Failed("failed to get vehicle plate number"));
    }
    var normalized := PlateNormalizer.NormalizePlate(plate.value);
    if normalized == "" {
      return Failure(Failed("invalid plate number format"));
    }
    var call := AnprClient.GetEventsByPlateAndTime(anpr.baseUrl, anpr.token, normalized,
      a.tripStartedAt.value, a.tripFinishedAt.value, Some(TL.EntryDirection), anpr.transport);
    if call.response.Error? {
      return Failure(Failed("failed to get ANPR events"));
    }
    var total := SumEventVolumes(call.response.events);
    return Success(total);
  }

  /** The loop adding up the volumes the events report; an event without a volume adds nothing. */
  method SumEventVolumes(events: seq<AnprClient.Event>) returns (total: real)
    ensures total == TL.VolumeSum(events)
  {
    total := 0.0;
    var i := 0;
    while i < |events|
      invariant i <= |events|
      invariant total == TL.VolumeSum(events[..i])
    {
      if events[i].snowVolume.Some? {
        total := total + events[i].snowVolume.value;
      }
      assert events[..i + 1][..i] == events[..i];
      i := i + 1;
    }
    assert events[..|events|] == events;
  }

  /** CompleteTripAndCalculateVolume: a failed volume calculation records zero, a missing vehicle
      an empty plate, and a failed ticket reaction is ignored. */
  method CompleteTripAndCalculateVolume(db: Db, assignmentId: Id, anpr: TL.Anpr, now: Time) returns (r: Result<Trip>)
    modifies db
    ensures Step(db.Snapshot(), r) == TL.CompleteTrip(old(db.Snapshot()), assignmentId, anpr, now)
  {
    ghost var w := db.Snapshot();
    var found := AR.GetByID(db.assignments, assignmentId);
    if found.Failure? {
      return Failure(NotFound);
    }
    var a := found.value;
    if a.tripStartedAt.None? {
      return Failure(Failed("trip not started"));
    }
    if a.tripFinishedAt.None? {
      return Failure(Failed("trip not finished"));
    }
    var calculated := CalculateVolumeForAssignment(db, a, anpr);
    var volume := if calculated.Success? then calculated.value else 0.0;
    var plate := AR.GetVehiclePlateNumber(db.vehicles, a.vehicleId);
    var plateNumber := if plate.Success? then plate.value else "";
    var normalized := PlateNormalizer.NormalizePlate(plateNumber);

    assert volume == TL.VolumeOrZero(TL.CalculateVolume(w.vehicles, a, anpr));
    assert normalized == TL.RecordedPlate(w.vehicles, a.vehicleId);

    var existing := TripRepository.FindByAssignmentID(db.trips, assignmentId);
    if existing.Some? {
      assert TL.CompleteTrip(w, assignmentId, anpr, now) == TL.FinishExisting(w, existing.value, a, volume);
      r := FinishExisting(db, existing.value, a, volume);
    } else {
      assert TL.CompleteTrip(w, assignmentId, anpr, now) == TL.CreateAutoTrip(w, a, normalized, volume, now);
      r := RecordAutoTrip(db, a, normalized, volume, now);
    }
  }

  /** The assignment's trip is already recorded: it is closed with the volume and saved. */
  method FinishExisting(db: Db, existing: Trip, a: Assignment, volume: real) returns (r: Result<Trip>)
    requires TripRepository.FindByAssignmentID(db.trips, a.id) == Some(existing)
    modifies db
    ensures Step(db.Snapshot(), r) == TL.FinishExisting(old(db.Snapshot()), existing, a, volume)
  {
    var trip := existing;
    trip := trip.(exitAt := a.tripFinishedAt, totalVolume := Some(volume), status := Ok, autoCreated := true);
    db.trips := TripRepository.Update(db.trips, trip);
    return Success(trip);
  }

  /** No trip is recorded for the assignment: one is created, and the ticket's reaction to it is
      carried out with its outcome ignored. */
  method RecordAutoTrip(db: Db, a: Assignment, plate: string, volume: real, now: Time) returns (r: Result<Trip>)
    requires a.tripStartedAt.Some?
    requires TripRepository.FindByAssignmentID(db.trips, a.id).None?
    modifies db
    ensures Step(db.Snapshot(), r) == TL.CreateAutoTrip(old(db.Snapshot()), a, plate, volume, now)
  {
    ghost var w := db.Snapshot();
    var id := db.NewId();
    var trip := TL.AutoTrip(id, a, plate, volume);
    db.trips := db.trips + [trip];
    assert db.Snapshot() == w.(trips := w.trips + [trip], nextId := w.nextId + 1);
    var _ := TicketService.OnTripCreated(db, a.ticketId, now);
    return Success(trip);
  }

  /** GetReceptionJournal: the journal query, then a loop adding up the net volumes. */
  method GetReceptionJournal(db: Db, p: Principal, f: TripRepository.JournalFilter) returns (r: Result<TL.Journal>)
    ensures r == TL.ReceptionJournal(db.Snapshot(), p, f)
  {
    if !p.IsLandfill() {
      return Failure(PermissionDenied);
    }
    var entries := TripRepository.ListReceptionJournal(db.trips, db.tickets, f);
    var total := SumNetVolumes(entries);
    return Success(TL.Journal(entries, total, |entries|));
  }

  /** The loop adding up the net volumes of the journal entries. */
  method SumNetVolumes(entries: seq<TripRepository.JournalEntry>) returns (total: real)
    ensures total == SumBy(entries, TL.NetVolume)
  {
    total := 0.0;
    var i := 0;
    while i < |entries|
      invariant i <= |entries|
      invariant total == SumBy(entries[..i], TL.NetVolume)
    {
      total := total + entries[i].netVolume;
      assert entries[..i + 1][..i] == entries[..i];
      i := i + 1;
    }
    assert entries[..|entries|] == entries;
  }
}
