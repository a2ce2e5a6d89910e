/** The trip operations of internal/service/trip_service.go as steps from one `World` to the next:
    recording a trip and attributing it to an assignment, the driver-driven completion that
    reconciles the carried volume with the ANPR events, the access-checked reads and the
    landfill's reception journal. */
module TripLifecycle {
  import opened Domain
  import opened Tables
  import opened Store
  import TR = TicketRepository
  import AR = AssignmentRepository
  import TripRepository
  import TL = TicketLifecycle
  import PlateNormalizer
  import AnprClient

  /** The fields of a create request. An absent optional field is `None`; a present one is parsed
      and may be malformed. */
  datatype CreateTripInput = CreateTripInput(
    ticketId: Option<Raw<Id>>,
    assignmentId: Option<Raw<Id>>,
    driverId: Option<Raw<Id>>,
    vehicleId: Option<Raw<Id>>,
    cameraId: Option<Raw<Id>>,
    polygonId: Option<Raw<Id>>,
    vehiclePlate: string,
    detectedPlate: string,
    entryLprEventId: Option<Raw<Id>>,
    exitLprEventId: Option<Raw<Id>>,
    entryVolumeEventId: Option<Raw<Id>>,
    exitVolumeEventId: Option<Raw<Id>>,
    volumeEntry: Option<real>,
    volumeExit: Option<real>,
    entryAt: Raw<Time>,
    exitAt: Option<Raw<Time>>,
    status: TripStatus)

  predicate ParsesIfGiven<T>(o: Option<Raw<T>>)
  {
    o.None? || o.value.Well?
  }

  function Given<T>(o: Option<Raw<T>>): Option<T>
    requires ParsesIfGiven(o)
  {
    if o.None? then None else Some(o.value.value)
  }

  predicate Parses(input: CreateTripInput)
  {
    && ParsesIfGiven(input.ticketId)
    && ParsesIfGiven(input.assignmentId)
    && ParsesIfGiven(input.driverId)
    && ParsesIfGiven(input.vehicleId)
    && ParsesIfGiven(input.cameraId)
    && ParsesIfGiven(input.polygonId)
    && ParsesIfGiven(input.entryLprEventId)
    && ParsesIfGiven(input.exitLprEventId)
    && ParsesIfGiven(input.entryVolumeEventId)
    && ParsesIfGiven(input.exitVolumeEventId)
    && input.entryAt.Well?
    && ParsesIfGiven(input.exitAt)
  }

  /** A ticket that takes no more trips or assignment changes. */
  predicate Terminal(s: TicketStatus)
  {
    s == Cancelled || s == Closed || s == Completed
  }

  /** The assignment a new trip is attributed to: the one named in the request, which must exist
      and be active; otherwise the driver's latest active assignment; otherwise the vehicle's. */
  function ResolveAssignment(assignments: seq<Assignment>, assignmentId: Option<Id>, driverId: Option<Id>, vehicleId: Option<Id>): (r: Result<Option<Assignment>>)
    ensures r.Failure? <==> (assignmentId.Some? &&
      (AR.GetByID(assignments, assignmentId.value).Failure? || !AR.GetByID(assignments, assignmentId.value).value.isActive))
    ensures r.Failure? ==> r.error == if AR.GetByID(assignments, assignmentId.value).Failure? then NotFound else Conflict
    ensures r.Success? && r.value.Some? ==> r.value.value in assignments && r.value.value.isActive
    ensures assignmentId.Some? && r.Success? ==> r.value == Some(AR.GetByID(assignments, assignmentId.value).value)
    ensures assignmentId.None? && driverId.Some? && AR.FindActiveByDriver(assignments, driverId.value).Some? ==>
      r == Success(AR.FindActiveByDriver(assignments, driverId.value))
    ensures assignmentId.None? && (driverId.None? || AR.FindActiveByDriver(assignments, driverId.value).None?) && vehicleId.Some? ==>
      r == Success(AR.FindActiveByVehicle(assignments, vehicleId.value))
    ensures r == Success(None) <==>
      (assignmentId.None?
       && (driverId.None? || AR.FindActiveByDriver(assignments, driverId.value).None?)
       && (vehicleId.None? || AR.FindActiveByVehicle(assignments, vehicleId.value).None?))
  {
    if assignmentId.Some? then
      match AR.GetByID(assignments, assignmentId.value)
      case Failure(_) => Failure(NotFound)
      case Success(a) => if !a.isActive then Failure(Conflict) else Success(Some(a))
    else if driverId.Some? && AR.FindActiveByDriver(assignments, driverId.value).Some? then
      Success(AR.FindActiveByDriver(assignments, driverId.value))
    else if vehicleId.Some? then Success(AR.FindActiveByVehicle(assignments, vehicleId.value))
    else Success(None)
  }

  /** The ticket, assignment, driver and vehicle the trip records: those of the resolved
      assignment, or the request's own when none was resolved. */
  datatype Attribution = Attribution(ticketId: Option<Id>, assignmentId: Option<Id>, driverId: Option<Id>, vehicleId: Option<Id>)

  function Attribute(input: CreateTripInput, resolved: Option<Assignment>): (at: Attribution)
    requires Parses(input)
    ensures resolved.Some? ==> at == Attribution(Some(resolved.value.ticketId), Some(resolved.value.id),
      Some(resolved.value.driverId), Some(resolved.value.vehicleId))
    ensures resolved.None? ==> at == Attribution(Given(input.ticketId), Given(input.assignmentId),
      Given(input.driverId), Given(input.vehicleId))
  {
    if resolved.Some? then
      var a := resolved.value;
      Attribution(Some(a.ticketId), Some(a.id), Some(a.driverId), Some(a.vehicleId))
    else Attribution(Given(input.ticketId), Given(input.assignmentId), Given(input.driverId), Given(input.vehicleId))
  }

  /** The trip recorded for a parsed request. A trip without a ticket is NO_ASSIGNMENT whatever
      status the request carries. */
  function RecordedTrip(id: Id, input: CreateTripInput, at: Attribution): (t: Trip)
    requires Parses(input)
    ensures t.id == id && t.ticketId == at.ticketId && t.assignmentId == at.assignmentId
    ensures t.driverId == at.driverId && t.vehicleId == at.vehicleId
    ensures t.status == if at.ticketId.None? then NoAssignment else input.status
    ensures t.entryAt == input.entryAt.value && t.exitAt == Given(input.exitAt)
    ensures !t.autoCreated && t.totalVolume.None?
  {
    Trip(id, at.ticketId, at.assignmentId, at.driverId, at.vehicleId,
      Given(input.cameraId), Given(input.polygonId), input.vehiclePlate, input.detectedPlate,
      Given(input.entryLprEventId), Given(input.exitLprEventId),
      Given(input.entryVolumeEventId), Given(input.exitVolumeEventId),
      input.volumeEntry, input.volumeExit, input.entryAt.value, Given(input.exitAt),
      if at.ticketId.None? then NoAssignment else input.status, None, false)
  }

  /** Create: parse every field; attribute the trip; refuse a missing ticket and a ticket that is
      cancelled, closed or completed; store the trip under a fresh identifier; then let the
      ticket react to its trip. */
  function Create(w: World, input: CreateTripInput, now: Time): (s: Step<Result<Trip>>)
    ensures !Parses(input) ==> s == Step(w, Failure(InvalidInput))
    ensures s.result.Failure? ==> s.world == w
    ensures s.result.Success? ==>
      var t := s.result.value;
      && Parses(input)
      && t.id == w.nextId
      && s.world.trips == w.trips + [t]
      && s.world.nextId == w.nextId + 1
      && s.world == w.(tickets := s.world.tickets, trips := s.world.trips, nextId := s.world.nextId)
      && t.status == (if t.ticketId.None? then NoAssignment else input.status)
      && (t.ticketId.Some? ==>
           TR.GetByID(w.tickets, t.ticketId.value).Success? && !Terminal(TR.GetByID(w.tickets, t.ticketId.value).value.status))
      && (Given(input.assignmentId).Some? ==> t.assignmentId == Given(input.assignmentId))
      && (t.assignmentId.Some? ==> exists a :: (a in w.assignments && a.isActive && a.id == t.assignmentId.value
            && t.ticketId == Some(a.ticketId) && t.driverId == Some(a.driverId) && t.vehicleId == Some(a.vehicleId)))
      && (t.ticketId.None? ==> t.assignmentId.None?)
    ensures s.result.Success? && s.result.value.ticketId.Some? ==>
      s.world == TL.OnTripCreated(w.(trips := s.world.trips, nextId := s.world.nextId), s.result.value.ticketId.value, now).world
    ensures Parses(input) ==>
      var res := ResolveAssignment(w.assignments, Given(input.assignmentId), Given(input.driverId), Given(input.vehicleId));
      && (res.Failure? ==> s == Step(w, Failure(res.error)))
      && (res.Success? ==> s == Record(w, input, Attribute(input, res.value), now))
    ensures Valid(w) ==> Valid(s.world) && TL.FactStampsKept(w, s.world)
  {
    if !Parses(input) then Step(w, Failure(InvalidInput))
    else match ResolveAssignment(w.assignments, Given(input.assignmentId), Given(input.driverId), Given(input.vehicleId))
      case Failure(e) => Step(w, Failure(e))
      case Success(resolved) => Record(w, input, Attribute(input, resolved), now)
  }

  /** The part of Create after attribution: the ticket checks, the insertion and the ticket's
      reaction, whose failure is the call's failure. */
  function Record(w: World, input: CreateTripInput, at: Attribution, now: Time): (s: Step<Result<Trip>>)
    requires Parses(input)
    ensures at.ticketId.Some? && TR.GetByID(w.tickets, at.ticketId.value).Failure? ==> s == Step(w, Failure(NotFound))
    ensures (at.ticketId.Some? && TR.GetByID(w.tickets, at.ticketId.value).Success? &&
             Terminal(TR.GetByID(w.tickets, at.ticketId.value).value.status)) ==>
      s == Step(w, Failure(Conflict))
    ensures (at.ticketId.None? || (TR.GetByID(w.tickets, at.ticketId.value).Success? &&
             !Terminal(TR.GetByID(w.tickets, at.ticketId.value).value.status))) ==>
      s.result == Success(RecordedTrip(w.nextId, input, at))
    ensures at.ticketId.None? ==>
      s.world == w.(trips := w.trips + [RecordedTrip(w.nextId, input, at)], nextId := w.nextId + 1)
    ensures s.result.Failure? ==> s.world == w
    ensures s.result.Success? ==>
      && s.result.value == RecordedTrip(w.nextId, input, at)
      && s.world.trips == w.trips + [s.result.value]
      && s.world.nextId == w.nextId + 1
      && s.world == w.(tickets := s.world.tickets, trips := s.world.trips, nextId := s.world.nextId)
      && (at.ticketId.Some? ==>
           TR.GetByID(w.tickets, at.ticketId.value).Success? && !Terminal(TR.GetByID(w.tickets, at.ticketId.value).value.status))
    ensures s.result.Success? && at.ticketId.Some? ==>
      s.world == TL.OnTripCreated(w.(trips := s.world.trips, nextId := s.world.nextId), at.ticketId.value, now).world
    ensures Valid(w) ==> Valid(s.world) && TL.FactStampsKept(w, s.world)
  {
    if at.ticketId.Some? && TR.GetByID(w.tickets, at.ticketId.value).Failure? then Step(w, Failure(NotFound))
    else if at.ticketId.Some? && Terminal(TR.GetByID(w.tickets, at.ticketId.value).value.status) then Step(w, Failure(Conflict))
    else
      var t := RecordedTrip(w.nextId, input, at);
      var stored := w.(trips := w.trips + [t], nextId := w.nextId + 1);
      assert Valid(w) ==> Valid(stored) && TL.FactStampsKept(w, stored) by {
        if Valid(w) {
          FreshIdValid(w);
          WellKeyedAppend(w.trips, TripRepository.TripKey, w.nextId, t);
        }
      }
      if at.ticketId.None? then Step(stored, Success(t))
      else
        var after := TL.OnTripCreated(stored, at.ticketId.value, now);
        assert Valid(w) ==> TL.FactStampsKept(w, after.world) by {
          if Valid(w) { FactStampsKeptTrans(w, stored, after.world); }
        }
        match after.result
        case Fail(e) => Step(after.world, Failure(e))
        case Done => Step(after.world, Success(t))
  }

  lemma FactStampsKeptTrans(w1: World, w2: World, w3: World)
    requires TL.FactStampsKept(w1, w2) && TL.FactStampsKept(w2, w3)
    ensures TL.FactStampsKept(w1, w3)
  {
    forall i | 0 <= i < |w1.tickets| ensures TL.StampsWithin(w1.tickets[i], w3.tickets[i]) {
      assert TL.StampsWithin(w1.tickets[i], w2.tickets[i]);
      assert TL.StampsWithin(w2.tickets[i], w3.tickets[i]);
    }
  }

  /** The first trip recorded for a PLANNED, unstarted ticket starts it: the ticket is
      IN_PROGRESS afterwards, with the fact start stamped at the time of the trip's creation. */
  lemma CreateStartsTicket(w: World, input: CreateTripInput, now: Time)
    requires Create(w, input, now).result.Success?
    requires Create(w, input, now).result.value.ticketId.Some?
    requires TR.GetByID(w.tickets, Create(w, input, now).result.value.ticketId.value).value.status == Planned
    requires TR.GetByID(w.tickets, Create(w, input, now).result.value.ticketId.value).value.factStartAt.None?
    ensures var id := Create(w, input, now).result.value.ticketId.value;
      TR.GetByID(Create(w, input, now).world.tickets, id) ==
        Success(TR.GetByID(w.tickets, id).value.(status := InProgress, factStartAt := Some(now)))
  {
    var s := Create(w, input, now);
    var t := s.result.value;
    var stored := w.(trips := s.world.trips, nextId := s.world.nextId);
    assert t in stored.trips;
    assert TL.StartsOnTrip(stored, t.ticketId.value);
  }

  /** The volume an event reports, zero when it reports none. */
  function EventVolume(e: AnprClient.Event): real
  {
    if e.snowVolume.Some? then e.snowVolume.value else 0.0
  }

  /** The volume carried on a trip: the sum over the entry events of the volumes they report. */
  function VolumeSum(events: seq<AnprClient.Event>): real
  {
    SumBy(events, EventVolume)
  }

  /** Events with volumes that are not negative sum to a volume that is not negative. */
  lemma VolumeSumNonNegative(events: seq<AnprClient.Event>)
    requires forall i :: 0 <= i < |events| && events[i].snowVolume.Some? ==> events[i].snowVolume.value >= 0.0
    ensures VolumeSum(events) >= 0.0
  {
    forall i | 0 <= i < |events| ensures EventVolume(events[i]) >= 0.0 {
    }
    SumByNonNegative(events, EventVolume);
  }

  /** Events that report no volume add nothing. */
  lemma {:induction false} VolumeSumWithoutVolumes(events: seq<AnprClient.Event>)
    requires forall i :: 0 <= i < |events| ==> events[i].snowVolume.None?
    ensures VolumeSum(events) == 0.0
  {
    if events != [] {
      VolumeSumWithoutVolumes(events[..|events| - 1]);
    }
  }

  /** The ANPR service and the network: its configured URL and token and the exchanges it answers. */
  datatype Anpr = Anpr(baseUrl: string, token: string, transport: seq<AnprClient.Attempt>)

  /** The direction the volume calculation asks for. */
  const EntryDirection: string := "entry"

  /** The call the volume calculation makes for an assignment with both stamps and a plate. */
  function EntryEventsCall(anpr: Anpr, plate: string, a: Assignment): (c: AnprClient.Call)
    requires a.tripStartedAt.Some? && a.tripFinishedAt.Some?
    ensures c.request.Some? ==> c.request.value.direction == Some(EntryDirection)
    ensures c.request.Some? ==> c.request.value.startTime == a.tripStartedAt.value && c.request.value.endTime == a.tripFinishedAt.value
  {
    AnprClient.GetEvents(anpr.baseUrl, anpr.token, plate, a.tripStartedAt.value, a.tripFinishedAt.value,
      Some(EntryDirection), anpr.transport)
  }

  /** CalculateVolumeForAssignment: both trip stamps must be set and the vehicle's plate must be
      known and normalise to something; the volume is then the sum over the ANPR entry events of
      the trip's window. Any failure on the way is an error. */
  function CalculateVolume(vehicles: seq<Vehicle>, a: Assignment, anpr: Anpr): (r: Result<real>)
    ensures r.Success? ==>
      && a.tripStartedAt.Some? && a.tripFinishedAt.Some?
      && AR.GetVehiclePlateNumber(vehicles, a.vehicleId).Success?
      && var plate := PlateNormalizer.NormalizePlate(AR.GetVehiclePlateNumber(vehicles, a.vehicleId).value);
         && plate != ""
         && EntryEventsCall(anpr, plate, a).response.Events?
         && r.value == VolumeSum(EntryEventsCall(anpr, plate, a).response.events)
    ensures a.tripStartedAt.None? || a.tripFinishedAt.None? ==> r.Failure?
    ensures AR.GetVehiclePlateNumber(vehicles, a.vehicleId).Failure? ==> r.Failure?
    ensures a.tripStartedAt.Some? && a.tripFinishedAt.Some? && AR.GetVehiclePlateNumber(vehicles, a.vehicleId).Success? ==>
      var plate := PlateNormalizer.NormalizePlate(AR.GetVehiclePlateNumber(vehicles, a.vehicleId).value);
      && (plate == "" ==> r.Failure?)
      && (plate != "" && EntryEventsCall(anpr, plate, a).response.Error? ==> r.Failure?)
      && (plate != "" && EntryEventsCall(anpr, plate, a).response.Events? ==>
            r == Success(VolumeSum(EntryEventsCall(anpr, plate, a).response.events)))
  {
    if a.tripStartedAt.None? then Failure(Failed("trip not started"))
    else if a.tripFinishedAt.None? then Failure(Failed("trip not finished"))
    else match AR.GetVehiclePlateNumber(vehicles, a.vehicleId)
      case Failure(_) => Failure(Failed("failed to get vehicle plate number"))
      case Success(plate) =>
        var normalized := PlateNormalizer.NormalizePlate(plate);
        if normalized == "" then Failure(Failed("invalid plate number format"))
        else match EntryEventsCall(anpr, normalized, a).response
          case Error(_) => Failure(Failed("failed to get ANPR events"))
          case Events(es) => Success(VolumeSum(es))
  }

  /** The trip created for a completed assignment that has none: attributed to the assignment,
      spanning its trip window, OK, marked auto-created, with no sensor event attached. */
  function AutoTrip(id: Id, a: Assignment, plate: string, volume: real): (t: Trip)
    requires a.tripStartedAt.Some?
    ensures t.id == id && t.ticketId == Some(a.ticketId) && t.assignmentId == Some(a.id)
    ensures t.driverId == Some(a.driverId) && t.vehicleId == Some(a.vehicleId)
    ensures t.entryAt == a.tripStartedAt.value && t.exitAt == a.tripFinishedAt
    ensures t.status == Ok && t.autoCreated && t.totalVolume == Some(volume)
    ensures t.exitLprEventId.None? && t.exitVolumeEventId.None?
  {
    Trip(id, Some(a.ticketId), Some(a.id), Some(a.driverId), Some(a.vehicleId), None, None, plate, "",
      None, None, None, None, None, None, a.tripStartedAt.value, a.tripFinishedAt, Ok, Some(volume), true)
  }

  /** The volume recorded on completion: the calculated one, zero when the calculation fails. */
  function VolumeOrZero(r: Result<real>): real
  {
    if r.Success? then r.value else 0.0
  }

  /** The plate recorded on an auto-created trip: the vehicle's, normalised; empty when the
      vehicle is missing. */
  function RecordedPlate(vehicles: seq<Vehicle>, vehicleId: Id): (p: string)
    ensures AR.GetVehiclePlateNumber(vehicles, vehicleId).Failure? ==> p == ""
  {
    PlateNormalizer.NormalizePlate(
      match AR.GetVehiclePlateNumber(vehicles, vehicleId)
      case Success(plate) => plate
      case Failure(_) => "")
  }

  /** The existing trip of an assignment as completion rewrites it. */
  function Finished(t: Trip, a: Assignment, volume: real): Trip
  {
    t.(exitAt := a.tripFinishedAt, totalVolume := Some(volume), status := Ok, autoCreated := true)
  }

  /** CompleteTripAndCalculateVolume: for an assignment whose trip has started and finished,
      record the calculated volume (zero when it cannot be calculated) on the assignment's trip,
      creating the trip when there is none; a created trip lets its ticket react to it, and a
      failure of that reaction is ignored. */
  function CompleteTrip(w: World, assignmentId: Id, anpr: Anpr, now: Time): (s: Step<Result<Trip>>)
    ensures s.result.Failure? <==>
      (AR.GetByID(w.assignments, assignmentId).Failure?
       || AR.GetByID(w.assignments, assignmentId).value.tripStartedAt.None?
       || AR.GetByID(w.assignments, assignmentId).value.tripFinishedAt.None?)
    ensures AR.GetByID(w.assignments, assignmentId).Failure? ==> s.result == Failure(NotFound)
    ensures s.result.Failure? ==> s.world == w
    ensures s.result.Success? ==>
      var a := AR.GetByID(w.assignments, assignmentId).value;
      var t := s.result.value;
      && t.assignmentId == Some(assignmentId)
      && t.exitAt == a.tripFinishedAt
      && t.status == Ok && t.autoCreated
      && t.totalVolume == Some(VolumeOrZero(CalculateVolume(w.vehicles, a, anpr)))
      && (TripRepository.FindByAssignmentID(w.trips, assignmentId).Some? ==>
            t == Finished(TripRepository.FindByAssignmentID(w.trips, assignmentId).value, a, t.totalVolume.value)
            && |s.world.trips| == |w.trips|)
      && (TripRepository.FindByAssignmentID(w.trips, assignmentId).None? ==>
            t == AutoTrip(w.nextId, a, RecordedPlate(w.vehicles, a.vehicleId), t.totalVolume.value)
            && s.world.trips == w.trips + [t])
      && s.world.assignments == w.assignments
    ensures AR.GetByID(w.assignments, assignmentId).Success? ==>
      var a := AR.GetByID(w.assignments, assignmentId).value;
      var volume := VolumeOrZero(CalculateVolume(w.vehicles, a, anpr));
      && (a.tripStartedAt.Some? && a.tripFinishedAt.Some? && TripRepository.FindByAssignmentID(w.trips, assignmentId).Some? ==>
            s == FinishExisting(w, TripRepository.FindByAssignmentID(w.trips, assignmentId).value, a, volume))
      && (a.tripStartedAt.Some? && a.tripFinishedAt.Some? && TripRepository.FindByAssignmentID(w.trips, assignmentId).None? ==>
            s == CreateAutoTrip(w, a, RecordedPlate(w.vehicles, a.vehicleId), volume, now))
    ensures Valid(w) && s.result.Success? ==>
      TripRepository.FindByAssignmentID(s.world.trips, assignmentId) == Some(s.result.value)
    ensures Valid(w) ==> Valid(s.world) && TL.FactStampsKept(w, s.world)
  {
    match AR.GetByID(w.assignments, assignmentId)
    case Failure(_) => Step(w, Failure(NotFound))
    case Success(a) =>
      if a.tripStartedAt.None? then Step(w, Failure(Failed("trip not started")))
      else if a.tripFinishedAt.None? then Step(w, Failure(Failed("trip not finished")))
      else
        var volume := VolumeOrZero(CalculateVolume(w.vehicles, a, anpr));
        var plate := RecordedPlate(w.vehicles, a.vehicleId);
        match TripRepository.FindByAssignmentID(w.trips, assignmentId)
        case Some(existing) => FinishExisting(w, existing, a, volume)
        case None => CreateAutoTrip(w, a, plate, volume, now)
  }

  /** The completion of an assignment whose trip is already recorded: that trip is rewritten in
      place. */
  function FinishExisting(w: World, existing: Trip, a: Assignment, volume: real): (s: Step<Result<Trip>>)
    requires TripRepository.FindByAssignmentID(w.trips, a.id) == Some(existing)
    ensures s == Step(w.(trips := TripRepository.Update(w.trips, Finished(existing, a, volume))), Success(Finished(existing, a, volume)))
    ensures |s.world.trips| == |w.trips|
    ensures Valid(w) ==> TripRepository.FindByAssignmentID(s.world.trips, a.id) == Some(s.result.value)
    ensures Valid(w) ==> Valid(s.world) && TL.FactStampsKept(w, s.world)
  {
    FinishExistingKeeps(w, existing, a, volume);
    var u := Finished(existing, a, volume);
    Step(w.(trips := TripRepository.Update(w.trips, u)), Success(u))
  }

  lemma FinishExistingKeeps(w: World, existing: Trip, a: Assignment, volume: real)
    requires TripRepository.FindByAssignmentID(w.trips, a.id) == Some(existing)
    ensures |TripRepository.Update(w.trips, Finished(existing, a, volume))| == |w.trips|
    ensures Valid(w) ==>
      TripRepository.FindByAssignmentID(TripRepository.Update(w.trips, Finished(existing, a, volume)), a.id)
        == Some(Finished(existing, a, volume))
    ensures Valid(w) ==> Valid(w.(trips := TripRepository.Update(w.trips, Finished(existing, a, volume))))
  {
    var u := Finished(existing, a, volume);
    var i :| 0 <= i < |w.trips| && w.trips[i] == existing;
    assert TripRepository.GetByID(w.trips, u.id).Success?;
    if Valid(w) {
      FinishedFound(w.trips, a.id, u);
      SaveTripValid(w, u);
    }
  }

  /** The completion of an assignment without a recorded trip: a trip is created for it, and its
      ticket reacts to it as to any new trip; the outcome of that reaction is ignored. */
  function CreateAutoTrip(w: World, a: Assignment, plate: string, volume: real, now: Time): (s: Step<Result<Trip>>)
    requires a.tripStartedAt.Some?
    requires TripRepository.FindByAssignmentID(w.trips, a.id).None?
    ensures s.result == Success(AutoTrip(w.nextId, a, plate, volume))
    ensures s.world.trips == w.trips + [s.result.value]
    ensures s.world == TL.OnTripCreated(w.(trips := w.trips + [s.result.value], nextId := w.nextId + 1), a.ticketId, now).world
    ensures s.world.assignments == w.assignments
    ensures TripRepository.FindByAssignmentID(s.world.trips, a.id) == Some(s.result.value)
    ensures Valid(w) ==> Valid(s.world) && TL.FactStampsKept(w, s.world)
  {
    var t := AutoTrip(w.nextId, a, plate, volume);
    var stored := w.(trips := w.trips + [t], nextId := w.nextId + 1);
    var after := TL.OnTripCreated(stored, a.ticketId, now);
    assert Valid(w) ==> Valid(after.world) && TL.FactStampsKept(w, after.world) by {
      if Valid(w) {
        FreshIdValid(w);
        WellKeyedAppend(w.trips, TripRepository.TripKey, w.nextId, t);
        FactStampsKeptTrans(w, stored, after.world);
      }
    }
    assert TripRepository.FindByAssignmentID(after.world.trips, a.id) == Some(t) by {
      FirstWhereAt(stored.trips, TripRepository.OfAssignment(a.id), |w.trips|);
    }
    Step(after.world, Success(t))
  }

  /** Rewriting the first trip of an assignment in place, in a table with distinct keys, leaves
      it the assignment's first trip. */
  lemma FinishedFound(trips: seq<Trip>, assignmentId: Id, u: Trip)
    requires KeysUnique(trips, TripRepository.TripKey)
    requires TripRepository.FindByAssignmentID(trips, assignmentId).Some?
    requires u.id == TripRepository.FindByAssignmentID(trips, assignmentId).value.id
    requires u.assignmentId == Some(assignmentId)
    ensures TripRepository.FindByAssignmentID(TripRepository.Update(trips, u), assignmentId) == Some(u)
    ensures exists i :: 0 <= i < |trips| && trips[i].id == u.id
  {
    var p := TripRepository.OfAssignment(assignmentId);
    var i := FirstWhereIndex(trips, p);
    var r := TripRepository.Update(trips, u);
    forall j | 0 <= j < i ensures !p(r[j]) {
      assert trips[j].id != trips[i].id;
    }
    FirstWhereAt(r, p, i);
  }

  /** Completing an assignment twice records one trip: the second completion rewrites the trip
      the first one created or rewrote. */
  lemma CompleteTripTwiceKeepsOneTrip(w: World, assignmentId: Id, anpr: Anpr, anpr': Anpr, now: Time, later: Time)
    requires Valid(w)
    requires CompleteTrip(w, assignmentId, anpr, now).result.Success?
    ensures var w1 := CompleteTrip(w, assignmentId, anpr, now).world;
      var s2 := CompleteTrip(w1, assignmentId, anpr', later);
      && s2.result.Success?
      && |s2.world.trips| == |w1.trips|
      && s2.result.value.id == CompleteTrip(w, assignmentId, anpr, now).result.value.id
  {
    var s1 := CompleteTrip(w, assignmentId, anpr, now);
    var w1 := s1.world;
    assert w1.assignments == w.assignments;
    assert TripRepository.FindByAssignmentID(w1.trips, assignmentId) == Some(s1.result.value);
  }

  /** A trip the completion creates has no exit sensor events, so it counts as incomplete and
      keeps its ticket from being completed, manually or automatically. */
  lemma AutoCreatedTripBlocksCompletion(w: World, assignmentId: Id, anpr: Anpr, now: Time)
    requires CompleteTrip(w, assignmentId, anpr, now).result.Success?
    requires TripRepository.FindByAssignmentID(w.trips, assignmentId).None?
    ensures var s := CompleteTrip(w, assignmentId, anpr, now);
      var ticketId := AR.GetByID(w.assignments, assignmentId).value.ticketId;
      && TR.IsIncompleteTrip(s.result.value)
      && TR.CountIncompleteTripsByTicketID(s.world.trips, ticketId) > 0
      && !TL.ReadyToComplete(s.world, ticketId)
  {
    var s := CompleteTrip(w, assignmentId, anpr, now);
    var t := s.result.value;
    assert t in s.world.trips;
  }

  /** ListByTicketID: the trips of a ticket the caller may access, latest entry first; a driver
      sees only its own trips of the ticket. */
  function ListByTicketID(w: World, p: Principal, ticketId: Id): (r: Result<seq<Trip>>)
    ensures TR.GetByID(w.tickets, ticketId).Failure? ==> r == Failure(NotFound)
    ensures r.Success? <==>
      TR.GetByID(w.tickets, ticketId).Success? && TL.CanAccessTicket(w.assignments, p, TR.GetByID(w.tickets, ticketId).value)
    ensures r.Failure? && TR.GetByID(w.tickets, ticketId).Success? ==> r == Failure(PermissionDenied)
    ensures r.Success? ==> forall t :: t in r.value ==> t in w.trips && t.ticketId == Some(ticketId)
    ensures r.Success? && p.IsDriver() ==> forall t :: t in r.value <==>
      (t in w.trips && t.ticketId == Some(ticketId) && t.driverId == p.driverId)
    ensures r.Success? && !p.IsDriver() ==> forall t :: t in r.value <==> (t in w.trips && t.ticketId == Some(ticketId))
    ensures r.Success? ==> SortedDesc(r.value, TripRepository.EntryAt)
  {
    match TR.GetByID(w.tickets, ticketId)
    case Failure(_) => Failure(NotFound)
    case Success(ticket) =>
      if p.IsAkimat() then Success(TripRepository.ListByTicketID(w.trips, ticket.id))
      else if p.IsKgu() then
        if ticket.createdByOrgId != p.orgId then Failure(PermissionDenied)
        else Success(TripRepository.ListByTicketID(w.trips, ticket.id))
      else if p.IsContractor() then
        if ticket.contractorId != p.orgId then Failure(PermissionDenied)
        else Success(TripRepository.ListByTicketID(w.trips, ticket.id))
      else if p.IsDriver() then
        if p.driverId.None? then Failure(PermissionDenied)
        else if !AR.HasActiveAssignment(w.assignments, ticket.id, p.driverId.value) then Failure(PermissionDenied)
        else Success(TripRepository.ListByDriverID(w.trips, p.driverId.value, Some(ticket.id)))
      else Failure(PermissionDenied)
  }

  /** GetByID: a stored trip. A trip of a ticket is shown to the callers that may see the ticket,
      except that a driver must be the trip's own driver; a trip without a ticket is shown to
      every caller. */
  function GetByID(w: World, p: Principal, id: Id): (r: Result<Trip>)
    ensures TripRepository.GetByID(w.trips, id).Failure? ==> r == Failure(NotFound)
    ensures r.Success? ==> r == TripRepository.GetByID(w.trips, id)
    ensures TripRepository.GetByID(w.trips, id).Success? && TripRepository.GetByID(w.trips, id).value.ticketId.None? ==>
      r == TripRepository.GetByID(w.trips, id)
    ensures r.Success? && r.value.ticketId.Some? ==>
      var ticket := TR.GetByID(w.tickets, r.value.ticketId.value);
      && ticket.Success?
      && (p.IsAkimat() || p.IsKgu() || p.IsContractor() || p.IsDriver())
      && (p.IsKgu() ==> ticket.value.createdByOrgId == p.orgId)
      && (p.IsContractor() ==> ticket.value.contractorId == p.orgId)
      && (p.IsDriver() ==> p.driverId.Some? && r.value.driverId == p.driverId)
  {
    match TripRepository.GetByID(w.trips, id)
    case Failure(_) => Failure(NotFound)
    case Success(trip) =>
      if trip.ticketId.None? then Success(trip)
      else match TR.GetByID(w.tickets, trip.ticketId.value)
        case Failure(e) => Failure(e)
        case Success(ticket) =>
          if p.IsAkimat() then Success(trip)
          else if p.IsKgu() then (if ticket.createdByOrgId != p.orgId then Failure(PermissionDenied) else Success(trip))
          else if p.IsContractor() then (if ticket.contractorId != p.orgId then Failure(PermissionDenied) else Success(trip))
          else if p.IsDriver() then
            (if p.driverId.None? || trip.driverId.None? || trip.driverId.value != p.driverId.value then Failure(PermissionDenied)
             else Success(trip))
          else Failure(PermissionDenied)
  }

  /** The landfill's reception journal with its totals. */
  datatype Journal = Journal(trips: seq<TripRepository.JournalEntry>, totalVolume: real, totalTrips: nat)

  function NetVolume(e: TripRepository.JournalEntry): real { e.netVolume }

  function EntryVolume(e: TripRepository.JournalEntry): real { TripRepository.OrZero(e.volumeEntry) }

  function ExitVolume(e: TripRepository.JournalEntry): real { TripRepository.OrZero(e.volumeExit) }

  /** GetReceptionJournal: for the landfill only, the journal entries and their totals: the number
      of entries and the sum of their net volumes. */
  function ReceptionJournal(w: World, p: Principal, f: TripRepository.JournalFilter): (r: Result<Journal>)
    ensures r.Success? <==> p.IsLandfill()
    ensures r.Failure? ==> r.error == PermissionDenied
    ensures r.Success? ==>
      && r.value.trips == TripRepository.ListReceptionJournal(w.trips, w.tickets, f)
      && r.value.totalTrips == |r.value.trips|
      && r.value.totalVolume == SumBy(r.value.trips, EntryVolume) - SumBy(r.value.trips, ExitVolume)
  {
    if !p.IsLandfill() then Failure(PermissionDenied)
    else
      var entries := TripRepository.ListReceptionJournal(w.trips, w.tickets, f);
      JournalTotalSplits(entries);
      Success(Journal(entries, SumBy(entries, NetVolume), |entries|))
  }

  /** The total net volume is everything that entered minus everything that left. */
  lemma JournalTotalSplits(entries: seq<TripRepository.JournalEntry>)
    requires forall i :: 0 <= i < |entries| ==> entries[i].netVolume == TripRepository.OrZero(entries[i].volumeEntry) - TripRepository.OrZero(entries[i].volumeExit)
    ensures SumBy(entries, NetVolume) == SumBy(entries, EntryVolume) - SumBy(entries, ExitVolume)
  {
    var h := (e: TripRepository.JournalEntry) =>
      if e in entries then NetVolume(e) else EntryVolume(e) - ExitVolume(e);
    SumByDifference(entries, EntryVolume, ExitVolume, h);
    SumBySame(entries, h, NetVolume);
  }

  lemma {:induction false} SumBySame(entries: seq<TripRepository.JournalEntry>, f: TripRepository.JournalEntry -> real, g: TripRepository.JournalEntry -> real)
    requires forall i :: 0 <= i < |entries| ==> f(entries[i]) == g(entries[i])
    ensures SumBy(entries, f) == SumBy(entries, g)
  {
    if entries != [] {
      SumBySame(entries[..|entries| - 1], f, g);
    }
  }
}
