/** Entities, enumerations, principals and error values of the ticket service
    (the records of internal/model and the error sentinels of the services). */
module Domain {

  datatype Option<+T> = None | Some(value: T)

  /** Identifiers are UUIDs in the service; instants are time.Time values. */
  type Id = nat
  type Time = int

  /** A text field that the service parses (uuid.Parse, or time.Parse with RFC 3339):
      either it parses to a value or it is rejected. The parsers themselves are library code. */
  datatype Raw<+T> = Well(value: T) | Malformed

  /** Errors a call can end with: the four service sentinels, gorm's record-not-found as
      the repositories return it, and the formatted errors of the trip service and the ANPR client. */
  datatype Error =
    | NotFound
    | PermissionDenied
    | InvalidInput
    | Conflict
    | RecordNotFound
    | Failed(reason: string)

  /** The result of an operation that returns only an error. */
  datatype Outcome = Done | Fail(error: Error)

  /** The result of an operation that returns a value or an error. */
  datatype Result<+T> = Success(value: T) | Failure(error: Error)

  datatype Role = Akimat | KguZkh | Contractor | Driver | Landfill | OtherRole

  /** The authenticated caller: user, organisation, role and, for drivers, the driver record. */
  datatype Principal = Principal(userId: Id, orgId: Id, role: Role, driverId: Option<Id>)
  {
    predicate IsAkimat() { role == Akimat }
    predicate IsKgu() { role == KguZkh }
    predicate IsContractor() { role == Contractor }
    predicate IsDriver() { role == Driver }
    predicate IsLandfill() { role == Landfill }
  }

  datatype TicketStatus = Planned | InProgress | Completed | Closed | Cancelled

  datatype Ticket = Ticket(
    id: Id,
    cleaningAreaId: Id,
    contractorId: Id,
    contractId: Id,
    createdByOrgId: Id,
    status: TicketStatus,
    plannedStartAt: Time,
    plannedEndAt: Time,
    factStartAt: Option<Time>,
    factEndAt: Option<Time>,
    description: string,
    createdAt: Time)

  datatype DriverMarkStatus = MarkNotStarted | MarkInWork | MarkCompleted

  /** A driver and a vehicle bound to a ticket (a row of ticket_assignments). */
  datatype Assignment = Assignment(
    id: Id,
    ticketId: Id,
    driverId: Id,
    vehicleId: Id,
    markStatus: DriverMarkStatus,
    assignedAt: Time,
    unassignedAt: Option<Time>,
    isActive: bool,
    tripStartedAt: Option<Time>,
    tripFinishedAt: Option<Time>)

  datatype TripStatus =
    | Ok
    | RouteViolation
    | ForeignArea
    | MismatchPlate
    | OverCapacity
    | NoAreaWork
    | NoAssignment
    | SuspiciousVolume
    | NoExitCamera
    | OverContractLimit

  /** The text of a trip status as it is stored and copied into an appeal's reason. */
  function TripStatusName(s: TripStatus): (name: string)
    ensures name != ""
    ensures name == "OK" <==> s == Ok
  {
    match s
    case Ok => "OK"
    case RouteViolation => "ROUTE_VIOLATION"
    case ForeignArea => "FOREIGN_AREA"
    case MismatchPlate => "MISMATCH_PLATE"
    case OverCapacity => "OVER_CAPACITY"
    case NoAreaWork => "NO_AREA_WORK"
    case NoAssignment => "NO_ASSIGNMENT"
    case SuspiciousVolume => "SUSPICIOUS_VOLUME"
    case NoExitCamera => "NO_EXIT_CAMERA"
    case OverContractLimit => "OVER_CONTRACT_LIMIT"
  }

  /** One vehicle pass (a row of trips). Volumes are cubic metres. */
  datatype Trip = Trip(
    id: Id,
    ticketId: Option<Id>,
    assignmentId: Option<Id>,
    driverId: Option<Id>,
    vehicleId: Option<Id>,
    cameraId: Option<Id>,
    polygonId: Option<Id>,
    vehiclePlate: string,
    detectedPlate: string,
    entryLprEventId: Option<Id>,
    exitLprEventId: Option<Id>,
    entryVolumeEventId: Option<Id>,
    exitVolumeEventId: Option<Id>,
    volumeEntry: Option<real>,
    volumeExit: Option<real>,
    entryAt: Time,
    exitAt: Option<Time>,
    status: TripStatus,
    totalVolume: Option<real>,
    autoCreated: bool)

  datatype AppealStatus = Submitted | UnderReview | NeedInfo | Approved | Rejected | AppealClosed

  datatype AppealReasonType = CameraError | Transit | OtherAssignment | OtherReason

  datatype Appeal = Appeal(
    id: Id,
    tripId: Option<Id>,
    ticketId: Option<Id>,
    createdByUserId: Id,
    status: AppealStatus,
    reason: string,
    reasonType: Option<AppealReasonType>,
    comment: string,
    adminResponse: Option<string>,
    createdAt: Time)

  datatype AppealComment = AppealComment(
    id: Id,
    appealId: Id,
    createdByUserId: Id,
    content: string,
    createdAt: Time)

  /** The columns of a vehicle the core reads. */
  datatype Vehicle = Vehicle(id: Id, plateNumber: string, defaultPolygonId: Option<Id>)

  datatype CleaningArea = CleaningArea(
    id: Id,
    defaultPolygon: Id,
    entryLat: Option<real>,
    entryLong: Option<real>)

  datatype Polygon = Polygon(id: Id, centroidLat: Option<real>, centroidLong: Option<real>)

  datatype VehiclePosition = VehiclePosition(
    vehicleId: Id,
    latitude: real,
    longitude: real,
    recordedAt: Time,
    insideCleaningArea: bool,
    insidePolygon: bool)
}
