/** NavigationService (internal/service/navigation_service.go): the hint a driver's app shows on
    the way to work. From the driver's active assignment, the ticket's cleaning area, the vehicle
    and its last reported position, the service picks a mode and a vehicle state, the points to
    head for, and one route per point. Distances are great-circle distances, which the model
    takes as a given function of the two points. */
module Navigation {
  import opened Domain
  import opened Tables
  import opened Store
  import TR = TicketRepository
  import AR = AssignmentRepository

  datatype RoutePoint = RoutePoint(latitude: real, longitude: real)

  datatype RouteOption = RouteOption(name: string, distanceMeters: real, durationSeconds: int, points: seq<RoutePoint>)

  /** TO_CLEANING_AREA, TO_POLYGON, ON_POLYGON. */
  datatype Mode = ToCleaningArea | ToPolygon | OnPolygon

  /** OUTSIDE, INSIDE_AREA, INSIDE_POLYGON. */
  datatype VehicleState = Outside | InsideArea | InsidePolygon

  datatype NavigationHint = NavigationHint(mode: Mode, vehicleState: VehicleState, primary: RouteOption, alternatives: seq<RouteOption>)

  /** The distance in metres between two points (haversine in the service). */
  type Distance = (RoutePoint, RoutePoint) -> real

  function AreaKey(a: CleaningArea): Id { a.id }

  function PolygonKey(p: Polygon): Id { p.id }

  function RecordedAt(p: VehiclePosition): int { p.recordedAt }

  /** The row condition `vehicle_id = ?` on positions. */
  function OfVehicle(vehicleId: Id): VehiclePosition -> bool
  {
    (p: VehiclePosition) => p.vehicleId == vehicleId
  }

  /** GetLastByVehicleID: the vehicle's latest reported position, if it reported any. */
  function LastPosition(positions: seq<VehiclePosition>, vehicleId: Id): (r: Option<VehiclePosition>)
    ensures r.Some? ==> r.value in positions && r.value.vehicleId == vehicleId
    ensures r.Some? ==> forall q :: q in positions && q.vehicleId == vehicleId ==> q.recordedAt <= r.value.recordedAt
    ensures r.None? <==> forall q :: q in positions ==> q.vehicleId != vehicleId
  {
    MaxBy(positions, OfVehicle(vehicleId), RecordedAt)
  }

  /** The conversion of a float to a 64-bit integer, which drops the fraction toward zero. */
  function Truncate(x: real): (r: int)
    ensures 0.0 <= x ==> 0 <= r && r as real <= x < r as real + 1.0
    ensures x < 0.0 ==> r <= 0 && r as real - 1.0 < x <= r as real
  {
    if 0.0 <= x then x.Floor else -((-x).Floor)
  }

  /** The mode: on the polygon, heading for it from inside the area, or heading for the area. */
  function ModeOf(pos: VehiclePosition): (m: Mode)
    ensures m == OnPolygon <==> pos.insidePolygon
    ensures m == ToPolygon <==> pos.insideCleaningArea && !pos.insidePolygon
    ensures m == ToCleaningArea <==> !pos.insideCleaningArea && !pos.insidePolygon
  {
    if pos.insidePolygon then OnPolygon
    else if pos.insideCleaningArea then ToPolygon
    else ToCleaningArea
  }

  /** The vehicle's state, from the same two flags. */
  function StateOf(pos: VehiclePosition): (s: VehicleState)
    ensures s == InsidePolygon <==> pos.insidePolygon
    ensures s == InsideArea <==> pos.insideCleaningArea && !pos.insidePolygon
    ensures s == Outside <==> !pos.insideCleaningArea && !pos.insidePolygon
  {
    if pos.insidePolygon then InsidePolygon
    else if pos.insideCleaningArea then InsideArea
    else Outside
  }

  /** Mode and state always tell the same story: the polygon flag wins over the area flag. */
  lemma ModeMatchesState(pos: VehiclePosition)
    ensures ModeOf(pos) == OnPolygon <==> StateOf(pos) == InsidePolygon
    ensures ModeOf(pos) == ToPolygon <==> StateOf(pos) == InsideArea
    ensures ModeOf(pos) == ToCleaningArea <==> StateOf(pos) == Outside
  {
  }

  /** The goal polygon: the area's default polygon when the area is known, else the vehicle's. */
  function GoalPolygonId(vehicle: Vehicle, area: Option<CleaningArea>): (r: Option<Id>)
    ensures area.Some? ==> r == Some(area.value.defaultPolygon)
    ensures area.None? ==> r == vehicle.defaultPolygonId
  {
    if area.Some? then Some(area.value.defaultPolygon) else vehicle.defaultPolygonId
  }

  function Here(pos: VehiclePosition): RoutePoint
  {
    RoutePoint(pos.latitude, pos.longitude)
  }

  predicate HasEntry(area: Option<CleaningArea>)
  {
    area.Some? && area.value.entryLat.Some? && area.value.entryLong.Some?
  }

  function Entry(area: Option<CleaningArea>): RoutePoint
    requires HasEntry(area)
  {
    RoutePoint(area.value.entryLat.value, area.value.entryLong.value)
  }

  predicate HasCentroid(polygon: Option<Polygon>)
  {
    polygon.Some? && polygon.value.centroidLat.Some? && polygon.value.centroidLong.Some?
  }

  function Centroid(polygon: Option<Polygon>): RoutePoint
    requires HasCentroid(polygon)
  {
    RoutePoint(polygon.value.centroidLat.value, polygon.value.centroidLong.value)
  }

  /** buildTargetPoints: the area's entry, then the polygon's centroid, each when fully known; the
      vehicle's own position when neither is; nothing without a position. */
  function TargetPoints(pos: Option<VehiclePosition>, area: Option<CleaningArea>, polygon: Option<Polygon>): (r: seq<RoutePoint>)
    ensures pos.None? ==> r == []
    ensures pos.Some? ==> 1 <= |r| <= 2
    ensures pos.Some? ==> (|r| == 2 <==> HasEntry(area) && HasCentroid(polygon))
    ensures pos.Some? && HasEntry(area) ==> r[0] == Entry(area)
    ensures pos.Some? && HasCentroid(polygon) ==> r[|r| - 1] == Centroid(polygon)
    ensures pos.Some? && !HasEntry(area) && !HasCentroid(polygon) ==> r == [Here(pos.value)]
  {
    if pos.None? then []
    else
      var entry := if HasEntry(area) then [Entry(area)] else [];
      var centroid := if HasCentroid(polygon) then [Centroid(polygon)] else [];
      if entry + centroid == [] then [Here(pos.value)] else entry + centroid
  }

  /** The route to the target at position `i` of the list: straight from the vehicle, labelled
      "Primary" when first, with the duration the service derives from the distance. */
  function RouteTo(pos: VehiclePosition, i: nat, target: RoutePoint, dist: Distance): RouteOption
  {
    var d := dist(Here(pos), target);
    RouteOption(if i == 0 then "Primary" else "Route", d, Truncate(d / 8.0 * 3.6), [Here(pos), target])
  }

  /** The route offered when there is nowhere to go. */
  function Stay(pos: VehiclePosition): RouteOption
  {
    RouteOption("Stay", 0.0, 0, [Here(pos)])
  }

  /** buildRoutes: one route per target, in order, the first labelled "Primary" and the others
      "Route"; a single zero-length "Stay" route when there are no targets. */
  function Routes(pos: VehiclePosition, targets: seq<RoutePoint>, dist: Distance): (r: seq<RouteOption>)
    ensures targets == [] ==> r == [Stay(pos)] && r[0].name == "Stay" && r[0].distanceMeters == 0.0
    ensures targets != [] ==> |r| == |targets|
    ensures targets != [] ==> forall i :: 0 <= i < |r| ==>
      && r[i].points == [Here(pos), targets[i]]
      && (r[i].name == "Primary" <==> i == 0)
      && (r[i].name == "Route" <==> i > 0)
      && r[i].distanceMeters == dist(Here(pos), targets[i])
    ensures |r| >= 1
  {
    if targets == [] then [Stay(pos)]
    else seq(|targets|, i requires 0 <= i < |targets| => RouteTo(pos, i, targets[i], dist))
  }

  /** The hint from a position and its targets: the first route is primary, the others are the
      alternatives. */
  function Hint(pos: VehiclePosition, targets: seq<RoutePoint>, dist: Distance): (h: NavigationHint)
    ensures var routes := Routes(pos, targets, dist);
      h.primary == routes[0] && [h.primary] + h.alternatives == routes
    ensures h.mode == ModeOf(pos) && h.vehicleState == StateOf(pos)
    ensures targets != [] ==>
      && h.primary.name == "Primary" && h.primary.points == [Here(pos), targets[0]]
      && |h.alternatives| == |targets| - 1
      && forall k :: 0 <= k < |h.alternatives| ==>
           h.alternatives[k].name == "Route" && h.alternatives[k].points == [Here(pos), targets[k + 1]]
  {
    var routes := Routes(pos, targets, dist);
    NavigationHint(ModeOf(pos), StateOf(pos), routes[0], if |routes| > 1 then routes[1..] else [])
  }

  /** The caller's active assignment, for a driver with a driver record. */
  function ActiveAssignment(w: World, p: Principal): (r: Option<Assignment>)
    ensures r.Some? ==> p.IsDriver() && p.driverId.Some? && r.value in w.assignments
    ensures r.Some? ==> r.value.isActive && r.value.driverId == p.driverId.value
    ensures !p.IsDriver() || p.driverId.None? ==> r.None?
    ensures p.IsDriver() && p.driverId.Some? ==> r == AR.FindActiveByDriver(w.assignments, p.driverId.value)
  {
    if !p.IsDriver() || p.driverId.None? then None else AR.FindActiveByDriver(w.assignments, p.driverId.value)
  }

  /** The ticket the hint is for: the requested one when it parses, else the assignment's. */
  function TargetTicket(a: Assignment, ticketId: Option<Raw<Id>>): (r: Id)
    ensures ticketId.Some? && ticketId.value.Well? ==> r == ticketId.value.value
    ensures ticketId.None? || ticketId.value.Malformed? ==> r == a.ticketId
  {
    if ticketId.Some? && ticketId.value.Well? then ticketId.value.value else a.ticketId
  }

  /** BuildDriverHint: the hint for the driver's active assignment. `None` stands for an absent or
      empty ticket parameter. */
  function BuildDriverHint(w: World, p: Principal, ticketId: Option<Raw<Id>>, dist: Distance): (r: Result<NavigationHint>)
    ensures !p.IsDriver() || p.driverId.None? ==> r == Failure(PermissionDenied)
    ensures p.IsDriver() && p.driverId.Some? && ActiveAssignment(w, p).None? ==> r == Failure(NotFound)
    ensures r.Success? ==>
      && ActiveAssignment(w, p).Some?
      && TR.GetByID(w.tickets, TargetTicket(ActiveAssignment(w, p).value, ticketId)).Success?
      && Find(w.vehicles, AR.VehicleKey, ActiveAssignment(w, p).value.vehicleId).Some?
      && LastPosition(w.positions, ActiveAssignment(w, p).value.vehicleId).Some?
    ensures r.Success? ==>
      var pos := LastPosition(w.positions, ActiveAssignment(w, p).value.vehicleId).value;
      && r.value.mode == ModeOf(pos) && r.value.vehicleState == StateOf(pos)
      && r.value.primary.name == "Primary"
      && |r.value.primary.points| == 2 && r.value.primary.points[0] == Here(pos)
      && |r.value.alternatives| <= 1
      && (forall alt :: alt in r.value.alternatives ==> alt.name == "Route" && |alt.points| == 2 && alt.points[0] == Here(pos))
    ensures r.Failure? ==> r.error in {PermissionDenied, NotFound, RecordNotFound,
                                       Failed("vehicle not found"), Failed("vehicle position unavailable")}
    ensures ActiveAssignment(w, p).Some? ==>
      var a := ActiveAssignment(w, p).value;
      var found := TR.GetByID(w.tickets, TargetTicket(a, ticketId));
      && (found.Failure? ==> r == Failure(found.error))
      && (found.Success? && Find(w.vehicles, AR.VehicleKey, a.vehicleId).None? ==>
            r == Failure(Failed("vehicle not found")))
      && ((found.Success? && Find(w.vehicles, AR.VehicleKey, a.vehicleId).Some? &&
           LastPosition(w.positions, a.vehicleId).None?) ==>
            r == Failure(Failed("vehicle position unavailable")))
    ensures ActiveAssignment(w, p).Some? ==>
      var a := ActiveAssignment(w, p).value;
      var found := TR.GetByID(w.tickets, TargetTicket(a, ticketId));
      var vehicle := Find(w.vehicles, AR.VehicleKey, a.vehicleId);
      var pos := LastPosition(w.positions, a.vehicleId);
      found.Success? && vehicle.Some? && pos.Some? ==>
        var area := Find(w.areas, AreaKey, found.value.cleaningAreaId);
        var goal := GoalPolygonId(vehicle.value, area);
        var polygon := if goal.Some? then Find(w.polygons, PolygonKey, goal.value) else None;
        r == Success(Hint(pos.value, TargetPoints(Some(pos.value), area, polygon), dist))
  {
    match ActiveAssignment(w, p)
    case None => if !p.IsDriver() || p.driverId.None? then Failure(PermissionDenied) else Failure(NotFound)
    case Some(a) =>
      match TR.GetByID(w.tickets, TargetTicket(a, ticketId))
      case Failure(e) => Failure(e)
      case Success(ticket) =>
        var area := Find(w.areas, AreaKey, ticket.cleaningAreaId);
        match Find(w.vehicles, AR.VehicleKey, a.vehicleId)
        case None => Failure(Failed("vehicle not found"))
        case Some(vehicle) =>
          match LastPosition(w.positions, vehicle.id)
          case None => Failure(Failed("vehicle position unavailable"))
          case Some(pos) =>
            var goal := GoalPolygonId(vehicle, area);
            var polygon := if goal.Some? then Find(w.polygons, PolygonKey, goal.value) else None;
            Success(Hint(pos, TargetPoints(Some(pos), area, polygon), dist))
  }

  /** The primary route leads to the cleaning area's entry when the area has one, else to the goal
      polygon's centroid when that is known, else nowhere but where the vehicle stands. */
  lemma PrimaryTarget(pos: VehiclePosition, area: Option<CleaningArea>, polygon: Option<Polygon>, dist: Distance)
    ensures var h := Hint(pos, TargetPoints(Some(pos), area, polygon), dist);
      && (HasEntry(area) ==> h.primary.points == [Here(pos), Entry(area)])
      && (!HasEntry(area) && HasCentroid(polygon) ==> h.primary.points == [Here(pos), Centroid(polygon)])
      && (!HasEntry(area) && !HasCentroid(polygon) ==> h.primary.points == [Here(pos), Here(pos)])
      && (|h.alternatives| == 1 <==> HasEntry(area) && HasCentroid(polygon))
  {
    var targets := TargetPoints(Some(pos), area, polygon);
    var routes := Routes(pos, targets, dist);
    assert routes[0].points == [Here(pos), targets[0]];
    assert |routes| == |targets|;
  }

  /** A driver's hint heads for the entry of the target ticket's cleaning area whenever that area
      records one, wherever the vehicle stands. */
  lemma HintHeadsForAreaEntry(w: World, p: Principal, ticketId: Option<Raw<Id>>, dist: Distance)
    requires BuildDriverHint(w, p, ticketId, dist).Success?
    ensures var a := ActiveAssignment(w, p).value;
      var area := Find(w.areas, AreaKey, TR.GetByID(w.tickets, TargetTicket(a, ticketId)).value.cleaningAreaId);
      HasEntry(area) ==> BuildDriverHint(w, p, ticketId, dist).value.primary.points == [Here(LastPosition(w.positions, a.vehicleId).value), Entry(area)]
  {
    var a := ActiveAssignment(w, p).value;
    var ticket := TR.GetByID(w.tickets, TargetTicket(a, ticketId)).value;
    var area := Find(w.areas, AreaKey, ticket.cleaningAreaId);
    var vehicle := Find(w.vehicles, AR.VehicleKey, a.vehicleId).value;
    var pos := LastPosition(w.positions, a.vehicleId).value;
    var goal := GoalPolygonId(vehicle, area);
    var polygon := if goal.Some? then Find(w.polygons, PolygonKey, goal.value) else None;
    PrimaryTarget(pos, area, polygon, dist);
  }

  /** A ticket id that does not parse is ignored: the hint is the one for no ticket id at all. */
  lemma MalformedTicketIgnored(w: World, p: Principal, dist: Distance)
    ensures BuildDriverHint(w, p, Some(Malformed), dist) == BuildDriverHint(w, p, None, dist)
  {
  }

  /** buildTargetPoints, appending to the list as the service does. */
  method BuildTargetPoints(pos: Option<VehiclePosition>, area: Option<CleaningArea>, polygon: Option<Polygon>)
    returns (points: seq<RoutePoint>)
    ensures points == TargetPoints(pos, area, polygon)
  {
    points := [];
    if pos.None? {
      return;
    }
    if HasEntry(area) {
      points := points + [RoutePoint(area.value.entryLat.value, area.value.entryLong.value)];
    }
    if HasCentroid(polygon) {
      points := points + [RoutePoint(polygon.value.centroidLat.value, polygon.value.centroidLong.value)];
    }
    if |points| == 0 {
      points := points + [RoutePoint(pos.value.latitude, pos.value.longitude)];
    }
  }

  /** buildRoutes: the loop appending one route per target. */
  method BuildRoutes(pos: VehiclePosition, targets: seq<RoutePoint>, dist: Distance) returns (routes: seq<RouteOption>)
    ensures routes == Routes(pos, targets, dist)
  {
    if |targets| == 0 {
      return [RouteOption("Stay", 0.0, 0, [RoutePoint(pos.latitude, pos.longitude)])];
    }
    routes := [];
    var i := 0;
    while i < |targets|
      invariant i <= |targets| && |routes| == i
      invariant forall j :: 0 <= j < i ==> routes[j] == RouteTo(pos, j, targets[j], dist)
    {
      var target := targets[i];
      var distance := dist(RoutePoint(pos.latitude, pos.longitude), target);
      var duration := Truncate(distance / 8.0 * 3.6);
      var name := "Route";
      if i == 0 {
        name := "Primary";
      }
      routes := routes + [RouteOption(name, distance, duration, [RoutePoint(pos.latitude, pos.longitude), target])];
      i := i + 1;
    }
  }

  /** BuildDriverHint over the database object: the lookups in the service's order, the mode and
      state, the targets and the routes composed as the service does. */
  method BuildDriverHintFrom(db: Db, p: Principal, ticketId: Option<Raw<Id>>, dist: Distance) returns (r: Result<NavigationHint>)
    ensures r == BuildDriverHint(db.Snapshot(), p, ticketId, dist)
  {
    if !p.IsDriver() || p.driverId.None? {
      return Failure(PermissionDenied);
    }
    var assignment := AR.FindActiveByDriver(db.assignments, p.driverId.value);
    if assignment.None? {
      return Failure(NotFound);
    }
    var targetTicketId := assignment.value.ticketId;
    if ticketId.Some? && ticketId.value.Well? {
      targetTicketId := ticketId.value.value;
    }
    var ticket := TR.GetByID(db.tickets, targetTicketId);
    if ticket.Failure? {
      return Failure(ticket.error);
    }
    var targetArea := Find(db.areas, AreaKey, ticket.value.cleaningAreaId);
    var vehicle := Find(db.vehicles, AR.VehicleKey, assignment.value.vehicleId);
    if vehicle.None? {
      return Failure(Failed("vehicle not found"));
    }
    var position := LastPosition(db.positions, vehicle.value.id);
    if position.None? {
      return Failure(Failed("vehicle position unavailable"));
    }
    var pos := position.value;

    var goalPolygonId := vehicle.value.defaultPolygonId;
    if targetArea.Some? {
      goalPolygonId := Some(targetArea.value.defaultPolygon);
    }
    var goalPolygon: Option<Polygon> := None;
    if goalPolygonId.Some? {
      goalPolygon := Find(db.polygons, PolygonKey, goalPolygonId.value);
    }

    var hint := ComposeHint(pos, targetArea, goalPolygon, dist);
    return Success(hint);
  }

  /** The end of BuildDriverHint: mode and state by successive reassignments, then the targets and
      the routes, the first of which is the primary one. */
  method ComposeHint(pos: VehiclePosition, targetArea: Option<CleaningArea>, goalPolygon: Option<Polygon>, dist: Distance)
    returns (hint: NavigationHint)
    ensures hint == Hint(pos, TargetPoints(Some(pos), targetArea, goalPolygon), dist)
  {
    var mode := ToCleaningArea;
    if pos.insideCleaningArea {
      mode := ToPolygon;
    }
    if pos.insidePolygon {
      mode := OnPolygon;
    }
    var state := Outside;
    if pos.insideCleaningArea {
      state := InsideArea;
    }
    if pos.insidePolygon {
      state := InsidePolygon;
    }

    var targetPoints := BuildTargetPoints(Some(pos), targetArea, goalPolygon);
    var routes := BuildRoutes(pos, targetPoints, dist);
    var alternatives: seq<RouteOption> := [];
    if |routes| > 1 {
      alternatives := routes[1..];
    }
    hint := NavigationHint(mode, state, routes[0], alternatives);
  }
}
