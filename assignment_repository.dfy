/** The ticket_assignments table (internal/repository/assignment_repository.go): lookups, the
    driver-mark and soft-delete updates, and the active-assignment queries. Updates are pure
    functions from the old rows to the new rows; the store applies them. */
module AssignmentRepository {
  import opened Domain
  import opened Tables

  function AssignmentKey(a: Assignment): Id { a.id }

  function AssignedAt(a: Assignment): int { a.assignedAt }

  function VehicleKey(v: Vehicle): Id { v.id }

  /** The row condition `ticket_id = ? AND is_active = true`. */
  function ActiveOnTicket(ticketId: Id): Assignment -> bool
  {
    (a: Assignment) => a.isActive && a.ticketId == ticketId
  }

  /** The row condition `driver_id = ? AND is_active = true`. */
  function ActiveForDriver(driverId: Id): Assignment -> bool
  {
    (a: Assignment) => a.isActive && a.driverId == driverId
  }

  /** The row condition `vehicle_id = ? AND is_active = true`. */
  function ActiveForVehicle(vehicleId: Id): Assignment -> bool
  {
    (a: Assignment) => a.isActive && a.vehicleId == vehicleId
  }

  /** The row condition `ticket_id = ? AND driver_id = ? AND is_active = true`. */
  function ActiveBinding(ticketId: Id, driverId: Id): Assignment -> bool
  {
    (a: Assignment) => a.isActive && a.ticketId == ticketId && a.driverId == driverId
  }

  /** GetByID: the row with that id, or record-not-found. */
  function GetByID(rows: seq<Assignment>, id: Id): (r: Result<Assignment>)
    ensures r.Success? ==> r.value in rows && r.value.id == id
    ensures r.Failure? <==> forall i :: 0 <= i < |rows| ==> rows[i].id != id
    ensures r.Failure? ==> r.error == RecordNotFound
  {
    match Find(rows, AssignmentKey, id)
    case None => Failure(RecordNotFound)
    case Some(a) => Success(a)
  }

  /** The result of GetByID after the row with that id was rewritten by a key-preserving `f`. */
  function Rewritten(r: Result<Assignment>, f: Assignment -> Assignment): Result<Assignment>
  {
    match r
    case Success(a) => Success(f(a))
    case Failure(e) => Failure(e)
  }

  /** The row as the soft delete leaves it. */
  function SoftDeleted(a: Assignment, now: Time): Assignment
  {
    a.(isActive := false, unassignedAt := Some(now))
  }

  /** Delete: a soft delete. The row stays in the table, inactive and stamped with the time it
      was unassigned; every other row is untouched. */
  function Delete(rows: seq<Assignment>, id: Id, now: Time): (r: seq<Assignment>)
    ensures |r| == |rows|
    ensures forall i :: 0 <= i < |rows| && rows[i].id != id ==> r[i] == rows[i]
    ensures forall i :: 0 <= i < |rows| && rows[i].id == id ==> r[i] == SoftDeleted(rows[i], now)
    ensures forall i :: 0 <= i < |r| && r[i].id == id ==> !r[i].isActive && r[i].unassignedAt == Some(now)
    ensures GetByID(r, id) == Rewritten(GetByID(rows, id), (a: Assignment) => SoftDeleted(a, now))
  {
    var f := (a: Assignment) => SoftDeleted(a, now);
    FindAfterUpdate(rows, AssignmentKey, id, f);
    UpdateWhere(rows, AssignmentKey, id, f)
  }

  /** UpdateDriverMarkStatus: only the driver mark of the row changes. */
  function UpdateDriverMarkStatus(rows: seq<Assignment>, id: Id, status: DriverMarkStatus): (r: seq<Assignment>)
    ensures |r| == |rows|
    ensures forall i :: 0 <= i < |rows| && rows[i].id != id ==> r[i] == rows[i]
    ensures forall i :: 0 <= i < |rows| && rows[i].id == id ==> r[i] == rows[i].(markStatus := status)
    ensures GetByID(r, id) == Rewritten(GetByID(rows, id), (a: Assignment) => a.(markStatus := status))
  {
    var f := (a: Assignment) => a.(markStatus := status);
    FindAfterUpdate(rows, AssignmentKey, id, f);
    UpdateWhere(rows, AssignmentKey, id, f)
  }

  /** UpdateTripStartedAt: only the start stamp and the driver mark of the row change. */
  function UpdateTripStartedAt(rows: seq<Assignment>, id: Id, startedAt: Time, status: DriverMarkStatus): (r: seq<Assignment>)
    ensures |r| == |rows|
    ensures forall i :: 0 <= i < |rows| && rows[i].id != id ==> r[i] == rows[i]
    ensures forall i :: 0 <= i < |rows| && rows[i].id == id ==>
      r[i] == rows[i].(tripStartedAt := Some(startedAt), markStatus := status)
    ensures GetByID(r, id) ==
      Rewritten(GetByID(rows, id), (a: Assignment) => a.(tripStartedAt := Some(startedAt), markStatus := status))
  {
    var f := (a: Assignment) => a.(tripStartedAt := Some(startedAt), markStatus := status);
    FindAfterUpdate(rows, AssignmentKey, id, f);
    UpdateWhere(rows, AssignmentKey, id, f)
  }

  /** UpdateTripFinishedAt: only the finish stamp and the driver mark of the row change. */
  function UpdateTripFinishedAt(rows: seq<Assignment>, id: Id, finishedAt: Time, status: DriverMarkStatus): (r: seq<Assignment>)
    ensures |r| == |rows|
    ensures forall i :: 0 <= i < |rows| && rows[i].id != id ==> r[i] == rows[i]
    ensures forall i :: 0 <= i < |rows| && rows[i].id == id ==>
      r[i] == rows[i].(tripFinishedAt := Some(finishedAt), markStatus := status)
    ensures GetByID(r, id) ==
      Rewritten(GetByID(rows, id), (a: Assignment) => a.(tripFinishedAt := Some(finishedAt), markStatus := status))
  {
    var f := (a: Assignment) => a.(tripFinishedAt := Some(finishedAt), markStatus := status);
    FindAfterUpdate(rows, AssignmentKey, id, f);
    UpdateWhere(rows, AssignmentKey, id, f)
  }

  /** HasActiveAssignment: whether an active row binds that driver to that ticket. */
  function HasActiveAssignment(rows: seq<Assignment>, ticketId: Id, driverId: Id): (b: bool)
    ensures b <==> exists i :: 0 <= i < |rows| && rows[i].isActive && rows[i].ticketId == ticketId && rows[i].driverId == driverId
  {
    var n := Count(rows, ActiveBinding(ticketId, driverId));
    assert n > 0 ==> exists i :: 0 <= i < |rows| && rows[i].isActive && rows[i].ticketId == ticketId && rows[i].driverId == driverId by {
      if n > 0 {
        var a :| a in rows && a.isActive && a.ticketId == ticketId && a.driverId == driverId;
        var i :| 0 <= i < |rows| && rows[i] == a;
      }
    }
    assert (exists i :: 0 <= i < |rows| && rows[i].isActive && rows[i].ticketId == ticketId && rows[i].driverId == driverId) ==> n > 0 by {
      if exists i :: 0 <= i < |rows| && rows[i].isActive && rows[i].ticketId == ticketId && rows[i].driverId == driverId {
        var i :| 0 <= i < |rows| && rows[i].isActive && rows[i].ticketId == ticketId && rows[i].driverId == driverId;
        assert rows[i] in rows;
      }
    }
    n > 0
  }

  /** FindActiveByDriver: the driver's active assignment with the latest assigned_at; none (and no
      error) when the driver has no active assignment. */
  function FindActiveByDriver(rows: seq<Assignment>, driverId: Id): (r: Option<Assignment>)
    ensures r.Some? ==> r.value in rows && r.value.isActive && r.value.driverId == driverId
    ensures r.Some? ==> forall a :: a in rows && a.isActive && a.driverId == driverId ==> a.assignedAt <= r.value.assignedAt
    ensures r.None? <==> forall a :: a in rows ==> !(a.isActive && a.driverId == driverId)
  {
    MaxBy(rows, ActiveForDriver(driverId), AssignedAt)
  }

  /** FindActiveByVehicle: the vehicle's active assignment with the latest assigned_at, or none. */
  function FindActiveByVehicle(rows: seq<Assignment>, vehicleId: Id): (r: Option<Assignment>)
    ensures r.Some? ==> r.value in rows && r.value.isActive && r.value.vehicleId == vehicleId
    ensures r.Some? ==> forall a :: a in rows && a.isActive && a.vehicleId == vehicleId ==> a.assignedAt <= r.value.assignedAt
    ensures r.None? <==> forall a :: a in rows ==> !(a.isActive && a.vehicleId == vehicleId)
  {
    MaxBy(rows, ActiveForVehicle(vehicleId), AssignedAt)
  }

  /** ListByTicketID: the ticket's active assignments, each as often as it is stored, latest
      assigned_at first. */
  function ListByTicketID(rows: seq<Assignment>, ticketId: Id): (r: seq<Assignment>)
    ensures forall a :: a in r <==> a in rows && a.isActive && a.ticketId == ticketId
    ensures multiset(r) == multiset(Filter(rows, ActiveOnTicket(ticketId)))
    ensures SortedDesc(r, AssignedAt)
  {
    SortDesc(Filter(rows, ActiveOnTicket(ticketId)), AssignedAt)
  }

  /** GetVehiclePlateNumber: the plate stored for the vehicle; an error when the vehicle row is
      missing. */
  function GetVehiclePlateNumber(vehicles: seq<Vehicle>, vehicleId: Id): (r: Result<string>)
    ensures r.Failure? <==> forall i :: 0 <= i < |vehicles| ==> vehicles[i].id != vehicleId
    ensures r.Success? ==> exists v :: v in vehicles && v.id == vehicleId && v.plateNumber == r.value
  {
    match Find(vehicles, VehicleKey, vehicleId)
    case None => Failure(Failed("vehicle not found"))
    case Some(v) => Success(v.plateNumber)
  }

  /** A soft-deleted assignment no longer counts as the driver's active assignment on the ticket,
      unless another active row binds them. */
  lemma DeleteDeactivates(rows: seq<Assignment>, id: Id, now: Time, ticketId: Id, driverId: Id)
    requires forall i :: 0 <= i < |rows| && rows[i].isActive && rows[i].ticketId == ticketId && rows[i].driverId == driverId ==> rows[i].id == id
    ensures !HasActiveAssignment(Delete(rows, id, now), ticketId, driverId)
  {
  }
}
