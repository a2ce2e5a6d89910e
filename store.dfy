/** The database the services work on: one table per entity, kept in insertion order, and the
    identifier source that stands in for the random UUIDs new rows receive. The services are
    modelled twice: as functions from one `World` to the next (`Step`), about which the
    lifecycle properties are proved, and as methods on a `Db` object whose fields are the tables,
    each proved to perform exactly the step its function describes. */
module Store {
  import opened Domain
  import opened Tables
  import TicketRepository
  import AssignmentRepository
  import TripRepository

  function AppealKey(a: Appeal): Id { a.id }

  function CommentKey(c: AppealComment): Id { c.id }

  /** A snapshot of every table the core reads or writes. `access` maps a (cleaning area,
      contractor) pair to the source of the contractor's access grant. */
  datatype World = World(
    tickets: seq<Ticket>,
    assignments: seq<Assignment>,
    trips: seq<Trip>,
    appeals: seq<Appeal>,
    comments: seq<AppealComment>,
    vehicles: seq<Vehicle>,
    areas: seq<CleaningArea>,
    polygons: seq<Polygon>,
    positions: seq<VehiclePosition>,
    access: map<(Id, Id), string>,
    nextId: nat)

  /** Primary keys are distinct in every written table and all drawn before `nextId`. */
  ghost predicate Valid(w: World)
  {
    && WellKeyed(w.tickets, TicketRepository.TicketKey, w.nextId)
    && WellKeyed(w.assignments, AssignmentRepository.AssignmentKey, w.nextId)
    && WellKeyed(w.trips, TripRepository.TripKey, w.nextId)
    && WellKeyed(w.appeals, AppealKey, w.nextId)
    && WellKeyed(w.comments, CommentKey, w.nextId)
  }

  /** The world after an operation, with what the operation returned. */
  datatype Step<+T> = Step(world: World, result: T)

  /** Saving a ticket that was read from the table keeps the store valid. */
  lemma SaveTicketValid(w: World, t: Ticket)
    requires Valid(w) && t.id < w.nextId
    ensures Valid(w.(tickets := TicketRepository.Update(w.tickets, t)))
  {
    WellKeyedSave(w.tickets, TicketRepository.TicketKey, w.nextId, t);
  }

  lemma SaveTripValid(w: World, t: Trip)
    requires Valid(w) && t.id < w.nextId
    ensures Valid(w.(trips := TripRepository.Update(w.trips, t)))
  {
    WellKeyedSave(w.trips, TripRepository.TripKey, w.nextId, t);
  }

  /** Inserting rows under fresh identifiers keeps the store valid. */
  lemma FreshIdValid(w: World)
    requires Valid(w)
    ensures Valid(w.(nextId := w.nextId + 1))
  {
    WellKeyedRaise(w.tickets, TicketRepository.TicketKey, w.nextId, w.nextId + 1);
    WellKeyedRaise(w.assignments, AssignmentRepository.AssignmentKey, w.nextId, w.nextId + 1);
    WellKeyedRaise(w.trips, TripRepository.TripKey, w.nextId, w.nextId + 1);
    WellKeyedRaise(w.appeals, AppealKey, w.nextId, w.nextId + 1);
    WellKeyedRaise(w.comments, CommentKey, w.nextId, w.nextId + 1);
  }

  /** The database as the services see it: the tables are fields that their methods reassign. */
  class Db {
    var tickets: seq<Ticket>
    var assignments: seq<Assignment>
    var trips: seq<Trip>
    var appeals: seq<Appeal>
    var comments: seq<AppealComment>
    var vehicles: seq<Vehicle>
    var areas: seq<CleaningArea>
    var polygons: seq<Polygon>
    var positions: seq<VehiclePosition>
    var access: map<(Id, Id), string>
    var nextId: nat

    function Snapshot(): World
      reads this
    {
      World(tickets, assignments, trips, appeals, comments, vehicles, areas, polygons, positions, access, nextId)
    }

    ghost predicate Consistent()
      reads this
    {
      Valid(Snapshot())
    }

    /** BeforeCreate: a new row receives an identifier no stored row has. */
    method NewId() returns (id: Id)
      modifies this
      ensures id == old(nextId) && nextId == old(nextId) + 1
      ensures Snapshot() == old(Snapshot()).(nextId := old(nextId) + 1)
    {
      id := nextId;
      nextId := nextId + 1;
    }
  }
}
