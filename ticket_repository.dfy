/** The tickets table (internal/repository/ticket_repository.go): lookup, whole-record save, the
    completion counters, the filtered listing and the metrics of one ticket. */
module TicketRepository {
  import opened Domain
  import opened Tables
  import AssignmentRepository

  function TicketKey(t: Ticket): Id { t.id }

  function CreatedAt(t: Ticket): int { t.createdAt }

  /** GetByID: the row with that id, or record-not-found. */
  function GetByID(rows: seq<Ticket>, id: Id): (r: Result<Ticket>)
    ensures r.Success? ==> r.value in rows && r.value.id == id
    ensures r.Failure? <==> forall i :: 0 <= i < |rows| ==> rows[i].id != id
    ensures r.Failure? ==> r.error == RecordNotFound
  {
    match Find(rows, TicketKey, id)
    case None => Failure(RecordNotFound)
    case Some(t) => Success(t)
  }

  /** Update (gorm Save): the whole stored record is overwritten by the given one; a record that is
      not stored yet is inserted. Other rows are untouched. */
  function Update(rows: seq<Ticket>, ticket: Ticket): (r: seq<Ticket>)
    ensures GetByID(r, ticket.id) == Success(ticket)
    ensures GetByID(rows, ticket.id).Success? ==> |r| == |rows|
    ensures GetByID(rows, ticket.id).Failure? ==> r == rows + [ticket]
    ensures forall i :: 0 <= i < |rows| ==> r[i] == if rows[i].id == ticket.id then ticket else rows[i]
  {
    Save(rows, TicketKey, ticket)
  }

  /** The row condition `ticket_id = ?` on trips. */
  function TripOfTicket(ticketId: Id): Trip -> bool
  {
    (t: Trip) => t.ticketId == Some(ticketId)
  }

  /** A trip still open for completion: its exit time, exit plate event or exit volume event is
      missing. Volumes play no part. */
  predicate IsIncompleteTrip(t: Trip)
  {
    t.exitAt.None? || t.exitLprEventId.None? || t.exitVolumeEventId.None?
  }

  function IncompleteTripOfTicket(ticketId: Id): Trip -> bool
  {
    (t: Trip) => t.ticketId == Some(ticketId) && IsIncompleteTrip(t)
  }

  /** An assignment still open for completion: active and not marked COMPLETED by its driver. */
  predicate IsIncompleteAssignment(a: Assignment)
  {
    a.isActive && a.markStatus != MarkCompleted
  }

  function IncompleteAssignmentOfTicket(ticketId: Id): Assignment -> bool
  {
    (a: Assignment) => a.ticketId == ticketId && IsIncompleteAssignment(a)
  }

  /** CountTripsByTicketID: every trip of the ticket, whatever its status. */
  function CountTripsByTicketID(trips: seq<Trip>, ticketId: Id): (n: nat)
    ensures n <= |trips|
    ensures n == 0 <==> forall i :: 0 <= i < |trips| ==> trips[i].ticketId != Some(ticketId)
  {
    var n := Count(trips, TripOfTicket(ticketId));
    assert n > 0 <== exists i :: 0 <= i < |trips| && trips[i].ticketId == Some(ticketId) by {
      if i :| 0 <= i < |trips| && trips[i].ticketId == Some(ticketId) {
        assert trips[i] in trips;
      }
    }
    n
  }

  /** CountIncompleteTripsByTicketID. */
  function CountIncompleteTripsByTicketID(trips: seq<Trip>, ticketId: Id): (n: nat)
    ensures n <= CountTripsByTicketID(trips, ticketId)
    ensures n == 0 <==> forall i :: 0 <= i < |trips| && trips[i].ticketId == Some(ticketId) ==> !IsIncompleteTrip(trips[i])
  {
    var n := Count(trips, IncompleteTripOfTicket(ticketId));
    assert n > 0 <== exists i :: 0 <= i < |trips| && trips[i].ticketId == Some(ticketId) && IsIncompleteTrip(trips[i]) by {
      if i :| 0 <= i < |trips| && trips[i].ticketId == Some(ticketId) && IsIncompleteTrip(trips[i]) {
        assert trips[i] in trips;
      }
    }
    FilterSubsetCount(trips, IncompleteTripOfTicket(ticketId), TripOfTicket(ticketId));
    n
  }

  /** CountIncompleteAssignmentsByTicketID: soft-deleted assignments never count. */
  function CountIncompleteAssignmentsByTicketID(assignments: seq<Assignment>, ticketId: Id): (n: nat)
    ensures n == 0 <==> forall i :: 0 <= i < |assignments| && assignments[i].ticketId == ticketId ==> !IsIncompleteAssignment(assignments[i])
  {
    var n := Count(assignments, IncompleteAssignmentOfTicket(ticketId));
    assert n > 0 <== exists i :: 0 <= i < |assignments| && assignments[i].ticketId == ticketId && IsIncompleteAssignment(assignments[i]) by {
      if i :| 0 <= i < |assignments| && assignments[i].ticketId == ticketId && IsIncompleteAssignment(assignments[i]) {
        assert assignments[i] in assignments;
      }
    }
    n
  }

  /** Rows satisfying a stronger condition are no more than those satisfying a weaker one. */
  lemma {:induction false} FilterSubsetCount<T(!new)>(rows: seq<T>, p: T -> bool, q: T -> bool)
    requires forall x :: p(x) ==> q(x)
    ensures Count(rows, p) <= Count(rows, q)
  {
    if rows != [] {
      var front := rows[..|rows| - 1];
      var last := rows[|rows| - 1];
      assert rows == front + [last];
      FilterSubsetCount(front, p, q);
    }
  }

  /** The optional filters of List. Identifiers that do not parse are rejected by the database and
      are not modelled. */
  datatype TicketListFilter = TicketListFilter(
    status: Option<TicketStatus>,
    contractorId: Option<Id>,
    cleaningAreaId: Option<Id>,
    contractId: Option<Id>,
    createdByOrgId: Option<Id>,
    driverId: Option<Id>,
    plannedStartFrom: Option<Time>,
    plannedStartTo: Option<Time>,
    plannedEndFrom: Option<Time>,
    plannedEndTo: Option<Time>,
    factStartFrom: Option<Time>,
    factStartTo: Option<Time>,
    factEndFrom: Option<Time>,
    factEndTo: Option<Time>)

  predicate Equal<T(==)>(want: Option<T>, have: T) { want.None? || have == want.value }

  predicate AtLeast(bound: Option<Time>, v: Time) { bound.None? || v >= bound.value }

  predicate AtMost(bound: Option<Time>, v: Time) { bound.None? || v <= bound.value }

  /** A comparison with a NULL column is not true, so a missing fact stamp fails a bound on it. */
  predicate FactAtLeast(bound: Option<Time>, v: Option<Time>) { bound.None? || (v.Some? && v.value >= bound.value) }

  predicate FactAtMost(bound: Option<Time>, v: Option<Time>) { bound.None? || (v.Some? && v.value <= bound.value) }

  /** Every supplied filter on the ticket's own columns holds. */
  predicate Matches(f: TicketListFilter, t: Ticket)
  {
    && Equal(f.status, t.status)
    && Equal(f.contractorId, t.contractorId)
    && Equal(f.cleaningAreaId, t.cleaningAreaId)
    && Equal(f.contractId, t.contractId)
    && Equal(f.createdByOrgId, t.createdByOrgId)
    && AtLeast(f.plannedStartFrom, t.plannedStartAt)
    && AtMost(f.plannedStartTo, t.plannedStartAt)
    && AtLeast(f.plannedEndFrom, t.plannedEndAt)
    && AtMost(f.plannedEndTo, t.plannedEndAt)
    && FactAtLeast(f.factStartFrom, t.factStartAt)
    && FactAtMost(f.factStartTo, t.factStartAt)
    && FactAtLeast(f.factEndFrom, t.factEndAt)
    && FactAtMost(f.factEndTo, t.factEndAt)
  }

  function MatchesFilter(f: TicketListFilter): Ticket -> bool
  {
    (t: Ticket) => Matches(f, t)
  }

  /** How many rows the inner JOIN on active assignments of the driver yields for one ticket. */
  function ActiveBindings(assignments: seq<Assignment>, ticketId: Id, driverId: Id): (n: nat)
    ensures n > 0 <==> exists a :: a in assignments && a.isActive && a.ticketId == ticketId && a.driverId == driverId
  {
    Count(assignments, AssignmentRepository.ActiveBinding(ticketId, driverId))
  }

  function Repeat(t: Ticket, n: nat): (r: seq<Ticket>)
    ensures |r| == n
    ensures multiset(r)[t] == n
    ensures forall x :: x in r ==> x == t
  {
    if n == 0 then [] else Repeat(t, n - 1) + [t]
  }

  /** `JOIN ticket_assignments ta ON ta.ticket_id = tickets.id WHERE ta.driver_id = ? AND
      ta.is_active`: each ticket once per active assignment of the driver on it. */
  function JoinDriver(tickets: seq<Ticket>, assignments: seq<Assignment>, driverId: Id): seq<Ticket>
  {
    if tickets == [] then []
    else
      var last := tickets[|tickets| - 1];
      JoinDriver(tickets[..|tickets| - 1], assignments, driverId)
        + Repeat(last, ActiveBindings(assignments, last.id, driverId))
  }

  lemma {:induction false} JoinDriverMultiplicity(tickets: seq<Ticket>, assignments: seq<Assignment>, driverId: Id, t: Ticket)
    ensures multiset(JoinDriver(tickets, assignments, driverId))[t]
      == multiset(tickets)[t] * ActiveBindings(assignments, t.id, driverId)
  {
    if tickets != [] {
      var front := tickets[..|tickets| - 1];
      var last := tickets[|tickets| - 1];
      var c := ActiveBindings(assignments, t.id, driverId);
      JoinDriverMultiplicity(front, assignments, driverId, t);
      var e := JoinDriverStep(tickets, assignments, driverId, t);
      var m := multiset(front)[t];
      var n := multiset(tickets)[t];
      var before := multiset(JoinDriver(front, assignments, driverId))[t];
      var after := multiset(JoinDriver(tickets, assignments, driverId))[t];
      assert n == m + e && before == m * c && after == before + e * c;
      MulDistributes(m, e, c);
      assert after == n * c;
    }
  }

  /** One ticket more adds its own repetitions to the JOIN, and counts once more among the tickets
      when it is `t`. */
  lemma JoinDriverStep(tickets: seq<Ticket>, assignments: seq<Assignment>, driverId: Id, t: Ticket) returns (e: nat)
    requires tickets != []
    ensures multiset(tickets)[t] == multiset(tickets[..|tickets| - 1])[t] + e
    ensures multiset(JoinDriver(tickets, assignments, driverId))[t]
      == multiset(JoinDriver(tickets[..|tickets| - 1], assignments, driverId))[t] + e * ActiveBindings(assignments, t.id, driverId)
  {
    var front := tickets[..|tickets| - 1];
    var last := tickets[|tickets| - 1];
    var k := ActiveBindings(assignments, last.id, driverId);
    assert tickets == front + [last];
    e := if last == t then 1 else 0;
    assert multiset(Repeat(last, k))[t] == e * k by {
      if last != t {
        assert t !in Repeat(last, k);
      }
    }
  }

  lemma MulDistributes(m: nat, e: nat, c: nat)
    ensures m * c + e * c == (m + e) * c
  {
  }

  /** A ticket survives the JOIN exactly when at least one active assignment binds the driver to it. */
  lemma JoinDriverMembers(tickets: seq<Ticket>, assignments: seq<Assignment>, driverId: Id, t: Ticket)
    ensures t in JoinDriver(tickets, assignments, driverId) <==> t in tickets && ActiveBindings(assignments, t.id, driverId) > 0
  {
    JoinDriverMultiplicity(tickets, assignments, driverId, t);
    var j := JoinDriver(tickets, assignments, driverId);
    assert t in j <==> multiset(j)[t] > 0;
    assert t in tickets <==> multiset(tickets)[t] > 0;
  }

  /** List: the tickets passing every supplied filter, latest created first; with a driver filter,
      only tickets the driver is actively assigned to. */
  function List(tickets: seq<Ticket>, assignments: seq<Assignment>, f: TicketListFilter): (r: seq<Ticket>)
    ensures forall t :: t in r <==>
      (t in tickets && Matches(f, t) && (f.driverId.None? || ActiveBindings(assignments, t.id, f.driverId.value) > 0))
    ensures SortedDesc(r, CreatedAt)
  {
    var joined := if f.driverId.None? then tickets else JoinDriver(tickets, assignments, f.driverId.value);
    assert forall t :: t in joined <==>
      (t in tickets && (f.driverId.None? || ActiveBindings(assignments, t.id, f.driverId.value) > 0)) by {
      if f.driverId.Some? {
        forall t {
          JoinDriverMembers(tickets, assignments, f.driverId.value, t);
        }
      }
    }
    SortDesc(Filter(joined, MatchesFilter(f)), CreatedAt)
  }

  /** With a driver filter the JOIN repeats a ticket once per active assignment binding the
      driver to it: the listing holds each matching ticket that many times. */
  lemma ListRepeatsPerAssignment(tickets: seq<Ticket>, assignments: seq<Assignment>, f: TicketListFilter, t: Ticket)
    requires f.driverId.Some? && Matches(f, t)
    ensures multiset(List(tickets, assignments, f))[t]
      == multiset(tickets)[t] * ActiveBindings(assignments, t.id, f.driverId.value)
  {
    var joined := JoinDriver(tickets, assignments, f.driverId.value);
    JoinDriverMultiplicity(tickets, assignments, f.driverId.value, t);
    FilterMultiplicity(joined, MatchesFilter(f), t);
  }

  datatype TicketMetrics = TicketMetrics(totalTrips: nat, totalVolume: real, hasViolations: bool)

  /** COALESCE(detected_volume_entry, 0). */
  function EntryVolumeOrZero(t: Trip): real
  {
    if t.volumeEntry.Some? then t.volumeEntry.value else 0.0
  }

  /** GetTicketMetrics: the number of the ticket's trips, the sum of their entry volumes (a
      missing volume counting zero) and whether any of them has a status other than OK. */
  function GetTicketMetrics(trips: seq<Trip>, ticketId: Id): (m: TicketMetrics)
    ensures m.totalTrips == CountTripsByTicketID(trips, ticketId)
    ensures m.hasViolations <==> exists i :: 0 <= i < |trips| && trips[i].ticketId == Some(ticketId) && trips[i].status != Ok
    ensures (forall i :: 0 <= i < |trips| && trips[i].volumeEntry.Some? ==> trips[i].volumeEntry.value >= 0.0) ==> m.totalVolume >= 0.0
    ensures m.totalTrips == 0 ==> m.totalVolume == 0.0 && !m.hasViolations
  {
    var mine := Filter(trips, TripOfTicket(ticketId));
    var violations := Count(trips, (t: Trip) => t.ticketId == Some(ticketId) && t.status != Ok);
    assert violations > 0 <== exists i :: 0 <= i < |trips| && trips[i].ticketId == Some(ticketId) && trips[i].status != Ok by {
      if i :| 0 <= i < |trips| && trips[i].ticketId == Some(ticketId) && trips[i].status != Ok {
        assert trips[i] in trips;
      }
    }
    assert violations > 0 ==> exists i :: 0 <= i < |trips| && trips[i].ticketId == Some(ticketId) && trips[i].status != Ok by {
      if violations > 0 {
        var t :| t in trips && t.ticketId == Some(ticketId) && t.status != Ok;
        var i :| 0 <= i < |trips| && trips[i] == t;
      }
    }
    assert (forall i :: 0 <= i < |trips| && trips[i].volumeEntry.Some? ==> trips[i].volumeEntry.value >= 0.0)
      ==> SumBy(mine, EntryVolumeOrZero) >= 0.0 by {
      if forall i :: 0 <= i < |trips| && trips[i].volumeEntry.Some? ==> trips[i].volumeEntry.value >= 0.0 {
        forall i | 0 <= i < |mine| ensures EntryVolumeOrZero(mine[i]) >= 0.0 {
          assert mine[i] in trips;
        }
        SumByNonNegative(mine, EntryVolumeOrZero);
      }
    }
    assert |mine| == 0 ==> mine == [];
    TicketMetrics(|mine|, SumBy(mine, EntryVolumeOrZero), violations > 0)
  }

  /** Appending a trip adds one to the count, its entry volume (zero when missing) to the total
      and its violation to the flag exactly when it belongs to the ticket; with the all-zero metrics
      of a table holding none of the ticket's trips, this pins the metrics down as the per-ticket
      aggregates over the whole table. */
  lemma MetricsSnoc(trips: seq<Trip>, t: Trip, ticketId: Id)
    ensures var m := GetTicketMetrics(trips, ticketId);
      var mine := t.ticketId == Some(ticketId);
      GetTicketMetrics(trips + [t], ticketId) == TicketMetrics(
        m.totalTrips + (if mine then 1 else 0),
        m.totalVolume + (if mine then EntryVolumeOrZero(t) else 0.0),
        m.hasViolations || (mine && t.status != Ok))
  {
    FilterSnoc(trips, t, TripOfTicket(ticketId));
    VolumeSnoc(trips, t, ticketId);
    ViolationsSnoc(trips, t, ticketId);
  }

  lemma VolumeSnoc(trips: seq<Trip>, t: Trip, ticketId: Id)
    ensures GetTicketMetrics(trips + [t], ticketId).totalVolume ==
      GetTicketMetrics(trips, ticketId).totalVolume + (if t.ticketId == Some(ticketId) then EntryVolumeOrZero(t) else 0.0)
  {
    var front := Filter(trips, TripOfTicket(ticketId));
    FilterSnoc(trips, t, TripOfTicket(ticketId));
    assert TripOfTicket(ticketId)(t) == (t.ticketId == Some(ticketId));
    if t.ticketId == Some(ticketId) {
      assert Filter(trips + [t], TripOfTicket(ticketId)) == front + [t];
      SumBySnoc(front, t, EntryVolumeOrZero);
    } else {
      assert Filter(trips + [t], TripOfTicket(ticketId)) == front + [];
      assert front + [] == front;
    }
  }

  lemma ViolationsSnoc(trips: seq<Trip>, t: Trip, ticketId: Id)
    ensures (exists i :: 0 <= i < |trips + [t]| && (trips + [t])[i].ticketId == Some(ticketId) && (trips + [t])[i].status != Ok)
      <==> (exists i :: 0 <= i < |trips| && trips[i].ticketId == Some(ticketId) && trips[i].status != Ok)
           || (t.ticketId == Some(ticketId) && t.status != Ok)
  {
    var rows := trips + [t];
    if i :| 0 <= i < |trips| && trips[i].ticketId == Some(ticketId) && trips[i].status != Ok {
      assert rows[i] == trips[i];
    }
    if i :| 0 <= i < |rows| && rows[i].ticketId == Some(ticketId) && rows[i].status != Ok {
      if i < |trips| {
        assert rows[i] == trips[i];
      }
    }
    if t.ticketId == Some(ticketId) && t.status != Ok {
      assert rows[|trips|] == t;
    }
  }

  /** GetAssignmentsByTicketID: the ticket's active assignments, latest first. */
  function GetAssignmentsByTicketID(assignments: seq<Assignment>, ticketId: Id): (r: seq<Assignment>)
    ensures forall a :: a in r <==> a in assignments && a.isActive && a.ticketId == ticketId
    ensures SortedDesc(r, AssignmentRepository.AssignedAt)
  {
    AssignmentRepository.ListByTicketID(assignments, ticketId)
  }
}
