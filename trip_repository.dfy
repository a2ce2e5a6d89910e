/** The trips table (internal/repository/trip_repository.go): lookups, the whole-record save, the
    per-ticket and per-driver listings, the first trip of a ticket and the reception journal of
    the landfill. */
module TripRepository {
  import opened Domain
  import opened Tables
  import TicketRepository

  function TripKey(t: Trip): Id { t.id }

  function EntryAt(t: Trip): int { t.entryAt }

  /** The row condition `ticket_id = ?`. */
  function OfTicket(ticketId: Id): Trip -> bool
  {
    (t: Trip) => t.ticketId == Some(ticketId)
  }

  /** The row condition `driver_id = ?`, with `AND ticket_id = ?` when a ticket is given. */
  function OfDriver(driverId: Id, ticketId: Option<Id>): Trip -> bool
  {
    (t: Trip) => t.driverId == Some(driverId) && (ticketId.None? || t.ticketId == ticketId)
  }

  /** The row condition `ticket_assignment_id = ?`. */
  function OfAssignment(assignmentId: Id): Trip -> bool
  {
    (t: Trip) => t.assignmentId == Some(assignmentId)
  }

  /** GetByID: the row with that id, or record-not-found. */
  function GetByID(rows: seq<Trip>, id: Id): (r: Result<Trip>)
    ensures r.Success? ==> r.value in rows && r.value.id == id
    ensures r.Failure? <==> forall i :: 0 <= i < |rows| ==> rows[i].id != id
    ensures r.Failure? ==> r.error == RecordNotFound
  {
    match Find(rows, TripKey, id)
    case None => Failure(RecordNotFound)
    case Some(t) => Success(t)
  }

  /** Update (gorm Save): the whole stored record is overwritten by the given one; a record that is
      not stored yet is inserted. Other rows are untouched. */
  function Update(rows: seq<Trip>, trip: Trip): (r: seq<Trip>)
    ensures GetByID(r, trip.id) == Success(trip)
    ensures GetByID(rows, trip.id).Success? ==> |r| == |rows|
    ensures GetByID(rows, trip.id).Failure? ==> r == rows + [trip]
    ensures forall i :: 0 <= i < |rows| ==> r[i] == if rows[i].id == trip.id then trip else rows[i]
  {
    Save(rows, TripKey, trip)
  }

  /** ListByTicketID: the ticket's trips, latest entry first. */
  function ListByTicketID(rows: seq<Trip>, ticketId: Id): (r: seq<Trip>)
    ensures forall t :: t in r <==> t in rows && t.ticketId == Some(ticketId)
    ensures multiset(r) == multiset(Filter(rows, OfTicket(ticketId)))
    ensures SortedDesc(r, EntryAt)
  {
    SortDesc(Filter(rows, OfTicket(ticketId)), EntryAt)
  }

  /** ListByDriverID: the driver's trips, only those of the ticket when one is given, latest entry
      first. */
  function ListByDriverID(rows: seq<Trip>, driverId: Id, ticketId: Option<Id>): (r: seq<Trip>)
    ensures forall t :: t in r <==> t in rows && t.driverId == Some(driverId) && (ticketId.None? || t.ticketId == ticketId)
    ensures multiset(r) == multiset(Filter(rows, OfDriver(driverId, ticketId)))
    ensures SortedDesc(r, EntryAt)
  {
    SortDesc(Filter(rows, OfDriver(driverId, ticketId)), EntryAt)
  }

  /** GetFirstTripByTicketID: the ticket's trip with the earliest entry; none, and no error, when
      the ticket has no trip. */
  function GetFirstTripByTicketID(rows: seq<Trip>, ticketId: Id): (r: Option<Trip>)
    ensures r.Some? ==> r.value in rows && r.value.ticketId == Some(ticketId)
    ensures r.Some? ==> forall t :: t in rows && t.ticketId == Some(ticketId) ==> r.value.entryAt <= t.entryAt
    ensures r.None? <==> forall t :: t in rows ==> t.ticketId != Some(ticketId)
  {
    MinBy(rows, OfTicket(ticketId), EntryAt)
  }

  /** FindByAssignmentID: the trip recorded for the assignment, or none. */
  function FindByAssignmentID(rows: seq<Trip>, assignmentId: Id): (r: Option<Trip>)
    ensures r.Some? ==> r.value in rows && r.value.assignmentId == Some(assignmentId)
    ensures r.None? <==> forall i :: 0 <= i < |rows| ==> rows[i].assignmentId != Some(assignmentId)
  {
    FirstWhere(rows, OfAssignment(assignmentId))
  }

  /** One line of the reception journal. The polygon and contractor names the query also joins in
      are display text and are not modelled. */
  datatype JournalEntry = JournalEntry(
    tripId: Id,
    entryAt: Time,
    exitAt: Option<Time>,
    polygonId: Option<Id>,
    vehiclePlate: string,
    detectedPlate: string,
    contractorId: Option<Id>,
    volumeEntry: Option<real>,
    volumeExit: Option<real>,
    netVolume: real,
    status: string)

  datatype JournalFilter = JournalFilter(
    polygonIds: seq<Id>,
    dateFrom: Option<Time>,
    dateTo: Option<Time>,
    contractorId: Option<Id>,
    status: Option<TripStatus>)

  /** COALESCE(v, 0). */
  function OrZero(v: Option<real>): real
  {
    if v.Some? then v.value else 0.0
  }

  /** The contractor the LEFT JOIN on tickets yields for a trip: none when the trip has no ticket
      or the ticket is missing. */
  function ContractorOf(tickets: seq<Ticket>, t: Trip): (c: Option<Id>)
    ensures c.Some? <==> t.ticketId.Some? && TicketRepository.GetByID(tickets, t.ticketId.value).Success?
    ensures c.Some? ==> c.value == TicketRepository.GetByID(tickets, t.ticketId.value).value.contractorId
  {
    if t.ticketId.None? then None
    else match TicketRepository.GetByID(tickets, t.ticketId.value)
      case Success(ticket) => Some(ticket.contractorId)
      case Failure(_) => None
  }

  /** The WHERE clause of the journal: a polygon is recorded, and every supplied filter holds. */
  predicate InJournal(tickets: seq<Ticket>, f: JournalFilter, t: Trip)
  {
    && t.polygonId.Some?
    && (|f.polygonIds| == 0 || t.polygonId.value in f.polygonIds)
    && (f.dateFrom.None? || t.entryAt >= f.dateFrom.value)
    && (f.dateTo.None? || t.entryAt <= f.dateTo.value)
    && (f.contractorId.None? || ContractorOf(tickets, t) == f.contractorId)
    && (f.status.None? || t.status == f.status.value)
  }

  function JournalRow(tickets: seq<Ticket>, f: JournalFilter): Trip -> bool
  {
    (t: Trip) => InJournal(tickets, f, t)
  }

  /** The selected columns of one trip, with net volume = COALESCE(entry, 0) - COALESCE(exit, 0). */
  function ToEntry(tickets: seq<Ticket>, t: Trip): (e: JournalEntry)
    ensures e.netVolume == OrZero(e.volumeEntry) - OrZero(e.volumeExit)
    ensures e.netVolume == OrZero(t.volumeEntry) - OrZero(t.volumeExit)
    ensures e.tripId == t.id && e.entryAt == t.entryAt && e.exitAt == t.exitAt && e.polygonId == t.polygonId
    ensures e.vehiclePlate == t.vehiclePlate && e.detectedPlate == t.detectedPlate
    ensures e.volumeEntry == t.volumeEntry && e.volumeExit == t.volumeExit
    ensures e.contractorId == ContractorOf(tickets, t)
    ensures e.status == TripStatusName(t.status)
  {
    JournalEntry(t.id, t.entryAt, t.exitAt, t.polygonId, t.vehiclePlate, t.detectedPlate,
      ContractorOf(tickets, t), t.volumeEntry, t.volumeExit,
      OrZero(t.volumeEntry) - OrZero(t.volumeExit), TripStatusName(t.status))
  }

  function Project(tickets: seq<Ticket>, s: seq<Trip>): (r: seq<JournalEntry>)
    ensures |r| == |s|
    ensures forall i :: 0 <= i < |s| ==> r[i] == ToEntry(tickets, s[i])
  {
    if s == [] then [] else [ToEntry(tickets, s[0])] + Project(tickets, s[1..])
  }

  ghost predicate EntriesSortedDesc(r: seq<JournalEntry>)
  {
    forall i, j :: 0 <= i < j < |r| ==> r[i].entryAt >= r[j].entryAt
  }

  /** The trips the journal lists, latest entry first. */
  function Selected(trips: seq<Trip>, tickets: seq<Ticket>, f: JournalFilter): (s: seq<Trip>)
    ensures forall t :: t in s <==> t in trips && InJournal(tickets, f, t)
    ensures |s| == |Filter(trips, JournalRow(tickets, f))|
    ensures SortedDesc(s, EntryAt)
  {
    SortDesc(Filter(trips, JournalRow(tickets, f)), EntryAt)
  }

  /** The projection of the selected trips holds an entry for each of them and nothing else. */
  lemma ProjectCovers(trips: seq<Trip>, tickets: seq<Ticket>, f: JournalFilter, s: seq<Trip>)
    requires forall t :: t in s <==> t in trips && InJournal(tickets, f, t)
    ensures forall t :: t in trips && InJournal(tickets, f, t) ==> ToEntry(tickets, t) in Project(tickets, s)
    ensures forall i :: 0 <= i < |s| ==> exists t :: t in trips && InJournal(tickets, f, t) && Project(tickets, s)[i] == ToEntry(tickets, t)
  {
    var r := Project(tickets, s);
    forall t | t in trips && InJournal(tickets, f, t) ensures ToEntry(tickets, t) in r {
      var k :| 0 <= k < |s| && s[k] == t;
      assert r[k] == ToEntry(tickets, t);
    }
    forall i | 0 <= i < |s| ensures exists t :: t in trips && InJournal(tickets, f, t) && r[i] == ToEntry(tickets, t) {
      assert s[i] in s;
    }
  }

  lemma ProjectSorted(tickets: seq<Ticket>, s: seq<Trip>)
    requires SortedDesc(s, EntryAt)
    ensures EntriesSortedDesc(Project(tickets, s))
  {
    var r := Project(tickets, s);
    forall i, j | 0 <= i < j < |r| ensures r[i].entryAt >= r[j].entryAt {
      assert r[i].entryAt == s[i].entryAt && r[j].entryAt == s[j].entryAt;
    }
  }

  /** ListReceptionJournal: one entry per trip that passes the filter, latest entry first, each
      with a polygon and with its net volume. */
  function ListReceptionJournal(trips: seq<Trip>, tickets: seq<Ticket>, f: JournalFilter): (r: seq<JournalEntry>)
    ensures |r| == |Filter(trips, JournalRow(tickets, f))|
    ensures forall t :: t in trips && InJournal(tickets, f, t) ==> ToEntry(tickets, t) in r
    ensures forall i :: 0 <= i < |r| ==> exists t :: t in trips && InJournal(tickets, f, t) && r[i] == ToEntry(tickets, t)
    ensures forall i :: 0 <= i < |r| ==> r[i].polygonId.Some? && r[i].netVolume == OrZero(r[i].volumeEntry) - OrZero(r[i].volumeExit)
    ensures EntriesSortedDesc(r)
  {
    var s := Selected(trips, tickets, f);
    var r := Project(tickets, s);
    ProjectCovers(trips, tickets, f, s);
    ProjectSorted(tickets, s);
    r
  }
}
