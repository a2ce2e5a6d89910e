# Snow-removal tickets: a verified model of the ticket service core

This project models, in Dafny, the core of the snow-removal ticket service. The service works as follows:

- A KGU (the city housing-and-utilities office) opens **tickets** for cleaning a **cleaning area**.
- A contractor binds a driver and a vehicle to a ticket through **assignments**.
- A driver marks an assignment IN_WORK, then COMPLETED. These two marks write two stamps once each (`tripStartedAt`, `tripFinishedAt`).
- Each mark moves the ticket on: PLANNED → IN_PROGRESS on the first start, then automatic completion.
- **Trips** are landfill visits. They are recorded from camera events, or reconciled from the ANPR (number-plate recognition) feed when a driver completes an assignment.
- A driver may **appeal** a trip that did not get the status OK. The appeal is then reviewed and commented on by role.
- A driver can ask for a **navigation hint** to the cleaning area and to its landfill polygon.

## How the model is built

- **Tables.** Each database table is a sequence of rows in insertion order (`Store.World`). The class `Store.Db` holds those sequences as fields.
- **Ids.** Identifiers are drawn from a counter (`Db.NewId`). The invariant `Store.Valid` keeps every id below the counter and unique in its table.
- **Queries.** Every repository query is a pure function over the rows. A function's contract says which rows it returns, in which order (the SQL `ORDER BY`) and with which multiplicity.
- **Services.** Every service operation has two parts:
  - a specification function `World -> Step(world', result)`, whose contract states each error with its condition, when the call succeeds, and the new world in terms of the old one (sub-steps named by the specification functions they are);
  - an imperative `method` on `Db`, proved to make exactly that step (`Step(db.Snapshot(), r) == Spec(old(db.Snapshot()), …)`).
- **Lemmas.** Lemmas connect the operations: idempotence, write-once stamps, "nothing else changes", round trips between operations, and the orderings the service promises.
- **Clock and parsing.**
  - The clock is a `now` parameter: one reading per service call.
  - A UUID or RFC 3339 text received from a caller is `Raw<T>`: `Well(value)` when it parses, `Malformed` when it does not.
- **ANPR feed.** The transport to the ANPR service is an oracle, a `seq<Attempt>` of what each HTTP attempt would bring back.
- **Distances.** The great-circle distance used by navigation is a function parameter `Distance`.

Modules, one per source file:

| module | file |
|---|---|
| `Domain` | the records and enumerations of `internal/model` |
| `Tables` | generic table queries: find, filter, count, sort, sum, save |
| `Store` | the database snapshot `World` and the `Db` class |
| `PlateNormalizer` | `internal/utils/normalize_plate.go` |
| `AnprClient` | `internal/client/anpr_client.go` |
| `TicketRepository`, `TripRepository`, `AssignmentRepository` | the repositories of the same names |
| `TicketLifecycle` / `TicketService` | `internal/service/ticket_service.go` (specification / methods) |
| `TripLifecycle` / `TripService` | `internal/service/trip_service.go` |
| `AssignmentLifecycle` / `AssignmentService` | `internal/service/assignment_service.go` |
| `AppealLifecycle` / `AppealService` | `internal/service/appeal_service.go` |
| `Navigation` | `internal/service/navigation_service.go` |

Where the code and the service's written description disagree, the model follows the code. It does so in these places:

- `Cancel` and `Complete` do not look at the ticket's current status.
- No exit-volume tolerance check exists anywhere in the code.
- No trip classifier exists either: `TripService.Create` keeps the caller's status, except for the NO_ASSIGNMENT override.
- Auto-created trips carry no exit event ids. They therefore count as incomplete and keep blocking completion (`TripLifecycle.AutoCreatedTripBlocksCompletion`, `AssignmentLifecycle.UnrecordedTripBlocksAutoCompletion`).
- Comments on an appeal are open to every KGU caller. Reading the appeal itself is not (`AppealLifecycle.CommentAccessWidensRead`). This holds although the comment at `appeal_service.go:297` says the check is the same as in `GetByID`.
- `ListByTicketID` for appeals gives a driver every appeal of its own, whatever the ticket asked for.
- The non-IN_WORK, non-COMPLETED branch of the driver's mark also accepts NOT_STARTED.
- The route duration is `distance / 8 * 3.6`. That figure matches a speed of 8 km/h, while the comment in the code says 8 m/s. The model keeps the formula as written.
- `NormalizePlate` is not idempotent when a tab is shielded by a hyphen (`PlateNormalizer.NotIdempotentWithTab`).

## Model

| member | source | states |
|---|---|---|
| Domain.TripStatusName | internal/model/trip.go:13-22 | the status text stored as an appeal's reason; it is never empty, and it is "OK" exactly for the OK status |
| Store.Db.NewId | internal/model/ticket.go:42-47 | a fresh identifier, as `BeforeCreate` assigns: the counter is returned and advanced by one; nothing else in the database changes |
| Store.SaveTicketValid | internal/repository/ticket_repository.go:37-39 | saving a ticket whose id was already issued keeps every table well keyed |
| Store.SaveTripValid | internal/repository/trip_repository.go:38-40 | saving a trip whose id was already issued keeps every table well keyed |
| PlateNormalizer.UpperChar | internal/utils/normalize_plate.go:11 | an upper-cased character is never an ASCII lowercase letter, and only ASCII lowercase letters change |
| PlateNormalizer.ToUpper | internal/utils/normalize_plate.go:11 | upper-casing keeps the length and maps every character on its own |
| PlateNormalizer.TrimLeftDrops | internal/utils/normalize_plate.go:8 | left trimming drops exactly a prefix of white space and stops at a non-space |
| PlateNormalizer.TrimRightDrops | internal/utils/normalize_plate.go:8 | right trimming drops exactly a suffix of white space and stops at a non-space |
| PlateNormalizer.TrimSpaceInfix | internal/utils/normalize_plate.go:8 | trimming keeps every non-space character, adds none, and leaves no white space at either end |
| PlateNormalizer.RemoveAllMembers | internal/utils/normalize_plate.go:9-10 | removing a character keeps exactly the other characters |
| PlateNormalizer.RemoveAllConcat | internal/utils/normalize_plate.go:9-10 | removing a character distributes over concatenation |
| PlateNormalizer.NormalizePlate | internal/utils/normalize_plate.go:7-13 | the normal form is no longer than the input and has no space, no hyphen and no ASCII lowercase letter |
| PlateNormalizer.NormalFormFixed | internal/utils/normalize_plate.go:7-13 | a plate already in normal form is returned unchanged |
| PlateNormalizer.NormalizeIdempotent | internal/utils/normalize_plate.go:8-11 | when the space is the only white space in the input, the result is in normal form and normalising twice equals normalising once |
| PlateNormalizer.NotIdempotentWithTab | internal/utils/normalize_plate.go:8-11 | "-\tAB" normalises to "\tAB", which normalises to "AB": trimming before removing hyphens breaks idempotence |
| PlateNormalizer.SpellingsMeet | internal/utils/normalize_plate.go:7-13 | " 12 ab-3456 " and "12AB3456" both normalise to "12AB3456" |
| PlateNormalizer.TrimAbsorbed | internal/utils/normalize_plate.go:8-9 | when the space is the only white space, removing the spaces after trimming equals removing them without trimming |
| PlateNormalizer.SameUpToSeparatorsAndCase | internal/utils/normalize_plate.go:5-13 | when the space is the only white space, two plates normalise equal exactly when they agree once spaces and hyphens are dropped and ASCII case is ignored |
| PlateNormalizer.HyphenShieldsTab | internal/utils/normalize_plate.go:8-10 | without that restriction the claim fails: "-\tAB" and "\tAB" differ only by a hyphen but normalise apart |
| PlateNormalizer.OnlySeparatorsEmpty | internal/utils/normalize_plate.go:8-10 | a plate made only of spaces and hyphens normalises to the empty text |
| PlateNormalizer.EmptyOnlySeparators | internal/utils/normalize_plate.go:7-13 | conversely, an empty normal form comes only from white space and hyphens |
| AnprClient.Interpret | internal/client/anpr_client.go:113-127 | a delivered answer yields events exactly when the status is 200 and the body decodes; an unreadable body and a non-200 status are the matching errors |
| AnprClient.BuildRequest | internal/client/anpr_client.go:66-84 | the query always carries the plate and the time window; it carries the direction only when one is given and non-empty, and the bearer token only when configured |
| AnprClient.GetEventsByPlateAndTime | internal/client/anpr_client.go:47-130 | the retry loop over the transport oracle performs the call `GetEvents` describes: the request sent, the attempts made, the delays slept and the response |
| AnprClient.RetryBounds | internal/client/anpr_client.go:87-106 | at most three attempts; the delay before retry k is (k+1)·500 ms, and there is no delay after the final attempt |
| AnprClient.RetryStopsAtFirstDelivery | internal/client/anpr_client.go:87-94 | the loop stops at the first attempt whose transport succeeds, and every earlier attempt failed in transport |
| AnprClient.CallBounds | internal/client/anpr_client.go:87-106 | a call makes at most three attempts, sleeps at most 1500 ms in total, and one delay fewer than attempts |
| AnprClient.NoRequestWithoutTarget | internal/client/anpr_client.go:49-57 | an empty base URL or an empty normalised plate gives an error before any attempt is made |
| AnprClient.EventsOnlyFromFirstDelivery | internal/client/anpr_client.go:87-127 | events come back exactly when the first delivered attempt within three has status 200 and a decodable body, and they are that body's events |
| AnprClient.ThreeTransportErrors | internal/client/anpr_client.go:96-98 | three transport failures make the call fail as unreachable after three attempts, with delays of 500 and 1000 ms and the request as built |
| TicketRepository.GetByID | internal/repository/ticket_repository.go:25-35 | the ticket with the id, or record-not-found exactly when no row has it |
| TicketRepository.Update | internal/repository/ticket_repository.go:37-39 | save by primary key: the stored row becomes the ticket, every other row is unchanged, and an unknown id is appended |
| TicketRepository.CountTripsByTicketID | internal/repository/ticket_repository.go:41-46 | counts the ticket's trips whatever their status; zero exactly when no trip references the ticket |
| TicketRepository.CountIncompleteTripsByTicketID | internal/repository/ticket_repository.go:48-54 | zero exactly when every trip of the ticket has an exit time, an exit plate event and an exit volume event; never above the trip count |
| TicketRepository.CountIncompleteAssignmentsByTicketID | internal/repository/ticket_repository.go:56-63 | zero exactly when every active assignment of the ticket is COMPLETED; soft-deleted assignments never count |
| TicketRepository.FilterSubsetCount | internal/repository/ticket_repository.go:48-54 | a stricter filter never counts more rows |
| TicketRepository.ActiveBindings | internal/repository/ticket_repository.go:101-104 | the driver join produces a row exactly when an active assignment binds the driver to the ticket |
| TicketRepository.JoinDriverMembers | internal/repository/ticket_repository.go:101-104 | a ticket survives the driver join exactly when it is in the table and has an active assignment for the driver |
| TicketRepository.List | internal/repository/ticket_repository.go:82-135 | the listed tickets are exactly those matching every supplied filter (the driver filter through an active assignment), ordered by creation time, newest first |
| TicketRepository.ListRepeatsPerAssignment | internal/repository/ticket_repository.go:101-104 | with the driver filter, a ticket appears once per active assignment of that driver, as the SQL join gives it |
| TicketRepository.GetTicketMetrics | internal/repository/ticket_repository.go:145-176 | the trip count of the ticket; violations exactly when one of its trips is not OK; a non-negative volume sum when entry volumes are non-negative; all zero without trips |
| TicketRepository.MetricsSnoc | internal/repository/ticket_repository.go:145-176 | appending a trip adds one to the count, its entry volume (a missing one counting 0) to the total and its violation to the flag exactly when it belongs to the ticket, so the total is the sum of the entry volumes of the ticket's trips |
| TicketRepository.GetAssignmentsByTicketID | internal/repository/ticket_repository.go:179-186 | exactly the ticket's active assignments, newest first |
| TripRepository.GetByID | internal/repository/trip_repository.go:26-36 | the trip with the id, or record-not-found exactly when no row has it |
| TripRepository.Update | internal/repository/trip_repository.go:38-40 | the whole stored record is overwritten by the new one; other rows are unchanged |
| TripRepository.ListByTicketID | internal/repository/trip_repository.go:42-49 | exactly the ticket's trips, each as often as stored, ordered by entry time, newest first |
| TripRepository.ListByDriverID | internal/repository/trip_repository.go:51-59 | exactly the driver's trips, restricted to the ticket when one is given, newest entry first |
| TripRepository.GetFirstTripByTicketID | internal/repository/trip_repository.go:61-74 | the ticket's trip with the earliest entry, or none (not an error) when the ticket has no trip |
| TripRepository.FindByAssignmentID | internal/service/trip_service.go:517 | the trip recorded for the assignment, or none exactly when no trip references it |
| TripRepository.ToEntry | internal/repository/trip_repository.go:105-118 | a journal row carries the trip's id, times, polygon, both plates and both volumes, the contractor of its ticket and the status text, and net volume = (the trip's entry volume or 0) − (its exit volume or 0) |
| TripRepository.ContractorOf | internal/repository/trip_repository.go:112-121 | the LEFT JOIN gives a contractor exactly when the trip names a ticket that exists, and then it is that ticket's contractor |
| TripRepository.ListReceptionJournal | internal/repository/trip_repository.go:103-153 | one row for every trip that has a polygon and passes every supplied filter (polygons only when the list is non-empty, inclusive dates, contractor, status), and no other; net volume by the formula; newest entry first |
| AssignmentRepository.GetByID | internal/repository/assignment_repository.go:27-37 | the assignment with the id, or record-not-found exactly when no row has it |
| AssignmentRepository.Delete | internal/repository/assignment_repository.go:43-52 | soft delete: the row stays, inactive, with its unassignment time set; no other row changes |
| AssignmentRepository.UpdateDriverMarkStatus | internal/repository/assignment_repository.go:63-67 | only the mark status of that row changes |
| AssignmentRepository.UpdateTripStartedAt | internal/repository/assignment_repository.go:70-77 | only the start stamp and the mark status of that row change |
| AssignmentRepository.UpdateTripFinishedAt | internal/repository/assignment_repository.go:80-87 | only the finish stamp and the mark status of that row change |
| AssignmentRepository.HasActiveAssignment | internal/repository/assignment_repository.go:89-98 | true exactly when an active row binds the driver to the ticket |
| AssignmentRepository.FindActiveByDriver | internal/repository/assignment_repository.go:100-113 | the driver's active assignment with the latest assignment time, or none (not an error) |
| AssignmentRepository.FindActiveByVehicle | internal/repository/assignment_repository.go:115-128 | the vehicle's active assignment with the latest assignment time, or none (not an error) |
| AssignmentRepository.ListByTicketID | internal/repository/assignment_repository.go:54-61 | exactly the ticket's active assignments, newest first |
| AssignmentRepository.GetVehiclePlateNumber | internal/repository/assignment_repository.go:132-151 | the plate of the vehicle; an error exactly when the vehicle row is absent |
| AssignmentRepository.DeleteDeactivates | internal/repository/assignment_repository.go:43-52 | once the only binding of a driver to a ticket is deleted, the driver has no active assignment on it |
| TicketLifecycle.SaveKeepsStamps | internal/repository/ticket_repository.go:37-39 | saving a ticket whose fact stamps only grow keeps every set stamp and keeps the tables well keyed |
| TicketLifecycle.Create | internal/service/ticket_service.go:50-121 | PermissionDenied for a non-KGU caller; InvalidInput for malformed ids or times or an end not after the start; otherwise a new PLANNED ticket without fact stamps, created by the caller's organisation, appended with a fresh id |
| TicketLifecycle.CreateIgnoresGrant | internal/service/ticket_service.go:103-118 | whether the cleaning-area access grant succeeds never changes the result of `Create` or the tickets written |
| TicketLifecycle.CanAccessTicket | internal/service/ticket_service.go:438-457 | Akimat sees every ticket; KGU its own organisation's; a contractor the tickets it executes; a driver those it has an active assignment on; other roles none |
| TicketLifecycle.Get | internal/service/ticket_service.go:132-150 | NotFound for an unknown id; otherwise the ticket exactly when the caller may access it, else PermissionDenied |
| TicketLifecycle.ListTickets | internal/service/ticket_service.go:152-172 | denied to roles that see no tickets; otherwise only accessible tickets, newest first |
| TicketLifecycle.ListShowsAccessible | internal/service/ticket_service.go:152-172 | without other filters, a ticket is listed exactly when the caller may access it |
| TicketLifecycle.Cancel | internal/service/ticket_service.go:174-209 | only KGU; Conflict exactly when the ticket has started or has a trip; otherwise the ticket becomes CANCELLED with every other field kept, and no other row of any table changes |
| TicketLifecycle.CancelIgnoresStatus | internal/service/ticket_service.go:192-208 | the outcome of `Cancel` does not depend on the ticket's current status |
| TicketLifecycle.CompletedAt | internal/service/ticket_service.go:276-281 | completing sets COMPLETED and stamps the end only when unset; an existing end stamp is never overwritten |
| TicketLifecycle.Close | internal/service/ticket_service.go:211-236 | only KGU; Conflict unless COMPLETED; otherwise only the ticket's status becomes CLOSED, and no other row of any table changes |
| TicketLifecycle.Complete | internal/service/ticket_service.go:238-282 | only the ticket's contractor; Conflict exactly when an incomplete trip or incomplete active assignment exists; otherwise the ticket is completed, keeping a set end stamp, and no other row changes |
| TicketLifecycle.CompleteIgnoresStatus | internal/service/ticket_service.go:238-282 | the outcome of `Complete` does not depend on the ticket's current status |
| TicketLifecycle.OnTripCreated | internal/service/ticket_service.go:377-400 | an unknown ticket is record-not-found; a PLANNED, unstarted ticket with at least one trip becomes IN_PROGRESS with the start stamped and no other row changes; otherwise nothing changes |
| TicketLifecycle.TryAutoComplete | internal/service/ticket_service.go:403-436 | never Conflict; an IN_PROGRESS ticket without incomplete trips or assignments is completed (keeping a set end stamp) and no other row changes; otherwise nothing changes |
| TicketLifecycle.TryAutoCompleteIdempotent | internal/service/ticket_service.go:403-436 | calling auto-completion twice, at any two times, equals calling it once |
| TicketService.Create | internal/service/ticket_service.go:50-121 | performs exactly the step `TicketLifecycle.Create` describes |
| TicketService.Cancel | internal/service/ticket_service.go:174-209 | performs exactly the step `TicketLifecycle.Cancel` describes |
| TicketService.Close | internal/service/ticket_service.go:211-236 | performs exactly the step `TicketLifecycle.Close` describes |
| TicketService.Complete | internal/service/ticket_service.go:238-282 | performs exactly the step `TicketLifecycle.Complete` describes |
| TicketService.OnTripCreated | internal/service/ticket_service.go:377-400 | performs exactly the step `TicketLifecycle.OnTripCreated` describes |
| TicketService.TryAutoComplete | internal/service/ticket_service.go:403-436 | performs exactly the step `TicketLifecycle.TryAutoComplete` describes |
| TripLifecycle.ResolveAssignment | internal/service/trip_service.go:171-214 | the explicit assignment first (NotFound if absent, Conflict if inactive), then the driver's active assignment, then the vehicle's latest active one; none only when all three fail |
| TripLifecycle.Attribute | internal/service/trip_service.go:186-214 | a resolved assignment overrides the ticket, assignment, driver and vehicle ids; without one the parsed inputs are kept |
| TripLifecycle.RecordedTrip | internal/service/trip_service.go:231-254 | the trip carries the attribution and the input times; its status is NO_ASSIGNMENT exactly when no ticket was resolved, else the caller's status |
| TripLifecycle.Create | internal/service/trip_service.go:66-268 | InvalidInput for any malformed id or time before any lookup; then the assignment resolution's error, if any, with nothing written; otherwise exactly the recording of the trip attributed from the resolved assignment |
| TripLifecycle.Record | internal/service/trip_service.go:216-268 | NotFound for a missing attributed ticket and Conflict for a terminal one, with nothing written; otherwise the trip built from the input and the attribution is returned and appended with a fresh id, and `OnTripCreated` runs for its ticket |
| TripLifecycle.CreateStartsTicket | internal/service/trip_service.go:261-265 | recording a trip for a PLANNED, unstarted ticket moves it to IN_PROGRESS with the start stamped |
| TripLifecycle.VolumeSumNonNegative | internal/service/trip_service.go:445-452 | the volume sum of non-negative event volumes is non-negative |
| TripLifecycle.VolumeSumWithoutVolumes | internal/service/trip_service.go:445-452 | events without a volume sum to zero |
| TripLifecycle.EntryEventsCall | internal/service/trip_service.go:424-432 | the ANPR query asks for entry events over exactly the assignment's start–finish window |
| TripLifecycle.CalculateVolume | internal/service/trip_service.go:398-471 | fails on a missing stamp, an unknown vehicle, an empty normalised plate or a failed ANPR call; otherwise the sum of the present event volumes |
| TripLifecycle.AutoTrip | internal/service/trip_service.go:543-558 | an auto-created trip spans the assignment's start to finish, carries its ids and the volume, is OK, and has no exit event ids |
| TripLifecycle.RecordedPlate | internal/service/trip_service.go:506-514 | a failed plate lookup records the empty plate |
| TripLifecycle.CompleteTrip | internal/service/trip_service.go:475-577 | fails exactly for an unknown assignment (NotFound) or a missing stamp; otherwise the volume is the calculated one, 0 when it cannot be calculated, and the step is exactly the in-place finishing of the assignment's trip when it has one, else exactly the auto-trip creation; the trip is OK and ends at the finish stamp; assignments are untouched |
| TripLifecycle.FinishExisting | internal/service/trip_service.go:517-540 | the existing trip gets the finish time, the volume, status OK and the auto-created flag, in place, and is still the assignment's trip |
| TripLifecycle.CreateAutoTrip | internal/service/trip_service.go:543-571 | the auto-created trip is appended with a fresh id and becomes the assignment's trip; the new world is exactly the ticket's `OnTripCreated` reaction to that append; assignments are untouched |
| TripLifecycle.CompleteTripTwiceKeepsOneTrip | internal/service/trip_service.go:517-558 | reconciling an assignment twice leaves one trip for it: the second call updates instead of inserting |
| TripLifecycle.AutoCreatedTripBlocksCompletion | internal/service/trip_service.go:543-558 | a newly auto-created trip counts as incomplete for its ticket |
| TripLifecycle.ListByTicketID | internal/service/trip_service.go:270-308 | NotFound for an unknown ticket; by role, the ticket's trips (a driver only its own) or PermissionDenied; newest first |
| TripLifecycle.GetByID | internal/service/trip_service.go:310-346 | NotFound for an unknown trip; the trip only when its ticket is accessible to the caller |
| TripLifecycle.ReceptionJournal | internal/service/trip_service.go:365-393 | only landfill callers; the journal rows, their count, and the total as the sum of net volumes |
| TripLifecycle.JournalTotalSplits | internal/service/trip_service.go:384-386 | the journal total equals total entry volume minus total exit volume |
| TripService.Create | internal/service/trip_service.go:66-268 | performs exactly the step `TripLifecycle.Create` describes |
| TripService.Record | internal/service/trip_service.go:216-268 | performs exactly the step `TripLifecycle.Record` describes |
| TripService.CalculateVolumeForAssignment | internal/service/trip_service.go:398-471 | returns exactly `TripLifecycle.CalculateVolume` |
| TripService.SumEventVolumes | internal/service/trip_service.go:445-452 | the accumulator loop returns the sum of the present event volumes |
| TripService.CompleteTripAndCalculateVolume | internal/service/trip_service.go:475-577 | performs exactly the step `TripLifecycle.CompleteTrip` describes |
| TripService.FinishExisting | internal/service/trip_service.go:517-540 | performs exactly the step `TripLifecycle.FinishExisting` describes |
| TripService.RecordAutoTrip | internal/service/trip_service.go:543-558 | performs exactly the step `TripLifecycle.CreateAutoTrip` describes |
| TripService.GetReceptionJournal | internal/service/trip_service.go:365-393 | returns exactly `TripLifecycle.ReceptionJournal` |
| TripService.SumNetVolumes | internal/service/trip_service.go:384-386 | the accumulator loop returns the sum of the entries' net volumes |
| AssignmentLifecycle.MutableIffNotTerminal | internal/service/assignment_service.go:273-280 | assignments may change exactly while the ticket is not COMPLETED, CLOSED or CANCELLED |
| AssignmentLifecycle.Create | internal/service/assignment_service.go:42-92 | only the ticket's contractor; InvalidInput for a malformed id; Conflict exactly when the ticket is not PLANNED or IN_PROGRESS; otherwise a new active NOT_STARTED assignment, found under its fresh id |
| AssignmentLifecycle.CreateBlocksCompletion | internal/service/assignment_service.go:75-85 | a newly created assignment counts as incomplete for its ticket |
| AssignmentLifecycle.Delete | internal/service/assignment_service.go:94-122 | only the ticket's contractor; Conflict unless PLANNED or IN_PROGRESS; otherwise the assignment is soft-deleted and nothing else changes |
| AssignmentLifecycle.DeleteUnblocks | internal/service/assignment_service.go:94-122 | a deleted assignment no longer counts as incomplete |
| AssignmentLifecycle.UpdateDriverMarkStatus | internal/service/assignment_service.go:124-220 | PermissionDenied for a non-driver, a caller without a driver id or another driver's assignment; NotFound for an unknown one; Conflict on a terminal ticket or an out-of-order mark; once the guards pass, exactly the step `Mark` describes; success exactly when allowed and in order; failures change nothing; stamps stay ordered and write-once |
| AssignmentLifecycle.StartWork | internal/service/assignment_service.go:154-195 | IN_WORK: Conflict when already started; otherwise only the assignment's start stamp and mark are set, and a PLANNED, unstarted ticket moves to IN_PROGRESS with its start stamped while every other ticket is kept |
| AssignmentLifecycle.Mark | internal/service/assignment_service.go:152-183 | once the guards passed: IN_WORK is exactly `StartWork`, COMPLETED exactly `FinishWork`, any other mark exactly `MarkOnly`; Conflict when the stamps do not admit the status; in a valid store, success exactly when the stamps admit it, failures change nothing, and stamps stay ordered and write-once |
| AssignmentLifecycle.StartWorkKeeps | internal/service/assignment_service.go:154-195 | the IN_WORK mark keeps keys distinct and stamps write-once and ordered |
| AssignmentLifecycle.MarkOnly | internal/service/assignment_service.go:178-183 | any other mark only rewrites the mark status of that assignment; no other row of any table changes |
| AssignmentLifecycle.FinishWork | internal/service/assignment_service.go:164-216 | COMPLETED: Conflict unless started and not finished; otherwise the finish stamp, the trip reconciliation whatever its outcome, then auto-completion, whose outcome is returned |
| AssignmentLifecycle.FinishWorkKeeps | internal/service/assignment_service.go:164-216 | the three steps of COMPLETED together keep the stamps ordered and write-once, and keep the tables well keyed |
| AssignmentLifecycle.MarkTwiceConflicts | internal/service/assignment_service.go:154-177 | repeating a successful IN_WORK or COMPLETED mark gives Conflict: neither stamp is set twice |
| AssignmentLifecycle.StartThenFinish | internal/service/assignment_service.go:154-177 | on an allowed assignment with neither stamp, IN_WORK then COMPLETED both succeed and leave both stamps set, with the COMPLETED mark |
| AssignmentLifecycle.InWorkKeepsMarkAllowed | internal/service/assignment_service.go:143-163 | after IN_WORK the store is still valid, the row holds the start stamp, and the ticket still passes the guards of the next mark |
| AssignmentLifecycle.UnrecordedTripBlocksAutoCompletion | internal/service/assignment_service.go:197-216 | completing an assignment without a recorded trip auto-creates one that blocks the ticket's completion |
| AssignmentLifecycle.ListByTicketID | internal/service/assignment_service.go:222-271 | NotFound for an unknown ticket; by role, the ticket's active assignments, or for a driver with an active assignment only its own; newest first |
| AssignmentService.Create | internal/service/assignment_service.go:42-92 | performs exactly the step `AssignmentLifecycle.Create` describes |
| AssignmentService.Delete | internal/service/assignment_service.go:94-122 | performs exactly the step `AssignmentLifecycle.Delete` describes |
| AssignmentService.UpdateDriverMarkStatus | internal/service/assignment_service.go:124-220 | performs exactly the step `AssignmentLifecycle.UpdateDriverMarkStatus` describes |
| AssignmentService.StartWork | internal/service/assignment_service.go:154-195 | performs exactly the step `AssignmentLifecycle.StartWork` describes |
| AssignmentService.FinishWork | internal/service/assignment_service.go:164-216 | performs exactly the step `AssignmentLifecycle.FinishWork` describes |
| AssignmentService.ListByTicketID | internal/service/assignment_service.go:222-271 | returns exactly `AssignmentLifecycle.ListByTicketID` |
| AssignmentService.FilterByDriver | internal/service/assignment_service.go:259-264 | the append loop keeps exactly the driver's assignments, in listed order |
| AppealLifecycle.GetAppeal | internal/repository/appeal_repository.go:25-35 | the appeal with the id, or record-not-found exactly when no row has it |
| AppealLifecycle.ListAppealsByTicket | internal/repository/appeal_repository.go:41-48 | exactly the ticket's appeals, newest first |
| AppealLifecycle.ListAppealsByUser | internal/repository/appeal_repository.go:59-66 | exactly the appeals the user filed, newest first |
| AppealLifecycle.CommentsOf | internal/repository/appeal_repository.go:68-75 | exactly the appeal's comments, oldest first |
| AppealLifecycle.Create | internal/service/appeal_service.go:41-102 | PermissionDenied for a non-driver; InvalidInput for an unknown reason type, checked before the trip id; NotFound for an unknown trip; PermissionDenied for another driver's trip; Conflict for an OK trip; otherwise a SUBMITTED appeal whose reason is the trip's status and whose ticket is the trip's |
| AppealLifecycle.ListByTicketID | internal/service/appeal_service.go:104-132 | NotFound for an unknown ticket; by role, the ticket's appeals, or for a driver all its own appeals; newest first |
| AppealLifecycle.ListDriverAppeals | internal/service/appeal_service.go:134-171 | drivers only; with a ticket, an active assignment on it is required and only the caller's appeals on it are returned; without one, all the caller's appeals |
| AppealLifecycle.ReadAccess | internal/service/appeal_service.go:182-211 | Akimat always; KGU for tickets of its organisation; a contractor for its tickets; a driver for its own appeals; others never |
| AppealLifecycle.ContractorAccess | internal/service/appeal_service.go:265-274 | a contractor may act on an appeal without a ticket or on one of its own tickets |
| AppealLifecycle.CommentAccess | internal/service/appeal_service.go:258-277 | a driver on its own appeal; KGU and Akimat always; a contractor as for reading; others never |
| AppealLifecycle.CommentAccessWidensRead | internal/service/appeal_service.go:182-211 | whoever may read an appeal may comment on it; the rights agree except for KGU, which may comment on another organisation's appeal it cannot read |
| AppealLifecycle.GetByID | internal/service/appeal_service.go:173-214 | NotFound for an unknown appeal; the appeal exactly when the caller may read it |
| AppealLifecycle.UpdateStatus | internal/service/appeal_service.go:216-247 | only KGU (for its own tickets) or Akimat; NotFound for an unknown appeal; otherwise the status is set and the admin response only when one is supplied |
| AppealLifecycle.ReviewKeepsResponse | internal/service/appeal_service.go:241-244 | a review without a response keeps the previous admin response |
| AppealLifecycle.AddComment | internal/service/appeal_service.go:249-286 | NotFound for an unknown appeal; with comment access, the caller's comment is appended with a fresh id |
| AppealLifecycle.GetComments | internal/service/appeal_service.go:288-319 | NotFound for an unknown appeal; with comment access, exactly the appeal's comments, oldest first |
| AppealLifecycle.CommentRightsAgree | internal/service/appeal_service.go:249-319 | adding a comment fails exactly when reading the comments fails, and with the same error |
| AppealLifecycle.CommentIsListed | internal/service/appeal_service.go:249-319 | a comment just added is listed to any KGU or Akimat caller |
| AppealService.Create | internal/service/appeal_service.go:41-102 | performs exactly the step `AppealLifecycle.Create` describes |
| AppealService.ListByTicketID | internal/service/appeal_service.go:104-132 | returns exactly `AppealLifecycle.ListByTicketID` |
| AppealService.ListDriverAppeals | internal/service/appeal_service.go:134-171 | returns exactly `AppealLifecycle.ListDriverAppeals` |
| AppealService.FilterByCreator | internal/service/appeal_service.go:161-167 | the append loop keeps exactly the caller's appeals, in listed order |
| AppealService.GetByID | internal/service/appeal_service.go:173-214 | returns exactly `AppealLifecycle.GetByID` |
| AppealService.CheckReadAccess | internal/service/appeal_service.go:182-211 | decides exactly `AppealLifecycle.ReadAccess` |
| AppealService.CheckContractorAccess | internal/service/appeal_service.go:265-274 | decides exactly `AppealLifecycle.ContractorAccess` |
| AppealService.UpdateStatus | internal/service/appeal_service.go:216-247 | performs exactly the step `AppealLifecycle.UpdateStatus` describes |
| AppealService.CheckCommentAccess | internal/service/appeal_service.go:258-277 | decides exactly `AppealLifecycle.CommentAccess` |
| AppealService.AddComment | internal/service/appeal_service.go:249-286 | performs exactly the step `AppealLifecycle.AddComment` describes |
| AppealService.GetComments | internal/service/appeal_service.go:288-319 | returns exactly `AppealLifecycle.GetComments` |
| Navigation.LastPosition | internal/repository/vehicle_position_repository.go:20-33 | the vehicle's most recently recorded position, or none exactly when it has none |
| Navigation.Truncate | internal/service/navigation_service.go:187 | conversion to an integer truncates toward zero |
| Navigation.ModeOf | internal/service/navigation_service.go:122-128 | ON_POLYGON exactly inside the polygon; TO_POLYGON inside the area only; TO_CLEANING_AREA otherwise |
| Navigation.StateOf | internal/service/navigation_service.go:130-136 | INSIDE_POLYGON exactly inside the polygon; INSIDE_AREA inside the area only; OUTSIDE otherwise |
| Navigation.ModeMatchesState | internal/service/navigation_service.go:122-136 | the mode and the state always name the same situation |
| Navigation.GoalPolygonId | internal/service/navigation_service.go:111-115 | the area's default polygon when the area is found, else the vehicle's default |
| Navigation.TargetPoints | internal/service/navigation_service.go:153-170 | none without a position; otherwise the area's entry then the polygon's centroid, each when fully known, or the position itself when neither is: one or two points |
| Navigation.Routes | internal/service/navigation_service.go:172-204 | one route per target, in order, from the position to the target, the first "Primary" and the others "Route"; a single zero-length "Stay" route without targets |
| Navigation.Hint | internal/service/navigation_service.go:122-148 | the primary route is the first route and the alternatives are the rest; mode and state follow the position |
| Navigation.ActiveAssignment | internal/service/navigation_service.go:61-71 | none for a non-driver or a caller without a driver id; for a driver, exactly the latest active assignment of that driver |
| Navigation.TargetTicket | internal/service/navigation_service.go:73-80 | the requested ticket when its id parses, else the assignment's ticket |
| Navigation.BuildDriverHint | internal/service/navigation_service.go:60-151 | PermissionDenied for a non-driver; NotFound without an active assignment; the ticket lookup's error; "vehicle not found" and "vehicle position unavailable" each exactly when that lookup fails; otherwise the hint built from the last position, the ticket's cleaning area and the goal polygon the vehicle and area select |
| Navigation.PrimaryTarget | internal/service/navigation_service.go:138-148 | the primary route leads to the area's entry, else to the polygon's centroid, else nowhere; there is an alternative exactly when both are known |
| Navigation.HintHeadsForAreaEntry | internal/service/navigation_service.go:111-148 | a driver's hint leads from the vehicle's last position to the entry of the target ticket's cleaning area whenever that area records one |
| Navigation.BuildTargetPoints | internal/service/navigation_service.go:153-170 | the appends build exactly `Navigation.TargetPoints` |
| Navigation.BuildRoutes | internal/service/navigation_service.go:172-204 | the loop builds exactly `Navigation.Routes` |
| Navigation.BuildDriverHintFrom | internal/service/navigation_service.go:60-151 | returns exactly `Navigation.BuildDriverHint` |
| Navigation.ComposeHint | internal/service/navigation_service.go:122-148 | the reassigned mode and state and the built routes give exactly `Navigation.Hint` |

## Left out

- Network and HTTP:
  - the ANPR client's URL building, request construction, body reading and JSON decoding are abstracted as an oracle of attempt outcomes;
  - URL-parse and request-construction failures are not modelled;
  - the sleeps are recorded as delays, not waited.
- The great-circle distance (`haversine`) and all float arithmetic. Coordinates, distances and volumes are `real`, with no rounding. The distance is a parameter of the navigation functions.
- Database errors other than record-not-found are not modelled. Every query succeeds or finds no row.
- Check-then-act races between concurrent calls. The model runs one operation at a time.
- UUID generation is a counter, `Db.NewId`. Each call takes one `now` reading instead of several `time.Now()` calls.
- `PlateNormalizer.ToUpper`: upper-cases ASCII letters only, because Go's Unicode case mapping is not modelled.
- `GetDetails` and ticket `Delete` in `ticket_service.go` are not part of this model. Neither are the repository queries only they use (`GetTripsByTicketID`, `GetAppealsByTicketID`) or the appeal query `ListByTripID`.
- Logging, and the `eventCount` counter that only feeds a log line.
- The trip service's nil check on its ticket service. The model always wires one in.
- `ORDER BY` ties: rows with equal keys may come back in any order. The model fixes one order and states only the sortedness and the contents.
- A Go nil slice and an empty slice are both `[]`. This includes the hint's alternatives when there is a single route.
- The polygon access grant, which no modelled operation calls. The cleaning-area grant made by ticket creation is modelled as a write to `access`; whether the database accepts it is the parameter `granted`, and its `revoked_at` and `updated_at` columns are not modelled.
- The HTTP layer, the migrations and the configuration.
- AppealLifecycle.Create: requires a driver id whenever the trip's driver is compared with the caller's, so the nil dereference of `principal.DriverID` at `appeal_service.go:72` for a driver without a driver record is not modelled.
