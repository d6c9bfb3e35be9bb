/** The booking controller: the conflict test, the precondition chains of create and
    update, the status-only update and delete, over a booking table. Client and vehicle
    tables are read-only lookups here. */
module BookingController {
  import opened Common
  import opened BookingModel
  import ClientModel
  import VehicleModel

  type Clients = map<Id, ClientModel.ClientRec>
  type Vehicles = map<Id, VehicleModel.VehicleRec>
  type Bookings = map<Id, Booking>

  /** A stored booking the conflict query looks at: same vehicle, Active, and not the
      excluded id when one is given. */
  predicate Considered(store: Bookings, id: Id, vehicleId: Id, excludeId: Option<Id>)
    requires id in store
  {
    store[id].vehicle == vehicleId && store[id].status == Active
    && (excludeId.None? || id != excludeId.value)
  }

  /** `hasConflict`: some considered booking meets one of the three overlap clauses.
      It only reads the table. */
  predicate HasConflict(store: Bookings, vehicleId: Id, start: int, end: int, excludeId: Option<Id>) {
    exists id :: id in store && Considered(store, id, vehicleId, excludeId) && OverlapClauses(store[id], start, end)
  }

  /** With non-empty intervals, `hasConflict` is half-open overlap with some considered booking. */
  lemma HasConflictIsHalfOpenOverlap(store: Bookings, vehicleId: Id, start: int, end: int, excludeId: Option<Id>)
    requires IntervalsNonEmpty(store) && start < end
    ensures HasConflict(store, vehicleId, start, end, excludeId)
            <==> exists id :: id in store && Considered(store, id, vehicleId, excludeId)
                              && HalfOpenOverlap(store[id].startDate, store[id].endDate, start, end)
  {
    forall id | id in store {
      OverlapClausesAreHalfOpen(store[id], start, end);
    }
  }

  /** Bookings that end when the request starts, or start when it ends, do not conflict. */
  lemma BackToBackIsNoConflict(store: Bookings, vehicleId: Id, start: int, end: int, excludeId: Option<Id>)
    requires IntervalsNonEmpty(store) && start < end
    requires forall id :: id in store && Considered(store, id, vehicleId, excludeId)
                          ==> store[id].endDate <= start || store[id].startDate >= end
    ensures !HasConflict(store, vehicleId, start, end, excludeId)
  {
    HasConflictIsHalfOpenOverlap(store, vehicleId, start, end, excludeId);
  }

  /** The pre-save hook, whenever it runs its query, decides exactly as `hasConflict`
      excluding the document's own id. */
  lemma HookAgreesWithHasConflict(store: Bookings, docId: Id, doc: Booking, isNew: bool, modified: set<Path>)
    requires ConflictCheckDue(isNew, modified)
    ensures PreSave(store, docId, doc, isNew, modified) == DoubleBookingError
            <==> HasConflict(store, doc.vehicle, doc.startDate, doc.endDate, Some(docId))
  {
    if HasConflict(store, doc.vehicle, doc.startDate, doc.endDate, Some(docId)) {
      var id :| id in store && Considered(store, id, doc.vehicle, Some(docId)) && OverlapClauses(store[id], doc.startDate, doc.endDate);
      assert BlocksSave(store, id, docId, doc);
    }
  }

  /** Every stored interval is non-empty, and no two Active bookings of one vehicle
      overlap as half-open intervals. */
  ghost predicate NoDoubleBooking(store: Bookings) {
    && IntervalsNonEmpty(store)
    && forall i, j :: i in store && j in store && i != j
                      && store[i].vehicle == store[j].vehicle
                      && store[i].status == Active && store[j].status == Active
                      ==> !HalfOpenOverlap(store[i].startDate, store[i].endDate, store[j].startDate, store[j].endDate)
  }

  datatype CreateRequest = CreateRequest(client: Option<Id>, vehicle: Option<Id>, startDate: DateInput, endDate: DateInput)

  datatype UpdateRequest = UpdateRequest(client: Option<Id>, vehicle: Option<Id>, startDate: DateInput, endDate: DateInput, status: Option<string>)

  datatype Failure =
    | InvalidBookingId
    | MissingFields
    | ClientNotFound
    | VehicleNotFound
    | ClientOrVehicleNotFound
    | ClientSuspended
    | InvalidDateFormat
    | StartInPast
    | EndNotAfterStart
    | VehicleUnavailable
    | InvalidStatus
    | BookingNotFound

  /** The HTTP status each failure is answered with. */
  function HttpStatus(f: Failure): (code: int)
    ensures code == 403 <==> f.ClientSuspended?
    ensures code == 404 <==> f.BookingNotFound?
    ensures code == 400 <==> !f.ClientSuspended? && !f.BookingNotFound?
  {
    match f
    case ClientSuspended => 403
    case BookingNotFound => 404
    case _ => 400
  }

  /** The request fails, on its own, the check of createBooking that reports `f`. */
  predicate CreateViolates(f: Failure, clients: Clients, vehicles: Vehicles, bookings: Bookings, req: CreateRequest, todayMidnight: int) {
    match f
    case MissingFields => req.client.None? || req.vehicle.None? || req.startDate.Missing? || req.endDate.Missing?
    case ClientNotFound => req.client.Some? && req.client.value !in clients
    case VehicleNotFound => req.vehicle.Some? && req.vehicle.value !in vehicles
    case ClientSuspended =>
      req.client.Some? && req.client.value in clients && clients[req.client.value].status == ClientModel.SUSPENDED
    case InvalidDateFormat => req.startDate.Unparseable? || req.endDate.Unparseable?
    case StartInPast => req.startDate.Date? && !StartDateAccepts(req.startDate.time, todayMidnight)
    case EndNotAfterStart =>
      req.startDate.Date? && req.endDate.Date? && !EndDateAccepts(req.startDate.time, req.endDate.time)
    case VehicleUnavailable =>
      req.vehicle.Some? && req.startDate.Date? && req.endDate.Date?
      && HasConflict(bookings, req.vehicle.value, req.startDate.time, req.endDate.time, None)
    case _ => false
  }

  /** The position of each check in createBooking. */
  function CreateRank(f: Failure): nat {
    match f
    case MissingFields => 1
    case ClientNotFound => 2
    case VehicleNotFound => 3
    case ClientSuspended => 4
    case InvalidDateFormat => 5
    case StartInPast => 6
    case EndNotAfterStart => 7
    case VehicleUnavailable => 8
    case _ => 9
  }

  /** The decision of createBooking: it succeeds exactly when no check is violated, with
      an Active booking of the requested client, vehicle and interval; otherwise it
      reports the earliest violated check. */
  function CheckCreate(clients: Clients, vehicles: Vehicles, bookings: Bookings, req: CreateRequest, todayMidnight: int): (r: Outcome<Booking, Failure>)
    ensures r.Fail? ==> CreateViolates(r.failure, clients, vehicles, bookings, req, todayMidnight)
    ensures r.Ok? ==> forall f :: !CreateViolates(f, clients, vehicles, bookings, req, todayMidnight)
    ensures r.Ok? ==> && req.client.Some? && req.vehicle.Some? && req.startDate.Date? && req.endDate.Date?
                      && r.value == Booking(req.client.value, req.vehicle.value, req.startDate.time, req.endDate.time, Active)
    ensures r.Fail? ==> forall f :: CreateRank(f) < CreateRank(r.failure) ==> !CreateViolates(f, clients, vehicles, bookings, req, todayMidnight)
  {
    if req.client.None? || req.vehicle.None? || req.startDate.Missing? || req.endDate.Missing? then Fail(MissingFields)
    else if req.client.value !in clients then Fail(ClientNotFound)
    else if req.vehicle.value !in vehicles then Fail(VehicleNotFound)
    else if clients[req.client.value].status == ClientModel.SUSPENDED then Fail(ClientSuspended)
    else if req.startDate.Unparseable? || req.endDate.Unparseable? then Fail(InvalidDateFormat)
    else if req.startDate.time < todayMidnight then Fail(StartInPast)
    else if req.endDate.time <= req.startDate.time then Fail(EndNotAfterStart)
    else if HasConflict(bookings, req.vehicle.value, req.startDate.time, req.endDate.time, None) then Fail(VehicleUnavailable)
    else Ok(Booking(req.client.value, req.vehicle.value, req.startDate.time, req.endDate.time, Active))
  }

  /** The request fails, on its own, the check of updateBooking that reports `f`. */
  predicate UpdateViolates(f: Failure, clients: Clients, vehicles: Vehicles, bookings: Bookings, id: Option<Id>, req: UpdateRequest) {
    match f
    case InvalidBookingId => id.None?
    case ClientOrVehicleNotFound =>
      req.client.None? || req.client.value !in clients || req.vehicle.None? || req.vehicle.value !in vehicles
    case ClientSuspended =>
      req.client.Some? && req.client.value in clients && clients[req.client.value].status == ClientModel.SUSPENDED
    case InvalidDateFormat => !req.startDate.Date? || !req.endDate.Date?
    case EndNotAfterStart =>
      req.startDate.Date? && req.endDate.Date? && !EndDateAccepts(req.startDate.time, req.endDate.time)
    case VehicleUnavailable =>
      id.Some? && req.vehicle.Some? && req.startDate.Date? && req.endDate.Date?
      && HasConflict(bookings, req.vehicle.value, req.startDate.time, req.endDate.time, Some(id.value))
    case BookingNotFound => id.Some? && id.value !in bookings
    case _ => false
  }

  /** The position of each check in updateBooking. */
  function UpdateRank(f: Failure): nat {
    match f
    case InvalidBookingId => 1
    case ClientOrVehicleNotFound => 2
    case ClientSuspended => 3
    case InvalidDateFormat => 4
    case EndNotAfterStart => 5
    case VehicleUnavailable => 6
    case BookingNotFound => 7
    case _ => 8
  }

  /** The decision of updateBooking (`id` is None when it is not a well-formed id). It
      succeeds exactly when no check is violated, replacing client, vehicle and interval
      and writing the status as supplied (kept when absent); otherwise it reports the
      earliest violated check. */
  function CheckUpdate(clients: Clients, vehicles: Vehicles, bookings: Bookings, id: Option<Id>, req: UpdateRequest): (r: Outcome<Booking, Failure>)
    ensures r.Fail? ==> UpdateViolates(r.failure, clients, vehicles, bookings, id, req)
    ensures r.Ok? ==> forall f :: !UpdateViolates(f, clients, vehicles, bookings, id, req)
    ensures r.Ok? ==> id.Some? && id.value in bookings
                      && req.client.Some? && req.vehicle.Some? && req.startDate.Date? && req.endDate.Date?
                      && r.value == Booking(req.client.value, req.vehicle.value, req.startDate.time, req.endDate.time,
                                            if req.status.Some? then req.status.value else bookings[id.value].status)
    ensures r.Fail? ==> forall f :: UpdateRank(f) < UpdateRank(r.failure) ==> !UpdateViolates(f, clients, vehicles, bookings, id, req)
  {
    if id.None? then Fail(InvalidBookingId)
    else if req.client.None? || req.client.value !in clients || req.vehicle.None? || req.vehicle.value !in vehicles then Fail(ClientOrVehicleNotFound)
    else if clients[req.client.value].status == ClientModel.SUSPENDED then Fail(ClientSuspended)
    else if !req.startDate.Date? || !req.endDate.Date? then Fail(InvalidDateFormat)
    else if req.endDate.time <= req.startDate.time then Fail(EndNotAfterStart)
    else if HasConflict(bookings, req.vehicle.value, req.startDate.time, req.endDate.time, Some(id.value)) then Fail(VehicleUnavailable)
    else if id.value !in bookings then Fail(BookingNotFound)
    else
      var status := if req.status.Some? then req.status.value else bookings[id.value].status;
      Ok(Booking(req.client.value, req.vehicle.value, req.startDate.time, req.endDate.time, status))
  }

  /** The decision of updateBookingStatus: only a well-formed id, a status of the
      enumeration and an existing booking succeed, and then only the status changes. */
  function CheckStatusUpdate(bookings: Bookings, id: Option<Id>, status: Option<string>): (r: Outcome<Booking, Failure>)
    ensures id.None? ==> r == Fail(InvalidBookingId)
    ensures id.Some? && !(status.Some? && IsBookingStatus(status.value)) ==> r == Fail(InvalidStatus)
    ensures id.Some? && status.Some? && IsBookingStatus(status.value) && id.value !in bookings ==> r == Fail(BookingNotFound)
    ensures r.Ok? <==> id.Some? && status.Some? && IsBookingStatus(status.value) && id.value in bookings
    ensures r.Ok? ==> var old_ := bookings[id.value];
                      && r.value.status == status.value
                      && r.value.client == old_.client && r.value.vehicle == old_.vehicle
                      && r.value.startDate == old_.startDate && r.value.endDate == old_.endDate
  {
    if id.None? then Fail(InvalidBookingId)
    else if status.None? || !IsBookingStatus(status.value) then Fail(InvalidStatus)
    else if id.value !in bookings then Fail(BookingNotFound)
    else Ok(bookings[id.value].(status := status.value))
  }

  /** The decision of deleteBooking. */
  function CheckDelete(bookings: Bookings, id: Option<Id>): (r: Outcome<Id, Failure>)
    ensures id.None? ==> r == Fail(InvalidBookingId)
    ensures r.Ok? <==> id.Some? && id.value in bookings
    ensures r.Ok? ==> r.value == id.value
    ensures id.Some? && id.value !in bookings ==> r == Fail(BookingNotFound)
  {
    if id.None? then Fail(InvalidBookingId)
    else if id.value !in bookings then Fail(BookingNotFound)
    else Ok(id.value)
  }

  /** Adding a booking whose interval is non-empty and that `hasConflict` does not
      report keeps the table free of double bookings. */
  lemma {:induction false} InsertWithoutConflictPreserves(bookings: Bookings, id: Id, b: Booking, excludeId: Option<Id>)
    requires NoDoubleBooking(bookings) && b.startDate < b.endDate
    requires excludeId.None? || excludeId.value == id
    requires !HasConflict(bookings, b.vehicle, b.startDate, b.endDate, excludeId)
    ensures NoDoubleBooking(bookings[id := b])
  {
    var s := bookings[id := b];
    forall j | j in bookings && j != id && bookings[j].vehicle == b.vehicle && bookings[j].status == Active
      ensures !HalfOpenOverlap(bookings[j].startDate, bookings[j].endDate, b.startDate, b.endDate)
    {
      assert Considered(bookings, j, b.vehicle, excludeId);
      OverlapClausesAreHalfOpen(bookings[j], b.startDate, b.endDate);
    }
    forall i, j | i in s && j in s && i != j && s[i].vehicle == s[j].vehicle && s[i].status == Active && s[j].status == Active
      ensures !HalfOpenOverlap(s[i].startDate, s[i].endDate, s[j].startDate, s[j].endDate)
    {
      if i != id && j != id {
        assert s[i] == bookings[i] && s[j] == bookings[j];
      }
    }
  }

  /** A successful create keeps the table free of double bookings. */
  lemma CreatePreservesNoDoubleBooking(clients: Clients, vehicles: Vehicles, bookings: Bookings, req: CreateRequest, todayMidnight: int, newId: Id)
    requires NoDoubleBooking(bookings) && newId !in bookings
    requires CheckCreate(clients, vehicles, bookings, req, todayMidnight).Ok?
    ensures NoDoubleBooking(bookings[newId := CheckCreate(clients, vehicles, bookings, req, todayMidnight).value])
  {
    var b := CheckCreate(clients, vehicles, bookings, req, todayMidnight).value;
    assert !CreateViolates(VehicleUnavailable, clients, vehicles, bookings, req, todayMidnight);
    assert !CreateViolates(EndNotAfterStart, clients, vehicles, bookings, req, todayMidnight);
    InsertWithoutConflictPreserves(bookings, newId, b, None);
  }

  /** A successful update keeps the table free of double bookings, whatever status it
      writes: the conflict check ran against every other booking. */
  lemma UpdatePreservesNoDoubleBooking(clients: Clients, vehicles: Vehicles, bookings: Bookings, id: Option<Id>, req: UpdateRequest)
    requires NoDoubleBooking(bookings)
    requires CheckUpdate(clients, vehicles, bookings, id, req).Ok?
    ensures NoDoubleBooking(bookings[id.value := CheckUpdate(clients, vehicles, bookings, id, req).value])
  {
    var b := CheckUpdate(clients, vehicles, bookings, id, req).value;
    assert !UpdateViolates(VehicleUnavailable, clients, vehicles, bookings, id, req);
    assert !UpdateViolates(EndNotAfterStart, clients, vehicles, bookings, id, req);
    InsertWithoutConflictPreserves(bookings, id.value, b, id);
  }

  /** A booking accepted by createBooking also passes the schema's validators and the
      pre-save hook, so the write that follows is not refused. */
  lemma CreatedBookingPassesSchema(clients: Clients, vehicles: Vehicles, bookings: Bookings, req: CreateRequest, todayMidnight: int, newId: Id)
    requires newId !in bookings
    requires CheckCreate(clients, vehicles, bookings, req, todayMidnight).Ok?
    ensures var b := CheckCreate(clients, vehicles, bookings, req, todayMidnight).value;
            SaveNew(bookings, newId, b, todayMidnight) == Ok(b)
  {
    var b := CheckCreate(clients, vehicles, bookings, req, todayMidnight).value;
    assert !CreateViolates(VehicleUnavailable, clients, vehicles, bookings, req, todayMidnight);
    assert !CreateViolates(StartInPast, clients, vehicles, bookings, req, todayMidnight);
    assert !CreateViolates(EndNotAfterStart, clients, vehicles, bookings, req, todayMidnight);
    HookAgreesWithHasConflict(bookings, newId, b, true, {});
    forall id | id in bookings && Considered(bookings, id, b.vehicle, Some(newId))
      ensures !OverlapClauses(bookings[id], b.startDate, b.endDate)
    {
      assert Considered(bookings, id, b.vehicle, None);
    }
  }

  /** A suspended client is refused with 403 by both create and update, whatever the
      dates, once the referenced records exist. */
  lemma SuspendedClientForbidden(clients: Clients, vehicles: Vehicles, bookings: Bookings, req: CreateRequest, todayMidnight: int, id: Id, upd: UpdateRequest)
    requires req.client.Some? && req.vehicle.Some? && !req.startDate.Missing? && !req.endDate.Missing?
    requires req.client.value in clients && req.vehicle.value in vehicles
    requires clients[req.client.value].status == ClientModel.SUSPENDED
    requires upd.client == req.client && upd.vehicle == req.vehicle
    ensures CheckCreate(clients, vehicles, bookings, req, todayMidnight) == Fail(ClientSuspended)
    ensures CheckUpdate(clients, vehicles, bookings, Some(id), upd) == Fail(ClientSuspended)
    ensures HttpStatus(ClientSuspended) == 403
  {
  }

  /** A booking never conflicts with itself on update: excluding its id decides exactly
      as the table without that booking would. */
  lemma UpdateNeverConflictsWithItself(bookings: Bookings, id: Id, vehicleId: Id, start: int, end: int)
    ensures HasConflict(bookings, vehicleId, start, end, Some(id))
            == HasConflict(bookings - {id}, vehicleId, start, end, None)
  {
    var rest := bookings - {id};
    if HasConflict(bookings, vehicleId, start, end, Some(id)) {
      var j :| j in bookings && Considered(bookings, j, vehicleId, Some(id)) && OverlapClauses(bookings[j], start, end);
      assert j in rest && Considered(rest, j, vehicleId, None) && OverlapClauses(rest[j], start, end);
    }
    if HasConflict(rest, vehicleId, start, end, None) {
      var j :| j in rest && Considered(rest, j, vehicleId, None) && OverlapClauses(rest[j], start, end);
      assert j in bookings && Considered(bookings, j, vehicleId, Some(id)) && OverlapClauses(bookings[j], start, end);
    }
  }

  /** Applying the same status twice gives the same record as applying it once. */
  lemma StatusUpdateIdempotent(bookings: Bookings, id: Option<Id>, status: Option<string>)
    requires CheckStatusUpdate(bookings, id, status).Ok?
    ensures var b := CheckStatusUpdate(bookings, id, status).value;
            CheckStatusUpdate(bookings[id.value := b], id, status) == Ok(b)
  {
  }

  /** Moving a booking to a status other than Active keeps the table free of double
      bookings. */
  lemma StatusNarrowingPreserves(bookings: Bookings, id: Option<Id>, status: Option<string>)
    requires NoDoubleBooking(bookings)
    requires CheckStatusUpdate(bookings, id, status).Ok? && status.value != Active
    ensures NoDoubleBooking(bookings[id.value := CheckStatusUpdate(bookings, id, status).value])
  {
  }

  /** A table with an Active booking and a cancelled one of the same vehicle over
      overlapping dates. */
  function ReactivationTable(): Bookings {
    map[1 := Booking(10, 7, 100, 200, Active), 2 := Booking(11, 7, 150, 250, Cancelled)]
  }

  /** updateBookingStatus runs no conflict check, so re-activating a booking can break
      the no-double-booking property. */
  lemma ReactivationBreaksNoDoubleBooking()
    ensures NoDoubleBooking(ReactivationTable())
    ensures CheckStatusUpdate(ReactivationTable(), Some(2), Some(Active)) == Ok(Booking(11, 7, 150, 250, Active))
    ensures !NoDoubleBooking(ReactivationTable()[2 := Booking(11, 7, 150, 250, Active)])
  {
    var t := ReactivationTable()[2 := Booking(11, 7, 150, 250, Active)];
    assert t[1].vehicle == t[2].vehicle;
  }

  /** updateBooking writes the status without the enumeration check. */
  lemma UpdateWritesUncheckedStatus()
    ensures var clients := map[10 := ClientModel.ClientRec("Ann Lee", "A1", "0712", None, "KE", "L1", ClientModel.ACTIVE)];
            var vehicles := map[7 := VehicleModel.VehicleRec("Toyota", "Vitz", 2020, None, "KCA 1", VehicleModel.Available, None, None, None, None, 30)];
            var bookings := map[1 := Booking(10, 7, 100, 200, Active)];
            var req := UpdateRequest(Some(10), Some(7), Date(100), Date(200), Some("Paid"));
            CheckUpdate(clients, vehicles, bookings, Some(1), req) == Ok(Booking(10, 7, 100, 200, "Paid"))
            && !IsBookingStatus("Paid")
  {
  }

  /** A start in the past is refused by create but accepted by update. */
  lemma PastStartRefusedOnCreateOnly()
    ensures var clients := map[10 := ClientModel.ClientRec("Ann Lee", "A1", "0712", None, "KE", "L1", ClientModel.ACTIVE)];
            var vehicles := map[7 := VehicleModel.VehicleRec("Toyota", "Vitz", 2020, None, "KCA 1", VehicleModel.Available, None, None, None, None, 30)];
            var bookings := map[1 := Booking(10, 7, 1000, 2000, Active)];
            && CheckCreate(clients, vehicles, map[], CreateRequest(Some(10), Some(7), Date(500), Date(2000)), 1000) == Fail(StartInPast)
            && CheckUpdate(clients, vehicles, bookings, Some(1), UpdateRequest(Some(10), Some(7), Date(500), Date(2000), None)).Ok?
  {
  }

  /** Boundary cases of `hasConflict`, with days as numbers: a back-to-back request and
      one against a cancelled booking are accepted, a partial overlap and a request
      nested in a booking are refused. */
  lemma BoundaryCases()
    ensures !HasConflict(map[1 := Booking(10, 7, 1, 10, Active)], 7, 10, 12, None)
    ensures HasConflict(map[1 := Booking(10, 7, 1, 5, Active)], 7, 3, 7, None)
    ensures HasConflict(map[1 := Booking(10, 7, 1, 10, Active)], 7, 3, 5, None)
    ensures !HasConflict(map[1 := Booking(10, 7, 1, 10, Cancelled)], 7, 3, 5, None)
  {
    var one := map[1 := Booking(10, 7, 1, 5, Active)];
    assert Considered(one, 1, 7, None) && OverlapClauses(one[1], 3, 7);
    var nested := map[1 := Booking(10, 7, 1, 10, Active)];
    assert Considered(nested, 1, 7, None) && OverlapClauses(nested[1], 3, 5);
  }

  /** The booking table. Ids are handed out from a counter, so a new id is never in use. */
  class BookingTable {
    var bookings: Bookings
    var nextId: Id

    ghost predicate Valid()
      reads this
    {
      forall id :: id in bookings ==> id < nextId
    }

    constructor ()
      ensures Valid() && bookings == map[]
    {
      bookings := map[];
      nextId := 0;
    }

    /** createBooking: on success exactly one Active booking is added under a fresh id;
        on failure nothing is written. */
    method Create(clients: Clients, vehicles: Vehicles, req: CreateRequest, todayMidnight: int) returns (r: Outcome<Id, Failure>)
      requires Valid()
      modifies this
      ensures Valid()
      ensures match CheckCreate(clients, vehicles, old(bookings), req, todayMidnight)
              case Ok(b) => r == Ok(old(nextId)) && old(nextId) !in old(bookings) && bookings == old(bookings)[old(nextId) := b]
              case Fail(f) => r == Fail(f) && bookings == old(bookings)
      ensures NoDoubleBooking(old(bookings)) ==> NoDoubleBooking(bookings)
    {
      var decision := CheckCreate(clients, vehicles, bookings, req, todayMidnight);
      match decision {
        case Ok(b) =>
          var id := nextId;
          if NoDoubleBooking(bookings) {
            CreatePreservesNoDoubleBooking(clients, vehicles, bookings, req, todayMidnight, id);
          }
          bookings := bookings[id := b];
          nextId := nextId + 1;
          r := Ok(id);
        case Fail(f) =>
          r := Fail(f);
      }
    }

    /** updateBooking: on success the record under `id` is replaced; on failure nothing
        is written. */
    method Update(clients: Clients, vehicles: Vehicles, id: Option<Id>, req: UpdateRequest) returns (r: Outcome<Booking, Failure>)
      requires Valid()
      modifies this
      ensures Valid() && nextId == old(nextId)
      ensures r == CheckUpdate(clients, vehicles, old(bookings), id, req)
      ensures r.Ok? ==> bookings == old(bookings)[id.value := r.value]
      ensures r.Fail? ==> bookings == old(bookings)
      ensures NoDoubleBooking(old(bookings)) ==> NoDoubleBooking(bookings)
    {
      r := CheckUpdate(clients, vehicles, bookings, id, req);
      if r.Ok? {
        if NoDoubleBooking(bookings) {
          UpdatePreservesNoDoubleBooking(clients, vehicles, bookings, id, req);
        }
        bookings := bookings[id.value := r.value];
      }
    }

    /** updateBookingStatus: on success only the status of the record changes. The
        no-double-booking property is kept unless the new status is Active. */
    method UpdateStatus(id: Option<Id>, status: Option<string>) returns (r: Outcome<Booking, Failure>)
      requires Valid()
      modifies this
      ensures Valid() && nextId == old(nextId)
      ensures r == CheckStatusUpdate(old(bookings), id, status)
      ensures r.Ok? ==> bookings == old(bookings)[id.value := r.value]
      ensures r.Fail? ==> bookings == old(bookings)
      ensures NoDoubleBooking(old(bookings)) && status != Some(Active) ==> NoDoubleBooking(bookings)
    {
      r := CheckStatusUpdate(bookings, id, status);
      if r.Ok? {
        if NoDoubleBooking(bookings) && status != Some(Active) {
          StatusNarrowingPreserves(bookings, id, status);
        }
        bookings := bookings[id.value := r.value];
      }
    }

    /** deleteBooking: removes only that record; clients and vehicles are other tables
        and are not touched. */
    method Delete(id: Option<Id>) returns (r: Outcome<Id, Failure>)
      requires Valid()
      modifies this
      ensures Valid() && nextId == old(nextId)
      ensures r == CheckDelete(old(bookings), id)
      ensures r.Ok? ==> bookings == old(bookings) - {id.value}
      ensures r.Fail? ==> bookings == old(bookings)
      ensures NoDoubleBooking(old(bookings)) ==> NoDoubleBooking(bookings)
    {
      r := CheckDelete(bookings, id);
      if r.Ok? {
        bookings := bookings - {id.value};
      }
    }
  }
}
