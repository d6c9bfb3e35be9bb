/** The quick-action routes. They use their own document shape (`start_date`,
    `end_date`, lower-case statuses, an amount and a rate) and their own inclusive
    overlap rules, kept here as written and apart from the booking schema. */
module QuickActions {
  import opened Common
  import BookingModel
  import ClientModel
  import VehicleModel

  /** Milliseconds in a day. */
  const DayMs: int := 1000 * 60 * 60 * 24

  const StatusActive: string := "active"
  const StatusConfirmed: string := "confirmed"
  const StatusPending: string := "pending"
  const StatusCompleted: string := "completed"

  /** A booking as these routes read and write it. `None` for an amount is a value
      that is not a number (no daily rate was sent). */
  datatype QuickBooking = QuickBooking(
    client: Id,
    vehicle: Id,
    start_date: int,
    end_date: int,
    status: string,
    total_amount: Option<int>,
    daily_rate: Option<int>,
    notes: Option<string>,
    damageReport: Option<string>,
    returnMileage: Option<int>)

  datatype QuickFailure =
    | DatesRequired
    | MissingFields
    | VehicleAlreadyBooked
    | BookingNotFound
    | NotActive
    | PaymentCompleted
    | ServerError

  /** The HTTP status each failure is answered with. */
  function HttpStatus(f: QuickFailure): (code: int)
    ensures code == 404 <==> f.BookingNotFound?
    ensures code == 500 <==> f.ServerError?
    ensures code == 400 <==> !f.BookingNotFound? && !f.ServerError?
  {
    match f
    case BookingNotFound => 404
    case ServerError => 500
    case _ => 400
  }

  /** The statuses these routes treat as holding a vehicle. */
  predicate Holding(b: QuickBooking) {
    b.status == StatusActive || b.status == StatusConfirmed
  }

  /** The statuses these routes write and filter on are not names of the booking
      schema's enumeration. */
  lemma StatusesOutsideBookingEnumeration()
    ensures !BookingModel.IsBookingStatus(StatusActive) && !BookingModel.IsBookingStatus(StatusConfirmed)
    ensures !BookingModel.IsBookingStatus(StatusPending) && !BookingModel.IsBookingStatus(StatusCompleted)
  {
  }

  /** The three inclusive clauses of /available-vehicles: the booking contains the
      start, contains the end, or lies within [start, end]. */
  predicate ClosedClauses(b: QuickBooking, start: int, end: int) {
    || (b.start_date <= start && b.end_date >= start)
    || (b.start_date <= end && b.end_date >= end)
    || (b.start_date >= start && b.end_date <= end)
  }

  /** Overlap of the closed intervals [s1, e1] and [s2, e2]. */
  predicate ClosedOverlap(s1: int, e1: int, s2: int, e2: int) {
    s1 <= e2 && s2 <= e1
  }

  /** For two intervals that are not reversed, the three inclusive clauses are closed
      overlap. */
  lemma ClosedClausesAreClosedOverlap(b: QuickBooking, start: int, end: int)
    requires start <= end && b.start_date <= b.end_date
    ensures ClosedClauses(b, start, end) <==> ClosedOverlap(b.start_date, b.end_date, start, end)
  {
  }

  /** A vehicle some holding booking blocks for [start, end]. */
  predicate Blocked(bookings: map<Id, QuickBooking>, vehicleId: Id, start: int, end: int) {
    exists id :: id in bookings && bookings[id].vehicle == vehicleId && Holding(bookings[id])
                 && ClosedClauses(bookings[id], start, end)
  }

  /** /available-vehicles: both dates are required; the result is the set of vehicles
      whose status is Available and that no holding booking blocks. */
  function AvailableVehicles(bookings: map<Id, QuickBooking>, vehicles: map<Id, VehicleModel.VehicleRec>, startDate: DateInput, endDate: DateInput): (r: Outcome<set<Id>, QuickFailure>)
    ensures startDate.Missing? || endDate.Missing? ==> r == Fail(DatesRequired)
    ensures r.Ok? <==> startDate.Date? && endDate.Date?
    ensures r.Ok? ==> forall v :: v in r.value <==> v in vehicles && vehicles[v].status == VehicleModel.Available
                                                    && !Blocked(bookings, v, startDate.time, endDate.time)
  {
    if startDate.Missing? || endDate.Missing? then Fail(DatesRequired)
    else if startDate.Unparseable? || endDate.Unparseable? then Fail(ServerError)
    else
      var start, end := startDate.time, endDate.time;
      Ok(set v | v in vehicles && vehicles[v].status == VehicleModel.Available && !Blocked(bookings, v, start, end))
  }

  /** With intervals that are not reversed, a vehicle is listed exactly when it is
      Available and no holding booking of it overlaps the closed range. */
  lemma AvailabilityIsClosedOverlap(bookings: map<Id, QuickBooking>, vehicles: map<Id, VehicleModel.VehicleRec>, start: int, end: int, v: Id)
    requires start <= end
    requires forall id :: id in bookings ==> bookings[id].start_date <= bookings[id].end_date
    ensures v in AvailableVehicles(bookings, vehicles, Date(start), Date(end)).value
            <==> && v in vehicles && vehicles[v].status == VehicleModel.Available
                 && forall id :: id in bookings && bookings[id].vehicle == v && Holding(bookings[id])
                                 ==> !ClosedOverlap(bookings[id].start_date, bookings[id].end_date, start, end)
  {
    forall id | id in bookings {
      ClosedClausesAreClosedOverlap(bookings[id], start, end);
    }
  }

  /** Ranges that only touch do block here, unlike the booking controller's half-open
      rule. */
  lemma TouchingRangesBlock()
    ensures Blocked(map[1 := QuickBooking(10, 7, 100, 200, StatusActive, None, None, None, None, None)], 7, 200, 300)
    ensures !BookingModel.HalfOpenOverlap(100, 200, 200, 300)
  {
    var m := map[1 := QuickBooking(10, 7, 100, 200, StatusActive, None, None, None, None, None)];
    assert Holding(m[1]) && ClosedClauses(m[1], 200, 300);
  }

  /** The two inclusive clauses of /add-booking: the booking contains the start or
      contains the end. */
  predicate EndpointClauses(b: QuickBooking, start: int, end: int) {
    || (b.start_date <= start && b.end_date >= start)
    || (b.start_date <= end && b.end_date >= end)
  }

  /** The two clauses miss exactly the bookings strictly enclosed by the request. */
  lemma EndpointClausesMissOnlyEnclosed(b: QuickBooking, start: int, end: int)
    requires start <= end && b.start_date <= b.end_date
    ensures EndpointClauses(b, start, end)
            <==> ClosedOverlap(b.start_date, b.end_date, start, end)
                 && !(start < b.start_date && b.end_date < end)
  {
  }

  /** Some holding booking of the vehicle contains the start or the end. */
  predicate EndpointConflict(bookings: map<Id, QuickBooking>, vehicleId: Id, start: int, end: int) {
    exists id :: id in bookings && bookings[id].vehicle == vehicleId && Holding(bookings[id])
                 && EndpointClauses(bookings[id], start, end)
  }

  /** JavaScript `Math.ceil(ms / DayMs)`: the least whole number of days covering `ms`. */
  function CeilDays(ms: int): (d: int)
    ensures d * DayMs >= ms && (d - 1) * DayMs < ms
  {
    -((-ms) / DayMs)
  }

  datatype AddRequest = AddRequest(client_id: Option<Id>, vehicle_id: Option<Id>, start_date: DateInput, end_date: DateInput, daily_rate: Option<int>)

  /** The amount of /add-booking: rate times days, not a number without a rate. */
  function TotalAmount(rate: Option<int>, start: int, end: int): Option<int> {
    if rate.Some? then Some(rate.value * CeilDays(end - start)) else None
  }

  /** The decision of /add-booking: all four fields are required, an endpoint
      conflict refuses the request, and otherwise a `confirmed` booking with the
      computed amount is written. Neither the client nor the vehicle is looked up,
      nor the order of the dates checked. */
  function CheckAdd(bookings: map<Id, QuickBooking>, req: AddRequest): (r: Outcome<QuickBooking, QuickFailure>)
    ensures req.client_id.None? || req.vehicle_id.None? || req.start_date.Missing? || req.end_date.Missing?
            ==> r == Fail(MissingFields)
    ensures r.Ok? <==> && req.client_id.Some? && req.vehicle_id.Some? && req.start_date.Date? && req.end_date.Date?
                       && !EndpointConflict(bookings, req.vehicle_id.value, req.start_date.time, req.end_date.time)
    ensures r.Ok? ==> && r.value.client == req.client_id.value && r.value.vehicle == req.vehicle_id.value
                      && r.value.start_date == req.start_date.time && r.value.end_date == req.end_date.time
                      && r.value.status == StatusConfirmed && Holding(r.value)
                      && r.value.daily_rate == req.daily_rate
                      && r.value.total_amount == TotalAmount(req.daily_rate, req.start_date.time, req.end_date.time)
                      && r.value.notes.None? && r.value.damageReport.None? && r.value.returnMileage.None?
  {
    if req.client_id.None? || req.vehicle_id.None? || req.start_date.Missing? || req.end_date.Missing? then Fail(MissingFields)
    else if req.start_date.Unparseable? || req.end_date.Unparseable? then Fail(ServerError)
    else
      var start, end := req.start_date.time, req.end_date.time;
      if EndpointConflict(bookings, req.vehicle_id.value, start, end) then Fail(VehicleAlreadyBooked)
      else
        Ok(QuickBooking(req.client_id.value, req.vehicle_id.value, start, end, StatusConfirmed,
                        TotalAmount(req.daily_rate, start, end), req.daily_rate, None, None, None))
  }

  /** A request enclosing an existing confirmed booking is accepted, although the
      ranges overlap. */
  lemma AddAcceptsEnclosingRequest()
    ensures var bookings := map[1 := QuickBooking(10, 7, 300, 500, StatusConfirmed, None, None, None, None, None)];
            && CheckAdd(bookings, AddRequest(Some(11), Some(7), Date(100), Date(1000), None)).Ok?
            && ClosedOverlap(300, 500, 100, 1000)
  {
  }

  /** A request starting on the day an existing booking ends is refused. */
  lemma AddRefusesTouchingStart()
    ensures var bookings := map[1 := QuickBooking(10, 7, 100, 200, StatusActive, None, None, None, None, None)];
            CheckAdd(bookings, AddRequest(Some(11), Some(7), Date(200), Date(300), None)) == Fail(VehicleAlreadyBooked)
  {
    var bookings := map[1 := QuickBooking(10, 7, 100, 200, StatusActive, None, None, None, None, None)];
    assert Holding(bookings[1]) && EndpointClauses(bookings[1], 200, 300);
  }

  /** A day and a half is charged as two days, exactly one day as one. */
  lemma AmountRoundsUp()
    ensures TotalAmount(Some(50), 0, DayMs + DayMs / 2) == Some(100)
    ensures TotalAmount(Some(50), 0, DayMs) == Some(50)
    ensures TotalAmount(Some(50), 0, 0) == Some(0)
  {
  }

  /** The booking /mark-returned leaves behind: `completed`, ended now, with notes,
      damage report and mileage replaced only by values that are given. */
  function ReturnedRecord(b: QuickBooking, mileage: Option<int>, notes: Option<string>, damageReport: Option<string>, now: int): (r: QuickBooking)
    ensures r.status == StatusCompleted && r.end_date == now && !Holding(r)
    ensures r.client == b.client && r.vehicle == b.vehicle && r.start_date == b.start_date
            && r.total_amount == b.total_amount && r.daily_rate == b.daily_rate
    ensures r.notes == (if Given(notes) then notes else b.notes)
    ensures r.damageReport == (if Given(damageReport) then damageReport else b.damageReport)
    ensures r.returnMileage == (if GivenNumber(mileage) then mileage else b.returnMileage)
  {
    b.(status := StatusCompleted,
       end_date := now,
       notes := if Given(notes) then notes else b.notes,
       damageReport := if Given(damageReport) then damageReport else b.damageReport,
       returnMileage := if GivenNumber(mileage) then mileage else b.returnMileage)
  }

  const DefaultReminderMessage: string := "This is a reminder about your upcoming booking payment."

  datatype Reminder = Reminder(bookingId: Id, amount: Option<int>, dueDate: int, message: string, sentAt: int, status: string)

  /** /send-payment-reminder: an absent booking is 404, a completed one 400; a booking
      whose client record is gone fails when the client's name is read. The reminder
      carries the amount, the start date as due date, and the given message or the
      default one. Sending is not modelled. */
  function PaymentReminder(bookings: map<Id, QuickBooking>, clients: map<Id, ClientModel.ClientRec>, id: Option<Id>, message: Option<string>, now: int): (r: Outcome<Reminder, QuickFailure>)
    ensures id.Some? && id.value !in bookings ==> r == Fail(BookingNotFound)
    ensures id.Some? && id.value in bookings && bookings[id.value].status == StatusCompleted ==> r == Fail(PaymentCompleted)
    ensures r.Ok? <==> && id.Some? && id.value in bookings && bookings[id.value].status != StatusCompleted
                       && bookings[id.value].client in clients
    ensures r.Ok? ==> && r.value.bookingId == id.value
                      && r.value.amount == bookings[id.value].total_amount
                      && r.value.dueDate == bookings[id.value].start_date
                      && r.value.message == (if Given(message) then message.value else DefaultReminderMessage)
                      && r.value.sentAt == now && r.value.status == "sent"
  {
    if id.None? then Fail(ServerError)
    else if id.value !in bookings then Fail(BookingNotFound)
    else
      var b := bookings[id.value];
      if b.status == StatusCompleted then Fail(PaymentCompleted)
      else if b.client !in clients then Fail(ServerError)
      else
        Ok(Reminder(id.value, b.total_amount, b.start_date, if Given(message) then message.value else DefaultReminderMessage, now, "sent"))
  }

  /** A returned booking no longer blocks its vehicle, cannot be returned again, and is
      refused a payment reminder. */
  lemma ReturnIsFinal(bookings: map<Id, QuickBooking>, clients: map<Id, ClientModel.ClientRec>, id: Id, mileage: Option<int>, notes: Option<string>, damageReport: Option<string>, now: int, message: Option<string>, start: int, end: int)
    requires id in bookings
    ensures var after := bookings[id := ReturnedRecord(bookings[id], mileage, notes, damageReport, now)];
            && after[id].status != StatusActive
            && PaymentReminder(after, clients, Some(id), message, now) == Fail(PaymentCompleted)
            && (!Blocked(bookings - {id}, bookings[id].vehicle, start, end) ==> !Blocked(after, bookings[id].vehicle, start, end))
  {
    var after := bookings[id := ReturnedRecord(bookings[id], mileage, notes, damageReport, now)];
    if Blocked(after, bookings[id].vehicle, start, end) {
      var j :| j in after && after[j].vehicle == bookings[id].vehicle && Holding(after[j]) && ClosedClauses(after[j], start, end);
      assert j != id;
      assert j in bookings - {id} && (bookings - {id})[j] == after[j];
    }
  }

  /** Revenue of the `/today-bookings` summary: each amount, a missing or zero one as 0. */
  function Revenue(bs: seq<QuickBooking>): int {
    if bs == [] then 0
    else (if bs[0].total_amount.Some? then bs[0].total_amount.value else 0) + Revenue(bs[1..])
  }

  /** The number of bookings with the given status. */
  function CountStatus(bs: seq<QuickBooking>, status: string): (n: nat)
    ensures n <= |bs|
  {
    if bs == [] then 0 else (if bs[0].status == status then 1 else 0) + CountStatus(bs[1..], status)
  }

  datatype Summary = Summary(count: nat, totalRevenue: int, activeBookings: nat, pendingBookings: nat, completedBookings: nat)

  /** The `/today-bookings` response summary of the bookings found for today: their
      number, the revenue and the three status counts. */
  function Summarize(bs: seq<QuickBooking>): (s: Summary)
    ensures s.count == |bs| && s.totalRevenue == Revenue(bs)
    ensures s.activeBookings == CountStatus(bs, StatusActive) && s.pendingBookings == CountStatus(bs, StatusPending)
            && s.completedBookings == CountStatus(bs, StatusCompleted)
    ensures s.activeBookings + s.pendingBookings + s.completedBookings <= s.count
  {
    CountsBounded(bs);
    Summary(|bs|, Revenue(bs), CountStatus(bs, StatusActive), CountStatus(bs, StatusPending), CountStatus(bs, StatusCompleted))
  }

  /** The summary of one booking: its amount (0 when it has none) and a count of one
      for its status. */
  lemma SummaryOfOne(b: QuickBooking)
    ensures Summarize([b]) == Summary(1, if b.total_amount.Some? then b.total_amount.value else 0,
                                      if b.status == StatusActive then 1 else 0,
                                      if b.status == StatusPending then 1 else 0,
                                      if b.status == StatusCompleted then 1 else 0)
  {
    assert [b][1..] == [];
    assert Revenue([b]) == (if b.total_amount.Some? then b.total_amount.value else 0) + Revenue([]);
    assert CountStatus([b], StatusActive) == (if b.status == StatusActive then 1 else 0) + CountStatus([], StatusActive);
    assert CountStatus([b], StatusPending) == (if b.status == StatusPending then 1 else 0) + CountStatus([], StatusPending);
    assert CountStatus([b], StatusCompleted) == (if b.status == StatusCompleted then 1 else 0) + CountStatus([], StatusCompleted);
  }

  /** The summary of two batches of bookings is the field-wise sum of their summaries,
      so with `SummaryOfOne` it is the reduce and the three filters of the route. */
  lemma SummarizeAppend(a: seq<QuickBooking>, b: seq<QuickBooking>)
    ensures var s := Summarize(a + b);
            var sa := Summarize(a);
            var sb := Summarize(b);
            && s.count == sa.count + sb.count
            && s.totalRevenue == sa.totalRevenue + sb.totalRevenue
            && s.activeBookings == sa.activeBookings + sb.activeBookings
            && s.pendingBookings == sa.pendingBookings + sb.pendingBookings
            && s.completedBookings == sa.completedBookings + sb.completedBookings
  {
    RevenueAppend(a, b);
    CountStatusAppend(a, b, StatusActive);
    CountStatusAppend(a, b, StatusPending);
    CountStatusAppend(a, b, StatusCompleted);
  }

  /** Counting is additive over concatenation. */
  lemma {:induction false} CountStatusAppend(a: seq<QuickBooking>, b: seq<QuickBooking>, status: string)
    ensures CountStatus(a + b, status) == CountStatus(a, status) + CountStatus(b, status)
  {
    if a != [] {
      assert (a + b)[1..] == a[1..] + b;
      CountStatusAppend(a[1..], b, status);
    } else {
      assert a + b == b;
    }
  }

  /** Each booking has one status, so the three counts never exceed the number found. */
  lemma {:induction false} CountsBounded(bs: seq<QuickBooking>)
    ensures CountStatus(bs, StatusActive) + CountStatus(bs, StatusPending) + CountStatus(bs, StatusCompleted) <= |bs|
  {
    if bs != [] {
      CountsBounded(bs[1..]);
    }
  }

  /** The summary is additive over the bookings found. */
  lemma {:induction false} RevenueAppend(a: seq<QuickBooking>, b: seq<QuickBooking>)
    ensures Revenue(a + b) == Revenue(a) + Revenue(b)
  {
    if a != [] {
      assert (a + b)[1..] == a[1..] + b;
      RevenueAppend(a[1..], b);
    } else {
      assert a + b == b;
    }
  }

  /** With no negative amounts the revenue is not negative, and bookings without an
      amount add nothing: when none has one the revenue is 0. */
  lemma {:induction false} RevenueNonNegative(bs: seq<QuickBooking>)
    requires forall i :: 0 <= i < |bs| ==> bs[i].total_amount.None? || bs[i].total_amount.value >= 0
    ensures Revenue(bs) >= 0
    ensures (forall i :: 0 <= i < |bs| ==> bs[i].total_amount.None?) ==> Revenue(bs) == 0
  {
    if bs != [] {
      RevenueNonNegative(bs[1..]);
    }
  }

  /** The bookings and vehicles the two writing routes touch. */
  class QuickDesk {
    var bookings: map<Id, QuickBooking>
    var vehicles: map<Id, VehicleModel.VehicleRec>
    var nextId: Id

    ghost predicate Valid()
      reads this
    {
      forall id :: id in bookings ==> id < nextId
    }

    constructor (vehicles0: map<Id, VehicleModel.VehicleRec>)
      ensures Valid() && bookings == map[] && vehicles == vehicles0
    {
      bookings := map[];
      vehicles := vehicles0;
      nextId := 0;
    }

    /** /add-booking: saves the booking under a fresh id, then marks the vehicle Booked
        when it exists; nothing is written on failure. */
    method AddBooking(req: AddRequest) returns (r: Outcome<Id, QuickFailure>)
      requires Valid()
      modifies this
      ensures Valid()
      ensures match CheckAdd(old(bookings), req)
              case Ok(b) =>
                && r == Ok(old(nextId)) && old(nextId) !in old(bookings)
                && bookings == old(bookings)[old(nextId) := b]
                && vehicles == (if b.vehicle in old(vehicles)
                                then old(vehicles)[b.vehicle := old(vehicles)[b.vehicle].(status := VehicleModel.Booked)]
                                else old(vehicles))
              case Fail(f) => r == Fail(f) && bookings == old(bookings) && vehicles == old(vehicles)
    {
      var decision := CheckAdd(bookings, req);
      match decision {
        case Ok(b) =>
          var id := nextId;
          bookings := bookings[id := b];
          nextId := nextId + 1;
          if b.vehicle in vehicles {
            vehicles := vehicles[b.vehicle := vehicles[b.vehicle].(status := VehicleModel.Booked)];
          }
          r := Ok(id);
        case Fail(f) =>
          r := Fail(f);
      }
    }

    /** /mark-returned: only an `active` booking is returned. Its fields are assigned
        one by one and saved; then its vehicle is set Available. When the vehicle record
        is gone the booking stays saved and the request fails. */
    method MarkReturned(id: Option<Id>, mileage: Option<int>, notes: Option<string>, damageReport: Option<string>, now: int) returns (r: Outcome<QuickBooking, QuickFailure>)
      requires Valid()
      modifies this
      ensures Valid() && nextId == old(nextId)
      ensures id.None? ==> r == Fail(ServerError)
      ensures id.Some? && id.value !in old(bookings) ==> r == Fail(BookingNotFound)
      ensures id.Some? && id.value in old(bookings) && old(bookings)[id.value].status != StatusActive ==> r == Fail(NotActive)
      ensures (id.None? || id.value !in old(bookings) || old(bookings)[id.value].status != StatusActive)
              ==> bookings == old(bookings) && vehicles == old(vehicles)
      ensures id.Some? && id.value in old(bookings) && old(bookings)[id.value].status == StatusActive ==>
                var b := ReturnedRecord(old(bookings)[id.value], mileage, notes, damageReport, now);
                && bookings == old(bookings)[id.value := b]
                && (b.vehicle in old(vehicles) ==>
                      r == Ok(b) && vehicles == old(vehicles)[b.vehicle := old(vehicles)[b.vehicle].(status := VehicleModel.Available)])
                && (b.vehicle !in old(vehicles) ==> r == Fail(ServerError) && vehicles == old(vehicles))
    {
      if id.None? {
        return Fail(ServerError);
      }
      if id.value !in bookings {
        return Fail(BookingNotFound);
      }
      var b := bookings[id.value];
      if b.status != StatusActive {
        return Fail(NotActive);
      }
      b := b.(status := StatusCompleted);
      b := b.(end_date := now);
      if Given(notes) {
        b := b.(notes := notes);
      }
      if Given(damageReport) {
        b := b.(damageReport := damageReport);
      }
      if GivenNumber(mileage) {
        b := b.(returnMileage := mileage);
      }
      bookings := bookings[id.value := b];
      if b.vehicle !in vehicles {
        return Fail(ServerError);
      }
      vehicles := vehicles[b.vehicle := vehicles[b.vehicle].(status := VehicleModel.Available)];
      r := Ok(b);
    }
  }
}
