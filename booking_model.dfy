/** The booking document: its fields, the schema's validators and status enumeration,
    and the pre-save hook that refuses a double booking. */
module BookingModel {
  import opened Common

  const Active: string := "Active"
  const Completed: string := "Completed"
  const Cancelled: string := "Cancelled"

  /** The status a new document gets when none is given. */
  const DefaultStatus: string := Active

  /** The schema's status enumeration. */
  predicate IsBookingStatus(s: string) {
    s == Active || s == Completed || s == Cancelled
  }

  /** A stored booking. The status is kept as a string: the update path of the
      controller writes it without the enumeration check. Dates are instants. */
  datatype Booking = Booking(client: Id, vehicle: Id, startDate: int, endDate: int, status: string)

  /** The status a document is created with. */
  function InitialStatus(given: Option<string>): string {
    if given.Some? then given.value else DefaultStatus
  }

  /** The startDate validator: not before today at 00:00:00. */
  predicate StartDateAccepts(value: int, todayMidnight: int) {
    value >= todayMidnight
  }

  /** The endDate validator: strictly after the document's startDate. */
  predicate EndDateAccepts(startDate: int, value: int) {
    value > startDate
  }

  /** Every path validator of the schema holds for the document. */
  predicate SchemaAccepts(b: Booking, todayMidnight: int) {
    StartDateAccepts(b.startDate, todayMidnight)
    && EndDateAccepts(b.startDate, b.endDate)
    && IsBookingStatus(b.status)
  }

  /** A document created without a status is Active, which the enumeration accepts. */
  lemma DefaultStatusIsActive()
    ensures InitialStatus(None) == Active && IsBookingStatus(InitialStatus(None))
  {
  }

  /** The paths of a document whose modification the hook inspects. */
  datatype Path = ClientPath | VehiclePath | StartDatePath | EndDatePath | StatusPath

  /** The hook runs its query only for a new document, or when the interval or the
      vehicle changed. */
  predicate ConflictCheckDue(isNew: bool, modified: set<Path>) {
    isNew || StartDatePath in modified || EndDatePath in modified || VehiclePath in modified
  }

  /** The three clauses of the overlap query against the interval [start, end]:
      the other booking contains the start, contains the end, or lies inside. */
  predicate OverlapClauses(other: Booking, start: int, end: int) {
    || (other.startDate <= start && other.endDate > start)
    || (other.startDate < end && other.endDate >= end)
    || (other.startDate >= start && other.endDate <= end)
  }

  /** Overlap of the half-open intervals [s1, e1) and [s2, e2). */
  predicate HalfOpenOverlap(s1: int, e1: int, s2: int, e2: int) {
    s1 < e2 && s2 < e1
  }

  /** For two non-empty intervals the three clauses are exactly half-open overlap, so a
      booking that ends when the other starts is never caught. */
  lemma OverlapClausesAreHalfOpen(other: Booking, start: int, end: int)
    requires start < end && other.startDate < other.endDate
    ensures OverlapClauses(other, start, end)
            <==> HalfOpenOverlap(other.startDate, other.endDate, start, end)
  {
  }

  /** A stored booking that stops document `doc` (with id `docId`) from being saved. */
  predicate BlocksSave(store: map<Id, Booking>, otherId: Id, docId: Id, doc: Booking)
    requires otherId in store
  {
    && otherId != docId
    && store[otherId].vehicle == doc.vehicle
    && store[otherId].status == Active
    && OverlapClauses(store[otherId], doc.startDate, doc.endDate)
  }

  datatype HookVerdict = Proceed | DoubleBookingError

  /** The pre-save hook. */
  function PreSave(store: map<Id, Booking>, docId: Id, doc: Booking, isNew: bool, modified: set<Path>): HookVerdict {
    if ConflictCheckDue(isNew, modified) && exists id :: id in store && BlocksSave(store, id, docId, doc)
    then DoubleBookingError
    else Proceed
  }

  /** Every stored interval is non-empty. */
  ghost predicate IntervalsNonEmpty(store: map<Id, Booking>) {
    forall id :: id in store ==> store[id].startDate < store[id].endDate
  }

  /** A save that changes only the status (or the client) of an existing document
      skips the conflict query and proceeds. */
  lemma StatusOnlySaveProceeds(store: map<Id, Booking>, docId: Id, doc: Booking, modified: set<Path>)
    requires modified <= {StatusPath, ClientPath}
    ensures PreSave(store, docId, doc, false, modified) == Proceed
  {
  }

  /** The document's own stored version never blocks it. */
  lemma PreSaveIgnoresOwnRecord(store: map<Id, Booking>, docId: Id, doc: Booking, isNew: bool, modified: set<Path>)
    ensures PreSave(store, docId, doc, isNew, modified) == PreSave(store - {docId}, docId, doc, isNew, modified)
  {
    if exists id :: id in store && BlocksSave(store, id, docId, doc) {
      var id :| id in store && BlocksSave(store, id, docId, doc);
      assert id in store - {docId} && BlocksSave(store - {docId}, id, docId, doc);
    }
  }

  /** With non-empty intervals the hook aborts exactly when the check is due and another
      Active booking of the same vehicle overlaps the document's half-open interval. */
  lemma PreSaveIsHalfOpenOverlap(store: map<Id, Booking>, docId: Id, doc: Booking, isNew: bool, modified: set<Path>)
    requires IntervalsNonEmpty(store) && doc.startDate < doc.endDate
    ensures PreSave(store, docId, doc, isNew, modified) == DoubleBookingError
            <==> ConflictCheckDue(isNew, modified)
                 && exists id :: id in store && id != docId && store[id].vehicle == doc.vehicle
                                 && store[id].status == Active
                                 && HalfOpenOverlap(store[id].startDate, store[id].endDate, doc.startDate, doc.endDate)
  {
    forall id | id in store {
      OverlapClausesAreHalfOpen(store[id], doc.startDate, doc.endDate);
    }
  }

  datatype SaveFailure = ValidationFailed | DoubleBooking

  /** `save` of a new document: the schema validators run first, then the hook. */
  function SaveNew(store: map<Id, Booking>, docId: Id, doc: Booking, todayMidnight: int): Outcome<Booking, SaveFailure> {
    if !SchemaAccepts(doc, todayMidnight) then Fail(ValidationFailed)
    else if PreSave(store, docId, doc, true, {}) == DoubleBookingError then Fail(DoubleBooking)
    else Ok(doc)
  }
}
