/** The vehicle controller: adding a vehicle, changing its status, patching it and
    deleting it, over a vehicle table whose plates stay unique and whose records pass
    the schema's validators. */
module VehicleController {
  import opened Common
  import opened VehicleModel

  type Vehicles = map<Id, VehicleRec>

  datatype VehicleFailure =
    | MissingFields
    | PlateExists
    | DateOutAfterDateIn
    | InvalidStatus
    | VehicleNotFound
    | ServerError

  /** The HTTP status each failure is answered with. */
  function HttpStatus(f: VehicleFailure): (code: int)
    ensures code == 404 <==> f.VehicleNotFound?
    ensures code == 500 <==> f.ServerError?
    ensures code == 400 <==> !f.VehicleNotFound? && !f.ServerError?
  {
    match f
    case VehicleNotFound => 404
    case ServerError => 500
    case _ => 400
  }

  /** Some stored vehicle other than `except` (when given) holds plate `p`. */
  predicate PlateHeld(vehicles: Vehicles, p: string, except: Option<Id>) {
    exists j :: j in vehicles && vehicles[j].licensePlate == p && (except.None? || j != except.value)
  }

  /** No two stored vehicles share a plate. */
  ghost predicate UniquePlates(vehicles: Vehicles) {
    forall i, j :: i in vehicles && j in vehicles && i != j ==> vehicles[i].licensePlate != vehicles[j].licensePlate
  }

  datatype AddVehicleRequest = AddVehicleRequest(
    make: Option<string>,
    model: Option<string>,
    year: Option<int>,
    color: Option<string>,
    licensePlate: Option<string>,
    status: Option<string>,
    dateOut: DateInput,
    timeOut: Option<string>,
    dateIn: DateInput,
    timeIn: Option<string>,
    dailyRate: Option<int>)

  /** A required field of addVehicle is absent or falsy (a year or rate of 0 counts as
      absent). */
  predicate AddMissing(req: AddVehicleRequest) {
    !Given(req.make) || !Given(req.model) || !GivenNumber(req.year) || !Given(req.licensePlate)
    || !GivenNumber(req.dailyRate)
  }

  /** An optional request date as stored: absent stays absent. */
  function StoredDate(d: DateInput): Option<int>
    requires !d.Unparseable?
  {
    if d.Date? then Some(d.time) else None
  }

  function TrimmedOption(s: Option<string>): Option<string> {
    if Given(s) then Some(Trim(s.value)) else None
  }

  /** The status a new vehicle gets: the supplied one, or Available when none is. */
  function AddStatus(req: AddVehicleRequest): VehicleStatus
    requires !Given(req.status) || ParseStatus(req.status.value).Some?
  {
    if Given(req.status) then ParseStatus(req.status.value).value else DefaultStatus
  }

  /** The vehicle addVehicle creates: the strings trimmed, the plate upper-cased and
      trimmed, optional fields stored only when given. */
  function NewVehicle(req: AddVehicleRequest, status: VehicleStatus): (v: VehicleRec)
    requires !AddMissing(req) && !req.dateOut.Unparseable? && !req.dateIn.Unparseable?
    ensures v.make == Trim(req.make.value) && v.model == Trim(req.model.value)
    ensures v.licensePlate == CastPlate(req.licensePlate.value) && v.status == status
    ensures v.year == req.year.value && v.dailyRate == req.dailyRate.value
    ensures v.color == (if Given(req.color) then Some(Trim(req.color.value)) else None)
    ensures v.timeOut == (if Given(req.timeOut) then Some(Trim(req.timeOut.value)) else None)
    ensures v.timeIn == (if Given(req.timeIn) then Some(Trim(req.timeIn.value)) else None)
    ensures v.dateOut == (if req.dateOut.Date? then Some(req.dateOut.time) else None)
    ensures v.dateIn == (if req.dateIn.Date? then Some(req.dateIn.time) else None)
  {
    TrimIdempotent(req.make.value);
    TrimIdempotent(req.model.value);
    TrimIdempotent(if req.color.Some? then req.color.value else "");
    TrimUpperAbsorbsUpper(req.licensePlate.value);
    VehicleRec(
      Trim(Trim(req.make.value)),
      Trim(Trim(req.model.value)),
      req.year.value,
      if Given(req.color) then Some(Trim(Trim(req.color.value))) else None,
      CastPlate(ToUpper(req.licensePlate.value)),
      status,
      StoredDate(req.dateOut),
      TrimmedOption(req.timeOut),
      StoredDate(req.dateIn),
      TrimmedOption(req.timeIn),
      req.dailyRate.value)
  }

  /** The plate of the request, normalised, is already stored. */
  predicate PlateTaken(vehicles: Vehicles, req: AddVehicleRequest)
    requires !AddMissing(req)
  {
    PlateHeld(vehicles, CastPlate(req.licensePlate.value), None)
  }

  /** Both dates are given and dateOut is after dateIn. */
  predicate DatesReversed(req: AddVehicleRequest) {
    req.dateOut.Date? && req.dateIn.Date? && req.dateOut.time > req.dateIn.time
  }

  /** A non-empty status outside the enumeration. */
  predicate StatusRefused(req: AddVehicleRequest) {
    Given(req.status) && ParseStatus(req.status.value).None?
  }

  /** The decision of addVehicle: a missing field, a plate already stored (after
      normalisation), dateOut after dateIn, a status outside the enumeration, each
      400 and in this order; then an unparseable date or a record the validators
      refuse is a server error. Otherwise the new record, whose plate is stored
      nowhere else. */
  function AddOutcome(vehicles: Vehicles, req: AddVehicleRequest, currentYear: int): (r: Outcome<VehicleRec, VehicleFailure>)
    ensures AddMissing(req) ==> r == Fail(MissingFields)
    ensures !AddMissing(req) && PlateTaken(vehicles, req) ==> r == Fail(PlateExists)
    ensures !AddMissing(req) && !PlateTaken(vehicles, req) && DatesReversed(req) ==> r == Fail(DateOutAfterDateIn)
    ensures !AddMissing(req) && !PlateTaken(vehicles, req) && !DatesReversed(req) && StatusRefused(req) ==> r == Fail(InvalidStatus)
    ensures r.Ok? <==> && !AddMissing(req) && !PlateTaken(vehicles, req) && !DatesReversed(req) && !StatusRefused(req)
                       && !req.dateOut.Unparseable? && !req.dateIn.Unparseable?
                       && DocumentValid(NewVehicle(req, AddStatus(req)), currentYear)
    ensures r.Ok? ==> && r.value == NewVehicle(req, AddStatus(req))
                      && !PlateHeld(vehicles, r.value.licensePlate, None)
                      && DocumentValid(r.value, currentYear)
                      && !(r.value.dateOut.Some? && r.value.dateIn.Some? && r.value.dateOut.value > r.value.dateIn.value)
  {
    if AddMissing(req) then Fail(MissingFields)
    else
    assert CastPlate(ToUpper(req.licensePlate.value)) == CastPlate(req.licensePlate.value) by {
      TrimUpperAbsorbsUpper(req.licensePlate.value);
    }
    if PlateHeld(vehicles, CastPlate(ToUpper(req.licensePlate.value)), None) then Fail(PlateExists)
    else if req.dateOut.Date? && req.dateIn.Date? && req.dateOut.time > req.dateIn.time then Fail(DateOutAfterDateIn)
    else if Given(req.status) && ParseStatus(req.status.value).None? then Fail(InvalidStatus)
    else if req.dateOut.Unparseable? || req.dateIn.Unparseable? then Fail(ServerError)
    else
      var status := if Given(req.status) then ParseStatus(req.status.value).value else DefaultStatus;
      var v := NewVehicle(req, status);
      if DocumentValid(v, currentYear) then Ok(v) else Fail(ServerError)
  }

  /** A rate of 0 is refused as missing, although the schema accepts it. */
  lemma FreeVehicleRefusedAsMissing(vehicles: Vehicles, currentYear: int)
    ensures AddOutcome(vehicles, AddVehicleRequest(Some("Toyota"), Some("Vitz"), Some(2020), None, Some("KCA 1"), None,
                                                   Missing, None, Missing, None, Some(0)), currentYear) == Fail(MissingFields)
    ensures DailyRateValid(0)
  {
  }

  /** A blank timeOut is trimmed to "" and stored: it never changes the verdict of
      addVehicle, since the `match` validator passes an empty string. */
  lemma BlankTimeAccepted(vehicles: Vehicles, req: AddVehicleRequest, currentYear: int)
    requires req.timeOut.Some? && req.timeOut.value != "" && Trim(req.timeOut.value) == ""
    ensures var r, r0 := AddOutcome(vehicles, req, currentYear), AddOutcome(vehicles, req.(timeOut := None), currentYear);
            && (r.Ok? <==> r0.Ok?)
            && (r.Ok? ==> r.value == r0.value.(timeOut := Some("")))
            && (r.Fail? ==> r == r0)
  {
  }

  /** Fields a patch of updateVehicle may carry; dates are instants. */
  datatype VehiclePatch = VehiclePatch(
    make: Option<string>,
    model: Option<string>,
    year: Option<int>,
    color: Option<string>,
    licensePlate: Option<string>,
    status: Option<string>,
    dateOut: Option<int>,
    timeOut: Option<string>,
    dateIn: Option<int>,
    timeIn: Option<string>,
    dailyRate: Option<int>)

  /** The update validators, which run on the paths the patch sets, on the values the
      setters produce. */
  predicate PatchValid(p: VehiclePatch, currentYear: int) {
    && (p.make.Some? ==> NameValid(Trim(p.make.value)))
    && (p.model.Some? ==> NameValid(Trim(p.model.value)))
    && (p.year.Some? ==> YearValid(p.year.value, currentYear))
    && (p.color.Some? ==> ColorValid(Some(Trim(p.color.value))))
    && (p.licensePlate.Some? ==> PlateValid(CastPlate(p.licensePlate.value)))
    && (p.status.Some? ==> ParseStatus(Trim(p.status.value)).Some?)
    && (p.timeOut.Some? ==> TimeMatchValid(p.timeOut.value))
    && (p.timeIn.Some? ==> TimeMatchValid(p.timeIn.value))
    && (p.dailyRate.Some? ==> DailyRateValid(p.dailyRate.value))
  }

  /** The record after the patch: each supplied path replaced by its cast value, the
      others kept. */
  function Patched(v: VehicleRec, p: VehiclePatch): VehicleRec
    requires p.status.Some? ==> ParseStatus(Trim(p.status.value)).Some?
  {
    VehicleRec(
      if p.make.Some? then Trim(p.make.value) else v.make,
      if p.model.Some? then Trim(p.model.value) else v.model,
      if p.year.Some? then p.year.value else v.year,
      if p.color.Some? then Some(Trim(p.color.value)) else v.color,
      if p.licensePlate.Some? then CastPlate(p.licensePlate.value) else v.licensePlate,
      if p.status.Some? then ParseStatus(Trim(p.status.value)).value else v.status,
      if p.dateOut.Some? then p.dateOut else v.dateOut,
      if p.timeOut.Some? then p.timeOut else v.timeOut,
      if p.dateIn.Some? then p.dateIn else v.dateIn,
      if p.timeIn.Some? then p.timeIn else v.timeIn,
      if p.dailyRate.Some? then p.dailyRate.value else v.dailyRate)
  }

  /** A patch the update validators accept keeps a valid record valid. */
  lemma PatchPreservesDocumentValid(v: VehicleRec, p: VehiclePatch, currentYear: int)
    requires DocumentValid(v, currentYear) && PatchValid(p, currentYear)
    ensures DocumentValid(Patched(v, p), currentYear)
  {
  }

  /** An empty patch leaves the record as it is. */
  lemma EmptyPatchIsIdentity(v: VehicleRec)
    ensures Patched(v, VehiclePatch(None, None, None, None, None, None, None, None, None, None, None)) == v
  {
  }

  /** The patch updateVehicle sends: a non-empty plate upper-cased in place. */
  function UpperPlate(p: VehiclePatch): VehiclePatch {
    if Given(p.licensePlate) then p.(licensePlate := Some(ToUpper(p.licensePlate.value))) else p
  }

  /** A non-empty plate in the patch that, normalised, belongs to a vehicle other than
      `id`. */
  predicate PatchPlateTaken(vehicles: Vehicles, id: Id, p: VehiclePatch) {
    Given(p.licensePlate) && PlateHeld(vehicles, CastPlate(p.licensePlate.value), Some(id))
  }

  /** The decision of updateVehicle: a malformed id is a server error; a taken plate
      is 400 (checked before the vehicle is looked up); a patch the update validators
      refuse is a server error; an absent vehicle is 404. Otherwise the patched record,
      whose plate, when one was sent, no other vehicle holds. */
  function UpdateOutcome(vehicles: Vehicles, id: Option<Id>, p: VehiclePatch, currentYear: int): (r: Outcome<VehicleRec, VehicleFailure>)
    ensures id.None? ==> r == Fail(ServerError)
    ensures id.Some? && PatchPlateTaken(vehicles, id.value, p) ==> r == Fail(PlateExists)
    ensures id.Some? && !PatchPlateTaken(vehicles, id.value, p) && !PatchValid(p, currentYear) ==> r == Fail(ServerError)
    ensures id.Some? && !PatchPlateTaken(vehicles, id.value, p) && PatchValid(p, currentYear) && id.value !in vehicles
            ==> r == Fail(VehicleNotFound)
    ensures r.Ok? <==> id.Some? && id.value in vehicles && !PatchPlateTaken(vehicles, id.value, p) && PatchValid(p, currentYear)
    ensures r.Ok? ==> && id.Some? && id.value in vehicles && PatchValid(p, currentYear)
                      && (p.licensePlate.Some? ==> !PlateHeld(vehicles, r.value.licensePlate, id))
                      && r.value == Patched(vehicles[id.value], p)
  {
    if id.None? then Fail(ServerError)
    else
      assert Given(p.licensePlate) ==> CastPlate(ToUpper(p.licensePlate.value)) == CastPlate(p.licensePlate.value) by {
        TrimUpperAbsorbsUpper(if p.licensePlate.Some? then p.licensePlate.value else "");
      }
      if Given(p.licensePlate) && PlateHeld(vehicles, CastPlate(ToUpper(p.licensePlate.value)), id) then Fail(PlateExists)
      else
        var sent := UpperPlate(p);
        assert PatchValid(sent, currentYear) == PatchValid(p, currentYear);
        if !PatchValid(sent, currentYear) then Fail(ServerError)
        else if id.value !in vehicles then Fail(VehicleNotFound)
        else
          assert Patched(vehicles[id.value], sent) == Patched(vehicles[id.value], p);
          Ok(Patched(vehicles[id.value], sent))
  }

  /** Keeping its own plate, in any case and padding, is not refused. */
  lemma OwnPlateAccepted(vehicles: Vehicles, id: Id, plate: string)
    requires id in vehicles && UniquePlates(vehicles)
    requires CastPlate(plate) == vehicles[id].licensePlate
    ensures !PlateHeld(vehicles, CastPlate(plate), Some(id))
  {
  }

  /** updateVehicle does not repeat the dateOut/dateIn check of addVehicle. */
  lemma UpdateMayReverseDates(vehicles: Vehicles, id: Id, currentYear: int)
    requires id in vehicles && DocumentValid(vehicles[id], currentYear)
    ensures UpdateOutcome(vehicles, Some(id), VehiclePatch(None, None, None, None, None, None, Some(200), None, Some(100), None, None), currentYear)
            == Ok(vehicles[id].(dateOut := Some(200), dateIn := Some(100)))
  {
  }

  /** updateVehicle stores an empty timeOut: the update validators pass it. */
  lemma EmptyTimePatchAccepted(vehicles: Vehicles, id: Id, currentYear: int)
    requires id in vehicles && DocumentValid(vehicles[id], currentYear)
    ensures UpdateOutcome(vehicles, Some(id), VehiclePatch(None, None, None, None, None, None, None, Some(""), None, None, None), currentYear)
            == Ok(vehicles[id].(timeOut := Some("")))
  {
  }

  /** An accepted addition keeps the plates unique. */
  lemma AddPreservesUniquePlates(vehicles: Vehicles, req: AddVehicleRequest, currentYear: int, k: Id)
    requires UniquePlates(vehicles) && k !in vehicles
    requires AddOutcome(vehicles, req, currentYear).Ok?
    ensures UniquePlates(vehicles[k := AddOutcome(vehicles, req, currentYear).value])
  {
    var v := AddOutcome(vehicles, req, currentYear).value;
    var m := vehicles[k := v];
    forall i, j | i in m && j in m && i != j
      ensures m[i].licensePlate != m[j].licensePlate
    {
      if i == k {
        assert !(j in vehicles && vehicles[j].licensePlate == v.licensePlate);
      } else if j == k {
        assert !(i in vehicles && vehicles[i].licensePlate == v.licensePlate);
      }
    }
  }

  /** An accepted patch keeps the plates unique. */
  lemma UpdatePreservesUniquePlates(vehicles: Vehicles, id: Option<Id>, p: VehiclePatch, currentYear: int)
    requires UniquePlates(vehicles)
    requires UpdateOutcome(vehicles, id, p, currentYear).Ok?
    ensures UniquePlates(vehicles[id.value := UpdateOutcome(vehicles, id, p, currentYear).value])
  {
    var v := UpdateOutcome(vehicles, id, p, currentYear).value;
    var k := id.value;
    var m := vehicles[k := v];
    forall i, j | i in m && j in m && i != j
      ensures m[i].licensePlate != m[j].licensePlate
    {
      if p.licensePlate.Some? {
        if i == k {
          assert !(j in vehicles && vehicles[j].licensePlate == v.licensePlate && j != k);
        } else if j == k {
          assert !(i in vehicles && vehicles[i].licensePlate == v.licensePlate && i != k);
        }
      }
    }
  }

  /** The vehicle table. The year bound is fixed when the schema is loaded. */
  class Garage {
    var vehicles: Vehicles
    var nextId: Id
    const currentYear: int

    ghost predicate Valid()
      reads this
    {
      && (forall id :: id in vehicles ==> id < nextId)
      && (forall id :: id in vehicles ==> DocumentValid(vehicles[id], currentYear))
      && UniquePlates(vehicles)
    }

    constructor (year: int)
      ensures Valid() && vehicles == map[] && currentYear == year
    {
      vehicles := map[];
      nextId := 0;
      currentYear := year;
    }

    /** addVehicle: on success the new record is added under a fresh id and the plates
        stay unique, so the duplicate-key path of the save is never taken. */
    method AddVehicle(req: AddVehicleRequest) returns (r: Outcome<Id, VehicleFailure>)
      requires Valid()
      modifies this
      ensures Valid()
      ensures match AddOutcome(old(vehicles), req, currentYear)
              case Ok(v) => r == Ok(old(nextId)) && old(nextId) !in old(vehicles) && vehicles == old(vehicles)[old(nextId) := v]
              case Fail(f) => r == Fail(f) && vehicles == old(vehicles)
    {
      var decision := AddOutcome(vehicles, req, currentYear);
      match decision {
        case Ok(v) =>
          AddPreservesUniquePlates(vehicles, req, currentYear, nextId);
          vehicles := vehicles[nextId := v];
          r := Ok(nextId);
          nextId := nextId + 1;
        case Fail(f) =>
          r := Fail(f);
      }
    }

    /** updateVehicleStatus: only the three names are accepted (400), a malformed id is
        a server error, an absent vehicle 404; otherwise only the status changes. */
    method UpdateVehicleStatus(id: Option<Id>, status: Option<string>) returns (r: Outcome<VehicleRec, VehicleFailure>)
      requires Valid()
      modifies this
      ensures Valid() && nextId == old(nextId)
      ensures !Given(status) || ParseStatus(status.value).None? ==> r == Fail(InvalidStatus) && vehicles == old(vehicles)
      ensures Given(status) && ParseStatus(status.value).Some? ==>
                if id.Some? && id.value in old(vehicles)
                then r == Ok(old(vehicles)[id.value].(status := ParseStatus(status.value).value))
                     && vehicles == old(vehicles)[id.value := r.value]
                else r == Fail(if id.None? then ServerError else VehicleNotFound) && vehicles == old(vehicles)
    {
      if !Given(status) || ParseStatus(status.value).None? {
        return Fail(InvalidStatus);
      }
      if id.None? {
        return Fail(ServerError);
      }
      if id.value !in vehicles {
        return Fail(VehicleNotFound);
      }
      var v := vehicles[id.value].(status := ParseStatus(status.value).value);
      vehicles := vehicles[id.value := v];
      r := Ok(v);
    }

    /** updateVehicle: the plate of the request is upper-cased in place before the
        patch is applied; the outcome is `UpdateOutcome`, and the plates stay unique. */
    method UpdateVehicle(id: Option<Id>, p: VehiclePatch) returns (r: Outcome<VehicleRec, VehicleFailure>)
      requires Valid()
      modifies this
      ensures Valid() && nextId == old(nextId)
      ensures r == UpdateOutcome(old(vehicles), id, p, currentYear)
      ensures r.Ok? ==> vehicles == old(vehicles)[id.value := r.value]
      ensures r.Fail? ==> vehicles == old(vehicles)
    {
      if id.None? {
        return Fail(ServerError);
      }
      var updateData := p;
      if Given(updateData.licensePlate) {
        if PlateHeld(vehicles, CastPlate(ToUpper(updateData.licensePlate.value)), id) {
          return Fail(PlateExists);
        }
        updateData := updateData.(licensePlate := Some(ToUpper(updateData.licensePlate.value)));
      }
      assert updateData == UpperPlate(p);
      if !PatchValid(updateData, currentYear) {
        return Fail(ServerError);
      }
      if id.value !in vehicles {
        return Fail(VehicleNotFound);
      }
      var v := Patched(vehicles[id.value], updateData);
      PatchPreservesDocumentValid(vehicles[id.value], updateData, currentYear);
      UpdatePreservesUniquePlates(vehicles, id, p, currentYear);
      vehicles := vehicles[id.value := v];
      r := Ok(v);
    }

    /** deleteVehicle: removes only that vehicle; bookings referring to it are not
        touched. */
    method DeleteVehicle(id: Option<Id>) returns (r: Outcome<Id, VehicleFailure>)
      requires Valid()
      modifies this
      ensures Valid() && nextId == old(nextId)
      ensures id.Some? && id.value in old(vehicles) ==> r == Ok(id.value) && vehicles == old(vehicles) - {id.value}
      ensures id.Some? && id.value !in old(vehicles) ==> r == Fail(VehicleNotFound) && vehicles == old(vehicles)
      ensures id.None? ==> r == Fail(ServerError) && vehicles == old(vehicles)
    {
      if id.None? {
        return Fail(ServerError);
      }
      if id.value !in vehicles {
        return Fail(VehicleNotFound);
      }
      vehicles := vehicles - {id.value};
      r := Ok(id.value);
    }
  }
}
