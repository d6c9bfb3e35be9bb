/** The client controller: adding a client with duplicate detection, merging an update,
    changing the status, filtering by status, and deleting, over a client table whose
    unique keys (id/passport, phone, licence number) stay unique. */
module ClientController {
  import opened Common
  import opened ClientModel

  type Clients = map<Id, ClientRec>

  /** The three unique paths. */
  datatype KeyField = IdField | PhoneField | LicenseField

  function FieldKey(c: ClientRec, f: KeyField): string {
    match f
    case IdField => c.idOrPassport
    case PhoneField => c.phone
    case LicenseField => c.licenseNumber
  }

  /** Some stored client holds `v` in path `f`. */
  predicate Holds(clients: Clients, f: KeyField, v: string) {
    exists j :: j in clients && FieldKey(clients[j], f) == v
  }

  /** No two stored clients share an id/passport, a phone or a licence number. */
  ghost predicate UniqueKeys(clients: Clients) {
    forall i, j :: i in clients && j in clients && i != j
                   ==> && clients[i].idOrPassport != clients[j].idOrPassport
                       && clients[i].phone != clients[j].phone
                       && clients[i].licenseNumber != clients[j].licenseNumber
  }

  /** Every string of the record is as the schema's setters store it. */
  predicate Normalised(c: ClientRec) {
    && c.fullName == CastText(c.fullName)
    && c.idOrPassport == CastKey(c.idOrPassport)
    && c.phone == CastText(c.phone)
    && (c.address.Some? ==> c.address.value == CastText(c.address.value))
    && c.citizenship == CastText(c.citizenship)
    && c.licenseNumber == CastKey(c.licenseNumber)
  }

  datatype ClientFailure =
    | MissingFields
    | AlreadyExists(message: string)
    | Taken(field: KeyField)
    | ClientNotFound
    | InvalidStatus
    | InvalidStatusFilter
    | ServerError

  /** The HTTP status each failure is answered with. */
  function HttpStatus(f: ClientFailure): (code: int)
    ensures code == 404 <==> f.ClientNotFound?
    ensures code == 500 <==> f.ServerError?
    ensures code == 400 <==> !f.ClientNotFound? && !f.ServerError?
  {
    match f
    case ClientNotFound => 404
    case ServerError => 500
    case _ => 400
  }

  datatype AddClientRequest = AddClientRequest(
    fullName: Option<string>,
    idOrPassport: Option<string>,
    phone: Option<string>,
    address: Option<string>,
    licenseNumber: Option<string>,
    citizenship: Option<string>)

  /** A required field of addClient is absent or empty. */
  predicate AddMissing(req: AddClientRequest) {
    !Given(req.fullName) || !Given(req.idOrPassport) || !Given(req.licenseNumber)
    || !Given(req.citizenship) || !Given(req.phone)
  }

  /** The duplicate query of addClient matches `c`: the query values (the
      upper-cased id and licence, the trimmed phone) pass through the schema's setters
      before they are compared with the stored values. */
  predicate MatchesAdd(c: ClientRec, req: AddClientRequest)
    requires !AddMissing(req)
  {
    || c.idOrPassport == CastKey(ToUpper(req.idOrPassport.value))
    || c.phone == CastText(Trim(req.phone.value))
    || c.licenseNumber == CastKey(ToUpper(req.licenseNumber.value))
  }

  const ExistsPrefix: string := "Client already exists with "

  function Phrase(f: KeyField): string {
    match f
    case IdField => "this ID/Passport number"
    case PhoneField => "this phone number"
    case LicenseField => "this license number"
  }

  /** The field the addClient message names, as written: the found client is compared
      with the upper-cased request id and licence, which are not trimmed, so the
      comparison can fail for the very value the query matched. */
  function ReportedFieldAsWritten(c: ClientRec, req: AddClientRequest): Option<KeyField>
    requires !AddMissing(req)
  {
    if c.idOrPassport == ToUpper(req.idOrPassport.value) then Some(IdField)
    else if c.phone == Trim(req.phone.value) then Some(PhoneField)
    else if c.licenseNumber == ToUpper(req.licenseNumber.value) then Some(LicenseField)
    else None
  }

  /** The end of the addClient message for the field named, nothing when none is. */
  function MessageTail(f: Option<KeyField>): string {
    if f.Some? then Phrase(f.value) else ""
  }

  /** The padded id/passport " ab1 " is stored, and looked for, as "AB1", while its
      upper-cased form keeps the spaces. */
  lemma PaddedIdNormalises()
    ensures CastKey(ToUpper(" ab1 ")) == "AB1" && ToUpper(" ab1 ") != "AB1"
  {
    TrimUpperAbsorbsUpper(" ab1 ");
    TrimPadded("ab1");
    assert [' '] + "ab1" + [' '] == " ab1 ";
    assert ToUpper("ab1") == "AB1";
    ToUpperShape(" ab1 ");
  }

  /** A stored client found by the query through a padded id/passport, reported with a
      message that names no field. */
  lemma DuplicateMessageNamesNoField()
    ensures var c := ClientRec("Ann Lee", "AB1", "0712", None, "KE", "L1", ACTIVE);
            var req := AddClientRequest(Some("Bo Ng"), Some(" ab1 "), Some("0799"), None, Some("L2"), Some("KE"));
            && MatchesAdd(c, req)
            && ReportedFieldAsWritten(c, req).None?
  {
    PaddedIdNormalises();
    TrimOfTrimmed("0799");
    assert ToUpper("L2") == "L2";
  }

  /** The field the addClient message names, comparing with the normalised request
      values the query used: the first of id/passport, phone and licence the found
      client holds. */
  function ReportedField(c: ClientRec, req: AddClientRequest): (f: KeyField)
    requires !AddMissing(req) && MatchesAdd(c, req)
    ensures FieldKey(c, f) == (if f == PhoneField then CastText(Trim(req.phone.value))
                               else if f == IdField then CastKey(ToUpper(req.idOrPassport.value))
                               else CastKey(ToUpper(req.licenseNumber.value)))
    ensures f != IdField ==> c.idOrPassport != CastKey(ToUpper(req.idOrPassport.value))
    ensures f == LicenseField ==> c.phone != CastText(Trim(req.phone.value))
  {
    if c.idOrPassport == CastKey(ToUpper(req.idOrPassport.value)) then IdField
    else if c.phone == CastText(Trim(req.phone.value)) then PhoneField
    else LicenseField
  }

  /** The client addClient creates: name, phone, citizenship and address (when given)
      trimmed, id/passport and licence trimmed and upper-cased, status ACTIVE. */
  function NewClient(req: AddClientRequest): (c: ClientRec)
    requires !AddMissing(req)
    ensures Normalised(c) && c.status == ACTIVE
    ensures c.fullName == Trim(req.fullName.value) && c.phone == Trim(req.phone.value)
            && c.citizenship == Trim(req.citizenship.value)
    ensures c.idOrPassport == TrimUpper(req.idOrPassport.value)
            && c.licenseNumber == TrimUpper(req.licenseNumber.value)
    ensures c.address == (if Given(req.address) then Some(Trim(req.address.value)) else None)
  {
    TrimIdempotent(req.fullName.value);
    TrimIdempotent(req.phone.value);
    TrimIdempotent(req.citizenship.value);
    TrimIdempotent(if req.address.Some? then req.address.value else "");
    TrimUpperAbsorbsUpper(req.idOrPassport.value);
    TrimUpperAbsorbsUpper(req.licenseNumber.value);
    TrimUpperIdempotent(req.idOrPassport.value);
    TrimUpperIdempotent(req.licenseNumber.value);
    ClientRec(
      CastText(Trim(req.fullName.value)),
      CastKey(ToUpper(req.idOrPassport.value)),
      CastText(Trim(req.phone.value)),
      if Given(req.address) then Some(CastText(Trim(req.address.value))) else None,
      CastText(Trim(req.citizenship.value)),
      CastKey(ToUpper(req.licenseNumber.value)),
      DefaultStatus)
  }

  /** A new client that the duplicate query does not match shares no key with any
      stored client. */
  lemma NewClientKeysFresh(clients: Clients, req: AddClientRequest)
    requires !AddMissing(req)
    requires forall j :: j in clients ==> !MatchesAdd(clients[j], req)
    ensures forall j :: j in clients ==> && clients[j].idOrPassport != NewClient(req).idOrPassport
                                         && clients[j].phone != NewClient(req).phone
                                         && clients[j].licenseNumber != NewClient(req).licenseNumber
  {
  }

  datatype UpdateClientRequest = UpdateClientRequest(
    fullName: Option<string>,
    idOrPassport: Option<string>,
    phone: Option<string>,
    address: Option<string>,
    licenseNumber: Option<string>,
    citizenship: Option<string>)

  /** The uniqueness checks of updateClient as written: the request phone is compared
      untrimmed, and the id and licence upper-cased but untrimmed, with the stored
      value, while the query looks for the normalised value, which can be the
      client's own. */
  function UpdateConflictAsWritten(clients: Clients, id: Id, req: UpdateClientRequest): Option<KeyField>
    requires id in clients
  {
    var c := clients[id];
    if Given(req.idOrPassport) && ToUpper(req.idOrPassport.value) != c.idOrPassport
       && Holds(clients, IdField, CastKey(ToUpper(req.idOrPassport.value))) then Some(IdField)
    else if Given(req.phone) && req.phone.value != c.phone
       && Holds(clients, PhoneField, CastText(Trim(req.phone.value))) then Some(PhoneField)
    else if Given(req.licenseNumber) && ToUpper(req.licenseNumber.value) != c.licenseNumber
       && Holds(clients, LicenseField, CastKey(ToUpper(req.licenseNumber.value))) then Some(LicenseField)
    else None
  }

  /** A client resubmitting its own phone with surrounding spaces is refused as a
      duplicate of itself. */
  lemma UpdateRefusesOwnPaddedPhone()
    ensures var clients := map[1 := ClientRec("Ann Lee", "AB1", "0712", None, "KE", "L1", ACTIVE)];
            var req := UpdateClientRequest(None, None, Some(" 0712 "), None, None, None);
            UpdateConflictAsWritten(clients, 1, req) == Some(PhoneField)
  {
    var clients := map[1 := ClientRec("Ann Lee", "AB1", "0712", None, "KE", "L1", ACTIVE)];
    TrimPadded("0712");
    assert [' '] + "0712" + [' '] == " 0712 ";
    TrimOfTrimmed("0712");
    assert FieldKey(clients[1], PhoneField) == CastText(Trim(" 0712 "));
  }

  /** The uniqueness checks of updateClient comparing normalised values, in the
      order id/passport, phone, licence: a supplied key is refused when it differs
      from the client's own and some client already holds it. */
  function UpdateConflict(clients: Clients, id: Id, req: UpdateClientRequest): Option<KeyField>
    requires id in clients
  {
    var c := clients[id];
    if Given(req.idOrPassport) && CastKey(req.idOrPassport.value) != c.idOrPassport
       && Holds(clients, IdField, CastKey(req.idOrPassport.value)) then Some(IdField)
    else if Given(req.phone) && CastText(req.phone.value) != c.phone
       && Holds(clients, PhoneField, CastText(req.phone.value)) then Some(PhoneField)
    else if Given(req.licenseNumber) && CastKey(req.licenseNumber.value) != c.licenseNumber
       && Holds(clients, LicenseField, CastKey(req.licenseNumber.value)) then Some(LicenseField)
    else None
  }

  /** The value a supplied key is stored as. */
  function RequestKey(req: UpdateClientRequest, f: KeyField): Option<string> {
    match f
    case IdField => if Given(req.idOrPassport) then Some(CastKey(req.idOrPassport.value)) else None
    case PhoneField => if Given(req.phone) then Some(CastText(req.phone.value)) else None
    case LicenseField => if Given(req.licenseNumber) then Some(CastKey(req.licenseNumber.value)) else None
  }

  /** The checks refuse a key only when another client holds it, and, when the keys
      are unique, they refuse every key another client holds (the first one in order). */
  lemma UpdateConflictIsOtherHolder(clients: Clients, id: Id, req: UpdateClientRequest)
    requires id in clients
    ensures UpdateConflict(clients, id, req).Some? ==>
              var f := UpdateConflict(clients, id, req).value;
              RequestKey(req, f).Some?
              && exists j :: j in clients && j != id && FieldKey(clients[j], f) == RequestKey(req, f).value
    ensures UniqueKeys(clients) && UpdateConflict(clients, id, req).None? ==>
              forall f, j :: j in clients && j != id && RequestKey(req, f).Some?
                             ==> FieldKey(clients[j], f) != RequestKey(req, f).value
  {
    var c := clients[id];
    if Given(req.idOrPassport) && CastKey(req.idOrPassport.value) != c.idOrPassport
       && Holds(clients, IdField, CastKey(req.idOrPassport.value)) {
      var j :| j in clients && FieldKey(clients[j], IdField) == CastKey(req.idOrPassport.value);
      assert j != id;
    } else if Given(req.phone) && CastText(req.phone.value) != c.phone
       && Holds(clients, PhoneField, CastText(req.phone.value)) {
      var j :| j in clients && FieldKey(clients[j], PhoneField) == CastText(req.phone.value);
      assert j != id;
    } else if Given(req.licenseNumber) && CastKey(req.licenseNumber.value) != c.licenseNumber
       && Holds(clients, LicenseField, CastKey(req.licenseNumber.value)) {
      var j :| j in clients && FieldKey(clients[j], LicenseField) == CastKey(req.licenseNumber.value);
      assert j != id;
    }
    if UniqueKeys(clients) && UpdateConflict(clients, id, req).None? {
      forall f, j | j in clients && j != id && RequestKey(req, f).Some?
        ensures FieldKey(clients[j], f) != RequestKey(req, f).value
      {
        if FieldKey(clients[j], f) == RequestKey(req, f).value {
          assert Holds(clients, f, RequestKey(req, f).value);
        }
      }
    }
  }

  /** Resubmitting the client's own keys as stored (the id/passport and licence in any
      case, the phone verbatim) is accepted, and the merged record keeps those keys. */
  lemma UpdateAcceptsOwnKeys(clients: Clients, id: Id, req: UpdateClientRequest)
    requires id in clients
    requires Given(req.idOrPassport) ==> ToUpper(req.idOrPassport.value) == clients[id].idOrPassport
    requires req.phone.Some? ==> req.phone.value == clients[id].phone
    requires Given(req.licenseNumber) ==> ToUpper(req.licenseNumber.value) == clients[id].licenseNumber
    ensures UpdateConflictAsWritten(clients, id, req).None?
    ensures Normalised(clients[id]) ==> forall f :: FieldKey(Merged(clients[id], req), f) == FieldKey(clients[id], f)
  {
    var c := clients[id];
    if Normalised(c) {
      if Given(req.idOrPassport) {
        TrimUpperIdempotent(req.idOrPassport.value);
        assert CastKey(ToUpper(req.idOrPassport.value)) == CastKey(c.idOrPassport);
      }
      if Given(req.licenseNumber) {
        assert CastKey(ToUpper(req.licenseNumber.value)) == CastKey(c.licenseNumber);
      }
    }
  }

  /** With the corrected checks, resubmitting the client's own keys, padded or in
      another case, is accepted. */
  lemma CorrectedAcceptsOwnKeys(clients: Clients, id: Id, req: UpdateClientRequest)
    requires id in clients && UniqueKeys(clients)
    requires forall f :: RequestKey(req, f).Some? ==> RequestKey(req, f).value == FieldKey(clients[id], f)
    ensures UpdateConflict(clients, id, req).None?
  {
    assert RequestKey(req, IdField).Some? ==> RequestKey(req, IdField).value == FieldKey(clients[id], IdField);
    assert RequestKey(req, PhoneField).Some? ==> RequestKey(req, PhoneField).value == FieldKey(clients[id], PhoneField);
    assert RequestKey(req, LicenseField).Some? ==> RequestKey(req, LicenseField).value == FieldKey(clients[id], LicenseField);
  }

  /** The padded phone of the counterexample is accepted by the corrected checks. */
  lemma UpdateAcceptsOwnPaddedPhone()
    ensures var clients := map[1 := ClientRec("Ann Lee", "AB1", "0712", None, "KE", "L1", ACTIVE)];
            var req := UpdateClientRequest(None, None, Some(" 0712 "), None, None, None);
            UpdateConflict(clients, 1, req).None?
  {
    TrimPadded("0712");
    assert [' '] + "0712" + [' '] == " 0712 ";
  }

  /** Every update the as-written checks accept, the corrected checks accept too: each
      refusal of the corrected checks is a refusal of the same key as written. */
  lemma AcceptedAsWrittenIsAcceptedCorrected(clients: Clients, id: Id, req: UpdateClientRequest)
    requires id in clients && Normalised(clients[id])
    ensures UpdateConflictAsWritten(clients, id, req).None? ==> UpdateConflict(clients, id, req).None?
  {
    var c := clients[id];
    if Given(req.idOrPassport) {
      TrimUpperAbsorbsUpper(req.idOrPassport.value);
      if ToUpper(req.idOrPassport.value) == c.idOrPassport {
        assert CastKey(req.idOrPassport.value) == CastKey(c.idOrPassport);
      }
    }
    if Given(req.phone) {
      TrimIdempotent(req.phone.value);
    }
    if Given(req.licenseNumber) {
      TrimUpperAbsorbsUpper(req.licenseNumber.value);
      if ToUpper(req.licenseNumber.value) == c.licenseNumber {
        assert CastKey(req.licenseNumber.value) == CastKey(c.licenseNumber);
      }
    }
  }

  /** The record after updateClient's six assignments: name, phone, address and
      citizenship are replaced when present (`??`), id/passport and licence when
      non-empty, upper-cased; every assigned string passes through the setters. */
  function Merged(c: ClientRec, req: UpdateClientRequest): ClientRec {
    ClientRec(
      if req.fullName.Some? then CastText(req.fullName.value) else c.fullName,
      if Given(req.idOrPassport) then CastKey(ToUpper(req.idOrPassport.value)) else c.idOrPassport,
      if req.phone.Some? then CastText(req.phone.value) else c.phone,
      if req.address.Some? then Some(CastText(req.address.value)) else c.address,
      if req.citizenship.Some? then CastText(req.citizenship.value) else c.citizenship,
      if Given(req.licenseNumber) then CastKey(ToUpper(req.licenseNumber.value)) else c.licenseNumber,
      c.status)
  }

  /** Each supplied key is stored exactly as the uniqueness check looked for it; a key
      not supplied keeps its value (the phone only when absent altogether). */
  lemma MergedKeys(c: ClientRec, req: UpdateClientRequest)
    ensures forall f :: RequestKey(req, f).Some? ==> FieldKey(Merged(c, req), f) == RequestKey(req, f).value
    ensures forall f :: RequestKey(req, f).None? && (f != PhoneField || req.phone.None?)
                        ==> FieldKey(Merged(c, req), f) == FieldKey(c, f)
  {
    if Given(req.idOrPassport) {
      TrimUpperAbsorbsUpper(req.idOrPassport.value);
    }
    if Given(req.licenseNumber) {
      TrimUpperAbsorbsUpper(req.licenseNumber.value);
    }
  }

  /** An update keeps a normalised record normalised and keeps its status. */
  lemma MergedIsNormalised(c: ClientRec, req: UpdateClientRequest)
    requires Normalised(c)
    ensures Normalised(Merged(c, req)) && Merged(c, req).status == c.status
  {
    var m := Merged(c, req);
    if req.fullName.Some? { TrimIdempotent(req.fullName.value); }
    if req.phone.Some? { TrimIdempotent(req.phone.value); }
    if req.address.Some? { TrimIdempotent(req.address.value); }
    if req.citizenship.Some? { TrimIdempotent(req.citizenship.value); }
    if Given(req.idOrPassport) {
      TrimUpperAbsorbsUpper(req.idOrPassport.value);
      TrimUpperIdempotent(req.idOrPassport.value);
    }
    if Given(req.licenseNumber) {
      TrimUpperAbsorbsUpper(req.licenseNumber.value);
      TrimUpperIdempotent(req.licenseNumber.value);
    }
    assert m.fullName == CastText(m.fullName);
    assert m.phone == CastText(m.phone);
    assert m.citizenship == CastText(m.citizenship);
    assert m.idOrPassport == CastKey(m.idOrPassport);
    assert m.licenseNumber == CastKey(m.licenseNumber);
  }

  /** An empty update leaves the record as it is. */
  lemma MergeEmptyIsIdentity(c: ClientRec)
    ensures Merged(c, UpdateClientRequest(None, None, None, None, None, None)) == c
  {
  }

  /** Resubmitting every field of a stored record leaves it as it is. */
  lemma MergeOwnValuesIsIdentity(c: ClientRec)
    requires Normalised(c) && c.idOrPassport != "" && c.licenseNumber != ""
    ensures Merged(c, UpdateClientRequest(Some(c.fullName), Some(c.idOrPassport), Some(c.phone), c.address,
                                          Some(c.licenseNumber), Some(c.citizenship))) == c
  {
    TrimUpperAbsorbsUpper(c.idOrPassport);
    TrimUpperAbsorbsUpper(c.licenseNumber);
  }

  /** A merged record accepted by updateClient's checks as written and by the
      validators keeps the keys unique. */
  lemma UpdatePreservesUniqueKeys(clients: Clients, id: Id, req: UpdateClientRequest)
    requires id in clients && UniqueKeys(clients) && Normalised(clients[id])
    requires UpdateConflictAsWritten(clients, id, req).None?
    requires DocumentValid(Merged(clients[id], req))
    ensures UniqueKeys(clients[id := Merged(clients[id], req)])
  {
    AcceptedAsWrittenIsAcceptedCorrected(clients, id, req);
    CorrectedUpdatePreservesUniqueKeys(clients, id, req);
  }

  /** A merged record accepted by the corrected checks and by the validators keeps the
      keys unique. */
  lemma CorrectedUpdatePreservesUniqueKeys(clients: Clients, id: Id, req: UpdateClientRequest)
    requires id in clients && UniqueKeys(clients)
    requires UpdateConflict(clients, id, req).None?
    requires DocumentValid(Merged(clients[id], req))
    ensures UniqueKeys(clients[id := Merged(clients[id], req)])
  {
    var c := clients[id];
    var m := Merged(c, req);
    MergedKeys(c, req);
    UpdateConflictIsOtherHolder(clients, id, req);
    var s := clients[id := m];
    forall j | j in clients && j != id
      ensures FieldKey(clients[j], IdField) != FieldKey(m, IdField)
      ensures FieldKey(clients[j], PhoneField) != FieldKey(m, PhoneField)
      ensures FieldKey(clients[j], LicenseField) != FieldKey(m, LicenseField)
    {
      assert RequestKey(req, IdField).None? ==> FieldKey(m, IdField) == FieldKey(c, IdField);
      assert RequestKey(req, LicenseField).None? ==> FieldKey(m, LicenseField) == FieldKey(c, LicenseField);
      assert RequestKey(req, PhoneField).None? ==> FieldKey(m, PhoneField) == FieldKey(c, PhoneField);
    }
  }

  /** The decision of updateClient: path id not an id → 500, absent → 404, a key the
      checks as written refuse → 400, a merged record the validators refuse → 500;
      otherwise the merged record. */
  function UpdateOutcome(clients: Clients, id: Option<Id>, req: UpdateClientRequest): (r: Outcome<ClientRec, ClientFailure>)
    ensures id.None? ==> r == Fail(ServerError)
    ensures id.Some? && id.value !in clients ==> r == Fail(ClientNotFound)
    ensures id.Some? && id.value in clients && UpdateConflictAsWritten(clients, id.value, req).Some?
            ==> r == Fail(Taken(UpdateConflictAsWritten(clients, id.value, req).value))
    ensures r.Ok? <==> && id.Some? && id.value in clients && UpdateConflictAsWritten(clients, id.value, req).None?
                       && DocumentValid(Merged(clients[id.value], req))
    ensures r.Ok? ==> r.value == Merged(clients[id.value], req)
  {
    if id.None? then Fail(ServerError)
    else if id.value !in clients then Fail(ClientNotFound)
    else match UpdateConflictAsWritten(clients, id.value, req)
      case Some(f) => Fail(Taken(f))
      case None =>
        var m := Merged(clients[id.value], req);
        if DocumentValid(m) then Ok(m) else Fail(ServerError)
  }

  /** getClientsByStatus: a non-empty filter outside the enumeration is refused; an
      empty or absent filter lists every client; otherwise exactly the clients with
      that status. */
  function ClientsByStatus(clients: Clients, status: Option<string>): (r: Outcome<set<Id>, ClientFailure>)
    ensures r.Fail? <==> Given(status) && ParseStatus(status.value).None?
    ensures r.Fail? ==> r == Fail(InvalidStatusFilter)
    ensures r.Ok? && !Given(status) ==> r.value == clients.Keys
    ensures r.Ok? && Given(status) ==> forall j :: j in r.value <==> j in clients && StatusName(clients[j].status) == status.value
  {
    if Given(status) && ParseStatus(status.value).None? then Fail(InvalidStatusFilter)
    else if Given(status) then Ok(set j | j in clients && StatusName(clients[j].status) == status.value)
    else Ok(clients.Keys)
  }

  /** The two status filters split the clients between them. */
  lemma StatusFiltersPartition(clients: Clients)
    ensures ClientsByStatus(clients, Some("ACTIVE")).Ok? && ClientsByStatus(clients, Some("SUSPENDED")).Ok?
    ensures ClientsByStatus(clients, Some("ACTIVE")).value + ClientsByStatus(clients, Some("SUSPENDED")).value
            == ClientsByStatus(clients, None).value
    ensures ClientsByStatus(clients, Some("ACTIVE")).value * ClientsByStatus(clients, Some("SUSPENDED")).value == {}
  {
    var a := ClientsByStatus(clients, Some("ACTIVE")).value;
    var s := ClientsByStatus(clients, Some("SUSPENDED")).value;
    forall j | j in clients ensures j in a + s {
      if clients[j].status == ACTIVE { assert j in a; } else { assert j in s; }
    }
  }

  /** Every stored record passes the validators and is as the setters store it. */
  ghost predicate RecordsStored(clients: Clients) {
    forall id :: id in clients ==> DocumentValid(clients[id]) && Normalised(clients[id])
  }

  /** Storing a valid, normalised record keeps every record stored so. */
  lemma StorePreservesRecords(clients: Clients, id: Id, c: ClientRec)
    requires RecordsStored(clients) && DocumentValid(c) && Normalised(c)
    ensures RecordsStored(clients[id := c])
  {
  }

  /** An update accepted by the checks as written and by the validators keeps every
      record stored as the setters store it and the keys unique. */
  lemma AcceptedUpdateKeepsTable(clients: Clients, id: Id, req: UpdateClientRequest)
    requires RecordsStored(clients) && UniqueKeys(clients) && id in clients
    requires UpdateConflictAsWritten(clients, id, req).None? && DocumentValid(Merged(clients[id], req))
    ensures RecordsStored(clients[id := Merged(clients[id], req)])
    ensures UniqueKeys(clients[id := Merged(clients[id], req)])
  {
    UpdatePreservesUniqueKeys(clients, id, req);
    MergedIsNormalised(clients[id], req);
    StorePreservesRecords(clients, id, Merged(clients[id], req));
  }

  /** A record under a fresh id whose keys no stored client holds keeps the keys unique. */
  lemma InsertFreshPreservesUniqueKeys(clients: Clients, id: Id, c: ClientRec)
    requires UniqueKeys(clients) && id !in clients
    requires forall j :: j in clients ==> && clients[j].idOrPassport != c.idOrPassport
                                          && clients[j].phone != c.phone
                                          && clients[j].licenseNumber != c.licenseNumber
    ensures UniqueKeys(clients[id := c])
  {
  }

  /** Replacing a record by one with the same three keys keeps the keys unique. */
  lemma SameKeysPreservesUniqueKeys(clients: Clients, id: Id, c: ClientRec)
    requires UniqueKeys(clients) && id in clients
    requires c.idOrPassport == clients[id].idOrPassport && c.phone == clients[id].phone
             && c.licenseNumber == clients[id].licenseNumber
    ensures UniqueKeys(clients[id := c])
  {
  }

  /** The message addClient answers a duplicate with: the prefix, then the phrase for
      the first of id/passport, phone and licence that the found client holds as the
      request's upper-cased id/passport, trimmed phone or upper-cased licence. */
  method ExistsMessage(existing: ClientRec, req: AddClientRequest) returns (message: string)
    requires !AddMissing(req)
    ensures message == ExistsPrefix + MessageTail(ReportedFieldAsWritten(existing, req))
  {
    message := ExistsPrefix;
    if existing.idOrPassport == ToUpper(req.idOrPassport.value) {
      message := message + "this ID/Passport number";
    } else if existing.phone == Trim(req.phone.value) {
      message := message + "this phone number";
    } else if existing.licenseNumber == ToUpper(req.licenseNumber.value) {
      message := message + "this license number";
    } else {
      assert ExistsPrefix + "" == ExistsPrefix;
    }
  }

  /** updateClient's six assignments on the loaded document, in the source's order. */
  method AssignFields(loaded: ClientRec, req: UpdateClientRequest) returns (c: ClientRec)
    ensures c == Merged(loaded, req)
  {
    c := loaded;
    c := c.(fullName := if req.fullName.Some? then CastText(req.fullName.value) else c.fullName);
    c := c.(idOrPassport := if Given(req.idOrPassport) then CastKey(ToUpper(req.idOrPassport.value)) else c.idOrPassport);
    c := c.(phone := if req.phone.Some? then CastText(req.phone.value) else c.phone);
    c := c.(address := if req.address.Some? then Some(CastText(req.address.value)) else c.address);
    c := c.(licenseNumber := if Given(req.licenseNumber) then CastKey(ToUpper(req.licenseNumber.value)) else c.licenseNumber);
    c := c.(citizenship := if req.citizenship.Some? then CastText(req.citizenship.value) else c.citizenship);
  }

  /** The client table. */
  class ClientRegistry {
    var clients: Clients
    var nextId: Id

    ghost predicate Valid()
      reads this
    {
      && (forall id :: id in clients ==> id < nextId)
      && RecordsStored(clients)
      && UniqueKeys(clients)
    }

    constructor ()
      ensures Valid() && clients == map[]
    {
      clients := map[];
      nextId := 0;
    }

    /** addClient: a missing field is 400; a client the duplicate query matches is
        400 with a message naming the first field equal to the request's upper-cased
        id/passport, trimmed phone or upper-cased licence, or none; a new record the
        validators refuse is 500; otherwise the normalised record is added under a
        fresh id. */
    method AddClient(req: AddClientRequest) returns (r: Outcome<Id, ClientFailure>)
      requires Valid()
      modifies this
      ensures Valid()
      ensures AddMissing(req) ==> r == Fail(MissingFields) && clients == old(clients)
      ensures !AddMissing(req) && (exists j :: j in old(clients) && MatchesAdd(old(clients)[j], req)) ==>
                && clients == old(clients)
                && exists j :: j in old(clients) && MatchesAdd(old(clients)[j], req)
                               && r == Fail(AlreadyExists(ExistsPrefix + MessageTail(ReportedFieldAsWritten(old(clients)[j], req))))
      ensures !AddMissing(req) && (forall j :: j in old(clients) ==> !MatchesAdd(old(clients)[j], req)) ==>
                if DocumentValid(NewClient(req))
                then r == Ok(old(nextId)) && old(nextId) !in old(clients) && clients == old(clients)[old(nextId) := NewClient(req)]
                else r == Fail(ServerError) && clients == old(clients)
    {
      if AddMissing(req) {
        return Fail(MissingFields);
      }
      if j :| j in clients && MatchesAdd(clients[j], req) {
        var message := ExistsMessage(clients[j], req);
        return Fail(AlreadyExists(message));
      }
      var c := NewClient(req);
      if !DocumentValid(c) {
        return Fail(ServerError);
      }
      NewClientKeysFresh(clients, req);
      StorePreservesRecords(clients, nextId, c);
      InsertFreshPreservesUniqueKeys(clients, nextId, c);
      clients := clients[nextId := c];
      r := Ok(nextId);
      nextId := nextId + 1;
    }

    /** updateClient: the six fields are assigned on the loaded record, which is
        validated and saved; the outcome is `UpdateOutcome`. */
    method UpdateClient(id: Option<Id>, req: UpdateClientRequest) returns (r: Outcome<ClientRec, ClientFailure>)
      requires Valid()
      modifies this
      ensures Valid() && nextId == old(nextId)
      ensures r == UpdateOutcome(old(clients), id, req)
      ensures r.Ok? ==> clients == old(clients)[id.value := r.value]
      ensures r.Fail? ==> clients == old(clients)
    {
      if id.None? {
        return Fail(ServerError);
      }
      if id.value !in clients {
        return Fail(ClientNotFound);
      }
      var conflict := UpdateConflictAsWritten(clients, id.value, req);
      if conflict.Some? {
        return Fail(Taken(conflict.value));
      }
      var c := AssignFields(clients[id.value], req);
      if !DocumentValid(c) {
        return Fail(ServerError);
      }
      AcceptedUpdateKeepsTable(clients, id.value, req);
      clients := clients[id.value := c];
      r := Ok(c);
    }

    /** updateClientStatus: a status outside the enumeration is 400 (checked first), an
        absent client 404; otherwise only the status changes. */
    method UpdateClientStatus(id: Option<Id>, status: Option<string>) returns (r: Outcome<ClientRec, ClientFailure>)
      requires Valid()
      modifies this
      ensures Valid() && nextId == old(nextId)
      ensures status.None? || ParseStatus(status.value).None? ==> r == Fail(InvalidStatus) && clients == old(clients)
      ensures status.Some? && ParseStatus(status.value).Some? ==>
                if id.Some? && id.value in old(clients)
                then r == Ok(old(clients)[id.value].(status := ParseStatus(status.value).value))
                     && clients == old(clients)[id.value := r.value]
                else r == Fail(if id.None? then ServerError else ClientNotFound) && clients == old(clients)
    {
      if status.None? || ParseStatus(status.value).None? {
        return Fail(InvalidStatus);
      }
      if id.None? {
        return Fail(ServerError);
      }
      if id.value !in clients {
        return Fail(ClientNotFound);
      }
      var c := clients[id.value];
      c := c.(status := ParseStatus(status.value).value);
      StorePreservesRecords(clients, id.value, c);
      SameKeysPreservesUniqueKeys(clients, id.value, c);
      clients := clients[id.value := c];
      r := Ok(c);
    }

    /** deleteClient: removes only that client; bookings referring to it are not
        touched. */
    method DeleteClient(id: Option<Id>) returns (r: Outcome<Id, ClientFailure>)
      requires Valid()
      modifies this
      ensures Valid() && nextId == old(nextId)
      ensures id.Some? && id.value in old(clients) ==> r == Ok(id.value) && clients == old(clients) - {id.value}
      ensures id.Some? && id.value !in old(clients) ==> r == Fail(ClientNotFound) && clients == old(clients)
      ensures id.None? ==> r == Fail(ServerError) && clients == old(clients)
    {
      if id.None? {
        return Fail(ServerError);
      }
      if id.value !in clients {
        return Fail(ClientNotFound);
      }
      clients := clients - {id.value};
      r := Ok(id.value);
    }
  }
}
