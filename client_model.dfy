/** The client document: status enumeration, the values the schema's setters store,
    the path validators, and the mapping of duplicate-key errors to messages. */
module ClientModel {
  import opened Common

  datatype ClientStatus = ACTIVE | SUSPENDED

  const DefaultStatus: ClientStatus := ACTIVE

  function StatusName(s: ClientStatus): string {
    match s
    case ACTIVE => "ACTIVE"
    case SUSPENDED => "SUSPENDED"
  }

  /** Membership in the enumeration ['ACTIVE', 'SUSPENDED']. */
  function ParseStatus(s: string): Option<ClientStatus> {
    if s == "ACTIVE" then Some(ACTIVE)
    else if s == "SUSPENDED" then Some(SUSPENDED)
    else None
  }

  /** The enumeration accepts exactly the two status names, each naming its status. */
  lemma ParseStatusIsInverse(s: string, st: ClientStatus)
    ensures ParseStatus(StatusName(st)) == Some(st)
    ensures ParseStatus(s) == Some(st) ==> StatusName(st) == s
  {
  }

  /** A stored client: every string as the schema's setters left it. */
  datatype ClientRec = ClientRec(
    fullName: string,
    idOrPassport: string,
    phone: string,
    address: Option<string>,
    citizenship: string,
    licenseNumber: string,
    status: ClientStatus)

  /** Value stored for a `trim: true` path (fullName, phone, address, citizenship). */
  function CastText(s: string): string {
    Trim(s)
  }

  /** Value stored for a `trim: true, uppercase: true` path (idOrPassport, licenseNumber). */
  function CastKey(s: string): string {
    TrimUpper(s)
  }

  /** A stored key has no surrounding whitespace and no lower-case ASCII letter. */
  lemma CastKeyIsNormal(s: string)
    ensures Trimmed(CastKey(s))
    ensures forall i :: 0 <= i < |CastKey(s)| ==> !('a' <= CastKey(s)[i] <= 'z')
  {
    TrimmedResult(s);
    var t := Trim(s);
    ToUpperShape(t);
    if t != [] {
      UpperCharKeepsWhitespace(t[0]);
      UpperCharKeepsWhitespace(t[|t| - 1]);
    }
  }

  /** Characters of /^[0-9+\-\s()]+$/. */
  predicate IsPhoneChar(c: char) {
    ('0' <= c <= '9') || c == '+' || c == '-' || IsWhitespace(c) || c == '(' || c == ')'
  }

  predicate PhoneMatches(s: string) {
    |s| > 0 && forall i :: 0 <= i < |s| ==> IsPhoneChar(s[i])
  }

  /** The `required` validator of a string path: "" fails it. */
  predicate Required(s: string) {
    s != ""
  }

  /** fullName: required, at least two characters once trimmed. */
  predicate FullNameValid(v: string) {
    Required(v) && |v| >= 2
  }

  /** phone: required and made of digits, '+', '-', whitespace and parentheses. */
  predicate PhoneValid(v: string) {
    Required(v) && PhoneMatches(v)
  }

  /** address: optional, at most 200 characters. */
  predicate AddressValid(a: Option<string>) {
    a.None? || |a.value| <= 200
  }

  /** All path validators of a stored client. */
  predicate DocumentValid(c: ClientRec) {
    && FullNameValid(c.fullName)
    && Required(c.idOrPassport)
    && PhoneValid(c.phone)
    && AddressValid(c.address)
    && Required(c.citizenship)
    && Required(c.licenseNumber)
  }

  /** The phone is checked after trimming; letters are refused, and so is a blank number. */
  lemma PhoneExamples()
    ensures PhoneValid(CastText(" +254 (712) 345-678 "))
    ensures !PhoneValid(CastText("0712x"))
    ensures !PhoneValid(CastText(" "))
  {
    var p := "+254 (712) 345-678";
    assert PhoneMatches(p);
    TrimPadded(p);
    assert [' '] + p + [' '] == " +254 (712) 345-678 ";
    TrimOfTrimmed("0712x");
    assert "0712x"[4] == 'x';
    assert " "[1..] == [];
  }

  /** A full name is measured after trimming. */
  lemma FullNameMeasuredTrimmed()
    ensures !FullNameValid(CastText(" A "))
    ensures FullNameValid(CastText(" Al "))
  {
    TrimPadded("A");
    assert [' '] + "A" + [' '] == " A ";
    TrimPadded("Al");
    assert [' '] + "Al" + [' '] == " Al ";
  }

  /** The post-save hook: a duplicate-key error becomes a message naming the first key
      of its key pattern; any other error passes through. */
  function MapSaveError(e: DbError): DbError {
    if IsDuplicateKey(e) then
      var field := if |e.keyPattern| > 0 then Some(e.keyPattern[0]) else None;
      PlainError(DuplicateMessage(field))
    else e
  }

  function DuplicateMessage(field: Option<string>): string {
    if field == Some("idOrPassport") then "ID or Passport number already exists"
    else if field == Some("phone") then "Phone number already exists"
    else if field == Some("licenseNumber") then "License number already exists"
    else "Duplicate entry"
  }

  /** Errors other than a duplicate key leave the hook unchanged. */
  lemma MapSaveErrorPassesOthers(e: DbError)
    requires !IsDuplicateKey(e)
    ensures MapSaveError(e) == e
  {
  }

  /** Each unique path has its own message; any other first key, or none, gives the generic one. */
  lemma MapSaveErrorMessages(e: DbError)
    requires IsDuplicateKey(e)
    ensures MapSaveError(e).name == "Error"
    ensures |e.keyPattern| > 0 && e.keyPattern[0] == "phone" ==> MapSaveError(e).message == "Phone number already exists"
    ensures |e.keyPattern| > 0 && e.keyPattern[0] == "idOrPassport" ==> MapSaveError(e).message == "ID or Passport number already exists"
    ensures |e.keyPattern| > 0 && e.keyPattern[0] == "licenseNumber" ==> MapSaveError(e).message == "License number already exists"
    ensures (|e.keyPattern| == 0 || e.keyPattern[0] !in {"phone", "idOrPassport", "licenseNumber"})
            ==> MapSaveError(e).message == "Duplicate entry"
  {
  }
}
