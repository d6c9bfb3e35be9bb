/** The vehicle document: status enumeration, the path validators (including the
    time-of-day and licence-plate patterns), and the duplicate-key error mapping. */
module VehicleModel {
  import opened Common

  datatype VehicleStatus = Available | Booked | Maintenance

  const DefaultStatus: VehicleStatus := Available

  function StatusName(s: VehicleStatus): string {
    match s
    case Available => "Available"
    case Booked => "Booked"
    case Maintenance => "Maintenance"
  }

  /** Membership in the enumeration ['Available', 'Booked', 'Maintenance']. */
  function ParseStatus(s: string): Option<VehicleStatus> {
    if s == "Available" then Some(Available)
    else if s == "Booked" then Some(Booked)
    else if s == "Maintenance" then Some(Maintenance)
    else None
  }

  /** The enumeration accepts exactly the three status names, each naming its status. */
  lemma ParseStatusIsInverse(s: string, st: VehicleStatus)
    ensures ParseStatus(StatusName(st)) == Some(st)
    ensures ParseStatus(s) == Some(st) ==> StatusName(st) == s
  {
  }

  /** A stored vehicle. Dates are instants; the daily rate is a whole amount. */
  datatype VehicleRec = VehicleRec(
    make: string,
    model: string,
    year: int,
    color: Option<string>,
    licensePlate: string,
    status: VehicleStatus,
    dateOut: Option<int>,
    timeOut: Option<string>,
    dateIn: Option<int>,
    timeIn: Option<string>,
    dailyRate: int)

  /** Value stored for the licence plate: `trim: true, uppercase: true`. */
  function CastPlate(s: string): string {
    TrimUpper(s)
  }

  /** make and model: required, at least two characters once trimmed. */
  predicate NameValid(v: string) {
    v != "" && |v| >= 2
  }

  /** year: between 1900 and one year past the year the schema was loaded in. */
  predicate YearValid(y: int, currentYear: int) {
    1900 <= y <= currentYear + 1
  }

  /** color: optional, at most 50 characters. */
  predicate ColorValid(c: Option<string>) {
    c.None? || |c.value| <= 50
  }

  /** Characters of /^[A-Z0-9\s-]+$/. */
  predicate IsPlateChar(c: char) {
    ('A' <= c <= 'Z') || ('0' <= c <= '9') || IsWhitespace(c) || c == '-'
  }

  /** licensePlate (a stored, normalised value): required and matching the pattern. */
  predicate PlateValid(v: string) {
    v != "" && forall i :: 0 <= i < |v| ==> IsPlateChar(v[i])
  }

  /** dailyRate: not negative. */
  predicate DailyRateValid(r: int) {
    r >= 0
  }

  predicate IsDigit(c: char) {
    '0' <= c <= '9'
  }

  /** `([0-1]?[0-9]|2[0-3])` */
  predicate HourText(h: string) {
    || (|h| == 1 && IsDigit(h[0]))
    || (|h| == 2 && '0' <= h[0] <= '1' && IsDigit(h[1]))
    || (|h| == 2 && h[0] == '2' && '0' <= h[1] <= '3')
  }

  /** `[0-5][0-9]` */
  predicate MinuteText(m: string) {
    |m| == 2 && '0' <= m[0] <= '5' && IsDigit(m[1])
  }

  /** /^([0-1]?[0-9]|2[0-3]):[0-5][0-9]$/: the minutes are the last two characters,
      preceded by a colon, and everything before it is the hour. */
  predicate MatchesTime(s: string) {
    |s| >= 3 && HourText(s[..|s| - 3]) && s[|s| - 3] == ':' && MinuteText(s[|s| - 2..])
  }

  /** The `match` validator of timeOut and timeIn: like every Mongoose `match`
      validator it passes an empty string, and these paths are not required. */
  predicate TimeMatchValid(s: string) {
    s == "" || MatchesTime(s)
  }

  /** timeOut and timeIn: optional, and when given empty or matching the pattern. */
  predicate TimeValid(t: Option<string>) {
    t.None? || TimeMatchValid(t.value)
  }

  /** All path validators of a stored vehicle. */
  predicate DocumentValid(v: VehicleRec, currentYear: int) {
    && NameValid(v.make)
    && NameValid(v.model)
    && YearValid(v.year, currentYear)
    && ColorValid(v.color)
    && PlateValid(v.licensePlate)
    && TimeValid(v.timeOut)
    && TimeValid(v.timeIn)
    && DailyRateValid(v.dailyRate)
  }

  function Digit(n: int): char
    requires 0 <= n < 10
  {
    ('0' as int + n) as char
  }

  function DigitValue(c: char): int
    requires IsDigit(c)
  {
    c as int - '0' as int
  }

  /** A time of day written as the pattern intends: hour, colon, two-digit minutes;
      an hour below ten is written with one digit unless `padded`. */
  function TimeText(h: int, m: int, padded: bool): string
    requires 0 <= h < 24 && 0 <= m < 60
  {
    (if h < 10 && !padded then [Digit(h)] else [Digit(h / 10), Digit(h % 10)])
    + [':', Digit(m / 10), Digit(m % 10)]
  }

  function HourOf(s: string): int
    requires MatchesTime(s)
  {
    if |s| == 4 then DigitValue(s[0]) else 10 * DigitValue(s[0]) + DigitValue(s[1])
  }

  function MinuteOf(s: string): int
    requires MatchesTime(s)
  {
    10 * DigitValue(s[|s| - 2]) + DigitValue(s[|s| - 1])
  }

  /** Every formatted time of day matches the pattern. */
  lemma TimeTextMatches(h: int, m: int, padded: bool)
    requires 0 <= h < 24 && 0 <= m < 60
    ensures MatchesTime(TimeText(h, m, padded))
  {
    var s := TimeText(h, m, padded);
    assert s[|s| - 2..] == [Digit(m / 10), Digit(m % 10)];
    if h < 10 && !padded {
      assert s[..|s| - 3] == [Digit(h)];
    } else {
      assert s[..|s| - 3] == [Digit(h / 10), Digit(h % 10)];
    }
  }

  /** Every string the pattern accepts is a formatted time of day: an hour in 0..23
      and minutes in 0..59. */
  lemma MatchesTimeIsTimeText(s: string)
    requires MatchesTime(s)
    ensures 0 <= HourOf(s) < 24 && 0 <= MinuteOf(s) < 60
    ensures s == TimeText(HourOf(s), MinuteOf(s), |s| == 5)
  {
    var h, m := HourOf(s), MinuteOf(s);
    assert s[|s| - 2..][0] == s[|s| - 2] && s[|s| - 2..][1] == s[|s| - 1];
    if |s| == 4 {
      assert s[..1][0] == s[0];
    } else {
      assert s[..2][0] == s[0] && s[..2][1] == s[1];
    }
    var t := TimeText(h, m, |s| == 5);
    assert |t| == |s|;
    forall i | 0 <= i < |s| ensures t[i] == s[i] {
    }
  }

  /** The time pattern accepts exactly the formatted times of day. */
  lemma TimePatternIsTimeOfDay(s: string)
    ensures MatchesTime(s) <==> exists h, m, p :: 0 <= h < 24 && 0 <= m < 60 && s == TimeText(h, m, p)
  {
    if MatchesTime(s) {
      MatchesTimeIsTimeText(s);
    }
    if exists h, m, p :: 0 <= h < 24 && 0 <= m < 60 && s == TimeText(h, m, p) {
      var h, m, p :| 0 <= h < 24 && 0 <= m < 60 && s == TimeText(h, m, p);
      TimeTextMatches(h, m, p);
    }
  }

  lemma TimeExamples()
    ensures MatchesTime("9:05") && MatchesTime("09:05") && MatchesTime("23:59") && MatchesTime("0:00")
    ensures !MatchesTime("24:00") && !MatchesTime("12:60") && !MatchesTime("9:5") && !MatchesTime("123:00")
  {
    assert "9:05"[..1] == "9";
    assert "09:05"[..2] == "09";
    assert "23:59"[..2] == "23";
    assert "0:00"[..1] == "0";
    assert "24:00"[..2] == "24";
    assert "123:00"[..3] == "123";
  }

  /** The plate is normalised before it is validated, so the case of the input does
      not matter. */
  lemma PlateIgnoresCase(s: string)
    ensures CastPlate(ToUpper(s)) == CastPlate(s)
  {
    TrimUpperAbsorbsUpper(s);
  }

  /** Lower-case input is accepted and stored upper-case. */
  lemma PlateLowerCaseAccepted()
    ensures CastPlate("kca 123a") == "KCA 123A" && PlateValid(CastPlate("kca 123a"))
  {
    TrimOfTrimmed("kca 123a");
    assert ToUpper("kca 123a") == "KCA 123A";
  }

  /** Hyphens are accepted. */
  lemma PlateHyphenAccepted()
    ensures PlateValid(CastPlate("AB-12"))
  {
    TrimOfTrimmed("AB-12");
    assert ToUpper("AB-12") == "AB-12";
  }

  /** Other symbols are refused. */
  lemma PlateUnderscoreRefused()
    ensures !PlateValid(CastPlate("AB_12"))
  {
    TrimOfTrimmed("AB_12");
    assert ToUpper("AB_12")[2] == '_';
  }

  /** A blank plate is refused: it trims to "". */
  lemma PlateBlankRefused()
    ensures !PlateValid(CastPlate(" "))
  {
    assert " "[1..] == [];
    assert Trim(" ") == "";
  }

  /** Re-storing a stored plate changes nothing. */
  lemma CastPlateIdempotent(s: string)
    ensures CastPlate(CastPlate(s)) == CastPlate(s)
  {
    TrimUpperIdempotent(s);
  }

  /** The post-save hook: a duplicate-key error becomes "License plate already exists";
      any other error passes through. */
  function MapSaveError(e: DbError): DbError {
    if IsDuplicateKey(e) then PlainError("License plate already exists") else e
  }

  lemma MapSaveErrorCases(e: DbError)
    ensures IsDuplicateKey(e) ==> MapSaveError(e) == PlainError("License plate already exists")
    ensures !IsDuplicateKey(e) ==> MapSaveError(e) == e
  {
  }
}
