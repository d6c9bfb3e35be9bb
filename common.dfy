/** Shared vocabulary: optional values, store identifiers, request truthiness,
    the database error shape, and the two string normalisations the schemas apply
    (JavaScript `trim` and `toUpperCase`). */
module Common {

  datatype Option<+T> = None | Some(value: T)

  /** Either a value or the failure the handler reports. */
  datatype Outcome<+T, +F> = Ok(value: T) | Fail(failure: F)

  /** Document identifiers as the store hands them out. */
  type Id = nat

  /** JavaScript truthiness of an optional request string: absent and "" are falsy. */
  predicate Given(o: Option<string>) {
    o.Some? && o.value != ""
  }

  /** JavaScript truthiness of an optional request number: absent and 0 are falsy. */
  predicate GivenNumber(o: Option<int>) {
    o.Some? && o.value != 0
  }

  /** A date field of a request: absent or empty, present but not a date, or an instant
      in milliseconds. */
  datatype DateInput = Missing | Unparseable | Date(time: int)

  /** An error as the database driver and the schema hooks pass it along. */
  datatype DbError = DbError(name: string, code: Option<int>, keyPattern: seq<string>, message: string)

  const DuplicateKeyCode: int := 11000

  /** A duplicate-key error as the schema hooks recognise it. */
  predicate IsDuplicateKey(e: DbError) {
    e.name == "MongoError" && e.code == Some(DuplicateKeyCode)
  }

  /** A plain `new Error(message)`. */
  function PlainError(message: string): DbError {
    DbError("Error", None, [], message)
  }

  /** The characters JavaScript's `trim` removes and `\s` matches:
      WhiteSpace and LineTerminator of ECMAScript. */
  predicate IsWhitespace(c: char) {
    c == '\U{0009}' || c == '\U{000A}' || c == '\U{000B}' || c == '\U{000C}' || c == '\U{000D}'
    || c == ' ' || c == '\U{00A0}' || c == '\U{1680}'
    || ('\U{2000}' <= c <= '\U{200A}')
    || c == '\U{2028}' || c == '\U{2029}' || c == '\U{202F}' || c == '\U{205F}' || c == '\U{3000}'
    || c == '\U{FEFF}'
  }

  /** Drops leading whitespace. */
  function TrimStart(s: string): string {
    if s != [] && IsWhitespace(s[0]) then TrimStart(s[1..]) else s
  }

  /** The result of `TrimStart` is a suffix of `s`, everything dropped is whitespace,
      and the result does not start with whitespace. */
  lemma {:induction false} TrimStartShape(s: string)
    ensures |TrimStart(s)| <= |s| && TrimStart(s) == s[|s| - |TrimStart(s)|..]
    ensures forall i :: 0 <= i < |s| - |TrimStart(s)| ==> IsWhitespace(s[i])
    ensures TrimStart(s) == [] || !IsWhitespace(TrimStart(s)[0])
    decreases |s|
  {
    if s != [] && IsWhitespace(s[0]) {
      TrimStartShape(s[1..]);
    }
  }

  /** Drops trailing whitespace. */
  function TrimEnd(s: string): string {
    if s != [] && IsWhitespace(s[|s| - 1]) then TrimEnd(s[..|s| - 1]) else s
  }

  /** The result of `TrimEnd` is a prefix of `s`, everything dropped is whitespace,
      and the result does not end with whitespace. */
  lemma {:induction false} TrimEndShape(s: string)
    ensures |TrimEnd(s)| <= |s| && TrimEnd(s) == s[..|TrimEnd(s)|]
    ensures forall i :: |TrimEnd(s)| <= i < |s| ==> IsWhitespace(s[i])
    ensures TrimEnd(s) == [] || !IsWhitespace(TrimEnd(s)[|TrimEnd(s)| - 1])
    decreases |s|
  {
    if s != [] && IsWhitespace(s[|s| - 1]) {
      TrimEndShape(s[..|s| - 1]);
    }
  }

  /** JavaScript `String.prototype.trim`. */
  function Trim(s: string): string {
    TrimEnd(TrimStart(s))
  }

  /** A string with neither leading nor trailing whitespace. */
  predicate Trimmed(s: string) {
    s == [] || (!IsWhitespace(s[0]) && !IsWhitespace(s[|s| - 1]))
  }

  lemma TrimStartOfTrimmed(s: string)
    requires Trimmed(s)
    ensures TrimStart(s) == s
  {
  }

  lemma TrimEndOfTrimmed(s: string)
    requires Trimmed(s)
    ensures TrimEnd(s) == s
  {
  }

  /** A string that is already trimmed is its own trim. */
  lemma TrimOfTrimmed(s: string)
    requires Trimmed(s)
    ensures Trim(s) == s
  {
    TrimStartOfTrimmed(s);
    TrimEndOfTrimmed(s);
  }

  /** One space on each side of a trimmed string is removed and nothing else. */
  lemma TrimPadded(s: string)
    requires Trimmed(s)
    ensures Trim([' '] + s + [' ']) == s
  {
    var p := [' '] + s + [' '];
    assert p[1..] == s + [' '];
    if s == [] {
      assert TrimStart(p[1..]) == TrimStart([' '][1..]);
    } else {
      assert (s + [' '])[0] == s[0];
      assert TrimStart(p) == s + [' '];
      assert (s + [' '])[..|s|] == s;
      TrimEndOfTrimmed(s);
    }
  }

  /** `trim` leaves a string without surrounding whitespace, and drops only whitespace. */
  lemma TrimmedResult(s: string)
    ensures Trimmed(Trim(s))
    ensures exists i, j :: 0 <= i <= j <= |s| && Trim(s) == s[i..j]
                        && (forall k :: 0 <= k < i ==> IsWhitespace(s[k]))
                        && (forall k :: j <= k < |s| ==> IsWhitespace(s[k]))
  {
    var t := TrimStart(s);
    var r := TrimEnd(t);
    TrimStartShape(s);
    TrimEndShape(t);
    var i := |s| - |t|;
    assert r == s[i..i + |r|];
    if r != [] {
      assert r[0] == t[0];
    }
  }

  /** Trimming twice is trimming once. */
  lemma TrimIdempotent(s: string)
    ensures Trim(Trim(s)) == Trim(s)
  {
    TrimmedResult(s);
    TrimStartOfTrimmed(Trim(s));
    TrimEndOfTrimmed(Trim(s));
  }

  /** `toUpperCase` on one character, for the ASCII letters. */
  function UpperChar(c: char): char {
    if 'a' <= c <= 'z' then (c as int - 32) as char else c
  }

  /** JavaScript `String.prototype.toUpperCase`, restricted to ASCII letters. */
  function ToUpper(s: string): string {
    if s == [] then [] else [UpperChar(s[0])] + ToUpper(s[1..])
  }

  /** Upper-casing keeps the length and upper-cases each character in place. */
  lemma {:induction false} ToUpperShape(s: string)
    ensures |ToUpper(s)| == |s|
    ensures forall i :: 0 <= i < |s| ==> ToUpper(s)[i] == UpperChar(s[i])
    decreases |s|
  {
    if s != [] {
      ToUpperShape(s[1..]);
    }
  }

  /** Upper-casing twice is upper-casing once. */
  lemma {:induction false} ToUpperIdempotent(s: string)
    ensures ToUpper(ToUpper(s)) == ToUpper(s)
    decreases |s|
  {
    if s != [] {
      ToUpperIdempotent(s[1..]);
      assert ToUpper(s)[1..] == ToUpper(s[1..]);
    }
  }

  /** Upper-casing never turns whitespace into non-whitespace or back. */
  lemma UpperCharKeepsWhitespace(c: char)
    ensures IsWhitespace(UpperChar(c)) <==> IsWhitespace(c)
  {
  }

  lemma {:induction false} TrimStartToUpper(s: string)
    ensures TrimStart(ToUpper(s)) == ToUpper(TrimStart(s))
    decreases |s|
  {
    if s != [] {
      UpperCharKeepsWhitespace(s[0]);
      if IsWhitespace(s[0]) {
        assert ToUpper(s)[1..] == ToUpper(s[1..]);
        TrimStartToUpper(s[1..]);
      }
    }
  }

  lemma {:induction false} TrimEndToUpper(s: string)
    ensures TrimEnd(ToUpper(s)) == ToUpper(TrimEnd(s))
    decreases |s|
  {
    if s != [] {
      ToUpperShape(s);
      UpperCharKeepsWhitespace(s[|s| - 1]);
      if IsWhitespace(s[|s| - 1]) {
        ToUpperShape(s[..|s| - 1]);
        assert ToUpper(s)[..|s| - 1] == ToUpper(s[..|s| - 1]);
        TrimEndToUpper(s[..|s| - 1]);
      }
    }
  }

  /** The schema's `trim` and `uppercase` setters commute, so the order in which
      they run does not matter. */
  lemma TrimUpperCommute(s: string)
    ensures Trim(ToUpper(s)) == ToUpper(Trim(s))
  {
    TrimStartToUpper(s);
    TrimEndToUpper(TrimStart(s));
  }

  /** The normalisation a `trim: true, uppercase: true` path applies. */
  function TrimUpper(s: string): string {
    ToUpper(Trim(s))
  }

  /** Normalising an already normalised value changes nothing. */
  lemma TrimUpperIdempotent(s: string)
    ensures TrimUpper(TrimUpper(s)) == TrimUpper(s)
  {
    TrimUpperCommute(Trim(s));
    TrimIdempotent(s);
    ToUpperIdempotent(Trim(s));
  }

  /** Upper-casing before normalising does not change the normalised value. */
  lemma TrimUpperAbsorbsUpper(s: string)
    ensures TrimUpper(ToUpper(s)) == TrimUpper(s)
  {
    TrimUpperCommute(s);
    ToUpperIdempotent(Trim(s));
  }
}
