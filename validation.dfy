/** What the input models share: the shape of a validation failure, the
    per-field checks (enum membership, numeric and length bounds, the
    customer id), and the two date checks. Every failed field check yields
    one error, and all of a model's field errors are reported together, in
    field declaration order; a model's own validator runs only when every
    field passed, and raises its first failing rule. */
module Validation {
  import opened Wrappers
  import opened Text
  import opened Common

  datatype Violation =
    | BadCustomerId(reason: CustomerIdError)
    | NotInEnum(allowed: set<string>)
    | NotGreaterThanZero
    | LessThanZero
    | TooShort(minLength: nat)
    | TooLong(maxLength: nat)
    | BadValue(message: string)

  datatype FieldError = FieldError(loc: string, violation: Violation)

  datatype ValidationError =
    | FieldErrors(errors: seq<FieldError>)
    | ModelError(message: string)

  /** The customer id's own check; its error is always reported first. */
  function CustomerIdErrors(raw: string): (r: seq<FieldError>)
    ensures r == [] <==> ValidateCustomerId(raw).Ok?
    ensures r != [] ==> r == [FieldError("customer_id", BadCustomerId(ValidateCustomerId(raw).error))]
  {
    match ValidateCustomerId(raw)
    case Ok(_) => []
    case Err(e) => [FieldError("customer_id", BadCustomerId(e))]
  }

  function EnumErrors(loc: string, value: string, allowed: set<string>): (r: seq<FieldError>)
    ensures r == [] <==> value in allowed
    ensures |r| <= 1
  {
    if value in allowed then [] else [FieldError(loc, NotInEnum(allowed))]
  }

  /** An optional enum field: None is always allowed. */
  function OptEnumErrors(loc: string, value: Option<string>, allowed: set<string>): (r: seq<FieldError>)
    ensures r == [] <==> value.None? || value.value in allowed
    ensures |r| <= 1
  {
    if value.None? then [] else EnumErrors(loc, value.value, allowed)
  }

  /** `gt=0`; an absent optional value is not checked. */
  function PositiveErrors(loc: string, value: Option<int>): (r: seq<FieldError>)
    ensures r == [] <==> value.None? || value.value > 0
    ensures |r| <= 1
  {
    if value.Some? && value.value <= 0 then [FieldError(loc, NotGreaterThanZero)] else []
  }

  /** `gt=0` on a real-valued field. */
  function PositiveRealErrors(loc: string, value: Option<real>): (r: seq<FieldError>)
    ensures r == [] <==> value.None? || value.value > 0.0
    ensures |r| <= 1
  {
    if value.Some? && value.value <= 0.0 then [FieldError(loc, NotGreaterThanZero)] else []
  }

  /** `ge=0` on a real-valued field. */
  function NonNegativeRealErrors(loc: string, value: Option<real>): (r: seq<FieldError>)
    ensures r == [] <==> value.None? || value.value >= 0.0
    ensures |r| <= 1
  {
    if value.Some? && value.value < 0.0 then [FieldError(loc, LessThanZero)] else []
  }

  /** `min_length` and, when given, `max_length` on a list. */
  function LengthErrors(loc: string, length: nat, minLength: nat, maxLength: Option<nat>): (r: seq<FieldError>)
    ensures r == [] <==> minLength <= length && (maxLength.None? || length <= maxLength.value)
    ensures |r| <= 1
  {
    if length < minLength then [FieldError(loc, TooShort(minLength))]
    else if maxLength.Some? && length > maxLength.value then [FieldError(loc, TooLong(maxLength.value))]
    else []
  }

  /** The outcome of a model: its field errors when there are any, else the
      message of its own rule when that raised, else the value. */
  function Finish<T>(errors: seq<FieldError>, rule: Option<string>, value: T): (r: Result<T, ValidationError>)
    ensures errors != [] ==> r == Err(FieldErrors(errors))
    ensures errors == [] && rule.Some? ==> r == Err(ModelError(rule.value))
    ensures r.Ok? <==> errors == [] && rule.None?
    ensures r.Ok? ==> r.value == value
  {
    if errors != [] then Err(FieldErrors(errors))
    else if rule.Some? then Err(ModelError(rule.value))
    else Ok(value)
  }

  // ---- Dates ----

  predicate IsLeapYear(y: int) {
    (y % 4 == 0 && y % 100 != 0) || y % 400 == 0
  }

  function DaysInMonth(y: int, m: int): int
    requires 1 <= m <= 12
  {
    if m == 2 then (if IsLeapYear(y) then 29 else 28)
    else if m == 4 || m == 6 || m == 9 || m == 11 then 30
    else 31
  }

  /** Ten characters: four digits, '-', two digits, '-', two digits. */
  predicate DateShape(s: string) {
    |s| == 10 && s[4] == '-' && s[7] == '-'
    && AllDigits(s[..4]) && AllDigits(s[5..7]) && AllDigits(s[8..])
  }

  function YearOf(s: string): nat
    requires DateShape(s)
  {
    DigitsValue(s[..4])
  }

  function MonthOf(s: string): nat
    requires DateShape(s)
  {
    DigitsValue(s[5..7])
  }

  function DayOf(s: string): nat
    requires DateShape(s)
  {
    DigitsValue(s[8..])
  }

  /** `date.fromisoformat` on the YYYY-MM-DD form: a real Gregorian
      calendar date from year 1 on. */
  predicate IsIsoDate(s: string) {
    && DateShape(s)
    && 1 <= YearOf(s)
    && 1 <= MonthOf(s) <= 12
    && 1 <= DayOf(s) <= DaysInMonth(YearOf(s), MonthOf(s))
  }

  /** The calendar order of two dates, as one comparable number. */
  function DateOrdinalKey(s: string): nat
    requires DateShape(s)
  {
    YearOf(s) * 10000 + MonthOf(s) * 100 + DayOf(s)
  }

  /** `re.match(r'^\d{4}-\d{2}-\d{2}$', v)`: the shape, where `$` also
      accepts one trailing newline. */
  predicate MatchesDatePattern(s: string) {
    DateShape(s) || (|s| == 11 && s[10] == '\n' && DateShape(s[..10]))
  }

  /** Every calendar date passes the format-only check. */
  lemma IsoDateMatchesPattern(s: string)
    requires IsIsoDate(s)
    ensures MatchesDatePattern(s)
  {
  }

  /** The format-only check accepts a day that does not exist. */
  lemma PatternWithoutCalendar()
    ensures MatchesDatePattern("2026-02-31") && !IsIsoDate("2026-02-31")
  {
    var s := "2026-02-31";
    assert s[..4] == "2026" && s[5..7] == "02" && s[8..] == "31";
    assert DigitsValue("2026") == 2026 by {
      assert "2026"[..3] == "202" && "202"[..2] == "20" && "20"[..1] == "2" && "2"[..0] == "";
    }
    assert DigitsValue("02") == 2 by {
      assert "02"[..1] == "0" && "0"[..0] == "";
    }
    assert DigitsValue("31") == 31 by {
      assert "31"[..1] == "3" && "3"[..0] == "";
    }
    assert DayOf(s) == 31 && MonthOf(s) == 2;
  }

  /** A day-first date does not have the shape at all. */
  lemma DayFirstRejected()
    ensures !MatchesDatePattern("01-03-2026") && !IsIsoDate("01-03-2026")
  {
    assert "01-03-2026"[4] == '3';
  }

  /** The characters of a YouTube video id: `[a-zA-Z0-9_-]`. */
  predicate IsVideoIdChar(c: char) {
    ('a' <= c <= 'z') || ('A' <= c <= 'Z') || ('0' <= c <= '9') || c == '_' || c == '-'
  }

  predicate VideoIdShape(s: string) {
    |s| == 11 && forall i :: 0 <= i < 11 ==> IsVideoIdChar(s[i])
  }

  /** `re.match(r"^[a-zA-Z0-9_-]{11}$", v)`, `$` again allowing one
      trailing newline. */
  predicate MatchesVideoIdPattern(s: string) {
    VideoIdShape(s) || (|s| == 12 && s[11] == '\n' && VideoIdShape(s[..11]))
  }
}
