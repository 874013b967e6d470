/**
 * Declarative field validation in the style of pydantic's `Field(...)`:
 * a payload (the keyword arguments of a model constructor) is checked field
 * by field, and every failing field contributes one error, in declaration
 * order.
 */
module Fields {
  import opened Wrappers

  /** A date-time, represented by its ISO-8601 text. */
  type Timestamp = string

  /** The values a payload may carry for a field. */
  datatype Value = Int(i: int) | Str(s: string) | DateTime(t: Timestamp) | Null

  /** Keyword arguments: field name to value; an absent key is an omitted argument. */
  type Payload = map<string, Value>

  /**
   * Why one field was rejected (pydantic's error types). A text value in
   * a number or date-time field is a parsing error (`int_parsing`,
   * `float_parsing`, the date-time parsing error); any other wrong value is
   * a type error.
   */
  datatype ErrorType =
    | Missing
    | StringType
    | StringTooShort(minLength: nat)
    | StringTooLong(maxLength: nat)
    | IntType
    | IntParsing
    | FloatType
    | FloatParsing
    | GreaterThanEqual(ge: int)
    | GreaterThan(gt: int)
    | DateTimeType
    | DateTimeParsing

  datatype FieldError = FieldError(field: string, kind: ErrorType)

  /** A required string whose length lies in [minLength, maxLength]. */
  predicate StrIn(p: Payload, key: string, minLength: nat, maxLength: nat) {
    key in p && p[key].Str? && minLength <= |p[key].s| <= maxLength
  }

  /** A required string, unconstrained. */
  predicate IsText(p: Payload, key: string) {
    key in p && p[key].Str?
  }

  /** An optional string: omitted, None or a string. */
  predicate IsOptionalText(p: Payload, key: string) {
    key !in p || p[key].Null? || p[key].Str?
  }

  /** A required integer no smaller than `ge`. */
  predicate IntAtLeast(p: Payload, key: string, ge: int) {
    key in p && p[key].Int? && p[key].i >= ge
  }

  /** A required integer. */
  predicate IsInt(p: Payload, key: string) {
    key in p && p[key].Int?
  }

  /** An optional integer: omitted, None or an integer. */
  predicate IsOptionalInt(p: Payload, key: string) {
    key !in p || p[key].Null? || p[key].Int?
  }

  /** A required number strictly greater than `gt` (integers stand for the floats). */
  predicate NumberAbove(p: Payload, key: string, gt: int) {
    key in p && p[key].Int? && p[key].i > gt
  }

  /** A required date-time. */
  predicate IsDateTime(p: Payload, key: string) {
    key in p && p[key].DateTime?
  }

  /** The errors of one field: none exactly when the field is acceptable, else one. */
  predicate OneFieldErrors(errs: seq<FieldError>, key: string) {
    |errs| <= 1 && forall e :: e in errs ==> e.field == key
  }

  function CheckStr(p: Payload, key: string, minLength: nat, maxLength: nat): (errs: seq<FieldError>)
    ensures errs == [] <==> StrIn(p, key, minLength, maxLength)
    ensures OneFieldErrors(errs, key)
  {
    if key !in p then [FieldError(key, Missing)]
    else if !p[key].Str? then [FieldError(key, StringType)]
    else if |p[key].s| < minLength then [FieldError(key, StringTooShort(minLength))]
    else if |p[key].s| > maxLength then [FieldError(key, StringTooLong(maxLength))]
    else []
  }

  function CheckText(p: Payload, key: string): (errs: seq<FieldError>)
    ensures errs == [] <==> IsText(p, key)
    ensures OneFieldErrors(errs, key)
  {
    if key !in p then [FieldError(key, Missing)]
    else if !p[key].Str? then [FieldError(key, StringType)]
    else []
  }

  function CheckOptionalText(p: Payload, key: string): (errs: seq<FieldError>)
    ensures errs == [] <==> IsOptionalText(p, key)
    ensures OneFieldErrors(errs, key)
  {
    if key !in p || p[key].Null? || p[key].Str? then [] else [FieldError(key, StringType)]
  }

  function CheckIntAtLeast(p: Payload, key: string, ge: int): (errs: seq<FieldError>)
    ensures errs == [] <==> IntAtLeast(p, key, ge)
    ensures OneFieldErrors(errs, key)
    ensures key in p && p[key].Str? ==> errs == [FieldError(key, IntParsing)]
  {
    if key !in p then [FieldError(key, Missing)]
    else if p[key].Str? then [FieldError(key, IntParsing)]
    else if !p[key].Int? then [FieldError(key, IntType)]
    else if p[key].i < ge then [FieldError(key, GreaterThanEqual(ge))]
    else []
  }

  function CheckInt(p: Payload, key: string): (errs: seq<FieldError>)
    ensures errs == [] <==> IsInt(p, key)
    ensures OneFieldErrors(errs, key)
    ensures key in p && p[key].Str? ==> errs == [FieldError(key, IntParsing)]
  {
    if key !in p then [FieldError(key, Missing)]
    else if p[key].Str? then [FieldError(key, IntParsing)]
    else if !p[key].Int? then [FieldError(key, IntType)]
    else []
  }

  function CheckOptionalInt(p: Payload, key: string): (errs: seq<FieldError>)
    ensures errs == [] <==> IsOptionalInt(p, key)
    ensures OneFieldErrors(errs, key)
    ensures key in p && p[key].Str? ==> errs == [FieldError(key, IntParsing)]
  {
    if key !in p || p[key].Null? || p[key].Int? then []
    else if p[key].Str? then [FieldError(key, IntParsing)]
    else [FieldError(key, IntType)]
  }

  function CheckNumberAbove(p: Payload, key: string, gt: int): (errs: seq<FieldError>)
    ensures errs == [] <==> NumberAbove(p, key, gt)
    ensures OneFieldErrors(errs, key)
    ensures key in p && p[key].Str? ==> errs == [FieldError(key, FloatParsing)]
  {
    if key !in p then [FieldError(key, Missing)]
    else if p[key].Str? then [FieldError(key, FloatParsing)]
    else if !p[key].Int? then [FieldError(key, FloatType)]
    else if p[key].i <= gt then [FieldError(key, GreaterThan(gt))]
    else []
  }

  function CheckNumber(p: Payload, key: string): (errs: seq<FieldError>)
    ensures errs == [] <==> IsInt(p, key)
    ensures OneFieldErrors(errs, key)
    ensures key in p && p[key].Str? ==> errs == [FieldError(key, FloatParsing)]
  {
    if key !in p then [FieldError(key, Missing)]
    else if p[key].Str? then [FieldError(key, FloatParsing)]
    else if !p[key].Int? then [FieldError(key, FloatType)]
    else []
  }

  function CheckDateTime(p: Payload, key: string): (errs: seq<FieldError>)
    ensures errs == [] <==> IsDateTime(p, key)
    ensures OneFieldErrors(errs, key)
    ensures key in p && p[key].Str? ==> errs == [FieldError(key, DateTimeParsing)]
  {
    if key !in p then [FieldError(key, Missing)]
    else if p[key].Str? then [FieldError(key, DateTimeParsing)]
    else if !p[key].DateTime? then [FieldError(key, DateTimeType)]
    else []
  }

  /** The value of an optional integer field, None when omitted or not an integer. */
  function OptionalInt(p: Payload, key: string): Option<int> {
    if key in p && p[key].Int? then Some(p[key].i) else None
  }

  /** The value of an optional string field, None when omitted or None. */
  function OptionalText(p: Payload, key: string): Option<string> {
    if key in p && p[key].Str? then Some(p[key].s) else None
  }

  /** `s` repeated `n` times, Python's `s * n`. */
  function Repeat(s: string, n: nat): (r: string)
    requires |s| > 0
    ensures |r| == |s| * n
    ensures forall i :: 0 <= i < |r| ==> r[i] == s[i % |s|]
  {
    seq(|s| * n, i requires 0 <= i < |s| * n => s[i % |s|])
  }

  /** The decimal text of an integer, as an f-string renders it. */
  function Decimal(i: int): string {
    if i < 0 then "-" + Digits(-i) else Digits(i)
  }

  function Digits(n: nat): string
    decreases n
  {
    if n < 10 then ["0123456789"[n]] else Digits(n / 10) + ["0123456789"[n % 10]]
  }
}
