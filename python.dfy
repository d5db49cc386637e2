/**
 * The small part of Python's runtime that the modelled code leans on: optional
 * values, exceptions, the loose scalar values the loaders hand over, truthiness,
 * `str.strip()` emptiness, and the conversions (`float(...)`, `str(...)` and the
 * two date helpers) whose text formats are outside this model.
 */
module Python {

  datatype Option<T> = None | Some(value: T)

  /** A value, or the exception that replaced it. */
  datatype Result<T, E> = Success(value: T) | Failure(error: E)

  /** The exception classes that the modelled code raises, catches or lets through. */
  datatype PyError = AttributeError | KeyError | TypeError | ValueError | IndexError | OtherError

  /** A loose scalar: one JSON array element, one CSV cell, or a constructor argument. */
  datatype Value = Null | Bool(b: bool) | Num(x: real) | Str(s: string)

  /** Python truthiness of a scalar: None, False, zero and "" are falsy. */
  predicate Truthy(v: Value) {
    match v
    case Null => false
    case Bool(b) => b
    case Num(x) => x != 0.0
    case Str(s) => s != ""
  }

  /** `str.isspace()` for one character: the characters `str.strip()` removes. */
  predicate IsSpace(c: char) {
    c in {' ', '\t', '\n', '\r', '\U{000B}', '\U{000C}',
          '\U{001C}', '\U{001D}', '\U{001E}', '\U{001F}', '\U{0085}', '\U{00A0}',
          '\U{1680}', '\U{2000}', '\U{2001}', '\U{2002}', '\U{2003}', '\U{2004}',
          '\U{2005}', '\U{2006}', '\U{2007}', '\U{2008}', '\U{2009}', '\U{200A}',
          '\U{2028}', '\U{2029}', '\U{202F}', '\U{205F}', '\U{3000}'}
  }

  /** `s.strip() == ""`: the string is empty or made of whitespace only. */
  predicate Blank(s: string) {
    forall i :: 0 <= i < |s| ==> IsSpace(s[i])
  }

  /** A calendar instant as `helpers.cd_to_datetime` produces it. */
  datatype DateTime = DateTime(year: int, month: int, day: int, hour: int, minute: int)

  /**
   * Conversions whose text formats this model does not describe:
   *   parseFloat    - `float(text)`; None where Python raises ValueError
   *   formatNumber  - `str(x)` for a number
   *   cdToDatetime  - `helpers.cd_to_datetime`, taken as total
   *   datetimeToStr - `helpers.datetime_to_str`
   */
  datatype Runtime = Runtime(
    parseFloat: string -> Option<real>,
    formatNumber: real -> string,
    cdToDatetime: Value -> DateTime,
    datetimeToStr: DateTime -> string)

  /** `str(v)`. */
  function PyStr(v: Value, rt: Runtime): (r: string)
    ensures v.Str? ==> r == v.s
    ensures v.Null? ==> r == "None"
  {
    match v
    case Null => "None"
    case Bool(b) => if b then "True" else "False"
    case Num(x) => rt.formatNumber(x)
    case Str(s) => s
  }

  /** `float(v)`: None is a TypeError, unparsable text a ValueError, a bool is 0.0 or 1.0. */
  function PyFloat(v: Value, rt: Runtime): (r: Result<real, PyError>)
    ensures v.Num? ==> r == Success(v.x)
    ensures v.Null? ==> r == Failure(TypeError)
    ensures v.Str? ==> (r.Failure? <==> rt.parseFloat(v.s).None?)
    ensures v.Str? && r.Failure? ==> r.error == ValueError
    ensures v.Str? && r.Success? ==> rt.parseFloat(v.s) == Some(r.value)
  {
    match v
    case Null => Failure(TypeError)
    case Bool(b) => Success(if b then 1.0 else 0.0)
    case Num(x) => Success(x)
    case Str(s) =>
      match rt.parseFloat(s)
      case None => Failure(ValueError)
      case Some(x) => Success(x)
  }
}
