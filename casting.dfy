/**
 * How the schema layer turns JSON values into typed fields before its
 * validators run: strings and numbers are cast, null and undefined are unset,
 * and a number field given a non-numeric string fails to cast.
 */
module Casting {
  import opened Js

  datatype Cast<+T> = Unset | Value(v: T) | CastFailure

  /** The value at `key` of a JSON object; a missing key reads as undefined. */
  function Field(obj: map<string, Val>, key: string): Val {
    if key in obj then obj[key] else Undefined
  }

  /** A String path: primitives are converted with `String(v)`. */
  function CastString(v: Val): (r: Cast<string>)
    ensures r.Unset? <==> v.Undefined? || v.Null?
    ensures v.Str? ==> r == Value(v.s)
  {
    match v
    case Undefined => Unset
    case Null => Unset
    case Str(s) => Value(s)
    case Num(_) => Value(ValToString(v))
    case Bool(_) => Value(ValToString(v))
  }

  /** A Number path: '' is unset, booleans are 0 or 1, other strings go through `Number(s)`. */
  function CastNumber(v: Val): (r: Cast<real>)
    ensures v.Num? ==> r == Value(v.n)
    ensures r.CastFailure? <==> v.Str? && v.s != "" && ParseNumber(v.s).NaN?
  {
    match v
    case Undefined => Unset
    case Null => Unset
    case Str(s) =>
      if s == "" then Unset
      else (match ParseNumber(s) case Real(x) => Value(x) case NaN => CastFailure)
    case Num(n) => Value(n)
    case Bool(b) => Value(if b then 1.0 else 0.0)
  }

  /** The `required` validator of a String path: an unset or empty string fails. */
  predicate RequiredString(c: Cast<string>) {
    c.Value? && c.v != ""
  }
}
