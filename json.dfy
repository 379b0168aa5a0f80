/** Small failure-carrying and optional value types used by the loader. */
module Wrappers {
  datatype Result<+T, +E> = Success(value: T) | Failure(error: E)

  datatype Option<+T> = None | Some(value: T)
}

/**
 * The loosely typed value tree that the CV pipeline works on: what the
 * JSON data file parses to, plus `undefined`, which is what reading a
 * missing property yields.
 */
module Json {

  datatype Json =
    | Undefined
    | Null
    | Bool(b: bool)
    | Num(n: real)
    | Str(s: string)
    | Arr(items: seq<Json>)
    | Obj(props: map<string, Json>)

  /** JavaScript truthiness: `undefined`, `null`, `false`, `0` and `""` are
      falsy; every array and every object (even an empty one) is truthy. */
  predicate Truthy(v: Json) {
    match v
    case Undefined => false
    case Null => false
    case Bool(b) => b
    case Num(n) => n != 0.0
    case Str(s) => s != ""
    case Arr(_) => true
    case Obj(_) => true
  }

  /** The two values whose properties cannot be read: doing so throws. */
  predicate Nullish(v: Json) {
    v.Undefined? || v.Null?
  }

  /** `typeof v === "object"`: null, arrays and plain objects. */
  predicate IsObjectType(v: Json) {
    v.Null? || v.Arr? || v.Obj?
  }

  /** `!v || typeof v !== "string"` is false exactly for non-empty strings. */
  predicate IsNonEmptyString(v: Json) {
    v.Str? && v.s != ""
  }

  /** Whether converting `v` to a string, as a template literal does,
      throws a TypeError. An object converts through `toString`; an own
      `toString` property (in a JSON value never a function) is skipped for
      `valueOf`, whose inherited version returns the object itself, which
      is no string either. An array converts by joining its elements, so it
      throws when one of them does. */
  predicate StringConversionThrows(v: Json) {
    match v
    case Obj(props) => "toString" in props
    case Arr(items) => exists i | 0 <= i < |items| :: StringConversionThrows(items[i])
    case _ => false
  }

  /** Property read `v[key]` on a value that is not null or undefined.
      Strings, numbers, booleans and arrays have none of the own properties
      the CV pipeline reads, so the read gives `undefined` on them. */
  function Get(v: Json, key: string): Json
    requires !Nullish(v)
  {
    match v
    case Obj(props) => if key in props then props[key] else Undefined
    case _ => Undefined
  }
}
