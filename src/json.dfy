/**
  * Decoded JSON values, as both the Rust adapters (serde_json) and the Go
  * plugins (encoding/json into interface{}) see them.
  */
module JsonValue {
  import opened Wrappers

  /** A number written with a fraction or exponent is a `Float`; an integer literal is an `Int`. */
  datatype Json =
    | Null
    | Bool(b: bool)
    | Int(i: int)
    | Float(r: real)
    | Str(s: string)
    | Arr(items: seq<Json>)
    | Obj(fields: map<string, Json>)

  /** A tool invocation's argument mapping. */
  type Args = map<string, Json>

  /**
    * serde_json's `Value::get(key)` followed by the adapter's own pattern match:
    * a missing key, or a lookup on anything but an object, reads as `Null`.
    * Since `Null` has no keys and is neither a string, a number nor an array,
    * chained lookups through `At` behave exactly like chained `get`s.
    */
  function At(j: Json, key: string): (r: Json)
    ensures r != Null ==> j.Obj? && key in j.fields && r == j.fields[key]
  {
    if j.Obj? && key in j.fields then j.fields[key] else Null
  }

  /** `get(key).is_some()`: the key is present, whatever its value (even `null`). */
  predicate Has(j: Json, key: string) {
    j.Obj? && key in j.fields
  }

  /** The argument under `key`; an absent argument reads as `Null`. */
  function Arg(args: Args, key: string): (r: Json)
    ensures key !in args ==> r == Null
  {
    if key in args then args[key] else Null
  }

  const I64Min: int := -0x8000_0000_0000_0000
  const I64Max: int := 0x7FFF_FFFF_FFFF_FFFF

  /** serde_json's `as_i64`: only integer numbers that fit in an `i64`. */
  function AsI64(j: Json): (r: Option<int>)
    ensures r.Some? <==> j.Int? && I64Min <= j.i <= I64Max
    ensures r.Some? ==> r.value == j.i
  {
    if j.Int? && I64Min <= j.i <= I64Max then Some(j.i) else None
  }

  /** serde_json's `as_f64`: every number, as a real. */
  function AsF64(j: Json): (r: Option<real>)
    ensures r.Some? <==> j.Int? || j.Float?
    ensures j.Int? ==> r == Some(j.i as real)
    ensures j.Float? ==> r == Some(j.r)
  {
    match j
    case Int(i) => Some(i as real)
    case Float(x) => Some(x)
    case _ => None
  }

  /** Go's `v.(float64)` on a decoded value succeeds for every JSON number. */
  predicate IsNumber(j: Json) {
    j.Int? || j.Float?
  }

  /** Go's `int(f)` conversion: truncation toward zero. */
  function Truncate(x: real): (n: int)
    ensures x >= 0.0 ==> n as real <= x < n as real + 1.0
    ensures x < 0.0 ==> n as real - 1.0 < x <= n as real
  {
    if x >= 0.0 then x.Floor else -((-x).Floor)
  }

  /** Go's `int(v.(float64))` for a decoded number. */
  function GoInt(j: Json): int
    requires IsNumber(j)
  {
    if j.Int? then j.i else Truncate(j.r)
  }
}
