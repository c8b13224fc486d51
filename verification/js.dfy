/**
 * JavaScript values as the library receives and passes them on: decoded JSON
 * plus `undefined`. Numbers are integers here; `NaN` is kept because
 * `parseInt` can produce it.
 */
module Js {
  import opened Wrappers
  import opened Strings
  import opened Dicts

  datatype Value =
    | Undefined
    | Null
    | Bool(b: bool)
    | Num(n: int)
    | NaN
    | Str(s: string)
    | Arr(items: seq<Value>)
    | Obj(fields: Dict<Value>)
  {
    /** `null` or `undefined`, the values `?.` and `??` step over. */
    predicate IsNullish() { Undefined? || Null? }
  }

  /** JavaScript truthiness: what `if (v)` and `!v` test. */
  predicate Truthy(v: Value)
  {
    match v
    case Undefined => false
    case Null => false
    case Bool(b) => b
    case Num(n) => n != 0
    case NaN => false
    case Str(s) => s != ""
    case Arr(_) => true
    case Obj(_) => true
  }

  /** `String(v)`: arrays join their elements with `,`, nullish elements as empty text. */
  function ToString(v: Value): (r: string)
    ensures v.Str? ==> r == v.s
    ensures v.Num? ==> ParseInt(r) == Some(v.n)
  {
    match v
    case Undefined => "undefined"
    case Null => "null"
    case Bool(b) => if b then "true" else "false"
    case Num(n) => ParseIntOfIntToString(n); IntToString(n)
    case NaN => "NaN"
    case Str(s) => s
    case Arr(items) => Join(ElementStrings(items), ",")
    case Obj(_) => "[object Object]"
  }

  function ElementStrings(items: seq<Value>): (r: seq<string>)
    ensures |r| == |items|
    decreases items
  {
    if |items| == 0 then []
    else
      var first := if items[0].IsNullish() then "" else ToString(items[0]);
      [first] + ElementStrings(items[1..])
  }

  /** `obj[key]` on an object, `undefined` when the key is absent. */
  function Field(fields: Dict<Value>, key: string): (v: Value)
    ensures key !in Keys(fields) ==> v == Undefined
    ensures key in Keys(fields) ==> (key, v) in fields
  {
    Get(fields, key).GetOr(Undefined)
  }

  /**
   * `v.key`: a `TypeError` on `null`/`undefined`, the field on an object, and
   * `undefined` on anything else. Array and string properties such as
   * `length` or an index are not modelled: no caller here reads them.
   */
  function Property(v: Value, key: string): (r: Result<Value>)
    ensures r.Err? <==> v.IsNullish()
    ensures v.Obj? ==> r == Ok(Field(v.fields, key))
  {
    match v
    case Undefined => Err(TypeError("Cannot read properties of undefined"))
    case Null => Err(TypeError("Cannot read properties of null"))
    case Obj(fields) => Ok(Field(fields, key))
    case _ => Ok(Undefined)
  }

  /**
   * `[...v]`: the elements of an array, the one-character strings of a
   * string, and a `TypeError` for anything that is not iterable.
   */
  function Spread(v: Value): (r: Result<seq<Value>>)
    ensures r.Ok? <==> v.Arr? || v.Str?
    ensures v.Arr? ==> r == Ok(v.items)
    ensures v.Str? ==> r.Ok? && |r.value| == |v.s|
  {
    match v
    case Arr(items) => Ok(items)
    case Str(s) => Ok(seq(|s|, i requires 0 <= i < |s| => Str([s[i]])))
    case _ => Err(TypeError(ToString(v) + " is not iterable"))
  }
}
