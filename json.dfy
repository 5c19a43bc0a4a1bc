/** Parsed JSON as the application's JavaScript sees it, with `undefined` for a missing
    property, and the few language rules the code relies on: truthiness, `a || b`,
    property reads and optional chaining, `v[0]`, `for ... of` and `String(v)`. */
module Json {
  import opened Wrappers
  import opened Js

  /** Numbers are integers here: no fraction, NaN or infinity. */
  datatype Json =
    | Undefined
    | Null
    | Bool(b: bool)
    | Num(n: int)
    | Str(s: string)
    | Arr(elems: seq<Json>)
    | Obj(fields: map<string, Json>)

  predicate IsNullish(v: Json) {
    v.Undefined? || v.Null?
  }

  /** JavaScript truthiness: `undefined`, `null`, `false`, `0` and `""` are falsy. */
  predicate Truthy(v: Json) {
    match v
    case Undefined => false
    case Null => false
    case Bool(b) => b
    case Num(n) => n != 0
    case Str(s) => s != []
    case Arr(_) => true
    case Obj(_) => true
  }

  /** `a || b` */
  function Or(a: Json, b: Json): Json {
    if Truthy(a) then a else b
  }

  /** `v?.key`, which is also `v.key` once `v` is known not to be nullish: an object's own
      property, or `undefined`. (No key read through this model is an array-index key or
      `length`, so arrays, strings and the other primitives answer `undefined`.) */
  function Field(v: Json, key: string): Json {
    if v.Obj? && key in v.fields then v.fields[key] else Undefined
  }

  /** `v.key` where `v` may be nullish: reading a property of `null` or `undefined` throws a
      TypeError, here `None`. */
  function Member(v: Json, key: string): Option<Json> {
    if IsNullish(v) then None else Some(Field(v, key))
  }

  /** The message of the TypeError thrown by reading `key` of a nullish value. */
  function ReadError(v: Json, key: string): string {
    "Cannot read properties of " + (if v.Null? then "null" else "undefined") + " (reading '" + key + "')"
  }

  /** `v[0]` (index 0 of an array or a string, property "0" of an object). */
  function First(v: Json): Json {
    match v
    case Arr(xs) => if xs != [] then xs[0] else Undefined
    case Str(s) => if s != [] then Str([s[0]]) else Undefined
    case Obj(m) => if "0" in m then m["0"] else Undefined
    case _ => Undefined
  }

  /** `for (const x of v)`: arrays yield their elements, strings their characters, and any
      other value throws "not iterable" (`None`). */
  function Iterate(v: Json): (r: Option<seq<Json>>)
    ensures v.Arr? ==> r == Some(v.elems)
    ensures r.Some? <==> v.Arr? || v.Str?
  {
    match v
    case Arr(xs) => Some(xs)
    case Str(s) => Some(seq(|s|, k requires 0 <= k < |s| => Str([s[k]])))
    case _ => None
  }

  /** `String(v)`, which is also what a template literal `${v}` inserts. */
  function Display(v: Json): string
    decreases v
  {
    match v
    case Undefined => "undefined"
    case Null => "null"
    case Bool(b) => if b then "true" else "false"
    case Num(n) => IntToDecimal(n)
    case Str(s) => s
    case Arr(xs) => DisplayElems(xs)
    case Obj(_) => "[object Object]"
  }

  /** `Array.prototype.join(",")`, where `null` and `undefined` elements print as nothing. */
  function DisplayElems(xs: seq<Json>): string
    decreases xs
  {
    if xs == [] then ""
    else
      var first := if IsNullish(xs[0]) then "" else Display(xs[0]);
      if |xs| == 1 then first else first + "," + DisplayElems(xs[1..])
  }
}
