/** The JavaScript values that flow through agent inputs, agent outputs and the shared
    context: enough of the language's value semantics (`undefined`, truthiness, `||`,
    array spread, `String(v)`) to state the services' rules exactly. Numbers are
    integers here; the services that compute with fractions say so where they do. */
module Json {
  import opened Wrappers
  import Strings

  datatype Value =
    | Undefined
    | Null
    | Bool(b: bool)
    | Num(n: int)
    | Str(s: string)
    | Arr(items: seq<Value>)
    | Obj(fields: map<string, Value>)

  /** `o[k]` on a record: a missing key reads as `undefined`. */
  function Get(o: map<string, Value>, k: string): (r: Value)
    ensures k in o ==> r == o[k]
    ensures k !in o ==> r == Undefined
  {
    if k in o then o[k] else Undefined
  }

  /** `v.k` on any value: `undefined` and `null` throw a TypeError, other
      non-records have no own fields of interest and read as `undefined`. */
  function Prop(v: Value, k: string): (r: Result<Value>)
    ensures r.Err? <==> (v.Undefined? || v.Null?)
    ensures v.Obj? ==> r == Ok(Get(v.fields, k))
  {
    match v
    case Undefined => Err(ReadError(v, k))
    case Null => Err(ReadError(v, k))
    case Obj(m) => Ok(Get(m, k))
    case _ => Ok(Undefined)
  }

  /** The TypeError message of reading `k` from `undefined` or `null`. */
  const CannotRead := "Cannot read properties of "

  const Reading := " (reading '"

  function ReadError(v: Value, k: string): string {
    CannotRead + (if v.Null? then "null" else "undefined") + Reading + k + "')"
  }

  /** The two values whose property reads throw. */
  predicate Nullish(v: Value) { v.Undefined? || v.Null? }

  /** `v.k` on a value already known to be neither `undefined` nor `null` (or read as
      `v?.k`): only records have fields. */
  function Field(v: Value, k: string): Value {
    if v.Obj? then Get(v.fields, k) else Undefined
  }

  /** JavaScript truthiness. */
  predicate Truthy(v: Value) {
    match v
    case Undefined => false
    case Null => false
    case Bool(b) => b
    case Num(n) => n != 0
    case Str(s) => s != ""
    case Arr(_) => true
    case Obj(_) => true
  }

  /** `a || b`. */
  function Or(a: Value, b: Value): (r: Value)
    ensures Truthy(a) ==> r == a
    ensures !Truthy(a) ==> r == b
  {
    if Truthy(a) then a else b
  }

  /** The items `[...v]` spreads: an array's elements, a string's characters, and a
      TypeError (`None`) for every value that is not iterable. */
  function SpreadItems(v: Value): (r: Option<seq<Value>>)
    ensures v.Arr? ==> r == Some(v.items)
    ensures v.Str? ==> r.Some? && |r.value| == |v.s|
    ensures !v.Arr? && !v.Str? ==> r == None
  {
    match v
    case Arr(xs) => Some(xs)
    case Str(s) => Some(seq(|s|, i requires 0 <= i < |s| => Str([s[i]])))
    case _ => None
  }

  /** `String(v)`: an array joins its elements with commas, `undefined` and `null`
      elements becoming empty. */
  function ToJsString(v: Value): (r: string)
    ensures v.Str? ==> r == v.s
    ensures v.Obj? ==> r == "[object Object]"
    decreases v, 1
  {
    match v
    case Undefined => "undefined"
    case Null => "null"
    case Bool(b) => if b then "true" else "false"
    case Num(n) => Strings.IntToString(n)
    case Str(s) => s
    case Arr(xs) => Join(v, xs)
    case Obj(_) => "[object Object]"
  }

  function Join(ghost parent: Value, xs: seq<Value>): string
    requires forall i :: 0 <= i < |xs| ==> xs[i] < parent
    decreases parent, 0, |xs|
  {
    if xs == [] then ""
    else
      var head := if xs[0].Undefined? || xs[0].Null? then "" else ToJsString(xs[0]);
      if |xs| == 1 then head else head + "," + Join(parent, xs[1..])
  }

  /** A list of strings as a JavaScript array. */
  function StrArr(xs: seq<string>): (r: Value)
    ensures r.Arr? && |r.items| == |xs|
    ensures forall i :: 0 <= i < |xs| ==> r.items[i] == Str(xs[i])
  {
    Arr(seq(|xs|, i requires 0 <= i < |xs| => Str(xs[i])))
  }
}
