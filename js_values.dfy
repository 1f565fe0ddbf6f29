/**
 * The JavaScript values that flow through the service: what a parsed
 * request body holds, what is bound as a query parameter, and what the
 * database driver hands back in a result row.
 *
 * Floating-point numbers are kept as exact reals: the service never computes
 * with them, only tests their truthiness (`x || default`) and stores them.
 */
module JsValues {

  import opened Wrappers

  datatype Value =
    | Undefined                         // a missing property
    | Null
    | Bool(b: bool)
    | Num(x: real)
    | Str(s: string)
    | Arr(items: seq<Value>)
    | Obj(members: seq<(string, Value)>)
    | DateOf(source: Value)             // `new Date(source)`, possibly an Invalid Date
    | Serialized(of: Value)             // the text `JSON.stringify(of)` (never empty)
    | Stamp(key: int)                   // a `created_at` timestamp, ordered by `key`

  /** JavaScript truthiness: `undefined`, `null`, `false`, `0` and `""` are falsy. */
  predicate Truthy(v: Value) {
    match v
    case Undefined => false
    case Null => false
    case Bool(b) => b
    case Num(x) => x != 0.0
    case Str(s) => s != ""
    case _ => true
  }

  /** `a || b`: the first operand when it is truthy, otherwise the second. */
  function Or(a: Value, b: Value): (r: Value)
    ensures Truthy(a) ==> r == a
    ensures !Truthy(a) ==> r == b
    ensures Truthy(r) <==> Truthy(a) || Truthy(b)
  {
    if Truthy(a) then a else b
  }

  /** The driver binds an `undefined` query parameter as SQL NULL. */
  function Param(v: Value): (r: Value)
    ensures r != Undefined
    ensures v == Undefined ==> r == Null
    ensures v != Undefined ==> r == v
  {
    if v == Undefined then Null else v
  }

  /** `JSON.stringify(v)`: `undefined` for `undefined`, otherwise a JSON text. */
  function Stringify(v: Value): (r: Value)
    ensures r == Undefined <==> v == Undefined
    ensures r != Undefined ==> Truthy(r) && r.Serialized? && r.of == v
  {
    if v == Undefined then Undefined else Serialized(v)
  }

  /** `a?.length || 0` for an optional array `a`. */
  function LengthOr0<T>(a: Option<seq<T>>): (n: nat)
    ensures a.None? ==> n == 0
    ensures a.Some? ==> n == |a.value|
  {
    if a.Some? then |a.value| else 0
  }

  /** The elements of an optional array; `for (x of a)` after an `a && a.length > 0` test. */
  function Elements<T>(a: Option<seq<T>>): (s: seq<T>)
    ensures |s| == LengthOr0(a)
    ensures a.Some? ==> s == a.value
  {
    if a.Some? then a.value else []
  }

  /**
   * `String(v)` for a value that is neither null nor undefined. A string is
   * its own text; the text of numbers, booleans, dates and objects is
   * JavaScript's own formatting, supplied as `show`.
   */
  function Text(v: Value, show: Value -> string): (t: string)
    ensures v.Str? ==> t == v.s
  {
    if v.Str? then v.s else show(v)
  }
}
