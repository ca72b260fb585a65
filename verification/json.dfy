/**
 * JavaScript values as the service sees them: request bodies, stored rows and
 * media entries. `Undefined` stands for a missing property or an explicit
 * `undefined`; numbers are integers (floating point is not modelled).
 */
module JsonValues {

  datatype Json =
    | Undefined
    | Null
    | Bool(b: bool)
    | Num(n: int)
    | Str(s: string)
    | Arr(items: seq<Json>)
    | Obj(fields: map<string, Json>)

  /** A plain JavaScript object: a stored row, a media entry, an update patch. */
  type Row = map<string, Json>

  /** JavaScript truthiness (`if (v)`, `!v`, `v || d`). */
  predicate Truthy(v: Json)
  {
    match v
    case Undefined => false
    case Null => false
    case Bool(b) => b
    case Num(n) => n != 0
    case Str(s) => |s| > 0
    case Arr(_) => true
    case Obj(_) => true
  }

  /** Reading a property of `v` does not throw a TypeError. */
  predicate Dereferenceable(v: Json)
  {
    !v.Undefined? && !v.Null?
  }

  /** The value of an own property of an object, `undefined` when it is absent. */
  function Field(r: Row, key: string): Json
  {
    if key in r then r[key] else Undefined
  }

  /**
   * `v[key]` for a value that can be dereferenced: own properties of objects,
   * `length` of arrays and strings, and `undefined` for everything else (no
   * property name used by the service is inherited from a prototype).
   */
  function Member(v: Json, key: string): (r: Json)
    ensures v.Obj? ==> r == Field(v.fields, key)
    ensures !v.Obj? && key != "length" ==> r == Undefined
  {
    match v
    case Obj(m) => Field(m, key)
    case Arr(items) => if key == "length" then Num(|items|) else Undefined
    case Str(s) => if key == "length" then Num(|s|) else Undefined
    case _ => Undefined
  }

  /** `v?.length` used as a condition: a non-empty array or string, or a truthy own `length`. */
  predicate HasLength(v: Json)
  {
    Truthy(Member(v, "length"))
  }

  /**
   * Strict equality `a === b`. Objects and arrays compare by reference; two
   * values that reach the service separately are never the same reference,
   * so they are never strictly equal here.
   */
  predicate StrictEq(a: Json, b: Json)
  {
    !a.Arr? && !a.Obj? && a == b
  }

  /** `data.hasOwnProperty(key)` for an object or array body. */
  predicate HasOwn(v: Json, key: string)
  {
    v.Obj? && key in v.fields
  }

  /** `Object.keys(v).length`. */
  function KeyCount(v: Json): nat
  {
    match v
    case Obj(m) => |m|
    case Arr(items) => |items|
    case Str(s) => |s|
    case _ => 0
  }
}
