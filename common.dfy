/** Small shared vocabulary: an optional value, JavaScript-like JSON values
    with JavaScript's strict equality and truthiness, and the "one open item"
    toggle used by several screens. */
module Wrappers {

  /** `None` stands for JavaScript's `null` / `undefined`. */
  datatype Option<+T> = None | Some(value: T) {
    function GetOr(default: T): T {
      match this
      case Some(v) => v
      case None => default
    }
  }
}

module Js {
  import opened Wrappers

  /** A JSON value as stored by the app: a number (only integers are used),
      a string, or anything else (arrays and nested objects, kept opaque). */
  datatype Value = Int(i: int) | Text(s: string) | Composite

  /** A plain JSON object: its own properties and their values. */
  type Record = map<string, Value>

  /** Property access `r.k`: `None` is `undefined`. */
  function Field(r: Record, k: string): (v: Option<Value>)
    ensures v.Some? <==> k in r
    ensures v.Some? ==> v.value == r[k]
  {
    if k in r then Some(r[k]) else None
  }

  /** JavaScript `===` between two property reads. Numbers and strings compare
      by value, `undefined === undefined`, and two distinct parsed objects or
      arrays are never identical. */
  predicate StrictEq(a: Option<Value>, b: Option<Value>)
  {
    match (a, b)
    case (None, None) => true
    case (Some(Int(x)), Some(Int(y))) => x == y
    case (Some(Text(x)), Some(Text(y))) => x == y
    case _ => false
  }

  /** `r.k === v`. */
  predicate FieldIs(r: Record, k: string, v: Option<Value>)
  {
    StrictEq(Field(r, k), v)
  }

  /** JavaScript truthiness of a property read: `undefined`, `0` and `""`
      are falsy, objects and arrays are truthy. */
  predicate Truthy(v: Option<Value>)
  {
    match v
    case None => false
    case Some(Int(i)) => i != 0
    case Some(Text(s)) => s != ""
    case Some(Composite) => true
  }

  /** `a || fallback` for a property read and a string fallback. */
  function OrElse(v: Option<Value>, fallback: string): (r: Value)
    ensures Truthy(v) ==> r == v.value
    ensures !Truthy(v) ==> r == Text(fallback)
  {
    if Truthy(v) then v.value else Text(fallback)
  }
}

module Selection {
  import opened Wrappers

  /** `setX(current === k ? null : k)`: pressing the open item closes it,
      pressing any other item opens that one instead. */
  function Toggled<T(==)>(current: Option<T>, k: T): (r: Option<T>)
    ensures current == Some(k) ==> r == None
    ensures current != Some(k) ==> r == Some(k)
  {
    if current == Some(k) then None else Some(k)
  }

  /** From the closed state, two presses on the same item close it again,
      and one press on another item after it switches straight to that item. */
  lemma ToggleTwiceFromClosed<T>(k: T, j: T)
    ensures Toggled(Toggled(None, k), k) == None
    ensures j != k ==> Toggled(Toggled(None, k), j) == Some(j)
  {
  }
}
