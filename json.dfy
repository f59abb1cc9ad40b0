/**
 * The JavaScript values the admin handlers receive from `request.json()`,
 * read back from the products file with `JSON.parse`, or compute with
 * `Number(...)`, together with the two JavaScript operators the handlers
 * apply to them: strict equality `===` and truthiness.
 */
module Json {
  import opened Wrappers

  datatype Value =
    | Null
    | Bool(b: bool)
    | Num(r: real)
    | NaN
    | Str(s: string)
    | Arr(items: seq<Value>)
    | Obj(fields: map<string, Value>)

  /** A plain object such as a product record: property name to value. */
  type Record = map<string, Value>

  /** `o[key]`; `None` is `undefined`, the value of a missing property. */
  function Get(o: Record, key: string): Option<Value>
  {
    if key in o then Some(o[key]) else None
  }

  /**
   * `v.key` for any value other than `null`: only objects carry named
   * properties here, so every other value yields `undefined`.
   */
  function Property(v: Value, key: string): Option<Value>
  {
    if v.Obj? then Get(v.fields, key) else None
  }

  /**
   * `a === b` on two values that come from separate parses. Primitives
   * compare by value, `NaN` equals nothing (not even itself), and arrays and
   * objects compare by reference, so two of them that were built separately
   * are never equal. `undefined === undefined` holds.
   */
  predicate StrictEquals(a: Option<Value>, b: Option<Value>)
    ensures StrictEquals(a, b) <==>
              a == b && (a.None? || a.value.Null? || a.value.Bool? || a.value.Num? || a.value.Str?)
  {
    match a
    case None => b.None?
    case Some(x) =>
      b.Some? &&
      match x
      case Null => b.value.Null?
      case Bool(p) => b.value == Bool(p)
      case Num(r) => b.value == Num(r)
      case Str(s) => b.value == Str(s)
      case _ => false
  }

  /**
   * JavaScript truthiness (`if (v)`): the falsy values are exactly
   * `undefined`, `null`, `false`, `0`, `NaN` and the empty string.
   */
  predicate Truthy(v: Option<Value>)
    ensures !Truthy(v) <==> v in {None, Some(Null), Some(Bool(false)), Some(Num(0.0)), Some(NaN), Some(Str(""))}
  {
    match v
    case None => false
    case Some(x) =>
      match x
      case Null => false
      case Bool(p) => p
      case Num(r) => r != 0.0
      case NaN => false
      case Str(s) => s != ""
      case _ => true
  }

  /** `===` is symmetric, and it never relates a string to a number. */
  lemma StrictEqualsSymmetric(a: Option<Value>, b: Option<Value>)
    ensures StrictEquals(a, b) <==> StrictEquals(b, a)
    ensures a.Some? && a.value.Str? && b.Some? && (b.value.Num? || b.value.NaN?) ==> !StrictEquals(a, b)
  {
  }

  /** `NaN === NaN` is false: a NaN never equals anything, itself included. */
  lemma NaNEqualsNothing(b: Option<Value>)
    ensures !StrictEquals(Some(NaN), b) && !StrictEquals(b, Some(NaN))
  {
  }
}
