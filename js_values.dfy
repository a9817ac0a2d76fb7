/** The part of JavaScript's value universe that the try/catch normaliser
    touches: which values exist, which of them are falsy (ToBoolean), and the
    `x || null` fallback applied to every field of the error record. */
module JsValues {

  /** `Some(v)` or the absent marker; used both for `string | null` and for
      `string | undefined`, depending on where it appears. */
  datatype Option<+T> = None | Some(value: T)

  /** An object for which `instanceof Error` holds, as far as the normaliser
      reads it. `message` and `name` are strings, as TypeScript types them;
      `stack` may be undefined (`None`); `cause` is any value, and `Undefined`
      when the error was built without one. */
  datatype ErrorObject = ErrorObject(message: string, name: string, stack: Option<string>, cause: Value)

  /** A JavaScript value. Finite numbers are reals, so -0 and 0 are one
      value. Symbols and objects other than errors and callables are told
      apart by a reference number only; their contents never matter here. */
  datatype Value =
    | Undefined
    | Null
    | Bool(b: bool)
    | Num(x: real)
    | Infinity(negative: bool)
    | NaN
    | BigInt(i: int)
    | Str(s: string)
    | Symbol(ref: nat)
    | Obj(ref: nat)
    | Fun(ref: nat)
    | Err(error: ErrorObject)

  /** JavaScript's ToBoolean: false, 0, -0, NaN, 0n, "", null and undefined
      are the falsy values; every object, errors and callables included, is
      truthy. */
  predicate Truthy(v: Value) {
    match v
    case Undefined => false
    case Null => false
    case Bool(b) => b
    case Num(x) => x != 0.0
    case Infinity(_) => true
    case NaN => false
    case BigInt(i) => i != 0
    case Str(s) => s != ""
    case Symbol(_) => true
    case Obj(_) => true
    case Fun(_) => true
    case Err(_) => true
  }

  /** `v || null`: a truthy value passes through unchanged, and every falsy
      value, not only undefined, collapses to null. */
  function OrNull(v: Value): (r: Value)
    ensures r == Null || (r == v && Truthy(r))
    ensures Truthy(v) ==> r == v
  {
    if Truthy(v) then v else Null
  }

  /** `s || null` for a `string | undefined`: undefined and the empty string
      both give null, any other string is kept. */
  function StringOrNull(o: Option<string>): (r: Option<string>)
    ensures r == None || (r == o && r.value != "")
    ensures o.Some? && o.value != "" ==> r == o
  {
    match o
    case Some(s) => if s != "" then o else None
    case None => None
  }
}
