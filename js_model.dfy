/** The part of JavaScript's value semantics that the invoice code depends on:
    nullable fields, truthiness, `??`, `||`, `Number(...)` and the NaN it may
    produce, and the outcome of a request to the billing API. Parsing and
    rounding of decimal strings are host behaviour (IEEE-754 doubles) and are
    kept abstract in `Numerics`. */
module JsModel {

  datatype Option<+T> = None | Some(value: T)

  /** A scalar field as the code receives it: a JSON string, a number the
      code itself put there, or null/undefined. */
  datatype Value = Undefined | Null | Str(s: string) | Num(n: real)

  /** A JavaScript number: a finite value (an exact real here) or NaN. */
  datatype Number = Finite(r: real) | NaN

  /** The host's numeric conversions, taken as parameters. `None` stands for NaN. */
  datatype Numerics = Numerics(
    number: string -> Option<real>,      // Number(s)
    parseFloat: string -> Option<real>,  // parseFloat(s)
    toFixed2: real -> string)            // x.toFixed(2), for a finite x

  /** The outcome of one request: the response body, or the error's `message`
      (None when the thrown value carries none). */
  datatype Response<+T> = Ok(value: T) | Failed(message: Option<string>)

  /** JavaScript truthiness of a scalar field. */
  predicate Truthy(v: Value)
    ensures Truthy(v) <==> v !in {Undefined, Null, Str(""), Num(0.0)}
  {
    match v
    case Undefined => false
    case Null => false
    case Str(s) => s != ""
    case Num(n) => n != 0.0
  }

  /** A nullable string field seen as a JavaScript value. */
  function OfOption(o: Option<string>): Value {
    match o
    case None => Null
    case Some(s) => Str(s)
  }

  /** `v ?? fallback` */
  function Coalesce(v: Value, fallback: Value): (r: Value)
    ensures v != Null && v != Undefined ==> r == v
    ensures v == Null || v == Undefined ==> r == fallback
  {
    if v == Null || v == Undefined then fallback else v
  }

  /** `Number(v)` */
  function ToNumber(v: Value, nums: Numerics): (r: Number)
    ensures v == Undefined ==> r == NaN
    ensures v == Null ==> r == Finite(0.0)
    ensures v.Num? ==> r == Finite(v.n)
    ensures v.Str? ==> (r.Finite? <==> nums.number(v.s).Some?)
    ensures v.Str? && r.Finite? ==> r.r == nums.number(v.s).value
  {
    match v
    case Undefined => NaN
    case Null => Finite(0.0)
    case Str(s) => (match nums.number(s) case None => NaN case Some(x) => Finite(x))
    case Num(n) => Finite(n)
  }

  /** `a - b` */
  function Minus(a: Number, b: Number): Number {
    if a.Finite? && b.Finite? then Finite(a.r - b.r) else NaN
  }

  /** `a * b` */
  function Mul(a: Number, b: Number): Number {
    if a.Finite? && b.Finite? then Finite(a.r * b.r) else NaN
  }

  /** `a / k` for a non-zero constant k */
  function DivBy(a: Number, k: real): Number
    requires k != 0.0
  {
    if a.Finite? then Finite(a.r / k) else NaN
  }

  /** `x.toFixed(2)`; NaN prints as "NaN". */
  function ToFixed2(x: Number, nums: Numerics): string {
    if x.Finite? then nums.toFixed2(x.r) else "NaN"
  }

  /** `parseFloat(s)` */
  function ParseFloat(s: string, nums: Numerics): Number {
    match nums.parseFloat(s)
    case None => NaN
    case Some(x) => Finite(x)
  }

  /** `s || fallback` for a nullable string. */
  function StrOr(s: Option<string>, fallback: string): (r: string)
    ensures s.Some? && s.value != "" ==> r == s.value
    ensures s.None? || s.value == "" ==> r == fallback
  {
    if s.Some? && s.value != "" then s.value else fallback
  }

  /** `e?.message || fallback`: the text an action's catch block stores. */
  function ErrorText(message: Option<string>, fallback: string): string {
    StrOr(message, fallback)
  }
}
