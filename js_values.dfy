/**
 * The JavaScript values that reach the monitor's logic: numbers (with NaN, without
 * the infinities), the JSON value kinds, truthiness as `||`, `&&` and `if` see it,
 * and the rounding `Number.prototype.toFixed` performs.
 */
module JsValues {

  datatype Option<+T> = None | Some(value: T)

  /** A JavaScript number. Infinities are not modelled. */
  datatype Number = NaN | Real(r: real)

  /** A JSON value as the server or the browser receives it. Objects and arrays are opaque. */
  datatype Value = Undefined | Null | Bool(b: bool) | Num(n: Number) | Str(s: string) | Obj

  /** JavaScript truthiness: what `a || b` and `if (a)` test. */
  predicate Truthy(v: Value) {
    match v
    case Undefined => false
    case Null => false
    case Bool(b) => b
    case Num(n) => n.Real? && n.r != 0.0
    case Str(s) => s != ""
    case Obj => true
  }

  /** `a || b` */
  function Or(a: Value, b: Value): Value {
    if Truthy(a) then a else b
  }

  /**
   * `Number(v)` for a JSON value. The conversion of a string belongs to the runtime
   * and is passed in as `textNumber`.
   */
  function ToNumber(v: Value, textNumber: string -> Number): Number {
    match v
    case Num(n) => n
    case Bool(b) => Real(if b then 1.0 else 0.0)
    case Str(s) => textNumber(s)
    case Null => Real(0.0)
    case Undefined => NaN
    case Obj => NaN
  }

  /** `v != null ? Number(v) : null`: the loose `!=` treats undefined as null. */
  function FieldReading(v: Value, textNumber: string -> Number): (r: Option<Number>)
    ensures r.None? <==> v == Undefined || v == Null
    ensures v.Num? ==> r == Some(v.n)
    ensures v.Bool? ==> r == Some(Real(if v.b then 1.0 else 0.0))
  {
    if v == Undefined || v == Null then None else Some(ToNumber(v, textNumber))
  }

  /** The integer nearest to x, a tie going to the larger one. */
  function RoundHalfUp(x: real): int {
    (x + 0.5).Floor
  }

  /**
   * The digits `x.toFixed(d)` prints, read as a count of units of 10^-d (scale = 10^d):
   * the magnitude is rounded half up and the sign put back.
   */
  function FixedUnits(x: real, scale: nat): (u: int)
    ensures x * scale as real - 0.5 <= u as real <= x * scale as real + 0.5
  {
    if x < 0.0 then -RoundHalfUp(-x * scale as real) else RoundHalfUp(x * scale as real)
  }

  lemma MulMonotone(a: real, b: real, c: real)
    requires a <= b && 0.0 <= c
    ensures a * c <= b * c
  {
  }

  /** `Math.random() * (max - min) + min` lies in [min, max] for a draw in [0, 1). */
  lemma DrawBetween(lo: nat, hi: nat, d: real)
    requires lo <= hi && 0.0 <= d < 1.0
    ensures lo as real <= d * (hi - lo) as real + lo as real <= hi as real
  {
    assert (hi - lo) as real == hi as real - lo as real;
    MulMonotone(0.0, d, (hi - lo) as real);
    MulMonotone(d, 1.0, (hi - lo) as real);
  }

  /** Rounding never crosses an integer bound. */
  lemma RoundHalfUpBetween(y: real, a: int, b: int)
    requires a as real <= y <= b as real
    ensures a <= RoundHalfUp(y) <= b
  {
  }

  lemma CastProduct(a: nat, b: nat)
    ensures (a * b) as real == a as real * b as real
  {
  }

  /** Rounding to any number of decimals never leaves an interval with integer ends. */
  lemma FixedUnitsBetween(x: real, scale: nat, lo: nat, hi: nat)
    requires lo as real <= x <= hi as real
    ensures lo * scale <= FixedUnits(x, scale) <= hi * scale
  {
    var y := x * scale as real;
    MulMonotone(lo as real, x, scale as real);
    MulMonotone(x, hi as real, scale as real);
    CastProduct(lo, scale);
    CastProduct(hi, scale);
    RoundHalfUpBetween(y, lo * scale, hi * scale);
    assert !(x < 0.0);
  }
}
