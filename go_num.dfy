/**
 * The parts of Go's numeric semantics that the model depends on.
 *
 * Go's integer `/` and `%` truncate toward zero (Dafny's are Euclidean), and
 * float64 values can be NaN or infinite. goDASH converts float64 values to
 * `int` with `int(x)`; on amd64 that conversion yields the "integer
 * indefinite" value -2^63 for NaN, for the infinities and for any value whose
 * truncation does not fit in 64 bits. Finite float64 values are modelled by
 * exact reals: rounding is not modelled.
 */
module GoNum {

  const MinInt64: int := -0x8000_0000_0000_0000
  const MaxInt64: int := 0x7FFF_FFFF_FFFF_FFFF

  function Abs(x: int): nat { if x < 0 then -x else x }

  /** Go's integer quotient `a / b`: the exact quotient truncated toward zero. */
  function Quo(a: int, b: int): (q: int)
    requires b != 0
    ensures Abs(a - q * b) < Abs(b)
    ensures a >= 0 ==> 0 <= a - q * b
    ensures a <= 0 ==> a - q * b <= 0
  {
    if a >= 0 && b > 0 then a / b
    else if a >= 0 then -(a / -b)
    else if b > 0 then -((-a) / b)
    else (-a) / (-b)
  }

  /** Go's integer remainder `a % b`, whose sign follows the dividend. */
  function Rem(a: int, b: int): (r: int)
    requires b != 0
    ensures a == Quo(a, b) * b + r
    ensures Abs(r) < Abs(b)
  {
    a - Quo(a, b) * b
  }

  /** For a non-negative dividend and a positive divisor, Go's and Dafny's division agree. */
  lemma QuoNonNegative(a: int, b: int)
    requires a >= 0 && b > 0
    ensures Quo(a, b) == a / b && Rem(a, b) == a % b
  {
  }

  /** Truncation of a real toward zero, the value part of Go's `int(x)`. */
  function Trunc(x: real): (n: int)
    ensures x >= 0.0 ==> n as real <= x < n as real + 1.0
    ensures x < 0.0 ==> n as real - 1.0 < x <= n as real
  {
    if x >= 0.0 then x.Floor else -((-x).Floor)
  }

  /** An IEEE float64 value: finite ones as exact reals. */
  datatype Float64 = Fin(val: real) | NaN | PosInf | NegInf

  /**
   * `a / b` on two finite float64 values. Every division the model performs
   * has a denominator that, when it is zero, is +0 (an `int` converted to
   * float64, a `1 - x` that cancels exactly), so a zero denominator gives
   * +Inf, -Inf or NaN by the sign of the numerator.
   */
  function Div(a: real, b: real): (f: Float64)
    ensures b != 0.0 ==> f == Fin(a / b)
    ensures b == 0.0 ==> (f == PosInf <==> a > 0.0) && (f == NegInf <==> a < 0.0) && (f == NaN <==> a == 0.0)
  {
    if b != 0.0 then Fin(a / b)
    else if a > 0.0 then PosInf
    else if a < 0.0 then NegInf
    else NaN
  }

  /** `f * c` for a finite positive constant c. */
  function Scale(f: Float64, c: real): (g: Float64)
    requires c > 0.0
    ensures f.Fin? ==> g == Fin(f.val * c)
    ensures !f.Fin? ==> g == f
  {
    if f.Fin? then Fin(f.val * c) else f
  }

  /** `f + c` for a finite constant c. */
  function Plus(f: Float64, c: real): (g: Float64)
    ensures f.Fin? ==> g == Fin(f.val + c)
    ensures !f.Fin? ==> g == f
  {
    if f.Fin? then Fin(f.val + c) else f
  }

  /** IEEE addition. */
  function PlusF(f: Float64, g: Float64): (h: Float64)
    ensures f.Fin? && g.Fin? ==> h == Fin(f.val + g.val)
    ensures f.NaN? || g.NaN? ==> h.NaN?
  {
    match (f, g)
    case (NaN, _) => NaN
    case (_, NaN) => NaN
    case (PosInf, NegInf) => NaN
    case (NegInf, PosInf) => NaN
    case (PosInf, _) => PosInf
    case (NegInf, _) => NegInf
    case (_, PosInf) => PosInf
    case (_, NegInf) => NegInf
    case (Fin(a), Fin(b)) => Fin(a + b)
  }

  /** IEEE `f * x` for a finite x. */
  function TimesF(f: Float64, x: real): (h: Float64)
    ensures f.Fin? ==> h == Fin(f.val * x)
  {
    if f.Fin? then Fin(f.val * x)
    else match f
    case NaN => NaN
    case PosInf => if x > 0.0 then PosInf else if x < 0.0 then NegInf else NaN
    case NegInf => if x > 0.0 then NegInf else if x < 0.0 then PosInf else NaN
  }

  /** IEEE multiplication of two float64 values. */
  function TimesFF(f: Float64, g: Float64): (h: Float64)
    ensures f.Fin? && g.Fin? ==> h == Fin(f.val * g.val)
    ensures f.NaN? || g.NaN? ==> h.NaN?
  {
    match (f, g)
    case (NaN, _) => NaN
    case (_, NaN) => NaN
    case (Fin(a), _) => TimesF(g, a)
    case (_, Fin(b)) => TimesF(f, b)
    case (PosInf, PosInf) => PosInf
    case (NegInf, NegInf) => PosInf
    case _ => NegInf
  }

  /** IEEE `x / f` for a finite x; a zero f is +0 (see Div). */
  function DivF(x: real, f: Float64): (h: Float64)
    ensures f.Fin? ==> h == Div(x, f.val)
    ensures f.PosInf? || f.NegInf? ==> h == Fin(0.0)
  {
    match f
    case Fin(v) => Div(x, v)
    case NaN => NaN
    case _ => Fin(0.0)
  }

  /** IEEE `f / d` for a finite d; a zero d is +0 (see Div). */
  function Quot(f: Float64, d: real): (h: Float64)
    ensures f.Fin? ==> h == Div(f.val, d)
    ensures f.NaN? ==> h.NaN?
  {
    match f
    case Fin(v) => Div(v, d)
    case NaN => NaN
    case PosInf => if d >= 0.0 then PosInf else NegInf
    case NegInf => if d >= 0.0 then NegInf else PosInf
  }

  /** IEEE `f <= g`: false when either side is NaN. */
  predicate LessEq(f: Float64, g: Float64)
  {
    match (f, g)
    case (NaN, _) => false
    case (_, NaN) => false
    case (NegInf, _) => true
    case (_, PosInf) => true
    case (Fin(a), Fin(b)) => a <= b
    case _ => false
  }

  /** IEEE `f < x` for a finite x: false for NaN. */
  predicate Below(f: Float64, x: real)
  {
    match f
    case Fin(v) => v < x
    case NegInf => true
    case _ => false
  }

  /** IEEE `f > x` for a finite x: false for NaN. */
  predicate Above(f: Float64, x: real)
  {
    match f
    case Fin(v) => v > x
    case PosInf => true
    case _ => false
  }

  /**
   * Go's `int(f)` on amd64: the truncated value when it fits in an int64,
   * otherwise (NaN, an infinity, a value out of range) -2^63.
   */
  function ToInt(f: Float64): (n: int)
    ensures MinInt64 <= n <= MaxInt64
    ensures f.Fin? && MinInt64 <= Trunc(f.val) <= MaxInt64 ==> n == Trunc(f.val)
    ensures !f.Fin? ==> n == MinInt64
  {
    match f
    case Fin(v) => if MinInt64 <= Trunc(v) <= MaxInt64 then Trunc(v) else MinInt64
    case _ => MinInt64
  }

  /** `int(x)` for a finite float64 x. */
  function RealToInt(x: real): (n: int)
    ensures MinInt64 <= n <= MaxInt64
    ensures MinInt64 <= Trunc(x) <= MaxInt64 ==> n == Trunc(x)
  {
    ToInt(Fin(x))
  }

  /** math.Ceil on a finite value. */
  function Ceil(x: real): (n: int)
    ensures x <= n as real < x + 1.0
  {
    if x.Floor as real == x then x.Floor else x.Floor + 1
  }

  /** math.Ceil on a float64: non-finite values are returned unchanged. */
  function CeilF(f: Float64): (g: Float64)
    ensures f.Fin? ==> g.Fin? && f.val <= g.val < f.val + 1.0
    ensures !f.Fin? ==> g == f
  {
    if f.Fin? then Fin(Ceil(f.val) as real) else f
  }
}
