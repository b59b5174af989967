/**
 * JavaScript numbers as the editor meets them: a finite value, modelled by an
 * exact real, or one of the three non-finite values NaN, +Infinity and
 * -Infinity; with the comparisons and `Math` functions the editor applies.
 * Negative zero is not distinguished from zero.
 */
module JsNumber {

  datatype Num = Fin(val: real) | NaN | PosInf | NegInf

  /** `Number.isFinite(n)` */
  predicate IsFinite(n: Num) {
    n.Fin?
  }

  /** JavaScript `a < b`: false as soon as either side is NaN. */
  predicate Less(a: Num, b: Num) {
    !a.NaN? && !b.NaN? && a != b &&
    (a.NegInf? || b.PosInf? || (a.Fin? && b.Fin? && a.val < b.val))
  }

  /** JavaScript `a <= b` */
  predicate LessEq(a: Num, b: Num) {
    !a.NaN? && !b.NaN? && (a == b || Less(a, b))
  }

  /** `Math.max(a, b)`: NaN if either argument is NaN, otherwise the larger one. */
  function Max(a: Num, b: Num): (r: Num)
    ensures r.NaN? <==> a.NaN? || b.NaN?
    ensures !r.NaN? ==> LessEq(a, r) && LessEq(b, r) && (r == a || r == b)
  {
    if a.NaN? || b.NaN? then NaN else if Less(a, b) then b else a
  }

  /** `Math.min(a, b)`: NaN if either argument is NaN, otherwise the smaller one. */
  function Min(a: Num, b: Num): (r: Num)
    ensures r.NaN? <==> a.NaN? || b.NaN?
    ensures !r.NaN? ==> LessEq(r, a) && LessEq(r, b) && (r == a || r == b)
  {
    if a.NaN? || b.NaN? then NaN else if Less(b, a) then b else a
  }

  /** The sign of a number that is not NaN: -1, 0 or 1. */
  function Sign(n: Num): int
    requires !n.NaN?
  {
    match n
    case PosInf => 1
    case NegInf => -1
    case Fin(v) => if v > 0.0 then 1 else if v < 0.0 then -1 else 0
  }

  /** An infinity of the given sign. */
  function Infinity(sign: int): Num {
    if sign < 0 then NegInf else PosInf
  }

  /** JavaScript `a + b` */
  function Add(a: Num, b: Num): (r: Num)
    ensures a.Fin? && b.Fin? ==> r == Fin(a.val + b.val)
    ensures r.NaN? <==> a.NaN? || b.NaN? || (a.PosInf? && b.NegInf?) || (a.NegInf? && b.PosInf?)
  {
    match (a, b)
    case (NaN, _) => NaN
    case (_, NaN) => NaN
    case (PosInf, NegInf) => NaN
    case (NegInf, PosInf) => NaN
    case (PosInf, _) => PosInf
    case (NegInf, _) => NegInf
    case (_, PosInf) => PosInf
    case (_, NegInf) => NegInf
    case (Fin(x), Fin(y)) => Fin(x + y)
  }

  /** JavaScript `a * b`: an infinity times zero is NaN. */
  function Mul(a: Num, b: Num): (r: Num)
    ensures a.Fin? && b.Fin? ==> r == Fin(a.val * b.val)
    ensures r.NaN? <==> a.NaN? || b.NaN? || (!a.Fin? && b == Fin(0.0)) || (a == Fin(0.0) && !b.Fin?)
  {
    if a.NaN? || b.NaN? then NaN
    else if a.Fin? && b.Fin? then Fin(a.val * b.val)
    else if Sign(a) == 0 || Sign(b) == 0 then NaN
    else Infinity(Sign(a) * Sign(b))
  }

  /** JavaScript `a / b`: zero over zero and infinity over infinity are NaN. */
  function Div(a: Num, b: Num): (r: Num)
    ensures a.Fin? && b.Fin? && b.val != 0.0 ==> r == Fin(a.val / b.val)
    ensures a.Fin? && b == Fin(0.0) ==> (r.NaN? <==> a.val == 0.0)
    ensures a.Fin? && (b.PosInf? || b.NegInf?) ==> r == Fin(0.0)
    ensures (a.PosInf? || a.NegInf?) && (b.PosInf? || b.NegInf?) ==> r.NaN?
  {
    if a.NaN? || b.NaN? then NaN
    else if !a.Fin? && !b.Fin? then NaN
    else if !a.Fin? then Infinity(if Sign(b) == 0 then Sign(a) else Sign(a) * Sign(b))
    else if !b.Fin? then Fin(0.0)
    else if b.val != 0.0 then Fin(a.val / b.val)
    else if a.val == 0.0 then NaN
    else Infinity(Sign(a))
  }

  /** `Math.round` on a finite value: the nearest integer, halves rounded up. */
  function RoundReal(x: real): (r: int)
    ensures r as real - 0.5 <= x < r as real + 0.5
  {
    (x + 0.5).Floor
  }

  /** `Math.round(n)`: non-finite values come back unchanged. */
  function Round(n: Num): (r: Num)
    ensures n.Fin? <==> r.Fin?
    ensures n.Fin? ==> r.val == RoundReal(n.val) as real
    ensures !n.Fin? ==> r == n
  {
    if n.Fin? then Fin(RoundReal(n.val) as real) else n
  }

  /** `Math.min(hi, Math.max(lo, x))` on finite values. */
  function Clamp(x: real, lo: real, hi: real): (r: real)
    requires lo <= hi
    ensures lo <= r <= hi
    ensures lo <= x <= hi ==> r == x
    ensures x < lo ==> r == lo
    ensures hi < x ==> r == hi
  {
    if x < lo then lo else if hi < x then hi else x
  }
}
