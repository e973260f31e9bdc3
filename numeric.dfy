/**
 * Floating-point cells as numpy sees them: a finite value, +/-infinity or NaN.
 * Arithmetic follows IEEE 754 on the extended reals, without rounding and
 * without a signed zero (every zero is +0). Comparisons follow numpy: any
 * comparison that involves NaN is false.
 */
module Numeric {

  datatype Num = NaN | Val(v: real) | PosInf | NegInf

  /** `np.isnan` */
  predicate IsNaN(x: Num) { x.NaN? }

  predicate IsFinite(x: Num) { x.Val? }

  /** `a < b` */
  predicate Lt(a: Num, b: Num)
  {
    match (a, b)
    case (Val(x), Val(y)) => x < y
    case (NegInf, Val(_)) => true
    case (NegInf, PosInf) => true
    case (Val(_), PosInf) => true
    case _ => false
  }

  /** `a == b` (NaN is not equal to itself) */
  predicate Eq(a: Num, b: Num) { a == b && !a.NaN? }

  /** `a <= b` */
  predicate Le(a: Num, b: Num) { Lt(a, b) || Eq(a, b) }

  /** `a > b` */
  predicate Gt(a: Num, b: Num) { Lt(b, a) }

  /** `a >= b` */
  predicate Ge(a: Num, b: Num) { Le(b, a) }

  function Neg(a: Num): Num
  {
    match a
    case NaN => NaN
    case Val(x) => Val(-x)
    case PosInf => NegInf
    case NegInf => PosInf
  }

  function Add(a: Num, b: Num): Num
  {
    match (a, b)
    case (Val(x), Val(y)) => Val(x + y)
    case (NaN, _) => NaN
    case (_, NaN) => NaN
    case (PosInf, NegInf) => NaN
    case (NegInf, PosInf) => NaN
    case (PosInf, _) => PosInf
    case (_, PosInf) => PosInf
    case _ => NegInf
  }

  function Sub(a: Num, b: Num): Num { Add(a, Neg(b)) }

  /** -1, 0 or 1 for a non-NaN cell */
  function Sign(a: Num): int
  {
    match a
    case NaN => 0
    case Val(x) => if x < 0.0 then -1 else if x == 0.0 then 0 else 1
    case PosInf => 1
    case NegInf => -1
  }

  function Inf(sign: int): Num { if sign < 0 then NegInf else PosInf }

  function Mul(a: Num, b: Num): Num
  {
    if a.NaN? || b.NaN? then NaN
    else if a.Val? && b.Val? then Val(a.v * b.v)
    else if Sign(a) == 0 || Sign(b) == 0 then NaN   // 0 * inf
    else Inf(Sign(a) * Sign(b))
  }

  function Div(a: Num, b: Num): Num
  {
    if a.NaN? || b.NaN? then NaN
    else if a.Val? && b.Val? then
      (if b.v != 0.0 then Val(a.v / b.v)
       else if a.v == 0.0 then NaN                      // 0 / 0
       else Inf(Sign(a)))                               // x / +0
    else if a.Val? then Val(0.0)                         // finite / inf
    else if b.Val? then
      (if b.v == 0.0 then a else Inf(Sign(a) * Sign(b))) // inf / finite
    else NaN                                             // inf / inf
  }

  /** `a ** n` for a whole exponent n >= 1 */
  function Pow(a: Num, n: nat): Num
    requires n >= 1
  {
    if n == 1 then a else Mul(Pow(a, n - 1), a)
  }

  function Square(a: Num): Num { Mul(a, a) }

  function Abs(a: Num): Num
  {
    match a
    case NaN => NaN
    case Val(x) => Val(if x < 0.0 then -x else x)
    case _ => PosInf
  }

  /** `np.log10`, with `log10` the real logarithm on positive reals */
  function Log10(a: Num, log10: real -> real): Num
  {
    match a
    case NaN => NaN
    case Val(x) => if x < 0.0 then NaN else if x == 0.0 then NegInf else Val(log10(x))
    case PosInf => PosInf
    case NegInf => NaN
  }

  /** `np.sqrt`, with `sqrt` the real square root on non-negative reals */
  function Sqrt(a: Num, sqrt: real -> real): Num
  {
    match a
    case NaN => NaN
    case Val(x) => if x < 0.0 then NaN else Val(sqrt(x))
    case PosInf => PosInf
    case NegInf => NaN
  }

  /** Replace a cell by NaN when a condition holds (`a[cond] = np.nan`). */
  function NaNIf(cond: bool, a: Num): Num { if cond then NaN else a }

  /** `np.nansum`: the sum with every NaN read as 0 (so an all-NaN sum is 0). */
  function NanSum(s: seq<Num>): Num
  {
    if s == [] then Val(0.0)
    else if s[|s| - 1].NaN? then NanSum(s[..|s| - 1])
    else Add(NanSum(s[..|s| - 1]), s[|s| - 1])
  }

  /** `np.all(np.isnan(s))` */
  predicate AllNaN(s: seq<Num>) { forall i :: 0 <= i < |s| ==> s[i].NaN? }

  /** The real sum of the finite cells. */
  function FiniteSum(s: seq<Num>): real
  {
    if s == [] then 0.0
    else FiniteSum(s[..|s| - 1]) + (if s[|s| - 1].Val? then s[|s| - 1].v else 0.0)
  }

  /** With no infinity among the cells, `np.nansum` is the sum of the finite cells. */
  lemma {:induction false} NanSumOfFinite(s: seq<Num>)
    requires forall i :: 0 <= i < |s| ==> s[i].NaN? || s[i].Val?
    ensures NanSum(s) == Val(FiniteSum(s))
  {
    if s != [] {
      NanSumOfFinite(s[..|s| - 1]);
    }
  }

  /** `np.nansum` never returns NaN unless both infinities occur. */
  lemma {:induction false} NanSumNotNaN(s: seq<Num>)
    requires !(exists i :: 0 <= i < |s| && s[i] == PosInf) || !(exists i :: 0 <= i < |s| && s[i] == NegInf)
    ensures !NanSum(s).NaN?
    ensures (forall i :: 0 <= i < |s| ==> s[i] != PosInf) ==> NanSum(s) != PosInf
    ensures (forall i :: 0 <= i < |s| ==> s[i] != NegInf) ==> NanSum(s) != NegInf
  {
    if s != [] {
      var t := s[..|s| - 1];
      assert forall i :: 0 <= i < |t| ==> t[i] == s[i];
      NanSumNotNaN(t);
    }
  }

  /** An all-NaN input sums to 0. */
  lemma {:induction false} NanSumAllNaN(s: seq<Num>)
    requires AllNaN(s)
    ensures NanSum(s) == Val(0.0)
  {
    if s != [] {
      NanSumAllNaN(s[..|s| - 1]);
    }
  }

  /** Comparisons are false on NaN, and `Lt` is the strict order of the extended reals. */
  lemma CompareNaN(a: Num, b: Num)
    ensures (a.NaN? || b.NaN?) ==> !Lt(a, b) && !Le(a, b) && !Gt(a, b) && !Ge(a, b) && !Eq(a, b)
    ensures !a.NaN? && !b.NaN? ==> (Lt(a, b) || Eq(a, b) || Gt(a, b))
    ensures !(Lt(a, b) && Ge(a, b))
  {
  }

  /** x / 0 is an infinity of the sign of x, and 0 / 0 is NaN. */
  lemma DivByZero(x: real)
    ensures x > 0.0 ==> Div(Val(x), Val(0.0)) == PosInf
    ensures x < 0.0 ==> Div(Val(x), Val(0.0)) == NegInf
    ensures Div(Val(0.0), Val(0.0)) == NaN
  {
  }
}
