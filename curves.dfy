/**
 * The demarcation curves of spaxelsleuth/utils/linefns.py that separate
 * excitation regions on the BPT diagrams: Kewley et al. (2001), Kauffmann et
 * al. (2003), Kewley et al. (2006) and Law et al. (2021). Each curve gives
 * log O3 as a function of the x-axis ratio (or, for the 3-sigma curves of Law
 * et al., the x-axis ratio as a function of log O3); outside its domain the
 * input is first replaced by NaN, so the curve is NaN there.
 */
module Curves {
  import opened Numeric
  import opened Outcomes

  /** The x axes of the three BPT diagrams. */
  datatype Axis = LogN2 | LogS2 | LogO1

  function AxisName(a: Axis): string
  {
    match a
    case LogN2 => "log N2"
    case LogS2 => "log S2"
    case LogO1 => "log O1"
  }

  /** Parses the `ratio_x` argument; only the three axis names are accepted. */
  function ParseAxis(name: string): (r: Option<Axis>)
    ensures r.Some? <==> name in {"log N2", "log S2", "log O1"}
    ensures r.Some? ==> AxisName(r.value) == name
  {
    if name == "log N2" then Some(LogN2)
    else if name == "log S2" then Some(LogS2)
    else if name == "log O1" then Some(LogO1)
    else None
  }

  /**
   * `a / (x - pole) + b` after every x above `pole` has been replaced by NaN;
   * the shape shared by the Kewley (2001), Kauffmann (2003) and Law (2021)
   * 1-sigma curves. Where the source writes `x + c`, the pole is -c and
   * `x - pole` is that same sum.
   */
  function Hyperbola(a: real, pole: real, b: real, x: Num): Num
  {
    Add(Div(Val(a), Sub(NaNIf(Gt(x, Val(pole)), x), Val(pole))), Val(b))
  }

  /** Kewley et al. (2001) maximum-starburst line, `Kewley2001` for one value. */
  function Kewley2001(axis: Axis, x: Num): Num
  {
    match axis
    case LogN2 => Hyperbola(0.61, 0.47, 1.19, x)
    case LogS2 => Hyperbola(0.72, 0.32, 1.30, x)
    case LogO1 => Hyperbola(0.73, -0.59, 1.33, x)
  }

  /** Kauffmann et al. (2003) empirical line; defined on log N2 only. */
  function Kauffman2003(x: Num): Num
  {
    Hyperbola(0.61, 0.05, 1.3, x)
  }

  /** Kewley et al. (2006) Seyfert/LINER line, the module-level `Kewley2006`. */
  function Kewley2006(axis: Axis, x: Num): Num
    requires axis != LogN2
  {
    match axis
    case LogS2 => Add(Mul(Val(1.89), NaNIf(Lt(x, Val(-0.3143200520185163)), x)), Val(0.76))
    case LogO1 => Add(Mul(Val(1.18), NaNIf(Lt(x, Val(-1.1259)), x)), Val(1.30))
  }

  /**
   * The copy of `Kewley2006` that `bpt_fn` defines for itself: on log S2 it
   * drops the lower cut-off, on log O1 it keeps it.
   */
  function Kewley2006Bpt(axis: Axis, x: Num): Num
    requires axis != LogN2
  {
    match axis
    case LogS2 => Add(Mul(Val(1.89), x), Val(0.76))
    case LogO1 => Add(Mul(Val(1.18), NaNIf(Lt(x, Val(-1.1259)), x)), Val(1.30))
  }

  /** Law et al. (2021) 1-sigma line. */
  function Law2021OneSigma(axis: Axis, x: Num): Num
  {
    match axis
    case LogN2 => Hyperbola(0.359, -0.032, 1.083, x)
    case LogS2 => Hyperbola(0.410, 0.198, 1.164, x)
    case LogO1 => Hyperbola(0.612, -0.360, 1.179, x)
  }

  /** `c4*y**4 + c3*y**3 + c2*y**2 + c1*y + c0`, summed left to right as written. */
  function Quartic(c4: real, c3: real, c2: real, c1: real, c0: real, y: Num): Num
  {
    Add(Add(Add(Add(Mul(Val(c4), Pow(y, 4)), Mul(Val(c3), Pow(y, 3))), Mul(Val(c2), Pow(y, 2))), Mul(Val(c1), y)), Val(c0))
  }

  /** The real quartic the polynomial evaluates to on a finite input. */
  function QuarticValue(c4: real, c3: real, c2: real, c1: real, c0: real, y: real): real
  {
    c4 * (y * y * y * y) + c3 * (y * y * y) + c2 * (y * y) + c1 * y + c0
  }

  /** Law et al. (2021) 3-sigma line: the x-axis ratio as a function of y = log O3. */
  function Law2021ThreeSigma(axis: Axis, y: Num): Num
  {
    match axis
    case LogN2 => Quartic(-0.479, -0.594, -0.542, -0.056, -0.143, NaNIf(Lt(y, Val(-0.61)), y))
    case LogS2 => Quartic(-0.943, -0.450, 0.408, -0.610, -0.025, NaNIf(Lt(y, Val(-0.80)), y))
    case LogO1 => Quartic(18.664, -36.343, 22.238, -6.134, -0.283, NaNIf(Gt(y, Val(0.65)), y))
  }

  /** The pole of the hyperbolic curves: the largest x on which each is defined. */
  function Kewley2001Pole(axis: Axis): real
  {
    match axis
    case LogN2 => 0.47
    case LogS2 => 0.32
    case LogO1 => -0.59
  }

  /** The horizontal asymptote the Kewley (2001) curves approach as x runs to -infinity. */
  function Kewley2001Asymptote(axis: Axis): real
  {
    match axis
    case LogN2 => 1.19
    case LogS2 => 1.30
    case LogO1 => 1.33
  }

  /**
   * A curve of the hyperbolic shape is NaN exactly where its input is NaN or
   * beyond the pole, +infinity at the pole, the asymptote at -infinity, and
   * below the asymptote and strictly decreasing everywhere else.
   */
  lemma HyperbolaShape(a: real, pole: real, b: real, x: Num)
    requires a > 0.0
    ensures Hyperbola(a, pole, b, x).NaN? <==> (x.NaN? || Gt(x, Val(pole)))
    ensures x == Val(pole) ==> Hyperbola(a, pole, b, x) == PosInf
    ensures x == NegInf ==> Hyperbola(a, pole, b, x) == Val(b)
    ensures x.Val? && x.v < pole ==>
              Hyperbola(a, pole, b, x) == Val(a / (x.v - pole) + b) && a / (x.v - pole) + b < b
  {
    if x.Val? && x.v < pole {
      var d := x.v - pole;
      assert a / d * d == a;
      assert a / d < 0.0;
    }
  }

  lemma {:induction false} HyperbolaDecreasing(a: real, pole: real, b: real, x1: real, x2: real)
    requires a > 0.0 && x1 < x2 < pole
    ensures Lt(Hyperbola(a, pole, b, Val(x2)), Hyperbola(a, pole, b, Val(x1)))
  {
    var d1, d2 := x1 - pole, x2 - pole;
    assert d1 < d2 < 0.0;
    assert a / d2 < a / d1 by {
      assert a / d2 * d2 == a && a / d1 * d1 == a;
      assert d1 * d2 > 0.0;
      assert a / d2 - a / d1 == a * (d1 - d2) / (d1 * d2);
    }
  }

  /** Kewley (2001): NaN beyond the pole, decreasing below it, under its asymptote. */
  lemma Kewley2001Domain(axis: Axis, x: Num)
    ensures Kewley2001(axis, x).NaN? <==> (x.NaN? || Gt(x, Val(Kewley2001Pole(axis))))
    ensures x.Val? && x.v < Kewley2001Pole(axis) ==>
              Kewley2001(axis, x).Val? && Kewley2001(axis, x).v < Kewley2001Asymptote(axis)
    ensures x == Val(Kewley2001Pole(axis)) ==> Kewley2001(axis, x) == PosInf
  {
    match axis
    case LogN2 => HyperbolaShape(0.61, 0.47, 1.19, x);
    case LogS2 => HyperbolaShape(0.72, 0.32, 1.30, x);
    case LogO1 => HyperbolaShape(0.73, -0.59, 1.33, x);
  }

  /** Kauffmann (2003) is NaN exactly beyond log N2 = 0.05 (or on NaN). */
  lemma Kauffman2003Domain(x: Num)
    ensures Kauffman2003(x).NaN? <==> (x.NaN? || Gt(x, Val(0.05)))
    ensures x.Val? && x.v < 0.05 ==> Kauffman2003(x) == Val(0.61 / (x.v - 0.05) + 1.3)
  {
    HyperbolaShape(0.61, 0.05, 1.3, x);
  }

  /** Law (2021) 1-sigma: NaN exactly beyond the pole. */
  lemma Law2021OneSigmaDomain(axis: Axis, x: Num)
    ensures Law2021OneSigma(axis, x).NaN? <==>
              (x.NaN? || Gt(x, Val(match axis case LogN2 => -0.032 case LogS2 => 0.198 case LogO1 => -0.360)))
  {
    match axis
    case LogN2 => HyperbolaShape(0.359, -0.032, 1.083, x);
    case LogS2 => HyperbolaShape(0.410, 0.198, 1.164, x);
    case LogO1 => HyperbolaShape(0.612, -0.360, 1.179, x);
  }

  /**
   * Where both are defined (log N2 = x below 0.05), the Kauffmann (2003)
   * line lies below the Kewley (2001) line exactly when
   * 0.11 (0.05 - x)(0.47 - x) < 0.61 * 0.42, that is for x above about -1.28;
   * further left the two lines have crossed and the Kauffmann line is the
   * higher one.
   */
  lemma KauffmannBelowKewley(x: real)
    requires x < 0.05
    ensures Lt(Kauffman2003(Val(x)), Kewley2001(LogN2, Val(x))) <==> 0.11 * ((0.05 - x) * (0.47 - x)) < 0.2562
  {
    HyperbolaShape(0.61, 0.05, 1.3, Val(x));
    HyperbolaShape(0.61, 0.47, 1.19, Val(x));
    var a, b := x - 0.05, x - 0.47;
    var p, q := 0.61 / a, 0.61 / b;
    assert p * a == 0.61 && q * b == 0.61;
    var ab := a * b;
    assert ab == (0.05 - x) * (0.47 - x);
    assert ab > 0.0;
    assert (p + 1.3) - 1.19 < q <==> (p + 0.11) * ab < q * ab;
    assert (p + 0.11) * ab == 0.61 * b + 0.11 * ab by {
      assert p * ab == (p * a) * b;
    }
    assert q * ab == 0.61 * a by {
      assert q * ab == (q * b) * a;
    }
  }

  lemma {:induction false} PowFinite(y: real, n: nat)
    requires n >= 1
    ensures Pow(Val(y), n).Val?
    ensures n == 2 ==> Pow(Val(y), n).v == y * y
    ensures n == 3 ==> Pow(Val(y), n).v == y * y * y
    ensures n == 4 ==> Pow(Val(y), n).v == y * y * y * y
  {
    if n > 1 { PowFinite(y, n - 1); }
  }

  /** On a finite input the quartic as written is the real polynomial. */
  lemma QuarticFinite(c4: real, c3: real, c2: real, c1: real, c0: real, y: real)
    ensures Quartic(c4, c3, c2, c1, c0, Val(y)) == Val(QuarticValue(c4, c3, c2, c1, c0, y))
  {
    PowFinite(y, 2); PowFinite(y, 3); PowFinite(y, 4);
  }

  /**
   * Law (2021) 3-sigma: NaN exactly where log O3 is NaN or outside the domain
   * (below -0.61 for N2, below -0.80 for S2, above 0.65 for O1); on a finite
   * log O3 inside, the published quartic.
   */
  lemma Law2021ThreeSigmaDomain(axis: Axis, y: real)
    ensures axis == LogN2 ==> (Law2021ThreeSigma(axis, Val(y)).NaN? <==> y < -0.61)
    ensures axis == LogS2 ==> (Law2021ThreeSigma(axis, Val(y)).NaN? <==> y < -0.80)
    ensures axis == LogO1 ==> (Law2021ThreeSigma(axis, Val(y)).NaN? <==> y > 0.65)
    ensures axis == LogN2 && y >= -0.61 ==>
              Law2021ThreeSigma(axis, Val(y)) == Val(QuarticValue(-0.479, -0.594, -0.542, -0.056, -0.143, y))
    ensures axis == LogS2 && y >= -0.80 ==>
              Law2021ThreeSigma(axis, Val(y)) == Val(QuarticValue(-0.943, -0.450, 0.408, -0.610, -0.025, y))
    ensures axis == LogO1 && y <= 0.65 ==>
              Law2021ThreeSigma(axis, Val(y)) == Val(QuarticValue(18.664, -36.343, 22.238, -6.134, -0.283, y))
  {
    QuarticFinite(-0.479, -0.594, -0.542, -0.056, -0.143, y);
    QuarticFinite(-0.943, -0.450, 0.408, -0.610, -0.025, y);
    QuarticFinite(18.664, -36.343, 22.238, -6.134, -0.283, y);
  }

  /** The bpt_fn copy of Kewley (2006) agrees with the module-level one wherever the latter is defined. */
  lemma Kewley2006Copies(axis: Axis, x: Num)
    requires axis != LogN2
    ensures !Kewley2006(axis, x).NaN? ==> Kewley2006Bpt(axis, x) == Kewley2006(axis, x)
    ensures axis == LogO1 ==> Kewley2006Bpt(axis, x) == Kewley2006(axis, x)
    ensures axis == LogS2 && x.Val? && x.v < -0.3143200520185163 ==>
              Kewley2006(axis, x).NaN? && Kewley2006Bpt(axis, x) == Val(1.89 * x.v + 0.76)
  {
  }

  // ---- The public functions on arrays, with their argument handling ----

  function MapCells(f: Num -> Num, xs: seq<Num>): (r: seq<Num>)
    ensures |r| == |xs| && forall i :: 0 <= i < |xs| ==> r[i] == f(xs[i])
  {
    seq(|xs|, i requires 0 <= i < |xs| => f(xs[i]))
  }

  /**
   * `Kewley2001(ratio_x, ratio_x_vals, log)`: with `log` false the function
   * reads an unbound name before anything else; otherwise the axis must be
   * one of the three names.
   */
  function Kewley2001Fn(ratioX: string, xs: seq<Num>, log: bool): (r: Result<seq<Num>>)
    ensures !log ==> r == Failure(NameError("ratio_y_vals"))
    ensures log ==> (r.Success? <==> ParseAxis(ratioX).Some?)
    ensures r.Success? ==> |r.value| == |xs|
    ensures r.Success? ==>
              forall i :: 0 <= i < |xs| ==> r.value[i] == Kewley2001(ParseAxis(ratioX).value, xs[i])
  {
    if !log then Failure(NameError("ratio_y_vals"))
    else match ParseAxis(ratioX)
      case None => Failure(AssertionError("x must be one of log N2, log S2 or log O1!"))
      case Some(axis) => Success(MapCells(x => Kewley2001(axis, x), xs))
  }

  /** `Kauffman2003(ratio_x, ratio_x_vals, log)`: only "log N2" is accepted. */
  function Kauffman2003Fn(ratioX: string, xs: seq<Num>, log: bool): (r: Result<seq<Num>>)
    ensures !log ==> r == Failure(NameError("ratio_y_vals"))
    ensures log ==> (r.Success? <==> ratioX == "log N2")
    ensures r.Success? ==> |r.value| == |xs| && forall i :: 0 <= i < |xs| ==> r.value[i] == Kauffman2003(xs[i])
  {
    if !log then Failure(NameError("ratio_y_vals"))
    else if ratioX != "log N2" then Failure(AssertionError("x must be log N2!"))
    else Success(MapCells(Kauffman2003, xs))
  }

  /** `Kewley2006(ratio_x, ratio_x_vals, log)`: "log S2" or "log O1" only. */
  function Kewley2006Fn(ratioX: string, xs: seq<Num>, log: bool): (r: Result<seq<Num>>)
    ensures !log ==> r == Failure(NameError("ratio_y_vals"))
    ensures log ==> (r.Success? <==> ratioX in {"log S2", "log O1"})
    ensures r.Success? ==> |r.value| == |xs|
    ensures r.Success? ==>
              forall i :: 0 <= i < |xs| ==> r.value[i] == Kewley2006(ParseAxis(ratioX).value, xs[i])
  {
    if !log then Failure(NameError("ratio_y_vals"))
    else if ratioX == "log S2" then Success(MapCells(x => Kewley2006(LogS2, x), xs))
    else if ratioX == "log O1" then Success(MapCells(x => Kewley2006(LogO1, x), xs))
    else Failure(AssertionError("x must be one of log N2, log S2 or log O1!"))
  }

  /** `Law2021_1sigma(ratio_x, ratio_x_vals, log)` */
  function Law2021OneSigmaFn(ratioX: string, xs: seq<Num>, log: bool): (r: Result<seq<Num>>)
    ensures !log ==> r == Failure(NameError("ratio_y_vals"))
    ensures log ==> (r.Success? <==> ParseAxis(ratioX).Some?)
    ensures r.Success? ==> |r.value| == |xs|
    ensures r.Success? ==>
              forall i :: 0 <= i < |xs| ==> r.value[i] == Law2021OneSigma(ParseAxis(ratioX).value, xs[i])
  {
    if !log then Failure(NameError("ratio_y_vals"))
    else match ParseAxis(ratioX)
      case None => Failure(AssertionError("x must be one of log N2, log S2 or log O1!"))
      case Some(axis) => Success(MapCells(x => Law2021OneSigma(axis, x), xs))
  }

  /**
   * `Law2021_3sigma(ratio_x, ratio_y_vals, log)`: unlike the other curves its
   * `log=False` path is well defined and takes log10 of the input first.
   */
  function Law2021ThreeSigmaFn(ratioX: string, ys: seq<Num>, log: bool, log10: real -> real): (r: Result<seq<Num>>)
    ensures r.Success? <==> ParseAxis(ratioX).Some?
    ensures r.Success? ==> |r.value| == |ys|
    ensures r.Success? ==>
              forall i :: 0 <= i < |ys| ==>
                r.value[i] == Law2021ThreeSigma(ParseAxis(ratioX).value, if log then ys[i] else Log10(ys[i], log10))
  {
    var y := if log then ys else MapCells(v => Log10(v, log10), ys);
    match ParseAxis(ratioX)
    case None => Failure(AssertionError("x must be one of log N2, log S2 or log O1!"))
    case Some(axis) => Success(MapCells(v => Law2021ThreeSigma(axis, v), y))
  }
}
