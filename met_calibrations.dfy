/**
 * The per-row formulas of `_get_metallicity` (utils/metallicity.py): the
 * closed-form strong-line calibrations with their validity windows, the
 * branch selection of the P10, PG16 and KK04 calibrations, and the Kewley
 * (2019) cubic with its (Z, U) box. Every formula works on one row's log
 * line ratios; a NaN or infinite ratio follows numpy's arithmetic.
 */
module Calibrations {
  import opened Numeric
  import opened Outcomes
  import opened MetTables

  /** Powers of a finite cell are the powers of its value. */
  lemma PowOfVal(x: real)
    ensures Pow(Val(x), 2) == Val(x * x)
    ensures Pow(Val(x), 3) == Val(x * x * x)
    ensures Pow(Val(x), 4) == Val(x * x * x * x)
    ensures Pow(Val(x), 5) == Val(x * x * x * x * x)
  {
  }

  /** `A + B*x + C*y + D*x*y + E*x**2 + F*y**2 + G*x*y**2 + H*y*x**2 + I*x**3 + J*y**3`, left to right. */
  function EvalCubic(p: Cubic, x: Num, y: Num): Num
  {
    Add(Add(Add(Add(Add(Add(Add(Add(Add(
      Val(p.a), Mul(Val(p.b), x)), Mul(Val(p.c), y)), Mul(Mul(Val(p.d), x), y)),
      Mul(Val(p.e), Pow(x, 2))), Mul(Val(p.f), Pow(y, 2))), Mul(Mul(Val(p.g), x), Pow(y, 2))),
      Mul(Mul(Val(p.h), y), Pow(x, 2))), Mul(Val(p.i), Pow(x, 3))), Mul(Val(p.j), Pow(y, 3)))
  }

  /** On finite inputs the Kewley (2019) polynomial is finite; a NaN input gives NaN. */
  lemma CubicOfVals(p: Cubic, x: Num, y: Num)
    ensures x.Val? && y.Val? ==> EvalCubic(p, x, y).Val?
    ensures x.NaN? || y.NaN? ==> EvalCubic(p, x, y).NaN?
  {
    if x.Val? && y.Val? {
      PowOfVal(x.v);
      PowOfVal(y.v);
    }
  }

  /** `(lo < x) & (x < hi)` */
  predicate InWindow(x: Num, lo: real, hi: real)
  {
    Lt(Val(lo), x) && Lt(x, Val(hi))
  }

  /** `z[~good_pts] = np.nan` */
  function Clip(good: bool, z: Num): Num { NaNIf(!good, z) }

  // ---- Closed forms with a window on the log ratio ----

  /** N2Ha, Pettini & Pagel (2004), x = log([NII]6583 / H-alpha). */
  function N2HaPP04(x: Num): (z: Num)
    ensures !z.NaN? <==> InWindow(x, -2.5, -0.3)
    ensures !z.NaN? ==> z == Val(9.37 + 2.03 * x.v + 1.26 * (x.v * x.v) + 0.32 * (x.v * x.v * x.v))
  {
    PowOfVal(if x.Val? then x.v else 0.0);
    Clip(InWindow(x, -2.5, -0.3),
         Add(Add(Add(Val(9.37), Mul(Val(2.03), x)), Mul(Val(1.26), Pow(x, 2))), Mul(Val(0.32), Pow(x, 3))))
  }

  /** N2Ha, Marino et al. (2013). */
  function N2HaM13(x: Num): (z: Num)
    ensures !z.NaN? <==> InWindow(x, -1.6, -0.2)
    ensures !z.NaN? ==> z == Val(8.743 + 0.462 * x.v)
  {
    Clip(InWindow(x, -1.6, -0.2), Add(Val(8.743), Mul(Val(0.462), x)))
  }

  /** O3N2, Pettini & Pagel (2004), x = log(([OIII]5007 / H-beta) / ([NII]6583 / H-alpha)). */
  function O3N2PP04(x: Num): (z: Num)
    ensures !z.NaN? <==> InWindow(x, -1.0, 1.9)
    ensures !z.NaN? ==> z == Val(8.73 - 0.32 * x.v)
  {
    Clip(InWindow(x, -1.0, 1.9), Sub(Val(8.73), Mul(Val(0.32), x)))
  }

  /** O3N2, Marino et al. (2013). */
  function O3N2M13(x: Num): (z: Num)
    ensures !z.NaN? <==> InWindow(x, -1.1, 1.7)
    ensures !z.NaN? ==> z == Val(8.533 - 0.214 * x.v)
  {
    Clip(InWindow(x, -1.1, 1.7), Sub(Val(8.533), Mul(Val(0.214), x)))
  }

  /** The N2S2Ha ratio of Dopita et al. (2016): log(N2/S2) + 0.264 log(N2/H-alpha). */
  function D16Ratio(n2: Num, s2: Num, ha: Num, log10: real -> real): Num
  {
    Add(Log10(Div(n2, s2), log10), Mul(Val(0.264), Log10(Div(n2, ha), log10)))
  }

  /** N2S2Ha, Dopita et al. (2016). */
  function N2S2HaD16(x: Num): (z: Num)
    ensures !z.NaN? <==> InWindow(x, -1.1, 0.5)
    ensures !z.NaN? ==> z == Val(8.77 + x.v + 0.45 * ((x.v + 0.3) * (x.v + 0.3) * (x.v + 0.3) * (x.v + 0.3) * (x.v + 0.3)))
  {
    PowOfVal(if x.Val? then x.v + 0.3 else 0.0);
    Clip(InWindow(x, -1.1, 0.5), Add(Add(Val(8.77), x), Mul(Val(0.45), Pow(Add(x, Val(0.3)), 5))))
  }

  // ---- N2O2, Kewley & Dopita (2002): the window is on the result ----

  function KD02Unclipped(x: Num, log10: real -> real): Num
  {
    Add(Log10(Add(Add(Val(1.54020), Mul(Val(1.26602), x)), Mul(Val(0.167977), Pow(x, 2))), log10), Val(8.93))
  }

  /** Only reliable for 8.6 < log(O/H) + 12 < 9.4. */
  function N2O2KD02(x: Num, log10: real -> real): (z: Num)
    ensures !z.NaN? <==> InWindow(KD02Unclipped(x, log10), 8.6, 9.4)
    ensures !z.NaN? ==> z.Val? && 8.6 < z.v < 9.4 && z == KD02Unclipped(x, log10)
  {
    var z0 := KD02Unclipped(x, log10);
    Clip(InWindow(z0, 8.6, 9.4), z0)
  }

  // ---- Kewley (2019) ----

  /** With a fixed log U: Z from the cubic, both outputs clipped to the calibration's Z window. */
  function K19Fixed(cal: MetCal, x: Num, logU: real): (r: (Num, Num))
    ensures !r.0.NaN? <==> InWindow(EvalCubic(cal.p, x, Val(logU)), cal.zmin, cal.zmax)
    ensures !r.0.NaN? <==> !r.1.NaN?
    ensures !r.0.NaN? ==> r.0.Val? && cal.zmin < r.0.v < cal.zmax && r.0 == EvalCubic(cal.p, x, Val(logU))
    ensures !r.1.NaN? ==> r.1 == Val(logU)
  {
    var z := EvalCubic(cal.p, x, Val(logU));
    var good := Gt(z, Val(cal.zmin)) && Lt(z, Val(cal.zmax));
    (Clip(good, z), Clip(good, Val(logU)))
  }

  function Max(a: real, b: real): real { if a < b then b else a }
  function Min(a: real, b: real): real { if a < b then a else b }

  /**
   * After the coupled iteration: a row's (Z, U) is kept only when Z lies
   * strictly inside both Z windows and U strictly inside the U window of the
   * ionisation calibration; otherwise both become NaN.
   */
  function K19Box(met: MetCal, ion: IonCal, zu: (Num, Num)): (r: (Num, Num))
    ensures r == zu || r == (NaN, NaN)
    ensures !r.0.NaN? || !r.1.NaN? ==> r == zu
    ensures (r == zu && !zu.0.NaN?) <==>
              InWindow(zu.0, Max(met.zmin, ion.zmin), Min(met.zmax, ion.zmax)) && InWindow(zu.1, ion.umin, ion.umax)
  {
    var (z, u) := zu;
    var good := Gt(z, Val(met.zmin)) && Lt(z, Val(met.zmax)) && Lt(z, Val(ion.zmax)) && Gt(z, Val(ion.zmin))
                && Lt(u, Val(ion.umax)) && Gt(u, Val(ion.umin));
    (Clip(good, z), Clip(good, u))
  }

  // ---- R23, Kobulnicky & Kewley (2004) ----

  /** log10 of the speed of light in cm/s (`np.log10(constants.c * 1e2)`), as the double it evaluates to. */
  const LogC: real := 10.476820702927927

  /** log q from log([OIII]4959,5007 / [OII]3726,3729) `o` and the current metallicity `z`. */
  function KK04LogQ(o: Num, z: Num): Num
  {
    var top := Add(Sub(Val(32.81), Mul(Val(1.153), Pow(o, 2))),
                   Mul(z, Add(Sub(Val(-3.396), Mul(Val(0.025), o)), Mul(Val(0.1444), Pow(o, 2)))));
    var bottom := Add(Sub(Sub(Val(4.603), Mul(Val(0.3119), o)), Mul(Val(0.163), Pow(o, 2))),
                      Mul(z, Add(Add(Val(-0.48), Mul(Val(0.0271), o)), Mul(Val(0.02037), Pow(o, 2)))));
    Mul(top, Div(Val(1.0), bottom))    // `* (...)**(-1)`
  }

  /** The lower branch, for log([NII]/[OII]) < -1.2. */
  function KK04Lower(r: Num, q: Num): Num
  {
    Sub(Sub(Add(Val(9.40), Mul(Val(4.65), r)), Mul(Val(3.17), Pow(r, 2))),
        Mul(q, Sub(Add(Val(0.272), Mul(Val(0.547), r)), Mul(Val(0.513), Pow(r, 2)))))
  }

  /** The upper branch, for log([NII]/[OII]) >= -1.2. */
  function KK04Upper(r: Num, q: Num): Num
  {
    Sub(Sub(Sub(Sub(Sub(Val(9.72), Mul(Val(0.777), r)), Mul(Val(0.951), Pow(r, 2))), Mul(Val(0.072), Pow(r, 3))),
            Mul(Val(0.811), Pow(r, 4))),
        Mul(q, Sub(Add(Sub(Sub(Val(0.0737), Mul(Val(0.0713), r)), Mul(Val(0.141), Pow(r, 2))), Mul(Val(0.0373), Pow(r, 3))),
                   Mul(Val(0.058), Pow(r, 4)))))
  }

  /** With a fixed log U: q = U + log c, branch by log([NII]/[OII]), both outputs clipped to log R23 < 1. */
  function KK04Fixed(n2o2: Num, r23: Num, logU: real): (r: (Num, Num))
    ensures !r.1.NaN? <==> Lt(r23, Val(1.0))
    ensures !r.1.NaN? ==> r.1 == Val(logU)
    ensures !r.0.NaN? ==> Lt(r23, Val(1.0)) && !n2o2.NaN?
    ensures Lt(r23, Val(1.0)) && Lt(n2o2, Val(-1.2)) ==> r.0 == KK04Lower(r23, Val(logU + LogC))
    ensures Lt(r23, Val(1.0)) && Ge(n2o2, Val(-1.2)) ==> r.0 == KK04Upper(r23, Val(logU + LogC))
  {
    var q := Val(logU + LogC);
    var z := if Lt(n2o2, Val(-1.2)) then KK04Lower(r23, q)
             else if Ge(n2o2, Val(-1.2)) then KK04Upper(r23, q)
             else NaN;
    var good := Lt(r23, Val(1.0));
    (Clip(good, z), Clip(good, Val(logU)))
  }

  // ---- ONS and ON, Pilyugin et al. (2010) ----

  datatype Band = Cool | Warm | Hot

  /**
   * The cool, warm and hot masks, from log([NII]/H-beta) `n2` and
   * log([SII]/H-beta) `s2`. They never overlap, and a row falls outside
   * all three exactly when n2 is NaN, or n2 < -0.1 and n2 - s2 is NaN.
   */
  function P10Band(n2: Num, s2: Num): (b: Option<Band>)
    ensures b.None? <==> n2.NaN? || (Lt(n2, Val(-0.1)) && Sub(n2, s2).NaN?)
    ensures b == Some(Cool) <==> Ge(n2, Val(-0.1))
    ensures b == Some(Warm) <==> Lt(n2, Val(-0.1)) && Ge(Sub(n2, s2), Val(-0.25))
    ensures b == Some(Hot) <==> Lt(n2, Val(-0.1)) && Lt(Sub(n2, s2), Val(-0.25))
  {
    CompareNaN(n2, Val(-0.1));
    CompareNaN(Sub(n2, s2), Val(-0.25));
    if Ge(n2, Val(-0.1)) then Some(Cool)
    else if Lt(n2, Val(-0.1)) && Ge(Sub(n2, s2), Val(-0.25)) then Some(Warm)
    else if Lt(n2, Val(-0.1)) && Lt(Sub(n2, s2), Val(-0.25)) then Some(Hot)
    else None
  }

  /** One row of the P10 inputs: log N2, log S2, log R3, log R2 (all over H-beta) and P = R3 / (R3 + R2). */
  datatype P10Row = P10Row(n2: Num, s2: Num, r3: Num, r2: Num, p: Num)

  /** ONS, equation 17 of Pilyugin et al. (2010); NaN where no mask holds. */
  function ONSP10(x: P10Row): (z: Num)
    ensures P10Band(x.n2, x.s2).None? ==> z.NaN?
  {
    match P10Band(x.n2, x.s2)
    case None => NaN
    case Some(Cool) =>
      Add(Sub(Sub(Add(Val(8.277), Mul(Val(0.657), x.p)), Mul(Val(0.399), x.r3)), Mul(Val(0.061), Sub(x.n2, x.r2))),
          Mul(Val(0.005), Sub(x.s2, x.r2)))
    case Some(Warm) =>
      Sub(Add(Add(Sub(Val(8.816), Mul(Val(0.733), x.p)), Mul(Val(0.454), x.r3)), Mul(Val(0.710), Sub(x.n2, x.r2))),
          Mul(Val(0.337), Sub(x.s2, x.r2)))
    case Some(Hot) =>
      Add(Add(Add(Sub(Val(8.774), Mul(Val(1.855), x.p)), Mul(Val(1.517), x.r3)), Mul(Val(0.304), Sub(x.n2, x.r2))),
          Mul(Val(0.328), Sub(x.s2, x.r2)))
  }

  /** ON, equation 19 of Pilyugin et al. (2010). */
  function ONP10(x: P10Row): (z: Num)
    ensures P10Band(x.n2, x.s2).None? ==> z.NaN?
  {
    match P10Band(x.n2, x.s2)
    case None => NaN
    case Some(Cool) =>
      Sub(Sub(Sub(Val(8.606), Mul(Val(0.105), x.r3)), Mul(Val(0.410), x.r2)), Mul(Val(0.150), Sub(x.n2, x.r2)))
    case Some(Warm) =>
      Add(Add(Add(Val(8.642), Mul(Val(0.077), x.r3)), Mul(Val(0.411), x.r2)), Mul(Val(0.601), Sub(x.n2, x.r2)))
    case Some(Hot) =>
      Add(Add(Add(Val(8.013), Mul(Val(0.905), x.r3)), Mul(Val(0.602), x.r2)), Mul(Val(0.751), Sub(x.n2, x.r2)))
  }

  /** With finite log N2 and log S2 the row always lands in exactly one band. */
  lemma P10FiniteHasBand(x: P10Row)
    requires x.n2.Val? && x.s2.Val?
    ensures P10Band(x.n2, x.s2).Some?
  {
  }

  // ---- Rcal and Scal, Pilyugin & Grebel (2016) ----

  /** The two branches of PG16: log([NII]/H-beta) below -0.6, or at least +0.6. */
  predicate PG16Lower(n2hb: Num) { Lt(n2hb, Val(-0.6)) }
  predicate PG16Upper(n2hb: Num) { Ge(n2hb, Val(0.6)) }

  /** Rcal from log([OIII]/[OII]) `o32`, log([NII]/H-beta) `n2hb` and log([OII]/H-beta) `o2hb`; rows between the branches stay NaN. */
  function RcalPG16(o32: Num, n2hb: Num, o2hb: Num): (z: Num)
    ensures !PG16Lower(n2hb) && !PG16Upper(n2hb) ==> z.NaN?
    ensures Le(Val(-0.6), n2hb) && Lt(n2hb, Val(0.6)) ==> z.NaN?
  {
    CompareNaN(n2hb, Val(-0.6));
    if PG16Lower(n2hb) then
      Add(Add(Add(Val(7.932), Mul(Val(0.944), o32)), Mul(Val(0.695), n2hb)),
          Mul(Sub(Sub(Val(0.970), Mul(Val(0.291), o32)), Mul(Val(0.019), n2hb)), o2hb))
    else if PG16Upper(n2hb) then
      Add(Add(Add(Val(8.589), Mul(Val(0.022), o32)), Mul(Val(0.399), n2hb)),
          Mul(Add(Add(Val(-0.137), Mul(Val(0.164), o32)), Mul(Val(0.589), n2hb)), o2hb))
    else NaN
  }

  /** Scal from log([OIII]/[SII]) `o3s2`, log([NII]/H-beta) `n2hb` and log([SII]/H-beta) `s2hb`. */
  function ScalPG16(o3s2: Num, n2hb: Num, s2hb: Num): (z: Num)
    ensures !PG16Lower(n2hb) && !PG16Upper(n2hb) ==> z.NaN?
    ensures Le(Val(-0.6), n2hb) && Lt(n2hb, Val(0.6)) ==> z.NaN?
  {
    CompareNaN(n2hb, Val(-0.6));
    if PG16Lower(n2hb) then
      Add(Add(Add(Val(8.072), Mul(Val(0.789), o3s2)), Mul(Val(0.726), n2hb)),
          Mul(Add(Sub(Val(1.069), Mul(Val(0.170), o3s2)), Mul(Val(0.022), n2hb)), s2hb))
    else if PG16Upper(n2hb) then
      Add(Add(Add(Val(8.424), Mul(Val(0.030), o3s2)), Mul(Val(0.751), n2hb)),
          Mul(Add(Add(Val(-0.349), Mul(Val(0.182), o3s2)), Mul(Val(0.508), n2hb)), s2hb))
    else NaN
  }
}
