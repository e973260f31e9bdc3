/**
 * `_get_metallicity` of utils/metallicity.py: one strong-line metallicity
 * diagnostic applied to every row of a frame of (suffix-free) line fluxes,
 * with a fixed log U, a self-consistent log U, or neither.
 */
module Metallicity {
  import opened Numeric
  import opened Outcomes
  import opened Table
  import opened MetTables
  import opened Calibrations
  import opened MetIteration
  import opened MetRows

  /** What `_get_metallicity` hands back. */
  datatype Estimate =
    | Single(z: seq<Num>, series: bool)   // log(O/H) + 12 alone; `series` when it is a pandas Series, not a numpy array
    | Pair(z: seq<Num>, u: seq<Num>)      // log(O/H) + 12 and log U
    | Nothing                             // the diagnostic has no branch of its own, and None comes back

  /** Every column name, whatever its dtype. */
  function Names(v: Snapshot): set<string>
  {
    v.num.Keys + v.text.Keys + v.flag.Keys
  }

  /** The first of `lines` that is not among `keys`. */
  function FirstNotIn(lines: seq<string>, keys: set<string>): (r: Option<string>)
    ensures r.None? <==> forall l :: l in lines ==> l in keys
    ensures r.Some? ==> r.value in lines && r.value !in keys
    decreases |lines|
  {
    if lines == [] then None
    else if lines[0] !in keys then Some(lines[0])
    else FirstNotIn(lines[1..], keys)
  }

  /** The flux in column c of row i (a column that is not floating-point is refused before any flux is read). */
  function Flux(v: Snapshot, c: string, i: nat): Num
    requires v.Valid() && i < v.nrows
  {
    if c in v.num then v.num[c][i] else NaN
  }

  /** `np.log10(df[a] / df[b])` in row i. */
  function LogRatio(v: Snapshot, a: string, b: string, i: nat, log10: real -> real): Num
    requires v.Valid() && i < v.nrows
  {
    Log10(Div(Flux(v, a, i), Flux(v, b, i)), log10)
  }

  /** Arithmetic on a line that is not a floating-point column raises TypeError. */
  function CheckNumeric(lines: seq<string>, v: Snapshot): (r: Outcome)
    ensures r.Pass? <==> forall l :: l in lines ==> l in v.num
  {
    match FirstNotIn(lines, v.num.Keys)
    case Some(c) => Fail(TypeError(c))
    case None => Pass
  }

  /** `assert line in df` for each line the diagnostic needs. */
  function CheckPresent(lines: seq<string>, v: Snapshot): (r: Outcome)
    ensures r.Pass? <==> forall l :: l in lines ==> v.Has(l)
  {
    match FirstNotIn(lines, Names(v))
    case Some(c) => Fail(AssertionError(c))
    case None => Pass
  }

  // ---- Kewley (2019) ----

  /** log R of the nine K19 metallicity diagnostics in row i (the ones with coefficients). */
  function K19Ratio(d: string, v: Snapshot, i: nat, log10: real -> real): Num
    requires v.Valid() && i < v.nrows
  {
    var F := c => Flux(v, c, i);
    if d == "N2Ha_K19" then LogRatio(v, "NII6583", "HALPHA", i, log10)
    else if d == "S2Ha_K19" then LogRatio(v, "SII6716+SII6731", "HALPHA", i, log10)
    else if d == "N2S2_K19" then LogRatio(v, "NII6583", "SII6716+SII6731", i, log10)
    else if d == "S23_K19" then Log10(Div(Add(Add(F("SII6716+SII6731"), F("SIII9069")), F("SIII9531")), F("HALPHA")), log10)
    else if d == "O3N2_K19" then Log10(Div(Div(F("OIII5007"), F("HBETA")), Div(F("NII6583"), F("HALPHA"))), log10)
    else if d == "O2S2_K19" then LogRatio(v, "OII3726+OII3729", "SII6716+SII6731", i, log10)
    else if d == "O2Hb_K19" then LogRatio(v, "OII3726+OII3729", "HBETA", i, log10)
    else if d == "N2O2_K19" then LogRatio(v, "NII6583", "OII3726+OII3729", i, log10)
    else Log10(Div(Add(F("OIII4959+OIII5007"), F("OII3726+OII3729")), F("HBETA")), log10)   // R23_K19
  }

  /** The name an ionisation diagnostic goes by in messages and lookups: `None` when none was given. */
  function IonKey(ion: Option<string>): string
  {
    if ion.Some? then ion.value else "None"
  }

  /**
   * The ionisation ratio `logR_ion`, as the code binds it: for O3O2_K19,
   * and for the [SIII]/[SII] ratio under the name it tests, "S23_K19".
   * Nothing is bound for S32_K19.
   */
  function IonRatioAsWritten(ion: string, v: Snapshot, i: nat, log10: real -> real): (r: Option<Num>)
    requires v.Valid() && i < v.nrows
    ensures r.Some? <==> ion == "O3O2_K19" || ion == "S23_K19"
  {
    if ion == "O3O2_K19" then Some(LogRatio(v, "OIII5007", "OII3726+OII3729", i, log10))
    else if ion == "S23_K19" then Some(Log10(Div(Add(Flux(v, "SIII9069", i), Flux(v, "SIII9531", i)), Flux(v, "SII6716+SII6731", i)), log10))
    else None
  }

  /** The ionisation ratio as evidently intended: the [SIII]/[SII] ratio belongs to S32_K19, the diagnostic with those coefficients. */
  function IonRatio(ion: string, v: Snapshot, i: nat, log10: real -> real): (r: Option<Num>)
    requires v.Valid() && i < v.nrows
    ensures r.Some? <==> IonCoeffs(ion).Some?
  {
    if ion == "O3O2_K19" then Some(LogRatio(v, "OIII5007", "OII3726+OII3729", i, log10))
    else if ion == "S32_K19" then Some(Log10(Div(Add(Flux(v, "SIII9069", i), Flux(v, "SIII9531", i)), Flux(v, "SII6716+SII6731", i)), log10))
    else None
  }

  function IonColumn(ion: string, v: Snapshot, log10: real -> real): (r: Option<seq<Num>>)
    requires v.Valid()
    ensures r.Some? <==> IonCoeffs(ion).Some?
    ensures r.Some? ==> |r.value| == v.nrows
  {
    if IonCoeffs(ion).None? then None
    else Some(seq(v.nrows, i requires 0 <= i < v.nrows => IonRatio(ion, v, i, log10).value))
  }

  function IonColumnAsWritten(ion: string, v: Snapshot, log10: real -> real): (r: Option<seq<Num>>)
    requires v.Valid()
    ensures r.Some? ==> |r.value| == v.nrows
  {
    if !(ion == "O3O2_K19" || ion == "S23_K19") then None
    else Some(seq(v.nrows, i requires 0 <= i < v.nrows => IonRatioAsWritten(ion, v, i, log10).value))
  }

  /** The lines `logR_ion` reads (the ones the ionisation diagnostic lists, for the two it knows). */
  function IonLines(ion: string): seq<string>
  {
    if IonCoeffs(ion).Some? && LineList(ion).Some? then LineList(ion).value else []
  }

  /**
   * The K19 branch: log U given, or iterated to self-consistency with an
   * ionisation diagnostic. It reads the ionisation ratio through the
   * corrected IonColumn, not the S23/S32 mix-up of IonColumnAsWritten.
   */
  function K19Estimate(met: string, v: Snapshot, logU: Option<real>, computeLogU: bool, ion: Option<string>,
                       maxIters: nat, log10: real -> real): (r: Result<Estimate>)
    requires v.Valid()
    ensures r.Success? ==> r.value.Pair? && |r.value.z| == v.nrows && |r.value.u| == v.nrows
  {
    if !(computeLogU || logU.Some?) then Failure(AssertionError("log(U) must be given"))
    else if MetCoeffs(met).None? then Failure(NameError("logR"))    // no ratio is computed for this name
    else if CheckNumeric(LineList(met).value, v).Fail? then Failure(CheckNumeric(LineList(met).value, v).error)
    else
      var cal := MetCoeffs(met).value;
      var xm := seq(v.nrows, i requires 0 <= i < v.nrows => K19Ratio(met, v, i, log10));
      if computeLogU then
        var key := IonKey(ion);
        if CheckNumeric(IonLines(key), v).Fail? then Failure(CheckNumeric(IonLines(key), v).error)
        else
          match K19ColumnsSpec(cal, key, IonCoeffs(key), xm, IonColumn(key, v, log10), maxIters)
          case Failure(e) => Failure(e)
          case Success(zu) => Success(Pair(zu.0, zu.1))
      else
        Success(Pair(seq(v.nrows, i requires 0 <= i < v.nrows => K19Fixed(cal, xm[i], logU.value).0),
                     seq(v.nrows, i requires 0 <= i < v.nrows => K19Fixed(cal, xm[i], logU.value).1)))
  }

  // ---- R23, Kobulnicky & Kewley (2004) ----

  function KK04N2O2(v: Snapshot, i: nat, log10: real -> real): Num
    requires v.Valid() && i < v.nrows
  {
    LogRatio(v, "NII6583", "OII3726+OII3729", i, log10)
  }

  function KK04O3O2(v: Snapshot, i: nat, log10: real -> real): Num
    requires v.Valid() && i < v.nrows
  {
    LogRatio(v, "OIII4959+OIII5007", "OII3726+OII3729", i, log10)
  }

  function KK04R23(v: Snapshot, i: nat, log10: real -> real): Num
    requires v.Valid() && i < v.nrows
  {
    Log10(Div(Add(Flux(v, "OII3726+OII3729", i), Flux(v, "OIII4959+OIII5007", i)), Flux(v, "HBETA", i)), log10)
  }

  function Column(v: Snapshot, f: nat -> Num): (r: seq<Num>)
    requires v.Valid()
    ensures |r| == v.nrows && forall i :: 0 <= i < v.nrows ==> r[i] == f(i)
  {
    seq(v.nrows, i requires 0 <= i < v.nrows => f(i))
  }

  function KK04Estimate(v: Snapshot, logU: Option<real>, computeLogU: bool, maxIters: nat, log10: real -> real): (r: Result<Estimate>)
    requires v.Valid()
    ensures r.Success? ==> r.value.Pair? && |r.value.z| == v.nrows && |r.value.u| == v.nrows
  {
    if CheckNumeric(LineList("R23_KK04").value, v).Fail? then Failure(CheckNumeric(LineList("R23_KK04").value, v).error)
    else
      var n2o2 := seq(v.nrows, i requires 0 <= i < v.nrows => KK04N2O2(v, i, log10));
      var o3o2 := seq(v.nrows, i requires 0 <= i < v.nrows => KK04O3O2(v, i, log10));
      var r23 := seq(v.nrows, i requires 0 <= i < v.nrows => KK04R23(v, i, log10));
      if computeLogU then
        match KK04ColumnsSpec(n2o2, o3o2, r23, maxIters)
        case Failure(e) => Failure(e)
        case Success(zu) => Success(Pair(zu.0, zu.1))
      else if logU.None? then Failure(TypeError("logU"))    // None + log10(c)
      else
        Success(Pair(seq(v.nrows, i requires 0 <= i < v.nrows => KK04Fixed(n2o2[i], r23[i], logU.value).0),
                     seq(v.nrows, i requires 0 <= i < v.nrows => KK04Fixed(n2o2[i], r23[i], logU.value).1)))
  }

  // ---- The diagnostics without log U ----

  /** The diagnostics whose window is on their input ratio, and the ratio. */
  predicate InputWindowed(d: string)
  {
    d == "N2Ha_PP04" || d == "N2Ha_M13" || d == "O3N2_PP04" || d == "O3N2_M13" || d == "N2S2Ha_D16"
  }

  function ClosedRatio(d: string, v: Snapshot, i: nat, log10: real -> real): Num
    requires v.Valid() && i < v.nrows
  {
    var F := c => Flux(v, c, i);
    if d == "N2Ha_PP04" || d == "N2Ha_M13" then LogRatio(v, "NII6583", "HALPHA", i, log10)
    else if d == "O3N2_PP04" || d == "O3N2_M13" then Log10(Div(Div(F("OIII5007"), F("HBETA")), Div(F("NII6583"), F("HALPHA"))), log10)
    else D16Ratio(F("NII6583"), F("SII6716+SII6731"), F("HALPHA"), log10)
  }

  /** The window (exclusive) each of those puts on its ratio. */
  function Window(d: string): (real, real)
  {
    if d == "N2Ha_PP04" then (-2.5, -0.3)
    else if d == "N2Ha_M13" then (-1.6, -0.2)
    else if d == "O3N2_PP04" then (-1.0, 1.9)
    else if d == "O3N2_M13" then (-1.1, 1.7)
    else (-1.1, 0.5)
  }

  function Windowed(d: string, x: Num): Num
  {
    if d == "N2Ha_PP04" then N2HaPP04(x)
    else if d == "N2Ha_M13" then N2HaM13(x)
    else if d == "O3N2_PP04" then O3N2PP04(x)
    else if d == "O3N2_M13" then O3N2M13(x)
    else N2S2HaD16(x)
  }

  function P10Inputs(v: Snapshot, i: nat, log10: real -> real): P10Row
    requires v.Valid() && i < v.nrows
  {
    var r3 := Div(Flux(v, "OIII4959+OIII5007", i), Flux(v, "HBETA", i));
    var r2 := Div(Flux(v, "OII3726+OII3729", i), Flux(v, "HBETA", i));
    P10Row(LogRatio(v, "NII6548+NII6583", "HBETA", i, log10), LogRatio(v, "SII6716+SII6731", "HBETA", i, log10),
           LogRatio(v, "OIII4959+OIII5007", "HBETA", i, log10), LogRatio(v, "OII3726+OII3729", "HBETA", i, log10),
           Div(r3, Add(r3, r2)))
  }

  /** The diagnostics `_get_metallicity` has a closed-form branch for. */
  predicate HasClosedForm(d: string)
  {
    d == "N2O2_KD02" || InputWindowed(d) || d == "ONS_P10" || d == "ON_P10" || d == "Rcal_PG16" || d == "Scal_PG16"
  }

  /** Every diagnostic of the line list is of the K19 family, R23_KK04, has a closed form, or is one of the two without a branch. */
  lemma DiagnosticKinds(d: string)
    requires LineList(d).Some?
    ensures IsK19(d) || d == "R23_KK04" || HasClosedForm(d) || d == "R23_C17" || d == "O3O2_KK04"
    ensures d == "R23_KK04" || d == "R23_C17" || d == "O3O2_KK04" || HasClosedForm(d) ==> !IsK19(d)
  {
  }

  /** N2O2_KD02 and the input-windowed ones come back as pandas Series, P10 and PG16 as numpy arrays. */
  function ClosedForm(d: string, v: Snapshot, log10: real -> real): (r: Result<Estimate>)
    requires v.Valid() && LineList(d).Some?
    ensures r.Success? ==> !r.value.Pair? && (r.value.Nothing? <==> !HasClosedForm(d))
    ensures r.Success? && r.value.Single? ==> |r.value.z| == v.nrows
  {
    if d == "R23_C17" || d == "O3O2_KK04" then Success(Nothing)
    else if CheckNumeric(LineList(d).value, v).Fail? then Failure(CheckNumeric(LineList(d).value, v).error)
    else if d == "N2O2_KD02" then
      Success(Single(Column(v, (i: nat) => if i < v.nrows then N2O2KD02(LogRatio(v, "NII6583", "OII3726+OII3729", i, log10), log10) else NaN), true))
    else if InputWindowed(d) then
      Success(Single(Column(v, (i: nat) => if i < v.nrows then Windowed(d, ClosedRatio(d, v, i, log10)) else NaN), true))
    else if d == "ONS_P10" then
      Success(Single(Column(v, (i: nat) => if i < v.nrows then ONSP10(P10Inputs(v, i, log10)) else NaN), false))
    else if d == "ON_P10" then
      Success(Single(Column(v, (i: nat) => if i < v.nrows then ONP10(P10Inputs(v, i, log10)) else NaN), false))
    else if d == "Rcal_PG16" then
      Success(Single(Column(v, (i: nat) => if i < v.nrows then
        RcalPG16(LogRatio(v, "OIII4959+OIII5007", "OII3726+OII3729", i, log10), LogRatio(v, "NII6548+NII6583", "HBETA", i, log10),
                 LogRatio(v, "OII3726+OII3729", "HBETA", i, log10)) else NaN), false))
    else if d == "Scal_PG16" then
      Success(Single(Column(v, (i: nat) => if i < v.nrows then
        ScalPG16(LogRatio(v, "OIII4959+OIII5007", "SII6716+SII6731", i, log10), LogRatio(v, "NII6548+NII6583", "HBETA", i, log10),
                 LogRatio(v, "SII6716+SII6731", "HBETA", i, log10)) else NaN), false))
    else Success(Nothing)
  }

  // ---- The whole function ----

  /**
   * The lines of the diagnostic (and of the ionisation diagnostic, when log U
   * is computed) must all be columns, then the diagnostic's own branch runs.
   */
  function GetMetallicitySpec(met: string, v: Snapshot, logU: Option<real>, computeLogU: bool, ion: Option<string>,
                              maxIters: nat, log10: real -> real): (r: Result<Estimate>)
    requires v.Valid()
    ensures r.Success? && r.value.Single? ==> |r.value.z| == v.nrows
    ensures r.Success? && r.value.Pair? ==> |r.value.z| == v.nrows && |r.value.u| == v.nrows
  {
    if LineList(met).None? then Failure(KeyError(met))
    else if CheckPresent(LineList(met).value, v).Fail? then Failure(CheckPresent(LineList(met).value, v).error)
    else if computeLogU && LineList(IonKey(ion)).None? then Failure(KeyError(IonKey(ion)))
    else if computeLogU && CheckPresent(LineList(IonKey(ion)).value, v).Fail? then
      Failure(CheckPresent(LineList(IonKey(ion)).value, v).error)
    else if IsK19(met) then K19Estimate(met, v, logU, computeLogU, ion, maxIters, log10)
    else if met == "R23_KK04" then KK04Estimate(v, logU, computeLogU, maxIters, log10)
    else ClosedForm(met, v, log10)
  }

  /** The same, with the two self-consistent iterations run row by row. */
  method GetMetallicity(met: string, v: Snapshot, logU: Option<real>, computeLogU: bool, ion: Option<string>,
                        maxIters: nat, log10: real -> real) returns (r: Result<Estimate>)
    requires v.Valid()
    ensures r == GetMetallicitySpec(met, v, logU, computeLogU, ion, maxIters, log10)
  {
    if LineList(met).None? {
      return Failure(KeyError(met));
    }
    var present := CheckPresent(LineList(met).value, v);
    if present.Fail? {
      return Failure(present.error);
    }
    var key := IonKey(ion);
    if computeLogU {
      if LineList(key).None? {
        return Failure(KeyError(key));
      }
      present := CheckPresent(LineList(key).value, v);
      if present.Fail? {
        return Failure(present.error);
      }
    }
    if IsK19(met) && computeLogU && MetCoeffs(met).Some?
       && CheckNumeric(LineList(met).value, v).Pass? && CheckNumeric(IonLines(key), v).Pass? {
      var xm := seq(v.nrows, i requires 0 <= i < v.nrows => K19Ratio(met, v, i, log10));
      var zu := K19Columns(MetCoeffs(met).value, key, IonCoeffs(key), xm, IonColumn(key, v, log10), maxIters);
      if zu.Failure? {
        return Failure(zu.error);
      }
      return Success(Pair(zu.value.0, zu.value.1));
    }
    if met == "R23_KK04" && computeLogU && CheckNumeric(LineList(met).value, v).Pass? {
      var n2o2 := seq(v.nrows, i requires 0 <= i < v.nrows => KK04N2O2(v, i, log10));
      var o3o2 := seq(v.nrows, i requires 0 <= i < v.nrows => KK04O3O2(v, i, log10));
      var r23 := seq(v.nrows, i requires 0 <= i < v.nrows => KK04R23(v, i, log10));
      var zu := KK04Columns(n2o2, o3o2, r23, maxIters);
      if zu.Failure? {
        return Failure(zu.error);
      }
      return Success(Pair(zu.value.0, zu.value.1));
    }
    // every other branch is vectorised
    if IsK19(met) {
      return K19Estimate(met, v, logU, computeLogU, ion, maxIters, log10);
    } else if met == "R23_KK04" {
      return KK04Estimate(v, logU, computeLogU, maxIters, log10);
    }
    return ClosedForm(met, v, log10);
  }

  // ---- What the results mean ----

  /** A result needs every line of the diagnostic, and of the ionisation diagnostic when log U is computed. */
  lemma EstimateNeedsLines(met: string, v: Snapshot, logU: Option<real>, computeLogU: bool, ion: Option<string>,
                           maxIters: nat, log10: real -> real)
    requires v.Valid() && GetMetallicitySpec(met, v, logU, computeLogU, ion, maxIters, log10).Success?
    ensures LineList(met).Some? && forall l :: l in LineList(met).value ==> v.Has(l)
    ensures computeLogU ==> LineList(IonKey(ion)).Some? && forall l :: l in LineList(IonKey(ion)).value ==> v.Has(l)
  {
  }

  /**
   * The shape of the result follows the diagnostic: a pair for the K19
   * family and R23_KK04, nothing for R23_C17 and O3O2_KK04 (which have no
   * branch), log(O/H) + 12 alone for the rest; and without log U, neither
   * given nor computed, never a pair.
   */
  lemma EstimateShape(met: string, v: Snapshot, logU: Option<real>, computeLogU: bool, ion: Option<string>,
                      maxIters: nat, log10: real -> real)
    requires v.Valid() && GetMetallicitySpec(met, v, logU, computeLogU, ion, maxIters, log10).Success?
    ensures var e := GetMetallicitySpec(met, v, logU, computeLogU, ion, maxIters, log10).value;
      && (e.Pair? <==> IsK19(met) || met == "R23_KK04")
      && (e.Nothing? <==> met == "R23_C17" || met == "O3O2_KK04")
      && (!computeLogU && logU.None? ==> !e.Pair?)
  {
    DiagnosticKinds(met);
  }

  /**
   * With a fixed log U, a K19 row keeps its metallicity exactly when the
   * cubic at that log U lands strictly inside the calibration's range; then
   * log U is the given value, and otherwise both are NaN.
   */
  lemma K19FixedMeaning(met: string, v: Snapshot, logU: real, ion: Option<string>, maxIters: nat, log10: real -> real, i: nat)
    requires v.Valid() && i < v.nrows && IsK19(met)
    requires GetMetallicitySpec(met, v, Some(logU), false, ion, maxIters, log10).Success?
    ensures var e := GetMetallicitySpec(met, v, Some(logU), false, ion, maxIters, log10).value;
      var cal := MetCoeffs(met).value;
      && MetCoeffs(met).Some?
      && (!e.z[i].NaN? <==> InWindow(EvalCubic(cal.p, K19Ratio(met, v, i, log10), Val(logU)), cal.zmin, cal.zmax))
      && (!e.z[i].NaN? ==> e.z[i] == EvalCubic(cal.p, K19Ratio(met, v, i, log10), Val(logU)) && e.u[i] == Val(logU))
      && (e.z[i].NaN? ==> e.u[i].NaN?)
  {
  }

  /**
   * With log U computed, a K19 row that keeps a value holds the pair the
   * iteration ends with, strictly inside both calibrations' Z ranges and the
   * ionisation calibration's log U range.
   */
  lemma K19ComputedMeaning(met: string, v: Snapshot, logU: Option<real>, ion: Option<string>, maxIters: nat, log10: real -> real, i: nat)
    requires v.Valid() && i < v.nrows && IsK19(met)
    requires GetMetallicitySpec(met, v, logU, true, ion, maxIters, log10).Success?
    ensures var e := GetMetallicitySpec(met, v, logU, true, ion, maxIters, log10).value;
      var cal, ic := MetCoeffs(met).value, IonCoeffs(IonKey(ion)).value;
      && MetCoeffs(met).Some? && IonCoeffs(IonKey(ion)).Some?
      && (e.z[i].NaN? <==> e.u[i].NaN?)
      && (!e.z[i].NaN? ==>
            && K19Solve(cal.p, ic.p, K19Ratio(met, v, i, log10), IonRatio(IonKey(ion), v, i, log10).value, maxIters)
               == Success((e.z[i], e.u[i]))
            && InWindow(e.z[i], Max(cal.zmin, ic.zmin), Min(cal.zmax, ic.zmax))
            && InWindow(e.u[i], ic.umin, ic.umax))
  {
    var key := IonKey(ion);
    var cal := MetCoeffs(met).value;
    var xm := seq(v.nrows, j requires 0 <= j < v.nrows => K19Ratio(met, v, j, log10));
    K19ColumnsMeaning(cal, key, IonCoeffs(key), xm, IonColumn(key, v, log10), maxIters, i);
  }

  /** A row outside the input window of its diagnostic is NaN, one inside it is not (when the ratio is a number). */
  lemma WindowedMeaning(met: string, v: Snapshot, logU: Option<real>, computeLogU: bool, ion: Option<string>,
                        maxIters: nat, log10: real -> real, i: nat)
    requires v.Valid() && i < v.nrows && InputWindowed(met)
    requires GetMetallicitySpec(met, v, logU, computeLogU, ion, maxIters, log10).Success?
    ensures var e := GetMetallicitySpec(met, v, logU, computeLogU, ion, maxIters, log10).value;
      && e.Single? && e.series
      && (!e.z[i].NaN? <==> InWindow(ClosedRatio(met, v, i, log10), Window(met).0, Window(met).1))
  {
    ClosedBranch(met, v, logU, computeLogU, ion, maxIters, log10);
    WindowedColumn(met, v, log10, i);
  }

  /** A diagnostic outside the K19 family and other than R23_KK04 takes its closed-form branch. */
  lemma ClosedBranch(met: string, v: Snapshot, logU: Option<real>, computeLogU: bool, ion: Option<string>,
                     maxIters: nat, log10: real -> real)
    requires v.Valid() && !IsK19(met) && met != "R23_KK04"
    requires GetMetallicitySpec(met, v, logU, computeLogU, ion, maxIters, log10).Success?
    ensures LineList(met).Some?
    ensures GetMetallicitySpec(met, v, logU, computeLogU, ion, maxIters, log10) == ClosedForm(met, v, log10)
  {
  }

  /** The closed-form column of a windowed diagnostic is NaN exactly in the rows whose ratio is outside the window. */
  lemma WindowedColumn(met: string, v: Snapshot, log10: real -> real, i: nat)
    requires v.Valid() && i < v.nrows && InputWindowed(met) && LineList(met).Some?
    requires ClosedForm(met, v, log10).Success?
    ensures var e := ClosedForm(met, v, log10).value;
      && e.Single? && e.series
      && (!e.z[i].NaN? <==> InWindow(ClosedRatio(met, v, i, log10), Window(met).0, Window(met).1))
  {
  }

  /**
   * The ionisation ratio as written binds nothing for S32_K19, so as soon as
   * a row has a metallicity ratio the K19 loop raises NameError; with the
   * ratio bound under S32_K19 the same columns are computed.
   */
  lemma S32TypoRaises(cal: MetCal, v: Snapshot, xm: seq<Num>, maxIters: nat, log10: real -> real, i: nat)
    requires v.Valid() && |xm| == v.nrows && i < v.nrows && !xm[i].NaN? && maxIters >= 1
    ensures K19ColumnsSpec(cal, "S32_K19", IonCoeffs("S32_K19"), xm, IonColumnAsWritten("S32_K19", v, log10), maxIters)
            == Failure(NameError("logR_ion"))
    ensures K19ColumnsSpec(cal, "S32_K19", IonCoeffs("S32_K19"), xm, IonColumn("S32_K19", v, log10), maxIters).Success?
  {
    var rows := K19Rows(cal, "S32_K19", IonCoeffs("S32_K19"), xm, None, maxIters);
    assert rows[i].Failure?;
    CollectIsFirstFailure(rows);
    K19ColumnsSucceed(cal, "S32_K19", IonCoeffs("S32_K19"), xm, IonColumn("S32_K19", v, log10), maxIters);
  }
}
