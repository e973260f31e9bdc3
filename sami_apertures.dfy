/**
 * The flag and mask stage of the SAMI aperture table (one row per galaxy,
 * one set of columns per aperture): the S/N of every line in every
 * aperture, the flag columns, the zero-SFR fix, the low-S/N, missing-flux
 * and low sigma_gas flags, and the masks that those flags switch on.
 * Column names are `f"{q} ({ap})"`.
 */
module SamiApertures {
  import opened Numeric
  import opened Outcomes
  import opened Table
  import opened SamiSpaxels
  import opened SamiSfr
  import opened SamiLines

  const Apertures := ["1.4 arcsecond", "2 arcsecond", "3 arcsecond", "4 arcsecond", "R_e", "R_e MGE", "3kpc round"]
  const ApertureLines := ["OII3726", "OII3729", "NEIII3869", "HEPSILON", "HDELTA",
                          "HGAMMA", "OIII4363", "HBETA", "OIII5007", "OI6300",
                          "HALPHA", "NII6583", "SII6716", "SII6731"]

  /** `f"{q} ({ap})"` */
  function At(q: string, ap: string): string { q + " (" + ap + ")" }

  /** `f"({ap})"`, the substring every column of one aperture carries. */
  function Tag(ap: string): string { "(" + ap + ")" }

  function LowFluxFlag(eline: string, ap: string): string { At("Low flux S/N flag - " + eline, ap) }

  function MissingFluxFlag(eline: string, ap: string): string { At("Missing flux flag - " + eline, ap) }

  function LowSigmaFlag(ap: string): string { At("Low sigma_gas S/N flag", ap) }

  const FlagWord := "flag"
  const DeltaWord := "delta"

  /** Names that differ at a position before the aperture part stay apart once the aperture is appended. */
  lemma AtApart(q1: string, q2: string, ap: string, i: nat)
    requires i < |q1| && i < |q2| && q1[i] != q2[i]
    ensures At(q1, ap) != At(q2, ap)
  {
    assert At(q1, ap)[i] == q1[i] && At(q2, ap)[i] == q2[i];
  }

  // ---- boolean columns ----

  function Falses(n: nat): (r: seq<bool>)
    ensures |r| == n && forall i :: 0 <= i < n ==> !r[i]
  {
    seq(n, _ => false)
  }

  /** `df.loc[cond, c] = True` on a boolean column: the flag is raised where cond holds and kept elsewhere. */
  function Raise(f: seq<bool>, cond: seq<bool>): (r: seq<bool>)
    requires |cond| == |f|
    ensures |r| == |f| && forall i :: 0 <= i < |f| ==> r[i] == (f[i] || cond[i])
  {
    seq(|f|, i requires 0 <= i < |f| => f[i] || cond[i])
  }

  /** The flag a masked `= True` starts from: the column, or all False where it is not a flag column. */
  function FlagPrior(v: Snapshot, c: string): (r: seq<bool>)
    requires v.Valid()
    ensures |r| == v.nrows
    ensures c in v.flag ==> r == v.flag[c]
  {
    if c in v.flag then v.flag[c] else Falses(v.nrows)
  }

  /** `a < b`, row by row. */
  function LtMask(a: seq<Num>, b: seq<Num>): (r: seq<bool>)
    requires |b| == |a|
    ensures |r| == |a| && forall i :: 0 <= i < |a| ==> r[i] == Lt(a[i], b[i])
  {
    seq(|a|, i requires 0 <= i < |a| => Lt(a[i], b[i]))
  }

  /** `a.isna() & ~b.isna()` */
  function MissingMask(a: seq<Num>, b: seq<Num>): (r: seq<bool>)
    requires |b| == |a|
    ensures |r| == |a| && forall i :: 0 <= i < |a| ==> r[i] == (a[i].NaN? && !b[i].NaN?)
  {
    seq(|a|, i requires 0 <= i < |a| => a[i].NaN? && !b[i].NaN?)
  }

  /** `s < x` for a constant x. */
  function BelowMask(s: seq<Num>, x: real): (r: seq<bool>)
    ensures |r| == |s| && forall i :: 0 <= i < |s| ==> r[i] == Lt(s[i], Val(x))
  {
    seq(|s|, i requires 0 <= i < |s| => Lt(s[i], Val(x)))
  }

  // ---- the columns each mask reaches ----

  /**
   * The numeric columns a flag of line `eline` in aperture `ap` masks: for
   * HALPHA every column of the aperture, for any other line only the columns
   * that name the line; flag columns never.
   */
  function LineTargets(v: Snapshot, eline: string, ap: string): (r: set<string>)
    ensures forall c :: c in r <==> c in v.num && Contains(c, Tag(ap)) && !Contains(c, FlagWord) && (eline == Halpha || Contains(c, eline))
  {
    set c | c in v.num.Keys && Contains(c, Tag(ap)) && !Contains(c, FlagWord) && (eline == Halpha || Contains(c, eline))
  }

  /** The SFR columns of one aperture. */
  function SfrTargets(v: Snapshot, ap: string): (r: set<string>)
    ensures forall c :: c in r <==> c in v.num && Contains(c, Sfr) && Contains(c, Tag(ap))
  {
    set c | c in v.num.Keys && Contains(c, Sfr) && Contains(c, Tag(ap))
  }

  /** The sigma_gas columns of one aperture, flag columns excluded. */
  function SigmaTargets(v: Snapshot, ap: string): (r: set<string>)
    ensures forall c :: c in r <==> c in v.num && Contains(c, Tag(ap)) && Contains(c, SigmaGasWord) && !Contains(c, FlagWord)
  {
    set c | c in v.num.Keys && Contains(c, Tag(ap)) && Contains(c, SigmaGasWord) && !Contains(c, FlagWord)
  }

  const SigmaGasWord := "sigma_gas"

  /** Some column of the frame, of any dtype, has "delta" in its name. */
  predicate DeltaNamed(v: Snapshot)
  {
    (exists c :: c in v.num && Contains(c, DeltaWord))
    || (exists c :: c in v.text && Contains(c, DeltaWord))
    || (exists c :: c in v.flag && Contains(c, DeltaWord))
  }

  // ---- the passes over every (line, aperture) pair ----

  datatype Sweep =
    | SnSweep          // S/N of each line
    | LowFlagSweep     // raise the low flux S/N flags
    | MissingFlagSweep // raise the missing flux flags
    | LowMaskSweep     // mask under the low flux S/N flags
    | MissingMaskSweep // mask under the missing flux flags

  /** One (line, aperture) step of a sweep; `snrMin` is `eline_SNR_min`. */
  function LineStep(v: Snapshot, s: Sweep, snrMin: real, eline: string, ap: string): (r: (Outcome, Snapshot))
    requires v.Valid()
    ensures r.1.Valid() && r.1.nrows == v.nrows
    ensures r.0.Fail? ==> r.0.error.KeyError? && r.1 == v
  {
    var flux, err, sn := At(eline, ap), At(ErrorOf(eline), ap), At(SnOf(eline), ap);
    match s
    case SnSweep =>
      if flux !in v.num then (Pass, v)
      else if err !in v.num then (Fail(KeyError(err)), v)
      else (Pass, v.WithNum(sn, DivColumn(v.num[flux], v.num[err])))
    case LowFlagSweep =>
      var f := LowFluxFlag(eline, ap);
      if flux !in v.num then (Pass, v)
      else if sn !in v.num then (Fail(KeyError(sn)), v)
      else (Pass, v.WithFlag(f, Raise(FlagPrior(v, f), BelowMask(v.num[sn], snrMin))))
    case MissingFlagSweep =>
      var f := MissingFluxFlag(eline, ap);
      if flux !in v.num then (Pass, v)
      else if err !in v.num then (Fail(KeyError(err)), v)
      else (Pass, v.WithFlag(f, Raise(FlagPrior(v, f), MissingMask(v.num[flux], v.num[err]))))
    case LowMaskSweep =>
      var f := LowFluxFlag(eline, ap);
      if f !in v.flag then (Fail(KeyError(f)), v)
      else (Pass, Masked(v, LineTargets(v, eline, ap), v.flag[f]))
    case MissingMaskSweep =>
      var f := MissingFluxFlag(eline, ap);
      if f !in v.flag then (Fail(KeyError(f)), v)
      else (Pass, Masked(v, LineTargets(v, eline, ap), v.flag[f]))
  }

  /** `for ap in aps:` one line's steps, stopping at the first error. */
  function SweepAps(v: Snapshot, s: Sweep, snrMin: real, eline: string, aps: seq<string>): (r: (Outcome, Snapshot))
    requires v.Valid()
    ensures r.1.Valid() && r.1.nrows == v.nrows
    ensures r.0.Fail? ==> r.0.error.KeyError?
    decreases |aps|
  {
    if aps == [] then (Pass, v)
    else
      var r1 := LineStep(v, s, snrMin, eline, aps[0]);
      if r1.0.Fail? then r1 else SweepAps(r1.1, s, snrMin, eline, aps[1..])
  }

  /** `for eline in eline_list: for ap in aps:` */
  function SweepLines(v: Snapshot, s: Sweep, snrMin: real, elines: seq<string>, aps: seq<string>): (r: (Outcome, Snapshot))
    requires v.Valid()
    ensures r.1.Valid() && r.1.nrows == v.nrows
    ensures r.0.Fail? ==> r.0.error.KeyError?
    decreases |elines|
  {
    if elines == [] then (Pass, v)
    else
      var r1 := SweepAps(v, s, snrMin, elines[0], aps);
      if r1.0.Fail? then r1 else SweepLines(r1.1, s, snrMin, elines[1..], aps)
  }

  method RunLineStep(df: Frame, s: Sweep, snrMin: real, eline: string, ap: string) returns (status: Outcome)
    requires df.Valid()
    modifies df
    ensures (status, df.Snap()) == LineStep(old(df.Snap()), s, snrMin, eline, ap)
  {
    var flux, err, sn := At(eline, ap), At(ErrorOf(eline), ap), At(SnOf(eline), ap);
    status := Pass;
    match s
    case SnSweep =>
      if flux in df.num {
        if err !in df.num {
          return Fail(KeyError(err));
        }
        df.SetNum(sn, DivColumn(df.num[flux], df.num[err]));
      }
    case LowFlagSweep =>
      if flux in df.num {
        if sn !in df.num {
          return Fail(KeyError(sn));
        }
        var f := LowFluxFlag(eline, ap);
        df.SetFlag(f, Raise(FlagPrior(df.Snap(), f), BelowMask(df.num[sn], snrMin)));
      }
    case MissingFlagSweep =>
      if flux in df.num {
        if err !in df.num {
          return Fail(KeyError(err));
        }
        var f := MissingFluxFlag(eline, ap);
        df.SetFlag(f, Raise(FlagPrior(df.Snap(), f), MissingMask(df.num[flux], df.num[err])));
      }
    case LowMaskSweep =>
      var f := LowFluxFlag(eline, ap);
      if f !in df.flag {
        return Fail(KeyError(f));
      }
      df.SetNumColumns(MaskColumns(df.num, LineTargets(df.Snap(), eline, ap), df.flag[f], df.nrows));
    case MissingMaskSweep =>
      var f := MissingFluxFlag(eline, ap);
      if f !in df.flag {
        return Fail(KeyError(f));
      }
      df.SetNumColumns(MaskColumns(df.num, LineTargets(df.Snap(), eline, ap), df.flag[f], df.nrows));
  }

  method RunSweep(df: Frame, s: Sweep, snrMin: real, elines: seq<string>, aps: seq<string>) returns (status: Outcome)
    requires df.Valid()
    modifies df
    ensures (status, df.Snap()) == SweepLines(old(df.Snap()), s, snrMin, elines, aps)
  {
    for i := 0 to |elines|
      invariant df.Valid() && SweepLines(old(df.Snap()), s, snrMin, elines, aps) == SweepLines(df.Snap(), s, snrMin, elines[i..], aps)
    {
      assert elines[i..][1..] == elines[i + 1..];
      ghost var start := df.Snap();
      for j := 0 to |aps|
        invariant df.Valid() && SweepAps(start, s, snrMin, elines[i], aps) == SweepAps(df.Snap(), s, snrMin, elines[i], aps[j..])
      {
        assert aps[j..][1..] == aps[j + 1..];
        status := RunLineStep(df, s, snrMin, elines[i], aps[j]);
        if status.Fail? {
          return;
        }
      }
    }
    status := Pass;
  }

  // ---- flag initialisation ----

  /** The two line flags of one aperture, for each line, set to False. */
  function InitLineFlags(v: Snapshot, ap: string, elines: seq<string>): (r: Snapshot)
    requires v.Valid()
    ensures r.Valid() && r.nrows == v.nrows
    decreases |elines|
  {
    if elines == [] then v
    else
      var v1 := v.WithFlag(MissingFluxFlag(elines[0], ap), Falses(v.nrows));
      InitLineFlags(v1.WithFlag(LowFluxFlag(elines[0], ap), Falses(v.nrows)), ap, elines[1..])
  }

  /** `for ap in aps:` the sigma_gas flag, then the line flags, all False. */
  function InitFlags(v: Snapshot, aps: seq<string>, elines: seq<string>): (r: Snapshot)
    requires v.Valid()
    ensures r.Valid() && r.nrows == v.nrows
    decreases |aps|
  {
    if aps == [] then v
    else InitFlags(InitLineFlags(v.WithFlag(LowSigmaFlag(aps[0]), Falses(v.nrows)), aps[0], elines), aps[1..], elines)
  }

  method InitialiseFlags(df: Frame, aps: seq<string>, elines: seq<string>)
    requires df.Valid()
    modifies df
    ensures df.Valid() && df.Snap() == InitFlags(old(df.Snap()), aps, elines)
  {
    for i := 0 to |aps|
      invariant df.Valid() && InitFlags(old(df.Snap()), aps, elines) == InitFlags(df.Snap(), aps[i..], elines)
    {
      assert aps[i..][1..] == aps[i + 1..];
      df.SetFlag(LowSigmaFlag(aps[i]), Falses(df.nrows));
      ghost var start := df.Snap();
      for j := 0 to |elines|
        invariant df.Valid() && df.nrows == start.nrows
        invariant InitLineFlags(start, aps[i], elines) == InitLineFlags(df.Snap(), aps[i], elines[j..])
      {
        assert elines[j..][1..] == elines[j + 1..];
        df.SetFlag(MissingFluxFlag(elines[j], aps[i]), Falses(df.nrows));
        df.SetFlag(LowFluxFlag(elines[j], aps[i]), Falses(df.nrows));
      }
    }
  }

  // ---- the passes over every aperture ----

  datatype ApSweep =
    | ZeroSfrSweep    // NaN the SFR columns where the SFR is zero
    | SigmaFlagSweep  // raise the low sigma_gas S/N flags
    | SigmaMaskSweep  // mask under the low sigma_gas S/N flags

  /** The instrumental dispersion of the SAMI red arm, km/s. */
  const SigmaInst: real := 29.6

  /** The sigma_gas S/N the target is derived from (the function's parameter of that name is shadowed by this constant). */
  const SigmaSnrMin: real := 3.0

  /** `np.sqrt(sigma_gas**2 + sigma_inst**2)` */
  function SigmaObs(sg: seq<Num>, sqrt: real -> real): (r: seq<Num>)
    ensures |r| == |sg| && forall i :: 0 <= i < |sg| ==> r[i] == Sqrt(Add(Square(sg[i]), Val(SigmaInst * SigmaInst)), sqrt)
  {
    seq(|sg|, i requires 0 <= i < |sg| => Sqrt(Add(Square(sg[i]), Val(SigmaInst * SigmaInst)), sqrt))
  }

  /** `3 * (1 + sigma_inst**2 / sigma_gas**2)`, the S/N sigma_obs needs for sigma_gas to reach S/N 3. */
  function SigmaTarget(sg: seq<Num>): (r: seq<Num>)
    ensures |r| == |sg| && forall i :: 0 <= i < |sg| ==> r[i] == Mul(Val(SigmaSnrMin), Add(Val(1.0), Div(Val(SigmaInst * SigmaInst), Square(sg[i]))))
  {
    seq(|sg|, i requires 0 <= i < |sg| => Mul(Val(SigmaSnrMin), Add(Val(1.0), Div(Val(SigmaInst * SigmaInst), Square(sg[i])))))
  }

  function SigmaGasAt(ap: string): string { At(SigmaGasWord, ap) }
  function SigmaGasErrAt(ap: string): string { At("sigma_gas error", ap) }
  function SigmaObsAt(ap: string): string { At("sigma_obs", ap) }
  function SigmaObsSnAt(ap: string): string { At("sigma_obs S/N", ap) }
  function SigmaTargetAt(ap: string): string { At("sigma_obs target S/N", ap) }

  /** The sigma columns are five different names, and none is the flag. */
  lemma SigmaNames(ap: string)
    ensures SigmaGasAt(ap) != SigmaObsAt(ap) && SigmaGasAt(ap) != SigmaObsSnAt(ap) && SigmaGasAt(ap) != SigmaTargetAt(ap)
    ensures SigmaGasErrAt(ap) != SigmaObsAt(ap) && SigmaObsSnAt(ap) != SigmaTargetAt(ap) && SigmaObsAt(ap) != SigmaObsSnAt(ap)
    ensures SigmaObsAt(ap) != SigmaTargetAt(ap)
  {
    AtApart(SigmaGasWord, "sigma_obs", ap, 6);
    AtApart(SigmaGasWord, "sigma_obs S/N", ap, 6);
    AtApart(SigmaGasWord, "sigma_obs target S/N", ap, 6);
    AtApart("sigma_gas error", "sigma_obs", ap, 6);
    AtApart("sigma_obs S/N", "sigma_obs target S/N", ap, 10);
    assert SigmaObsAt(ap)[10] == '(' && SigmaObsSnAt(ap)[10] == 'S' && SigmaTargetAt(ap)[10] == 't';
  }

  /** The low sigma_gas step of one aperture: sigma_obs, its S/N, the target S/N, then the flag. */
  function SigmaFlagStep(v: Snapshot, ap: string, sqrt: real -> real): (r: (Outcome, Snapshot))
    requires v.Valid()
    ensures r.1.Valid() && r.1.nrows == v.nrows
    ensures r.0.Fail? ==> r.0.error.KeyError?
    ensures forall c :: c in v.flag && c != SigmaObsAt(ap) && c != SigmaObsSnAt(ap) && c != SigmaTargetAt(ap) ==> c in r.1.flag
  {
    var sg, err, obs, obsSn, target := SigmaGasAt(ap), SigmaGasErrAt(ap), SigmaObsAt(ap), SigmaObsSnAt(ap), SigmaTargetAt(ap);
    if sg !in v.num then (Fail(KeyError(sg)), v)
    else
      var v1 := v.WithNum(obs, SigmaObs(v.num[sg], sqrt));
      if err !in v1.num then (Fail(KeyError(err)), v1)
      else
        SigmaNames(ap);
        var v2 := v1.WithNum(obsSn, DivColumn(v1.num[obs], v1.num[err]));
        var v3 := v2.WithNum(target, SigmaTarget(v2.num[sg]));
        var f := LowSigmaFlag(ap);
        (Pass, v3.WithFlag(f, Raise(FlagPrior(v3, f), LtMask(v3.num[obsSn], v3.num[target]))))
  }

  /**
   * The sigma_gas mask of one aperture as the code is written: the second
   * list of target columns names `nn`, which is bound nowhere in the
   * function, and Python evaluates it (raising NameError) as soon as some
   * column name contains "delta".
   */
  function SigmaMaskAsWritten(v: Snapshot, ap: string): (r: (Outcome, Snapshot))
    requires v.Valid()
    ensures r.1.Valid() && r.1.nrows == v.nrows
  {
    var f := LowSigmaFlag(ap);
    if f !in v.flag then (Fail(KeyError(f)), v)
    else if DeltaNamed(v) then (Fail(NameError("nn")), v)
    else (Pass, Masked(v, SigmaTargets(v, ap), v.flag[f]))
  }

  /** One aperture step; the sigma_gas mask is the corrected one, without the `nn` columns. */
  function ApStep(v: Snapshot, s: ApSweep, ap: string, sqrt: real -> real): (r: (Outcome, Snapshot))
    requires v.Valid()
    ensures r.1.Valid() && r.1.nrows == v.nrows
    ensures r.0.Fail? ==> r.0.error.KeyError?
  {
    match s
    case ZeroSfrSweep =>
      var sfr := At(Sfr, ap);
      if sfr !in v.num then (Fail(KeyError(sfr)), v)
      else (Pass, Masked(v, SfrTargets(v, ap), EqMask(v.num[sfr], Val(0.0))))
    case SigmaFlagSweep => SigmaFlagStep(v, ap, sqrt)
    case SigmaMaskSweep =>
      var f := LowSigmaFlag(ap);
      if f !in v.flag then (Fail(KeyError(f)), v)
      else (Pass, Masked(v, SigmaTargets(v, ap), v.flag[f]))
  }

  function ApSweepAll(v: Snapshot, s: ApSweep, aps: seq<string>, sqrt: real -> real): (r: (Outcome, Snapshot))
    requires v.Valid()
    ensures r.1.Valid() && r.1.nrows == v.nrows
    ensures r.0.Fail? ==> r.0.error.KeyError?
    decreases |aps|
  {
    if aps == [] then (Pass, v)
    else
      var r1 := ApStep(v, s, aps[0], sqrt);
      if r1.0.Fail? then r1 else ApSweepAll(r1.1, s, aps[1..], sqrt)
  }

  method RunApStep(df: Frame, s: ApSweep, ap: string, sqrt: real -> real) returns (status: Outcome)
    requires df.Valid()
    modifies df
    ensures (status, df.Snap()) == ApStep(old(df.Snap()), s, ap, sqrt)
  {
    status := Pass;
    match s
    case ZeroSfrSweep =>
      var sfr := At(Sfr, ap);
      if sfr !in df.num {
        return Fail(KeyError(sfr));
      }
      df.SetNumColumns(MaskColumns(df.num, SfrTargets(df.Snap(), ap), EqMask(df.num[sfr], Val(0.0)), df.nrows));
    case SigmaFlagSweep =>
      var sg, err, obs, obsSn, target := SigmaGasAt(ap), SigmaGasErrAt(ap), SigmaObsAt(ap), SigmaObsSnAt(ap), SigmaTargetAt(ap);
      if sg !in df.num {
        return Fail(KeyError(sg));
      }
      df.SetNum(obs, SigmaObs(df.num[sg], sqrt));
      if err !in df.num {
        return Fail(KeyError(err));
      }
      SigmaNames(ap);
      df.SetNum(obsSn, DivColumn(df.num[obs], df.num[err]));
      df.SetNum(target, SigmaTarget(df.num[sg]));
      var f := LowSigmaFlag(ap);
      df.SetFlag(f, Raise(FlagPrior(df.Snap(), f), LtMask(df.num[obsSn], df.num[target])));
    case SigmaMaskSweep =>
      var f := LowSigmaFlag(ap);
      if f !in df.flag {
        return Fail(KeyError(f));
      }
      df.SetNumColumns(MaskColumns(df.num, SigmaTargets(df.Snap(), ap), df.flag[f], df.nrows));
  }

  method RunApSweep(df: Frame, s: ApSweep, aps: seq<string>, sqrt: real -> real) returns (status: Outcome)
    requires df.Valid()
    modifies df
    ensures (status, df.Snap()) == ApSweepAll(old(df.Snap()), s, aps, sqrt)
  {
    for i := 0 to |aps|
      invariant df.Valid() && ApSweepAll(old(df.Snap()), s, aps, sqrt) == ApSweepAll(df.Snap(), s, aps[i..], sqrt)
    {
      assert aps[i..][1..] == aps[i + 1..];
      status := RunApStep(df, s, aps[i], sqrt);
      if status.Fail? {
        return;
      }
    }
    status := Pass;
  }

  // ---- what each step means ----

  /** A line's S/N in an aperture is its flux over its error; a flux without an error column is a KeyError; no flux, no change. */
  lemma SnStepMeaning(v: Snapshot, eline: string, ap: string)
    requires v.Valid()
    ensures var (o, w) := LineStep(v, SnSweep, 0.0, eline, ap);
      var flux, err, sn := At(eline, ap), At(ErrorOf(eline), ap), At(SnOf(eline), ap);
      && (flux !in v.num ==> o.Pass? && w == v)
      && (flux in v.num && err !in v.num ==> o == Fail(KeyError(err)))
      && (flux in v.num && err in v.num ==> (o.Pass? && sn in w.num
            && forall i :: 0 <= i < v.nrows ==> w.num[sn][i] == Div(v.num[flux][i], v.num[err][i])))
  {
  }

  /**
   * The low flux S/N flag is raised exactly in the rows whose S/N is below
   * `eline_SNR_min` (a NaN S/N is never below it); set before, it stays set.
   */
  lemma LowFlagMeaning(v: Snapshot, snrMin: real, eline: string, ap: string)
    requires v.Valid()
    ensures var (o, w) := LineStep(v, LowFlagSweep, snrMin, eline, ap);
      var flux, sn, f := At(eline, ap), At(SnOf(eline), ap), LowFluxFlag(eline, ap);
      && (flux !in v.num ==> o.Pass? && w == v)
      && (flux in v.num && sn !in v.num ==> o == Fail(KeyError(sn)))
      && (flux in v.num && sn in v.num ==> (o.Pass? && f in w.flag
            && (forall i :: 0 <= i < v.nrows ==> (w.flag[f][i] <==> FlagPrior(v, f)[i] || Lt(v.num[sn][i], Val(snrMin))))
            && (forall i :: 0 <= i < v.nrows ==> v.num[sn][i].NaN? ==> w.flag[f][i] == FlagPrior(v, f)[i])
            && (forall c :: c != f ==> (c in w.num <==> c in v.num) && (c in v.num ==> w.num[c] == v.num[c]))))
  {
  }

  /** The missing flux flag is raised exactly in the rows whose flux is NaN while its error is not. */
  lemma MissingFlagMeaning(v: Snapshot, eline: string, ap: string)
    requires v.Valid()
    ensures var (o, w) := LineStep(v, MissingFlagSweep, 0.0, eline, ap);
      var flux, err, f := At(eline, ap), At(ErrorOf(eline), ap), MissingFluxFlag(eline, ap);
      && (flux !in v.num ==> o.Pass? && w == v)
      && (flux in v.num && err !in v.num ==> o == Fail(KeyError(err)))
      && (flux in v.num && err in v.num ==> (o.Pass? && f in w.flag
            && (forall i :: 0 <= i < v.nrows ==> (w.flag[f][i] <==> FlagPrior(v, f)[i] || (v.num[flux][i].NaN? && !v.num[err][i].NaN?)))
            && (forall c :: c != f ==> (c in w.num <==> c in v.num) && (c in v.num ==> w.num[c] == v.num[c]))))
  {
  }

  /** A freshly initialised flag holds exactly the condition of its step. */
  lemma FlagsFromFalse(v: Snapshot, snrMin: real, eline: string, ap: string)
    requires v.Valid()
    requires At(eline, ap) in v.num && At(ErrorOf(eline), ap) in v.num && At(SnOf(eline), ap) in v.num
    requires LowFluxFlag(eline, ap) in v.flag && v.flag[LowFluxFlag(eline, ap)] == Falses(v.nrows)
    requires MissingFluxFlag(eline, ap) in v.flag && v.flag[MissingFluxFlag(eline, ap)] == Falses(v.nrows)
    ensures var w := LineStep(v, LowFlagSweep, snrMin, eline, ap).1;
      forall i :: 0 <= i < v.nrows ==> (w.flag[LowFluxFlag(eline, ap)][i] <==> Lt(v.num[At(SnOf(eline), ap)][i], Val(snrMin)))
    ensures var w := LineStep(v, MissingFlagSweep, snrMin, eline, ap).1;
      forall i :: 0 <= i < v.nrows ==> (w.flag[MissingFluxFlag(eline, ap)][i] <==> v.num[At(eline, ap)][i].NaN? && !v.num[At(ErrorOf(eline), ap)][i].NaN?)
  {
    LowFlagMeaning(v, snrMin, eline, ap);
    MissingFlagMeaning(v, eline, ap);
  }

  /**
   * A line mask step: with its flag present it NaNs, in the flagged rows,
   * exactly the target columns of the line and aperture, and changes nothing
   * else; without it, a KeyError.
   */
  lemma MaskStepMeaning(v: Snapshot, s: Sweep, eline: string, ap: string)
    requires v.Valid() && (s.LowMaskSweep? || s.MissingMaskSweep?)
    ensures var (o, w) := LineStep(v, s, 0.0, eline, ap);
      var f := if s.LowMaskSweep? then LowFluxFlag(eline, ap) else MissingFluxFlag(eline, ap);
      && (f !in v.flag ==> o == Fail(KeyError(f)))
      && (f in v.flag ==> (o.Pass? && w.flag == v.flag && w.text == v.text && w.num.Keys == v.num.Keys
            && forall c, i :: c in v.num && 0 <= i < v.nrows ==>
                 w.num[c][i] == if v.flag[f][i] && c in LineTargets(v, eline, ap) then NaN else v.num[c][i]))
  {
  }

  /** Under a HALPHA flag every non-flag column of the aperture is NaN in the flagged rows. */
  lemma HalphaMasksAperture(v: Snapshot, s: Sweep, ap: string, c: string, i: nat)
    requires v.Valid() && (s.LowMaskSweep? || s.MissingMaskSweep?)
    requires var f := if s.LowMaskSweep? then LowFluxFlag(Halpha, ap) else MissingFluxFlag(Halpha, ap);
      f in v.flag && i < v.nrows && v.flag[f][i]
    requires c in v.num && Contains(c, Tag(ap)) && !Contains(c, FlagWord)
    ensures LineStep(v, s, 0.0, Halpha, ap).1.num[c][i] == NaN
  {
    MaskStepMeaning(v, s, Halpha, ap);
  }

  /** Under another line's flag a column that does not name the line, or names a flag, is untouched. */
  lemma OtherLineScope(v: Snapshot, s: Sweep, eline: string, ap: string, c: string)
    requires v.Valid() && (s.LowMaskSweep? || s.MissingMaskSweep?) && c in v.num
    requires (eline != Halpha && !Contains(c, eline)) || Contains(c, FlagWord) || !Contains(c, Tag(ap))
    ensures LineStep(v, s, 0.0, eline, ap).1.num[c] == v.num[c]
  {
    MaskStepMeaning(v, s, eline, ap);
  }

  /** Where an aperture's SFR is zero, every SFR column of that aperture becomes NaN; other columns are untouched. */
  lemma ZeroSfrMeaning(v: Snapshot, ap: string, sqrt: real -> real)
    requires v.Valid()
    ensures var (o, w) := ApStep(v, ZeroSfrSweep, ap, sqrt);
      var sfr := At(Sfr, ap);
      && (sfr !in v.num ==> o == Fail(KeyError(sfr)))
      && (sfr in v.num ==> (o.Pass? && w.flag == v.flag && w.num.Keys == v.num.Keys
            && forall c, i :: c in v.num && 0 <= i < v.nrows ==>
                 w.num[c][i] == if Eq(v.num[sfr][i], Val(0.0)) && Contains(c, Sfr) && Contains(c, Tag(ap)) then NaN else v.num[c][i]))
  {
  }

  /** The SFR column itself is one of the columns its zero test masks, so no zero SFR survives. */
  lemma ZeroSfrGone(v: Snapshot, ap: string, sqrt: real -> real, i: nat)
    requires v.Valid() && At(Sfr, ap) in v.num && i < v.nrows
    ensures !Eq(ApStep(v, ZeroSfrSweep, ap, sqrt).1.num[At(Sfr, ap)][i], Val(0.0))
  {
    var sfr := At(Sfr, ap);
    assert sfr[..|Sfr|] == Sfr;
    assert sfr[|Sfr|..] == Tag(ap)[..0] + " " + Tag(ap);
    assert Contains(sfr, Sfr);
    TagAt(Sfr, ap);
    ZeroSfrMeaning(v, ap, sqrt);
  }

  /** Every `f"{q} ({ap})"` contains `f"({ap})"`. */
  lemma {:induction false} TagAt(q: string, ap: string)
    ensures Contains(At(q, ap), Tag(ap))
    decreases |q|
  {
    if q == [] {
      assert At(q, ap)[1..] == Tag(ap);
      assert At(q, ap)[1..][..|Tag(ap)|] == Tag(ap);
    } else {
      assert At(q, ap)[1..] == At(q[1..], ap);
      TagAt(q[1..], ap);
    }
  }

  /** The low sigma_gas step fails, with a KeyError, exactly when sigma_gas or its error is missing (sigma_gas checked first). */
  lemma SigmaFlagFails(v: Snapshot, ap: string, sqrt: real -> real)
    requires v.Valid()
    ensures var o := ApStep(v, SigmaFlagSweep, ap, sqrt).0;
      && (SigmaGasAt(ap) !in v.num ==> o == Fail(KeyError(SigmaGasAt(ap))))
      && (SigmaGasAt(ap) in v.num && SigmaGasErrAt(ap) !in v.num ==> o == Fail(KeyError(SigmaGasErrAt(ap))))
      && (SigmaGasAt(ap) in v.num && SigmaGasErrAt(ap) in v.num ==> o.Pass?)
  {
    SigmaNames(ap);
  }

  /** With sigma_gas and its error present the step writes sigma_obs, its S/N and the target S/N. */
  lemma SigmaFlagWrites(v: Snapshot, ap: string, sqrt: real -> real)
    requires v.Valid() && SigmaGasAt(ap) in v.num && SigmaGasErrAt(ap) in v.num
    ensures var w := ApStep(v, SigmaFlagSweep, ap, sqrt).1;
      var sg, err := v.num[SigmaGasAt(ap)], v.num[SigmaGasErrAt(ap)];
      && SigmaObsAt(ap) in w.num && SigmaObsSnAt(ap) in w.num && SigmaTargetAt(ap) in w.num
      && w.num[SigmaObsAt(ap)] == SigmaObs(sg, sqrt)
      && w.num[SigmaObsSnAt(ap)] == DivColumn(SigmaObs(sg, sqrt), err)
      && w.num[SigmaTargetAt(ap)] == SigmaTarget(sg)
  {
    var v3 := SigmaChain(v, ap, sqrt);
  }

  /** ... and raises the flag exactly where the S/N of sigma_obs falls short of the target. */
  lemma SigmaFlagRaised(v: Snapshot, ap: string, sqrt: real -> real)
    requires v.Valid() && SigmaGasAt(ap) in v.num && SigmaGasErrAt(ap) in v.num
    ensures var w := ApStep(v, SigmaFlagSweep, ap, sqrt).1;
      var sg, err, f := v.num[SigmaGasAt(ap)], v.num[SigmaGasErrAt(ap)], LowSigmaFlag(ap);
      && f in w.flag
      && forall i :: 0 <= i < v.nrows ==>
           (w.flag[f][i] <==> FlagPrior(v, f)[i] || Lt(Div(SigmaObs(sg, sqrt)[i], err[i]), SigmaTarget(sg)[i]))
  {
    var v3 := SigmaChain(v, ap, sqrt);
    var f := LowSigmaFlag(ap);
    var sg, err := v.num[SigmaGasAt(ap)], v.num[SigmaGasErrAt(ap)];
    var raised := Raise(FlagPrior(v, f), LtMask(DivColumn(SigmaObs(sg, sqrt), err), SigmaTarget(sg)));
    assert ApStep(v, SigmaFlagSweep, ap, sqrt).1.flag[f] == raised;
  }

  /** The three columns the step writes before it raises the flag, and the flag it raises. */
  lemma SigmaChain(v: Snapshot, ap: string, sqrt: real -> real) returns (v3: Snapshot)
    requires v.Valid() && SigmaGasAt(ap) in v.num && SigmaGasErrAt(ap) in v.num
    ensures v3.Valid() && v3.nrows == v.nrows
    ensures var sg, err := v.num[SigmaGasAt(ap)], v.num[SigmaGasErrAt(ap)];
      && SigmaObsAt(ap) in v3.num && v3.num[SigmaObsAt(ap)] == SigmaObs(sg, sqrt)
      && SigmaObsSnAt(ap) in v3.num && v3.num[SigmaObsSnAt(ap)] == DivColumn(SigmaObs(sg, sqrt), err)
      && SigmaTargetAt(ap) in v3.num && v3.num[SigmaTargetAt(ap)] == SigmaTarget(sg)
    ensures FlagPrior(v3, LowSigmaFlag(ap)) == FlagPrior(v, LowSigmaFlag(ap))
    ensures LowSigmaFlag(ap) != SigmaObsAt(ap) && LowSigmaFlag(ap) != SigmaObsSnAt(ap) && LowSigmaFlag(ap) != SigmaTargetAt(ap)
    ensures ApStep(v, SigmaFlagSweep, ap, sqrt).1
      == v3.WithFlag(LowSigmaFlag(ap), Raise(FlagPrior(v3, LowSigmaFlag(ap)), LtMask(v3.num[SigmaObsSnAt(ap)], v3.num[SigmaTargetAt(ap)])))
  {
    SigmaNames(ap);
    AtApart("Low sigma_gas S/N flag", "sigma_obs", ap, 0);
    AtApart("Low sigma_gas S/N flag", "sigma_obs S/N", ap, 0);
    AtApart("Low sigma_gas S/N flag", "sigma_obs target S/N", ap, 0);
    var sgN, errN := SigmaGasAt(ap), SigmaGasErrAt(ap);
    var v1 := v.WithNum(SigmaObsAt(ap), SigmaObs(v.num[sgN], sqrt));
    var v2 := v1.WithNum(SigmaObsSnAt(ap), DivColumn(v1.num[SigmaObsAt(ap)], v1.num[errN]));
    assert v1.num[errN] == v.num[errN] && v2.num[sgN] == v.num[sgN];
    v3 := v2.WithNum(SigmaTargetAt(ap), SigmaTarget(v2.num[sgN]));
  }

  /** A NaN sigma_gas makes sigma_obs and the target NaN, so its row is never flagged. */
  lemma SigmaRowNaN(sqrt: real -> real)
    ensures SigmaObs([NaN], sqrt)[0].NaN? && SigmaTarget([NaN])[0].NaN?
    ensures forall x: Num :: !Lt(x, SigmaTarget([NaN])[0])
  {
    assert SigmaTarget([NaN])[0].NaN?;
  }

  /** A zero sigma_gas needs an infinite S/N: every finite S/N is flagged, a NaN or infinite one is not. */
  lemma SigmaRowZero()
    ensures SigmaTarget([Val(0.0)])[0] == PosInf
    ensures forall y: real :: Lt(Val(y), SigmaTarget([Val(0.0)])[0])
    ensures !Lt(NaN, SigmaTarget([Val(0.0)])[0]) && !Lt(PosInf, SigmaTarget([Val(0.0)])[0])
  {
    assert Square(Val(0.0)) == Val(0.0);
    assert Div(Val(SigmaInst * SigmaInst), Val(0.0)) == PosInf;
    assert SigmaTarget([Val(0.0)])[0] == Mul(Val(SigmaSnrMin), Add(Val(1.0), PosInf));
  }

  /** A finite, non-zero sigma_gas x: sigma_obs is sqrt(x^2 + 29.6^2) and the target S/N is 3 (1 + 29.6^2 / x^2). */
  lemma SigmaRowFinite(x: real, sqrt: real -> real)
    requires x != 0.0
    ensures SigmaObs([Val(x)], sqrt)[0] == Val(sqrt(x * x + 876.16))
    ensures SigmaTarget([Val(x)])[0] == Val(3.0 * (1.0 + 876.16 / (x * x)))
  {
    assert SigmaInst * SigmaInst == 876.16;
    ObsVal(x, sqrt);
    TargetVal(x);
  }

  lemma SquareVal(x: real)
    ensures Square(Val(x)) == Val(x * x) && x * x >= 0.0 && (x != 0.0 ==> x * x > 0.0)
  {
  }

  lemma ObsVal(x: real, sqrt: real -> real)
    ensures Sqrt(Add(Square(Val(x)), Val(876.16)), sqrt) == Val(sqrt(x * x + 876.16))
  {
    SquareVal(x);
  }

  lemma TargetVal(x: real)
    requires x != 0.0
    ensures Mul(Val(SigmaSnrMin), Add(Val(1.0), Div(Val(876.16), Square(Val(x))))) == Val(3.0 * (1.0 + 876.16 / (x * x)))
  {
    SquareVal(x);
  }

  /** The sigma_gas mask as corrected: with the flag present it NaNs, in the flagged rows, the non-flag sigma_gas columns of the aperture. */
  lemma SigmaMaskMeaning(v: Snapshot, ap: string, sqrt: real -> real)
    requires v.Valid()
    ensures var (o, w) := ApStep(v, SigmaMaskSweep, ap, sqrt);
      var f := LowSigmaFlag(ap);
      && (f !in v.flag ==> o == Fail(KeyError(f)))
      && (f in v.flag ==> (o.Pass? && w.flag == v.flag && w.num.Keys == v.num.Keys
            && forall c, i :: c in v.num && 0 <= i < v.nrows ==>
                 w.num[c][i] == if v.flag[f][i] && Contains(c, Tag(ap)) && Contains(c, SigmaGasWord) && !Contains(c, FlagWord) then NaN else v.num[c][i]))
  {
  }

  /**
   * The code as written fails with NameError exactly when some column name
   * contains "delta"; otherwise it agrees with the corrected step.
   */
  lemma SigmaMaskNameError(v: Snapshot, ap: string, sqrt: real -> real)
    requires v.Valid() && LowSigmaFlag(ap) in v.flag
    ensures SigmaMaskAsWritten(v, ap).0 == Fail(NameError("nn")) <==> DeltaNamed(v)
    ensures !DeltaNamed(v) ==> SigmaMaskAsWritten(v, ap) == ApStep(v, SigmaMaskSweep, ap, sqrt)
    ensures ApStep(v, SigmaMaskSweep, ap, sqrt).0.Pass?
  {
  }

  /** A one-galaxy table with a "delta" column: the code as written raises NameError where the corrected step masks. */
  lemma SigmaMaskNameErrorWitness(sqrt: real -> real)
    ensures var v := Snapshot(map[DeltaWord := [Val(1.0)]], map[], map[LowSigmaFlag("R_e") := [true]], 1);
      && v.Valid()
      && SigmaMaskAsWritten(v, "R_e").0 == Fail(NameError("nn"))
      && ApStep(v, SigmaMaskSweep, "R_e", sqrt).0.Pass?
  {
    var v := Snapshot(map[DeltaWord := [Val(1.0)]], map[], map[LowSigmaFlag("R_e") := [true]], 1);
    assert LowSigmaFlag("R_e")[0] == 'L';
    assert DeltaWord[..|DeltaWord|] == DeltaWord;
    assert Contains(DeltaWord, DeltaWord);
    assert DeltaNamed(v);
  }

  // ---- flag initialisation sets every flag ----

  /** Column c is a boolean column holding False in every row. */
  ghost predicate AllFalse(v: Snapshot, c: string)
  {
    c in v.flag && v.flag[c] == Falses(v.nrows)
  }

  lemma WithFalses(v: Snapshot, c: string)
    requires v.Valid()
    ensures var w := v.WithFlag(c, Falses(v.nrows));
      AllFalse(w, c) && forall d :: AllFalse(v, d) ==> AllFalse(w, d)
  {
  }

  lemma {:induction false} InitLineFlagsSets(v: Snapshot, ap: string, elines: seq<string>)
    requires v.Valid()
    ensures var w := InitLineFlags(v, ap, elines);
      && (forall d :: AllFalse(v, d) ==> AllFalse(w, d))
      && (forall e :: e in elines ==> AllFalse(w, LowFluxFlag(e, ap)) && AllFalse(w, MissingFluxFlag(e, ap)))
    decreases |elines|
  {
    if elines != [] {
      var v1 := v.WithFlag(MissingFluxFlag(elines[0], ap), Falses(v.nrows));
      WithFalses(v, MissingFluxFlag(elines[0], ap));
      WithFalses(v1, LowFluxFlag(elines[0], ap));
      var v2 := v1.WithFlag(LowFluxFlag(elines[0], ap), Falses(v.nrows));
      InitLineFlagsSets(v2, ap, elines[1..]);
      forall e | e in elines
        ensures AllFalse(InitLineFlags(v, ap, elines), LowFluxFlag(e, ap)) && AllFalse(InitLineFlags(v, ap, elines), MissingFluxFlag(e, ap))
      {
        if e != elines[0] {
          assert e in elines[1..];
        }
      }
    }
  }

  /** After initialisation every flag of every line and aperture exists and is False in every row. */
  lemma {:induction false} InitFlagsSets(v: Snapshot, aps: seq<string>, elines: seq<string>)
    requires v.Valid()
    ensures var w := InitFlags(v, aps, elines);
      && (forall d :: AllFalse(v, d) ==> AllFalse(w, d))
      && (forall ap :: ap in aps ==> AllFalse(w, LowSigmaFlag(ap)))
      && (forall e, ap :: e in elines && ap in aps ==> AllFalse(w, LowFluxFlag(e, ap)) && AllFalse(w, MissingFluxFlag(e, ap)))
    decreases |aps|
  {
    if aps != [] {
      var v1 := v.WithFlag(LowSigmaFlag(aps[0]), Falses(v.nrows));
      WithFalses(v, LowSigmaFlag(aps[0]));
      InitLineFlagsSets(v1, aps[0], elines);
      var v2 := InitLineFlags(v1, aps[0], elines);
      InitFlagsSets(v2, aps[1..], elines);
      var w := InitFlags(v, aps, elines);
      forall ap | ap in aps
        ensures AllFalse(w, LowSigmaFlag(ap))
      {
        if ap != aps[0] {
          assert ap in aps[1..];
        }
      }
      forall e, ap | e in elines && ap in aps
        ensures AllFalse(w, LowFluxFlag(e, ap)) && AllFalse(w, MissingFluxFlag(e, ap))
      {
        if ap != aps[0] {
          assert ap in aps[1..];
        }
      }
    }
  }

  // ---- the whole stage ----

  /** S/N, flag initialisation, then the zero-SFR fix and the flags, stopping at the first error. */
  function FlagStage(v: Snapshot, elines: seq<string>, aps: seq<string>, snrMin: real, sqrt: real -> real): (r: (Outcome, Snapshot))
    requires v.Valid()
    ensures r.1.Valid() && r.1.nrows == v.nrows
    ensures r.0.Fail? ==> r.0.error.KeyError?
  {
    var r1 := SweepLines(v, SnSweep, snrMin, elines, aps);
    if r1.0.Fail? then r1 else AfterInitSpec(InitFlags(r1.1, aps, elines), elines, aps, snrMin, sqrt)
  }

  /** The zero-SFR fix, then the low S/N, missing flux and low sigma_gas flags. */
  function AfterInitSpec(v: Snapshot, elines: seq<string>, aps: seq<string>, snrMin: real, sqrt: real -> real): (r: (Outcome, Snapshot))
    requires v.Valid()
    ensures r.1.Valid() && r.1.nrows == v.nrows
    ensures r.0.Fail? ==> r.0.error.KeyError?
  {
    var r2 := ApSweepAll(v, ZeroSfrSweep, aps, sqrt);
    if r2.0.Fail? then r2 else
    var r3 := SweepLines(r2.1, LowFlagSweep, snrMin, elines, aps);
    if r3.0.Fail? then r3 else
    var r4 := SweepLines(r3.1, MissingFlagSweep, snrMin, elines, aps);
    if r4.0.Fail? then r4 else
    ApSweepAll(r4.1, SigmaFlagSweep, aps, sqrt)
  }

  /** The masks each switch turns on: `line_flux_SNR_cut`, `missing_fluxes_cut`, `sigma_gas_SNR_cut`. */
  function MaskStage(v: Snapshot, elines: seq<string>, aps: seq<string>, lineCut: bool, missingCut: bool, sigmaCut: bool, sqrt: real -> real): (r: (Outcome, Snapshot))
    requires v.Valid()
    ensures r.1.Valid() && r.1.nrows == v.nrows
    ensures r.0.Fail? ==> r.0.error.KeyError?
  {
    var r1 := if lineCut then SweepLines(v, LowMaskSweep, 0.0, elines, aps) else (Pass, v);
    if r1.0.Fail? then r1 else
    var r2 := if missingCut then SweepLines(r1.1, MissingMaskSweep, 0.0, elines, aps) else (Pass, r1.1);
    if r2.0.Fail? then r2 else
    if sigmaCut then ApSweepAll(r2.1, SigmaMaskSweep, aps, sqrt) else (Pass, r2.1)
  }

  function ApertureSpec(v: Snapshot, elines: seq<string>, aps: seq<string>, snrMin: real,
                        lineCut: bool, missingCut: bool, sigmaCut: bool, sqrt: real -> real): (r: (Outcome, Snapshot))
    requires v.Valid()
    ensures r.1.Valid() && r.1.nrows == v.nrows
    ensures r.0.Fail? ==> r.0.error.KeyError?
  {
    var r1 := FlagStage(v, elines, aps, snrMin, sqrt);
    if r1.0.Fail? then r1 else MaskStage(r1.1, elines, aps, lineCut, missingCut, sigmaCut, sqrt)
  }

  /** The flag and mask stage of `make_sami_aperture_df`, over its fourteen lines and seven apertures. */
  method FlagAndMaskApertures(df: Frame, snrMin: real, lineCut: bool, missingCut: bool, sigmaCut: bool, sqrt: real -> real)
    returns (status: Outcome)
    requires df.Valid()
    modifies df
    ensures (status, df.Snap()) == ApertureSpec(old(df.Snap()), ApertureLines, Apertures, snrMin, lineCut, missingCut, sigmaCut, sqrt)
  {
    status := FlagAndMask(df, ApertureLines, Apertures, snrMin, lineCut, missingCut, sigmaCut, sqrt);
  }

  method FlagAndMask(df: Frame, elines: seq<string>, aps: seq<string>, snrMin: real,
                     lineCut: bool, missingCut: bool, sigmaCut: bool, sqrt: real -> real) returns (status: Outcome)
    requires df.Valid()
    modifies df
    ensures (status, df.Snap()) == ApertureSpec(old(df.Snap()), elines, aps, snrMin, lineCut, missingCut, sigmaCut, sqrt)
  {
    status := ComputeFlags(df, elines, aps, snrMin, sqrt);
    if status.Fail? {
      return;
    }
    status := ApplyMasks(df, elines, aps, lineCut, missingCut, sigmaCut, sqrt);
  }

  method ComputeFlags(df: Frame, elines: seq<string>, aps: seq<string>, snrMin: real, sqrt: real -> real) returns (status: Outcome)
    requires df.Valid()
    modifies df
    ensures (status, df.Snap()) == FlagStage(old(df.Snap()), elines, aps, snrMin, sqrt)
  {
    status := RunSweep(df, SnSweep, snrMin, elines, aps);
    if status.Fail? {
      return;
    }
    InitialiseFlags(df, aps, elines);
    status := FlagsAfterInit(df, elines, aps, snrMin, sqrt);
  }

  method FlagsAfterInit(df: Frame, elines: seq<string>, aps: seq<string>, snrMin: real, sqrt: real -> real) returns (status: Outcome)
    requires df.Valid()
    modifies df
    ensures (status, df.Snap()) == AfterInitSpec(old(df.Snap()), elines, aps, snrMin, sqrt)
  {
    status := RunApSweep(df, ZeroSfrSweep, aps, sqrt);
    if status.Fail? {
      return;
    }
    status := RunSweep(df, LowFlagSweep, snrMin, elines, aps);
    if status.Fail? {
      return;
    }
    status := RunSweep(df, MissingFlagSweep, snrMin, elines, aps);
    if status.Fail? {
      return;
    }
    status := RunApSweep(df, SigmaFlagSweep, aps, sqrt);
  }

  method ApplyMasks(df: Frame, elines: seq<string>, aps: seq<string>, lineCut: bool, missingCut: bool, sigmaCut: bool, sqrt: real -> real)
    returns (status: Outcome)
    requires df.Valid()
    modifies df
    ensures (status, df.Snap()) == MaskStage(old(df.Snap()), elines, aps, lineCut, missingCut, sigmaCut, sqrt)
  {
    status := Pass;
    if lineCut {
      status := RunSweep(df, LowMaskSweep, 0.0, elines, aps);
      if status.Fail? {
        return;
      }
    }
    if missingCut {
      status := RunSweep(df, MissingMaskSweep, 0.0, elines, aps);
      if status.Fail? {
        return;
      }
    }
    if sigmaCut {
      status := RunApSweep(df, SigmaMaskSweep, aps, sqrt);
    }
  }

  // ---- the masks never fail once the flags are set up ----

  /** Every flag the masks read exists. */
  ghost predicate FlagsReady(v: Snapshot, elines: seq<string>, aps: seq<string>)
  {
    && (forall ap :: ap in aps ==> LowSigmaFlag(ap) in v.flag)
    && (forall e, ap :: e in elines && ap in aps ==> LowFluxFlag(e, ap) in v.flag && MissingFluxFlag(e, ap) in v.flag)
  }

  /** Names of the flag columns begin with "L" or "M": no column the steps compute starts that way. */
  predicate FlagName(c: string)
  {
    |c| > 0 && (c[0] == 'L' || c[0] == 'M')
  }

  /** Every flag column of v named like a flag is still a flag column of w. */
  ghost predicate KeepsFlags(v: Snapshot, w: Snapshot)
  {
    forall c :: c in v.flag && FlagName(c) ==> c in w.flag
  }

  lemma ReadyKept(v: Snapshot, w: Snapshot, elines: seq<string>, aps: seq<string>)
    requires FlagsReady(v, elines, aps) && KeepsFlags(v, w)
    ensures FlagsReady(w, elines, aps)
  {
    forall ap | ap in aps
      ensures LowSigmaFlag(ap) in w.flag
    {
      assert FlagName(LowSigmaFlag(ap));
    }
    forall e, ap | e in elines && ap in aps
      ensures LowFluxFlag(e, ap) in w.flag && MissingFluxFlag(e, ap) in w.flag
    {
      assert FlagName(LowFluxFlag(e, ap)) && FlagName(MissingFluxFlag(e, ap));
    }
  }

  lemma StepKeepsFlags(v: Snapshot, s: Sweep, snrMin: real, eline: string, ap: string)
    requires v.Valid() && !s.SnSweep?
    ensures KeepsFlags(v, LineStep(v, s, snrMin, eline, ap).1)
  {
  }

  lemma {:induction false} SweepKeepsFlags(v: Snapshot, s: Sweep, snrMin: real, elines: seq<string>, aps: seq<string>)
    requires v.Valid() && !s.SnSweep?
    ensures KeepsFlags(v, SweepLines(v, s, snrMin, elines, aps).1)
    decreases |elines|
  {
    if elines != [] {
      var r1 := SweepAps(v, s, snrMin, elines[0], aps);
      SweepApsKeepsFlags(v, s, snrMin, elines[0], aps);
      if r1.0.Pass? {
        SweepKeepsFlags(r1.1, s, snrMin, elines[1..], aps);
      }
    }
  }

  lemma {:induction false} SweepApsKeepsFlags(v: Snapshot, s: Sweep, snrMin: real, eline: string, aps: seq<string>)
    requires v.Valid() && !s.SnSweep?
    ensures KeepsFlags(v, SweepAps(v, s, snrMin, eline, aps).1)
    decreases |aps|
  {
    if aps != [] {
      var r1 := LineStep(v, s, snrMin, eline, aps[0]);
      StepKeepsFlags(v, s, snrMin, eline, aps[0]);
      if r1.0.Pass? {
        SweepApsKeepsFlags(r1.1, s, snrMin, eline, aps[1..]);
      }
    }
  }

  lemma ApStepKeepsFlags(v: Snapshot, s: ApSweep, ap: string, sqrt: real -> real)
    requires v.Valid()
    ensures KeepsFlags(v, ApStep(v, s, ap, sqrt).1)
  {
    if s.SigmaFlagSweep? && SigmaGasAt(ap) in v.num {
      assert SigmaObsAt(ap)[0] == 's' && SigmaObsSnAt(ap)[0] == 's' && SigmaTargetAt(ap)[0] == 's';
    }
  }

  lemma {:induction false} ApSweepKeepsFlags(v: Snapshot, s: ApSweep, aps: seq<string>, sqrt: real -> real)
    requires v.Valid()
    ensures KeepsFlags(v, ApSweepAll(v, s, aps, sqrt).1)
    decreases |aps|
  {
    if aps != [] {
      var r1 := ApStep(v, s, aps[0], sqrt);
      ApStepKeepsFlags(v, s, aps[0], sqrt);
      if r1.0.Pass? {
        ApSweepKeepsFlags(r1.1, s, aps[1..], sqrt);
      }
    }
  }

  /** With its flags present a line mask sweep passes and leaves the flags as they were. */
  lemma {:induction false} MaskSweepPasses(v: Snapshot, s: Sweep, elines: seq<string>, aps: seq<string>)
    requires v.Valid() && (s.LowMaskSweep? || s.MissingMaskSweep?) && FlagsReady(v, elines, aps)
    ensures var r := SweepLines(v, s, 0.0, elines, aps);
      r.0.Pass? && r.1.flag == v.flag
    decreases |elines|
  {
    if elines != [] {
      MaskApsPasses(v, s, elines[0], aps, elines);
      var r1 := SweepAps(v, s, 0.0, elines[0], aps);
      assert FlagsReady(r1.1, elines[1..], aps);
      MaskSweepPasses(r1.1, s, elines[1..], aps);
    }
  }

  lemma {:induction false} MaskApsPasses(v: Snapshot, s: Sweep, eline: string, aps: seq<string>, elines: seq<string>)
    requires v.Valid() && (s.LowMaskSweep? || s.MissingMaskSweep?) && eline in elines && FlagsReady(v, elines, aps)
    ensures var r := SweepAps(v, s, 0.0, eline, aps);
      r.0.Pass? && r.1.flag == v.flag
    decreases |aps|
  {
    if aps != [] {
      assert LowFluxFlag(eline, aps[0]) in v.flag && MissingFluxFlag(eline, aps[0]) in v.flag;
      var r1 := LineStep(v, s, 0.0, eline, aps[0]);
      assert r1.1.flag == v.flag;
      assert FlagsReady(r1.1, elines, aps[1..]);
      MaskApsPasses(r1.1, s, eline, aps[1..], elines);
    }
  }

  lemma {:induction false} SigmaMaskPasses(v: Snapshot, aps: seq<string>, sqrt: real -> real)
    requires v.Valid() && forall ap :: ap in aps ==> LowSigmaFlag(ap) in v.flag
    ensures ApSweepAll(v, SigmaMaskSweep, aps, sqrt).0.Pass?
    decreases |aps|
  {
    if aps != [] {
      var r1 := ApStep(v, SigmaMaskSweep, aps[0], sqrt);
      assert r1.1.flag == v.flag;
      SigmaMaskPasses(r1.1, aps[1..], sqrt);
    }
  }

  /**
   * Once the flags are computed the masks cannot fail: the whole stage fails
   * exactly when computing the flags does, whatever the three switches say.
   */
  lemma MasksNeverFail(v: Snapshot, elines: seq<string>, aps: seq<string>, snrMin: real,
                       lineCut: bool, missingCut: bool, sigmaCut: bool, sqrt: real -> real)
    requires v.Valid()
    ensures ApertureSpec(v, elines, aps, snrMin, lineCut, missingCut, sigmaCut, sqrt).0
         == FlagStage(v, elines, aps, snrMin, sqrt).0
  {
    var f := FlagStage(v, elines, aps, snrMin, sqrt);
    if f.0.Pass? {
      FlagStageReady(v, elines, aps, snrMin, sqrt);
      MaskStageReady(f.1, elines, aps, lineCut, missingCut, sigmaCut, sqrt);
    }
  }

  /** A flag stage that passes leaves every flag the masks read in place. */
  lemma FlagStageReady(v: Snapshot, elines: seq<string>, aps: seq<string>, snrMin: real, sqrt: real -> real)
    requires v.Valid()
    ensures var f := FlagStage(v, elines, aps, snrMin, sqrt);
      f.0.Pass? ==> FlagsReady(f.1, elines, aps)
  {
    var r0 := SweepLines(v, SnSweep, snrMin, elines, aps);
    if r0.0.Pass? {
      var v1 := InitFlags(r0.1, aps, elines);
      InitFlagsSets(r0.1, aps, elines);
      InitReady(v1, elines, aps);
      AfterInitKeeps(v1, elines, aps, snrMin, sqrt);
      ReadyKept(v1, AfterInitSpec(v1, elines, aps, snrMin, sqrt).1, elines, aps);
    }
  }

  lemma InitReady(v: Snapshot, elines: seq<string>, aps: seq<string>)
    requires forall ap :: ap in aps ==> AllFalse(v, LowSigmaFlag(ap))
    requires forall e, ap :: e in elines && ap in aps ==> AllFalse(v, LowFluxFlag(e, ap)) && AllFalse(v, MissingFluxFlag(e, ap))
    ensures FlagsReady(v, elines, aps)
  {
  }

  /** The passes after initialisation keep every flag column. */
  lemma AfterInitKeeps(v: Snapshot, elines: seq<string>, aps: seq<string>, snrMin: real, sqrt: real -> real)
    requires v.Valid()
    ensures KeepsFlags(v, AfterInitSpec(v, elines, aps, snrMin, sqrt).1)
  {
    var r2 := ApSweepAll(v, ZeroSfrSweep, aps, sqrt);
    ApSweepKeepsFlags(v, ZeroSfrSweep, aps, sqrt);
    if r2.0.Pass? {
      var r3 := SweepLines(r2.1, LowFlagSweep, snrMin, elines, aps);
      SweepKeepsFlags(r2.1, LowFlagSweep, snrMin, elines, aps);
      KeepsTrans(v, r2.1, r3.1);
      if r3.0.Pass? {
        var r4 := SweepLines(r3.1, MissingFlagSweep, snrMin, elines, aps);
        SweepKeepsFlags(r3.1, MissingFlagSweep, snrMin, elines, aps);
        KeepsTrans(v, r3.1, r4.1);
        if r4.0.Pass? {
          ApSweepKeepsFlags(r4.1, SigmaFlagSweep, aps, sqrt);
          KeepsTrans(v, r4.1, ApSweepAll(r4.1, SigmaFlagSweep, aps, sqrt).1);
        }
      }
    }
  }

  lemma KeepsTrans(u: Snapshot, v: Snapshot, w: Snapshot)
    requires KeepsFlags(u, v) && KeepsFlags(v, w)
    ensures KeepsFlags(u, w)
  {
  }

  lemma MaskStageReady(v: Snapshot, elines: seq<string>, aps: seq<string>, lineCut: bool, missingCut: bool, sigmaCut: bool, sqrt: real -> real)
    requires v.Valid() && FlagsReady(v, elines, aps)
    ensures MaskStage(v, elines, aps, lineCut, missingCut, sigmaCut, sqrt).0.Pass?
  {
    var r1 := if lineCut then SweepLines(v, LowMaskSweep, 0.0, elines, aps) else (Pass, v);
    if lineCut {
      MaskSweepPasses(v, LowMaskSweep, elines, aps);
    }
    assert FlagsReady(r1.1, elines, aps);
    var r2 := if missingCut then SweepLines(r1.1, MissingMaskSweep, 0.0, elines, aps) else (Pass, r1.1);
    if missingCut {
      MaskSweepPasses(r1.1, MissingMaskSweep, elines, aps);
    }
    assert FlagsReady(r2.1, elines, aps);
    if sigmaCut {
      SigmaMaskPasses(r2.1, aps, sqrt);
    }
  }
}
