/**
 * The row loops of `_get_metallicity` (utils/metallicity.py) that compute a
 * self-consistent ionisation parameter: each row with numbers in all its
 * inputs runs the fixed-point iteration of `MetIteration`, rows with a NaN
 * input stay NaN, and the calibration's window is applied to the finished
 * columns. An exception raised in some row ends the whole computation.
 */
module MetRows {
  import opened Numeric
  import opened Outcomes
  import opened MetTables
  import opened Calibrations
  import opened MetIteration

  // ---- Row-by-row results, stopping at the first exception ----

  /** The values of rows i.. of a computation, or the error of the first row from i that raised. */
  function CollectFrom<T>(rs: seq<Result<T>>, i: nat): (r: Result<seq<T>>)
    requires i <= |rs|
    ensures r.Success? ==> |r.value| == |rs| - i
    decreases |rs| - i
  {
    if i == |rs| then Success([])
    else if rs[i].Failure? then Failure(rs[i].error)
    else
      match CollectFrom(rs, i + 1)
      case Success(vs) => Success([rs[i].value] + vs)
      case Failure(e) => Failure(e)
  }

  function Collect<T>(rs: seq<Result<T>>): (r: Result<seq<T>>)
    ensures r.Success? ==> |r.value| == |rs|
  {
    CollectFrom(rs, 0)
  }

  lemma {:induction false} CollectFromAll<T>(rs: seq<Result<T>>, i: nat)
    requires i <= |rs|
    requires forall j :: i <= j < |rs| ==> rs[j].Success?
    ensures CollectFrom(rs, i).Success?
    ensures forall j :: i <= j < |rs| ==> CollectFrom(rs, i).value[j - i] == rs[j].value
    decreases |rs| - i
  {
    if i < |rs| {
      CollectFromAll(rs, i + 1);
    }
  }

  lemma {:induction false} CollectFromFails<T>(rs: seq<Result<T>>, i: nat, k: nat)
    requires i <= k < |rs| && rs[k].Failure?
    requires forall j :: i <= j < k ==> rs[j].Success?
    ensures CollectFrom(rs, i) == Failure(rs[k].error)
    decreases k - i
  {
    if i < k {
      CollectFromFails(rs, i + 1, k);
    }
  }

  lemma {:induction false} CollectFromSucceeds<T>(rs: seq<Result<T>>, i: nat)
    requires i <= |rs| && CollectFrom(rs, i).Success?
    ensures forall j :: i <= j < |rs| ==> rs[j].Success?
    decreases |rs| - i
  {
    if i < |rs| {
      CollectFromSucceeds(rs, i + 1);
    }
  }

  /**
   * Collecting succeeds exactly when every row does, and then holds each
   * row's value in order; otherwise its error is that of the earliest row
   * that raised.
   */
  lemma CollectIsFirstFailure<T>(rs: seq<Result<T>>)
    ensures Collect(rs).Success? <==> forall j :: 0 <= j < |rs| ==> rs[j].Success?
    ensures Collect(rs).Success? ==> forall j :: 0 <= j < |rs| ==> Collect(rs).value[j] == rs[j].value
    ensures Collect(rs).Failure? ==>
      exists k :: 0 <= k < |rs| && rs[k].Failure? && Collect(rs).error == rs[k].error
               && forall j :: 0 <= j < k ==> rs[j].Success?
  {
    if Collect(rs).Success? {
      CollectFromSucceeds(rs, 0);
      CollectFromAll(rs, 0);
    } else {
      if forall j :: 0 <= j < |rs| ==> rs[j].Success? {
        CollectFromAll(rs, 0);
        assert false;
      }
      var k := FirstFailure(rs, 0);
      CollectFromFails(rs, 0, k);
    }
  }

  /** The index of the first failed row from i, when there is one. */
  function FirstFailure<T>(rs: seq<Result<T>>, i: nat): (k: nat)
    requires i <= |rs| && exists j :: i <= j < |rs| && rs[j].Failure?
    ensures i <= k < |rs| && rs[k].Failure? && forall j :: i <= j < k ==> rs[j].Success?
    decreases |rs| - i
  {
    if rs[i].Failure? then i else FirstFailure(rs, i + 1)
  }

  // ---- Kewley (2019) with a self-consistent log U ----

  /**
   * One row. A NaN metallicity ratio is tested first, so the ionisation
   * ratio is only needed in rows past that test (`logR_ion` is unbound when
   * the ionisation diagnostic is neither of the two the code computes);
   * with no pass `logOH12_new` is unbound; the first pass looks up the
   * ionisation coefficients.
   */
  function K19Row(met: MetCal, ionName: string, ion: Option<IonCal>, xm: Num, xi: Option<Num>, maxIters: nat): (r: Result<ZU>)
  {
    if xm.NaN? then Success((NaN, NaN))
    else if xi.None? then Failure(NameError("logR_ion"))
    else if xi.value.NaN? then Success((NaN, NaN))
    else if maxIters == 0 then Failure(NameError("logOH12_new"))
    else if ion.None? then Failure(KeyError(ionName))
    else K19Solve(met.p, ion.value.p, xm, xi.value, maxIters)
  }

  function At(xs: Option<seq<Num>>, i: nat): Option<Num>
  {
    if xs.Some? && i < |xs.value| then Some(xs.value[i]) else None
  }

  function K19Rows(met: MetCal, ionName: string, ion: Option<IonCal>, xm: seq<Num>, xi: Option<seq<Num>>, maxIters: nat): (r: seq<Result<ZU>>)
    ensures |r| == |xm|
  {
    seq(|xm|, i requires 0 <= i < |xm| => K19Row(met, ionName, ion, xm[i], At(xi, i), maxIters))
  }

  /** Both columns of the K19 computation: every row, then the windows of both calibrations. */
  function K19ColumnsSpec(met: MetCal, ionName: string, ion: Option<IonCal>, xm: seq<Num>, xi: Option<seq<Num>>, maxIters: nat): (r: Result<(seq<Num>, seq<Num>)>)
    requires xi.Some? ==> |xi.value| == |xm|
    ensures r.Success? ==> |r.value.0| == |xm| && |r.value.1| == |xm|
  {
    var rows := Collect(K19Rows(met, ionName, ion, xm, xi, maxIters));
    if rows.Failure? then Failure(rows.error)
    else if ion.None? then Failure(KeyError(ionName))   // the window check reads the ionisation coefficients too
    else
      Success((seq(|xm|, i requires 0 <= i < |xm| => K19Box(met, ion.value, rows.value[i]).0),
               seq(|xm|, i requires 0 <= i < |xm| => K19Box(met, ion.value, rows.value[i]).1)))
  }

  method K19Columns(met: MetCal, ionName: string, ion: Option<IonCal>, logRMet: seq<Num>, logRIon: Option<seq<Num>>, maxIters: nat)
    returns (r: Result<(seq<Num>, seq<Num>)>)
    requires logRIon.Some? ==> |logRIon.value| == |logRMet|
    ensures r == K19ColumnsSpec(met, ionName, ion, logRMet, logRIon, maxIters)
  {
    var nrows := |logRMet|;
    var logOH12 := new Num[nrows](_ => NaN);
    var logU := new Num[nrows](_ => NaN);
    ghost var rows := K19Rows(met, ionName, ion, logRMet, logRIon, maxIters);
    for rr := 0 to nrows
      invariant forall j :: 0 <= j < rr ==> rows[j].Success? && rows[j].value == (logOH12[j], logU[j])
    {
      assert rows[rr] == K19Row(met, ionName, ion, logRMet[rr], At(logRIon, rr), maxIters);
      if logRMet[rr].NaN? {
        logOH12[rr], logU[rr] := NaN, NaN;
        continue;
      }
      if logRIon.None? {
        CollectFromFails(rows, 0, rr);
        return Failure(NameError("logR_ion"));
      }
      if logRIon.value[rr].NaN? {
        logOH12[rr], logU[rr] := NaN, NaN;
        continue;
      }
      if maxIters == 0 {
        CollectFromFails(rows, 0, rr);
        return Failure(NameError("logOH12_new"));
      }
      if ion.None? {
        CollectFromFails(rows, 0, rr);
        return Failure(KeyError(ionName));
      }
      var zu := K19Iterate(met.p, ion.value.p, logRMet[rr], logRIon.value[rr], maxIters);
      logOH12[rr], logU[rr] := zu.value.0, zu.value.1;
    }
    CollectFromAll(rows, 0);
    if ion.None? {
      return Failure(KeyError(ionName));
    }
    var zs, us := logOH12[..], logU[..];
    assert forall i :: 0 <= i < nrows ==> Collect(rows).value[i] == (zs[i], us[i]);
    r := Success((seq(nrows, i requires 0 <= i < nrows => K19Box(met, ion.value, (zs[i], us[i])).0),
                  seq(nrows, i requires 0 <= i < nrows => K19Box(met, ion.value, (zs[i], us[i])).1)));
    assert K19ColumnsSpec(met, ionName, ion, logRMet, logRIon, maxIters).Success?;
    assert r.value.0 == K19ColumnsSpec(met, ionName, ion, logRMet, logRIon, maxIters).value.0;
    assert r.value.1 == K19ColumnsSpec(met, ionName, ion, logRMet, logRIon, maxIters).value.1;
  }

  /**
   * What the K19 columns hold: a row with a NaN ratio is NaN in both; any
   * other number is the pair the iteration ends with, inside both Z windows
   * and the log U window; Z and log U are NaN together.
   */
  lemma K19ColumnsMeaning(met: MetCal, ionName: string, ion: Option<IonCal>, xm: seq<Num>, xi: Option<seq<Num>>, maxIters: nat, i: nat)
    requires xi.Some? ==> |xi.value| == |xm|
    requires K19ColumnsSpec(met, ionName, ion, xm, xi, maxIters).Success? && i < |xm|
    ensures var cols := K19ColumnsSpec(met, ionName, ion, xm, xi, maxIters).value;
      && ion.Some?
      && (cols.0[i].NaN? <==> cols.1[i].NaN?)
      && (xm[i].NaN? || (xi.Some? && xi.value[i].NaN?) ==> cols.0[i].NaN?)
      && (!cols.0[i].NaN? ==>
            && xi.Some?
            && K19Solve(met.p, ion.value.p, xm[i], xi.value[i], maxIters) == Success((cols.0[i], cols.1[i]))
            && InWindow(cols.0[i], Max(met.zmin, ion.value.zmin), Min(met.zmax, ion.value.zmax))
            && InWindow(cols.1[i], ion.value.umin, ion.value.umax))
  {
    var rows := K19Rows(met, ionName, ion, xm, xi, maxIters);
    CollectIsFirstFailure(rows);
    assert rows[i] == K19Row(met, ionName, ion, xm[i], At(xi, i), maxIters);
  }

  /** The K19 columns are computed exactly when nothing can raise: coefficients, ratio, and at least one pass. */
  lemma K19ColumnsSucceed(met: MetCal, ionName: string, ion: Option<IonCal>, xm: seq<Num>, xi: Option<seq<Num>>, maxIters: nat)
    requires xi.Some? ==> |xi.value| == |xm|
    ensures ion.Some? && xi.Some? && maxIters >= 1 ==> K19ColumnsSpec(met, ionName, ion, xm, xi, maxIters).Success?
    ensures ion.None? ==> K19ColumnsSpec(met, ionName, ion, xm, xi, maxIters).Failure?
    ensures K19ColumnsSpec(met, ionName, ion, xm, xi, maxIters).Success? && maxIters == 0 ==>
      forall i :: 0 <= i < |xm| ==> xm[i].NaN? || (xi.Some? && xi.value[i].NaN?)
  {
    var rows := K19Rows(met, ionName, ion, xm, xi, maxIters);
    CollectIsFirstFailure(rows);
    if ion.Some? && xi.Some? && maxIters >= 1 {
      forall j | 0 <= j < |rows| ensures rows[j].Success? {
        assert rows[j] == K19Row(met, ionName, ion, xm[j], Some(xi.value[j]), maxIters);
      }
    }
    if K19ColumnsSpec(met, ionName, ion, xm, xi, maxIters).Success? && maxIters == 0 {
      forall i | 0 <= i < |xm| ensures xm[i].NaN? || (xi.Some? && xi.value[i].NaN?) {
        assert rows[i].Success?;
      }
    }
  }

  // ---- R23, Kobulnicky & Kewley (2004) with a self-consistent log q ----

  /** One row: a NaN in any of the three ratios leaves it NaN, otherwise it iterates. */
  function KK04Row(n2o2: Num, o3o2: Num, r23: Num, maxIters: nat): (r: Result<ZU>)
  {
    if n2o2.NaN? || o3o2.NaN? || r23.NaN? then Success((NaN, NaN))
    else KK04Solve(n2o2, o3o2, r23, maxIters)
  }

  function KK04Rows(n2o2: seq<Num>, o3o2: seq<Num>, r23: seq<Num>, maxIters: nat): (r: seq<Result<ZU>>)
    requires |n2o2| == |o3o2| == |r23|
    ensures |r| == |r23|
  {
    seq(|r23|, i requires 0 <= i < |r23| => KK04Row(n2o2[i], o3o2[i], r23[i], maxIters))
  }

  /** Both columns, NaN wherever log R23 is not below 1, where the calibration is undefined. */
  function KK04ColumnsSpec(n2o2: seq<Num>, o3o2: seq<Num>, r23: seq<Num>, maxIters: nat): (r: Result<(seq<Num>, seq<Num>)>)
    requires |n2o2| == |o3o2| == |r23|
    ensures r.Success? ==> |r.value.0| == |r23| && |r.value.1| == |r23|
  {
    var rows := Collect(KK04Rows(n2o2, o3o2, r23, maxIters));
    if rows.Failure? then Failure(rows.error)
    else
      Success((seq(|r23|, i requires 0 <= i < |r23| => Clip(Lt(r23[i], Val(1.0)), rows.value[i].0)),
               seq(|r23|, i requires 0 <= i < |r23| => Clip(Lt(r23[i], Val(1.0)), rows.value[i].1))))
  }

  /** One row of the KK04 loop: skipped when a ratio is NaN, iterated otherwise. */
  method KK04Cell(n2o2: Num, o3o2: Num, r23: Num, maxIters: nat) returns (r: Result<ZU>)
    ensures r == KK04Row(n2o2, o3o2, r23, maxIters)
  {
    if n2o2.NaN? || o3o2.NaN? || r23.NaN? {
      return Success((NaN, NaN));
    }
    r := KK04Iterate(n2o2, o3o2, r23, maxIters);
  }

  method KK04Columns(logN2O2: seq<Num>, logO3O2: seq<Num>, logR23: seq<Num>, maxIters: nat)
    returns (r: Result<(seq<Num>, seq<Num>)>)
    requires |logN2O2| == |logO3O2| == |logR23|
    ensures r == KK04ColumnsSpec(logN2O2, logO3O2, logR23, maxIters)
  {
    var nrows := |logR23|;
    var logOH12 := new Num[nrows](_ => NaN);
    var logU := new Num[nrows](_ => NaN);
    ghost var rows := KK04Rows(logN2O2, logO3O2, logR23, maxIters);
    for rr := 0 to nrows
      invariant forall j :: 0 <= j < rr ==> rows[j] == Success((logOH12[j], logU[j]))
    {
      var zu := KK04Cell(logN2O2[rr], logO3O2[rr], logR23[rr], maxIters);
      if zu.Failure? {
        CollectFromFails(rows, 0, rr);
        return Failure(zu.error);
      }
      logOH12[rr], logU[rr] := zu.value.0, zu.value.1;
    }
    var zs, us := logOH12[..], logU[..];
    r := Success((seq(nrows, i requires 0 <= i < nrows => Clip(Lt(logR23[i], Val(1.0)), zs[i])),
                  seq(nrows, i requires 0 <= i < nrows => Clip(Lt(logR23[i], Val(1.0)), us[i]))));
    KK04Assembled(logN2O2, logO3O2, logR23, maxIters, zs, us);
  }

  /** Once every row has succeeded, the columns are those rows' values, clipped at log R23 = 1. */
  lemma KK04Assembled(n2o2: seq<Num>, o3o2: seq<Num>, r23: seq<Num>, maxIters: nat, zs: seq<Num>, us: seq<Num>)
    requires |n2o2| == |o3o2| == |r23| == |zs| == |us|
    requires forall j :: 0 <= j < |r23| ==> KK04Rows(n2o2, o3o2, r23, maxIters)[j] == Success((zs[j], us[j]))
    ensures KK04ColumnsSpec(n2o2, o3o2, r23, maxIters)
      == Success((seq(|r23|, i requires 0 <= i < |r23| => Clip(Lt(r23[i], Val(1.0)), zs[i])),
                  seq(|r23|, i requires 0 <= i < |r23| => Clip(Lt(r23[i], Val(1.0)), us[i]))))
  {
    var rows := KK04Rows(n2o2, o3o2, r23, maxIters);
    CollectFromAll(rows, 0);
    var got := Collect(rows).value;
    assert forall i :: 0 <= i < |r23| ==> got[i] == (zs[i], us[i]);
    var want0 := seq(|r23|, i requires 0 <= i < |r23| => Clip(Lt(r23[i], Val(1.0)), zs[i]));
    var want1 := seq(|r23|, i requires 0 <= i < |r23| => Clip(Lt(r23[i], Val(1.0)), us[i]));
    var spec := KK04ColumnsSpec(n2o2, o3o2, r23, maxIters).value;
    assert spec.0 == want0;
    assert spec.1 == want1;
  }

  /**
   * What the KK04 columns hold: NaN wherever a ratio is NaN or log R23 is not
   * below 1; elsewhere the iteration's Z and log U. They fail only with no
   * pass at all, and then only if some row has all three ratios.
   */
  lemma KK04ColumnsMeaning(n2o2: seq<Num>, o3o2: seq<Num>, r23: seq<Num>, maxIters: nat)
    requires |n2o2| == |o3o2| == |r23|
    ensures KK04ColumnsSpec(n2o2, o3o2, r23, maxIters).Success? <==>
      maxIters >= 1 || forall i :: 0 <= i < |r23| ==> n2o2[i].NaN? || o3o2[i].NaN? || r23[i].NaN?
    ensures KK04ColumnsSpec(n2o2, o3o2, r23, maxIters).Success? ==>
      var cols := KK04ColumnsSpec(n2o2, o3o2, r23, maxIters).value;
      forall i :: 0 <= i < |r23| ==>
        if !Lt(r23[i], Val(1.0)) || n2o2[i].NaN? || o3o2[i].NaN? then cols.0[i].NaN? && cols.1[i].NaN?
        else KK04Solve(n2o2[i], o3o2[i], r23[i], maxIters) == Success((cols.0[i], cols.1[i]))
  {
    var rows := KK04Rows(n2o2, o3o2, r23, maxIters);
    CollectIsFirstFailure(rows);
    if maxIters >= 1 {
      assert forall j :: 0 <= j < |rows| ==> rows[j].Success?;
    }
    if Collect(rows).Success? {
      forall i | 0 <= i < |r23| && !(n2o2[i].NaN? || o3o2[i].NaN? || r23[i].NaN?)
        ensures maxIters >= 1
      {
        assert rows[i].Success?;
      }
    }
  }
}
