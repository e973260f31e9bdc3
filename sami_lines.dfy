/**
 * The later post-processing steps `make_sami_df` (loaddata/sami.py) applies
 * to the spaxel table: the total HALPHA EW, the SFR columns of the
 * recommended-component fits, r/R_e, the S/N of every emission line, the
 * component-1 SFR, and the two SFR masks.
 *
 * As in `SamiSpaxels`, a column that is missing from the numeric group
 * raises KeyError.
 */
module SamiLines {
  import opened Numeric
  import opened Outcomes
  import opened Table
  import opened SamiSpaxels

  /** `np.nansum([...], axis=0)`: each row's NaN-ignoring sum across the columns. */
  function NanSumRows(cols: seq<seq<Num>>, n: nat): (r: seq<Num>)
    requires forall j :: 0 <= j < |cols| ==> |cols[j]| == n
    ensures |r| == n && forall i :: 0 <= i < n ==> r[i] == NanSum(Across(cols, i))
  {
    seq(n, i requires 0 <= i < n => NanSum(Across(cols, i)))
  }

  function Squares(s: seq<Num>): (r: seq<Num>)
    ensures |r| == |s| && forall i :: 0 <= i < |s| ==> r[i] == Square(s[i])
  {
    seq(|s|, i requires 0 <= i < |s| => Square(s[i]))
  }

  /** `np.sqrt(np.nansum([c**2 for c in ...], axis=0))`: each row's errors added in quadrature. */
  function QuadRows(cols: seq<seq<Num>>, n: nat, sqrt: real -> real): (r: seq<Num>)
    requires forall j :: 0 <= j < |cols| ==> |cols[j]| == n
    ensures |r| == n && forall i :: 0 <= i < n ==> r[i] == Sqrt(NanSum(Squares(Across(cols, i))), sqrt)
  {
    seq(n, i requires 0 <= i < n => Sqrt(NanSum(Squares(Across(cols, i))), sqrt))
  }

  /** The rows in which every one of the columns is NaN (`a.isna() & b.isna() & ...`). */
  function AllNaNRows(cols: seq<seq<Num>>, n: nat): (r: seq<bool>)
    requires forall j :: 0 <= j < |cols| ==> |cols[j]| == n
    ensures |r| == n && forall i :: 0 <= i < n ==> r[i] == AllNaN(Across(cols, i))
  {
    seq(n, i requires 0 <= i < n => AllNaN(Across(cols, i)))
  }

  /** The total EW of each row: the NaN-ignoring sum of the component EWs, NaN when all of them are NaN. */
  function TotalColumn(ewc: seq<seq<Num>>, n: nat): (r: seq<Num>)
    requires forall j :: 0 <= j < |ewc| ==> |ewc[j]| == n
    ensures |r| == n
    ensures forall i :: 0 <= i < n ==> r[i] == if AllNaN(Across(ewc, i)) then NaN else NanSum(Across(ewc, i))
  {
    MaskCells(NanSumRows(ewc, n), AllNaNRows(ewc, n))
  }

  /** Its error: the component errors in quadrature, NaN when all the component EWs are NaN. */
  function TotalErrColumn(ewc: seq<seq<Num>>, errc: seq<seq<Num>>, n: nat, sqrt: real -> real): (r: seq<Num>)
    requires forall j :: 0 <= j < |ewc| ==> |ewc[j]| == n
    requires forall j :: 0 <= j < |errc| ==> |errc[j]| == n
    ensures |r| == n
    ensures forall i :: 0 <= i < n ==>
      r[i] == if AllNaN(Across(ewc, i)) then NaN else Sqrt(NanSum(Squares(Across(errc, i))), sqrt)
  {
    MaskCells(QuadRows(errc, n, sqrt), AllNaNRows(ewc, n))
  }

  const TotalEw := Total(HalphaEw)
  const TotalEwErr := Total(HalphaEwErr)

  // ---- The total HALPHA EW ----

  /**
   * The step's effect: the total EW is the NaN-ignoring sum of the component
   * EWs and its error their errors in quadrature, both NaN in the rows where
   * every component EW is NaN. The EW columns are looked up before the total
   * is written, the error columns after.
   */
  function EwTotalSpec(v: Snapshot, nc: Components, sqrt: real -> real): (r: (Outcome, Snapshot))
    requires v.Valid()
  {
    var m, n := Fitted(nc), v.nrows;
    var ews, errs := Comps(HalphaEw, m), Comps(HalphaEwErr, m);
    match FirstMissing(v, ews)
    case Some(c) => (Fail(KeyError(c)), v)
    case None =>
      var ewc := ColumnsOf(v, ews);
      var v1 := v.WithNum(TotalEw, NanSumRows(ewc, n));
      match FirstMissing(v1, errs)
      case Some(c) => (Fail(KeyError(c)), v1)
      case None =>
        (Pass, v1.WithNum(TotalEw, TotalColumn(ewc, n)).WithNum(TotalEwErr, TotalErrColumn(ewc, ColumnsOf(v1, errs), n, sqrt)))
  }

  /** The two sums, then both set to NaN where no component has an EW. */
  method EwTotals(df: Frame, nc: Components, sqrt: real -> real) returns (status: Outcome)
    requires df.Valid()
    modifies df
    ensures (status, df.Snap()) == EwTotalSpec(old(df.Snap()), nc, sqrt)
  {
    ghost var v := df.Snap();
    var m, n := Fitted(nc), df.nrows;
    var ews, errs := Comps(HalphaEw, m), Comps(HalphaEwErr, m);
    var missing := FirstMissing(df.Snap(), ews);
    if missing.Some? {
      return Fail(KeyError(missing.value));
    }
    var ewc := ColumnsOf(df.Snap(), ews);
    var total := NanSumRows(ewc, n);
    df.SetNum(TotalEw, total);
    ghost var v1 := df.Snap();
    missing := FirstMissing(df.Snap(), errs);
    if missing.Some? {
      return Fail(KeyError(missing.value));
    }
    var quad := QuadRows(ColumnsOf(df.Snap(), errs), n, sqrt);
    df.SetNum(TotalEwErr, quad);
    var bad := AllNaNRows(ewc, n);
    var total2, quad2 := MaskCells(total, bad), MaskCells(quad, bad);
    df.SetNum(TotalEw, total2);
    df.SetNum(TotalEwErr, quad2);
    WithNumPairTwice(v, TotalEw, TotalEwErr, total, quad, total2, quad2);
    WithNumTwice(v, TotalEw, total, total2);
    assert total2 == TotalColumn(ewc, n);
    status := Pass;
  }

  /** The step fails, with a KeyError, exactly when an EW or EW error column of a fitted component is missing, and it changes no column but the two totals. */
  lemma EwTotalFails(v: Snapshot, nc: Components, sqrt: real -> real)
    requires v.Valid()
    ensures var (o, w) := EwTotalSpec(v, nc, sqrt);
      var ews, errs := Comps(HalphaEw, Fitted(nc)), Comps(HalphaEwErr, Fitted(nc));
      && (o.Fail? <==> exists j :: 0 <= j < Fitted(nc) && (ews[j] !in v.num || errs[j] !in v.num))
      && (o.Fail? ==> o.error.KeyError?)
      && (forall c :: c in v.num && c != TotalEw && c != TotalEwErr ==> c in w.num && w.num[c] == v.num[c])
  {
    var ews, errs := Comps(HalphaEw, Fitted(nc)), Comps(HalphaEwErr, Fitted(nc));
    if FirstMissing(v, ews).None? {
      var v1 := v.WithNum(TotalEw, NanSumRows(ColumnsOf(v, ews), v.nrows));
      assert forall j :: 0 <= j < Fitted(nc) ==> (errs[j] in v1.num <==> errs[j] in v.num);
    }
  }

  /** Writing one column leaves every other column's values, as `ColumnsOf` reads them, as they were. */
  lemma ColumnsAfterWrite(v: Snapshot, c: string, col: seq<Num>, names: seq<string>)
    requires v.Valid() && |col| == v.nrows
    requires forall j :: 0 <= j < |names| ==> names[j] in v.num && names[j] != c
    ensures forall j :: 0 <= j < |names| ==> names[j] in v.WithNum(c, col).num
    ensures ColumnsOf(v.WithNum(c, col), names) == ColumnsOf(v, names)
  {
  }

  /** With every component's EW and EW error present the step passes, and the two totals are the columns `TotalColumn` and `TotalErrColumn` describe. */
  lemma EwTotalWrites(v: Snapshot, nc: Components, sqrt: real -> real)
    requires v.Valid()
    requires forall j :: 0 <= j < Fitted(nc) ==> Comps(HalphaEw, Fitted(nc))[j] in v.num && Comps(HalphaEwErr, Fitted(nc))[j] in v.num
    ensures var (o, w) := EwTotalSpec(v, nc, sqrt);
      var ews, errs := Comps(HalphaEw, Fitted(nc)), Comps(HalphaEwErr, Fitted(nc));
      && o.Pass? && TotalEw in w.num && TotalEwErr in w.num
      && w.num[TotalEw] == TotalColumn(ColumnsOf(v, ews), v.nrows)
      && w.num[TotalEwErr] == TotalErrColumn(ColumnsOf(v, ews), ColumnsOf(v, errs), v.nrows, sqrt)
  {
    var ews, errs := Comps(HalphaEw, Fitted(nc)), Comps(HalphaEwErr, Fitted(nc));
    var ewc := ColumnsOf(v, ews);
    assert FirstMissing(v, ews).None?;
    var v1 := v.WithNum(TotalEw, NanSumRows(ewc, v.nrows));
    assert forall j :: 0 <= j < |errs| ==> errs[j] in v.num && errs[j] != TotalEw;
    ColumnsAfterWrite(v, TotalEw, NanSumRows(ewc, v.nrows), errs);
    assert FirstMissing(v1, errs).None?;
  }

  /**
   * In every row, the total EW is NaN when no component has an EW, and
   * otherwise the NaN-ignoring sum of the component EWs, which is the plain
   * sum of the finite ones when none is infinite; its error is NaN in the
   * same rows.
   */
  lemma TotalRow(ewc: seq<seq<Num>>, errc: seq<seq<Num>>, n: nat, sqrt: real -> real, i: nat)
    requires (forall j :: 0 <= j < |ewc| ==> |ewc[j]| == n) && (forall j :: 0 <= j < |errc| ==> |errc[j]| == n) && i < n
    ensures var row := Across(ewc, i);
      && (TotalColumn(ewc, n)[i].NaN? <==> AllNaN(row) || NanSum(row).NaN?)
      && (AllNaN(row) ==> TotalErrColumn(ewc, errc, n, sqrt)[i].NaN?)
      && ((forall j :: 0 <= j < |row| ==> row[j].NaN? || row[j].Val?) && !AllNaN(row) ==> TotalColumn(ewc, n)[i] == Val(FiniteSum(row)))
  {
    var row := Across(ewc, i);
    if forall j :: 0 <= j < |row| ==> row[j].NaN? || row[j].Val? {
      NanSumOfFinite(row);
    }
  }

  // ---- r/R_e ----

  const RadiusDeprojected := "r (relative to galaxy centre, deprojected, arcsec)"
  const EffectiveRadius := "R_e (arcsec)"
  const RelativeRadius := "r/R_e"

  /** `a / b`, row by row. */
  function DivColumn(a: seq<Num>, b: seq<Num>): (r: seq<Num>)
    requires |b| == |a|
    ensures |r| == |a| && forall i :: 0 <= i < |a| ==> r[i] == Div(a[i], b[i])
  {
    seq(|a|, i requires 0 <= i < |a| => Div(a[i], b[i]))
  }

  /** The step's effect: r/R_e is the deprojected radius over R_e (a KeyError for the first of them that is missing). */
  function RadiusSpec(v: Snapshot): (r: (Outcome, Snapshot))
    requires v.Valid()
  {
    if RadiusDeprojected !in v.num then (Fail(KeyError(RadiusDeprojected)), v)
    else if EffectiveRadius !in v.num then (Fail(KeyError(EffectiveRadius)), v)
    else (Pass, v.WithNum(RelativeRadius, DivColumn(v.num[RadiusDeprojected], v.num[EffectiveRadius])))
  }

  method RelativeRadii(df: Frame) returns (status: Outcome)
    requires df.Valid()
    modifies df
    ensures (status, df.Snap()) == RadiusSpec(old(df.Snap()))
  {
    if RadiusDeprojected !in df.num {
      return Fail(KeyError(RadiusDeprojected));
    }
    if EffectiveRadius !in df.num {
      return Fail(KeyError(EffectiveRadius));
    }
    df.SetNum(RelativeRadius, DivColumn(df.num[RadiusDeprojected], df.num[EffectiveRadius]));
    status := Pass;
  }

  /**
   * The step fails exactly when one of the two radii is missing. Otherwise
   * r/R_e is a new column over the same rows: in every row, the plain
   * quotient for a finite radius over a finite non-zero R_e, NaN when
   * either is NaN, and never negative for a non-negative radius over a
   * positive R_e. Every other numeric column is kept.
   */
  lemma RadiusMeaning(v: Snapshot)
    requires v.Valid()
    ensures var (o, w) := RadiusSpec(v);
      && (o.Fail? <==> RadiusDeprojected !in v.num || EffectiveRadius !in v.num)
      && (o.Fail? ==> w == v)
      && (o.Pass? ==> w.Valid() && w.nrows == v.nrows && RelativeRadius in w.num && forall i :: 0 <= i < v.nrows ==>
            var r, re, q := v.num[RadiusDeprojected][i], v.num[EffectiveRadius][i], w.num[RelativeRadius][i];
            && (r.Val? && re.Val? && re.v != 0.0 ==> q == Val(r.v / re.v))
            && (r.NaN? || re.NaN? ==> q.NaN?)
            && (r.Val? && r.v >= 0.0 && re.Val? && re.v > 0.0 ==> q.Val? && q.v >= 0.0))
      && (forall c :: c in v.num && c != RelativeRadius ==> c in w.num && w.num[c] == v.num[c])
  {
    var (o, w) := RadiusSpec(v);
    if o.Pass? {
      forall i | 0 <= i < v.nrows {
        RadiusRow(v.num[RadiusDeprojected][i], v.num[EffectiveRadius][i]);
      }
    }
  }

  /** One row of r/R_e: the plain quotient for a finite radius over a non-zero R_e, NaN when either is NaN or both are zero. */
  lemma RadiusRow(r: Num, re: Num)
    ensures r.Val? && re.Val? && re.v != 0.0 ==> Div(r, re) == Val(r.v / re.v)
    ensures r.NaN? || re.NaN? || (r == Val(0.0) && re == Val(0.0)) ==> Div(r, re).NaN?
    ensures r.Val? && r.v >= 0.0 && re.Val? && re.v > 0.0 ==> Div(r, re).Val? && Div(r, re).v >= 0.0
  {
  }

  // ---- S/N of every line, and the total line fluxes ----

  /** `f"{eline} error"` */
  function ErrorOf(eline: string): string { eline + " error" }

  /** `f"{eline} S/N"` */
  function SnOf(eline: string): string { eline + " S/N" }

  /** The S/N of component k of a line, when the line has that component: flux over error, a KeyError if the error is missing. */
  function SnComponentSpec(v: Snapshot, eline: string, k: nat): (r: (Outcome, Snapshot))
    requires v.Valid() && 1 <= k <= 3
    ensures r.1.Valid() && r.1.nrows == v.nrows
    ensures r.0.Fail? ==> r.0.error.KeyError?
  {
    var flux, err := Comp(eline, k), Comp(ErrorOf(eline), k);
    if flux !in v.num then (Pass, v)
    else if err !in v.num then (Fail(KeyError(err)), v)
    else (Pass, v.WithNum(Comp(SnOf(eline), k), DivColumn(v.num[flux], v.num[err])))
  }

  /** The component S/N of components k + 1 to m. */
  function SnFrom(v: Snapshot, eline: string, k: nat, m: nat): (r: (Outcome, Snapshot))
    requires v.Valid() && k <= m <= 3
    ensures r.1.Valid() && r.1.nrows == v.nrows
    ensures r.0.Fail? ==> r.0.error.KeyError?
    decreases m - k
  {
    if k == m then (Pass, v)
    else
      var r1 := SnComponentSpec(v, eline, k + 1);
      if r1.0.Fail? then r1 else SnFrom(r1.1, eline, k + 1, m)
  }

  /**
   * When the line has no total column: its total flux is the NaN-ignoring
   * sum of the component fluxes and its error their errors in quadrature
   * (unmasked, so a row with no measured component gets a total of 0).
   */
  function LineTotalSpec(v: Snapshot, eline: string, m: nat, sqrt: real -> real): (r: (Outcome, Snapshot))
    requires v.Valid() && m <= 3
    ensures r.1.Valid() && r.1.nrows == v.nrows
    ensures r.0.Fail? ==> r.0.error.KeyError?
  {
    var fluxes, errs := Comps(eline, m), Comps(ErrorOf(eline), m);
    if v.Has(Total(eline)) then (Pass, v)
    else
      match FirstMissing(v, fluxes)
      case Some(c) => (Fail(KeyError(c)), v)
      case None =>
        var v1 := v.WithNum(Total(eline), NanSumRows(ColumnsOf(v, fluxes), v.nrows));
        match FirstMissing(v1, errs)
        case Some(c) => (Fail(KeyError(c)), v1)
        case None => (Pass, v1.WithNum(Total(ErrorOf(eline)), QuadRows(ColumnsOf(v1, errs), v.nrows, sqrt)))
  }

  /** One line: the component S/N, the totals if missing, then the S/N of the total. */
  function LineSpec(v: Snapshot, eline: string, m: nat, sqrt: real -> real): (r: (Outcome, Snapshot))
    requires v.Valid() && m <= 3
    ensures r.1.Valid() && r.1.nrows == v.nrows
    ensures r.0.Fail? ==> r.0.error.KeyError?
  {
    var r1 := SnFrom(v, eline, 0, m);
    if r1.0.Fail? then r1
    else
      var r2 := LineTotalSpec(r1.1, eline, m, sqrt);
      var w := r2.1;
      if r2.0.Fail? then r2
      else if Total(eline) !in w.num then (Fail(KeyError(Total(eline))), w)
      else if Total(ErrorOf(eline)) !in w.num then (Fail(KeyError(Total(ErrorOf(eline)))), w)
      else (Pass, w.WithNum(Total(SnOf(eline)), DivColumn(w.num[Total(eline)], w.num[Total(ErrorOf(eline))])))
  }

  /** The loop over the lines, stopping at the first exception. */
  function LinesSpec(v: Snapshot, elines: seq<string>, nc: Components, sqrt: real -> real): (r: (Outcome, Snapshot))
    requires v.Valid()
    ensures r.1.Valid() && r.1.nrows == v.nrows
    ensures r.0.Fail? ==> r.0.error.KeyError?
    decreases |elines|
  {
    if elines == [] then (Pass, v)
    else
      var r1 := LineSpec(v, elines[0], Fitted(nc), sqrt);
      if r1.0.Fail? then r1 else LinesSpec(r1.1, elines[1..], nc, sqrt)
  }

  method LineTotal(df: Frame, eline: string, m: nat, sqrt: real -> real) returns (status: Outcome)
    requires df.Valid() && m <= 3
    modifies df
    ensures (status, df.Snap()) == LineTotalSpec(old(df.Snap()), eline, m, sqrt)
  {
    if df.Has(Total(eline)) {
      return Pass;
    }
    var fluxes, errs := Comps(eline, m), Comps(ErrorOf(eline), m);
    var missing := FirstMissing(df.Snap(), fluxes);
    if missing.Some? {
      return Fail(KeyError(missing.value));
    }
    df.SetNum(Total(eline), NanSumRows(ColumnsOf(df.Snap(), fluxes), df.nrows));
    missing := FirstMissing(df.Snap(), errs);
    if missing.Some? {
      return Fail(KeyError(missing.value));
    }
    df.SetNum(Total(ErrorOf(eline)), QuadRows(ColumnsOf(df.Snap(), errs), df.nrows, sqrt));
    status := Pass;
  }

  method Line(df: Frame, eline: string, m: nat, sqrt: real -> real) returns (status: Outcome)
    requires df.Valid() && m <= 3
    modifies df
    ensures (status, df.Snap()) == LineSpec(old(df.Snap()), eline, m, sqrt)
  {
    for k := 0 to m
      invariant df.Valid() && SnFrom(old(df.Snap()), eline, 0, m) == SnFrom(df.Snap(), eline, k, m)
    {
      var flux, err := Comp(eline, k + 1), Comp(ErrorOf(eline), k + 1);
      if flux in df.num {
        if err !in df.num {
          return Fail(KeyError(err));
        }
        df.SetNum(Comp(SnOf(eline), k + 1), DivColumn(df.num[flux], df.num[err]));
      }
    }
    status := LineTotal(df, eline, m, sqrt);
    if status.Fail? {
      return;
    }
    if Total(eline) !in df.num {
      return Fail(KeyError(Total(eline)));
    }
    if Total(ErrorOf(eline)) !in df.num {
      return Fail(KeyError(Total(ErrorOf(eline))));
    }
    df.SetNum(Total(SnOf(eline)), DivColumn(df.num[Total(eline)], df.num[Total(ErrorOf(eline))]));
  }

  /** `for eline in eline_list`: S/N in all lines, in all components. */
  method Lines(df: Frame, elines: seq<string>, nc: Components, sqrt: real -> real) returns (status: Outcome)
    requires df.Valid()
    modifies df
    ensures (status, df.Snap()) == LinesSpec(old(df.Snap()), elines, nc, sqrt)
  {
    for i := 0 to |elines|
      invariant df.Valid() && LinesSpec(old(df.Snap()), elines, nc, sqrt) == LinesSpec(df.Snap(), elines[i..], nc, sqrt)
    {
      assert elines[i..][1..] == elines[i + 1..];
      status := Line(df, elines[i], Fitted(nc), sqrt);
      if status.Fail? {
        return;
      }
    }
    status := Pass;
  }

  /** The columns one line's step writes are none of the columns it reads. */
  lemma LineNames(eline: string, j: nat, k: nat)
    requires 1 <= j <= 3 && 1 <= k <= 3
    ensures var sn := Comp(SnOf(eline), j);
      && sn != Comp(eline, k) && sn != Comp(ErrorOf(eline), k) && sn != Total(eline) && sn != Total(ErrorOf(eline)) && sn != Total(SnOf(eline))
    ensures var st := Total(SnOf(eline));
      && st != Comp(eline, k) && st != Comp(ErrorOf(eline), k) && st != Total(eline) && st != Total(ErrorOf(eline))
    ensures Total(eline) != Comp(ErrorOf(eline), k) && Total(eline) != Comp(eline, k)
    ensures Total(ErrorOf(eline)) != Comp(eline, k) && Total(ErrorOf(eline)) != Comp(ErrorOf(eline), k)
  {
    assert Comp(eline, k)[|eline| + 1] == '(' && Total(ErrorOf(eline))[|eline| + 1] == 'e';
  }

  /** The component S/N passes fail, with a KeyError, exactly when some component has a flux column but no error column. */
  lemma {:induction false} SnFromFails(v: Snapshot, eline: string, k: nat, m: nat)
    requires v.Valid() && k <= m <= 3
    ensures SnFrom(v, eline, k, m).0.Fail? <==>
      exists j :: k < j <= m && Comp(eline, j) in v.num && Comp(ErrorOf(eline), j) !in v.num
    decreases m - k
  {
    if k < m {
      var r1 := SnComponentSpec(v, eline, k + 1);
      if r1.0.Pass? {
        SnFromFails(r1.1, eline, k + 1, m);
        forall j | k + 1 < j <= m
          ensures (Comp(eline, j) in r1.1.num <==> Comp(eline, j) in v.num)
            && (Comp(ErrorOf(eline), j) in r1.1.num <==> Comp(ErrorOf(eline), j) in v.num)
        {
          LineNames(eline, k + 1, j);
        }
      }
    }
  }

  /** The component S/N passes change no column but the S/N columns of the components. */
  lemma {:induction false} SnFromKeeps(v: Snapshot, eline: string, k: nat, m: nat, c: string)
    requires v.Valid() && k <= m <= 3 && c in v.num
    requires forall j :: k < j <= m ==> c != Comp(SnOf(eline), j)
    ensures var w := SnFrom(v, eline, k, m).1; c in w.num && w.num[c] == v.num[c]
    decreases m - k
  {
    if k < m {
      var r1 := SnComponentSpec(v, eline, k + 1);
      if r1.0.Pass? {
        SnFromKeeps(r1.1, eline, k + 1, m, c);
      }
    }
  }

  /** When the passes succeed, each component with a flux column has S/N flux over error. */
  lemma {:induction false} SnFromWrites(v: Snapshot, eline: string, k: nat, m: nat, j: nat)
    requires v.Valid() && k < j <= m <= 3 && SnFrom(v, eline, k, m).0.Pass? && Comp(eline, j) in v.num
    ensures Comp(ErrorOf(eline), j) in v.num
    ensures var w := SnFrom(v, eline, k, m).1;
      && Comp(SnOf(eline), j) in w.num
      && w.num[Comp(SnOf(eline), j)] == DivColumn(v.num[Comp(eline, j)], v.num[Comp(ErrorOf(eline), j)])
    decreases m - k
  {
    var r1 := SnComponentSpec(v, eline, k + 1);
    LineNames(eline, k + 1, j);
    if j == k + 1 {
      forall l | k + 1 < l <= m
        ensures Comp(SnOf(eline), j) != Comp(SnOf(eline), l)
      {
        CompInjective(SnOf(eline), j, l);
      }
      SnFromKeeps(r1.1, eline, k + 1, m, Comp(SnOf(eline), j));
    } else {
      SnFromWrites(r1.1, eline, k + 1, m, j);
    }
  }

  /** The component S/N passes add or remove no column but the S/N columns. */
  lemma {:induction false} SnFromHas(v: Snapshot, eline: string, k: nat, m: nat, c: string)
    requires v.Valid() && k <= m <= 3
    requires forall j :: k < j <= m ==> c != Comp(SnOf(eline), j)
    ensures var w := SnFrom(v, eline, k, m).1; (w.Has(c) <==> v.Has(c)) && (c in w.num <==> c in v.num)
    decreases m - k
  {
    if k < m {
      var r1 := SnComponentSpec(v, eline, k + 1);
      if r1.0.Pass? {
        SnFromHas(r1.1, eline, k + 1, m, c);
      }
    }
  }

  /** Two snapshots that agree on the named columns read the same `ColumnsOf` them. */
  lemma ColumnsSame(u: Snapshot, v: Snapshot, names: seq<string>)
    requires u.Valid() && v.Valid()
    requires forall j :: 0 <= j < |names| ==> names[j] in v.num && names[j] in u.num && u.num[names[j]] == v.num[names[j]]
    ensures ColumnsOf(u, names) == ColumnsOf(v, names)
  {
  }

  /** The component S/N passes leave the component fluxes and errors as they were. */
  lemma SnFromKeepsInputs(v: Snapshot, eline: string, m: nat, names: seq<string>)
    requires v.Valid() && m <= 3 && (names == Comps(eline, m) || names == Comps(ErrorOf(eline), m))
    requires forall j :: 0 <= j < |names| ==> names[j] in v.num
    ensures var u := SnFrom(v, eline, 0, m).1;
      (forall j :: 0 <= j < |names| ==> names[j] in u.num) && ColumnsOf(u, names) == ColumnsOf(v, names)
  {
    var u := SnFrom(v, eline, 0, m).1;
    forall j | 0 <= j < |names|
      ensures names[j] in u.num && u.num[names[j]] == v.num[names[j]]
    {
      forall l | 0 < l <= m
        ensures names[j] != Comp(SnOf(eline), l)
      {
        LineNames(eline, l, j + 1);
      }
      SnFromKeeps(v, eline, 0, m, names[j]);
    }
    ColumnsSame(u, v, names);
  }

  /** Computing a line's totals fails, with a KeyError, exactly when they are absent and a component flux or error column is missing. */
  lemma LineTotalFails(u: Snapshot, eline: string, m: nat, sqrt: real -> real)
    requires u.Valid() && m <= 3
    ensures var fluxes, errs := Comps(eline, m), Comps(ErrorOf(eline), m);
      LineTotalSpec(u, eline, m, sqrt).0.Fail? <==>
        !u.Has(Total(eline)) && exists j :: 0 <= j < m && (fluxes[j] !in u.num || errs[j] !in u.num)
  {
    var fluxes, errs := Comps(eline, m), Comps(ErrorOf(eline), m);
    if !u.Has(Total(eline)) && FirstMissing(u, fluxes).None? {
      var u1 := u.WithNum(Total(eline), NanSumRows(ColumnsOf(u, fluxes), u.nrows));
      forall j | 0 <= j < m
        ensures errs[j] in u1.num <==> errs[j] in u.num
      {
        LineNames(eline, 1, j + 1);
      }
    }
  }

  /** Absent totals are computed from the component columns as they stand. */
  lemma LineTotalWrites(u: Snapshot, eline: string, m: nat, sqrt: real -> real)
    requires u.Valid() && m <= 3 && !u.Has(Total(eline))
    requires forall j :: 0 <= j < m ==> Comps(eline, m)[j] in u.num && Comps(ErrorOf(eline), m)[j] in u.num
    ensures var r, fluxes, errs := LineTotalSpec(u, eline, m, sqrt), Comps(eline, m), Comps(ErrorOf(eline), m);
      && r.0.Pass?
      && Total(eline) in r.1.num && Total(ErrorOf(eline)) in r.1.num
      && r.1.num[Total(eline)] == NanSumRows(ColumnsOf(u, fluxes), u.nrows)
      && r.1.num[Total(ErrorOf(eline))] == QuadRows(ColumnsOf(u, errs), u.nrows, sqrt)
  {
    var fluxes, errs := Comps(eline, m), Comps(ErrorOf(eline), m);
    var col := NanSumRows(ColumnsOf(u, fluxes), u.nrows);
    forall j | 0 <= j < |errs|
      ensures errs[j] != Total(eline)
    {
      LineNames(eline, 1, j + 1);
    }
    ColumnsAfterWrite(u, Total(eline), col, errs);
    LineNames(eline, 1, 1);
  }

  /**
   * A line without total columns whose component fluxes and errors are all
   * present: its step passes, the total flux is the NaN-ignoring sum of the
   * component fluxes, its error the component errors in quadrature, and its
   * S/N their quotient.
   */
  lemma LineTotalsComputed(v: Snapshot, eline: string, m: nat, sqrt: real -> real)
    requires v.Valid() && m <= 3 && !v.Has(Total(eline))
    requires forall j :: 0 <= j < m ==> Comps(eline, m)[j] in v.num && Comps(ErrorOf(eline), m)[j] in v.num
    ensures var r, fluxes, errs := LineSpec(v, eline, m, sqrt), Comps(eline, m), Comps(ErrorOf(eline), m);
      && r.0.Pass?
      && Total(eline) in r.1.num && Total(ErrorOf(eline)) in r.1.num && Total(SnOf(eline)) in r.1.num
      && r.1.num[Total(eline)] == NanSumRows(ColumnsOf(v, fluxes), v.nrows)
      && r.1.num[Total(ErrorOf(eline))] == QuadRows(ColumnsOf(v, errs), v.nrows, sqrt)
      && r.1.num[Total(SnOf(eline))] == DivColumn(r.1.num[Total(eline)], r.1.num[Total(ErrorOf(eline))])
  {
    var fluxes, errs := Comps(eline, m), Comps(ErrorOf(eline), m);
    forall j | 0 < j <= m
      ensures Comp(ErrorOf(eline), j) in v.num
    {
      assert errs[j - 1] == Comp(ErrorOf(eline), j);
    }
    SnFromFails(v, eline, 0, m);
    var u := SnFrom(v, eline, 0, m).1;
    assert SnFrom(v, eline, 0, m).0.Pass?;
    forall l | 0 < l <= m
      ensures Total(eline) != Comp(SnOf(eline), l)
    {
      LineNames(eline, l, 1);
    }
    SnFromHas(v, eline, 0, m, Total(eline));
    SnFromKeepsInputs(v, eline, m, fluxes);
    SnFromKeepsInputs(v, eline, m, errs);
    LineTotalWrites(u, eline, m, sqrt);
    var w := LineTotalSpec(u, eline, m, sqrt).1;
    var sn := DivColumn(w.num[Total(eline)], w.num[Total(ErrorOf(eline))]);
    assert LineSpec(v, eline, m, sqrt) == (Pass, w.WithNum(Total(SnOf(eline)), sn));
    LineNames(eline, 1, 1);
  }

  /**
   * A line that has both total columns keeps them, and its S/N is their
   * quotient, once every component with a flux also has an error.
   */
  lemma LineTotalsGiven(v: Snapshot, eline: string, m: nat, sqrt: real -> real)
    requires v.Valid() && m <= 3 && Total(eline) in v.num && Total(ErrorOf(eline)) in v.num
    requires forall j :: 0 < j <= m && Comp(eline, j) in v.num ==> Comp(ErrorOf(eline), j) in v.num
    ensures var r := LineSpec(v, eline, m, sqrt);
      && r.0.Pass?
      && Total(eline) in r.1.num && r.1.num[Total(eline)] == v.num[Total(eline)]
      && Total(ErrorOf(eline)) in r.1.num && r.1.num[Total(ErrorOf(eline))] == v.num[Total(ErrorOf(eline))]
      && Total(SnOf(eline)) in r.1.num
      && r.1.num[Total(SnOf(eline))] == DivColumn(v.num[Total(eline)], v.num[Total(ErrorOf(eline))])
  {
    SnFromFails(v, eline, 0, m);
    forall l | 0 < l <= m
      ensures Total(eline) != Comp(SnOf(eline), l) && Total(ErrorOf(eline)) != Comp(SnOf(eline), l)
    {
      LineNames(eline, l, 1);
    }
    SnFromKeeps(v, eline, 0, m, Total(eline));
    SnFromKeeps(v, eline, 0, m, Total(ErrorOf(eline)));
    LineNames(eline, 1, 1);
  }

  /** A passing line step leaves, for each component with a flux, its S/N: flux over error. */
  lemma LineSnComponent(v: Snapshot, eline: string, m: nat, sqrt: real -> real, j: nat)
    requires v.Valid() && 0 < j <= m <= 3 && LineSpec(v, eline, m, sqrt).0.Pass? && Comp(eline, j) in v.num
    ensures Comp(ErrorOf(eline), j) in v.num
    ensures var w := LineSpec(v, eline, m, sqrt).1;
      Comp(SnOf(eline), j) in w.num && w.num[Comp(SnOf(eline), j)] == DivColumn(v.num[Comp(eline, j)], v.num[Comp(ErrorOf(eline), j)])
  {
    SnFromWrites(v, eline, 0, m, j);
    var u := SnFrom(v, eline, 0, m).1;
    LineNames(eline, j, 1);
    LineTotalKeeps(u, eline, m, sqrt, Comp(SnOf(eline), j));
  }

  /** Computing the totals changes no column but the two totals. */
  lemma LineTotalKeeps(u: Snapshot, eline: string, m: nat, sqrt: real -> real, c: string)
    requires u.Valid() && m <= 3 && c in u.num && c != Total(eline) && c != Total(ErrorOf(eline))
    ensures var w := LineTotalSpec(u, eline, m, sqrt).1; c in w.num && w.num[c] == u.num[c]
  {
  }

  /**
   * A row of a computed total: with no measured component the total flux is
   * 0, not NaN (unlike the total EW), and with no measured error either its
   * S/N is 0/0, which is NaN.
   */
  lemma LineTotalRow(fluxes: seq<seq<Num>>, errs: seq<seq<Num>>, n: nat, sqrt: real -> real, i: nat)
    requires (forall j :: 0 <= j < |fluxes| ==> |fluxes[j]| == n) && (forall j :: 0 <= j < |errs| ==> |errs[j]| == n) && i < n
    requires sqrt(0.0) == 0.0
    ensures AllNaN(Across(fluxes, i)) ==> NanSumRows(fluxes, n)[i] == Val(0.0)
    ensures AllNaN(Across(fluxes, i)) && AllNaN(Across(errs, i)) ==> Div(NanSumRows(fluxes, n)[i], QuadRows(errs, n, sqrt)[i]).NaN?
  {
    if AllNaN(Across(fluxes, i)) {
      NanSumAllNaN(Across(fluxes, i));
    }
    if AllNaN(Across(errs, i)) {
      var sq := Squares(Across(errs, i));
      assert AllNaN(sq);
      NanSumAllNaN(sq);
    }
  }
}
