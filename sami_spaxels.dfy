/**
 * The first post-processing steps `make_sami_df` (loaddata/sami.py) applies
 * to the spaxel table once its SAMI columns have been renamed: the
 * original number of kinematic components and the HALPHA equivalent widths
 * of each component.
 *
 * Every step reads numeric columns; a column that is missing (or is not in
 * the numeric group) raises KeyError.
 */
module SamiSpaxels {
  import opened Numeric
  import opened Outcomes
  import opened Table

  /** `ncomponents`: "recom" (up to three components per spaxel) or "1"; `make_sami_df` asserts it is one of the two. */
  datatype Components = Recom | One

  /** `3 if ncomponents == "recom" else 1`: how many components the loops visit. */
  function Fitted(nc: Components): nat
  {
    if nc.Recom? then 3 else 1
  }

  function Digit(k: nat): string
    requires 1 <= k <= 3
  {
    if k == 1 then "1" else if k == 2 then "2" else "3"
  }

  /** `f"{quantity} (component {k})"` */
  function Comp(quantity: string, k: nat): (r: string)
    requires 1 <= k <= 3
    ensures |r| == |quantity| + 14
  {
    quantity + " (component " + Digit(k) + ")"
  }

  /** `f"{quantity} (total)"` */
  function Total(quantity: string): (r: string)
    ensures |r| == |quantity| + 8
  {
    quantity + " (total)"
  }

  /** `[f"{quantity} (component {nn + 1})" for nn in range(n)]` */
  function Comps(quantity: string, n: nat): (r: seq<string>)
    requires n <= 3
    ensures |r| == n && forall j :: 0 <= j < n ==> r[j] == Comp(quantity, j + 1)
  {
    seq(n, j requires 0 <= j < n => Comp(quantity, j + 1))
  }

  /** The first of `names` that is not a numeric column: the key a run of `df[name]` look-ups fails on. */
  function FirstMissing(v: Snapshot, names: seq<string>): (r: Option<string>)
    ensures r.None? <==> forall j :: 0 <= j < |names| ==> names[j] in v.num
    ensures r.Some? ==> r.value in names && r.value !in v.num
  {
    if names == [] then None
    else if names[0] !in v.num then Some(names[0])
    else FirstMissing(v, names[1..])
  }

  /** The named columns, in order. */
  function ColumnsOf(v: Snapshot, names: seq<string>): (r: seq<seq<Num>>)
    requires v.Valid() && forall j :: 0 <= j < |names| ==> names[j] in v.num
    ensures |r| == |names| && forall j :: 0 <= j < |names| ==> r[j] == v.num[names[j]] && |r[j]| == v.nrows
  {
    seq(|names|, j requires 0 <= j < |names| => v.num[names[j]])
  }

  /** Row i across a list of columns. */
  function Across(cols: seq<seq<Num>>, i: nat): (r: seq<Num>)
    requires forall j :: 0 <= j < |cols| ==> i < |cols[j]|
    ensures |r| == |cols| && forall j :: 0 <= j < |cols| ==> r[j] == cols[j][i]
  {
    seq(|cols|, j requires 0 <= j < |cols| => cols[j][i])
  }

  const SigmaGas := "sigma_gas"
  const Halpha := "HALPHA"
  const HalphaErr := "HALPHA error"
  const HalphaEw := "HALPHA EW"
  const HalphaEwErr := "HALPHA EW error"
  const Cont := "HALPHA continuum"
  const ContErr := "HALPHA continuum error"
  const ContStd := "HALPHA continuum std. dev."
  const NCompOriginal := "Number of components (original)"

  // ---- The original number of components ----

  /** `(~col.isna()).astype(int)` of one cell */
  function Detected(x: Num): real
  {
    if x.NaN? then 0.0 else 1.0
  }

  /** The number of components with a measured sigma_gas in row i. */
  function DetectedIn(cols: seq<seq<Num>>, i: nat): (r: real)
    requires forall j :: 0 <= j < |cols| ==> i < |cols[j]|
    ensures 0.0 <= r <= |cols| as real
  {
    if cols == [] then 0.0
    else DetectedIn(cols[..|cols| - 1], i) + Detected(cols[|cols| - 1][i])
  }

  function DetectedAll(cols: seq<seq<Num>>, n: nat): (r: seq<Num>)
    requires forall j :: 0 <= j < |cols| ==> |cols[j]| == n
    ensures |r| == n && forall i :: 0 <= i < n ==> r[i] == Val(DetectedIn(cols, i))
  {
    seq(n, i requires 0 <= i < n => Val(DetectedIn(cols, i)))
  }

  /** The step's effect: "Number of components (original)" counts the components with a sigma_gas. */
  function ComponentCountSpec(v: Snapshot, nc: Components): (r: (Outcome, Snapshot))
    requires v.Valid()
  {
    var names := Comps(SigmaGas, Fitted(nc));
    match FirstMissing(v, names)
    case Some(c) => (Fail(KeyError(c)), v)
    case None => (Pass, v.WithNum(NCompOriginal, DetectedAll(ColumnsOf(v, names), v.nrows)))
  }

  /** The sum of the `(~isna()).astype(int)` columns for "recom", the one column for "1". */
  method CountComponents(df: Frame, nc: Components) returns (status: Outcome)
    requires df.Valid()
    modifies df
    ensures (status, df.Snap()) == ComponentCountSpec(old(df.Snap()), nc)
  {
    ghost var v := df.Snap();
    var n := df.nrows;
    var s1, s2, s3 := Comp(SigmaGas, 1), Comp(SigmaGas, 2), Comp(SigmaGas, 3);
    if s1 !in df.num {
      return Fail(KeyError(s1));
    }
    var c1 := df.num[s1];
    assert Comps(SigmaGas, 3) == [s1, s2, s3] && [s1, s2, s3][1..] == [s2, s3] && [s2, s3][1..] == [s3];
    assert Comps(SigmaGas, 1) == [s1];
    if nc == Recom {
      if s2 !in df.num {
        assert FirstMissing(v, [s2, s3]) == Some(s2);
        return Fail(KeyError(s2));
      }
      if s3 !in df.num {
        assert FirstMissing(v, [s3]) == Some(s3);
        return Fail(KeyError(s3));
      }
      var c2, c3 := df.num[s2], df.num[s3];
      var count := seq(n, i requires 0 <= i < n => Val(Detected(c1[i]) + Detected(c2[i]) + Detected(c3[i])));
      ghost var cols := ColumnsOf(v, Comps(SigmaGas, 3));
      forall i | 0 <= i < n
        ensures count[i] == Val(DetectedIn(cols, i))
      {
        DetectedInThree(cols, i);
      }
      assert count == DetectedAll(cols, n);
      df.SetNum(NCompOriginal, count);
    } else {
      var count := seq(n, i requires 0 <= i < n => Val(Detected(c1[i])));
      ghost var cols := ColumnsOf(v, Comps(SigmaGas, 1));
      assert cols[..0] == [];
      assert count == DetectedAll(cols, n);
      df.SetNum(NCompOriginal, count);
    }
    status := Pass;
  }

  lemma DetectedInThree(cols: seq<seq<Num>>, i: nat)
    requires |cols| == 3 && forall j :: 0 <= j < 3 ==> i < |cols[j]|
    ensures DetectedIn(cols, i) == Detected(cols[0][i]) + Detected(cols[1][i]) + Detected(cols[2][i])
  {
    assert cols[..2][..1] == cols[..1] && cols[..1][..0] == [];
    assert DetectedIn(cols[..1], i) == Detected(cols[0][i]);
    assert DetectedIn(cols[..2], i) == DetectedIn(cols[..1], i) + Detected(cols[1][i]);
  }

  /** Counting is 0 exactly when every component is NaN, and the full count exactly when none is. */
  lemma {:induction false} DetectedBounds(cols: seq<seq<Num>>, i: nat)
    requires forall j :: 0 <= j < |cols| ==> i < |cols[j]|
    ensures DetectedIn(cols, i) == 0.0 <==> forall j :: 0 <= j < |cols| ==> cols[j][i].NaN?
    ensures DetectedIn(cols, i) == |cols| as real <==> forall j :: 0 <= j < |cols| ==> !cols[j][i].NaN?
  {
    if cols != [] {
      var init := cols[..|cols| - 1];
      DetectedBounds(init, i);
      assert forall j :: 0 <= j < |init| ==> init[j] == cols[j];
    }
  }

  /**
   * The count is a number from 0 to the number of components: 0 when no
   * component has a sigma_gas, the maximum when all have; the step fails
   * exactly on a missing sigma_gas column, and changes no other column.
   */
  lemma ComponentCountMeaning(v: Snapshot, nc: Components)
    requires v.Valid()
    ensures var (status, w) := ComponentCountSpec(v, nc);
      var names := Comps(SigmaGas, Fitted(nc));
      && (status.Fail? <==> exists j :: 0 <= j < |names| && names[j] !in v.num)
      && (status.Fail? ==> status.error.KeyError? && w == v)
      && (status.Pass? ==>
          && (forall c :: c in v.num && c != NCompOriginal ==> c in w.num && w.num[c] == v.num[c])
          && NCompOriginal in w.num
          && forall i :: 0 <= i < v.nrows ==>
               var x := w.num[NCompOriginal][i];
               && x.Val? && 0.0 <= x.v <= Fitted(nc) as real
               && (x.v == 0.0 <==> forall j :: 0 <= j < |names| ==> v.num[names[j]][i].NaN?)
               && (x.v == Fitted(nc) as real <==> forall j :: 0 <= j < |names| ==> !v.num[names[j]][i].NaN?))
  {
    var names := Comps(SigmaGas, Fitted(nc));
    if FirstMissing(v, names).None? {
      CountedRows(v, names);
    }
  }

  /** The count column of present components: per row, the number of them that are not NaN. */
  lemma CountedRows(v: Snapshot, names: seq<string>)
    requires v.Valid() && forall j :: 0 <= j < |names| ==> names[j] in v.num
    ensures var col := DetectedAll(ColumnsOf(v, names), v.nrows);
      forall i :: 0 <= i < v.nrows ==>
        && col[i].Val? && 0.0 <= col[i].v <= |names| as real
        && (col[i].v == 0.0 <==> forall j :: 0 <= j < |names| ==> v.num[names[j]][i].NaN?)
        && (col[i].v == |names| as real <==> forall j :: 0 <= j < |names| ==> !v.num[names[j]][i].NaN?)
  {
    var cols := ColumnsOf(v, names);
    forall i | 0 <= i < v.nrows
      ensures DetectedIn(cols, i) == 0.0 <==> forall j :: 0 <= j < |names| ==> v.num[names[j]][i].NaN?
      ensures DetectedIn(cols, i) == |names| as real <==> forall j :: 0 <= j < |names| ==> !v.num[names[j]][i].NaN?
    {
      DetectedBounds(cols, i);
    }
  }

  // ---- HALPHA equivalent widths ----

  /** `df.loc[df["HALPHA continuum"] < 0, "HALPHA continuum"] = 0` on one cell */
  function Clip(x: Num): (r: Num)
    ensures !Lt(r, Val(0.0))
    ensures !Lt(x, Val(0.0)) ==> r == x
  {
    if Lt(x, Val(0.0)) then Val(0.0) else x
  }

  function ClipAll(col: seq<Num>): (r: seq<Num>)
    ensures |r| == |col| && forall i :: 0 <= i < |col| ==> r[i] == Clip(col[i])
  {
    seq(|col|, i requires 0 <= i < |col| => Clip(col[i]))
  }

  /** The EW of one component in one spaxel: flux over continuum, NaN where the continuum is not positive. */
  function Ew(ha: Num, cont: Num): (r: Num)
    ensures cont.NaN? || Le(cont, Val(0.0)) ==> r.NaN?
    ensures ha.Val? && cont.Val? && cont.v > 0.0 ==> r == Val(ha.v / cont.v)
  {
    if Le(cont, Val(0.0)) then NaN else Div(ha, cont)
  }

  /** Its error: the EW times the quadrature sum of the relative errors, NaN where the continuum is not positive. */
  function EwErr(ha: Num, haErr: Num, cont: Num, contErr: Num, sqrt: real -> real): (r: Num)
    ensures Ew(ha, cont).NaN? ==> r.NaN?
  {
    if Le(cont, Val(0.0)) then NaN
    else Mul(Div(ha, cont), Sqrt(Add(Square(Div(haErr, ha)), Square(Div(contErr, cont))), sqrt))
  }

  function EwColumn(ha: seq<Num>, cont: seq<Num>): (r: seq<Num>)
    requires |cont| == |ha|
    ensures |r| == |ha| && forall i :: 0 <= i < |ha| ==> r[i] == Ew(ha[i], cont[i])
  {
    if ha == [] then [] else EwColumn(ha[..|ha| - 1], cont[..|ha| - 1]) + [Ew(ha[|ha| - 1], cont[|ha| - 1])]
  }

  function EwErrColumn(ha: seq<Num>, haErr: seq<Num>, cont: seq<Num>, contErr: seq<Num>, sqrt: real -> real): (r: seq<Num>)
    requires |haErr| == |ha| && |cont| == |ha| && |contErr| == |ha|
    ensures |r| == |ha| && forall i :: 0 <= i < |ha| ==> r[i] == EwErr(ha[i], haErr[i], cont[i], contErr[i], sqrt)
  {
    if ha == [] then [] else EwErrColumn(ha[..|ha| - 1], haErr[..|ha| - 1], cont[..|ha| - 1], contErr[..|ha| - 1], sqrt) + [EwErr(ha[|ha| - 1], haErr[|ha| - 1], cont[|ha| - 1], contErr[|ha| - 1], sqrt)]
  }

  /** A frame the component loop can run on: the continuum columns are there. */
  predicate Ready(v: Snapshot)
  {
    v.Valid() && Cont in v.num && ContErr in v.num
  }

  /** The EW columns of component k from its flux columns and the continuum columns. */
  function EwComponentSpec(v: Snapshot, k: nat, sqrt: real -> real): (r: (Outcome, Snapshot))
    requires Ready(v) && 1 <= k <= 3
    ensures Ready(r.1) && r.1.nrows == v.nrows
    ensures r.1.num[Cont] == v.num[Cont] && r.1.num[ContErr] == v.num[ContErr]
    ensures r.0.Fail? ==> r.0.error.KeyError?
  {
    var ha, he := Comp(Halpha, k), Comp(HalphaErr, k);
    if ha !in v.num then (Fail(KeyError(ha)), v)
    else if he !in v.num then (Fail(KeyError(he)), v)
    else
      var cont := v.num[Cont];
      (Pass, v.WithNum(Comp(HalphaEw, k), EwColumn(v.num[ha], cont))
              .WithNum(Comp(HalphaEwErr, k), EwErrColumn(v.num[ha], v.num[he], cont, v.num[ContErr], sqrt)))
  }

  /** The passes of the component loop for components k + 1 to m, stopping at the first exception. */
  function EwFrom(v: Snapshot, k: nat, m: nat, sqrt: real -> real): (r: (Outcome, Snapshot))
    requires Ready(v) && k <= m <= 3
    ensures Ready(r.1) && r.1.nrows == v.nrows
    ensures r.1.num[Cont] == v.num[Cont] && r.1.num[ContErr] == v.num[ContErr]
    ensures r.0.Fail? ==> r.0.error.KeyError?
    decreases m - k
  {
    if k == m then (Pass, v)
    else
      var r1 := EwComponentSpec(v, k + 1, sqrt);
      if r1.0.Fail? then r1 else EwFrom(r1.1, k + 1, m, sqrt)
  }

  /** The step's effect: the continuum clipped at 0, then the EW columns of each component. */
  function EwSpec(v: Snapshot, nc: Components, sqrt: real -> real): (r: (Outcome, Snapshot))
    requires v.Valid()
  {
    if Cont !in v.num then (Fail(KeyError(Cont)), v)
    else if ContErr !in v.num then (Fail(KeyError(ContErr)), v)
    else if ContStd !in v.num then (Fail(KeyError(ContStd)), v)
    else EwFrom(v.WithNum(Cont, ClipAll(v.num[Cont])), 0, Fitted(nc), sqrt)
  }

  /** One pass: the EW, its error, then both set to NaN where the continuum is not positive. */
  method EwComponent(df: Frame, k: nat, sqrt: real -> real) returns (status: Outcome)
    requires Ready(df.Snap()) && 1 <= k <= 3
    modifies df
    ensures (status, df.Snap()) == EwComponentSpec(old(df.Snap()), k, sqrt)
  {
    ghost var v := df.Snap();
    var n := df.nrows;
    var ha, he, ew, er := Comp(Halpha, k), Comp(HalphaErr, k), Comp(HalphaEw, k), Comp(HalphaEwErr, k);
    if ha !in df.num {
      return Fail(KeyError(ha));
    }
    if he !in df.num {
      return Fail(KeyError(he));
    }
    var flux, fluxErr, cont, contErr := df.num[ha], df.num[he], df.num[Cont], df.num[ContErr];
    var ew1 := seq(n, i requires 0 <= i < n => Div(flux[i], cont[i]));
    df.SetNum(ew, ew1);
    var er1 := seq(n, i requires 0 <= i < n =>
      Mul(ew1[i], Sqrt(Add(Square(Div(fluxErr[i], flux[i])), Square(Div(contErr[i], cont[i]))), sqrt)));
    df.SetNum(er, er1);
    var bad := seq(n, i requires 0 <= i < n => Le(cont[i], Val(0.0)));
    var ew2, er2 := MaskCells(ew1, bad), MaskCells(er1, bad);
    df.SetNum(ew, ew2);
    df.SetNum(er, er2);
    WithNumPairTwice(v, ew, er, ew1, er1, ew2, er2);
    assert ew2 == EwColumn(flux, cont);
    assert er2 == EwErrColumn(flux, fluxErr, cont, contErr, sqrt);
    status := Pass;
  }

  /** `pd.to_numeric` of the continuum columns, the clip at 0, then the loop over the components. */
  method EquivalentWidths(df: Frame, nc: Components, sqrt: real -> real) returns (status: Outcome)
    requires df.Valid()
    modifies df
    ensures (status, df.Snap()) == EwSpec(old(df.Snap()), nc, sqrt)
  {
    if Cont !in df.num {
      return Fail(KeyError(Cont));
    }
    if ContErr !in df.num {
      return Fail(KeyError(ContErr));
    }
    if ContStd !in df.num {
      return Fail(KeyError(ContStd));
    }
    var n := df.nrows;
    var cont := df.num[Cont];
    var below := seq(n, i requires 0 <= i < n => Lt(cont[i], Val(0.0)));
    df.SetNum(Cont, Overwrite(cont, below, seq(n, _ => Val(0.0))));
    assert df.num[Cont] == ClipAll(cont);
    status := EwComponents(df, Fitted(nc), sqrt);
  }

  /** `for nn in range(...)`: the EW columns of the first m components. */
  method EwComponents(df: Frame, m: nat, sqrt: real -> real) returns (status: Outcome)
    requires Ready(df.Snap()) && m <= 3
    modifies df
    ensures (status, df.Snap()) == EwFrom(old(df.Snap()), 0, m, sqrt)
  {
    for k := 0 to m
      invariant Ready(df.Snap()) && EwFrom(old(df.Snap()), 0, m, sqrt) == EwFrom(df.Snap(), k, m, sqrt)
    {
      status := EwComponent(df, k + 1, sqrt);
      if status.Fail? {
        return;
      }
    }
    status := Pass;
  }

  // ---- What the EW step guarantees ----

  /** Two component columns of one quantity are the same name only for the same component. */
  lemma CompInjective(q: string, j: nat, l: nat)
    requires 1 <= j <= 3 && 1 <= l <= 3
    ensures Comp(q, j) == Comp(q, l) ==> j == l
  {
    assert Comp(q, j)[|q| + 12] == Digit(j)[0];
    assert Comp(q, l)[|q| + 12] == Digit(l)[0];
  }

  /** Clipping twice is clipping once. */
  lemma ClipIdempotent(col: seq<Num>)
    ensures ClipAll(ClipAll(col)) == ClipAll(col)
  {
  }

  /** A column name that component j's EW pass writes. */
  predicate WrittenBy(c: string, j: nat)
    requires 1 <= j <= 3
  {
    c == Comp(HalphaEw, j) || c == Comp(HalphaEwErr, j)
  }

  /** One pass fails exactly when one of the component's flux columns is missing; otherwise it writes the component's two EW columns and nothing else. */
  lemma EwComponentMeaning(v: Snapshot, k: nat, sqrt: real -> real)
    requires Ready(v) && 1 <= k <= 3
    ensures var (o, w) := EwComponentSpec(v, k, sqrt);
      && (o.Fail? <==> Comp(Halpha, k) !in v.num || Comp(HalphaErr, k) !in v.num)
      && (o.Fail? ==> o.error.KeyError? && w == v)
      && (o.Pass? ==>
            && Comp(Halpha, k) in v.num && Comp(HalphaErr, k) in v.num
            && w.num == v.num[Comp(HalphaEw, k) := EwColumn(v.num[Comp(Halpha, k)], v.num[Cont])]
                             [Comp(HalphaEwErr, k) := EwErrColumn(v.num[Comp(Halpha, k)], v.num[Comp(HalphaErr, k)], v.num[Cont], v.num[ContErr], sqrt)])
  {
  }

  /**
   * The passes for components k + 1 to m keep every numeric column that none
   * of them writes.
   */
  lemma {:induction false} EwFromKeeps(v: Snapshot, k: nat, m: nat, sqrt: real -> real, c: string)
    requires Ready(v) && k <= m <= 3
    requires c in v.num && forall j :: k < j <= m ==> !WrittenBy(c, j)
    ensures var w := EwFrom(v, k, m, sqrt).1; c in w.num && w.num[c] == v.num[c]
    decreases m - k
  {
    if k < m {
      assert !WrittenBy(c, k + 1);
      var r1 := EwComponentSpec(v, k + 1, sqrt);
      if r1.0.Pass? {
        assert EwFrom(v, k, m, sqrt) == EwFrom(r1.1, k + 1, m, sqrt);
        EwFromKeeps(r1.1, k + 1, m, sqrt, c);
      }
    }
  }

  /** A pass keeps the flux columns of every component and the continuum columns. */
  lemma StepKeepsFlux(v: Snapshot, k: nat, sqrt: real -> real, j: nat)
    requires Ready(v) && 1 <= k <= 3 && 1 <= j <= 3
    requires Comp(Halpha, j) in v.num && Comp(HalphaErr, j) in v.num
    ensures var w := EwComponentSpec(v, k, sqrt).1;
      && Comp(Halpha, j) in w.num && w.num[Comp(Halpha, j)] == v.num[Comp(Halpha, j)]
      && Comp(HalphaErr, j) in w.num && w.num[Comp(HalphaErr, j)] == v.num[Comp(HalphaErr, j)]
  {
    FluxNotWritten(j, k);
  }

  /** The flux columns are never among the columns an EW pass writes. */
  lemma FluxNotWritten(j: nat, l: nat)
    requires 1 <= j <= 3 && 1 <= l <= 3
    ensures !WrittenBy(Comp(Halpha, j), l) && !WrittenBy(Comp(HalphaErr, j), l)
    ensures !WrittenBy(Cont, l) && !WrittenBy(ContErr, l)
  {
    assert |Comp(Halpha, j)| == 20 && |Comp(HalphaErr, j)| == 26;
    assert |Comp(HalphaEw, l)| == 23 && |Comp(HalphaEwErr, l)| == 29;
  }

  /** The passes for components k + 1 to m succeed only if all their flux columns are there. */
  lemma {:induction false} EwFromNeeds(v: Snapshot, k: nat, m: nat, sqrt: real -> real, j: nat)
    requires Ready(v) && k < j <= m <= 3 && EwFrom(v, k, m, sqrt).0.Pass?
    ensures Comp(Halpha, j) in v.num && Comp(HalphaErr, j) in v.num
    decreases m - k
  {
    var r1 := EwComponentSpec(v, k + 1, sqrt);
    assert r1.0.Pass?;
    if j > k + 1 {
      assert EwFrom(v, k, m, sqrt) == EwFrom(r1.1, k + 1, m, sqrt);
      EwFromNeeds(r1.1, k + 1, m, sqrt, j);
      FluxNotWritten(j, k + 1);
    }
  }

  /** The passes for components k + 1 to m succeed if all their flux columns are there. */
  lemma {:induction false} EwFromPasses(v: Snapshot, k: nat, m: nat, sqrt: real -> real)
    requires Ready(v) && k <= m <= 3
    requires forall j :: k < j <= m ==> Comp(Halpha, j) in v.num && Comp(HalphaErr, j) in v.num
    ensures EwFrom(v, k, m, sqrt).0.Pass?
    decreases m - k
  {
    if k < m {
      var r1 := EwComponentSpec(v, k + 1, sqrt);
      assert r1.0.Pass?;
      var w1 := r1.1;
      forall j | k + 1 < j <= m
        ensures Comp(Halpha, j) in w1.num && Comp(HalphaErr, j) in w1.num
      {
        FluxNotWritten(j, k + 1);
      }
      EwFromPasses(w1, k + 1, m, sqrt);
    }
  }

  /** Component j's EW columns in w hold the EW and its error computed from the flux and continuum columns of v. */
  predicate Wrote(v: Snapshot, w: Snapshot, j: nat, sqrt: real -> real)
    requires Ready(v) && 1 <= j <= 3
  {
    && Comp(Halpha, j) in v.num && Comp(HalphaErr, j) in v.num
    && Comp(HalphaEw, j) in w.num && Comp(HalphaEwErr, j) in w.num
    && w.num[Comp(HalphaEw, j)] == EwColumn(v.num[Comp(Halpha, j)], v.num[Cont])
    && w.num[Comp(HalphaEwErr, j)] == EwErrColumn(v.num[Comp(Halpha, j)], v.num[Comp(HalphaErr, j)], v.num[Cont], v.num[ContErr], sqrt)
  }

  /** The passes for components k + 1 to m succeed, and j is one of them. */
  predicate WritesCase(v: Snapshot, k: nat, m: nat, sqrt: real -> real, j: nat)
  {
    && Ready(v) && k < j <= m <= 3 && EwFrom(v, k, m, sqrt).0.Pass?
    && Comp(Halpha, j) in v.num && Comp(HalphaErr, j) in v.num
  }

  /** When the passes for components k + 1 to m all succeed, component k + 1's EW columns hold what its pass computed. */
  lemma EwFromWritesFirst(v: Snapshot, k: nat, m: nat, sqrt: real -> real)
    requires Ready(v) && k < m <= 3 && EwFrom(v, k, m, sqrt).0.Pass?
    requires Comp(Halpha, k + 1) in v.num && Comp(HalphaErr, k + 1) in v.num
    ensures Wrote(v, EwFrom(v, k, m, sqrt).1, k + 1, sqrt)
  {
    var w1 := EwComponentSpec(v, k + 1, sqrt).1;
    assert EwFrom(v, k, m, sqrt) == EwFrom(w1, k + 1, m, sqrt);
    EwFromKeepsOwn(w1, k + 1, m, sqrt, HalphaEw, k + 1);
    EwFromKeepsOwn(w1, k + 1, m, sqrt, HalphaEwErr, k + 1);
  }

  /** Component j's EW columns, once written, are kept by the passes for the later components. */
  lemma {:induction false} EwFromKeepsOwn(v: Snapshot, k: nat, m: nat, sqrt: real -> real, q: string, j: nat)
    requires Ready(v) && k <= m <= 3 && (q == HalphaEw || q == HalphaEwErr)
    requires 1 <= j <= k && Comp(q, j) in v.num
    ensures var w := EwFrom(v, k, m, sqrt).1; Comp(q, j) in w.num && w.num[Comp(q, j)] == v.num[Comp(q, j)]
    decreases m - k
  {
    if k < m {
      CompInjective(q, j, k + 1);
      assert |Comp(HalphaEw, k + 1)| == 23 && |Comp(HalphaEwErr, k + 1)| == 29;
      var r1 := EwComponentSpec(v, k + 1, sqrt);
      if r1.0.Pass? {
        assert EwFrom(v, k, m, sqrt) == EwFrom(r1.1, k + 1, m, sqrt);
        EwFromKeepsOwn(r1.1, k + 1, m, sqrt, q, j);
      }
    }
  }

  /** When the passes for components k + 1 to m all succeed, component j's EW columns hold the EW and its error computed from the columns as they were. */
  lemma {:induction false} EwFromWrites(v: Snapshot, k: nat, m: nat, sqrt: real -> real, j: nat)
    requires WritesCase(v, k, m, sqrt, j)
    ensures Wrote(v, EwFrom(v, k, m, sqrt).1, j, sqrt)
    decreases m - k, 1
  {
    if j == k + 1 {
      EwFromWritesFirst(v, k, m, sqrt);
    } else {
      EwFromWritesLater(v, k, m, sqrt, j);
    }
  }

  /** The same for a component after k + 1: its pass reads flux and continuum columns the pass of component k + 1 left alone. */
  lemma {:induction false} EwFromWritesLater(v: Snapshot, k: nat, m: nat, sqrt: real -> real, j: nat)
    requires WritesCase(v, k, m, sqrt, j) && k + 1 < j
    ensures Wrote(v, EwFrom(v, k, m, sqrt).1, j, sqrt)
    decreases m - k, 0
  {
    LaterCase(v, k, m, sqrt, j);
    EwFromWrites(EwComponentSpec(v, k + 1, sqrt).1, k + 1, m, sqrt, j);
  }

  /** Component k + 1's pass passes, leaves the rest of the loop to run from its result, and keeps component j's flux columns. */
  lemma LaterCase(v: Snapshot, k: nat, m: nat, sqrt: real -> real, j: nat)
    requires WritesCase(v, k, m, sqrt, j) && k + 1 < j
    ensures var w1 := EwComponentSpec(v, k + 1, sqrt).1;
      && WritesCase(w1, k + 1, m, sqrt, j) && EwFrom(v, k, m, sqrt) == EwFrom(w1, k + 1, m, sqrt)
      && w1.num[Comp(Halpha, j)] == v.num[Comp(Halpha, j)] && w1.num[Comp(HalphaErr, j)] == v.num[Comp(HalphaErr, j)]
  {
    EwFromNeeds(v, k, m, sqrt, k + 1);
    StepKeepsFlux(v, k + 1, sqrt, j);
  }

  /** The clipped frame the component loop starts from, when the continuum columns are there. */
  function Clipped(v: Snapshot): (u: Snapshot)
    requires v.Valid() && Cont in v.num && ContErr in v.num
    ensures Ready(u) && u.nrows == v.nrows && u.num[Cont] == ClipAll(v.num[Cont]) && u.num[ContErr] == v.num[ContErr]
    ensures forall c :: c in v.num && c != Cont ==> c in u.num && u.num[c] == v.num[c]
  {
    v.WithNum(Cont, ClipAll(v.num[Cont]))
  }

  /** The flux columns are not the continuum column the clip rewrites. */
  lemma FluxNotCont(j: nat)
    requires 1 <= j <= 3
    ensures Comp(Halpha, j) != Cont && Comp(HalphaErr, j) != Cont
  {
    assert |Comp(Halpha, j)| == 20 && |Comp(HalphaErr, j)| == 26;
  }

  /** The EW step fails, with a KeyError, exactly when a continuum column or a flux column of a fitted component is missing. */
  lemma EwStepFails(v: Snapshot, nc: Components, sqrt: real -> real)
    requires v.Valid()
    ensures var o := EwSpec(v, nc, sqrt).0;
      && (o.Fail? <==> Cont !in v.num || ContErr !in v.num || ContStd !in v.num
                       || exists j :: 0 < j <= Fitted(nc) && (Comp(Halpha, j) !in v.num || Comp(HalphaErr, j) !in v.num))
      && (o.Fail? ==> o.error.KeyError?)
  {
    if Cont in v.num && ContErr in v.num && ContStd in v.num {
      var u, m := Clipped(v), Fitted(nc);
      if forall j :: 0 < j <= m ==> Comp(Halpha, j) in v.num && Comp(HalphaErr, j) in v.num {
        forall j | 0 < j <= m
          ensures Comp(Halpha, j) in u.num && Comp(HalphaErr, j) in u.num
        {
          FluxNotCont(j);
        }
        EwFromPasses(u, 0, m, sqrt);
      } else {
        var j :| 0 < j <= m && (Comp(Halpha, j) !in v.num || Comp(HalphaErr, j) !in v.num);
        FluxNotCont(j);
        if EwFrom(u, 0, m, sqrt).0.Pass? {
          EwFromNeeds(u, 0, m, sqrt, j);
        }
      }
    }
  }

  /** The EW step changes no numeric column but the continuum and the EW columns of the fitted components. */
  lemma EwStepKeeps(v: Snapshot, nc: Components, sqrt: real -> real)
    requires v.Valid()
    ensures var w := EwSpec(v, nc, sqrt).1;
      forall c :: c in v.num && c != Cont && (forall j :: 0 < j <= Fitted(nc) ==> !WrittenBy(c, j)) ==> c in w.num && w.num[c] == v.num[c]
  {
    if Cont in v.num && ContErr in v.num && ContStd in v.num {
      var u, m := Clipped(v), Fitted(nc);
      forall c | c in v.num && c != Cont && (forall j :: 0 < j <= m ==> !WrittenBy(c, j))
        ensures var w := EwFrom(u, 0, m, sqrt).1; c in w.num && w.num[c] == v.num[c]
      {
        EwFromKeeps(u, 0, m, sqrt, c);
      }
    }
  }

  /**
   * When the EW step passes, the continuum is clipped at 0 and every fitted
   * component's EW and EW error are computed from its flux and the clipped
   * continuum.
   */
  lemma EwStepWrites(v: Snapshot, nc: Components, sqrt: real -> real, j: nat)
    requires v.Valid() && 0 < j <= Fitted(nc) && EwSpec(v, nc, sqrt).0.Pass?
    ensures Cont in v.num && ContErr in v.num && Comp(Halpha, j) in v.num && Comp(HalphaErr, j) in v.num
    ensures var w := EwSpec(v, nc, sqrt).1;
      && Cont in w.num && w.num[Cont] == ClipAll(v.num[Cont])
      && Comp(HalphaEw, j) in w.num && Comp(HalphaEwErr, j) in w.num
      && w.num[Comp(HalphaEw, j)] == EwColumn(v.num[Comp(Halpha, j)], ClipAll(v.num[Cont]))
      && w.num[Comp(HalphaEwErr, j)] == EwErrColumn(v.num[Comp(Halpha, j)], v.num[Comp(HalphaErr, j)], ClipAll(v.num[Cont]), v.num[ContErr], sqrt)
  {
    var u, m := Clipped(v), Fitted(nc);
    EwFromNeeds(u, 0, m, sqrt, j);
    FluxNotCont(j);
    EwFromWrites(u, 0, m, sqrt, j);
  }
}
