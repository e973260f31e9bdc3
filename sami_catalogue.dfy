/**
 * The SAMI metadata catalogue steps of spaxelsleuth/io/sami.py that rewrite
 * columns: the merged morphology categories, the choice between SDSS and VST
 * MGE fits for galaxies that have both, and the redshift column chosen from
 * the flow-corrected and spectroscopic redshifts.
 */
module SamiCatalogue {
  import opened Numeric
  import opened Outcomes
  import opened Table

  // ---- Morphology categories ----

  const Morphology := "Morphology (numeric)"

  /** The category "?" and "no agreement" share, and the codes that are merged into it. */
  const Unsure := Val(-0.5)

  /** The merged code of one galaxy: 5 ("?"), -9 ("no agreement") and a missing value become -0.5. */
  function Recode(x: Num): Num
  {
    if x == Val(5.0) || x == Val(-9.0) || x.NaN? then Unsure else x
  }

  function RecodeAll(col: seq<Num>): (r: seq<Num>)
    ensures |r| == |col| && forall i :: 0 <= i < |col| ==> r[i] == Recode(col[i])
  {
    seq(|col|, i requires 0 <= i < |col| => Recode(col[i]))
  }

  /** The three masked assignments as written: the third compares with `np.nan`, which nothing equals. */
  function MorphologyAsWritten(col: seq<Num>): (r: seq<Num>)
    ensures |r| == |col|
  {
    var c1 := Overwrite(col, EqMask(col, Val(5.0)), seq(|col|, _ => Unsure));
    var c2 := Overwrite(c1, EqMask(c1, Val(-9.0)), seq(|col|, _ => Unsure));
    Overwrite(c2, EqMask(c2, NaN), seq(|col|, _ => Unsure))
  }

  /** As written, a galaxy without a morphology keeps NaN rather than joining the merged category. */
  lemma MorphologyAsWrittenKeepsNaN(col: seq<Num>)
    ensures forall i :: 0 <= i < |col| && col[i].NaN? ==> MorphologyAsWritten(col)[i].NaN?
    ensures MorphologyAsWritten([NaN]) == [NaN]
  {
  }

  /**
   * The corrected stage: the third mask tests for a missing value, where the
   * source's `== np.nan` matches nothing (see MorphologyAsWritten). The rest
   * of the model uses this version.
   */
  function MorphologySpec(v: Snapshot): (r: (Outcome, Snapshot))
    requires v.Valid()
  {
    if Morphology !in v.num then (Fail(KeyError(Morphology)), v)
    else (Pass, v.WithNum(Morphology, RecodeAll(v.num[Morphology])))
  }

  /**
   * After the stage no galaxy is coded 5, -9 or NaN; the cells coded so
   * become -0.5 and every other cell keeps its code; every other column is
   * untouched; and running the stage again changes nothing.
   */
  lemma MorphologyMerged(v: Snapshot)
    requires v.Valid() && Morphology in v.num
    ensures var w := MorphologySpec(v).1;
      && MorphologySpec(v).0 == Pass && w.Valid() && w.nrows == v.nrows
      && w.text == v.text - {Morphology} && w.flag == v.flag - {Morphology}
      && (forall c :: c in v.num && c != Morphology ==> c in w.num && w.num[c] == v.num[c])
      && Morphology in w.num
      && (forall i :: 0 <= i < v.nrows ==>
            var x := v.num[Morphology][i];
            w.num[Morphology][i] == (if x == Val(5.0) || x == Val(-9.0) || x.NaN? then Val(-0.5) else x)
            && w.num[Morphology][i] != Val(5.0) && w.num[Morphology][i] != Val(-9.0) && !w.num[Morphology][i].NaN?)
      && MorphologySpec(w) == (Pass, w)
  {
    var w := MorphologySpec(v).1;
    assert RecodeAll(w.num[Morphology]) == w.num[Morphology];
    assert w.WithNum(Morphology, w.num[Morphology]) == w;
  }

  /** The three masked assignments to the morphology column, with the corrected NaN test. */
  method MergeMorphologies(df: Frame) returns (status: Outcome)
    requires df.Valid()
    modifies df
    ensures (status, df.Snap()) == MorphologySpec(old(df.Snap()))
  {
    if Morphology !in df.num {
      return Fail(KeyError(Morphology));
    }
    var n := df.nrows;
    var unsure := seq(n, _ => Unsure);
    var col := df.num[Morphology];
    ghost var v, col0 := df.Snap(), col;
    var c1 := Overwrite(col, EqMask(col, Val(5.0)), unsure);
    df.SetNum(Morphology, c1);
    assert df.Snap() == v.WithNum(Morphology, c1);
    var c2 := Overwrite(c1, EqMask(c1, Val(-9.0)), unsure);
    df.SetNum(Morphology, c2);
    WithNumTwice(v, Morphology, c1, c2);
    assert df.Snap() == v.WithNum(Morphology, c2);
    var c3 := Overwrite(c2, NaNMask(c2), unsure);
    df.SetNum(Morphology, c3);
    WithNumTwice(v, Morphology, c2, c3);
    assert df.Snap() == v.WithNum(Morphology, c3);
    assert c3 == RecodeAll(col0);
    status := Pass;
  }

  // ---- MGE photometry: SDSS or VST ----

  /** Python's `a < b` on strings: code point by code point, a proper prefix first. */
  predicate StrLt(a: string, b: string)
  {
    if a == [] then b != []
    else if b == [] then false
    else if a[0] != b[0] then a[0] < b[0]
    else StrLt(a[1..], b[1..])
  }

  predicate StrLe(a: string, b: string)
  {
    a == b || StrLt(a, b)
  }

  /** One row of the MGE fits table: its catid (the index) and the survey the fit used. */
  datatype MgeRow = MgeRow(catid: int, photometry: string)

  /** `df.sort_values(by="photometry")`: any ordering of the same rows with the photometry non-decreasing. */
  predicate SortedByPhotometry(rows: seq<MgeRow>, sorted: seq<MgeRow>)
  {
    && multiset(sorted) == multiset(rows)
    && forall i, j :: 0 <= i < j < |sorted| ==> StrLe(sorted[i].photometry, sorted[j].photometry)
  }

  /** `~df.index.duplicated(keep="last")` at position k: no later row has the same catid. */
  predicate LastOfCatid(sorted: seq<MgeRow>, k: int)
    requires 0 <= k < |sorted|
  {
    forall j :: k < j < |sorted| ==> sorted[j].catid != sorted[k].catid
  }

  /** `df[~bad_rows]` */
  function KeepLast(sorted: seq<MgeRow>): (r: seq<MgeRow>)
    ensures forall x :: x in r ==> x in sorted
    decreases |sorted|
  {
    if sorted == [] then []
    else if (exists j :: 0 < j < |sorted| && sorted[j].catid == sorted[0].catid) then KeepLast(sorted[1..])
    else [sorted[0]] + KeepLast(sorted[1..])
  }

  /** The catids of the VST rows of `part`, in order, that have an SDSS row somewhere in `all`. */
  function VstAlsoSdss(all: seq<MgeRow>, part: seq<MgeRow>): (r: seq<int>)
    ensures forall g :: g in r <==>
      (exists x :: x in part && x.catid == g && x.photometry == "VST") && (exists x :: x in all && x.catid == g && x.photometry == "SDSS")
  {
    if part == [] then []
    else
      var rest := VstAlsoSdss(all, part[1..]);
      assert forall x :: x in part <==> x == part[0] || x in part[1..];
      if part[0].photometry == "VST" && (exists x :: x in all && x.catid == part[0].catid && x.photometry == "SDSS")
      then [part[0].catid] + rest
      else rest
  }

  /** `gals_vst_and_sdss`: the galaxies with both a VST and an SDSS fit. */
  function BothSurveys(rows: seq<MgeRow>): seq<int>
  {
    VstAlsoSdss(rows, rows)
  }

  /** `df_mge.loc[gal, "photometry"]` once the catids are unique. */
  function PhotometryOf(kept: seq<MgeRow>, gal: int): (r: Option<string>)
    ensures r.Some? <==> exists x :: x in kept && x.catid == gal
  {
    if kept == [] then None
    else if kept[0].catid == gal then Some(kept[0].photometry)
    else PhotometryOf(kept[1..], gal)
  }

  /** The whole step from the sorted table: drop all but the last row per galaxy, then check VST won. */
  function MgeSpec(rows: seq<MgeRow>, sorted: seq<MgeRow>): (r: Result<seq<MgeRow>>)
  {
    var kept := KeepLast(sorted);
    if exists g :: g in BothSurveys(rows) && PhotometryOf(kept, g) != Some("VST")
    then Failure(AssertionError("photometry"))
    else Success(kept)
  }

  /** `assert df_mge.loc[gal, "photometry"] == "VST"` for every galaxy with both fits. */
  method DropDuplicateFits(rows: seq<MgeRow>, sorted: seq<MgeRow>) returns (r: Result<seq<MgeRow>>)
    ensures r == MgeSpec(rows, sorted)
  {
    var kept := KeepLast(sorted);
    var gals := BothSurveys(rows);
    for k := 0 to |gals|
      invariant forall j :: 0 <= j < k ==> PhotometryOf(kept, gals[j]) == Some("VST")
    {
      if PhotometryOf(kept, gals[k]) != Some("VST") {
        return Failure(AssertionError("photometry"));
      }
    }
    r := Success(kept);
  }

  /** A kept row is a row of the sorted table with no later row of its galaxy. */
  lemma {:induction false} KeptIsLast(sorted: seq<MgeRow>)
    ensures forall y :: y in KeepLast(sorted) ==> exists k :: 0 <= k < |sorted| && sorted[k] == y && LastOfCatid(sorted, k)
    decreases |sorted|
  {
    if sorted != [] {
      var tail := sorted[1..];
      KeptIsLast(tail);
      forall y | y in KeepLast(tail)
        ensures exists k :: 0 <= k < |sorted| && sorted[k] == y && LastOfCatid(sorted, k)
      {
        var k :| 0 <= k < |tail| && tail[k] == y && LastOfCatid(tail, k);
        assert sorted[k + 1] == y && LastOfCatid(sorted, k + 1);
      }
      if !(exists j :: 0 < j < |sorted| && sorted[j].catid == sorted[0].catid) {
        assert LastOfCatid(sorted, 0);
      }
    }
  }

  /** No two kept rows belong to the same galaxy. */
  lemma {:induction false} KeptUnique(sorted: seq<MgeRow>)
    ensures forall i, j :: 0 <= i < j < |KeepLast(sorted)| ==> KeepLast(sorted)[i].catid != KeepLast(sorted)[j].catid
    decreases |sorted|
  {
    if sorted != [] {
      var tail := sorted[1..];
      KeptUnique(tail);
      if !(exists j :: 0 < j < |sorted| && sorted[j].catid == sorted[0].catid) {
        forall y | y in KeepLast(tail)
          ensures y.catid != sorted[0].catid
        {
          var j :| 0 <= j < |tail| && tail[j] == y;
          assert sorted[j + 1] == y;
        }
        var r := KeepLast(sorted);
        assert r == [sorted[0]] + KeepLast(tail);
        forall i, j | 0 <= i < j < |r|
          ensures r[i].catid != r[j].catid
        {
          if i == 0 {
            assert r[j] in KeepLast(tail);
          } else {
            assert r[i] == KeepLast(tail)[i - 1] && r[j] == KeepLast(tail)[j - 1];
          }
        }
      }
    }
  }

  /** Every galaxy of the sorted table keeps a row. */
  lemma {:induction false} KeptCovers(sorted: seq<MgeRow>)
    ensures forall x :: x in sorted ==> exists y :: y in KeepLast(sorted) && y.catid == x.catid
    decreases |sorted|
  {
    if sorted != [] {
      var tail := sorted[1..];
      KeptCovers(tail);
      forall x | x in sorted
        ensures exists y :: y in KeepLast(sorted) && y.catid == x.catid
      {
        if x != sorted[0] {
          assert x in tail;
        } else if exists j :: 0 < j < |sorted| && sorted[j].catid == sorted[0].catid {
          var j :| 0 < j < |sorted| && sorted[j].catid == sorted[0].catid;
          assert sorted[j] in tail;
        }
      }
    }
  }

  /** Each galaxy of the sorted table keeps exactly one row, and the row it keeps is its last. */
  lemma KeepLastMeaning(sorted: seq<MgeRow>)
    ensures forall i, j :: 0 <= i < j < |KeepLast(sorted)| ==> KeepLast(sorted)[i].catid != KeepLast(sorted)[j].catid
    ensures forall x :: x in sorted ==> exists y :: y in KeepLast(sorted) && y.catid == x.catid
    ensures forall y :: y in KeepLast(sorted) ==> exists k :: 0 <= k < |sorted| && sorted[k] == y && LastOfCatid(sorted, k)
  {
    KeptIsLast(sorted);
    KeptUnique(sorted);
    KeptCovers(sorted);
  }

  /**
   * The row kept for a galaxy carries the greatest photometry of that galaxy
   * (in Python's string order), since the sort put it last.
   */
  lemma KeptIsGreatest(rows: seq<MgeRow>, sorted: seq<MgeRow>, y: MgeRow, x: MgeRow)
    requires SortedByPhotometry(rows, sorted)
    requires y in KeepLast(sorted) && x in rows && x.catid == y.catid
    ensures StrLe(x.photometry, y.photometry)
  {
    KeepLastMeaning(sorted);
    var k :| 0 <= k < |sorted| && sorted[k] == y && LastOfCatid(sorted, k);
    assert x in multiset(sorted);
    var j :| 0 <= j < |sorted| && sorted[j] == x;
    if j < k {
      assert StrLe(sorted[j].photometry, sorted[k].photometry);
    }
  }

  lemma PhotometryOfFound(kept: seq<MgeRow>, y: MgeRow)
    requires y in kept
    requires forall i, j :: 0 <= i < j < |kept| ==> kept[i].catid != kept[j].catid
    ensures PhotometryOf(kept, y.catid) == Some(y.photometry)
  {
    if kept[0] != y {
      assert y in kept[1..];
      assert kept[0].catid != y.catid by {
        var j :| 0 <= j < |kept| && kept[j] == y;
      }
      PhotometryOfFound(kept[1..], y);
    }
  }

  /** "SDSS" sorts before "VST". */
  lemma SurveyOrder()
    ensures !StrLe("VST", "SDSS")
  {
    assert "VST"[0] == 'V' && "SDSS"[0] == 'S';
  }

  /** Of the two surveys, only "VST" is at least "VST". */
  lemma OnlyVstAbove(p: string)
    ensures (p == "SDSS" || p == "VST") && StrLe("VST", p) ==> p == "VST"
  {
    SurveyOrder();
  }

  lemma KeptFor(sorted: seq<MgeRow>, x: MgeRow) returns (y: MgeRow)
    requires x in sorted
    ensures y in KeepLast(sorted) && y.catid == x.catid
  {
    KeptCovers(sorted);
    y :| y in KeepLast(sorted) && y.catid == x.catid;
  }

  /** The row a galaxy keeps: one of its rows, with a photometry at least that of any of them. */
  lemma KeptRowOf(rows: seq<MgeRow>, sorted: seq<MgeRow>, x: MgeRow) returns (y: MgeRow)
    requires SortedByPhotometry(rows, sorted) && x in rows
    ensures y in KeepLast(sorted) && y in rows && y.catid == x.catid
    ensures StrLe(x.photometry, y.photometry)
  {
    assert x in multiset(sorted);
    y := KeptFor(sorted, x);
    KeptIsGreatest(rows, sorted, y, x);
    assert y in sorted;
    assert y in multiset(rows);
  }

  /** A galaxy with a VST fit keeps a VST fit when the only other survey is SDSS. */
  lemma VstKeptAt(rows: seq<MgeRow>, sorted: seq<MgeRow>, x: MgeRow)
    requires SortedByPhotometry(rows, sorted)
    requires forall z :: z in rows ==> z.photometry == "SDSS" || z.photometry == "VST"
    requires x in rows && x.photometry == "VST"
    ensures PhotometryOf(KeepLast(sorted), x.catid) == Some("VST")
  {
    var y := KeptRowOf(rows, sorted, x);
    OnlyVstAbove(y.photometry);
    KeptUnique(sorted);
    PhotometryOfFound(KeepLast(sorted), y);
  }

  /**
   * When every fit is SDSS or VST (the two surveys the catalogue holds), the
   * check after the de-duplication always passes: a galaxy with both keeps
   * its VST fit, because "SDSS" sorts before "VST".
   */
  lemma VstKept(rows: seq<MgeRow>, sorted: seq<MgeRow>)
    requires SortedByPhotometry(rows, sorted)
    requires forall x :: x in rows ==> x.photometry == "SDSS" || x.photometry == "VST"
    ensures MgeSpec(rows, sorted).Success?
  {
    forall g | g in BothSurveys(rows)
      ensures PhotometryOf(KeepLast(sorted), g) == Some("VST")
    {
      var x :| x in rows && x.catid == g && x.photometry == "VST";
      VstKeptAt(rows, sorted, x);
    }
  }

  // ---- Redshifts ----

  const FlowZ := "z (flow-corrected)"
  const SpecZ := "z (spectroscopic)"
  const ClusterMember := "Cluster member"

  /** The redshift a galaxy ends up with: flow-corrected where there is one, spectroscopic otherwise. */
  function ChosenZ(flow: Num, spec: Num): Num
  {
    if flow.NaN? then spec else flow
  }

  function ChooseAll(flow: seq<Num>, spec: seq<Num>): (r: seq<Num>)
    requires |spec| == |flow|
    ensures |r| == |flow| && forall i :: 0 <= i < |flow| ==> r[i] == ChosenZ(flow[i], spec[i])
  {
    seq(|flow|, i requires 0 <= i < |flow| => ChosenZ(flow[i], spec[i]))
  }

  /** The step's effect on the catalogue: column "z" chosen per galaxy, then the cluster-member check. */
  function RedshiftSpec(v: Snapshot): (r: (Outcome, Snapshot))
    requires v.Valid()
  {
    if FlowZ !in v.num then (Fail(KeyError(FlowZ)), v)
    else if SpecZ !in v.num then (Fail(KeyError(SpecZ)), v)
    else
      var flow, spec := v.num[FlowZ], v.num[SpecZ];
      var w := v.WithNum("z", ChooseAll(flow, spec));
      if ClusterMember !in v.num then (Fail(KeyError(ClusterMember)), w)
      else if exists i :: 0 <= i < v.nrows && Eq(v.num[ClusterMember][i], Val(1.0)) && !flow[i].NaN?
      then (Fail(AssertionError("cluster member with a flow-corrected redshift")), w)
      else (Pass, w)
  }

  /**
   * `df.loc[cond_has_no_Tonry_z, "z"] = ...` and `df.loc[~cond_has_no_Tonry_z, "z"] = ...`,
   * then the check that no cluster member has a flow-corrected redshift.
   */
  method AssignRedshifts(df: Frame) returns (status: Outcome)
    requires df.Valid()
    modifies df
    ensures (status, df.Snap()) == RedshiftSpec(old(df.Snap()))
  {
    if FlowZ !in df.num {
      return Fail(KeyError(FlowZ));
    }
    if SpecZ !in df.num {
      return Fail(KeyError(SpecZ));
    }
    var n := df.nrows;
    var flow, spec := df.num[FlowZ], df.num[SpecZ];
    ghost var v := df.Snap();
    var noTonry := NaNMask(flow);
    var notNoTonry := seq(n, i requires 0 <= i < n => !noTonry[i]);
    var z1 := Overwrite(Prior(df.Snap(), "z"), noTonry, spec);
    df.SetNum("z", z1);
    assert df.Snap() == v.WithNum("z", z1);
    var z2 := Overwrite(z1, notNoTonry, flow);
    df.SetNum("z", z2);
    WithNumTwice(v, "z", z1, z2);
    assert df.Snap() == v.WithNum("z", z2);
    assert z2 == ChooseAll(flow, spec);
    if ClusterMember !in df.num {
      return Fail(KeyError(ClusterMember));
    }
    var member := df.num[ClusterMember];
    if exists i :: 0 <= i < n && Eq(member[i], Val(1.0)) && !flow[i].NaN? {
      return Fail(AssertionError("cluster member with a flow-corrected redshift"));
    }
    status := Pass;
  }

  /**
   * The new "z" takes the flow-corrected redshift where there is one and the
   * spectroscopic one elsewhere, whatever "z" held before; the step fails
   * its check exactly when some cluster member has a flow-corrected
   * redshift; nothing else changes.
   */
  lemma RedshiftMeaning(v: Snapshot)
    requires v.Valid() && FlowZ in v.num && SpecZ in v.num && ClusterMember in v.num
    ensures var (status, w) := RedshiftSpec(v);
      && w.nrows == v.nrows && "z" in w.num
      && (forall i :: 0 <= i < v.nrows ==> w.num["z"][i] == (if v.num[FlowZ][i].NaN? then v.num[SpecZ][i] else v.num[FlowZ][i]))
      && (forall c :: c in v.num && c != "z" ==> c in w.num && w.num[c] == v.num[c])
      && (status.Fail? <==> exists i :: 0 <= i < v.nrows && Eq(v.num[ClusterMember][i], Val(1.0)) && !v.num[FlowZ][i].NaN?)
      && (status.Fail? ==> status.error.AssertionError?)
  {
  }

  /** Whatever column "z" held before the step (or whether it existed) makes no difference to its outcome. */
  lemma RedshiftIgnoresOldZ(v: Snapshot, z: seq<Num>)
    requires v.Valid() && |z| == v.nrows && FlowZ in v.num && SpecZ in v.num
    ensures RedshiftSpec(v.WithNum("z", z)) == RedshiftSpec(v)
  {
    var u := v.WithNum("z", z);
    var col := ChooseAll(v.num[FlowZ], v.num[SpecZ]);
    assert u.num[FlowZ] == v.num[FlowZ] && u.num[SpecZ] == v.num[SpecZ];
    assert u.WithNum("z", col) == v.WithNum("z", col);
  }
}
