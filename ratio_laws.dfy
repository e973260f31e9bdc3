/**
 * What `ratio_fn` guarantees about the columns it touches: the doublet steps
 * never raise and never overwrite an existing column, the split of a
 * combined doublet sums back to it with the fixed line ratio, and the ratio
 * steps never touch a line or doublet column.
 */
module RatioLaws {
  import opened Numeric
  import opened Outcomes
  import opened Table
  import opened Ratios

  function WriteTargets(ws: seq<Assign>): set<string>
  {
    set w | w in ws :: w.target
  }

  /**
   * A guarded branch: each assignment targets a column the guard requires to
   * be absent, and reads only columns the guard requires to be present or
   * that an earlier assignment of the same branch wrote.
   */
  predicate BranchSafe(b: Branch)
  {
    && (forall w :: w in b.writes ==> w.target in b.absent)
    && (forall j :: 0 <= j < |b.writes| ==>
          forall c :: c in Refs(b.writes[j].value) ==> c in b.need || c in WriteTargets(b.writes[..j]))
  }

  predicate Safe(rs: seq<Rule>)
  {
    forall r :: r in rs ==> forall b :: b in r.branches ==> BranchSafe(b)
  }

  /** Every assignment of the rules writes a column of s. */
  predicate TargetsWithin(rs: seq<Rule>, s: set<string>)
  {
    forall r :: r in rs ==> forall b :: b in r.branches ==> forall w :: w in b.writes ==> w.target in s
  }

  /** A branch's assignments add only their targets and change no other column. */
  lemma {:induction false} DoWritesFrame(ws: seq<Assign>, m: Cols, n: nat, log10: real -> real, sqrt: real -> real)
    requires Shaped(m, n)
    ensures m.Keys <= DoWrites(ws, m, n, log10, sqrt).cols.Keys <= m.Keys + WriteTargets(ws)
    ensures forall c :: c in m && c !in WriteTargets(ws) ==> DoWrites(ws, m, n, log10, sqrt).cols[c] == m[c]
  {
    if ws != [] {
      var init := ws[..|ws| - 1];
      DoWritesFrame(init, m, n, log10, sqrt);
      assert WriteTargets(init) + {ws[|ws| - 1].target} == WriteTargets(ws) by {
        assert ws == init + [ws[|ws| - 1]];
      }
    }
  }

  lemma DoRuleFrame(rule: Rule, s: set<string>, m: Cols, n: nat, log10: real -> real, sqrt: real -> real)
    requires Shaped(m, n) && TargetsWithin([rule], s)
    ensures m.Keys <= DoRule(rule, m, n, log10, sqrt).cols.Keys <= m.Keys + s
    ensures forall c :: c in m && c !in s ==> DoRule(rule, m, n, log10, sqrt).cols[c] == m[c]
    ensures Safe([rule]) ==> forall c :: c in m ==> DoRule(rule, m, n, log10, sqrt).cols[c] == m[c]
  {
    match Selected(rule.branches, m.Keys)
    case None =>
    case Some(b) =>
      DoWritesFrame(b.writes, m, n, log10, sqrt);
      assert WriteTargets(b.writes) <= s;
      if Safe([rule]) {
        forall w | w in b.writes ensures w.target !in m {
          assert w.target in b.absent;
        }
      }
  }

  /** The rules add only columns of s and change no column outside s. */
  lemma {:induction false} DoRulesFrame(rs: seq<Rule>, s: set<string>, m: Cols, n: nat, log10: real -> real, sqrt: real -> real)
    requires Shaped(m, n) && TargetsWithin(rs, s)
    ensures m.Keys <= DoRules(rs, m, n, log10, sqrt).cols.Keys <= m.Keys + s
    ensures forall c :: c in m && c !in s ==> DoRules(rs, m, n, log10, sqrt).cols[c] == m[c]
  {
    if rs != [] {
      var init, last := rs[..|rs| - 1], rs[|rs| - 1];
      assert TargetsWithin(init, s) by { assert forall r :: r in init ==> r in rs; }
      DoRulesFrame(init, s, m, n, log10, sqrt);
      var prev := DoRules(init, m, n, log10, sqrt);
      if prev.status.Pass? {
        DoRuleFrame(last, s, prev.cols, n, log10, sqrt);
      }
    }
  }

  lemma {:induction false} DoWritesSafe(ws: seq<Assign>, need: seq<string>, m: Cols, n: nat, log10: real -> real, sqrt: real -> real)
    requires Shaped(m, n) && forall c :: c in need ==> c in m
    requires forall j :: 0 <= j < |ws| ==>
               forall c :: c in Refs(ws[j].value) ==> c in need || c in WriteTargets(ws[..j])
    ensures DoWrites(ws, m, n, log10, sqrt).status.Pass?
    ensures WriteTargets(ws) <= DoWrites(ws, m, n, log10, sqrt).cols.Keys
  {
    if ws != [] {
      var init := ws[..|ws| - 1];
      forall j | 0 <= j < |init|
        ensures forall c :: c in Refs(init[j].value) ==> c in need || c in WriteTargets(init[..j])
      {
        assert init[..j] == ws[..j];
      }
      DoWritesSafe(init, need, m, n, log10, sqrt);
      DoWritesFrame(init, m, n, log10, sqrt);
      assert WriteTargets(init) + {ws[|ws| - 1].target} == WriteTargets(ws) by {
        assert ws == init + [ws[|ws| - 1]];
      }
    }
  }

  /** Guarded rules never raise and never overwrite a column that is already there. */
  lemma {:induction false} DoRulesGuarded(rs: seq<Rule>, m: Cols, n: nat, log10: real -> real, sqrt: real -> real)
    requires Shaped(m, n) && Safe(rs)
    ensures DoRules(rs, m, n, log10, sqrt).status.Pass?
    ensures forall c :: c in m ==> c in DoRules(rs, m, n, log10, sqrt).cols && DoRules(rs, m, n, log10, sqrt).cols[c] == m[c]
  {
    if rs != [] {
      var init, last := rs[..|rs| - 1], rs[|rs| - 1];
      assert Safe(init) by { assert forall r :: r in init ==> r in rs; }
      DoRulesGuarded(init, m, n, log10, sqrt);
      var prev := DoRules(init, m, n, log10, sqrt);
      match Selected(last.branches, prev.cols.Keys)
      case None =>
      case Some(b) =>
        DoWritesSafe(b.writes, b.need, prev.cols, n, log10, sqrt);
        forall w | w in b.writes ensures w.target !in prev.cols {
          assert w.target in b.absent;
        }
        DoWritesFrame(b.writes, prev.cols, n, log10, sqrt);
    }
  }

  /** Running `a + b` is running `a`, then `b` on what `a` left, unless `a` raised. */
  lemma {:induction false} DoRulesAppend(a: seq<Rule>, b: seq<Rule>, m: Cols, n: nat, log10: real -> real, sqrt: real -> real)
    requires Shaped(m, n)
    ensures DoRules(a + b, m, n, log10, sqrt) ==
              (var p := DoRules(a, m, n, log10, sqrt);
               if p.status.Fail? then p else DoRules(b, p.cols, n, log10, sqrt))
  {
    if b == [] {
      assert a + b == a;
    } else {
      var b0 := b[..|b| - 1];
      assert (a + b)[..|a + b| - 1] == a + b0;
      assert (a + b)[|a + b| - 1] == b[|b| - 1];
      DoRulesAppend(a, b0, m, n, log10, sqrt);
    }
  }

  // ---- The doublet steps are guarded ----

  /** A branch with one assignment is guarded when it writes an absent column from present ones. */
  lemma OneWriteSafe(need: seq<string>, absent: seq<string>, target: string, e: Expr)
    requires target in absent && forall c :: c in Refs(e) ==> c in need
    ensures BranchSafe(Branch(need, absent, [Assign(target, e)]))
  {
    var ws := [Assign(target, e)];
    forall j | 0 <= j < |ws|
      ensures forall c :: c in Refs(ws[j].value) ==> c in need || c in WriteTargets(ws[..j])
    {
      assert ws[j].value == e;
    }
  }

  lemma SumRuleSafe(a: string, b: string, ab: string)
    ensures Safe([SumRule(a, b, ab)]) && Safe([QuadratureRule(a, b, ab)])
    ensures TargetsWithin([SumRule(a, b, ab)], {ab}) && TargetsWithin([QuadratureRule(a, b, ab)], {ab})
  {
    assert Refs(Col(a)) == {a} && Refs(Col(b)) == {b};
    assert Refs(Plus(Col(a), Col(b))) == {a, b};
    OneWriteSafe([a, b], [ab], ab, Plus(Col(a), Col(b)));
    assert Refs(Squared(Col(a))) == {a} && Refs(Squared(Col(b))) == {b};
    assert Refs(Root(Plus(Squared(Col(a)), Squared(Col(b))))) == {a, b};
    OneWriteSafe([a, b], [ab], ab, Root(Plus(Squared(Col(a)), Squared(Col(b)))));
  }

  lemma SplitRuleSafe(ab: string, a: string, b: string, ratio: real)
    requires ratio > 0.0
    ensures Safe([SplitRule(ab, a, b, ratio)]) && TargetsWithin([SplitRule(ab, a, b, ratio)], {a, b})
  {
    var br := SplitRule(ab, a, b, ratio).branches[0];
    var ws := br.writes;
    assert Refs(Col(ab)) == {ab} && Refs(Const(1.0 + ratio)) == {} && Refs(Const(1.0 + 1.0 / ratio)) == {};
    assert Refs(ws[0].value) == {ab} && Refs(ws[1].value) == {ab};
    forall j | 0 <= j < |ws|
      ensures forall c :: c in Refs(ws[j].value) ==> c in br.need || c in WriteTargets(ws[..j])
    {
      assert br.need == [ab];
    }
    assert BranchSafe(br);
  }

  lemma InferRuleSafe(a: string, b: string, fromB: Expr, fromA: Expr)
    requires Refs(fromB) <= {b} && Refs(fromA) <= {a}
    ensures Safe([InferRule(a, b, fromB, fromA)]) && TargetsWithin([InferRule(a, b, fromB, fromA)], {a, b})
  {
    OneWriteSafe([b], [a], a, fromB);
    OneWriteSafe([a], [b], b, fromA);
  }

  lemma SafeAppend(a: seq<Rule>, b: seq<Rule>)
    requires Safe(a) && Safe(b)
    ensures Safe(a + b)
  {
  }

  lemma CombineRulesSafe()
    ensures Safe(CombineRules)
  {
    SumRuleSafe("OII3726", "OII3729", "OII3726+OII3729");
    SumRuleSafe("SII6716", "SII6731", "SII6716+SII6731");
    SumRuleSafe("OII3726 error", "OII3729 error", "OII3726+OII3729 error");
    SumRuleSafe("SII6716 error", "SII6731 error", "SII6716+SII6731 error");
  }

  lemma SplitRulesSafe()
    ensures Safe(SplitRules) && Safe(SplitErrorRules)
  {
    SplitRuleSafe("OIII4959+OIII5007", "OIII4959", "OIII5007", 2.94);
    SplitRuleSafe("NII6548+NII6583", "NII6548", "NII6583", 3.06);
    SplitRuleSafe("SIII9069+SIII9531", "SIII9069", "SIII9531", 2.47);
    SplitRuleSafe("OIII4959+OIII5007 error", "OIII4959 error", "OIII5007 error", 2.94);
    SplitRuleSafe("NII6548+NII6583 error", "NII6548 error", "NII6583 error", 3.06);
    SplitRuleSafe("SIII9069+SIII9531 error", "SIII9069 error", "SIII9531 error", 2.47);
  }

  /** `Over(Col(c), Const(k))` and `Times(Col(c), Const(k))` read only c. */
  lemma ScaledRefs(c: string, k: real)
    ensures Refs(Over(Col(c), Const(k))) == {c} && Refs(Times(Col(c), Const(k))) == {c}
  {
    assert Refs(Col(c)) == {c} && Refs(Const(k)) == {};
  }

  lemma InferRulesSafe()
    ensures Safe(InferRules)
  {
    ScaledRefs("NII6583", 3.06);
    ScaledRefs("NII6548", 3.06);
    InferRuleSafe("NII6548", "NII6583", Over(Col("NII6583"), Const(3.06)), Times(Col("NII6548"), Const(3.06)));
    ScaledRefs("OIII5007", 2.94);
    ScaledRefs("OIII4959", 2.94);
    InferRuleSafe("OIII4959", "OIII5007", Over(Col("OIII5007"), Const(2.94)), Times(Col("OIII4959"), Const(2.94)));
    ScaledRefs("SIII9069", 2.947);
    ScaledRefs("SIII9531", 2.947);
    InferRuleSafe("SIII9531", "SIII9069", Times(Col("SIII9069"), Const(2.947)), Over(Col("SIII9531"), Const(2.947)));
  }

  lemma InferErrorRulesSafe()
    ensures Safe(InferErrorRules)
  {
    ScaledRefs("NII6583 error", 3.06);
    ScaledRefs("NII6548 error", 3.06);
    InferRuleSafe("NII6548 error", "NII6583 error",
                  Over(Col("NII6583 error"), Const(3.06)), Times(Col("NII6548 error"), Const(3.06)));
    ScaledRefs("OIII5007 error", 2.94);
    ScaledRefs("OIII4959 error", 2.94);
    InferRuleSafe("OIII4959 error", "OIII5007 error",
                  Over(Col("OIII5007 error"), Const(2.94)), Times(Col("OIII4959 error"), Const(2.94)));
    ScaledRefs("SIII9069 error", 2.947);
    ScaledRefs("SIII9531 error", 2.947);
    InferRuleSafe("SIII9531 error", "SIII9069 error",
                  Times(Col("SIII9069 error"), Const(2.947)), Over(Col("SIII9531 error"), Const(2.947)));
  }

  lemma SumRulesSafe()
    ensures Safe(SumRules) && Safe(SumErrorRules)
  {
    SumRuleSafe("NII6548", "NII6583", "NII6548+NII6583");
    SumRuleSafe("OIII4959", "OIII5007", "OIII4959+OIII5007");
    SumRuleSafe("SIII9069", "SIII9531", "SIII9069+SIII9531");
    SumRuleSafe("NII6548 error", "NII6583 error", "NII6548+NII6583 error");
    SumRuleSafe("OIII4959 error", "OIII5007 error", "OIII4959+OIII5007 error");
    SumRuleSafe("SIII9069 error", "SIII9531 error", "SIII9069+SIII9531 error");
  }

  lemma DoubletRulesSafe()
    ensures Safe(DoubletRules)
  {
    CombineRulesSafe();
    SplitRulesSafe();
    LaterDoubletRulesSafe();
    SafeAppend(CombineRules, SplitRules);
    SafeAppend(CombineRules + SplitRules, LaterDoubletRules);
  }

  /**
   * The doublet steps never raise (each reads only what its guard checked)
   * and never overwrite a column the frame already has.
   */
  lemma DoubletStageGuarded(m: Cols, n: nat, log10: real -> real, sqrt: real -> real)
    requires Shaped(m, n)
    ensures DoRules(DoubletRules, m, n, log10, sqrt).status.Pass?
    ensures forall c :: c in m ==>
              c in DoRules(DoubletRules, m, n, log10, sqrt).cols && DoRules(DoubletRules, m, n, log10, sqrt).cols[c] == m[c]
  {
    DoubletRulesSafe();
    DoRulesGuarded(DoubletRules, m, n, log10, sqrt);
  }

  // ---- The ratio steps write only ratio columns ----

  const DiagnosticColumns: set<string> := {
    "N2O2", "N2S2", "O3N2", "R23", "S23", "S3O3", "O3O2", "O2O3", "O1O3", "S32", "S3", "Ne53", "Dopita+2016"
  }

  const AxisColumns: set<string> := {
    "log N2", "N2", "log O1", "O1", "log S2", "S2", "log O3", "O3", "He2", "log He2", "[SII] ratio", "[OII] ratio"
  }

  const AxisErrorColumns: set<string> := {
    "N2 error", "log N2 error (lower)", "log N2 error (upper)",
    "O1 error", "log O1 error (lower)", "log O1 error (upper)",
    "S2 error", "log S2 error (lower)", "log S2 error (upper)",
    "O3 error", "log O3 error (lower)", "log O3 error (upper)",
    "[SII] ratio error", "[OII] ratio error"
  }

  /** Every column name the ratio steps can write. */
  const RatioColumns: set<string> := DiagnosticColumns + AxisColumns + AxisErrorColumns

  lemma TargetsWithinMono(rs: seq<Rule>, s: set<string>, t: set<string>)
    requires TargetsWithin(rs, s) && s <= t
    ensures TargetsWithin(rs, t)
  {
  }

  lemma TargetsWithinAppend(a: seq<Rule>, b: seq<Rule>, s: set<string>)
    requires TargetsWithin(a, s) && TargetsWithin(b, s)
    ensures TargetsWithin(a + b, s)
  {
  }

  lemma StrongLineRulesTargets()
    ensures TargetsWithin(StrongLineRules, DiagnosticColumns)
  {
  }

  lemma OtherDiagnosticRulesTargets()
    ensures TargetsWithin(OtherDiagnosticRules, DiagnosticColumns)
  {
  }

  lemma DiagnosticRulesTargets()
    ensures TargetsWithin(DiagnosticRules, DiagnosticColumns)
  {
    StrongLineRulesTargets();
    OtherDiagnosticRulesTargets();
    TargetsWithinAppend(StrongLineRules, OtherDiagnosticRules, DiagnosticColumns);
  }

  lemma AxisRulesTargets()
    ensures TargetsWithin(AxisRules, AxisColumns)
  {
  }

  lemma ErrorRuleTargets(need: seq<string>, x: string, logX: string, a: string, b: string, s: set<string>)
    requires {x + " error", logX + " error (lower)", logX + " error (upper)"} <= s
    ensures TargetsWithin([When(need, ErrorWrites(x, logX, a, b))], s)
  {
    var ws := ErrorWrites(x, logX, a, b);
    assert forall w :: w in ws ==> w == ws[0] || w == ws[1] || w == ws[2];
  }

  lemma TargetsWithinEach(rs: seq<Rule>, s: set<string>)
    requires forall k :: 0 <= k < |rs| ==> TargetsWithin([rs[k]], s)
    ensures TargetsWithin(rs, s)
  {
    forall r | r in rs
      ensures forall b :: b in r.branches ==> forall w :: w in b.writes ==> w.target in s
    {
      var k :| 0 <= k < |rs| && rs[k] == r;
      assert r in [rs[k]];
    }
  }

  lemma N2ErrorTargets()
    ensures TargetsWithin([AxisErrorRules[0]], AxisErrorColumns)
  {
    assert "N2" + " error" == "N2 error";
    assert "log N2" + " error (lower)" == "log N2 error (lower)";
    assert "log N2" + " error (upper)" == "log N2 error (upper)";
    ErrorRuleTargets(["NII6583 error", "HALPHA error"], "N2", "log N2", "NII6583", "HALPHA", AxisErrorColumns);
  }

  lemma O1ErrorTargets()
    ensures TargetsWithin([AxisErrorRules[1]], AxisErrorColumns)
  {
    assert "O1" + " error" == "O1 error";
    assert "log O1" + " error (lower)" == "log O1 error (lower)";
    assert "log O1" + " error (upper)" == "log O1 error (upper)";
    ErrorRuleTargets(["OI6300 error", "HALPHA error"], "O1", "log O1", "OI6300", "HALPHA", AxisErrorColumns);
  }

  lemma S2ErrorTargets()
    ensures TargetsWithin([AxisErrorRules[2]], AxisErrorColumns)
  {
    assert "S2" + " error" == "S2 error";
    assert "log S2" + " error (lower)" == "log S2 error (lower)";
    assert "log S2" + " error (upper)" == "log S2 error (upper)";
    ErrorRuleTargets(["SII6716+SII6731 error", "HALPHA error"], "S2", "log S2", "SII6716+SII6731", "HALPHA", AxisErrorColumns);
  }

  lemma O3ErrorTargets()
    ensures TargetsWithin([AxisErrorRules[3]], AxisErrorColumns)
  {
    assert "O3" + " error" == "O3 error";
    assert "log O3" + " error (lower)" == "log O3 error (lower)";
    assert "log O3" + " error (upper)" == "log O3 error (upper)";
    ErrorRuleTargets(["OIII5007 error", "HBETA error"], "O3", "log O3", "OIII5007", "HBETA", AxisErrorColumns);
  }

  lemma DoubletRatioErrorTargets()
    ensures TargetsWithin(AxisErrorRules[4..], AxisErrorColumns)
  {
  }

  lemma AxisErrorRulesTargets()
    ensures TargetsWithin(AxisErrorRules, AxisErrorColumns)
  {
    N2ErrorTargets();
    O1ErrorTargets();
    S2ErrorTargets();
    O3ErrorTargets();
    DoubletRatioErrorTargets();
    var rs := AxisErrorRules;
    assert |rs| == 6;
    forall k | 4 <= k < 6 ensures TargetsWithin([rs[k]], AxisErrorColumns) {
      assert rs[k] in rs[4..];
    }
    TargetsWithinEach(rs, AxisErrorColumns);
  }

  lemma RatioRulesTargets()
    ensures TargetsWithin(RatioRules, RatioColumns)
  {
    DiagnosticRulesTargets();
    AxisRulesTargets();
    AxisErrorRulesTargets();
    TargetsWithinMono(DiagnosticRules, DiagnosticColumns, RatioColumns);
    TargetsWithinMono(AxisRules, AxisColumns, RatioColumns);
    TargetsWithinMono(AxisErrorRules, AxisErrorColumns, RatioColumns);
    TargetsWithinAppend(DiagnosticRules, AxisRules, RatioColumns);
    TargetsWithinAppend(DiagnosticRules + AxisRules, AxisErrorRules, RatioColumns);
  }

  /**
   * `ratio_fn` never changes an existing column other than the ratio columns:
   * every flux, error and doublet column the frame had keeps its values, and
   * the doublet steps before the ratios never raise.
   */
  lemma RatioFnKeepsInputs(m: Cols, n: nat, log10: real -> real, sqrt: real -> real)
    requires Shaped(m, n)
    ensures var r := DoRules(RatioFnRules, m, n, log10, sqrt);
            forall c :: c in m && c !in RatioColumns ==> c in r.cols && r.cols[c] == m[c]
  {
    DoRulesAppend(DoubletRules, RatioRules, m, n, log10, sqrt);
    DoubletStageGuarded(m, n, log10, sqrt);
    var p := DoRules(DoubletRules, m, n, log10, sqrt);
    RatioRulesTargets();
    DoRulesFrame(RatioRules, RatioColumns, p.cols, n, log10, sqrt);
  }

  // ---- Splitting a combined doublet is a round trip ----

  /** combined / (1 + r) + combined / (1 + 1 / r) == combined, cell by cell. */
  lemma SplitCellsSum(x: Num, ratio: real)
    requires ratio > 0.0
    ensures Add(Div(x, Val(1.0 + ratio)), Div(x, Val(1.0 + 1.0 / ratio))) == x
    ensures x.Val? ==> Div(Div(x, Val(1.0 + 1.0 / ratio)), Div(x, Val(1.0 + ratio))) == (if x.v == 0.0 then NaN else Val(ratio))
  {
    var d1, d2 := 1.0 + ratio, 1.0 + 1.0 / ratio;
    SharesAddUp(0.0, ratio);
    if x.Val? {
      var a, b := x.v / d1, x.v / d2;
      assert Div(x, Val(d1)) == Val(a);
      assert Div(x, Val(d2)) == Val(b);
      SharesAddUp(x.v, ratio);
      if x.v != 0.0 {
        SharesRatio(x.v, ratio);
        assert Div(Val(b), Val(a)) == Val(b / a);
      } else {
        assert a == 0.0 && b == 0.0;
      }
    }
  }

  /** The two shares of a doublet add up to the whole. */
  lemma SharesAddUp(v: real, r: real)
    requires r > 0.0
    ensures 1.0 + 1.0 / r > 0.0
    ensures v / (1.0 + r) + v / (1.0 + 1.0 / r) == v
  {
    assert 1.0 + 1.0 / r == (r + 1.0) / r;
    assert v / ((r + 1.0) / r) == v * r / (r + 1.0);
    assert v / (1.0 + r) + v * r / (r + 1.0) == v * (1.0 + r) / (1.0 + r);
  }

  /** The second share over the first is the ratio. */
  lemma SharesRatio(v: real, r: real)
    requires r > 0.0 && v != 0.0
    ensures v / (1.0 + r) != 0.0
    ensures (v / (1.0 + 1.0 / r)) / (v / (1.0 + r)) == r
  {
    assert 1.0 + 1.0 / r == (r + 1.0) / r;
    assert v / ((r + 1.0) / r) == v * r / (r + 1.0);
    assert (v * r / (r + 1.0)) / (v / (1.0 + r)) == r;
  }

  lemma DoRulesSingle(rule: Rule, m: Cols, n: nat, log10: real -> real, sqrt: real -> real)
    requires Shaped(m, n)
    ensures DoRules([rule], m, n, log10, sqrt) == DoRule(rule, m, n, log10, sqrt)
  {
    assert [rule][..0] == [];
  }

  /** One split step on a frame holding the combined flux and neither member. */
  lemma SplitStep(ab: string, a: string, b: string, ratio: real, m: Cols, n: nat, log10: real -> real, sqrt: real -> real)
    requires ratio > 0.0 && Shaped(m, n) && ab in m && a !in m && b !in m && a != b
    ensures var q := DoRule(SplitRule(ab, a, b, ratio), m, n, log10, sqrt);
            && q.status.Pass? && ab in q.cols && a in q.cols && b in q.cols && q.cols[ab] == m[ab]
            && (forall i :: 0 <= i < n ==> q.cols[a][i] == Div(m[ab][i], Val(1.0 + ratio)))
            && (forall i :: 0 <= i < n ==> q.cols[b][i] == Div(m[ab][i], Val(1.0 + 1.0 / ratio)))
  {
    var rule := SplitRule(ab, a, b, ratio);
    var br := rule.branches[0];
    assert Holds(br, m.Keys);
    assert Selected(rule.branches, m.Keys) == Some(br);
    var ws := br.writes;
    assert Refs(Col(ab)) == {ab} && Refs(Const(1.0 + ratio)) == {} && Refs(Const(1.0 + 1.0 / ratio)) == {};
    assert ws[..1][..0] == [];
    var e1 := Eval(ws[0].value, m, n, log10, sqrt);
    assert e1.Success?;
    var m1 := m[a := e1.value];
    assert DoWrites(ws[..1], m, n, log10, sqrt) == Run(m1, Pass);
    var e2 := Eval(ws[1].value, m1, n, log10, sqrt);
    assert e2.Success?;
    assert ws[..2] == ws;
    assert DoWrites(ws, m, n, log10, sqrt) == Run(m1[b := e2.value], Pass);
    forall i | 0 <= i < n
      ensures e1.value[i] == Div(m[ab][i], Val(1.0 + ratio)) && e2.value[i] == Div(m[ab][i], Val(1.0 + 1.0 / ratio))
    {
      assert ws[0].value == Over(Col(ab), Const(1.0 + ratio));
      assert ws[1].value == Over(Col(ab), Const(1.0 + 1.0 / ratio));
      assert CellAt(Col(ab), m, n, i, log10, sqrt) == m[ab][i];
      assert CellAt(Col(ab), m1, n, i, log10, sqrt) == m[ab][i];
      assert e1.value[i] == CellAt(Over(Col(ab), Const(1.0 + ratio)), m, n, i, log10, sqrt);
      assert e2.value[i] == CellAt(Over(Col(ab), Const(1.0 + 1.0 / ratio)), m1, n, i, log10, sqrt);
      assert CellAt(Const(1.0 + ratio), m, n, i, log10, sqrt) == Val(1.0 + ratio);
      assert CellAt(Const(1.0 + 1.0 / ratio), m1, n, i, log10, sqrt) == Val(1.0 + 1.0 / ratio);
    }
  }

  /** The single write of a sum or quadrature rule whose guard holds. */
  lemma OneWriteStep(rule: Rule, ab: string, e: Expr, m: Cols, n: nat, log10: real -> real, sqrt: real -> real)
    requires Shaped(m, n) && |rule.branches| == 1 && Holds(rule.branches[0], m.Keys)
    requires rule.branches[0].writes == [Assign(ab, e)] && Refs(e) <= m.Keys
    ensures var q := DoRule(rule, m, n, log10, sqrt);
            && q.status.Pass? && q.cols == m[ab := Eval(e, m, n, log10, sqrt).value]
  {
    var ws := rule.branches[0].writes;
    assert Selected(rule.branches, m.Keys) == Some(rule.branches[0]);
    assert DoRule(rule, m, n, log10, sqrt) == DoWrites(ws, m, n, log10, sqrt);
    assert ws[..|ws| - 1] == [];
    assert DoWrites(ws[..|ws| - 1], m, n, log10, sqrt) == Run(m, Pass);
    assert Eval(ws[|ws| - 1].value, m, n, log10, sqrt).Success?;
  }

  /**
   * Adding a doublet whose combined column is missing writes the sum of the
   * two lines there, and the quadrature sum sqrt(e1² + e2²) for its error;
   * no other column changes.
   */
  lemma CombineStep(a: string, b: string, ab: string, m: Cols, n: nat, log10: real -> real, sqrt: real -> real)
    requires Shaped(m, n) && a in m && b in m && ab !in m
    ensures var q := DoRule(SumRule(a, b, ab), m, n, log10, sqrt);
            && q.status.Pass? && q.cols.Keys == m.Keys + {ab}
            && (forall c :: c in m ==> q.cols[c] == m[c])
            && (forall i :: 0 <= i < n ==> q.cols[ab][i] == Add(m[a][i], m[b][i]))
    ensures var q := DoRule(QuadratureRule(a, b, ab), m, n, log10, sqrt);
            && q.status.Pass? && q.cols.Keys == m.Keys + {ab}
            && (forall c :: c in m ==> q.cols[c] == m[c])
            && (forall i :: 0 <= i < n ==> q.cols[ab][i] == Sqrt(Add(Square(m[a][i]), Square(m[b][i])), sqrt))
  {
    var sum := Plus(Col(a), Col(b));
    var quad := Root(Plus(Squared(Col(a)), Squared(Col(b))));
    var squares := Plus(Squared(Col(a)), Squared(Col(b)));
    assert Refs(Col(a)) == {a} && Refs(Col(b)) == {b};
    assert Refs(Squared(Col(a))) == {a};
    assert Refs(Squared(Col(b))) == {b};
    assert Refs(sum) == {a, b} && Refs(squares) == {a, b} && Refs(quad) == Refs(squares);
    OneWriteStep(SumRule(a, b, ab), ab, sum, m, n, log10, sqrt);
    OneWriteStep(QuadratureRule(a, b, ab), ab, quad, m, n, log10, sqrt);
    forall i | 0 <= i < n
      ensures CellAt(sum, m, n, i, log10, sqrt) == Add(m[a][i], m[b][i])
      ensures CellAt(quad, m, n, i, log10, sqrt) == Sqrt(Add(Square(m[a][i]), Square(m[b][i])), sqrt)
    {
      assert CellAt(Squared(Col(a)), m, n, i, log10, sqrt) == Square(m[a][i]);
      assert CellAt(Squared(Col(b)), m, n, i, log10, sqrt) == Square(m[b][i]);
      assert CellAt(squares, m, n, i, log10, sqrt) == Add(Square(m[a][i]), Square(m[b][i]));
    }
  }

  /** The postcondition of the split round trip, on the result of the doublet steps. */
  predicate SplitsBack(r: Run, m: Cols, n: nat, ab: string, a: string, b: string, ratio: real)
    requires ratio > 0.0 && Shaped(m, n) && Shaped(r.cols, n) && ab in m
  {
    && r.status.Pass? && a in r.cols && b in r.cols && ab in r.cols && r.cols[ab] == m[ab]
    && (forall i :: 0 <= i < n ==> r.cols[a][i] == Div(m[ab][i], Val(1.0 + ratio)))
    && (forall i :: 0 <= i < n ==> r.cols[b][i] == Div(m[ab][i], Val(1.0 + 1.0 / ratio)))
  }

  /** The columns the [OII] and [SII] combining steps write. */
  const CombinedColumns: set<string> := {"OII3726+OII3729", "SII6716+SII6731", "OII3726+OII3729 error", "SII6716+SII6731 error"}

  lemma CombineRulesTargets()
    ensures TargetsWithin(CombineRules, CombinedColumns)
  {
  }

  /** The combining steps never raise, keep every column and add only combined doublets. */
  lemma CombineStage(m: Cols, n: nat, log10: real -> real, sqrt: real -> real)
    requires Shaped(m, n)
    ensures var p := DoRules(CombineRules, m, n, log10, sqrt);
            && p.status.Pass? && p.cols.Keys <= m.Keys + CombinedColumns
            && forall c :: c in m ==> c in p.cols && p.cols[c] == m[c]
  {
    CombineRulesTargets();
    CombineRulesSafe();
    DoRulesGuarded(CombineRules, m, n, log10, sqrt);
    DoRulesFrame(CombineRules, CombinedColumns, m, n, log10, sqrt);
  }

  lemma LaterDoubletRulesSafe()
    ensures Safe(LaterDoubletRules)
  {
    SplitRulesSafe();
    InferRulesSafe();
    InferErrorRulesSafe();
    SumRulesSafe();
    SafeAppend(SplitErrorRules, InferRules);
    SafeAppend(SplitErrorRules + InferRules, InferErrorRules);
    SafeAppend(SplitErrorRules + InferRules + InferErrorRules, SumRules);
    SafeAppend(SplitErrorRules + InferRules + InferErrorRules + SumRules, SumErrorRules);
  }

  /** The steps after the splits never raise and keep every column. */
  lemma LaterStage(m: Cols, n: nat, log10: real -> real, sqrt: real -> real)
    requires Shaped(m, n)
    ensures var p := DoRules(LaterDoubletRules, m, n, log10, sqrt);
            p.status.Pass? && forall c :: c in m ==> c in p.cols && p.cols[c] == m[c]
  {
    LaterDoubletRulesSafe();
    DoRulesGuarded(LaterDoubletRules, m, n, log10, sqrt);
  }

  /** The doublet steps run the combining steps, the three splits, and the rest. */
  lemma DoubletStages(m: Cols, n: nat, log10: real -> real, sqrt: real -> real)
    requires Shaped(m, n)
    ensures var p := DoRules(CombineRules, m, n, log10, sqrt);
            p.status.Pass? ==>
            DoRules(DoubletRules, m, n, log10, sqrt) ==
              (var q := DoRules(SplitRules, p.cols, n, log10, sqrt);
               if q.status.Fail? then q else DoRules(LaterDoubletRules, q.cols, n, log10, sqrt))
  {
    DoRulesAppend(CombineRules + SplitRules, LaterDoubletRules, m, n, log10, sqrt);
    DoRulesAppend(CombineRules, SplitRules, m, n, log10, sqrt);
  }

  /**
   * A split step that runs after rules which cannot write either member, on
   * a frame holding the combined flux and neither member, writes the two
   * members as the fixed fractions of the combined flux; guarded steps after
   * it keep them.
   */
  lemma SplitBetween(rs: seq<Rule>, before: seq<Rule>, s: set<string>, ab: string, a: string, b: string, ratio: real,
                     after: seq<Rule>, m: Cols, n: nat, log10: real -> real, sqrt: real -> real)
    requires ratio > 0.0 && a !in s && b !in s && a != b
    requires rs == before + [SplitRule(ab, a, b, ratio)] + after
    requires Safe(before) && TargetsWithin(before, s) && Safe(after)
    requires Shaped(m, n) && ab in m && a !in m && b !in m
    ensures SplitsBack(DoRules(rs, m, n, log10, sqrt), m, n, ab, a, b, ratio)
  {
    var rule := SplitRule(ab, a, b, ratio);
    DoRulesAppend(before + [rule], after, m, n, log10, sqrt);
    DoRulesAppend(before, [rule], m, n, log10, sqrt);
    DoRulesGuarded(before, m, n, log10, sqrt);
    DoRulesFrame(before, s, m, n, log10, sqrt);
    var p := DoRules(before, m, n, log10, sqrt);
    DoRulesSingle(rule, p.cols, n, log10, sqrt);
    SplitStep(ab, a, b, ratio, p.cols, n, log10, sqrt);
    var q := DoRule(rule, p.cols, n, log10, sqrt);
    DoRulesGuarded(after, q.cols, n, log10, sqrt);
  }

  lemma SplitPieces()
    ensures Safe([SplitOIII]) && Safe([SplitNII]) && Safe([SplitSIII])
    ensures TargetsWithin([SplitOIII], {"OIII4959", "OIII5007"}) && TargetsWithin([SplitNII], {"NII6548", "NII6583"})
    ensures Safe([SplitNII, SplitSIII]) && Safe([SplitOIII, SplitNII])
  {
    SplitRuleSafe("OIII4959+OIII5007", "OIII4959", "OIII5007", 2.94);
    SplitRuleSafe("NII6548+NII6583", "NII6548", "NII6583", 3.06);
    SplitRuleSafe("SIII9069+SIII9531", "SIII9069", "SIII9531", 2.47);
    SafeAppend([SplitNII], [SplitSIII]);
    assert [SplitNII] + [SplitSIII] == [SplitNII, SplitSIII];
    SafeAppend([SplitOIII], [SplitNII]);
    assert [SplitOIII] + [SplitNII] == [SplitOIII, SplitNII];
  }

  lemma SplitOIIIStage(p: Cols, n: nat, log10: real -> real, sqrt: real -> real)
    requires Shaped(p, n) && "OIII4959+OIII5007" in p && "OIII4959" !in p && "OIII5007" !in p
    ensures SplitsBack(DoRules(SplitRules, p, n, log10, sqrt), p, n, "OIII4959+OIII5007", "OIII4959", "OIII5007", 2.94)
  {
    SplitPieces();
    assert SplitRules == [] + [SplitOIII] + [SplitNII, SplitSIII];
    SplitBetween(SplitRules, [], {}, "OIII4959+OIII5007", "OIII4959", "OIII5007", 2.94, [SplitNII, SplitSIII],
                 p, n, log10, sqrt);
  }

  lemma SplitNIIStage(p: Cols, n: nat, log10: real -> real, sqrt: real -> real)
    requires Shaped(p, n) && "NII6548+NII6583" in p && "NII6548" !in p && "NII6583" !in p
    ensures SplitsBack(DoRules(SplitRules, p, n, log10, sqrt), p, n, "NII6548+NII6583", "NII6548", "NII6583", 3.06)
  {
    SplitPieces();
    assert SplitRules == [SplitOIII] + [SplitNII] + [SplitSIII];
    SplitBetween(SplitRules, [SplitOIII], {"OIII4959", "OIII5007"}, "NII6548+NII6583", "NII6548", "NII6583", 3.06,
                 [SplitSIII], p, n, log10, sqrt);
  }

  lemma SplitSIIIStage(p: Cols, n: nat, log10: real -> real, sqrt: real -> real)
    requires Shaped(p, n) && "SIII9069+SIII9531" in p && "SIII9069" !in p && "SIII9531" !in p
    ensures SplitsBack(DoRules(SplitRules, p, n, log10, sqrt), p, n, "SIII9069+SIII9531", "SIII9069", "SIII9531", 2.47)
  {
    var s := {"OIII4959", "OIII5007", "NII6548", "NII6583"};
    SplitPieces();
    TargetsWithinMono([SplitOIII], {"OIII4959", "OIII5007"}, s);
    TargetsWithinMono([SplitNII], {"NII6548", "NII6583"}, s);
    TargetsWithinAppend([SplitOIII], [SplitNII], s);
    assert [SplitOIII] + [SplitNII] == [SplitOIII, SplitNII];
    assert SplitRules == [SplitOIII, SplitNII] + [SplitSIII] + [];
    SplitBetween(SplitRules, [SplitOIII, SplitNII], s, "SIII9069+SIII9531", "SIII9069", "SIII9531", 2.47,
                 [], p, n, log10, sqrt);
  }

  /**
   * The three splits, on a frame holding the combined flux of doublet k and
   * neither member: split k writes the two fractions, and the other two
   * splits keep every column they find.
   */
  lemma SplitsStage(k: nat, p: Cols, n: nat, log10: real -> real, sqrt: real -> real)
    requires k < 3 && Shaped(p, n)
    requires var (ab, a, b, _) := SplitParts(k); ab in p && a !in p && b !in p
    ensures var (ab, a, b, ratio) := SplitParts(k);
            SplitsBack(DoRules(SplitRules, p, n, log10, sqrt), p, n, ab, a, b, ratio)
  {
    if k == 0 {
      SplitOIIIStage(p, n, log10, sqrt);
    } else if k == 1 {
      SplitNIIStage(p, n, log10, sqrt);
    } else {
      SplitSIIIStage(p, n, log10, sqrt);
    }
  }

  /** A split that holds after an earlier stage that kept the combined flux and before a later one that keeps everything. */
  lemma SplitsBackThrough(p: Cols, q: Run, r: Run, m: Cols, n: nat, ab: string, a: string, b: string, ratio: real)
    requires ratio > 0.0 && Shaped(m, n) && Shaped(p, n) && Shaped(q.cols, n) && Shaped(r.cols, n)
    requires ab in m && ab in p && p[ab] == m[ab]
    requires SplitsBack(q, p, n, ab, a, b, ratio)
    requires r.status.Pass? && forall c :: c in q.cols ==> c in r.cols && r.cols[c] == q.cols[c]
    ensures SplitsBack(r, m, n, ab, a, b, ratio)
  {
  }

  lemma DoubletSplits(k: nat, m: Cols, n: nat, log10: real -> real, sqrt: real -> real)
    requires k < 3 && Shaped(m, n)
    requires var (ab, a, b, _) := SplitParts(k); ab in m && a !in m && b !in m
    ensures var (ab, a, b, ratio) := SplitParts(k);
            SplitsBack(DoRules(DoubletRules, m, n, log10, sqrt), m, n, ab, a, b, ratio)
  {
    CombineStage(m, n, log10, sqrt);
    DoubletStages(m, n, log10, sqrt);
    SplitsThroughStages(k, m, n, log10, sqrt);
  }

  /** The same, stage by stage: combining, splitting, then the later doublet steps. */
  lemma SplitsThroughStages(k: nat, m: Cols, n: nat, log10: real -> real, sqrt: real -> real)
    requires k < 3 && Shaped(m, n)
    requires var (ab, a, b, _) := SplitParts(k); ab in m && a !in m && b !in m
    ensures var p := DoRules(CombineRules, m, n, log10, sqrt);
      && p.status.Pass? && Shaped(p.cols, n)
      && var q := DoRules(SplitRules, p.cols, n, log10, sqrt);
      && q.status.Pass?
      && var (ab, a, b, ratio) := SplitParts(k);
      SplitsBack(DoRules(LaterDoubletRules, q.cols, n, log10, sqrt), m, n, ab, a, b, ratio)
  {
    var (ab, a, b, ratio) := SplitParts(k);
    CombineStage(m, n, log10, sqrt);
    var p := DoRules(CombineRules, m, n, log10, sqrt);
    assert a !in CombinedColumns && b !in CombinedColumns;
    SplitsStage(k, p.cols, n, log10, sqrt);
    var q := DoRules(SplitRules, p.cols, n, log10, sqrt);
    LaterStage(q.cols, n, log10, sqrt);
    SplitsBackThrough(p.cols, q, DoRules(LaterDoubletRules, q.cols, n, log10, sqrt), m, n, ab, a, b, ratio);
  }

  /** The combined doublet, its members and their fixed ratio, for each split step. */
  function SplitParts(k: nat): (string, string, string, real)
    requires k < 3
  {
    if k == 0 then ("OIII4959+OIII5007", "OIII4959", "OIII5007", 2.94)
    else if k == 1 then ("NII6548+NII6583", "NII6548", "NII6583", 3.06)
    else ("SIII9069+SIII9531", "SIII9069", "SIII9531", 2.47)
  }

  /**
   * On a frame with a combined doublet and neither member, the doublet steps
   * write two members that sum back to the combined flux in every row, with
   * the fixed ratio between them: 5007/4959 = 2.94, 6583/6548 = 3.06 and
   * 9531/9069 = 2.47.
   */
  lemma SplitRoundTrip(k: nat, m: Cols, n: nat, log10: real -> real, sqrt: real -> real)
    requires k < 3 && Shaped(m, n)
    requires var (ab, a, b, _) := SplitParts(k); ab in m && a !in m && b !in m
    ensures var (ab, a, b, ratio) := SplitParts(k);
            var r := DoRules(DoubletRules, m, n, log10, sqrt);
            && r.status.Pass? && a in r.cols && b in r.cols && ab in r.cols && r.cols[ab] == m[ab]
            && (forall i :: 0 <= i < n ==> Add(r.cols[a][i], r.cols[b][i]) == m[ab][i])
            && (forall i :: 0 <= i < n ==> r.cols[a][i] == Div(m[ab][i], Val(1.0 + ratio)))
            && (forall i :: 0 <= i < n ==> r.cols[b][i] == Div(m[ab][i], Val(1.0 + 1.0 / ratio)))
  {
    var (ab, a, b, ratio) := SplitParts(k);
    DoubletSplits(k, m, n, log10, sqrt);
    var r := DoRules(DoubletRules, m, n, log10, sqrt);
    forall i | 0 <= i < n
      ensures Add(r.cols[a][i], r.cols[b][i]) == m[ab][i]
    {
      SplitCellsSum(m[ab][i], ratio);
    }
  }
}
