/**
 * The doublet steps of `ratio_fn` settle the doublet columns in one pass:
 * afterwards every [OII] and [SII] pair with both members has its sum, and
 * every fixed-ratio family ([OIII], [NII], [SIII] and their errors) is
 * either wholly present or wholly absent. Every guard of the stage then
 * fails, so a second pass over its own output adds and changes nothing.
 */
module DoubletPass {
  import opened Numeric
  import opened Outcomes
  import opened Table
  import opened Ratios
  import opened RatioLaws

  /** The column names after one rule, read off the names alone. */
  function StepKeys(rule: Rule, keys: set<string>): set<string>
  {
    match Selected(rule.branches, keys)
    case None => keys
    case Some(b) => keys + WriteTargets(b.writes)
  }

  /** The column names after a list of rules, in order. */
  function KeysAfter(rs: seq<Rule>, keys: set<string>): set<string>
  {
    if rs == [] then keys else StepKeys(rs[|rs| - 1], KeysAfter(rs[..|rs| - 1], keys))
  }

  /** Guarded rules leave exactly the columns that their selected branches name. */
  lemma {:induction false} DoRulesKeys(rs: seq<Rule>, m: Cols, n: nat, log10: real -> real, sqrt: real -> real)
    requires Shaped(m, n) && Safe(rs)
    ensures DoRules(rs, m, n, log10, sqrt).cols.Keys == KeysAfter(rs, m.Keys)
  {
    if rs != [] {
      var init, last := rs[..|rs| - 1], rs[|rs| - 1];
      assert Safe(init) by { assert forall r :: r in init ==> r in rs; }
      DoRulesKeys(init, m, n, log10, sqrt);
      DoRulesGuarded(init, m, n, log10, sqrt);
      var prev := DoRules(init, m, n, log10, sqrt);
      match Selected(last.branches, prev.cols.Keys)
      case None =>
      case Some(b) =>
        DoWritesSafe(b.writes, b.need, prev.cols, n, log10, sqrt);
        DoWritesFrame(b.writes, prev.cols, n, log10, sqrt);
    }
  }

  lemma {:induction false} KeysAfterAppend(a: seq<Rule>, b: seq<Rule>, keys: set<string>)
    ensures KeysAfter(a + b, keys) == KeysAfter(b, KeysAfter(a, keys))
  {
    if b == [] {
      assert a + b == a;
    } else {
      var b0 := b[..|b| - 1];
      assert (a + b)[..|a + b| - 1] == a + b0;
      assert (a + b)[|a + b| - 1] == b[|b| - 1];
      KeysAfterAppend(a, b0, keys);
    }
  }

  lemma KeysAfterThree(r1: Rule, r2: Rule, r3: Rule, keys: set<string>)
    ensures KeysAfter([r1, r2, r3], keys) == StepKeys(r3, StepKeys(r2, StepKeys(r1, keys)))
  {
    assert [r1][..0] == [];
    assert KeysAfter([r1], keys) == StepKeys(r1, keys);
    assert [r1, r2][..1] == [r1];
    assert KeysAfter([r1, r2], keys) == StepKeys(r2, StepKeys(r1, keys));
    assert [r1, r2, r3][..2] == [r1, r2];
  }

  /** Rules whose guards all fail on the frame run through and change nothing. */
  lemma {:induction false} QuietRules(rs: seq<Rule>, m: Cols, n: nat, log10: real -> real, sqrt: real -> real)
    requires Shaped(m, n)
    requires forall r :: r in rs ==> Selected(r.branches, m.Keys).None?
    ensures DoRules(rs, m, n, log10, sqrt) == Run(m, Pass)
  {
    if rs != [] {
      var init := rs[..|rs| - 1];
      assert forall r :: r in init ==> r in rs;
      QuietRules(init, m, n, log10, sqrt);
      assert rs[|rs| - 1] in rs;
    }
  }

  // ---- What one rule adds ----

  /** After a sum: the members stay as they were; the sum is there if it was or both members are. */
  predicate AfterSum(k: set<string>, p: set<string>, a: string, b: string, ab: string)
  {
    && (a in p <==> a in k) && (b in p <==> b in k)
    && (ab in p <==> ab in k || (a in k && b in k))
  }

  /** After a split: the members are there if they were, or the doublet was and neither member was. */
  predicate AfterSplit(k: set<string>, p: set<string>, ab: string, a: string, b: string)
  {
    && (a in p <==> a in k || (ab in k && a !in k && b !in k))
    && (b in p <==> b in k || (ab in k && a !in k && b !in k))
    && (ab in p <==> ab in k)
  }

  /** After an inference: either member is there if either was. */
  predicate AfterInfer(k: set<string>, p: set<string>, a: string, b: string, ab: string)
  {
    && (a in p <==> a in k || b in k) && (b in p <==> b in k || a in k)
    && (ab in p <==> ab in k)
  }

  /** A step that leaves a family's names as they were. */
  predicate Same(k: set<string>, p: set<string>, a: string, b: string, ab: string)
  {
    (a in p <==> a in k) && (b in p <==> b in k) && (ab in p <==> ab in k)
  }

  lemma SumKeys(a: string, b: string, ab: string, keys: set<string>)
    ensures keys <= StepKeys(SumRule(a, b, ab), keys) <= keys + {ab}
    ensures AfterSum(keys, StepKeys(SumRule(a, b, ab), keys), a, b, ab)
    ensures keys <= StepKeys(QuadratureRule(a, b, ab), keys) <= keys + {ab}
    ensures AfterSum(keys, StepKeys(QuadratureRule(a, b, ab), keys), a, b, ab)
  {
    var w := Assign(ab, Plus(Col(a), Col(b)));
    assert WriteTargets([w]) == {ab} by { assert w in [w]; }
    var q := Assign(ab, Root(Plus(Squared(Col(a)), Squared(Col(b)))));
    assert WriteTargets([q]) == {ab} by { assert q in [q]; }
  }

  lemma SplitKeys(ab: string, a: string, b: string, ratio: real, keys: set<string>)
    requires ratio > 0.0
    ensures keys <= StepKeys(SplitRule(ab, a, b, ratio), keys) <= keys + {a, b}
    ensures AfterSplit(keys, StepKeys(SplitRule(ab, a, b, ratio), keys), ab, a, b)
  {
    var ws := SplitRule(ab, a, b, ratio).branches[0].writes;
    assert WriteTargets(ws) == {a, b} by { assert ws[0] in ws && ws[1] in ws; }
  }

  lemma InferKeys(a: string, b: string, ab: string, fromB: Expr, fromA: Expr, keys: set<string>)
    requires ab != a && ab != b
    ensures keys <= StepKeys(InferRule(a, b, fromB, fromA), keys) <= keys + {a, b}
    ensures AfterInfer(keys, StepKeys(InferRule(a, b, fromB, fromA), keys), a, b, ab)
  {
    var wa, wb := Assign(a, fromB), Assign(b, fromA);
    assert WriteTargets([wa]) == {a} by { assert wa in [wa]; }
    assert WriteTargets([wb]) == {b} by { assert wb in [wb]; }
    var bs := InferRule(a, b, fromB, fromA).branches;
    if !Holds(bs[0], keys) {
      assert Selected(bs, keys) == Selected(bs[1..], keys);
      if !Holds(bs[1], keys) {
        assert bs[1..][1..] == [];
      }
    }
  }

  /** A step that adds only names of w leaves the names outside w as they were. */
  lemma FrameSame(k: set<string>, p: set<string>, w: set<string>, a: string, b: string, ab: string)
    requires k <= p <= k + w && a !in w && b !in w && ab !in w
    ensures Same(k, p, a, b, ab)
  {
  }

  // ---- Three rules of a kind, over names given as parameters ----

  /** None of a family's names is in w. */
  predicate Apart(w: set<string>, a: string, b: string, ab: string)
  {
    a !in w && b !in w && ab !in w
  }

  lemma SplitThree(ab1: string, a1: string, b1: string, t1: real,
                   ab2: string, a2: string, b2: string, t2: real,
                   ab3: string, a3: string, b3: string, t3: real, keys: set<string>)
    requires t1 > 0.0 && t2 > 0.0 && t3 > 0.0
    requires Apart({a2, b2}, a1, b1, ab1) && Apart({a3, b3}, a1, b1, ab1)
    requires Apart({a1, b1}, a2, b2, ab2) && Apart({a3, b3}, a2, b2, ab2)
    requires Apart({a1, b1}, a3, b3, ab3) && Apart({a2, b2}, a3, b3, ab3)
    ensures var p := StepKeys(SplitRule(ab3, a3, b3, t3), StepKeys(SplitRule(ab2, a2, b2, t2),
                       StepKeys(SplitRule(ab1, a1, b1, t1), keys)));
            && keys <= p <= keys + {a1, b1, a2, b2, a3, b3}
            && AfterSplit(keys, p, ab1, a1, b1) && AfterSplit(keys, p, ab2, a2, b2) && AfterSplit(keys, p, ab3, a3, b3)
  {
    var q1 := StepKeys(SplitRule(ab1, a1, b1, t1), keys);
    SplitKeys(ab1, a1, b1, t1, keys);
    var q2 := StepKeys(SplitRule(ab2, a2, b2, t2), q1);
    SplitKeys(ab2, a2, b2, t2, q1);
    var q3 := StepKeys(SplitRule(ab3, a3, b3, t3), q2);
    SplitKeys(ab3, a3, b3, t3, q2);
    FrameSame(keys, q1, {a1, b1}, a2, b2, ab2);
    FrameSame(keys, q1, {a1, b1}, a3, b3, ab3);
    FrameSame(q1, q2, {a2, b2}, a1, b1, ab1);
    FrameSame(q1, q2, {a2, b2}, a3, b3, ab3);
    FrameSame(q2, q3, {a3, b3}, a1, b1, ab1);
    FrameSame(q2, q3, {a3, b3}, a2, b2, ab2);
  }

  lemma InferThree(a1: string, b1: string, ab1: string, fromB1: Expr, fromA1: Expr,
                   a2: string, b2: string, ab2: string, fromB2: Expr, fromA2: Expr,
                   a3: string, b3: string, ab3: string, fromB3: Expr, fromA3: Expr, keys: set<string>)
    requires ab1 != a1 && ab1 != b1 && ab2 != a2 && ab2 != b2 && ab3 != a3 && ab3 != b3
    requires Apart({a2, b2}, a1, b1, ab1) && Apart({a3, b3}, a1, b1, ab1)
    requires Apart({a1, b1}, a2, b2, ab2) && Apart({a3, b3}, a2, b2, ab2)
    requires Apart({a1, b1}, a3, b3, ab3) && Apart({a2, b2}, a3, b3, ab3)
    ensures var p := StepKeys(InferRule(a3, b3, fromB3, fromA3), StepKeys(InferRule(a2, b2, fromB2, fromA2),
                       StepKeys(InferRule(a1, b1, fromB1, fromA1), keys)));
            && keys <= p <= keys + {a1, b1, a2, b2, a3, b3}
            && AfterInfer(keys, p, a1, b1, ab1) && AfterInfer(keys, p, a2, b2, ab2) && AfterInfer(keys, p, a3, b3, ab3)
  {
    var q1 := StepKeys(InferRule(a1, b1, fromB1, fromA1), keys);
    InferKeys(a1, b1, ab1, fromB1, fromA1, keys);
    var q2 := StepKeys(InferRule(a2, b2, fromB2, fromA2), q1);
    InferKeys(a2, b2, ab2, fromB2, fromA2, q1);
    var q3 := StepKeys(InferRule(a3, b3, fromB3, fromA3), q2);
    InferKeys(a3, b3, ab3, fromB3, fromA3, q2);
    FrameSame(keys, q1, {a1, b1}, a2, b2, ab2);
    FrameSame(keys, q1, {a1, b1}, a3, b3, ab3);
    FrameSame(q1, q2, {a2, b2}, a1, b1, ab1);
    FrameSame(q1, q2, {a2, b2}, a3, b3, ab3);
    FrameSame(q2, q3, {a3, b3}, a1, b1, ab1);
    FrameSame(q2, q3, {a3, b3}, a2, b2, ab2);
  }

  /** A sum rule, direct or in quadrature. */
  predicate IsSum(r: Rule, a: string, b: string, ab: string)
  {
    r == SumRule(a, b, ab) || r == QuadratureRule(a, b, ab)
  }

  lemma SumOne(r: Rule, a: string, b: string, ab: string, keys: set<string>)
    requires IsSum(r, a, b, ab)
    ensures keys <= StepKeys(r, keys) <= keys + {ab}
    ensures AfterSum(keys, StepKeys(r, keys), a, b, ab)
  {
    SumKeys(a, b, ab, keys);
  }

  lemma SumThree(r1: Rule, a1: string, b1: string, ab1: string,
                 r2: Rule, a2: string, b2: string, ab2: string,
                 r3: Rule, a3: string, b3: string, ab3: string, keys: set<string>)
    requires IsSum(r1, a1, b1, ab1) && IsSum(r2, a2, b2, ab2) && IsSum(r3, a3, b3, ab3)
    requires Apart({ab2}, a1, b1, ab1) && Apart({ab3}, a1, b1, ab1)
    requires Apart({ab1}, a2, b2, ab2) && Apart({ab3}, a2, b2, ab2)
    requires Apart({ab1}, a3, b3, ab3) && Apart({ab2}, a3, b3, ab3)
    ensures var p := StepKeys(r3, StepKeys(r2, StepKeys(r1, keys)));
            && keys <= p <= keys + {ab1, ab2, ab3}
            && AfterSum(keys, p, a1, b1, ab1) && AfterSum(keys, p, a2, b2, ab2) && AfterSum(keys, p, a3, b3, ab3)
  {
    var q1 := StepKeys(r1, keys);
    SumOne(r1, a1, b1, ab1, keys);
    var q2 := StepKeys(r2, q1);
    SumOne(r2, a2, b2, ab2, q1);
    var q3 := StepKeys(r3, q2);
    SumOne(r3, a3, b3, ab3, q2);
    FrameSame(keys, q1, {ab1}, a2, b2, ab2);
    FrameSame(keys, q1, {ab1}, a3, b3, ab3);
    FrameSame(q1, q2, {ab2}, a1, b1, ab1);
    FrameSame(q1, q2, {ab2}, a3, b3, ab3);
    FrameSame(q2, q3, {ab3}, a1, b1, ab1);
    FrameSame(q2, q3, {ab3}, a2, b2, ab2);
  }

  // ---- The stages, at the level of names ----

  /** The combine steps: add an [OII] or [SII] sum when both members are there. */
  predicate CombineFacts(k: set<string>, p: set<string>)
  {
    && k <= p <= k + {"OII3726+OII3729", "SII6716+SII6731", "OII3726+OII3729 error", "SII6716+SII6731 error"}
    && AfterSum(k, p, "OII3726", "OII3729", "OII3726+OII3729")
    && AfterSum(k, p, "SII6716", "SII6731", "SII6716+SII6731")
    && AfterSum(k, p, "OII3726 error", "OII3729 error", "OII3726+OII3729 error")
    && AfterSum(k, p, "SII6716 error", "SII6731 error", "SII6716+SII6731 error")
  }

  /** The split steps: split a doublet that is there without either member. */
  predicate SplitFacts(k: set<string>, p: set<string>, err: bool)
  {
    if err then
      && k <= p <= k + {"OIII4959 error", "OIII5007 error", "NII6548 error", "NII6583 error", "SIII9069 error", "SIII9531 error"}
      && AfterSplit(k, p, "OIII4959+OIII5007 error", "OIII4959 error", "OIII5007 error")
      && AfterSplit(k, p, "NII6548+NII6583 error", "NII6548 error", "NII6583 error")
      && AfterSplit(k, p, "SIII9069+SIII9531 error", "SIII9069 error", "SIII9531 error")
    else
      && k <= p <= k + {"OIII4959", "OIII5007", "NII6548", "NII6583", "SIII9069", "SIII9531"}
      && AfterSplit(k, p, "OIII4959+OIII5007", "OIII4959", "OIII5007")
      && AfterSplit(k, p, "NII6548+NII6583", "NII6548", "NII6583")
      && AfterSplit(k, p, "SIII9069+SIII9531", "SIII9069", "SIII9531")
  }

  /** The inference steps: fill in the missing member of a fixed-ratio doublet. */
  predicate InferFacts(k: set<string>, p: set<string>, err: bool)
  {
    if err then
      && k <= p <= k + {"NII6548 error", "NII6583 error", "OIII4959 error", "OIII5007 error", "SIII9531 error", "SIII9069 error"}
      && AfterInfer(k, p, "NII6548 error", "NII6583 error", "NII6548+NII6583 error")
      && AfterInfer(k, p, "OIII4959 error", "OIII5007 error", "OIII4959+OIII5007 error")
      && AfterInfer(k, p, "SIII9531 error", "SIII9069 error", "SIII9069+SIII9531 error")
    else
      && k <= p <= k + {"NII6548", "NII6583", "OIII4959", "OIII5007", "SIII9531", "SIII9069"}
      && AfterInfer(k, p, "NII6548", "NII6583", "NII6548+NII6583")
      && AfterInfer(k, p, "OIII4959", "OIII5007", "OIII4959+OIII5007")
      && AfterInfer(k, p, "SIII9531", "SIII9069", "SIII9069+SIII9531")
  }

  /** The sum steps: add a fixed-ratio doublet when both members are there. */
  predicate SumFacts(k: set<string>, p: set<string>, err: bool)
  {
    if err then
      && k <= p <= k + {"NII6548+NII6583 error", "OIII4959+OIII5007 error", "SIII9069+SIII9531 error"}
      && AfterSum(k, p, "NII6548 error", "NII6583 error", "NII6548+NII6583 error")
      && AfterSum(k, p, "OIII4959 error", "OIII5007 error", "OIII4959+OIII5007 error")
      && AfterSum(k, p, "SIII9069 error", "SIII9531 error", "SIII9069+SIII9531 error")
    else
      && k <= p <= k + {"NII6548+NII6583", "OIII4959+OIII5007", "SIII9069+SIII9531"}
      && AfterSum(k, p, "NII6548", "NII6583", "NII6548+NII6583")
      && AfterSum(k, p, "OIII4959", "OIII5007", "OIII4959+OIII5007")
      && AfterSum(k, p, "SIII9069", "SIII9531", "SIII9069+SIII9531")
  }

  lemma CombineStageKeys(keys: set<string>)
    ensures CombineFacts(keys, KeysAfter(CombineRules, keys))
  {
    var r1, r2, r3, r4 := CombineRules[0], CombineRules[1], CombineRules[2], CombineRules[3];
    assert CombineRules[..3] == [r1, r2, r3];
    KeysAfterThree(r1, r2, r3, keys);
    var q3 := StepKeys(r3, StepKeys(r2, StepKeys(r1, keys)));
    SumThree(r1, "OII3726", "OII3729", "OII3726+OII3729",
             r2, "SII6716", "SII6731", "SII6716+SII6731",
             r3, "OII3726 error", "OII3729 error", "OII3726+OII3729 error", keys);
    SumOne(r4, "SII6716 error", "SII6731 error", "SII6716+SII6731 error", q3);
    FrameSame(q3, StepKeys(r4, q3), {"SII6716+SII6731 error"}, "OII3726", "OII3729", "OII3726+OII3729");
    FrameSame(q3, StepKeys(r4, q3), {"SII6716+SII6731 error"}, "SII6716", "SII6731", "SII6716+SII6731");
    FrameSame(q3, StepKeys(r4, q3), {"SII6716+SII6731 error"}, "OII3726 error", "OII3729 error", "OII3726+OII3729 error");
    FrameSame(keys, q3, {"OII3726+OII3729", "SII6716+SII6731", "OII3726+OII3729 error"},
              "SII6716 error", "SII6731 error", "SII6716+SII6731 error");
  }

  lemma SplitStageKeys(keys: set<string>)
    ensures SplitFacts(keys, KeysAfter(SplitRules, keys), false)
  {
    var r1, r2, r3 := SplitRules[0], SplitRules[1], SplitRules[2];
    KeysAfterThree(r1, r2, r3, keys);
    SplitThree("OIII4959+OIII5007", "OIII4959", "OIII5007", 2.94,
               "NII6548+NII6583", "NII6548", "NII6583", 3.06,
               "SIII9069+SIII9531", "SIII9069", "SIII9531", 2.47, keys);
  }

  lemma SplitErrorStageKeys(keys: set<string>)
    ensures SplitFacts(keys, KeysAfter(SplitErrorRules, keys), true)
  {
    var r1, r2, r3 := SplitErrorRules[0], SplitErrorRules[1], SplitErrorRules[2];
    KeysAfterThree(r1, r2, r3, keys);
    SplitThree("OIII4959+OIII5007 error", "OIII4959 error", "OIII5007 error", 2.94,
               "NII6548+NII6583 error", "NII6548 error", "NII6583 error", 3.06,
               "SIII9069+SIII9531 error", "SIII9069 error", "SIII9531 error", 2.47, keys);
  }

  lemma InferStageKeys(keys: set<string>)
    ensures InferFacts(keys, KeysAfter(InferRules, keys), false)
  {
    var r1, r2, r3 := InferRules[0], InferRules[1], InferRules[2];
    KeysAfterThree(r1, r2, r3, keys);
    InferThree("NII6548", "NII6583", "NII6548+NII6583", Over(Col("NII6583"), Const(3.06)), Times(Col("NII6548"), Const(3.06)),
               "OIII4959", "OIII5007", "OIII4959+OIII5007", Over(Col("OIII5007"), Const(2.94)), Times(Col("OIII4959"), Const(2.94)),
               "SIII9531", "SIII9069", "SIII9069+SIII9531", Times(Col("SIII9069"), Const(2.947)), Over(Col("SIII9531"), Const(2.947)), keys);
  }

  lemma InferErrorStageKeys(keys: set<string>)
    ensures InferFacts(keys, KeysAfter(InferErrorRules, keys), true)
  {
    var r1, r2, r3 := InferErrorRules[0], InferErrorRules[1], InferErrorRules[2];
    KeysAfterThree(r1, r2, r3, keys);
    InferThree("NII6548 error", "NII6583 error", "NII6548+NII6583 error", Over(Col("NII6583 error"), Const(3.06)), Times(Col("NII6548 error"), Const(3.06)),
               "OIII4959 error", "OIII5007 error", "OIII4959+OIII5007 error", Over(Col("OIII5007 error"), Const(2.94)), Times(Col("OIII4959 error"), Const(2.94)),
               "SIII9531 error", "SIII9069 error", "SIII9069+SIII9531 error", Times(Col("SIII9069 error"), Const(2.947)), Over(Col("SIII9531 error"), Const(2.947)), keys);
  }

  lemma SumStageKeys(keys: set<string>)
    ensures SumFacts(keys, KeysAfter(SumRules, keys), false)
  {
    var r1, r2, r3 := SumRules[0], SumRules[1], SumRules[2];
    KeysAfterThree(r1, r2, r3, keys);
    SumThree(r1, "NII6548", "NII6583", "NII6548+NII6583",
             r2, "OIII4959", "OIII5007", "OIII4959+OIII5007",
             r3, "SIII9069", "SIII9531", "SIII9069+SIII9531", keys);
  }

  lemma SumErrorStageKeys(keys: set<string>)
    ensures SumFacts(keys, KeysAfter(SumErrorRules, keys), true)
  {
    var r1, r2, r3 := SumErrorRules[0], SumErrorRules[1], SumErrorRules[2];
    KeysAfterThree(r1, r2, r3, keys);
    SumThree(r1, "NII6548 error", "NII6583 error", "NII6548+NII6583 error",
             r2, "OIII4959 error", "OIII5007 error", "OIII4959+OIII5007 error",
             r3, "SIII9069 error", "SIII9531 error", "SIII9069+SIII9531 error", keys);
  }


  /** Names after the whole stage, stage by stage. */
  lemma DoubletKeysChain(keys: set<string>)
    ensures KeysAfter(DoubletRules, keys) ==
              KeysAfter(SumErrorRules, KeysAfter(SumRules, KeysAfter(InferErrorRules, KeysAfter(InferRules,
                KeysAfter(SplitErrorRules, KeysAfter(SplitRules, KeysAfter(CombineRules, keys)))))))
  {
    KeysAfterAppend(CombineRules + SplitRules, LaterDoubletRules, keys);
    KeysAfterAppend(CombineRules, SplitRules, keys);
    var k2 := KeysAfter(CombineRules + SplitRules, keys);
    var se, i, ie, su := SplitErrorRules, InferRules, InferErrorRules, SumRules;
    KeysAfterAppend(se + i + ie + su, SumErrorRules, k2);
    KeysAfterAppend(se + i + ie, su, k2);
    KeysAfterAppend(se + i, ie, k2);
    KeysAfterAppend(se, i, k2);
  }

  // ---- Settled names ----

  /** With both members present the pair has its sum. */
  predicate Summed(keys: set<string>, a: string, b: string, ab: string)
  {
    a in keys && b in keys ==> ab in keys
  }

  /** A fixed-ratio family is all present or all absent. */
  predicate Whole(keys: set<string>, a: string, b: string, ab: string)
  {
    a in keys || b in keys || ab in keys ==> a in keys && b in keys && ab in keys
  }

  /** The doublet columns as the stage leaves them. */
  predicate Settled(keys: set<string>)
  {
    && Summed(keys, "OII3726", "OII3729", "OII3726+OII3729")
    && Summed(keys, "SII6716", "SII6731", "SII6716+SII6731")
    && Summed(keys, "OII3726 error", "OII3729 error", "OII3726+OII3729 error")
    && Summed(keys, "SII6716 error", "SII6731 error", "SII6716+SII6731 error")
    && Whole(keys, "OIII4959", "OIII5007", "OIII4959+OIII5007")
    && Whole(keys, "NII6548", "NII6583", "NII6548+NII6583")
    && Whole(keys, "SIII9069", "SIII9531", "SIII9069+SIII9531")
    && Whole(keys, "OIII4959 error", "OIII5007 error", "OIII4959+OIII5007 error")
    && Whole(keys, "NII6548 error", "NII6583 error", "NII6548+NII6583 error")
    && Whole(keys, "SIII9069 error", "SIII9531 error", "SIII9069+SIII9531 error")
  }

  /** A pair summed by the combine steps stays summed through steps that leave its names alone. */
  lemma PairKept(k0: set<string>, k1: set<string>, k2: set<string>, k3: set<string>, k4: set<string>,
                 k5: set<string>, k6: set<string>, k7: set<string>, a: string, b: string, ab: string)
    requires AfterSum(k0, k1, a, b, ab) && Same(k1, k2, a, b, ab) && Same(k2, k3, a, b, ab)
    requires Same(k3, k4, a, b, ab) && Same(k4, k5, a, b, ab) && Same(k5, k6, a, b, ab) && Same(k6, k7, a, b, ab)
    ensures Summed(k7, a, b, ab)
  {
  }

  /** A fixed-ratio family through a split, an inference and a sum, with steps that leave it alone between. */
  lemma FamilyWhole(k0: set<string>, k1: set<string>, k2: set<string>, k3: set<string>, k4: set<string>,
                    k5: set<string>, k6: set<string>, a: string, b: string, ab: string)
    requires AfterSplit(k0, k1, ab, a, b) && Same(k1, k2, a, b, ab) && AfterInfer(k2, k3, a, b, ab)
    requires Same(k3, k4, a, b, ab) && AfterSum(k4, k5, a, b, ab) && Same(k5, k6, a, b, ab)
    ensures Whole(k6, a, b, ab)
  {
  }

  lemma OIISettles(
    k0: set<string>, k1: set<string>, k2: set<string>, k3: set<string>,
    k4: set<string>, k5: set<string>, k6: set<string>, k7: set<string>)
    requires AfterSum(k0, k1, "OII3726", "OII3729", "OII3726+OII3729")
    requires k1 <= k2 <= k1 + {"OIII4959", "OIII5007", "NII6548", "NII6583", "SIII9069", "SIII9531"}
    requires k2 <= k3 <= k2 + {"OIII4959 error", "OIII5007 error", "NII6548 error", "NII6583 error", "SIII9069 error", "SIII9531 error"}
    requires k3 <= k4 <= k3 + {"NII6548", "NII6583", "OIII4959", "OIII5007", "SIII9531", "SIII9069"}
    requires k4 <= k5 <= k4 + {"NII6548 error", "NII6583 error", "OIII4959 error", "OIII5007 error", "SIII9531 error", "SIII9069 error"}
    requires k5 <= k6 <= k5 + {"NII6548+NII6583", "OIII4959+OIII5007", "SIII9069+SIII9531"}
    requires k6 <= k7 <= k6 + {"NII6548+NII6583 error", "OIII4959+OIII5007 error", "SIII9069+SIII9531 error"}
    ensures Summed(k7, "OII3726", "OII3729", "OII3726+OII3729")
  {
    FrameSame(k1, k2, {"OIII4959", "OIII5007", "NII6548", "NII6583", "SIII9069", "SIII9531"}, "OII3726", "OII3729", "OII3726+OII3729");
    FrameSame(k2, k3, {"OIII4959 error", "OIII5007 error", "NII6548 error", "NII6583 error", "SIII9069 error", "SIII9531 error"}, "OII3726", "OII3729", "OII3726+OII3729");
    FrameSame(k3, k4, {"NII6548", "NII6583", "OIII4959", "OIII5007", "SIII9531", "SIII9069"}, "OII3726", "OII3729", "OII3726+OII3729");
    FrameSame(k4, k5, {"NII6548 error", "NII6583 error", "OIII4959 error", "OIII5007 error", "SIII9531 error", "SIII9069 error"}, "OII3726", "OII3729", "OII3726+OII3729");
    FrameSame(k5, k6, {"NII6548+NII6583", "OIII4959+OIII5007", "SIII9069+SIII9531"}, "OII3726", "OII3729", "OII3726+OII3729");
    FrameSame(k6, k7, {"NII6548+NII6583 error", "OIII4959+OIII5007 error", "SIII9069+SIII9531 error"}, "OII3726", "OII3729", "OII3726+OII3729");
    PairKept(k0, k1, k2, k3, k4, k5, k6, k7, "OII3726", "OII3729", "OII3726+OII3729");
  }

  lemma SIISettles(
    k0: set<string>, k1: set<string>, k2: set<string>, k3: set<string>,
    k4: set<string>, k5: set<string>, k6: set<string>, k7: set<string>)
    requires AfterSum(k0, k1, "SII6716", "SII6731", "SII6716+SII6731")
    requires k1 <= k2 <= k1 + {"OIII4959", "OIII5007", "NII6548", "NII6583", "SIII9069", "SIII9531"}
    requires k2 <= k3 <= k2 + {"OIII4959 error", "OIII5007 error", "NII6548 error", "NII6583 error", "SIII9069 error", "SIII9531 error"}
    requires k3 <= k4 <= k3 + {"NII6548", "NII6583", "OIII4959", "OIII5007", "SIII9531", "SIII9069"}
    requires k4 <= k5 <= k4 + {"NII6548 error", "NII6583 error", "OIII4959 error", "OIII5007 error", "SIII9531 error", "SIII9069 error"}
    requires k5 <= k6 <= k5 + {"NII6548+NII6583", "OIII4959+OIII5007", "SIII9069+SIII9531"}
    requires k6 <= k7 <= k6 + {"NII6548+NII6583 error", "OIII4959+OIII5007 error", "SIII9069+SIII9531 error"}
    ensures Summed(k7, "SII6716", "SII6731", "SII6716+SII6731")
  {
    FrameSame(k1, k2, {"OIII4959", "OIII5007", "NII6548", "NII6583", "SIII9069", "SIII9531"}, "SII6716", "SII6731", "SII6716+SII6731");
    FrameSame(k2, k3, {"OIII4959 error", "OIII5007 error", "NII6548 error", "NII6583 error", "SIII9069 error", "SIII9531 error"}, "SII6716", "SII6731", "SII6716+SII6731");
    FrameSame(k3, k4, {"NII6548", "NII6583", "OIII4959", "OIII5007", "SIII9531", "SIII9069"}, "SII6716", "SII6731", "SII6716+SII6731");
    FrameSame(k4, k5, {"NII6548 error", "NII6583 error", "OIII4959 error", "OIII5007 error", "SIII9531 error", "SIII9069 error"}, "SII6716", "SII6731", "SII6716+SII6731");
    FrameSame(k5, k6, {"NII6548+NII6583", "OIII4959+OIII5007", "SIII9069+SIII9531"}, "SII6716", "SII6731", "SII6716+SII6731");
    FrameSame(k6, k7, {"NII6548+NII6583 error", "OIII4959+OIII5007 error", "SIII9069+SIII9531 error"}, "SII6716", "SII6731", "SII6716+SII6731");
    PairKept(k0, k1, k2, k3, k4, k5, k6, k7, "SII6716", "SII6731", "SII6716+SII6731");
  }

  lemma OIIErrorSettles(
    k0: set<string>, k1: set<string>, k2: set<string>, k3: set<string>,
    k4: set<string>, k5: set<string>, k6: set<string>, k7: set<string>)
    requires AfterSum(k0, k1, "OII3726 error", "OII3729 error", "OII3726+OII3729 error")
    requires k1 <= k2 <= k1 + {"OIII4959", "OIII5007", "NII6548", "NII6583", "SIII9069", "SIII9531"}
    requires k2 <= k3 <= k2 + {"OIII4959 error", "OIII5007 error", "NII6548 error", "NII6583 error", "SIII9069 error", "SIII9531 error"}
    requires k3 <= k4 <= k3 + {"NII6548", "NII6583", "OIII4959", "OIII5007", "SIII9531", "SIII9069"}
    requires k4 <= k5 <= k4 + {"NII6548 error", "NII6583 error", "OIII4959 error", "OIII5007 error", "SIII9531 error", "SIII9069 error"}
    requires k5 <= k6 <= k5 + {"NII6548+NII6583", "OIII4959+OIII5007", "SIII9069+SIII9531"}
    requires k6 <= k7 <= k6 + {"NII6548+NII6583 error", "OIII4959+OIII5007 error", "SIII9069+SIII9531 error"}
    ensures Summed(k7, "OII3726 error", "OII3729 error", "OII3726+OII3729 error")
  {
    FrameSame(k1, k2, {"OIII4959", "OIII5007", "NII6548", "NII6583", "SIII9069", "SIII9531"}, "OII3726 error", "OII3729 error", "OII3726+OII3729 error");
    FrameSame(k2, k3, {"OIII4959 error", "OIII5007 error", "NII6548 error", "NII6583 error", "SIII9069 error", "SIII9531 error"}, "OII3726 error", "OII3729 error", "OII3726+OII3729 error");
    FrameSame(k3, k4, {"NII6548", "NII6583", "OIII4959", "OIII5007", "SIII9531", "SIII9069"}, "OII3726 error", "OII3729 error", "OII3726+OII3729 error");
    FrameSame(k4, k5, {"NII6548 error", "NII6583 error", "OIII4959 error", "OIII5007 error", "SIII9531 error", "SIII9069 error"}, "OII3726 error", "OII3729 error", "OII3726+OII3729 error");
    FrameSame(k5, k6, {"NII6548+NII6583", "OIII4959+OIII5007", "SIII9069+SIII9531"}, "OII3726 error", "OII3729 error", "OII3726+OII3729 error");
    FrameSame(k6, k7, {"NII6548+NII6583 error", "OIII4959+OIII5007 error", "SIII9069+SIII9531 error"}, "OII3726 error", "OII3729 error", "OII3726+OII3729 error");
    PairKept(k0, k1, k2, k3, k4, k5, k6, k7, "OII3726 error", "OII3729 error", "OII3726+OII3729 error");
  }

  lemma SIIErrorSettles(
    k0: set<string>, k1: set<string>, k2: set<string>, k3: set<string>,
    k4: set<string>, k5: set<string>, k6: set<string>, k7: set<string>)
    requires AfterSum(k0, k1, "SII6716 error", "SII6731 error", "SII6716+SII6731 error")
    requires k1 <= k2 <= k1 + {"OIII4959", "OIII5007", "NII6548", "NII6583", "SIII9069", "SIII9531"}
    requires k2 <= k3 <= k2 + {"OIII4959 error", "OIII5007 error", "NII6548 error", "NII6583 error", "SIII9069 error", "SIII9531 error"}
    requires k3 <= k4 <= k3 + {"NII6548", "NII6583", "OIII4959", "OIII5007", "SIII9531", "SIII9069"}
    requires k4 <= k5 <= k4 + {"NII6548 error", "NII6583 error", "OIII4959 error", "OIII5007 error", "SIII9531 error", "SIII9069 error"}
    requires k5 <= k6 <= k5 + {"NII6548+NII6583", "OIII4959+OIII5007", "SIII9069+SIII9531"}
    requires k6 <= k7 <= k6 + {"NII6548+NII6583 error", "OIII4959+OIII5007 error", "SIII9069+SIII9531 error"}
    ensures Summed(k7, "SII6716 error", "SII6731 error", "SII6716+SII6731 error")
  {
    FrameSame(k1, k2, {"OIII4959", "OIII5007", "NII6548", "NII6583", "SIII9069", "SIII9531"}, "SII6716 error", "SII6731 error", "SII6716+SII6731 error");
    FrameSame(k2, k3, {"OIII4959 error", "OIII5007 error", "NII6548 error", "NII6583 error", "SIII9069 error", "SIII9531 error"}, "SII6716 error", "SII6731 error", "SII6716+SII6731 error");
    FrameSame(k3, k4, {"NII6548", "NII6583", "OIII4959", "OIII5007", "SIII9531", "SIII9069"}, "SII6716 error", "SII6731 error", "SII6716+SII6731 error");
    FrameSame(k4, k5, {"NII6548 error", "NII6583 error", "OIII4959 error", "OIII5007 error", "SIII9531 error", "SIII9069 error"}, "SII6716 error", "SII6731 error", "SII6716+SII6731 error");
    FrameSame(k5, k6, {"NII6548+NII6583", "OIII4959+OIII5007", "SIII9069+SIII9531"}, "SII6716 error", "SII6731 error", "SII6716+SII6731 error");
    FrameSame(k6, k7, {"NII6548+NII6583 error", "OIII4959+OIII5007 error", "SIII9069+SIII9531 error"}, "SII6716 error", "SII6731 error", "SII6716+SII6731 error");
    PairKept(k0, k1, k2, k3, k4, k5, k6, k7, "SII6716 error", "SII6731 error", "SII6716+SII6731 error");
  }

  lemma OIIISettles(
    k0: set<string>, k1: set<string>, k2: set<string>, k3: set<string>,
    k4: set<string>, k5: set<string>, k6: set<string>, k7: set<string>)
    requires AfterSplit(k1, k2, "OIII4959+OIII5007", "OIII4959", "OIII5007")
    requires k2 <= k3 <= k2 + {"OIII4959 error", "OIII5007 error", "NII6548 error", "NII6583 error", "SIII9069 error", "SIII9531 error"}
    requires AfterInfer(k3, k4, "OIII4959", "OIII5007", "OIII4959+OIII5007")
    requires k4 <= k5 <= k4 + {"NII6548 error", "NII6583 error", "OIII4959 error", "OIII5007 error", "SIII9531 error", "SIII9069 error"}
    requires AfterSum(k5, k6, "OIII4959", "OIII5007", "OIII4959+OIII5007")
    requires k6 <= k7 <= k6 + {"NII6548+NII6583 error", "OIII4959+OIII5007 error", "SIII9069+SIII9531 error"}
    ensures Whole(k7, "OIII4959", "OIII5007", "OIII4959+OIII5007")
  {
    FrameSame(k2, k3, {"OIII4959 error", "OIII5007 error", "NII6548 error", "NII6583 error", "SIII9069 error", "SIII9531 error"}, "OIII4959", "OIII5007", "OIII4959+OIII5007");
    FrameSame(k4, k5, {"NII6548 error", "NII6583 error", "OIII4959 error", "OIII5007 error", "SIII9531 error", "SIII9069 error"}, "OIII4959", "OIII5007", "OIII4959+OIII5007");
    FrameSame(k6, k7, {"NII6548+NII6583 error", "OIII4959+OIII5007 error", "SIII9069+SIII9531 error"}, "OIII4959", "OIII5007", "OIII4959+OIII5007");
    FamilyWhole(k1, k2, k3, k4, k5, k6, k7, "OIII4959", "OIII5007", "OIII4959+OIII5007");
  }

  lemma NIISettles(
    k0: set<string>, k1: set<string>, k2: set<string>, k3: set<string>,
    k4: set<string>, k5: set<string>, k6: set<string>, k7: set<string>)
    requires AfterSplit(k1, k2, "NII6548+NII6583", "NII6548", "NII6583")
    requires k2 <= k3 <= k2 + {"OIII4959 error", "OIII5007 error", "NII6548 error", "NII6583 error", "SIII9069 error", "SIII9531 error"}
    requires AfterInfer(k3, k4, "NII6548", "NII6583", "NII6548+NII6583")
    requires k4 <= k5 <= k4 + {"NII6548 error", "NII6583 error", "OIII4959 error", "OIII5007 error", "SIII9531 error", "SIII9069 error"}
    requires AfterSum(k5, k6, "NII6548", "NII6583", "NII6548+NII6583")
    requires k6 <= k7 <= k6 + {"NII6548+NII6583 error", "OIII4959+OIII5007 error", "SIII9069+SIII9531 error"}
    ensures Whole(k7, "NII6548", "NII6583", "NII6548+NII6583")
  {
    FrameSame(k2, k3, {"OIII4959 error", "OIII5007 error", "NII6548 error", "NII6583 error", "SIII9069 error", "SIII9531 error"}, "NII6548", "NII6583", "NII6548+NII6583");
    FrameSame(k4, k5, {"NII6548 error", "NII6583 error", "OIII4959 error", "OIII5007 error", "SIII9531 error", "SIII9069 error"}, "NII6548", "NII6583", "NII6548+NII6583");
    FrameSame(k6, k7, {"NII6548+NII6583 error", "OIII4959+OIII5007 error", "SIII9069+SIII9531 error"}, "NII6548", "NII6583", "NII6548+NII6583");
    FamilyWhole(k1, k2, k3, k4, k5, k6, k7, "NII6548", "NII6583", "NII6548+NII6583");
  }

  lemma SIIISettles(
    k0: set<string>, k1: set<string>, k2: set<string>, k3: set<string>,
    k4: set<string>, k5: set<string>, k6: set<string>, k7: set<string>)
    requires AfterSplit(k1, k2, "SIII9069+SIII9531", "SIII9069", "SIII9531")
    requires k2 <= k3 <= k2 + {"OIII4959 error", "OIII5007 error", "NII6548 error", "NII6583 error", "SIII9069 error", "SIII9531 error"}
    requires AfterInfer(k3, k4, "SIII9531", "SIII9069", "SIII9069+SIII9531")
    requires k4 <= k5 <= k4 + {"NII6548 error", "NII6583 error", "OIII4959 error", "OIII5007 error", "SIII9531 error", "SIII9069 error"}
    requires AfterSum(k5, k6, "SIII9069", "SIII9531", "SIII9069+SIII9531")
    requires k6 <= k7 <= k6 + {"NII6548+NII6583 error", "OIII4959+OIII5007 error", "SIII9069+SIII9531 error"}
    ensures Whole(k7, "SIII9069", "SIII9531", "SIII9069+SIII9531")
  {
    FrameSame(k2, k3, {"OIII4959 error", "OIII5007 error", "NII6548 error", "NII6583 error", "SIII9069 error", "SIII9531 error"}, "SIII9069", "SIII9531", "SIII9069+SIII9531");
    FrameSame(k4, k5, {"NII6548 error", "NII6583 error", "OIII4959 error", "OIII5007 error", "SIII9531 error", "SIII9069 error"}, "SIII9069", "SIII9531", "SIII9069+SIII9531");
    FrameSame(k6, k7, {"NII6548+NII6583 error", "OIII4959+OIII5007 error", "SIII9069+SIII9531 error"}, "SIII9069", "SIII9531", "SIII9069+SIII9531");
    FamilyWhole(k1, k2, k3, k4, k5, k6, k7, "SIII9069", "SIII9531", "SIII9069+SIII9531");
  }

  lemma OIIIErrorSettles(
    k0: set<string>, k1: set<string>, k2: set<string>, k3: set<string>,
    k4: set<string>, k5: set<string>, k6: set<string>, k7: set<string>)
    requires AfterSplit(k2, k3, "OIII4959+OIII5007 error", "OIII4959 error", "OIII5007 error")
    requires k3 <= k4 <= k3 + {"NII6548", "NII6583", "OIII4959", "OIII5007", "SIII9531", "SIII9069"}
    requires AfterInfer(k4, k5, "OIII4959 error", "OIII5007 error", "OIII4959+OIII5007 error")
    requires k5 <= k6 <= k5 + {"NII6548+NII6583", "OIII4959+OIII5007", "SIII9069+SIII9531"}
    requires AfterSum(k6, k7, "OIII4959 error", "OIII5007 error", "OIII4959+OIII5007 error")
    ensures Whole(k7, "OIII4959 error", "OIII5007 error", "OIII4959+OIII5007 error")
  {
    FrameSame(k3, k4, {"NII6548", "NII6583", "OIII4959", "OIII5007", "SIII9531", "SIII9069"}, "OIII4959 error", "OIII5007 error", "OIII4959+OIII5007 error");
    FrameSame(k5, k6, {"NII6548+NII6583", "OIII4959+OIII5007", "SIII9069+SIII9531"}, "OIII4959 error", "OIII5007 error", "OIII4959+OIII5007 error");
    FamilyWhole(k2, k3, k4, k5, k6, k7, k7, "OIII4959 error", "OIII5007 error", "OIII4959+OIII5007 error");
  }

  lemma NIIErrorSettles(
    k0: set<string>, k1: set<string>, k2: set<string>, k3: set<string>,
    k4: set<string>, k5: set<string>, k6: set<string>, k7: set<string>)
    requires AfterSplit(k2, k3, "NII6548+NII6583 error", "NII6548 error", "NII6583 error")
    requires k3 <= k4 <= k3 + {"NII6548", "NII6583", "OIII4959", "OIII5007", "SIII9531", "SIII9069"}
    requires AfterInfer(k4, k5, "NII6548 error", "NII6583 error", "NII6548+NII6583 error")
    requires k5 <= k6 <= k5 + {"NII6548+NII6583", "OIII4959+OIII5007", "SIII9069+SIII9531"}
    requires AfterSum(k6, k7, "NII6548 error", "NII6583 error", "NII6548+NII6583 error")
    ensures Whole(k7, "NII6548 error", "NII6583 error", "NII6548+NII6583 error")
  {
    FrameSame(k3, k4, {"NII6548", "NII6583", "OIII4959", "OIII5007", "SIII9531", "SIII9069"}, "NII6548 error", "NII6583 error", "NII6548+NII6583 error");
    FrameSame(k5, k6, {"NII6548+NII6583", "OIII4959+OIII5007", "SIII9069+SIII9531"}, "NII6548 error", "NII6583 error", "NII6548+NII6583 error");
    FamilyWhole(k2, k3, k4, k5, k6, k7, k7, "NII6548 error", "NII6583 error", "NII6548+NII6583 error");
  }

  lemma SIIIErrorSettles(
    k0: set<string>, k1: set<string>, k2: set<string>, k3: set<string>,
    k4: set<string>, k5: set<string>, k6: set<string>, k7: set<string>)
    requires AfterSplit(k2, k3, "SIII9069+SIII9531 error", "SIII9069 error", "SIII9531 error")
    requires k3 <= k4 <= k3 + {"NII6548", "NII6583", "OIII4959", "OIII5007", "SIII9531", "SIII9069"}
    requires AfterInfer(k4, k5, "SIII9531 error", "SIII9069 error", "SIII9069+SIII9531 error")
    requires k5 <= k6 <= k5 + {"NII6548+NII6583", "OIII4959+OIII5007", "SIII9069+SIII9531"}
    requires AfterSum(k6, k7, "SIII9069 error", "SIII9531 error", "SIII9069+SIII9531 error")
    ensures Whole(k7, "SIII9069 error", "SIII9531 error", "SIII9069+SIII9531 error")
  {
    FrameSame(k3, k4, {"NII6548", "NII6583", "OIII4959", "OIII5007", "SIII9531", "SIII9069"}, "SIII9069 error", "SIII9531 error", "SIII9069+SIII9531 error");
    FrameSame(k5, k6, {"NII6548+NII6583", "OIII4959+OIII5007", "SIII9069+SIII9531"}, "SIII9069 error", "SIII9531 error", "SIII9069+SIII9531 error");
    FamilyWhole(k2, k3, k4, k5, k6, k7, k7, "SIII9069 error", "SIII9531 error", "SIII9069+SIII9531 error");
  }

  /** After one pass the doublet columns are settled: pairs summed, fixed-ratio families whole. */
  lemma DoubletKeysSettle(keys: set<string>)
    ensures Settled(KeysAfter(DoubletRules, keys))
  {
    DoubletKeysChain(keys);
    var k1 := KeysAfter(CombineRules, keys);
    CombineStageKeys(keys);
    var k2 := KeysAfter(SplitRules, k1);
    SplitStageKeys(k1);
    var k3 := KeysAfter(SplitErrorRules, k2);
    SplitErrorStageKeys(k2);
    var k4 := KeysAfter(InferRules, k3);
    InferStageKeys(k3);
    var k5 := KeysAfter(InferErrorRules, k4);
    InferErrorStageKeys(k4);
    var k6 := KeysAfter(SumRules, k5);
    SumStageKeys(k5);
    var k7 := KeysAfter(SumErrorRules, k6);
    SumErrorStageKeys(k6);
    OIISettles(keys, k1, k2, k3, k4, k5, k6, k7);
    SIISettles(keys, k1, k2, k3, k4, k5, k6, k7);
    OIIErrorSettles(keys, k1, k2, k3, k4, k5, k6, k7);
    SIIErrorSettles(keys, k1, k2, k3, k4, k5, k6, k7);
    OIIISettles(keys, k1, k2, k3, k4, k5, k6, k7);
    NIISettles(keys, k1, k2, k3, k4, k5, k6, k7);
    SIIISettles(keys, k1, k2, k3, k4, k5, k6, k7);
    OIIIErrorSettles(keys, k1, k2, k3, k4, k5, k6, k7);
    NIIErrorSettles(keys, k1, k2, k3, k4, k5, k6, k7);
    SIIIErrorSettles(keys, k1, k2, k3, k4, k5, k6, k7);
  }

  // ---- A settled frame passes every guard by ----

  /** Every guard of the rules fails on these names. */
  predicate Quiet(rs: seq<Rule>, keys: set<string>)
  {
    forall r :: r in rs ==> Selected(r.branches, keys).None?
  }

  lemma SumQuiet(a: string, b: string, ab: string, keys: set<string>)
    requires Summed(keys, a, b, ab)
    ensures Selected(SumRule(a, b, ab).branches, keys).None?
    ensures Selected(QuadratureRule(a, b, ab).branches, keys).None?
  {
    assert ab in SumRule(a, b, ab).branches[0].absent;
    assert ab in QuadratureRule(a, b, ab).branches[0].absent;
    if a !in keys {
      assert a in SumRule(a, b, ab).branches[0].need;
    } else if b !in keys {
      assert b in SumRule(a, b, ab).branches[0].need;
    }
  }

  lemma SplitQuiet(ab: string, a: string, b: string, ratio: real, keys: set<string>)
    requires ratio > 0.0 && Whole(keys, a, b, ab)
    ensures Selected(SplitRule(ab, a, b, ratio).branches, keys).None?
  {
    var br := SplitRule(ab, a, b, ratio).branches[0];
    assert ab in br.need && a in br.absent;
  }

  lemma InferQuiet(a: string, b: string, fromB: Expr, fromA: Expr, keys: set<string>)
    requires a in keys <==> b in keys
    ensures Selected(InferRule(a, b, fromB, fromA).branches, keys).None?
  {
    var bs := InferRule(a, b, fromB, fromA).branches;
    assert b in bs[0].need && a in bs[0].absent;
    assert a in bs[1].need && b in bs[1].absent;
  }

  lemma QuietThree(r1: Rule, r2: Rule, r3: Rule, keys: set<string>)
    requires Selected(r1.branches, keys).None? && Selected(r2.branches, keys).None? && Selected(r3.branches, keys).None?
    ensures Quiet([r1, r2, r3], keys)
  {
  }

  lemma QuietAppend(a: seq<Rule>, b: seq<Rule>, keys: set<string>)
    requires Quiet(a, keys) && Quiet(b, keys)
    ensures Quiet(a + b, keys)
  {
  }

  lemma CombineQuiet(keys: set<string>)
    requires Settled(keys)
    ensures Quiet(CombineRules, keys)
  {
    SumQuiet("OII3726", "OII3729", "OII3726+OII3729", keys);
    SumQuiet("SII6716", "SII6731", "SII6716+SII6731", keys);
    SumQuiet("OII3726 error", "OII3729 error", "OII3726+OII3729 error", keys);
    SumQuiet("SII6716 error", "SII6731 error", "SII6716+SII6731 error", keys);
    QuietThree(CombineRules[0], CombineRules[1], CombineRules[2], keys);
    QuietAppend([CombineRules[0], CombineRules[1], CombineRules[2]], [CombineRules[3]], keys);
    assert CombineRules == [CombineRules[0], CombineRules[1], CombineRules[2]] + [CombineRules[3]];
  }

  lemma SplitsQuiet(keys: set<string>)
    requires Settled(keys)
    ensures Quiet(SplitRules, keys) && Quiet(SplitErrorRules, keys)
  {
    SplitQuiet("OIII4959+OIII5007", "OIII4959", "OIII5007", 2.94, keys);
    SplitQuiet("NII6548+NII6583", "NII6548", "NII6583", 3.06, keys);
    SplitQuiet("SIII9069+SIII9531", "SIII9069", "SIII9531", 2.47, keys);
    QuietThree(SplitOIII, SplitNII, SplitSIII, keys);
    SplitQuiet("OIII4959+OIII5007 error", "OIII4959 error", "OIII5007 error", 2.94, keys);
    SplitQuiet("NII6548+NII6583 error", "NII6548 error", "NII6583 error", 3.06, keys);
    SplitQuiet("SIII9069+SIII9531 error", "SIII9069 error", "SIII9531 error", 2.47, keys);
    QuietThree(SplitErrorRules[0], SplitErrorRules[1], SplitErrorRules[2], keys);
  }

  lemma InfersQuiet(keys: set<string>)
    requires Settled(keys)
    ensures Quiet(InferRules, keys) && Quiet(InferErrorRules, keys)
  {
    InferQuiet("NII6548", "NII6583", Over(Col("NII6583"), Const(3.06)), Times(Col("NII6548"), Const(3.06)), keys);
    InferQuiet("OIII4959", "OIII5007", Over(Col("OIII5007"), Const(2.94)), Times(Col("OIII4959"), Const(2.94)), keys);
    InferQuiet("SIII9531", "SIII9069", Times(Col("SIII9069"), Const(2.947)), Over(Col("SIII9531"), Const(2.947)), keys);
    QuietThree(InferRules[0], InferRules[1], InferRules[2], keys);
    InferQuiet("NII6548 error", "NII6583 error", Over(Col("NII6583 error"), Const(3.06)), Times(Col("NII6548 error"), Const(3.06)), keys);
    InferQuiet("OIII4959 error", "OIII5007 error", Over(Col("OIII5007 error"), Const(2.94)), Times(Col("OIII4959 error"), Const(2.94)), keys);
    InferQuiet("SIII9531 error", "SIII9069 error", Times(Col("SIII9069 error"), Const(2.947)), Over(Col("SIII9531 error"), Const(2.947)), keys);
    QuietThree(InferErrorRules[0], InferErrorRules[1], InferErrorRules[2], keys);
  }

  lemma SumsQuiet(keys: set<string>)
    requires Settled(keys)
    ensures Quiet(SumRules, keys) && Quiet(SumErrorRules, keys)
  {
    SumQuiet("NII6548", "NII6583", "NII6548+NII6583", keys);
    SumQuiet("OIII4959", "OIII5007", "OIII4959+OIII5007", keys);
    SumQuiet("SIII9069", "SIII9531", "SIII9069+SIII9531", keys);
    QuietThree(SumRules[0], SumRules[1], SumRules[2], keys);
    SumQuiet("NII6548 error", "NII6583 error", "NII6548+NII6583 error", keys);
    SumQuiet("OIII4959 error", "OIII5007 error", "OIII4959+OIII5007 error", keys);
    SumQuiet("SIII9069 error", "SIII9531 error", "SIII9069+SIII9531 error", keys);
    QuietThree(SumErrorRules[0], SumErrorRules[1], SumErrorRules[2], keys);
  }

  /** On settled names every guard of the doublet steps fails. */
  lemma SettledQuiet(keys: set<string>)
    requires Settled(keys)
    ensures Quiet(DoubletRules, keys)
  {
    CombineQuiet(keys);
    SplitsQuiet(keys);
    InfersQuiet(keys);
    SumsQuiet(keys);
    var se, i, ie, su := SplitErrorRules, InferRules, InferErrorRules, SumRules;
    QuietAppend(se, i, keys);
    QuietAppend(se + i, ie, keys);
    QuietAppend(se + i + ie, su, keys);
    QuietAppend(se + i + ie + su, SumErrorRules, keys);
    QuietAppend(CombineRules, SplitRules, keys);
    QuietAppend(CombineRules + SplitRules, LaterDoubletRules, keys);
  }

  /**
   * One pass of the doublet steps leaves every [OII] and [SII] pair with
   * both members summed and every fixed-ratio family wholly present or
   * wholly absent; a second pass over that output then raises nothing,
   * adds no column and changes none.
   */
  lemma DoubletSecondPass(m: Cols, n: nat, log10: real -> real, sqrt: real -> real)
    requires Shaped(m, n)
    ensures var r := DoRules(DoubletRules, m, n, log10, sqrt);
            && Settled(r.cols.Keys)
            && DoRules(DoubletRules, r.cols, n, log10, sqrt) == r
  {
    var r := DoRules(DoubletRules, m, n, log10, sqrt);
    DoubletRulesSafe();
    DoubletStageGuarded(m, n, log10, sqrt);
    DoRulesKeys(DoubletRules, m, n, log10, sqrt);
    DoubletKeysSettle(m.Keys);
    SettledQuiet(r.cols.Keys);
    QuietRules(DoubletRules, r.cols, n, log10, sqrt);
  }
}
