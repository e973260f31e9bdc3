/**
 * `ratio_fn` of spaxelsleuth/utils/linefns.py: a fixed sequence of guarded
 * column writes. Each step checks which columns are present (`in_df`) and
 * absent (`not_in_df`) and then assigns one or more columns computed from
 * others. The steps are written down here as data (a list of rules over a
 * small expression language) and run in order by one evaluator, which keeps
 * the model's text line-for-line comparable with the source.
 *
 * Reading a column that is not there raises KeyError, as pandas does.
 */
module Ratios {
  import opened Numeric
  import opened Outcomes
  import opened Table

  /** Column arithmetic as the source writes it (numpy element-wise operators). */
  datatype Expr =
    | Col(name: string)
    | Const(c: real)
    | Plus(a: Expr, b: Expr)
    | Minus(a: Expr, b: Expr)
    | Times(a: Expr, b: Expr)
    | Over(a: Expr, b: Expr)
    | Log(a: Expr)       // np.log10
    | Root(a: Expr)      // np.sqrt
    | Squared(a: Expr)   // ** 2

  /** The columns an expression reads. */
  function Refs(e: Expr): set<string>
  {
    match e
    case Col(c) => {c}
    case Const(_) => {}
    case Plus(a, b) => Refs(a) + Refs(b)
    case Minus(a, b) => Refs(a) + Refs(b)
    case Times(a, b) => Refs(a) + Refs(b)
    case Over(a, b) => Refs(a) + Refs(b)
    case Log(a) => Refs(a)
    case Root(a) => Refs(a)
    case Squared(a) => Refs(a)
  }

  /** The first column, in Python's left-to-right evaluation order, that is missing. */
  function FirstMissing(e: Expr, keys: set<string>): (r: Option<string>)
    ensures r.None? <==> Refs(e) <= keys
    ensures r.Some? ==> r.value in Refs(e) && r.value !in keys
  {
    match e
    case Col(c) => if c in keys then None else Some(c)
    case Const(_) => None
    case Plus(a, b) => OrElse(FirstMissing(a, keys), FirstMissing(b, keys))
    case Minus(a, b) => OrElse(FirstMissing(a, keys), FirstMissing(b, keys))
    case Times(a, b) => OrElse(FirstMissing(a, keys), FirstMissing(b, keys))
    case Over(a, b) => OrElse(FirstMissing(a, keys), FirstMissing(b, keys))
    case Log(a) => FirstMissing(a, keys)
    case Root(a) => FirstMissing(a, keys)
    case Squared(a) => FirstMissing(a, keys)
  }

  function OrElse(x: Option<string>, y: Option<string>): Option<string>
  {
    if x.Some? then x else y
  }

  /** The value of an expression in row i. */
  function CellAt(e: Expr, m: Cols, n: nat, i: nat, log10: real -> real, sqrt: real -> real): Num
    requires Shaped(m, n) && i < n && Refs(e) <= m.Keys
  {
    match e
    case Col(c) => m[c][i]
    case Const(x) => Val(x)
    case Plus(a, b) => Add(CellAt(a, m, n, i, log10, sqrt), CellAt(b, m, n, i, log10, sqrt))
    case Minus(a, b) => Sub(CellAt(a, m, n, i, log10, sqrt), CellAt(b, m, n, i, log10, sqrt))
    case Times(a, b) => Mul(CellAt(a, m, n, i, log10, sqrt), CellAt(b, m, n, i, log10, sqrt))
    case Over(a, b) => Div(CellAt(a, m, n, i, log10, sqrt), CellAt(b, m, n, i, log10, sqrt))
    case Log(a) => Log10(CellAt(a, m, n, i, log10, sqrt), log10)
    case Root(a) => Sqrt(CellAt(a, m, n, i, log10, sqrt), sqrt)
    case Squared(a) => Square(CellAt(a, m, n, i, log10, sqrt))
  }

  /** Evaluates an expression over a whole frame, or raises KeyError on the first missing column. */
  function Eval(e: Expr, m: Cols, n: nat, log10: real -> real, sqrt: real -> real): (r: Result<seq<Num>>)
    requires Shaped(m, n)
    ensures r.Success? <==> Refs(e) <= m.Keys
    ensures r.Failure? ==> r.error.KeyError? && r.error.key in Refs(e) && r.error.key !in m
    ensures r.Success? ==> |r.value| == n
    ensures r.Success? ==> forall i :: 0 <= i < n ==> r.value[i] == CellAt(e, m, n, i, log10, sqrt)
  {
    match FirstMissing(e, m.Keys)
    case Some(c) => Failure(KeyError(c))
    case None => Success(seq(n, i requires 0 <= i < n => CellAt(e, m, n, i, log10, sqrt)))
  }

  /** `df[target] = value` */
  datatype Assign = Assign(target: string, value: Expr)

  /** `if in_df(need) and not_in_df(absent): writes` */
  datatype Branch = Branch(need: seq<string>, absent: seq<string>, writes: seq<Assign>)

  /** An `if` / `elif` chain: the first branch whose guard holds runs. */
  datatype Rule = Rule(branches: seq<Branch>)

  /** The state of the frame after some steps, and whether an exception was raised. */
  datatype Run = Run(cols: Cols, status: Outcome)

  predicate Holds(b: Branch, keys: set<string>)
  {
    (forall c :: c in b.need ==> c in keys) && (forall c :: c in b.absent ==> c !in keys)
  }

  /** The branch of an if/elif chain that runs, if any. */
  function Selected(bs: seq<Branch>, keys: set<string>): (r: Option<Branch>)
    ensures r.Some? ==> r.value in bs && Holds(r.value, keys)
    ensures r.None? <==> forall k :: 0 <= k < |bs| ==> !Holds(bs[k], keys)
  {
    if bs == [] then None
    else if Holds(bs[0], keys) then Some(bs[0])
    else Selected(bs[1..], keys)
  }

  /** Performs a branch's assignments in order; each one sees the ones before it. */
  function DoWrites(ws: seq<Assign>, m: Cols, n: nat, log10: real -> real, sqrt: real -> real): (r: Run)
    requires Shaped(m, n)
    ensures Shaped(r.cols, n)
  {
    if ws == [] then Run(m, Pass)
    else
      var prev := DoWrites(ws[..|ws| - 1], m, n, log10, sqrt);
      if prev.status.Fail? then prev
      else match Eval(ws[|ws| - 1].value, prev.cols, n, log10, sqrt)
        case Failure(e) => Run(prev.cols, Fail(e))
        case Success(v) => Run(prev.cols[ws[|ws| - 1].target := v], Pass)
  }

  function DoRule(rule: Rule, m: Cols, n: nat, log10: real -> real, sqrt: real -> real): (r: Run)
    requires Shaped(m, n)
    ensures Shaped(r.cols, n)
  {
    match Selected(rule.branches, m.Keys)
    case None => Run(m, Pass)
    case Some(b) => DoWrites(b.writes, m, n, log10, sqrt)
  }

  /** Runs the rules in order, stopping at the first exception. */
  function DoRules(rules: seq<Rule>, m: Cols, n: nat, log10: real -> real, sqrt: real -> real): (r: Run)
    requires Shaped(m, n)
    ensures Shaped(r.cols, n)
  {
    if rules == [] then Run(m, Pass)
    else
      var prev := DoRules(rules[..|rules| - 1], m, n, log10, sqrt);
      if prev.status.Fail? then prev
      else DoRule(rules[|rules| - 1], prev.cols, n, log10, sqrt)
  }

  // ---- The steps of ratio_fn, in source order ----

  /** `if in_df([a, b]) and not_in_df([ab]): df[ab] = df[a] + df[b]` */
  function SumRule(a: string, b: string, ab: string): Rule
  {
    Rule([Branch([a, b], [ab], [Assign(ab, Plus(Col(a), Col(b)))])])
  }

  /** The same for errors, added in quadrature. */
  function QuadratureRule(a: string, b: string, ab: string): Rule
  {
    Rule([Branch([a, b], [ab], [Assign(ab, Root(Plus(Squared(Col(a)), Squared(Col(b)))))])])
  }

  /** Splits a doublet whose components have the fixed ratio `b / a == ratio`. */
  function SplitRule(ab: string, a: string, b: string, ratio: real): Rule
    requires ratio > 0.0
  {
    Rule([Branch([ab], [a, b], [Assign(a, Over(Col(ab), Const(1.0 + ratio))),
                                Assign(b, Over(Col(ab), Const(1.0 + 1.0 / ratio)))])])
  }

  /** Fills in the missing member of a doublet: `if b and not a: a = fromB elif a and not b: b = fromA`. */
  function InferRule(a: string, b: string, fromB: Expr, fromA: Expr): Rule
  {
    Rule([Branch([b], [a], [Assign(a, fromB)]), Branch([a], [b], [Assign(b, fromA)])])
  }

  /** Adds the [OII] and [SII] doublets and their errors (566-574). */
  const CombineRules: seq<Rule> := [
    SumRule("OII3726", "OII3729", "OII3726+OII3729"),
    SumRule("SII6716", "SII6731", "SII6716+SII6731"),
    QuadratureRule("OII3726 error", "OII3729 error", "OII3726+OII3729 error"),
    QuadratureRule("SII6716 error", "SII6731 error", "SII6716+SII6731 error")
  ]

  const SplitOIII: Rule := SplitRule("OIII4959+OIII5007", "OIII4959", "OIII5007", 2.94)
  const SplitNII: Rule := SplitRule("NII6548+NII6583", "NII6548", "NII6583", 3.06)
  const SplitSIII: Rule := SplitRule("SIII9069+SIII9531", "SIII9069", "SIII9531", 2.47)

  /** Splits the fixed-ratio doublets (577-585). */
  const SplitRules: seq<Rule> := [SplitOIII, SplitNII, SplitSIII]

  /** Splits their errors by the same ratios (587-595). */
  const SplitErrorRules: seq<Rule> := [
    SplitRule("OIII4959+OIII5007 error", "OIII4959 error", "OIII5007 error", 2.94),
    SplitRule("NII6548+NII6583 error", "NII6548 error", "NII6583 error", 3.06),
    SplitRule("SIII9069+SIII9531 error", "SIII9069 error", "SIII9531 error", 2.47)
  ]

  /** Infers the missing member of a doublet (598-611). */
  const InferRules: seq<Rule> := [
    InferRule("NII6548", "NII6583", Over(Col("NII6583"), Const(3.06)), Times(Col("NII6548"), Const(3.06))),
    InferRule("OIII4959", "OIII5007", Over(Col("OIII5007"), Const(2.94)), Times(Col("OIII4959"), Const(2.94))),
    InferRule("SIII9531", "SIII9069", Times(Col("SIII9069"), Const(2.947)), Over(Col("SIII9531"), Const(2.947)))
  ]

  /** And the missing member's error (613-627). */
  const InferErrorRules: seq<Rule> := [
    InferRule("NII6548 error", "NII6583 error",
              Over(Col("NII6583 error"), Const(3.06)), Times(Col("NII6548 error"), Const(3.06))),
    InferRule("OIII4959 error", "OIII5007 error",
              Over(Col("OIII5007 error"), Const(2.94)), Times(Col("OIII4959 error"), Const(2.94))),
    InferRule("SIII9531 error", "SIII9069 error",
              Times(Col("SIII9069 error"), Const(2.947)), Over(Col("SIII9531 error"), Const(2.947)))
  ]

  /** Adds the [NII], [OIII] and [SIII] doublets (630-635). */
  const SumRules: seq<Rule> := [
    SumRule("NII6548", "NII6583", "NII6548+NII6583"),
    SumRule("OIII4959", "OIII5007", "OIII4959+OIII5007"),
    SumRule("SIII9069", "SIII9531", "SIII9069+SIII9531")
  ]

  /** And their errors in quadrature (637-642). */
  const SumErrorRules: seq<Rule> := [
    QuadratureRule("NII6548 error", "NII6583 error", "NII6548+NII6583 error"),
    QuadratureRule("OIII4959 error", "OIII5007 error", "OIII4959+OIII5007 error"),
    QuadratureRule("SIII9069 error", "SIII9531 error", "SIII9069+SIII9531 error")
  ]

  /** The doublet steps after the three splits (587-642). */
  const LaterDoubletRules: seq<Rule> := SplitErrorRules + InferRules + InferErrorRules + SumRules + SumErrorRules

  /** The doublet steps of `ratio_fn`, in source order (566-642). */
  const DoubletRules: seq<Rule> := CombineRules + SplitRules + LaterDoubletRules

  /** `if in_df(need): writes`, the unguarded-overwrite shape of the ratio steps. */
  function When(need: seq<string>, writes: seq<Assign>): Rule
  {
    Rule([Branch(need, [], writes)])
  }

  /** `log10(a / b)` */
  function LogRatio(a: Expr, b: Expr): Expr { Log(Over(a, b)) }

  /** `X error = X * sqrt((ea / a)**2 + (eb / b)**2)` and the asymmetric log errors of X. */
  function ErrorWrites(x: string, logX: string, a: string, b: string): seq<Assign>
  {
    [Assign(x + " error", Times(Col(x), Root(Plus(Squared(Over(Col(a + " error"), Col(a))),
                                                  Squared(Over(Col(b + " error"), Col(b))))))),
     Assign(logX + " error (lower)", Minus(Col(logX), Log(Minus(Col(x), Col(x + " error"))))),
     Assign(logX + " error (upper)", Minus(Log(Plus(Col(x), Col(x + " error"))), Col(logX)))]
  }

  /** The strong-line metallicity ratios (647-662); these overwrite whatever is there. */
  const StrongLineRules: seq<Rule> := [
    When(["NII6583", "OII3726+OII3729"], [Assign("N2O2", LogRatio(Col("NII6583"), Col("OII3726+OII3729")))]),
    When(["NII6583", "SII6716+SII6731"], [Assign("N2S2", LogRatio(Col("NII6583"), Col("SII6716+SII6731")))]),
    When(["OIII5007", "HBETA", "NII6583", "HALPHA"],
         [Assign("O3N2", LogRatio(Over(Col("OIII5007"), Col("HBETA")), Over(Col("NII6583"), Col("HALPHA"))))]),
    When(["OIII4959+OIII5007", "OII3726+OII3729", "HBETA"],
         [Assign("R23", LogRatio(Plus(Col("OIII4959+OIII5007"), Col("OII3726+OII3729")), Col("HBETA")))]),
    When(["SII6716+SII6731", "SIII9069+SIII9531", "HALPHA"],
         [Assign("S23", LogRatio(Plus(Col("SII6716+SII6731"), Col("SIII9069+SIII9531")), Col("HALPHA")))]),
    When(["SIII9069+SIII9531", "OIII4959+OIII5007"],
         [Assign("S3O3", LogRatio(Col("SIII9069+SIII9531"), Col("OIII4959+OIII5007")))]),
    Rule([Branch(["OIII5007", "OII3726", "OII3729"], [],
                 [Assign("O3O2", LogRatio(Col("OIII5007"), Plus(Col("OII3726"), Col("OII3729"))))]),
          Branch(["OIII5007", "OII3726+OII3729"], [],
                 [Assign("O3O2", LogRatio(Col("OIII5007"), Col("OII3726+OII3729")))])])
  ]

  /** The remaining metallicity and ionisation ratios (663-679). */
  const OtherDiagnosticRules: seq<Rule> := [
    When(["OIII5007", "OII3726"], [Assign("O2O3", LogRatio(Col("OII3726"), Col("OIII5007")))]),
    When(["OIII5007", "OI6300"], [Assign("O1O3", LogRatio(Col("OI6300"), Col("OIII5007")))]),
    When(["OIII5007", "OII3726+OII3729"], [Assign("O3O2", LogRatio(Col("OIII5007"), Col("OII3726+OII3729")))]),
    When(["SIII9069+SIII9531", "SII6716+SII6731"],
         [Assign("S32", LogRatio(Col("SIII9069+SIII9531"), Col("SII6716+SII6731")))]),
    When(["SIII9069+SIII9531", "HALPHA"], [Assign("S3", LogRatio(Col("SIII9069+SIII9531"), Col("HALPHA")))]),
    When(["NeV3426", "NeIII3869"], [Assign("Ne53", LogRatio(Col("NeV3426"), Col("NeIII3869")))]),
    When(["NII6583", "SII6716+SII6731", "HALPHA"],
         [Assign("Dopita+2016", Plus(LogRatio(Col("NII6583"), Col("SII6716+SII6731")),
                                     Times(Const(0.264), LogRatio(Col("NII6583"), Col("HALPHA")))))])
  ]

  /** The metallicity and ionisation ratios (647-679). */
  const DiagnosticRules: seq<Rule> := StrongLineRules + OtherDiagnosticRules

  /** The standard BPT axes and the density-sensitive doublet ratios (681-706). */
  const AxisRules: seq<Rule> := [
    When(["NII6583", "HALPHA"], [Assign("log N2", LogRatio(Col("NII6583"), Col("HALPHA"))),
                                 Assign("N2", Over(Col("NII6583"), Col("HALPHA")))]),
    When(["OI6300", "HALPHA"], [Assign("log O1", LogRatio(Col("OI6300"), Col("HALPHA"))),
                                Assign("O1", Over(Col("OI6300"), Col("HALPHA")))]),
    When(["SII6716+SII6731", "HALPHA"], [Assign("log S2", LogRatio(Col("SII6716+SII6731"), Col("HALPHA"))),
                                         Assign("S2", Over(Col("SII6716+SII6731"), Col("HALPHA")))]),
    When(["OIII5007", "HBETA"], [Assign("log O3", LogRatio(Col("OIII5007"), Col("HBETA"))),
                                 Assign("O3", Over(Col("OIII5007"), Col("HBETA")))]),
    When(["HeII4686", "HBETA"], [Assign("He2", Over(Col("HeII4686"), Col("HBETA"))),
                                 Assign("log He2", Log(Col("He2")))]),
    When(["SII6716", "SII6731"], [Assign("[SII] ratio", Over(Col("SII6716"), Col("SII6731")))]),
    When(["OII3729", "OII3726"], [Assign("[OII] ratio", Over(Col("OII3729"), Col("OII3726")))])
  ]

  /** The errors of the BPT axes and doublet ratios (708-733). */
  const AxisErrorRules: seq<Rule> := [
    When(["NII6583 error", "HALPHA error"], ErrorWrites("N2", "log N2", "NII6583", "HALPHA")),
    When(["OI6300 error", "HALPHA error"], ErrorWrites("O1", "log O1", "OI6300", "HALPHA")),
    When(["SII6716+SII6731 error", "HALPHA error"], ErrorWrites("S2", "log S2", "SII6716+SII6731", "HALPHA")),
    When(["OIII5007 error", "HBETA error"], ErrorWrites("O3", "log O3", "OIII5007", "HBETA")),
    When(["SII6716 error", "SII6731 error"],
         [Assign("[SII] ratio error", Times(Col("[SII] ratio"),
                  Root(Plus(Squared(Over(Col("SII6716 error"), Col("SII6716"))),
                            Squared(Over(Col("SII6731 error"), Col("SII6731")))))))]),
    When(["OII3729 error", "OII3726 error"],
         [Assign("[OII] ratio error", Times(Col("[OII] ratio"),
                  Root(Plus(Squared(Over(Col("OII3729 error"), Col("OII3729"))),
                            Squared(Over(Col("OII3726 error"), Col("OII3726")))))))])
  ]

  /** The ratio steps of `ratio_fn` (644-733). */
  const RatioRules: seq<Rule> := DiagnosticRules + AxisRules + AxisErrorRules

  /** Every step of `ratio_fn`. */
  const RatioFnRules: seq<Rule> := DoubletRules + RatioRules

  // ---- ratio_fn as the method that performs the steps in place ----

  lemma {:induction false} DoRulesStopped(rules: seq<Rule>, k: nat, m: Cols, n: nat, log10: real -> real, sqrt: real -> real)
    requires Shaped(m, n) && k <= |rules|
    requires DoRules(rules[..k], m, n, log10, sqrt).status.Fail?
    ensures DoRules(rules, m, n, log10, sqrt) == DoRules(rules[..k], m, n, log10, sqrt)
    decreases |rules| - k
  {
    if k < |rules| {
      assert rules[..k + 1][..k] == rules[..k];
      DoRulesStopped(rules, k + 1, m, n, log10, sqrt);
    } else {
      assert rules[..k] == rules;
    }
  }

  /** Dropping the keys K and then c drops K with c. */
  lemma MinusKey<V>(t: map<string, V>, keys: set<string>, c: string)
    ensures (t - keys) - {c} == t - (keys + {c})
  {
  }

  /** Dropping some keys and then more of them drops the more. */
  lemma MinusMore<V>(t: map<string, V>, keys: set<string>, more: set<string>)
    requires keys <= more
    ensures (t - keys) - more == t - more
  {
  }

  /** Performs assignment j of a branch, after the ones before it have passed. */
  method RunAssign(df: Frame, ws: seq<Assign>, j: nat, log10: real -> real, sqrt: real -> real,
                   ghost m0: Cols, ghost t0: map<string, seq<string>>, ghost f0: map<string, seq<bool>>) returns (status: Outcome)
    requires df.Valid() && j < |ws| && Shaped(m0, df.nrows)
    requires DoWrites(ws[..j], m0, df.nrows, log10, sqrt) == Run(df.num, Pass)
    requires df.text == t0 - df.num.Keys && df.flag == f0 - df.num.Keys && m0.Keys <= df.num.Keys
    modifies df
    ensures df.Valid() && df.nrows == old(df.nrows)
    ensures Run(df.num, status) == DoWrites(ws[..j + 1], m0, df.nrows, log10, sqrt)
    ensures df.text == t0 - df.num.Keys && df.flag == f0 - df.num.Keys && m0.Keys <= df.num.Keys
  {
    assert ws[..j + 1][..j] == ws[..j];
    var v := Eval(ws[j].value, df.num, df.nrows, log10, sqrt);
    if v.Failure? {
      status := Fail(v.error);
    } else {
      status := Pass;
      MinusKey(t0, df.num.Keys, ws[j].target);
      MinusKey(f0, df.num.Keys, ws[j].target);
      df.SetNum(ws[j].target, v.value);
    }
  }

  /** Performs one branch's assignments on the frame, stopping at the first exception. */
  method RunWrites(df: Frame, ws: seq<Assign>, log10: real -> real, sqrt: real -> real) returns (status: Outcome)
    requires df.Valid()
    modifies df
    ensures df.Valid() && df.nrows == old(df.nrows)
    ensures Run(df.num, status) == DoWrites(ws, old(df.num), old(df.nrows), log10, sqrt)
    ensures df.text == old(df.text) - df.num.Keys && df.flag == old(df.flag) - df.num.Keys
    ensures old(df.num).Keys <= df.num.Keys
  {
    ghost var m0, t0, f0 := df.num, df.text, df.flag;
    var n := df.nrows;
    status := Pass;
    var j := 0;
    while j < |ws| && status.Pass?
      invariant 0 <= j <= |ws|
      invariant df.Valid() && df.nrows == n
      invariant Run(df.num, status) == DoWrites(ws[..j], m0, n, log10, sqrt)
      invariant df.text == t0 - df.num.Keys && df.flag == f0 - df.num.Keys
      invariant m0.Keys <= df.num.Keys
    {
      status := RunAssign(df, ws, j, log10, sqrt, m0, t0, f0);
      j := j + 1;
    }
    if status.Fail? {
      DoWritesStopped(ws, j, m0, n, log10, sqrt);
    } else {
      assert ws[..j] == ws;
    }
  }

  /** Runs the first branch of an if/elif chain whose guard holds. */
  method RunRule(df: Frame, rule: Rule, log10: real -> real, sqrt: real -> real) returns (status: Outcome)
    requires df.Valid()
    modifies df
    ensures df.Valid() && df.nrows == old(df.nrows)
    ensures Run(df.num, status) == DoRule(rule, old(df.num), old(df.nrows), log10, sqrt)
    ensures df.text == old(df.text) - df.num.Keys && df.flag == old(df.flag) - df.num.Keys
    ensures old(df.num).Keys <= df.num.Keys
  {
    var bs := rule.branches;
    var k := 0;
    while k < |bs| && !Holds(bs[k], df.num.Keys)
      invariant 0 <= k <= |bs|
      invariant Selected(bs, df.num.Keys) == Selected(bs[k..], df.num.Keys)
    {
      assert bs[k..][1..] == bs[k + 1..];
      k := k + 1;
    }
    if k < |bs| {
      status := RunWrites(df, bs[k].writes, log10, sqrt);
    } else {
      assert bs[k..] == [];
      status := Pass;
    }
  }

  /** Runs a list of rules in order on the frame, stopping at the first exception. */
  method RunRules(df: Frame, rules: seq<Rule>, log10: real -> real, sqrt: real -> real) returns (status: Outcome)
    requires df.Valid()
    modifies df
    ensures df.Valid() && df.nrows == old(df.nrows)
    ensures Run(df.num, status) == DoRules(rules, old(df.num), old(df.nrows), log10, sqrt)
    ensures df.text == old(df.text) - df.num.Keys && df.flag == old(df.flag) - df.num.Keys
  {
    ghost var m0, t0, f0 := df.num, df.text, df.flag;
    var n := df.nrows;
    status := Pass;
    var i := 0;
    while i < |rules| && status.Pass?
      invariant 0 <= i <= |rules|
      invariant df.Valid() && df.nrows == n
      invariant Run(df.num, status) == DoRules(rules[..i], m0, n, log10, sqrt)
      invariant df.text == t0 - df.num.Keys && df.flag == f0 - df.num.Keys
    {
      assert rules[..i + 1][..i] == rules[..i];
      ghost var keys := df.num.Keys;
      status := RunRule(df, rules[i], log10, sqrt);
      MinusMore(t0, keys, df.num.Keys);
      MinusMore(f0, keys, df.num.Keys);
      i := i + 1;
    }
    if status.Fail? {
      DoRulesStopped(rules, i, m0, n, log10, sqrt);
    } else {
      assert rules[..i] == rules;
    }
  }

  /**
   * `ratio_fn(df)` on a frame whose suffix has already been removed: performs
   * every step in order on the numeric columns, stopping at the first
   * exception, and leaves the frame as the steps before it left it.
   */
  method RatioFn(df: Frame, log10: real -> real, sqrt: real -> real) returns (status: Outcome)
    requires df.Valid()
    modifies df
    ensures df.Valid() && df.nrows == old(df.nrows)
    ensures Run(df.num, status) == DoRules(RatioFnRules, old(df.num), old(df.nrows), log10, sqrt)
    ensures df.text == old(df.text) - df.num.Keys && df.flag == old(df.flag) - df.num.Keys
  {
    status := RunRules(df, RatioFnRules, log10, sqrt);
  }

  lemma {:induction false} DoWritesStopped(ws: seq<Assign>, k: nat, m: Cols, n: nat, log10: real -> real, sqrt: real -> real)
    requires Shaped(m, n) && k <= |ws|
    requires DoWrites(ws[..k], m, n, log10, sqrt).status.Fail?
    ensures DoWrites(ws, m, n, log10, sqrt) == DoWrites(ws[..k], m, n, log10, sqrt)
    decreases |ws| - k
  {
    if k < |ws| {
      assert ws[..k + 1][..k] == ws[..k];
      DoWritesStopped(ws, k + 1, m, n, log10, sqrt);
    } else {
      assert ws[..k] == ws;
    }
  }
}
