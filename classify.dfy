/**
 * The two spaxel classifiers of spaxelsleuth/utils/linefns.py, `bpt_fn`
 * (Baldwin-Phillips-Terlevich excitation categories) and `law2021_fn`
 * (Law et al. 2021 kinematic categories), and `bpt_num_to_str`.
 *
 * Each classifier is given twice: a per-row reference (`BptCode`,
 * `LawCode`, an if/elif chain over one row's three line ratios) and the
 * carve-out the source performs (`BptStages`, `LawStages` fed to
 * `Carve.CarveOut`). The lemmas connect the two, so the frame the methods
 * leave behind is the rows grouped by code, in ascending code order and in
 * their original order within a group.
 *
 * A column suffix `s` (" (total)", " (component 1)", ...) is appended to
 * every column the functions read or write; `None` is the empty suffix.
 */
module Classify {
  import opened Numeric
  import opened Outcomes
  import opened Table
  import opened Curves
  import opened Carve

  function O3Column(s: string): string { "log O3" + s }
  function N2Column(s: string): string { "log N2" + s }
  function S2Column(s: string): string { "log S2" + s }
  function BptColumn(s: string): string { "BPT (numeric)" + s }
  function LawColumn(s: string): string { "Law+2021" + s }
  function LawNumColumn(s: string): string { "Law+2021 (numeric)" + s }

  /** Cell i of a column, NaN past its end (keeps the row conditions total). */
  function At(col: seq<Num>, i: nat): Num
  {
    if i < |col| then col[i] else NaN
  }

  /** `df[c]` for a column `np.isnan` is applied to: absent is a KeyError, non-numeric a TypeError. */
  function NumColumn(v: Snapshot, c: string): (r: Result<seq<Num>>)
    requires v.Valid()
    ensures r.Success? <==> c in v.num
    ensures r.Success? ==> r.value == v.num[c] && |r.value| == v.nrows
    ensures r.Failure? ==> r.error == (if v.Has(c) then TypeError(c) else KeyError(c))
  {
    if c in v.num then Success(v.num[c])
    else if v.Has(c) then Failure(TypeError(c))
    else Failure(KeyError(c))
  }

  datatype Ratios = Ratios(o3: seq<Num>, n2: seq<Num>, s2: seq<Num>)

  /** The three ratio columns, read in the order the not-classified mask reads them. */
  function ReadRatios(v: Snapshot, s: string): (r: Result<Ratios>)
    requires v.Valid()
    ensures r.Success? ==> |r.value.o3| == |r.value.n2| == |r.value.s2| == v.nrows
  {
    var o3 :- NumColumn(v, O3Column(s));
    var n2 :- NumColumn(v, N2Column(s));
    var s2 :- NumColumn(v, S2Column(s));
    Success(Ratios(o3, n2, s2))
  }

  predicate RatiosPresent(v: Snapshot, s: string)
  {
    v.Has(O3Column(s)) && v.Has(N2Column(s)) && v.Has(S2Column(s))
  }

  predicate AnyNaN(o3: Num, n2: Num, s2: Num)
  {
    o3.NaN? || n2.NaN? || s2.NaN?
  }

  // ---- BPT ----

  predicate BptStarForming(o3: Num, n2: Num, s2: Num)
  {
    Lt(o3, Kauffman2003(n2)) && Lt(o3, Kewley2001(LogS2, s2))
  }

  predicate BptComposite(o3: Num, n2: Num, s2: Num)
  {
    Ge(o3, Kauffman2003(n2)) && Lt(o3, Kewley2001(LogN2, n2)) && Lt(o3, Kewley2001(LogS2, s2))
  }

  predicate BptLiner(o3: Num, n2: Num, s2: Num)
  {
    Ge(o3, Kewley2001(LogN2, n2)) && Ge(o3, Kewley2001(LogS2, s2)) && Lt(o3, Kewley2006Bpt(LogS2, s2))
  }

  predicate BptSeyfert(o3: Num, n2: Num, s2: Num)
  {
    Ge(o3, Kewley2001(LogN2, n2)) && Ge(o3, Kewley2001(LogS2, s2)) && Ge(o3, Kewley2006Bpt(LogS2, s2))
  }

  /**
   * The BPT category of one row: -1 not classified, 0 star-forming,
   * 1 composite, 2 LINER, 3 Seyfert, 4 ambiguous.
   */
  function BptCode(o3: Num, n2: Num, s2: Num): int
  {
    if AnyNaN(o3, n2, s2) then -1
    else if BptStarForming(o3, n2, s2) then 0
    else if BptComposite(o3, n2, s2) then 1
    else if BptLiner(o3, n2, s2) then 2
    else if BptSeyfert(o3, n2, s2) then 3
    else 4
  }

  function BptCodeAt(r: Ratios, i: nat): int
  {
    BptCode(At(r.o3, i), At(r.n2, i), At(r.s2, i))
  }

  /** The conditions `bpt_fn` carves the rows out by, in its order. */
  function BptStages(r: Ratios): (ps: seq<nat -> bool>)
    ensures |ps| == 5 && forall j :: 0 <= j < 5 ==> ps[j] == BptStage(r, j)
  {
    seq(5, j requires 0 <= j < 5 => BptStage(r, j))
  }

  function BptStage(r: Ratios, j: nat): nat -> bool
  {
    if j == 0 then (i: nat) => AnyNaN(At(r.o3, i), At(r.n2, i), At(r.s2, i))
    else if j == 1 then (i: nat) => BptStarForming(At(r.o3, i), At(r.n2, i), At(r.s2, i))
    else if j == 2 then (i: nat) => BptComposite(At(r.o3, i), At(r.n2, i), At(r.s2, i))
    else if j == 3 then (i: nat) => BptLiner(At(r.o3, i), At(r.n2, i), At(r.s2, i))
    else (i: nat) => BptSeyfert(At(r.o3, i), At(r.n2, i), At(r.s2, i))
  }

  /** Group j: the rows of category j - 1, in their original order. */
  function BptRows(r: Ratios, n: nat, j: nat): seq<nat>
  {
    Filter(Range(n), (i: nat) => BptCodeAt(r, i) + 1 == j)
  }

  /** The categories -1, 0, ..., 4, each with its rows in their original order. */
  function BptGroups(r: Ratios, n: nat): seq<seq<nat>>
  {
    seq(6, j requires 0 <= j < 6 => BptRows(r, n, j))
  }

  /** The row order `bpt_fn` leaves: the categories one after another, -1 first. */
  function BptOrder(r: Ratios, n: nat): seq<nat>
  {
    Flatten(BptGroups(r, n))
  }

  /** The "BPT (numeric)" column of the reordered frame. */
  function BptCodes(r: Ratios, perm: seq<nat>): (codes: seq<Num>)
    ensures |codes| == |perm|
  {
    seq(|perm|, k requires 0 <= k < |perm| => Val(BptCodeAt(r, perm[k]) as real))
  }

  /**
   * What `bpt_fn` leaves behind. With the ratio columns present the rows are
   * regrouped by category and "BPT (numeric)" holds each row's code; on an
   * empty frame the final `astype` needs the column to exist already.
   * Without them every row is marked -1 (the intended guard, see `BptGuardAsWritten`).
   */
  function BptSpec(v: Snapshot, s: string): (Outcome, Snapshot)
    requires v.Valid()
  {
    if !RatiosPresent(v, s) then (Pass, v.WithNum(BptColumn(s), seq(v.nrows, _ => Val(-1.0))))
    else match ReadRatios(v, s)
      case Failure(e) => (Fail(e), v)
      case Success(r) =>
        RangeMembers(v.nrows);
        BptOrderPermutes(r, v.nrows);
        var perm := BptOrder(r, v.nrows);
        assert forall k :: 0 <= k < |perm| ==> perm[k] in multiset(Range(v.nrows));
        if v.nrows == 0 && !v.Has(BptColumn(s)) then (Fail(KeyError(BptColumn(s))), v)
        else (Pass, v.Rows(perm).WithNum(BptColumn(s), BptCodes(r, perm)))
  }

  // ---- Law et al. (2021) ----

  predicate LawCold(o3: Num, n2: Num, s2: Num)
  {
    Lt(o3, Law2021OneSigma(LogN2, n2)) && Lt(o3, Law2021OneSigma(LogS2, s2))
  }

  predicate LawIntermediate(o3: Num, n2: Num, s2: Num)
  {
    && Ge(o3, Law2021OneSigma(LogN2, n2)) && Ge(o3, Law2021OneSigma(LogS2, s2))
    && Lt(n2, Law2021ThreeSigma(LogN2, o3)) && Lt(s2, Law2021ThreeSigma(LogS2, o3))
    && Gt(o3, Val(-0.61))
  }

  predicate LawWarm(o3: Num, n2: Num, s2: Num)
  {
    Ge(n2, Law2021ThreeSigma(LogN2, o3)) && Ge(s2, Law2021ThreeSigma(LogS2, o3))
  }

  /** The kinematic category of one row: -1 not classified, 0 cold, 1 intermediate, 2 warm, 3 ambiguous. */
  function LawCode(o3: Num, n2: Num, s2: Num): int
  {
    if AnyNaN(o3, n2, s2) then -1
    else if LawCold(o3, n2, s2) then 0
    else if LawIntermediate(o3, n2, s2) then 1
    else if LawWarm(o3, n2, s2) then 2
    else 3
  }

  function LawLabel(code: int): string
  {
    if code == 0 then "Cold"
    else if code == 1 then "Intermediate"
    else if code == 2 then "Warm"
    else if code == 3 then "Ambiguous"
    else "Not classified"
  }

  function LawCodeAt(r: Ratios, i: nat): int
  {
    LawCode(At(r.o3, i), At(r.n2, i), At(r.s2, i))
  }

  function LawStages(r: Ratios): (ps: seq<nat -> bool>)
    ensures |ps| == 4 && forall j :: 0 <= j < 4 ==> ps[j] == LawStage(r, j)
  {
    seq(4, j requires 0 <= j < 4 => LawStage(r, j))
  }

  function LawStage(r: Ratios, j: nat): nat -> bool
  {
    if j == 0 then (i: nat) => AnyNaN(At(r.o3, i), At(r.n2, i), At(r.s2, i))
    else if j == 1 then (i: nat) => LawCold(At(r.o3, i), At(r.n2, i), At(r.s2, i))
    else if j == 2 then (i: nat) => LawIntermediate(At(r.o3, i), At(r.n2, i), At(r.s2, i))
    else (i: nat) => LawWarm(At(r.o3, i), At(r.n2, i), At(r.s2, i))
  }

  function LawRows(r: Ratios, n: nat, j: nat): seq<nat>
  {
    Filter(Range(n), (i: nat) => LawCodeAt(r, i) + 1 == j)
  }

  function LawGroups(r: Ratios, n: nat): seq<seq<nat>>
  {
    seq(5, j requires 0 <= j < 5 => LawRows(r, n, j))
  }

  function LawOrder(r: Ratios, n: nat): seq<nat>
  {
    Flatten(LawGroups(r, n))
  }

  function LawCodes(r: Ratios, perm: seq<nat>): (codes: seq<Num>)
    ensures |codes| == |perm|
  {
    seq(|perm|, k requires 0 <= k < |perm| => Val(LawCodeAt(r, perm[k]) as real))
  }

  function LawLabels(r: Ratios, perm: seq<nat>): (labels: seq<string>)
    ensures |labels| == |perm|
  {
    seq(|perm|, k requires 0 <= k < |perm| => LawLabel(LawCodeAt(r, perm[k])))
  }

  /**
   * What `law2021_fn` leaves behind: the rows regrouped by category with the
   * text label and the numeric code ("-1" for not classified, read back as
   * -1.0); without the ratio columns the frame is unchanged (the intended
   * guard, see `LawGuardAsWritten`).
   */
  function LawSpec(v: Snapshot, s: string): (Outcome, Snapshot)
    requires v.Valid()
  {
    if !RatiosPresent(v, s) then (Pass, v)
    else match ReadRatios(v, s)
      case Failure(e) => (Fail(e), v)
      case Success(r) =>
        RangeMembers(v.nrows);
        LawOrderPermutes(r, v.nrows);
        var perm := LawOrder(r, v.nrows);
        assert forall k :: 0 <= k < |perm| ==> perm[k] in multiset(Range(v.nrows));
        if v.nrows == 0 then
          (if v.Has(LawNumColumn(s)) then (Pass, v.WithNum(LawNumColumn(s), [])) else (Fail(KeyError(LawNumColumn(s))), v))
        else (Pass, v.Rows(perm).WithText(LawColumn(s), LawLabels(r, perm)).WithNum(LawNumColumn(s), LawCodes(r, perm)))
  }

  // ---- The carve-out and the per-row reference agree ----

  lemma BptFirstStage(r: Ratios, i: nat)
    ensures FirstStage(BptStages(r), i, 0) == BptCodeAt(r, i) + 1
  {
    var ps := BptStages(r);
    assert FirstStage(ps, i, 5) == 5;
    assert FirstStage(ps, i, 4) == if ps[4](i) then 4 else 5;
    assert FirstStage(ps, i, 3) == if ps[3](i) then 3 else FirstStage(ps, i, 4);
    assert FirstStage(ps, i, 2) == if ps[2](i) then 2 else FirstStage(ps, i, 3);
    assert FirstStage(ps, i, 1) == if ps[1](i) then 1 else FirstStage(ps, i, 2);
    assert FirstStage(ps, i, 0) == if ps[0](i) then 0 else FirstStage(ps, i, 1);
  }

  lemma LawFirstStage(r: Ratios, i: nat)
    ensures FirstStage(LawStages(r), i, 0) == LawCodeAt(r, i) + 1
  {
    var ps := LawStages(r);
    assert FirstStage(ps, i, 4) == 4;
    assert FirstStage(ps, i, 3) == if ps[3](i) then 3 else 4;
    assert FirstStage(ps, i, 2) == if ps[2](i) then 2 else FirstStage(ps, i, 3);
    assert FirstStage(ps, i, 1) == if ps[1](i) then 1 else FirstStage(ps, i, 2);
    assert FirstStage(ps, i, 0) == if ps[0](i) then 0 else FirstStage(ps, i, 1);
  }

  /** Group j of the carve-out is the rows of code j - 1. */
  lemma BptGroup(r: Ratios, n: nat, j: nat)
    requires j <= 5
    ensures Filter(Range(n), StageIs(BptStages(r), 0, j)) == BptRows(r, n, j)
  {
    forall i | i in Range(n)
      ensures StageIs(BptStages(r), 0, j)(i) == (BptCodeAt(r, i) + 1 == j)
    {
      BptFirstStage(r, i);
    }
    FilterExt(Range(n), StageIs(BptStages(r), 0, j), (i: nat) => BptCodeAt(r, i) + 1 == j);
  }

  lemma LawGroup(r: Ratios, n: nat, j: nat)
    requires j <= 4
    ensures Filter(Range(n), StageIs(LawStages(r), 0, j)) == LawRows(r, n, j)
  {
    forall i | i in Range(n)
      ensures StageIs(LawStages(r), 0, j)(i) == (LawCodeAt(r, i) + 1 == j)
    {
      LawFirstStage(r, i);
    }
    FilterExt(Range(n), StageIs(LawStages(r), 0, j), (i: nat) => LawCodeAt(r, i) + 1 == j);
  }

  /** Carving the rows out in the source's order yields exactly the categories, -1 to 4. */
  lemma BptCarving(r: Ratios, n: nat)
    ensures Carving(Range(n), BptStages(r), 0) == BptGroups(r, n)
  {
    var gs := BptGroups(r, n);
    forall j | 0 <= j <= 5
      ensures gs[j] == Filter(Range(n), StageIs(BptStages(r), 0, j))
    {
      BptGroup(r, n, j);
    }
    CarvingIs(Range(n), BptStages(r), gs);
  }

  lemma LawCarving(r: Ratios, n: nat)
    ensures Carving(Range(n), LawStages(r), 0) == LawGroups(r, n)
  {
    var gs := LawGroups(r, n);
    forall j | 0 <= j <= 4
      ensures gs[j] == Filter(Range(n), StageIs(LawStages(r), 0, j))
    {
      LawGroup(r, n, j);
    }
    CarvingIs(Range(n), LawStages(r), gs);
  }

  /** Every row appears exactly once in the regrouped frame. */
  lemma BptOrderPermutes(r: Ratios, n: nat)
    ensures multiset(BptOrder(r, n)) == multiset(Range(n))
  {
    BptCarving(r, n);
    CarvingPermutes(Range(n), BptStages(r), 0);
  }

  lemma LawOrderPermutes(r: Ratios, n: nat)
    ensures multiset(LawOrder(r, n)) == multiset(Range(n))
  {
    LawCarving(r, n);
    CarvingPermutes(Range(n), LawStages(r), 0);
  }

  /** Every row position below n is a row of the frame. */
  lemma RangeMembers(n: nat)
    ensures forall x :: x in multiset(Range(n)) ==> x < n
  {
    forall x | x in multiset(Range(n))
      ensures x < n
    {
      assert x in Range(n);
      var k :| 0 <= k < n && Range(n)[k] == x;
    }
  }

  /** The rows of group j of the BPT categories all carry code j - 1. */
  lemma BptTags(r: Ratios, n: nat)
    ensures Tags(BptGroups(r, n), (j: nat) => Val(j as real - 1.0)) == BptCodes(r, BptOrder(r, n))
  {
    var g := (i: nat) => FirstStage(BptStages(r), i, 0);
    forall j, i | 0 <= j < 6 && i in BptGroups(r, n)[j]
      ensures g(i) == j
    {
      FilterMembers(Range(n), (i: nat) => BptCodeAt(r, i) + 1 == j);
      BptFirstStage(r, i);
    }
    TagsOfGroups(BptGroups(r, n), (j: nat) => Val(j as real - 1.0), g);
    forall k | 0 <= k < |BptOrder(r, n)|
      ensures Tags(BptGroups(r, n), (j: nat) => Val(j as real - 1.0))[k] == BptCodes(r, BptOrder(r, n))[k]
    {
      BptFirstStage(r, BptOrder(r, n)[k]);
    }
  }

  /** Every row of group j of the kinematic categories has first stage j. */
  lemma LawGroupStages(r: Ratios, n: nat)
    ensures forall j, i :: 0 <= j < 5 && i in LawGroups(r, n)[j] ==> FirstStage(LawStages(r), i, 0) == j
  {
    forall j, i | 0 <= j < 5 && i in LawGroups(r, n)[j]
      ensures FirstStage(LawStages(r), i, 0) == j
    {
      LawGroupStage(r, n, j, i);
    }
  }

  lemma LawGroupStage(r: Ratios, n: nat, j: nat, i: nat)
    requires j < 5 && i in LawRows(r, n, j)
    ensures FirstStage(LawStages(r), i, 0) == j
  {
    FilterMembers(Range(n), (i: nat) => LawCodeAt(r, i) + 1 == j);
    LawFirstStage(r, i);
  }

  lemma LawTags(r: Ratios, n: nat)
    ensures Tags(LawGroups(r, n), (j: nat) => Val(j as real - 1.0)) == LawCodes(r, LawOrder(r, n))
  {
    var g := (i: nat) => FirstStage(LawStages(r), i, 0);
    LawGroupStages(r, n);
    TagsOfGroups(LawGroups(r, n), (j: nat) => Val(j as real - 1.0), g);
    forall k | 0 <= k < |LawOrder(r, n)|
      ensures Tags(LawGroups(r, n), (j: nat) => Val(j as real - 1.0))[k] == LawCodes(r, LawOrder(r, n))[k]
    {
      LawFirstStage(r, LawOrder(r, n)[k]);
    }
  }

  lemma LawLabelTags(r: Ratios, n: nat)
    ensures Tags(LawGroups(r, n), (j: nat) => LawLabel(j - 1)) == LawLabels(r, LawOrder(r, n))
  {
    var g := (i: nat) => FirstStage(LawStages(r), i, 0);
    LawGroupStages(r, n);
    TagsOfGroups(LawGroups(r, n), (j: nat) => LawLabel(j - 1), g);
    forall k | 0 <= k < |LawOrder(r, n)|
      ensures Tags(LawGroups(r, n), (j: nat) => LawLabel(j - 1))[k] == LawLabels(r, LawOrder(r, n))[k]
    {
      LawFirstStage(r, LawOrder(r, n)[k]);
    }
  }

  // ---- The classifiers in place, with the corrected column-presence guard of BptSpec and LawSpec (the guard as written: BptAsWritten) ----

  /** `bpt_fn`: carve the categories out one after another and concatenate them. */
  method BptFn(df: Frame, s: string) returns (status: Outcome)
    requires df.Valid()
    modifies df
    ensures df.Valid()
    ensures (status, df.Snap()) == BptSpec(old(df.Snap()), s)
  {
    var v := df.Snap();
    var col := BptColumn(s);
    if !RatiosPresent(v, s) {
      df.SetNum(col, seq(df.nrows, _ => Val(-1.0)));
      return Pass;
    }
    var read := ReadRatios(v, s);
    if read.Failure? {
      return Fail(read.error);
    }
    var r, n := read.value, df.nrows;
    var groups := CarveOut(Range(n), BptStages(r));
    BptCarving(r, n);
    var perm := Flatten(groups);
    var codes := Tags(groups, (j: nat) => Val(j as real - 1.0));
    BptTags(r, n);
    if n == 0 && !df.Has(col) {
      return Fail(KeyError(col));
    }
    RangeMembers(n);
    BptOrderPermutes(r, n);
    assert forall k :: 0 <= k < |perm| ==> perm[k] in multiset(Range(n));
    df.Reorder(perm);
    df.SetNum(col, codes);
    status := Pass;
  }

  /** `law2021_fn`: the same carve-out for the kinematic categories, writing a label and a code. */
  method Law2021Fn(df: Frame, s: string) returns (status: Outcome)
    requires df.Valid()
    modifies df
    ensures df.Valid()
    ensures (status, df.Snap()) == LawSpec(old(df.Snap()), s)
  {
    var v := df.Snap();
    if !RatiosPresent(v, s) {
      return Pass;
    }
    var read := ReadRatios(v, s);
    if read.Failure? {
      return Fail(read.error);
    }
    var r, n := read.value, df.nrows;
    var groups := CarveOut(Range(n), LawStages(r));
    LawCarving(r, n);
    RangeMembers(n);
    LawOrderPermutes(r, n);
    if n == 0 {
      if df.Has(LawNumColumn(s)) {
        df.SetNum(LawNumColumn(s), []);
        return Pass;
      }
      return Fail(KeyError(LawNumColumn(s)));
    }
    var perm := Flatten(groups);
    var labels := Tags(groups, (j: nat) => LawLabel(j - 1));
    var codes := Tags(groups, (j: nat) => Val(j as real - 1.0));
    LawTags(r, n);
    LawLabelTags(r, n);
    assert forall k :: 0 <= k < |perm| ==> perm[k] in multiset(Range(n));
    df.Reorder(perm);
    df.SetText(LawColumn(s), labels);
    df.SetNum(LawNumColumn(s), codes);
    status := Pass;
  }

  // ---- Properties of the categories ----

  /** Code -1 is given exactly to the rows with a NaN ratio; every other row gets one of 0 to 4. */
  lemma BptCodeRange(o3: Num, n2: Num, s2: Num)
    ensures BptCode(o3, n2, s2) == -1 <==> AnyNaN(o3, n2, s2)
    ensures -1 <= BptCode(o3, n2, s2) <= 4
  {
  }

  /**
   * The four named BPT categories never overlap, so the order of the
   * carve-out only matters for which rows end up ambiguous.
   */
  lemma BptCategoriesDisjoint(o3: Num, n2: Num, s2: Num)
    ensures !(BptStarForming(o3, n2, s2) && BptComposite(o3, n2, s2))
    ensures !(BptStarForming(o3, n2, s2) && BptLiner(o3, n2, s2))
    ensures !(BptStarForming(o3, n2, s2) && BptSeyfert(o3, n2, s2))
    ensures !(BptComposite(o3, n2, s2) && BptLiner(o3, n2, s2))
    ensures !(BptComposite(o3, n2, s2) && BptSeyfert(o3, n2, s2))
    ensures !(BptLiner(o3, n2, s2) && BptSeyfert(o3, n2, s2))
  {
    CompareNaN(o3, Kauffman2003(n2));
    CompareNaN(o3, Kewley2001(LogN2, n2));
    CompareNaN(o3, Kewley2001(LogS2, s2));
    CompareNaN(o3, Kewley2006Bpt(LogS2, s2));
  }

  /** Where the Kauffmann (2003) line is undefined (log N2 > 0.05) a row is neither star-forming nor composite. */
  lemma BptBeyondKauffmann(o3: Num, n2: real, s2: Num)
    requires n2 > 0.05
    ensures BptCode(o3, Val(n2), s2) != 0 && BptCode(o3, Val(n2), s2) != 1
  {
    Kauffman2003Domain(Val(n2));
  }

  /**
   * Above both Kewley (2001) lines, `bpt_fn` tells a Seyfert from a LINER by
   * its own Kewley (2006) line, 1.89 log S2 + 0.76, at every log S2. The
   * module-level line is cut off below log S2 = -0.3143 and NaN there:
   * against it such a row would be neither LINER nor Seyfert.
   */
  lemma BptAboveKewley(o3: real, n2: real, s2: real)
    requires Ge(Val(o3), Kewley2001(LogN2, Val(n2))) && Ge(Val(o3), Kewley2001(LogS2, Val(s2)))
    ensures BptCode(Val(o3), Val(n2), Val(s2)) == if o3 >= 1.89 * s2 + 0.76 then 3 else 2
    ensures s2 < -0.3143200520185163 ==>
      Kewley2006(LogS2, Val(s2)).NaN? && !Lt(Val(o3), Kewley2006(LogS2, Val(s2))) && !Ge(Val(o3), Kewley2006(LogS2, Val(s2)))
  {
    CompareNaN(Val(o3), Kewley2001(LogS2, Val(s2)));
    CompareNaN(Val(o3), Kewley2001(LogN2, Val(n2)));
  }

  /**
   * A composite row lies on or above the Kauffmann (2003) line and below the
   * Kewley (2001) line, so it needs log N2 below 0.05 with the Kauffmann line
   * the lower of the two: no row with log N2 below about -1.28 is composite.
   */
  lemma BptCompositeWindow(o3: Num, n2: real, s2: Num)
    requires BptComposite(o3, Val(n2), s2)
    ensures n2 < 0.05 && 0.11 * ((0.05 - n2) * (0.47 - n2)) < 0.2562
  {
    assert n2 < 0.05 by {
      HyperbolaShape(0.61, 0.05, 1.3, Val(n2));
      HyperbolaShape(0.61, 0.47, 1.19, Val(n2));
    }
    HyperbolaShape(0.61, 0.05, 1.3, Val(n2));
    HyperbolaShape(0.61, 0.47, 1.19, Val(n2));
    KauffmannBelowKewley(n2);
  }

  lemma LawCodeRange(o3: Num, n2: Num, s2: Num)
    ensures LawCode(o3, n2, s2) == -1 <==> AnyNaN(o3, n2, s2)
    ensures -1 <= LawCode(o3, n2, s2) <= 3
  {
  }

  /** Intermediate rows need log O3 above -0.61. */
  lemma LawIntermediateNeedsO3(o3: real, n2: Num, s2: Num)
    requires o3 <= -0.61
    ensures LawCode(Val(o3), n2, s2) != 1
  {
  }

  /** Intermediate and warm never overlap; cold and intermediate never overlap. */
  lemma LawCategoriesDisjoint(o3: Num, n2: Num, s2: Num)
    ensures !(LawCold(o3, n2, s2) && LawIntermediate(o3, n2, s2))
    ensures !(LawIntermediate(o3, n2, s2) && LawWarm(o3, n2, s2))
  {
    CompareNaN(o3, Law2021OneSigma(LogN2, n2));
    CompareNaN(n2, Law2021ThreeSigma(LogN2, o3));
  }

  // ---- The guards as written ----

  /**
   * `np.all` applied to a generator expression: numpy wraps the generator
   * object itself, which is truthy, whatever the generator would yield.
   */
  function NpAllOfGenerator(items: seq<bool>): bool
  {
    true
  }

  /** The outcome of `bpt_fn` as written, whose guard is `np.all` of a generator. */
  function BptAsWritten(v: Snapshot, s: string): Outcome
    requires v.Valid()
  {
    if NpAllOfGenerator([v.Has(O3Column(s)), v.Has(N2Column(s)), v.Has(S2Column(s))]) then
      match ReadRatios(v, s)
      case Failure(e) => Fail(e)
      case Success(_) => BptSpec(v, s).0
    else Pass
  }

  function LawAsWritten(v: Snapshot, s: string): Outcome
    requires v.Valid()
  {
    if NpAllOfGenerator([v.Has(O3Column(s)), v.Has(N2Column(s)), v.Has(S2Column(s))]) then
      match ReadRatios(v, s)
      case Failure(e) => Fail(e)
      case Success(_) => LawSpec(v, s).0
    else Pass
  }

  /**
   * As written, a frame without "log O3" makes `bpt_fn` raise a KeyError
   * instead of taking its fallback branch, which marks every row -1.
   */
  lemma BptGuardAsWritten(v: Snapshot, s: string)
    requires v.Valid() && !v.Has(O3Column(s))
    ensures BptAsWritten(v, s) == Fail(KeyError(O3Column(s)))
    ensures BptSpec(v, s) == (Pass, v.WithNum(BptColumn(s), seq(v.nrows, _ => Val(-1.0))))
  {
  }

  /** As written, a frame without "log O3" makes `law2021_fn` raise instead of returning the frame untouched. */
  lemma LawGuardAsWritten(v: Snapshot, s: string)
    requires v.Valid() && !v.Has(O3Column(s))
    ensures LawAsWritten(v, s) == Fail(KeyError(O3Column(s)))
    ensures LawSpec(v, s) == (Pass, v)
  {
  }

  /** When the ratio columns are there, the corrected guard changes nothing. */
  lemma GuardsAgree(v: Snapshot, s: string)
    requires v.Valid() && RatiosPresent(v, s)
    ensures BptAsWritten(v, s) == BptSpec(v, s).0
    ensures LawAsWritten(v, s) == LawSpec(v, s).0
  {
  }

  // ---- bpt_num_to_str ----

  /** `bpt_dict`: the category names, keyed by the text of the code as a float. */
  function BptDict(key: string): Option<string>
  {
    if key == "0.0" then Some("SF")
    else if key == "1.0" then Some("Composite")
    else if key == "2.0" then Some("LINER")
    else if key == "3.0" then Some("Seyfert")
    else if key == "4.0" then Some("Ambiguous")
    else if key == "-1.0" then Some("Not classified")
    else None
  }

  /** The category name of a code. */
  function BptLabel(code: int): string
  {
    if code == 0 then "SF"
    else if code == 1 then "Composite"
    else if code == 2 then "LINER"
    else if code == 3 then "Seyfert"
    else if code == 4 then "Ambiguous"
    else "Not classified"
  }

  predicate IsBptCode(x: Num)
  {
    x.Val? && (x.v == -1.0 || x.v == 0.0 || x.v == 1.0 || x.v == 2.0 || x.v == 3.0 || x.v == 4.0)
  }

  /**
   * `str(a)` for a float, exact for the codes and the special values. Any
   * other finite value stands as "", which (like Python's text of such a
   * value) is no key of `bpt_dict`: the KeyError is raised on the same
   * values, but its message does not carry the digits Python would print.
   */
  function FloatText(x: Num): string
  {
    match x
    case NaN => "nan"
    case PosInf => "inf"
    case NegInf => "-inf"
    case Val(v) =>
      if v == -1.0 then "-1.0" else if v == 0.0 then "0.0" else if v == 1.0 then "1.0"
      else if v == 2.0 then "2.0" else if v == 3.0 then "3.0" else if v == 4.0 then "4.0"
      else ""
  }

  /** `bpt_num_to_str`: the category name of each code, a KeyError at the first value that is not a code. */
  function BptNumToStr(xs: seq<Num>): (r: Result<seq<string>>)
  {
    if xs == [] then Success([])
    else
      var init :- BptNumToStr(xs[..|xs| - 1]);
      match BptDict(FloatText(xs[|xs| - 1]))
      case Some(name) => Success(init + [name])
      case None => Failure(KeyError(FloatText(xs[|xs| - 1])))
  }

  /**
   * `bpt_num_to_str` succeeds exactly on sequences of codes, and then gives
   * each code's category name.
   */
  lemma {:induction false} BptNumToStrCodes(xs: seq<Num>)
    ensures BptNumToStr(xs).Success? <==> forall i :: 0 <= i < |xs| ==> IsBptCode(xs[i])
    ensures BptNumToStr(xs).Success? ==>
      |BptNumToStr(xs).value| == |xs| &&
      forall i :: 0 <= i < |xs| ==> BptNumToStr(xs).value[i] == BptLabel(xs[i].v.Floor)
  {
    if xs != [] {
      var init, x := xs[..|xs| - 1], xs[|xs| - 1];
      BptNumToStrCodes(init);
      CodeName(x);
      assert forall i :: 0 <= i < |init| ==> init[i] == xs[i];
      if BptNumToStr(xs).Success? {
        assert BptNumToStr(xs).value == BptNumToStr(init).value + [BptLabel(x.v.Floor)];
      }
    }
  }

  /** One value: `bpt_dict[str(x)]` is found exactly for a code, and is the code's category name. */
  lemma CodeName(x: Num)
    ensures BptDict(FloatText(x)).Some? <==> IsBptCode(x)
    ensures IsBptCode(x) ==> BptDict(FloatText(x)) == Some(BptLabel(x.v.Floor))
  {
    if x.Val? && !IsBptCode(x) {
      assert FloatText(x) == "";
    }
  }

  /** The codes `bpt_fn` writes always convert back to category names. */
  lemma BptCodesToLabels(r: Ratios, perm: seq<nat>)
    ensures BptNumToStr(BptCodes(r, perm)) == Success(seq(|perm|, k requires 0 <= k < |perm| => BptLabel(BptCodeAt(r, perm[k]))))
  {
    var codes := BptCodes(r, perm);
    var labels := seq(|perm|, k requires 0 <= k < |perm| => BptLabel(BptCodeAt(r, perm[k])));
    forall k | 0 <= k < |perm|
      ensures IsBptCode(codes[k]) && BptLabel(codes[k].v.Floor) == labels[k]
    {
      BptCodeRange(At(r.o3, perm[k]), At(r.n2, perm[k]), At(r.s2, perm[k]));
    }
    LabelsOfCodes(codes, labels);
  }

  /** Codes whose category names are `labels`, position by position, convert to exactly `labels`. */
  lemma LabelsOfCodes(codes: seq<Num>, labels: seq<string>)
    requires |codes| == |labels|
    requires forall k :: 0 <= k < |codes| ==> IsBptCode(codes[k]) && BptLabel(codes[k].v.Floor) == labels[k]
    ensures BptNumToStr(codes) == Success(labels)
  {
    BptNumToStrCodes(codes);
    assert BptNumToStr(codes).value == labels;
  }
}
