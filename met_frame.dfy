/**
 * `_get_metallicity_no_errs` and `calculate_metallicity` (without the Monte
 * Carlo errors) of utils/metallicity.py: the metallicity is computed on the
 * star-forming rows only, written into new columns, and the frame is put
 * back together non-star-forming rows first; `calculate_metallicity` checks
 * its inputs and strips a column suffix beforehand, and restores it after.
 */
module MetFrame {
  import opened Numeric
  import opened Outcomes
  import opened Table
  import opened MetTables
  import opened Metallicity
  import opened Carve

  /** How log U enters; `compute_logU` takes precedence over a given `logU`. */
  datatype Mode = Computed(ion: Option<string>) | Given(logU: real) | Plain

  function ModeOf(logU: Option<real>, computeLogU: bool, ion: Option<string>): Mode
  {
    if computeLogU then Computed(ion) else if logU.Some? then Given(logU.value) else Plain
  }

  /** The column log(O/H) + 12 is written to; the ionisation diagnostic is named when log U is computed. */
  function MetColumn(met: string, mode: Mode): string
  {
    if mode.Computed? then "log(O/H) + 12 (" + met + "/" + IonKey(mode.ion) + ")" else "log(O/H) + 12 (" + met + ")"
  }

  function LogUColumn(met: string, mode: Mode): string
  {
    if mode.Computed? then "log(U) (" + met + "/" + IonKey(mode.ion) + ")" else "log(U) (" + met + ")"
  }

  /** The two result columns never coincide. */
  lemma NamesDiffer(met: string, mode: Mode)
    ensures MetColumn(met, mode) != LogUColumn(met, mode)
  {
    assert MetColumn(met, mode)[4] == 'O' && LogUColumn(met, mode)[4] == 'U';
  }

  /** `df["BPT"] == "SF"`: a BPT column that is not text compares false everywhere. */
  predicate StarForming(v: Snapshot, i: nat)
  {
    "BPT" in v.text && i < |v.text["BPT"]| && v.text["BPT"][i] == "SF"
  }

  function SF(v: Snapshot): nat -> bool
  {
    (i: nat) => StarForming(v, i)
  }

  /** `df_nomet`: the rows that are not star-forming, in order. */
  function NonSF(v: Snapshot): (r: seq<nat>)
    ensures forall k :: 0 <= k < |r| ==> r[k] < v.nrows
  {
    FilterMembers(Range(v.nrows), Not(SF(v)));
    var r := Filter(Range(v.nrows), Not(SF(v)));
    assert forall k :: 0 <= k < |r| ==> r[k] in r;
    r
  }

  /** `df_met`: the star-forming rows, in order. */
  function SFRows(v: Snapshot): (r: seq<nat>)
    ensures forall k :: 0 <= k < |r| ==> r[k] < v.nrows
  {
    FilterMembers(Range(v.nrows), SF(v));
    var r := Filter(Range(v.nrows), SF(v));
    assert forall k :: 0 <= k < |r| ==> r[k] in r;
    r
  }

  /** Every row is in exactly one of `df_nomet` and `df_met`, so their lengths add up to the frame's. */
  lemma SplitLengths(v: Snapshot)
    ensures |NonSF(v)| + |SFRows(v)| == v.nrows
  {
    FilterPartition(Range(v.nrows), SF(v));
    assert |multiset(SFRows(v))| + |multiset(NonSF(v))| == |multiset(Range(v.nrows))|;
  }

  /** The row order after `pd.concat([df_nomet, df_met])`. */
  function Order(v: Snapshot): (r: seq<nat>)
    ensures |r| == v.nrows
    ensures forall k :: 0 <= k < |r| ==> r[k] < v.nrows
  {
    var a, b := NonSF(v), SFRows(v);
    SplitLengths(v);
    assert forall k :: 0 <= k < |a| + |b| ==> (a + b)[k] == if k < |a| then a[k] else b[k - |a|];
    a + b
  }

  /**
   * `df_nomet` holds the rows that are not star-forming and `df_met` the
   * star-forming ones; after `pd.concat` each row is there once, the
   * star-forming ones last.
   */
  lemma OrderMeaning(v: Snapshot)
    ensures forall k :: 0 <= k < |NonSF(v)| ==> !StarForming(v, NonSF(v)[k])
    ensures forall k :: 0 <= k < |SFRows(v)| ==> StarForming(v, SFRows(v)[k])
    ensures multiset(Order(v)) == multiset(Range(v.nrows))
    ensures forall k :: 0 <= k < |Order(v)| ==> (StarForming(v, Order(v)[k]) <==> k >= |NonSF(v)|)
  {
    var a, b, r := NonSF(v), SFRows(v), Order(v);
    FilterMembers(Range(v.nrows), Not(SF(v)));
    FilterMembers(Range(v.nrows), SF(v));
    assert forall k :: 0 <= k < |a| ==> a[k] in a;
    assert forall k :: 0 <= k < |b| ==> b[k] in b;
    OrderCount(v);
    forall k | 0 <= k < |r| ensures StarForming(v, r[k]) <==> k >= |a| {
      if k < |a| {
        assert r[k] == a[k];
      } else {
        assert r[k] == b[k - |a|];
      }
    }
  }

  lemma OrderCount(v: Snapshot)
    ensures multiset(NonSF(v) + SFRows(v)) == multiset(Range(v.nrows))
  {
    var a, b := NonSF(v), SFRows(v);
    FilterPartition(Range(v.nrows), SF(v));
    assert multiset(a + b) == multiset(a) + multiset(b);
  }

  /** The position of x in s. */
  function IndexOf(s: seq<nat>, x: nat): (k: nat)
    requires x in s
    ensures k < |s| && s[k] == x
  {
    if s[0] == x then 0 else 1 + IndexOf(s[1..], x)
  }

  /**
   * `res[k]` (k = 0 or 1) on a result that is log(O/H) + 12 alone:
   * `np.squeeze` has made a single row a scalar; a pandas Series looks k up
   * as an index label (a row's label is its position in the full frame), a
   * numpy array as a position.
   */
  function Subscript(z: seq<Num>, series: bool, labels: seq<nat>, k: nat): (r: Result<Num>)
    requires |z| == |labels| && k <= 1
    ensures r.Success? <==> |z| != 1 && (if series then k in labels else k < |z|)
    ensures r.Success? && series ==> r.value == z[IndexOf(labels, k)]
    ensures r.Success? && !series ==> r.value == z[k]
  {
    if |z| == 1 then Failure(IndexError("invalid index to scalar variable"))
    else if series then
      if k in labels then Success(z[IndexOf(labels, k)]) else Failure(KeyError(if k == 0 then "0" else "1"))
    else if k < |z| then Success(z[k])
    else Failure(IndexError("index out of bounds"))
  }

  /**
   * What is written into the star-forming rows: log(O/H) + 12, and log U
   * unless neither is given nor computed. A lone log(O/H) + 12 is then
   * subscripted, and its two entries fill the columns; None is not
   * subscriptable, and in the plain mode is written as a column of None.
   */
  function Written(e: Estimate, mode: Mode, labels: seq<nat>): (r: Result<(seq<Num>, Option<seq<Num>>)>)
    requires e.Single? ==> |e.z| == |labels|
    requires e.Pair? ==> |e.z| == |labels| && |e.u| == |labels|
    requires mode.Plain? ==> !e.Pair?
    ensures r.Success? ==> |r.value.0| == |labels|
    ensures r.Success? ==> (r.value.1.Some? <==> !mode.Plain?)
    ensures r.Success? && r.value.1.Some? ==> |r.value.1.value| == |labels|
  {
    if mode.Plain? then
      if e.Single? then Success((e.z, None)) else Success((seq(|labels|, _ => NaN), None))
    else
      match e
      case Nothing => Failure(TypeError("'NoneType' object is not subscriptable"))
      case Pair(z, u) => Success((z, Some(u)))
      case Single(z, series) =>
        match Subscript(z, series, labels, 0)
        case Failure(err) => Failure(err)
        case Success(z0) =>
          match Subscript(z, series, labels, 1)
          case Failure(err) => Failure(err)
          case Success(u0) => Success((seq(|labels|, _ => z0), Some(seq(|labels|, _ => u0))))
  }

  /** The `_get_metallicity` call of each mode, with its default of ten iterations. */
  function Estimated(met: string, sub: Snapshot, mode: Mode, log10: real -> real): (r: Result<Estimate>)
    requires sub.Valid()
    ensures r.Success? && r.value.Single? ==> |r.value.z| == sub.nrows
    ensures r.Success? && r.value.Pair? ==> |r.value.z| == sub.nrows && |r.value.u| == sub.nrows
    ensures r.Success? && mode.Plain? ==> !r.value.Pair?
  {
    var logU := if mode.Given? then Some(mode.logU) else None;
    var ion := if mode.Computed? then mode.ion else None;
    var r := GetMetallicitySpec(met, sub, logU, mode.Computed?, ion, 10, log10);
    if r.Success? then EstimateShape(met, sub, logU, mode.Computed?, ion, 10, log10); r else r
  }

  /** A result column: its old cells (NaN where new) in the other rows, then `extra` in the star-forming ones. */
  function Splice(v: Snapshot, c: string, extra: seq<Num>): (r: seq<Num>)
    requires v.Valid() && |extra| == |SFRows(v)|
    ensures |r| == v.nrows == |NonSF(v)| + |extra|
    ensures forall k :: 0 <= k < |NonSF(v)| ==> r[k] == Prior(v, c)[Order(v)[k]]
    ensures forall k :: |NonSF(v)| <= k < v.nrows ==> r[k] == extra[k - |NonSF(v)|]
  {
    SplitLengths(v);
    var r := Pick(Prior(v, c), NonSF(v)) + extra;
    assert forall k :: 0 <= k < |NonSF(v)| ==> Order(v)[k] == NonSF(v)[k];
    r
  }

  /** The frame put back together: the rows in `Order`, and the result columns written. */
  function Assemble(v: Snapshot, zc: string, uc: string, cols: (seq<Num>, Option<seq<Num>>)): (r: Snapshot)
    requires v.Valid() && |cols.0| == |SFRows(v)| && (cols.1.Some? ==> |cols.1.value| == |SFRows(v)|)
    ensures r.Valid() && r.nrows == v.nrows
  {
    var w := v.Rows(Order(v)).WithNum(zc, Splice(v, zc, cols.0));
    if cols.1.Some? then w.WithNum(uc, Splice(v, uc, cols.1.value)) else w
  }

  lemma AssembleMeaning(v: Snapshot, zc: string, uc: string, cols: (seq<Num>, Option<seq<Num>>))
    requires v.Valid() && |cols.0| == |SFRows(v)| && (cols.1.Some? ==> |cols.1.value| == |SFRows(v)|)
    requires zc != uc
    ensures var r := Assemble(v, zc, uc, cols);
      && Names(r) == Names(v) + {zc} + (if cols.1.Some? then {uc} else {})
      && (forall c :: c in v.num && c != zc && c != uc ==> c in r.num && r.num[c] == Pick(v.num[c], Order(v)))
      && (forall c :: c in v.text && c != zc && c != uc ==> c in r.text && r.text[c] == Pick(v.text[c], Order(v)))
      && zc in r.num && r.num[zc] == Splice(v, zc, cols.0)
      && (cols.1.Some? ==> uc in r.num && r.num[uc] == Splice(v, uc, cols.1.value))
      && (cols.1.None? ==> (uc in r.num <==> uc in v.num))
  {
    var w0 := v.Rows(Order(v));
    WithNumMeaning(w0, zc, Splice(v, zc, cols.0));
    var w1 := w0.WithNum(zc, Splice(v, zc, cols.0));
    if cols.1.Some? {
      WithNumMeaning(w1, uc, Splice(v, uc, cols.1.value));
    }
  }

  /** `df[c] = col` adds or replaces column c and leaves every other column as it was. */
  lemma WithNumMeaning(w: Snapshot, c: string, col: seq<Num>)
    requires w.Valid() && |col| == w.nrows
    ensures var r := w.WithNum(c, col);
      && Names(r) == Names(w) + {c}
      && c in r.num && r.num[c] == col
      && (forall d :: d in w.num && d != c ==> d in r.num && r.num[d] == w.num[d])
      && (forall d :: d in w.text && d != c ==> d in r.text && r.text[d] == w.text[d])
      && (forall d :: d != c ==> (d in r.num <==> d in w.num))
  {
  }

  /** The columns `_get_metallicity_no_errs` may add. */
  function ResultColumns(met: string, mode: Mode): set<string>
  {
    {MetColumn(met, mode), LogUColumn(met, mode)}
  }

  /** Every numeric column of v but those in `cols` is in out, its rows in the order `perm`. */
  predicate Carried(v: Snapshot, out: Snapshot, cols: set<string>, perm: seq<nat>)
    requires v.Valid() && forall k :: 0 <= k < |perm| ==> perm[k] < v.nrows
  {
    forall c :: c in v.num && c !in cols ==> c in out.num && out.num[c] == Pick(v.num[c], perm)
  }

  /** Whether an estimate has the lengths the star-forming rows of v call for (what `Estimated` ensures). */
  predicate Fits(v: Snapshot, mode: Mode, res: Result<Estimate>)
    requires v.Valid()
  {
    res.Success? ==>
      && (res.value.Single? ==> |res.value.z| == |SFRows(v)|)
      && (res.value.Pair? ==> |res.value.z| == |SFRows(v)| && |res.value.u| == |SFRows(v)|)
      && (mode.Plain? ==> !res.value.Pair?)
  }

  /** `_get_metallicity` on the star-forming rows of v. */
  function SFEstimate(met: string, v: Snapshot, mode: Mode, log10: real -> real): (r: Result<Estimate>)
    requires v.Valid()
    ensures Fits(v, mode, r)
  {
    Estimated(met, v.Rows(SFRows(v)), mode, log10)
  }

  /**
   * `_get_metallicity_no_errs` once `_get_metallicity` has given `res` on the
   * star-forming rows: the rows regrouped, the result columns written.
   */
  function NoErrsWith(met: string, v: Snapshot, mode: Mode, res: Result<Estimate>): (r: Result<Snapshot>)
    requires v.Valid() && Fits(v, mode, res)
    ensures r.Success? ==> r.value.Valid() && r.value.nrows == v.nrows
    ensures r.Success? ==> Names(r.value) <= Names(v) + ResultColumns(met, mode)
    ensures r.Success? ==> Carried(v, r.value, ResultColumns(met, mode), Order(v)) && MetColumn(met, mode) in r.value.num
  {
    if !v.Has("BPT") then Failure(KeyError("BPT"))    // df["BPT"] is read before the diagnostic runs
    else
      match res
      case Failure(e) => Failure(e)
      case Success(est) =>
        match Written(est, mode, SFRows(v))
        case Failure(e) => Failure(e)
        case Success(cols) =>
          NamesDiffer(met, mode);
          AssembleMeaning(v, MetColumn(met, mode), LogUColumn(met, mode), cols);
          Success(Assemble(v, MetColumn(met, mode), LogUColumn(met, mode), cols))
  }

  /** `_get_metallicity_no_errs(met_diagnostic, df, logU, compute_logU, ion_diagnostic)` */
  function NoErrsSpec(met: string, v: Snapshot, logU: Option<real>, computeLogU: bool, ion: Option<string>,
                      log10: real -> real): (r: Result<Snapshot>)
    requires v.Valid()
    ensures r.Success? ==> r.value.Valid() && r.value.nrows == v.nrows
    ensures Outcome(v, ResultColumns(met, ModeOf(logU, computeLogU, ion)), r)
  {
    var mode := ModeOf(logU, computeLogU, ion);
    NoErrsWith(met, v, mode, SFEstimate(met, v, mode, log10))
  }

  /**
   * The layout after `_get_metallicity_no_errs`: the rows are the other rows
   * followed by the star-forming ones, each once (`Order`); every column but
   * the two result columns is carried along; the log U column is added
   * unless log U is neither given nor computed; in the rows that are not
   * star-forming the result columns keep what they held (NaN where new).
   */
  lemma NoErrsLayout(met: string, v: Snapshot, mode: Mode, res: Result<Estimate>)
    requires v.Valid() && Fits(v, mode, res) && NoErrsWith(met, v, mode, res).Success?
    ensures var out, zc, uc := NoErrsWith(met, v, mode, res).value, MetColumn(met, mode), LogUColumn(met, mode);
      && v.Has("BPT") && res.Success?
      && Names(out) == Names(v) + {zc} + (if mode.Plain? then {} else {uc})
      && (forall c :: c in v.num && c != zc && c != uc ==> c in out.num && out.num[c] == Pick(v.num[c], Order(v)))
      && (forall c :: c in v.text && c != zc && c != uc ==> c in out.text && out.text[c] == Pick(v.text[c], Order(v)))
      && zc in out.num && |out.num[zc]| == v.nrows
      && (forall k :: 0 <= k < |NonSF(v)| ==> out.num[zc][k] == Prior(v, zc)[Order(v)[k]])
      && (!mode.Plain? ==>
            && uc in out.num && |out.num[uc]| == v.nrows
            && forall k :: 0 <= k < |NonSF(v)| ==> out.num[uc][k] == Prior(v, uc)[Order(v)[k]])
  {
    NamesDiffer(met, mode);
    var cols := Written(res.value, mode, SFRows(v)).value;
    AssembleMeaning(v, MetColumn(met, mode), LogUColumn(met, mode), cols);
  }

  /**
   * What goes into the star-forming rows: both columns of a pair;
   * log(O/H) + 12 alone, or a column of None, when log U is neither given nor
   * computed; and, when log U is asked for, the entries at 0 and 1 of a lone
   * log(O/H) + 12 repeated down both columns, or the error of subscripting
   * it, or a TypeError for None.
   */
  lemma WrittenMeaning(e: Estimate, mode: Mode, labels: seq<nat>)
    requires e.Single? ==> |e.z| == |labels|
    requires e.Pair? ==> |e.z| == |labels| && |e.u| == |labels|
    requires mode.Plain? ==> !e.Pair?
    ensures var r := Written(e, mode, labels);
      && (e.Pair? ==> r == Success((e.z, Some(e.u))))
      && (mode.Plain? && e.Single? ==> r == Success((e.z, None)))
      && (mode.Plain? && e.Nothing? ==> r.Success? && forall k :: 0 <= k < |labels| ==> r.value.0[k] == NaN)
      && (!mode.Plain? && e.Nothing? ==> r.Failure? && r.error.TypeError?)
      && (!mode.Plain? && e.Single? ==>
            var z0, z1 := Subscript(e.z, e.series, labels, 0), Subscript(e.z, e.series, labels, 1);
            && (r.Success? <==> z0.Success? && z1.Success?)
            && (z0.Failure? ==> r == Failure(z0.error))
            && (z0.Success? && z1.Failure? ==> r == Failure(z1.error))
            && (r.Success? ==>
                  && r.value.1.Some?
                  && forall k :: 0 <= k < |labels| ==> r.value.0[k] == z0.value && r.value.1.value[k] == z1.value))
  {
  }

  /** `_get_metallicity_no_errs`, when it succeeds, is the assembled frame with what was written. */
  lemma NoErrsAssembled(met: string, v: Snapshot, mode: Mode, res: Result<Estimate>)
    requires v.Valid() && Fits(v, mode, res) && NoErrsWith(met, v, mode, res).Success?
    ensures res.Success? && Written(res.value, mode, SFRows(v)).Success?
    ensures var cols := Written(res.value, mode, SFRows(v)).value;
      && |cols.0| == |SFRows(v)| && (cols.1.Some? ==> |cols.1.value| == |SFRows(v)|)
      && NoErrsWith(met, v, mode, res).value == Assemble(v, MetColumn(met, mode), LogUColumn(met, mode), cols)
  {
  }

  /** The star-forming rows of the assembled frame hold the written columns, in the order of `SFRows`. */
  lemma AssembleValues(v: Snapshot, zc: string, uc: string, cols: (seq<Num>, Option<seq<Num>>))
    requires v.Valid() && |cols.0| == |SFRows(v)| && (cols.1.Some? ==> |cols.1.value| == |SFRows(v)|)
    requires zc != uc
    ensures var r, m := Assemble(v, zc, uc, cols), |NonSF(v)|;
      && zc in r.num && |r.num[zc]| == v.nrows
      && (forall k :: m <= k < v.nrows ==> r.num[zc][k] == cols.0[k - m])
      && (cols.1.Some? ==>
            && uc in r.num && |r.num[uc]| == v.nrows
            && forall k :: m <= k < v.nrows ==> r.num[uc][k] == cols.1.value[k - m])
  {
    AssembleMeaning(v, zc, uc, cols);
  }

  /**
   * The star-forming rows after `_get_metallicity_no_errs` hold what was
   * written for them (`Written`), in the order of `SFRows`.
   */
  lemma NoErrsValues(met: string, v: Snapshot, mode: Mode, res: Result<Estimate>)
    requires v.Valid() && Fits(v, mode, res) && NoErrsWith(met, v, mode, res).Success?
    ensures res.Success? && Written(res.value, mode, SFRows(v)).Success?
    ensures var out, zc, uc, m := NoErrsWith(met, v, mode, res).value, MetColumn(met, mode), LogUColumn(met, mode), |NonSF(v)|;
      var cols := Written(res.value, mode, SFRows(v)).value;
      && zc in out.num && |out.num[zc]| == v.nrows
      && (forall k :: m <= k < v.nrows ==> out.num[zc][k] == cols.0[k - m])
      && (cols.1.Some? ==>
            && uc in out.num && |out.num[uc]| == v.nrows
            && forall k :: m <= k < v.nrows ==> out.num[uc][k] == cols.1.value[k - m])
  {
    NamesDiffer(met, mode);
    NoErrsAssembled(met, v, mode, res);
    AssembleValues(v, MetColumn(met, mode), LogUColumn(met, mode), Written(res.value, mode, SFRows(v)).value);
  }

  /** The same layout for `_get_metallicity_no_errs` with the diagnostic run. */
  lemma NoErrsSpecLayout(met: string, v: Snapshot, logU: Option<real>, computeLogU: bool, ion: Option<string>, log10: real -> real)
    requires v.Valid() && NoErrsSpec(met, v, logU, computeLogU, ion, log10).Success?
    ensures var out, mode := NoErrsSpec(met, v, logU, computeLogU, ion, log10).value, ModeOf(logU, computeLogU, ion);
      var zc, uc := MetColumn(met, mode), LogUColumn(met, mode);
      && v.Has("BPT")
      && Names(out) == Names(v) + {zc} + (if mode.Plain? then {} else {uc})
      && (forall c :: c in v.num && c != zc && c != uc ==> c in out.num && out.num[c] == Pick(v.num[c], Order(v)))
      && (forall c :: c in v.text && c != zc && c != uc ==> c in out.text && out.text[c] == Pick(v.text[c], Order(v)))
  {
    var mode := ModeOf(logU, computeLogU, ion);
    NoErrsLayout(met, v, mode, SFEstimate(met, v, mode, log10));
  }

  /** The same values for `_get_metallicity_no_errs` with the diagnostic run: a pair lands in the star-forming rows. */
  lemma NoErrsSpecValues(met: string, v: Snapshot, logU: Option<real>, computeLogU: bool, ion: Option<string>, log10: real -> real)
    requires v.Valid() && NoErrsSpec(met, v, logU, computeLogU, ion, log10).Success?
    ensures var out, mode := NoErrsSpec(met, v, logU, computeLogU, ion, log10).value, ModeOf(logU, computeLogU, ion);
      var est, zc, uc, m := SFEstimate(met, v, mode, log10), MetColumn(met, mode), LogUColumn(met, mode), |NonSF(v)|;
      && est.Success? && zc in out.num && |out.num[zc]| == v.nrows
      && (est.value.Pair? ==>
            && uc in out.num && |out.num[uc]| == v.nrows
            && forall k :: m <= k < v.nrows ==> out.num[zc][k] == est.value.z[k - m] && out.num[uc][k] == est.value.u[k - m])
  {
    var mode := ModeOf(logU, computeLogU, ion);
    NoErrsValues(met, v, mode, SFEstimate(met, v, mode, log10));
  }

  // ---- calculate_metallicity: input checks ----

  function Suffixed(lines: seq<string>, sfx: string): (r: seq<string>)
    ensures |r| == |lines| && forall i :: 0 <= i < |lines| ==> r[i] == lines[i] + sfx
  {
    seq(|lines|, i requires 0 <= i < |lines| => lines[i] + sfx)
  }

  /** The suffix text the line checks append, as evidently intended: none when no suffix is given. */
  function SuffixText(s: Option<string>): string
  {
    if s.Some? then s.value else ""
  }

  /** As written, `f"{line}{s}"` with s = None appends the text "None". */
  function SuffixTextAsWritten(s: Option<string>): string
  {
    if s.Some? then s.value else "None"
  }

  /** The assertions at the top of `calculate_metallicity`, in order, with line names built with `sfx`. */
  function InputChecks(v: Snapshot, met: string, logU: Option<real>, computeLogU: bool, ion: Option<string>, sfx: string): (r: Outcome)
  {
    if LineList(met).None? then Fail(AssertionError("metallicity diagnostic is not valid"))
    else if CheckPresent(Suffixed(LineList(met).value, sfx), v).Fail? then CheckPresent(Suffixed(LineList(met).value, sfx), v)
    else if (IsK19(met) || met == "R23_KK04") && logU.None? && !computeLogU then Fail(AssertionError("log(U) or compute_logU required"))
    else if !computeLogU then Pass
    else if met == "R23_KK04" && ion != Some("O3O2_KK04") then Fail(AssertionError("ionisation diagnostic must be O3O2_KK04"))
    else if met != "R23_KK04" && IsK19(met) && ion.None? then Fail(AttributeError("endswith"))    // None.endswith
    else if met != "R23_KK04" && IsK19(met) && !IsK19(ion.value) then Fail(AssertionError("ionisation diagnostic must be from K19"))
    else if LineList(IonKey(ion)).None? then Fail(KeyError(IonKey(ion)))
    else CheckPresent(Suffixed(LineList(IonKey(ion)).value, sfx), v)
  }

  lemma SuffixedPresent(ls: seq<string>, sfx: string, v: Snapshot)
    ensures CheckPresent(Suffixed(ls, sfx), v).Pass? <==> forall l :: l in ls ==> v.Has(l + sfx)
  {
    forall l | l in ls ensures l + sfx in Suffixed(ls, sfx) {
      var i :| 0 <= i < |ls| && ls[i] == l;
      assert Suffixed(ls, sfx)[i] == l + sfx;
    }
  }

  lemma KK04NotK19()
    ensures !IsK19("R23_KK04")
  {
    assert "R23_KK04"[5..] != "K19";
  }

  /**
   * The input checks as the corrected code applies them: the diagnostic is
   * known and its suffixed lines are columns; log U is given or computed when
   * the diagnostic needs one; a computed log U comes with an ionisation
   * diagnostic of the right family whose suffixed lines are columns.
   */
  lemma InputChecksMeaning(v: Snapshot, met: string, logU: Option<real>, computeLogU: bool, ion: Option<string>, s: Option<string>)
    ensures InputChecks(v, met, logU, computeLogU, ion, SuffixText(s)).Pass? <==>
      && LineList(met).Some?
      && (forall l :: l in LineList(met).value ==> v.Has(l + SuffixText(s)))
      && ((IsK19(met) || met == "R23_KK04") ==> logU.Some? || computeLogU)
      && (computeLogU ==>
            && (met == "R23_KK04" ==> ion == Some("O3O2_KK04"))
            && (IsK19(met) ==> ion.Some? && IsK19(ion.value))
            && LineList(IonKey(ion)).Some?
            && forall l :: l in LineList(IonKey(ion)).value ==> v.Has(l + SuffixText(s)))
  {
    KK04NotK19();
    if LineList(met).Some? {
      SuffixedPresent(LineList(met).value, SuffixText(s), v);
    }
    if LineList(IonKey(ion)).Some? {
      SuffixedPresent(LineList(IonKey(ion)).value, SuffixText(s), v);
    }
  }

  /**
   * Without a suffix the code as written looks for "<line>None" columns, so
   * a frame holding every line of the diagnostic under its own name, and no
   * such column, is refused; as intended it passes that check.
   */
  lemma NoneSuffixRefused(v: Snapshot, met: string, logU: Option<real>, computeLogU: bool, ion: Option<string>)
    requires LineList(met).Some?
    requires forall l :: l in LineList(met).value ==> v.Has(l) && !v.Has(l + "None")
    ensures InputChecks(v, met, logU, computeLogU, ion, SuffixTextAsWritten(None)).Fail?
    ensures InputChecks(v, met, logU, computeLogU, ion, SuffixTextAsWritten(None)).error.AssertionError?
    ensures CheckPresent(Suffixed(LineList(met).value, SuffixText(None)), v).Pass?
  {
    NoneLinesAbsent(LineList(met).value, v);
  }

  /** Lines that are columns under their own names but not with "None" appended fail the as-written check and pass the intended one. */
  lemma NoneLinesAbsent(ls: seq<string>, v: Snapshot)
    requires ls != []
    requires forall l :: l in ls ==> v.Has(l) && !v.Has(l + "None")
    ensures CheckPresent(Suffixed(ls, "None"), v).Fail? && CheckPresent(Suffixed(ls, "None"), v).error.AssertionError?
    ensures CheckPresent(Suffixed(ls, ""), v).Pass?
  {
    SuffixedPresent(ls, "None", v);
    SuffixedPresent(ls, "", v);
    assert !v.Has(ls[0] + "None");
    forall l | l in ls ensures v.Has(l + "") {
      assert l + "" == l;
    }
  }

  // ---- calculate_metallicity: the suffix ----

  predicate OccursAt(s: string, t: string, i: nat)
  {
    i + |t| <= |s| && s[i..i + |t|] == t
  }

  /** The index of the first occurrence of t in s from j on, or |s| when there is none. */
  function FirstOccFrom(s: string, t: string, j: nat): (k: nat)
    requires j <= |s|
    ensures j <= k <= |s|
    ensures k < |s| || k + |t| <= |s| ==> OccursAt(s, t, k)
    ensures forall i :: j <= i < k ==> !OccursAt(s, t, i)
    decreases |s| - j
  {
    if j + |t| > |s| then |s|
    else if s[j..j + |t|] == t then j
    else FirstOccFrom(s, t, j + 1)
  }

  /** `c.split(s)[0]` for a column that ends with s, and the column itself otherwise. */
  function Strip1(c: string, s: string): string
  {
    if EndsWith(c, s) then c[..FirstOccFrom(c, s, 0)] else c
  }

  /** A stripped name no longer ends with the suffix. */
  lemma StrippedLacksSuffix(c: string, s: string)
    requires s != ""
    ensures !EndsWith(Strip1(c, s), s)
  {
    if EndsWith(c, s) {
      var k := FirstOccFrom(c, s, 0);
      assert OccursAt(c, s, |c| - |s|);
      assert k <= |c| - |s|;
      var p := c[..k];
      if |s| <= k {
        assert !OccursAt(c, s, k - |s|);
        assert p[|p| - |s|..] == c[k - |s|..k];
      }
    }
  }

  /**
   * What the renames need to be one-to-one, as a map of columns requires:
   * the stripped names are distinct, and the suffix occurs in a suffixed
   * name only at its end.
   */
  predicate SuffixSafe(v: Snapshot, s: string)
  {
    && s != ""
    && (forall a, b :: a in Names(v) && b in Names(v) && Strip1(a, s) == Strip1(b, s) ==> a == b)
    && (forall c :: c in Names(v) && EndsWith(c, s) ==> FirstOccFrom(c, s, 0) + |s| == |c|)
  }

  predicate Injective(f: string -> string, names: set<string>)
  {
    forall a, b :: a in names && b in names && f(a) == f(b) ==> a == b
  }

  function RenameMap<T>(m: map<string, T>, f: string -> string): (r: map<string, T>)
    requires Injective(f, m.Keys)
    ensures r.Keys == set c | c in m :: f(c)
    ensures forall c :: c in m ==> f(c) in r && r[f(c)] == m[c]
  {
    map c | c in m :: f(c) := m[c]
  }

  /** `df.rename(columns=...)` by a one-to-one renaming. */
  function Rename(v: Snapshot, f: string -> string): (r: Snapshot)
    requires v.Valid() && Injective(f, Names(v))
    ensures r.Valid() && r.nrows == v.nrows
    ensures Names(r) == set c | c in Names(v) :: f(c)
    ensures forall c :: c in v.num ==> f(c) in r.num && r.num[f(c)] == v.num[c]
    ensures forall c :: c in v.text ==> f(c) in r.text && r.text[f(c)] == v.text[c]
  {
    var r := Snapshot(RenameMap(v.num, f), RenameMap(v.text, f), RenameMap(v.flag, f), v.nrows);
    RenameValid(v, f);
    r
  }

  lemma RenameValid(v: Snapshot, f: string -> string)
    requires v.Valid() && Injective(f, Names(v))
    ensures var r := Snapshot(RenameMap(v.num, f), RenameMap(v.text, f), RenameMap(v.flag, f), v.nrows);
      r.Valid() && Names(r) == set c | c in Names(v) :: f(c)
  {
    RenameLengths(v.num, f, v.nrows);
    RenameLengths(v.text, f, v.nrows);
    RenameLengths(v.flag, f, v.nrows);
    RenameDisjoint(v.num, v.text, f, Names(v));
    RenameDisjoint(v.num, v.flag, f, Names(v));
    RenameDisjoint(v.text, v.flag, f, Names(v));
    ImageUnion(v.num.Keys, v.text.Keys, v.flag.Keys, f);
  }

  lemma RenameLengths<T>(m: map<string, seq<T>>, f: string -> string, n: nat)
    requires Injective(f, m.Keys) && forall c :: c in m ==> |m[c]| == n
    ensures forall k :: k in RenameMap(m, f) ==> |RenameMap(m, f)[k]| == n
  {
    var r := RenameMap(m, f);
    forall k | k in r ensures |r[k]| == n {
      var c :| c in m && f(c) == k;
    }
  }

  lemma RenameDisjoint<A, B>(m1: map<string, A>, m2: map<string, B>, f: string -> string, names: set<string>)
    requires m1.Keys !! m2.Keys && m1.Keys <= names && m2.Keys <= names && Injective(f, names)
    requires Injective(f, m1.Keys) && Injective(f, m2.Keys)
    ensures RenameMap(m1, f).Keys !! RenameMap(m2, f).Keys
  {
    forall k | k in RenameMap(m1, f).Keys ensures k !in RenameMap(m2, f).Keys {
      var a :| a in m1 && f(a) == k;
      forall b | b in m2 ensures f(b) != k {
        assert a != b;
      }
    }
  }

  lemma ImageUnion(a: set<string>, b: set<string>, c: set<string>, f: string -> string)
    ensures (set x | x in a :: f(x)) + (set x | x in b :: f(x)) + (set x | x in c :: f(x)) == set x | x in a + b + c :: f(x)
  {
  }

  function StripFn(s: string): string -> string
  {
    c => Strip1(c, s)
  }

  /** `remove`: the frame with the suffix taken off every column that has it. */
  function Strip(v: Snapshot, s: string): (r: Snapshot)
    requires v.Valid() && SuffixSafe(v, s)
    ensures r.Valid() && r.nrows == v.nrows
    ensures forall c :: c in Names(r) ==> !EndsWith(c, s)
    ensures forall c :: c in Names(v) ==> Strip1(c, s) in Names(r)
    ensures forall c :: c in v.num ==> Strip1(c, s) in r.num && r.num[Strip1(c, s)] == v.num[c]
  {
    var r := Rename(v, StripFn(s));
    forall c | c in Names(v) ensures Strip1(c, s) in Names(r) {
      assert StripFn(s)(c) == Strip1(c, s);
    }
    forall c | c in v.num ensures Strip1(c, s) in r.num && r.num[Strip1(c, s)] == v.num[c] {
      assert StripFn(s)(c) == Strip1(c, s);
    }
    forall c | c in Names(r) ensures !EndsWith(c, s) {
      var o :| o in Names(v) && StripFn(s)(o) == c;
      StrippedLacksSuffix(o, s);
    }
    r
  }

  /** The original name of each stripped column. */
  function Originals(v: Snapshot, s: string): (r: map<string, string>)
    requires SuffixSafe(v, s)
    ensures forall c :: c in Names(v) && EndsWith(c, s) ==> Strip1(c, s) in r && r[Strip1(c, s)] == c
    ensures forall x :: x in r ==> r[x] in Names(v) && EndsWith(r[x], s) && Strip1(r[x], s) == x
  {
    map c | c in Names(v) && EndsWith(c, s) :: Strip1(c, s) := c
  }

  /** The first rename on the way back: columns that were not there before get the suffix. */
  function AddFn(before: set<string>, s: string): string -> string
  {
    c => if c in before then c else c + s
  }

  /** The second: the stripped columns get their original names back. */
  function BackFn(orig: map<string, string>): string -> string
  {
    c => if c in orig then orig[c] else c
  }

  lemma AppendEnds(b: string, s: string)
    ensures EndsWith(b + s, s) && (b + s)[..|b|] == b
  {
    assert (b + s)[|b + s| - |s|..] == s;
  }

  /** Adding the suffix to the new columns only is one-to-one. */
  lemma AddInjective(before: set<string>, s: string, names: set<string>)
    requires forall c :: c in before ==> !EndsWith(c, s)
    ensures Injective(AddFn(before, s), names)
  {
    var add := AddFn(before, s);
    forall a, b | a in names && b in names ensures add(a) == add(b) ==> a == b {
      if a !in before {
        AppendEnds(a, s);
      }
      if b !in before {
        AppendEnds(b, s);
      }
    }
  }

  /** The original of a stripped name ends with the suffix, and is the stripped name with the suffix. */
  lemma OriginalFacts(v: Snapshot, s: string, x: string)
    requires v.Valid() && SuffixSafe(v, s) && x in Originals(v, s)
    ensures var o := Originals(v, s)[x];
      EndsWith(o, s) && x == o[..|o| - |s|]
  {
    var o := Originals(v, s)[x];
    assert o in Names(v) && EndsWith(o, s) && Strip1(o, s) == x;
    var k := FirstOccFrom(o, s, 0);
    assert k + |s| == |o|;
    assert x == o[..k];
  }

  /** A stripped name is a column of the stripped frame. */
  lemma OriginalStripped(v: Snapshot, s: string, x: string)
    requires v.Valid() && SuffixSafe(v, s) && x in Originals(v, s)
    ensures x in Names(Strip(v, s))
  {
    var o := Originals(v, s)[x];
    StrippedName(v, s, o);
  }

  lemma StrippedName(v: Snapshot, s: string, c: string)
    requires v.Valid() && SuffixSafe(v, s) && c in Names(v)
    ensures Strip1(c, s) in Names(Strip(v, s))
  {
  }

  /**
   * Restoring the original names is one-to-one on the frame that comes out
   * of the computation, given that it only added columns to the stripped one.
   */
  lemma BackInjective(v: Snapshot, s: string, out: Snapshot)
    requires v.Valid() && SuffixSafe(v, s) && out.Valid()
    requires Injective(AddFn(Names(Strip(v, s)), s), Names(out))
    ensures Injective(BackFn(Originals(v, s)), Names(Rename(out, AddFn(Names(Strip(v, s)), s))))
  {
    OriginalsPrefix(v, s);
    OriginalsInStripped(v, s);
    BackInjectiveOn(Names(Strip(v, s)), s, Originals(v, s), Names(out));
  }

  lemma OriginalsPrefix(v: Snapshot, s: string)
    requires v.Valid() && SuffixSafe(v, s)
    ensures forall x :: x in Originals(v, s) ==> EndsWith(Originals(v, s)[x], s) && x == Originals(v, s)[x][..|Originals(v, s)[x]| - |s|]
  {
    forall x | x in Originals(v, s) ensures EndsWith(Originals(v, s)[x], s) && x == Originals(v, s)[x][..|Originals(v, s)[x]| - |s|] {
      OriginalFacts(v, s, x);
    }
  }

  lemma OriginalsInStripped(v: Snapshot, s: string)
    requires v.Valid() && SuffixSafe(v, s)
    ensures forall x :: x in Originals(v, s) ==> x in Names(Strip(v, s))
  {
    forall x | x in Originals(v, s) ensures x in Names(Strip(v, s)) {
      OriginalStripped(v, s, x);
    }
  }

  lemma BackInjectiveOn(before: set<string>, s: string, orig: map<string, string>, names: set<string>)
    requires forall c :: c in before ==> !EndsWith(c, s)
    requires forall x :: x in orig ==> x in before && EndsWith(orig[x], s) && x == orig[x][..|orig[x]| - |s|]
    ensures Injective(BackFn(orig), set b | b in names :: AddFn(before, s)(b))
  {
    var add, back := AddFn(before, s), BackFn(orig);
    var image := set b | b in names :: add(b);
    forall x, y | x in image && y in image ensures back(x) == back(y) ==> x == y {
      if x in orig && y !in orig {
        var b :| b in names && add(b) == y;
        BackDistinct(before, s, orig[x], x, b);
      } else if x !in orig && y in orig {
        var b :| b in names && add(b) == x;
        BackDistinct(before, s, orig[y], y, b);
      }
    }
  }

  /** A restored original name differs from every column that is not restored. */
  lemma BackDistinct(before: set<string>, s: string, o: string, x: string, b: string)
    requires forall c :: c in before ==> !EndsWith(c, s)
    requires EndsWith(o, s) && x == o[..|o| - |s|] && x in before
    ensures o != AddFn(before, s)(b)
  {
    if b !in before {
      AppendEnds(b, s);
    }
  }

  /** `add` back: new columns get the suffix, then stripped ones their original names. */
  function Restore(v: Snapshot, s: string, out: Snapshot, added: set<string>): (r: Snapshot)
    requires v.Valid() && SuffixSafe(v, s) && out.Valid()
    requires Names(out) <= Names(Strip(v, s)) + added
    requires added !! Names(Strip(v, s))
    ensures r.Valid() && r.nrows == out.nrows
  {
    AddInjective(Names(Strip(v, s)), s, Names(out));
    BackInjective(v, s, out);
    Rename(Rename(out, AddFn(Names(Strip(v, s)), s)), BackFn(Originals(v, s)))
  }

  /** A column of the input comes back under its own name, holding what its stripped column held. */
  lemma RestoreKeeps(v: Snapshot, s: string, out: Snapshot, added: set<string>, c: string)
    requires v.Valid() && SuffixSafe(v, s) && out.Valid()
    requires Names(out) <= Names(Strip(v, s)) + added
    requires added !! Names(Strip(v, s))
    requires c in Names(v) && Strip1(c, s) in out.num
    ensures c in Restore(v, s, out, added).num && Restore(v, s, out, added).num[c] == out.num[Strip1(c, s)]
  {
    var before, orig := Names(Strip(v, s)), Originals(v, s);
    var x := Strip1(c, s);
    StrippedName(v, s, c);
    AddInjective(before, s, Names(out));
    BackInjective(v, s, out);
    var out1 := Rename(out, AddFn(before, s));
    assert AddFn(before, s)(x) == x;
    assert x in out1.num && out1.num[x] == out.num[x];
    BackName(v, s, c);
  }

  /** Restoring the names takes the stripped name of a column back to the column. */
  lemma BackName(v: Snapshot, s: string, c: string)
    requires v.Valid() && SuffixSafe(v, s) && c in Names(v)
    ensures BackFn(Originals(v, s))(Strip1(c, s)) == c
  {
    var orig := Originals(v, s);
    if !EndsWith(c, s) {
      assert Strip1(c, s) == c;
      forall o | o in Names(v) && EndsWith(o, s) ensures Strip1(o, s) != c {
        assert o != c;
      }
    }
  }

  /** A column the computation added comes back with the suffix appended. */
  lemma RestoreAdds(v: Snapshot, s: string, out: Snapshot, added: set<string>, a: string)
    requires v.Valid() && SuffixSafe(v, s) && out.Valid()
    requires Names(out) <= Names(Strip(v, s)) + added
    requires added !! Names(Strip(v, s))
    requires a in added && a in out.num
    ensures a + s in Restore(v, s, out, added).num && Restore(v, s, out, added).num[a + s] == out.num[a]
  {
    var before, orig := Names(Strip(v, s)), Originals(v, s);
    AddInjective(before, s, Names(out));
    BackInjective(v, s, out);
    var out1 := Rename(out, AddFn(before, s));
    assert AddFn(before, s)(a) == a + s;
    assert a + s in out1.num && out1.num[a + s] == out.num[a];
    AppendEnds(a, s);
    OriginalsInStripped(v, s);
    assert a + s !in orig;
  }

  /** The frame the computation runs on: the input, with the suffix stripped when one is given. */
  function Worked(v: Snapshot, s: Option<string>): (w: Snapshot)
    requires v.Valid()
    requires s.Some? && s.value != "" ==> SuffixSafe(v, s.value)
    ensures w.Valid() && w.nrows == v.nrows
  {
    if s.None? || s.value == "" then v else Strip(v, s.value)
  }

  /** What `_get_metallicity_no_errs` can return on w: a frame as long as w, with at most the columns `cols` added. */
  predicate Outcome(w: Snapshot, cols: set<string>, out: Result<Snapshot>)
  {
    out.Success? ==> out.value.Valid() && out.value.nrows == w.nrows && Names(out.value) <= Names(w) + cols
  }

  /** The suffix put back on the outcome of the computation on the stripped frame. */
  function Resuffixed(v: Snapshot, s: string, out: Result<Snapshot>, cols: set<string>): (r: Result<Snapshot>)
    requires v.Valid() && SuffixSafe(v, s) && Outcome(Strip(v, s), cols, out)
    ensures r.Success? <==> out.Success?
    ensures r.Success? ==> r.value.Valid() && r.value.nrows == v.nrows
  {
    match out
    case Failure(e) => Failure(e)
    case Success(o) => Success(Restore(v, s, o, cols - Names(Strip(v, s))))
  }

  /**
   * `calculate_metallicity(..., compute_errors=False, s=s)` once
   * `_get_metallicity_no_errs` has returned `out` on the frame the
   * computation runs on. It checks the input columns under the corrected
   * SuffixText, not the `"None"` suffix of SuffixTextAsWritten.
   */
  function CalculateWith(v: Snapshot, met: string, logU: Option<real>, computeLogU: bool, ion: Option<string>,
                         s: Option<string>, out: Result<Snapshot>): (r: Result<Snapshot>)
    requires v.Valid()
    requires s.Some? && s.value != "" ==> SuffixSafe(v, s.value)
    requires Outcome(Worked(v, s), ResultColumns(met, ModeOf(logU, computeLogU, ion)), out)
    ensures r.Success? ==> r.value.Valid() && r.value.nrows == v.nrows
  {
    var checks := InputChecks(v, met, logU, computeLogU, ion, SuffixText(s));
    if checks.Fail? then Failure(checks.error)
    else if s == Some("") then Failure(ValueError("empty separator"))    // every column ends with "", and "".split fails
    else if s.None? then out
    else Resuffixed(v, s.value, out, ResultColumns(met, ModeOf(logU, computeLogU, ion)))
  }

  /** `calculate_metallicity(..., compute_errors=False, s=s)` */
  function CalculateSpec(v: Snapshot, met: string, logU: Option<real>, computeLogU: bool, ion: Option<string>,
                         s: Option<string>, log10: real -> real): (r: Result<Snapshot>)
    requires v.Valid()
    requires s.Some? && s.value != "" ==> SuffixSafe(v, s.value)
    ensures r.Success? ==> r.value.Valid() && r.value.nrows == v.nrows
  {
    CalculateWith(v, met, logU, computeLogU, ion, s, NoErrsSpec(met, Worked(v, s), logU, computeLogU, ion, log10))
  }

  /**
   * The suffix round trip, for any outcome of the computation on the
   * stripped frame that carried every column but `cols` along in the row
   * order `perm`: a numeric column of the input whose stripped name is not
   * in `cols` comes back under its own name, its rows in that order.
   */
  lemma ResuffixedRoundTrip(v: Snapshot, s: string, out: Result<Snapshot>, cols: set<string>, perm: seq<nat>, c: string)
    requires v.Valid() && SuffixSafe(v, s) && Outcome(Strip(v, s), cols, out)
    requires forall k :: 0 <= k < |perm| ==> perm[k] < v.nrows
    requires out.Success? && Carried(Strip(v, s), out.value, cols, perm)
    requires c in v.num && Strip1(c, s) !in cols
    ensures c in Resuffixed(v, s, out, cols).value.num
    ensures Resuffixed(v, s, out, cols).value.num[c] == Pick(v.num[c], perm)
  {
    var w := Strip(v, s);
    var x := Strip1(c, s);
    assert x in w.num && w.num[x] == v.num[c];
    assert x in out.value.num && out.value.num[x] == Pick(w.num[x], perm);
    RestoreKeeps(v, s, out.value, cols - Names(w), c);
  }

  /**
   * A column of `cols` the computation wrote that the stripped frame lacked
   * comes out with the suffix appended, holding what the computation put in it.
   */
  lemma ResuffixedAdds(v: Snapshot, s: string, out: Result<Snapshot>, cols: set<string>, a: string)
    requires v.Valid() && SuffixSafe(v, s) && Outcome(Strip(v, s), cols, out)
    requires out.Success? && a in cols && a in out.value.num && a !in Names(Strip(v, s))
    ensures a + s in Resuffixed(v, s, out, cols).value.num
    ensures Resuffixed(v, s, out, cols).value.num[a + s] == out.value.num[a]
  {
    RestoreAdds(v, s, out.value, cols - Names(Strip(v, s)), a);
  }

  /**
   * With a non-empty suffix, `calculate_metallicity` succeeds only when the
   * computation on the stripped frame does, and then returns that outcome
   * with the names restored.
   */
  lemma SuffixedCalculate(v: Snapshot, met: string, logU: Option<real>, computeLogU: bool, ion: Option<string>,
                          s: string, out: Result<Snapshot>)
    requires v.Valid() && s != "" && SuffixSafe(v, s)
    requires Outcome(Strip(v, s), ResultColumns(met, ModeOf(logU, computeLogU, ion)), out)
    requires CalculateWith(v, met, logU, computeLogU, ion, Some(s), out).Success?
    ensures out.Success?
    ensures CalculateWith(v, met, logU, computeLogU, ion, Some(s), out)
         == Resuffixed(v, s, out, ResultColumns(met, ModeOf(logU, computeLogU, ion)))
  {
  }
}
