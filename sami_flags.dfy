/**
 * The data-quality cut on the SAMI flag table and the "Good?" column it
 * produces (spaxelsleuth/io/sami.py and loaddata/sami.py, metadata stage).
 *
 * The flag table rows are named by their position (the frame read from CSV
 * carries a RangeIndex). The cut keeps the "best" observations without
 * warnings; when a galaxy still has several, every one after the first is
 * dropped. One known duplicate galaxy is then removed from the list of good
 * IDs, and a metadata row is "Good?" when its catid is in that list.
 */
module SamiFlags {
  import opened Outcomes
  import opened Carve

  /** One row of the flag table: the catid, `isbest` and the warning counts the cut reads. */
  datatype FlagRow = FlagRow(catid: int, isbest: bool, warnstar: int, warnmult: int, warnfcal: int,
                             warnfcbr: int, warnskyb: int, warnskyr: int, warnre: int)

  /** The combined `cond`: best observation, no star, fewer than two overlapping objects, no other warning. */
  predicate PassesDQ(f: FlagRow)
  {
    && f.isbest
    && f.warnstar == 0
    && f.warnmult < 2
    && f.warnfcal == 0
    && f.warnfcbr == 0
    && f.warnskyb == 0
    && f.warnskyr == 0
    && f.warnre == 0
  }

  /** Row l of the flag table passes the cut. */
  predicate Best(rows: seq<FlagRow>, l: nat)
  {
    l < |rows| && PassesDQ(rows[l])
  }

  /** No earlier row passing the cut belongs to the same galaxy. */
  predicate IsFirst(rows: seq<FlagRow>, l: nat)
    requires l < |rows|
  {
    forall j :: 0 <= j < l && Best(rows, j) ==> rows[j].catid != rows[l].catid
  }

  /** What survives once the galaxies `gals` have been de-duplicated: passing rows, and only the first for those galaxies. */
  predicate Kept(rows: seq<FlagRow>, gals: seq<int>, l: nat)
  {
    Best(rows, l) && (rows[l].catid in gals ==> IsFirst(rows, l))
  }

  function BestAt(rows: seq<FlagRow>): nat -> bool
  {
    (l: nat) => Best(rows, l)
  }

  function FirstAt(rows: seq<FlagRow>): nat -> bool
  {
    (l: nat) => Best(rows, l) && IsFirst(rows, l)
  }

  function KeptBy(rows: seq<FlagRow>, gals: seq<int>): nat -> bool
  {
    (l: nat) => Kept(rows, gals, l)
  }

  /** `df_flags_cut.catid == gal` */
  function HasCatid(rows: seq<FlagRow>, gal: int): nat -> bool
  {
    (l: nat) => l < |rows| && rows[l].catid == gal
  }

  function KeptWith(rows: seq<FlagRow>, gals: seq<int>, gal: int): nat -> bool
  {
    (l: nat) => Kept(rows, gals, l) && l < |rows| && rows[l].catid == gal
  }

  /** `df.drop(labels)` as a row condition. */
  function NotIn(labels: seq<nat>): nat -> bool
  {
    (l: nat) => l !in labels
  }

  /** The specification of the cut: the first passing observation of every galaxy, in table order. */
  function FirstBest(rows: seq<FlagRow>): (r: seq<nat>)
    ensures Labels(rows, r)
  {
    RowFilter(|rows|, FirstAt(rows));
    Filter(Range(|rows|), FirstAt(rows))
  }

  predicate Labels(rows: seq<FlagRow>, ls: seq<nat>)
  {
    forall k :: 0 <= k < |ls| ==> ls[k] < |rows|
  }

  /** `df_flags_cut["catid"]` for the rows `ls`. */
  function Catids(rows: seq<FlagRow>, ls: seq<nat>): (r: seq<int>)
    requires Labels(rows, ls)
    ensures |r| == |ls| && forall k :: 0 <= k < |ls| ==> r[k] == rows[ls[k]].catid
  {
    seq(|ls|, k requires 0 <= k < |ls| => rows[ls[k]].catid)
  }

  /** `len(xs.unique()) == len(xs)` */
  predicate Distinct(xs: seq<int>)
  {
    forall i, j :: 0 <= i < j < |xs| ==> xs[i] != xs[j]
  }

  /** The labels after the first: `index[...][1:]`, empty when there is at most one. */
  function Later(same: seq<nat>): seq<nat>
  {
    if |same| > 1 then same[1..] else []
  }

  lemma LeastFirst(s: seq<nat>)
    requires Increasing(s) && |s| > 0
    ensures forall x :: x in s ==> s[0] <= x
  {
  }

  /** A row after the first of its galaxy is not that galaxy's first passing row. */
  lemma LaterNotFirst(rows: seq<FlagRow>, gal: int, same: seq<nat>, l: nat)
    requires Increasing(same) && l < |rows| && l in Later(same)
    requires forall x: nat :: x in same ==> Best(rows, x) && rows[x].catid == gal
    requires rows[l].catid == gal
    ensures !IsFirst(rows, l)
  {
    var t :| 0 <= t < |same[1..]| && same[1..][t] == l;
    assert same[t + 1] == l && same[0] in same && same[0] < l;
  }

  /** A row survives one more de-duplication exactly when it survived so far and is not among the rows dropped. */
  lemma DedupPoint(rows: seq<FlagRow>, gals: seq<int>, gal: int, same: seq<nat>, l: nat)
    requires Increasing(same) && l < |rows|
    requires forall x: nat :: x in same <==> x < |rows| && Kept(rows, gals, x) && rows[x].catid == gal
    ensures Kept(rows, gals + [gal], l) == (Kept(rows, gals, l) && l !in Later(same))
  {
    assert rows[l].catid in gals + [gal] <==> rows[l].catid in gals || rows[l].catid == gal;
    if rows[l].catid != gal {
      assert l !in Later(same) by {
        if |same| > 1 {
          assert l !in same;
        }
      }
    } else if gal in gals {
      if l in Later(same) {
        LaterNotFirst(rows, gal, same, l);
      }
    } else if Best(rows, l) {
      assert l in same;
      var t :| 0 <= t < |same| && same[t] == l;
      if t == 0 {
        LeastFirst(same);
        forall j: nat | j < l && Best(rows, j)
          ensures rows[j].catid != rows[l].catid
        {
          assert j !in same;
        }
        assert l !in Later(same);
      } else {
        assert l in Later(same) by { assert same[1..][t - 1] == l; }
        LaterNotFirst(rows, gal, same, l);
      }
    }
  }

  /**
   * The loop body for galaxy `gal` takes the rows surviving the galaxies
   * handled so far to those surviving one more.
   */
  lemma {:induction false} DedupStep(rows: seq<FlagRow>, gals: seq<int>, gal: int)
    ensures var cut := Filter(Range(|rows|), KeptBy(rows, gals));
            var same := Filter(cut, HasCatid(rows, gal));
            (if |same| > 1 then Filter(cut, NotIn(same[1..])) else cut)
              == Filter(Range(|rows|), KeptBy(rows, gals + [gal]))
  {
    var n := |rows|;
    var cut := Filter(Range(n), KeptBy(rows, gals));
    var same := Filter(cut, HasCatid(rows, gal));
    DedupRows(rows, gals, gal);
    if |same| > 1 {
      FilterFilter(Range(n), KeptBy(rows, gals), NotIn(same[1..]), KeptBy(rows, gals + [gal]));
    } else {
      FilterExt(Range(n), KeptBy(rows, gals), KeptBy(rows, gals + [gal]));
    }
  }

  /** Row by row: one more galaxy keeps what survived so far less that galaxy's later rows. */
  lemma DedupRows(rows: seq<FlagRow>, gals: seq<int>, gal: int)
    ensures var same := Filter(Filter(Range(|rows|), KeptBy(rows, gals)), HasCatid(rows, gal));
      forall l :: l in Range(|rows|) ==> KeptBy(rows, gals + [gal])(l) == (KeptBy(rows, gals)(l) && NotIn(Later(same))(l))
  {
    var n := |rows|;
    var cut := Filter(Range(n), KeptBy(rows, gals));
    var same := Filter(cut, HasCatid(rows, gal));
    FilterFilter(Range(n), KeptBy(rows, gals), HasCatid(rows, gal), KeptWith(rows, gals, gal));
    RowFilter(n, KeptWith(rows, gals, gal));
    RangeMembers(n);
    forall l | l in Range(n)
      ensures KeptBy(rows, gals + [gal])(l) == (KeptBy(rows, gals)(l) && NotIn(Later(same))(l))
    {
      DedupPoint(rows, gals, gal, same, l);
    }
  }

  // ---- The cut ----

  /** Once every passing row's galaxy has been handled, the rows left are the first passing row of each galaxy. */
  lemma {:induction false} AllHandled(rows: seq<FlagRow>, gals: seq<int>)
    requires forall l :: 0 <= l < |rows| && Best(rows, l) ==> rows[l].catid in gals
    ensures Filter(Range(|rows|), KeptBy(rows, gals)) == FirstBest(rows)
  {
    var n := |rows|;
    RangeMembers(n);
    forall l | l in Range(n)
      ensures KeptBy(rows, gals)(l) == FirstAt(rows)(l)
    {
    }
    FilterExt(Range(n), KeptBy(rows, gals), FirstAt(rows));
  }

  /**
   * `df_flags_cut = df_flags[cond]`, then for every catid of that cut (the
   * series is read once, before the loop starts): when the galaxy has more
   * than one row left, drop all of them but the first.
   */
  method KeepFirstBest(rows: seq<FlagRow>) returns (cut: seq<nat>)
    ensures cut == FirstBest(rows)
  {
    var n := |rows|;
    var cut0 := Filter(Range(n), BestAt(rows));
    RowFilter(n, BestAt(rows));
    FilterExt(Range(n), BestAt(rows), KeptBy(rows, []));
    ghost var ids := Catids(rows, cut0);
    cut := cut0;
    ghost var gals: seq<int> := [];
    for k := 0 to |cut0|
      invariant cut == Filter(Range(n), KeptBy(rows, gals))
      invariant gals == ids[..k]
    {
      var gal := rows[cut0[k]].catid;
      var same := Filter(cut, HasCatid(rows, gal));
      DedupStep(rows, gals, gal);
      if |same| > 1 {
        var dropIdxs := same[1..];
        cut := Filter(cut, NotIn(dropIdxs));
      }
      assert ids[..k + 1] == ids[..k] + [gal];
      gals := gals + [gal];
    }
    assert gals == ids;
    forall l | 0 <= l < n && Best(rows, l)
      ensures rows[l].catid in gals
    {
      assert l in cut0;
      var j :| 0 <= j < |cut0| && cut0[j] == l;
      assert ids[j] == rows[l].catid;
    }
    AllHandled(rows, gals);
  }

  // ---- What the cut guarantees ----

  /** The galaxy's first passing row at or after `from`, given that row l passes. */
  function FirstOf(rows: seq<FlagRow>, l: nat, from: nat): (r: nat)
    requires Best(rows, l) && from <= l
    requires forall j :: 0 <= j < from && Best(rows, j) ==> rows[j].catid != rows[l].catid
    ensures r <= l && Best(rows, r) && rows[r].catid == rows[l].catid && IsFirst(rows, r)
    decreases l - from
  {
    if Best(rows, from) && rows[from].catid == rows[l].catid then from
    else FirstOf(rows, l, from + 1)
  }

  /**
   * The cut keeps one row per galaxy (so the uniqueness check after the loop
   * always holds), every galaxy with a passing row keeps one, and the row it
   * keeps is its first passing observation.
   */
  lemma FirstBestMeaning(rows: seq<FlagRow>)
    ensures Distinct(Catids(rows, FirstBest(rows)))
    ensures forall k :: 0 <= k < |FirstBest(rows)| ==> Best(rows, FirstBest(rows)[k]) && IsFirst(rows, FirstBest(rows)[k])
    ensures forall l: nat :: Best(rows, l) ==> rows[l].catid in Catids(rows, FirstBest(rows))
  {
    var fb := FirstBest(rows);
    RowFilter(|rows|, FirstAt(rows));
    forall k | 0 <= k < |fb|
      ensures Best(rows, fb[k]) && IsFirst(rows, fb[k])
    {
      assert fb[k] in fb;
    }
    forall l: nat | Best(rows, l)
      ensures rows[l].catid in Catids(rows, fb)
    {
      var f := FirstOf(rows, l, 0);
      assert f in fb;
      var k :| 0 <= k < |fb| && fb[k] == f;
      assert Catids(rows, fb)[k] == rows[l].catid;
    }
  }

  // ---- The "Good?" column ----

  /** The galaxy listed twice in the SAMI catalogues, removed from the good IDs. */
  const Duplicate: int := 9008500001

  /** `xs.pop(xs.index(x))`: removes the first occurrence of x; `list.index` raises ValueError when x is absent. */
  function PopValue(xs: seq<int>, x: int): (r: Result<seq<int>>)
    ensures r.Success? <==> x in xs
    ensures r.Failure? ==> r.error.ValueError?
    ensures r.Success? ==> |r.value| == |xs| - 1 && forall y :: y in r.value ==> y in xs
  {
    if xs == [] then Failure(ValueError("9008500001 is not in list"))
    else if xs[0] == x then Success(xs[1..])
    else match PopValue(xs[1..], x)
      case Success(rest) => Success([xs[0]] + rest)
      case Failure(e) => Failure(e)
  }

  /** Without repeats, popping x leaves exactly the other values. */
  lemma {:induction false} PopDistinct(xs: seq<int>, x: int)
    requires Distinct(xs) && x in xs
    ensures forall y :: y in PopValue(xs, x).value <==> y in xs && y != x
  {
    if xs[0] == x {
      forall y | y in xs[1..]
        ensures y != x
      {
        var k :| 0 <= k < |xs[1..]| && xs[1..][k] == y;
        assert xs[k + 1] == y;
      }
    } else {
      assert xs == [xs[0]] + xs[1..];
      PopDistinct(xs[1..], x);
      assert xs[0] != x;
    }
  }

  /**
   * The metadata stage from the cut to "Good?": the cut, the uniqueness
   * check, the list of good IDs without the duplicate galaxy and `isin`.
   */
  function GoodSpec(rows: seq<FlagRow>, metaCatids: seq<int>): Result<seq<bool>>
  {
    var cut := FirstBest(rows);
    var ids := Catids(rows, cut);
    if !Distinct(ids) then Failure(AssertionError("duplicate catid"))
    else match PopValue(ids, Duplicate)
      case Failure(e) => Failure(e)
      case Success(good) => Success(seq(|metaCatids|, i requires 0 <= i < |metaCatids| => metaCatids[i] in good))
  }

  /** The galaxy has an observation passing the cut. */
  ghost predicate Observed(rows: seq<FlagRow>, c: int)
  {
    exists l: nat :: Best(rows, l) && rows[l].catid == c
  }

  /**
   * The stage raises only when the duplicate galaxy has no passing
   * observation, and otherwise marks a galaxy good exactly when it has a
   * passing observation and is not the duplicate.
   */
  lemma GoodMeaning(rows: seq<FlagRow>, metaCatids: seq<int>)
    ensures GoodSpec(rows, metaCatids).Success? <==> Observed(rows, Duplicate)
    ensures GoodSpec(rows, metaCatids).Failure? ==> GoodSpec(rows, metaCatids).error.ValueError?
    ensures GoodSpec(rows, metaCatids).Success? ==>
      |GoodSpec(rows, metaCatids).value| == |metaCatids| &&
      forall i :: 0 <= i < |metaCatids| ==>
        (GoodSpec(rows, metaCatids).value[i] <==> Observed(rows, metaCatids[i]) && metaCatids[i] != Duplicate)
  {
    var fb := FirstBest(rows);
    FirstBestMeaning(rows);
    var ids := Catids(rows, fb);
    forall c | c in ids
      ensures Observed(rows, c)
    {
      var k :| 0 <= k < |ids| && ids[k] == c;
      assert Best(rows, fb[k]);
    }
    forall c | Observed(rows, c)
      ensures c in ids
    {
      var l: nat :| Best(rows, l) && rows[l].catid == c;
    }
    if Duplicate in ids {
      PopDistinct(ids, Duplicate);
    }
  }

  /** `df_metadata["Good?"]` computed step by step. */
  method GoodColumn(rows: seq<FlagRow>, metaCatids: seq<int>) returns (r: Result<seq<bool>>)
    ensures r == GoodSpec(rows, metaCatids)
  {
    var cut := KeepFirstBest(rows);
    FirstBestMeaning(rows);
    var ids := Catids(rows, cut);
    if !Distinct(ids) {
      return Failure(AssertionError("duplicate catid"));
    }
    var popped := PopValue(ids, Duplicate);
    if popped.Failure? {
      return Failure(popped.error);
    }
    var good := new bool[|metaCatids|];
    for i := 0 to |metaCatids|
      invariant forall j :: 0 <= j < i ==> good[j] == (metaCatids[j] in popped.value)
    {
      good[i] := metaCatids[i] in popped.value;
    }
    assert good[..] == seq(|metaCatids|, i requires 0 <= i < |metaCatids| => metaCatids[i] in popped.value);
    r := Success(good[..]);
  }
}
