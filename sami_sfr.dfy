/**
 * The SFR columns of the spaxel table in `make_sami_df` (loaddata/sami.py):
 * the always-zero components 2 and 3 of the recommended-component fits are
 * dropped and component 1 is relabelled as the total; later, component 1 is
 * recomputed as the total's share of the HALPHA flux, and the SFR columns
 * are blanked out where the inclination is undefined or the SFR is zero.
 */
module SamiSfr {
  import opened Numeric
  import opened Outcomes
  import opened Table
  import opened SamiSpaxels

  const Sfr := "SFR"
  const SfrErr := "SFR error"
  const Sfrd := "SFR surface density"
  const SfrdErr := "SFR surface density error"

  /** The four quantities, in the order the source lists them. */
  const SfrQuantities := [Sfr, SfrErr, Sfrd, SfrdErr]

  /** The four SFR columns of component k. */
  function SfrOf(k: nat): (r: seq<string>)
    requires 1 <= k <= 3
    ensures |r| == 4 && forall q :: 0 <= q < 4 ==> r[q] == Comp(SfrQuantities[q], k)
  {
    [Comp(Sfr, k), Comp(SfrErr, k), Comp(Sfrd, k), Comp(SfrdErr, k)]
  }

  /** The first of `names` that is not a column of any kind: the label `df.drop(columns=names)` fails on. */
  function FirstAbsent(v: Snapshot, names: seq<string>): (r: Option<string>)
    ensures r.None? <==> forall j :: 0 <= j < |names| ==> v.Has(names[j])
    ensures r.Some? ==> r.value in names && !v.Has(r.value)
  {
    if names == [] then None
    else if !v.Has(names[0]) then Some(names[0])
    else FirstAbsent(v, names[1..])
  }

  /** `df.drop(columns=names)`: a KeyError when one of them is not a column, otherwise the frame without them. */
  function DropSpec(v: Snapshot, names: seq<string>): (r: (Outcome, Snapshot))
    requires v.Valid()
    ensures r.1.Valid() && r.1.nrows == v.nrows
    ensures r.0.Fail? <==> exists j :: 0 <= j < |names| && !v.Has(names[j])
    ensures r.0.Fail? ==> r.0.error.KeyError? && r.1 == v
    ensures r.0.Pass? ==> forall c :: r.1.Has(c) <==> v.Has(c) && c !in names
  {
    match FirstAbsent(v, names)
    case Some(c) => (Fail(KeyError(c)), v)
    case None => (Pass, v.Without(set c | c in names))
  }

  /** The rename of the four component-1 SFR columns to the totals. */
  function Relabelled(v: Snapshot): (r: Snapshot)
    requires v.Valid()
    ensures r.Valid() && r.nrows == v.nrows
  {
    v.Renamed(Comp(Sfr, 1), Total(Sfr))
     .Renamed(Comp(SfrErr, 1), Total(SfrErr))
     .Renamed(Comp(Sfrd, 1), Total(Sfrd))
     .Renamed(Comp(SfrdErr, 1), Total(SfrdErr))
  }

  /**
   * The step's effect: for the recommended-component fits, the SFR columns
   * of components 2 and then 3 are dropped (a KeyError if one is missing);
   * then component 1 becomes the total.
   */
  function SfrSpec(v: Snapshot, nc: Components): (r: (Outcome, Snapshot))
    requires v.Valid()
  {
    if nc.Recom? then
      var r2 := DropSpec(v, SfrOf(2));
      if r2.0.Fail? then r2
      else
        var r3 := DropSpec(r2.1, SfrOf(3));
        if r3.0.Fail? then r3 else (Pass, Relabelled(r3.1))
    else (Pass, Relabelled(v))
  }

  /** The totals the four component-1 columns are renamed to. */
  const SfrTotals := [Total(Sfr), Total(SfrErr), Total(Sfrd), Total(SfrdErr)]

  /** The eight names the rename involves are distinct. */
  lemma SfrLabelsDistinct()
    ensures forall p, q :: 0 <= p < 4 && 0 <= q < 4 ==> SfrOf(1)[p] != SfrTotals[q]
    ensures forall p, q :: 0 <= p < 4 && 0 <= q < 4 && p != q ==> SfrOf(1)[p] != SfrOf(1)[q] && SfrTotals[p] != SfrTotals[q]
  {
    var a, t := SfrOf(1), SfrTotals;
    assert |a[0]| == 17 && |a[1]| == 23 && |a[2]| == 33 && |a[3]| == 39;
    assert |t[0]| == 11 && |t[1]| == 17 && |t[2]| == 27 && |t[3]| == 33;
    assert a[0][4] == '(' && t[1][4] == 'e';
    assert a[2][20] == '(' && t[3][20] == 'e';
  }

  /**
   * What the first k renames have done to v: each of the first k
   * component-1 columns is gone, a numeric one now stands under its total,
   * and every other column is as it was.
   */
  ghost predicate Moved(v: Snapshot, u: Snapshot, k: nat)
    requires k <= 4
  {
    MovedBy(v, u, SfrOf(1)[..k], SfrTotals[..k])
  }

  ghost predicate MovedBy(v: Snapshot, u: Snapshot, a: seq<string>, t: seq<string>)
    requires |a| == |t|
  {
    var k := |a|;
    && u.Valid() && u.nrows == v.nrows
    && (forall q :: 0 <= q < k ==> !u.Has(a[q]))
    && (forall q :: 0 <= q < k && a[q] in v.num ==> t[q] in u.num && u.num[t[q]] == v.num[a[q]])
    && (forall q :: 0 <= q < k && !v.Has(a[q]) ==> (u.Has(t[q]) <==> v.Has(t[q])))
    && (forall q :: 0 <= q < k && !v.Has(a[q]) && t[q] in v.num ==> t[q] in u.num && u.num[t[q]] == v.num[t[q]])
    && (forall c :: c !in a && c !in t ==> (u.Has(c) <==> v.Has(c)) && (c in u.num <==> c in v.num))
    && (forall c :: c !in a && c !in t && c in v.num ==> u.num[c] == v.num[c])
  }

  /** A further rename of a fresh column to a fresh name keeps `MovedBy` true. */
  lemma MovedByStep(v: Snapshot, u: Snapshot, a: seq<string>, t: seq<string>, src: string, dst: string)
    requires |a| == |t| && MovedBy(v, u, a, t)
    requires src != dst && src !in a && src !in t && dst !in a && dst !in t
    ensures MovedBy(v, u.Renamed(src, dst), a + [src], t + [dst])
  {
    var w, a', t' := u.Renamed(src, dst), a + [src], t + [dst];
    var k := |a|;
    forall q | 0 <= q < k + 1
      ensures !w.Has(a'[q])
    {
      if q < k {
        assert a'[q] == a[q] && a[q] != src && a[q] != dst;
      }
    }
    forall q | 0 <= q < k + 1 && a'[q] in v.num
      ensures t'[q] in w.num && w.num[t'[q]] == v.num[a'[q]]
    {
      if q < k {
        assert a'[q] == a[q] && t'[q] == t[q] && t[q] != src && t[q] != dst;
      }
    }
    forall q | 0 <= q < k + 1 && !v.Has(a'[q])
      ensures (w.Has(t'[q]) <==> v.Has(t'[q])) && (t'[q] in v.num ==> t'[q] in w.num && w.num[t'[q]] == v.num[t'[q]])
    {
      if q < k {
        assert a'[q] == a[q] && t'[q] == t[q] && t[q] != src && t[q] != dst;
      }
    }
    forall c | c !in a' && c !in t'
      ensures (w.Has(c) <==> v.Has(c)) && (c in w.num <==> c in v.num) && (c in v.num ==> w.num[c] == v.num[c])
    {
      assert c !in a && c !in t && c != src && c != dst;
    }
  }

  /** One more of the four renames keeps `Moved` true. */
  lemma MovedStep(v: Snapshot, u: Snapshot, k: nat)
    requires k < 4 && Moved(v, u, k)
    ensures Moved(v, u.Renamed(SfrOf(1)[k], SfrTotals[k]), k + 1)
  {
    SfrLabelsDistinct();
    var a, t := SfrOf(1), SfrTotals;
    assert a[..k + 1] == a[..k] + [a[k]] && t[..k + 1] == t[..k] + [t[k]];
    assert a[k] !in a[..k] && a[k] !in t[..k] && t[k] !in a[..k] && t[k] !in t[..k];
    MovedByStep(v, u, a[..k], t[..k], a[k], t[k]);
  }

  /** `Relabelled` does all four renames. */
  lemma RelabelledMoved(v: Snapshot)
    requires v.Valid()
    ensures Moved(v, Relabelled(v), 4)
  {
    var a, t := SfrOf(1), SfrTotals;
    var v1 := v.Renamed(a[0], t[0]);
    var v2 := v1.Renamed(a[1], t[1]);
    var v3 := v2.Renamed(a[2], t[2]);
    assert Moved(v, v, 0);
    MovedStep(v, v, 0);
    MovedStep(v, v1, 1);
    MovedStep(v, v2, 2);
    MovedStep(v, v3, 3);
  }

  /** Drop components 2 and 3 (recommended-component fits only), then rename component 1 to the total. */
  method SfrColumns(df: Frame, nc: Components) returns (status: Outcome)
    requires df.Valid()
    modifies df
    ensures (status, df.Snap()) == SfrSpec(old(df.Snap()), nc)
  {
    if nc.Recom? {
      var missing := FirstAbsent(df.Snap(), SfrOf(2));
      if missing.Some? {
        return Fail(KeyError(missing.value));
      }
      df.Drop(set c | c in SfrOf(2));
      missing := FirstAbsent(df.Snap(), SfrOf(3));
      if missing.Some? {
        return Fail(KeyError(missing.value));
      }
      df.Drop(set c | c in SfrOf(3));
    }
    df.Rename(Comp(Sfr, 1), Total(Sfr));
    df.Rename(Comp(SfrErr, 1), Total(SfrErr));
    df.Rename(Comp(Sfrd, 1), Total(Sfrd));
    df.Rename(Comp(SfrdErr, 1), Total(SfrdErr));
    status := Pass;
  }

  /** A component column's name tells its component. */
  lemma ComponentOf(q: string, p: string, j: nat, l: nat)
    requires 1 <= j <= 3 && 1 <= l <= 3
    ensures Comp(q, j) == Comp(p, l) ==> j == l
  {
    if |q| == |p| {
      assert Comp(q, j)[|q| + 12] == Digit(j)[0];
      assert Comp(p, l)[|p| + 12] == Digit(l)[0];
    }
  }

  /** The names this step may touch. */
  predicate SfrLabel(c: string)
  {
    c in SfrOf(1) || c in SfrOf(2) || c in SfrOf(3) || c in SfrTotals
  }

  /** The step fails, with a KeyError, exactly when the fits are the recommended-component ones and an SFR column of component 2 or 3 is missing. */
  lemma SfrStepFails(v: Snapshot, nc: Components)
    requires v.Valid()
    ensures var o := SfrSpec(v, nc).0;
      && (o.Fail? <==> nc.Recom? && exists q :: 0 <= q < 4 && (!v.Has(SfrOf(2)[q]) || !v.Has(SfrOf(3)[q])))
      && (o.Fail? ==> o.error.KeyError?)
  {
    if nc.Recom? && DropSpec(v, SfrOf(2)).0.Pass? {
      var v2 := DropSpec(v, SfrOf(2)).1;
      forall q | 0 <= q < 4
        ensures v2.Has(SfrOf(3)[q]) <==> v.Has(SfrOf(3)[q])
      {
        forall p | 0 <= p < 4
          ensures SfrOf(3)[q] != SfrOf(2)[p]
        {
          ComponentOf(SfrQuantities[q], SfrQuantities[p], 3, 2);
        }
      }
    }
  }

  /** The SFR columns of components 2 and 3 are none of the names the rename involves. */
  lemma DroppedApart(k: nat, q: nat, p: nat)
    requires 2 <= k <= 3 && q < 4 && p < 4
    ensures SfrOf(k)[q] != SfrOf(1)[p] && SfrOf(k)[q] != SfrTotals[p]
  {
    ComponentOf(SfrQuantities[q], SfrQuantities[p], k, 1);
    var c, t := SfrOf(k)[q], SfrTotals[p];
    if |c| == |t| {
      if q == 0 {
        assert c[4] == '(' && t[4] == 'e';
      } else {
        assert c[20] == '(' && t[20] == 'e';
      }
    }
  }

  /** What the drops leave for the rename: the frame without the SFR columns of components 2 and 3. */
  function Dropped(v: Snapshot, nc: Components): (r: Snapshot)
    requires v.Valid()
  {
    if nc.Recom? then v.Without(set c | c in SfrOf(2)).Without(set c | c in SfrOf(3)) else v
  }

  /** A passing step is the rename of what the drops leave. */
  lemma SfrPassed(v: Snapshot, nc: Components)
    requires v.Valid() && SfrSpec(v, nc).0.Pass?
    ensures Dropped(v, nc).Valid() && SfrSpec(v, nc).1 == Relabelled(Dropped(v, nc))
  {
  }

  /** What `Moved` says about one of the four renames, and about the columns they leave alone. */
  lemma RelabelledOf(u: Snapshot, q: nat, c: string)
    requires u.Valid() && q < 4
    ensures var r, a, t := Relabelled(u), SfrOf(1)[q], SfrTotals[q];
      && !r.Has(a)
      && (a in u.num ==> t in r.num && r.num[t] == u.num[a])
      && (c !in SfrOf(1) && c !in SfrTotals ==> (r.Has(c) <==> u.Has(c)) && (c in r.num <==> c in u.num) && (c in u.num ==> r.num[c] == u.num[c]))
  {
    RelabelledMoved(u);
    assert SfrOf(1)[..4] == SfrOf(1) && SfrTotals[..4] == SfrTotals;
  }

  /** The drops leave component 1 as it was and no column of components 2 and 3. */
  lemma DroppedOf(v: Snapshot, nc: Components, q: nat)
    requires v.Valid() && q < 4
    ensures var u, a := Dropped(v, nc), SfrOf(1)[q];
      && u.Valid() && (a in u.num <==> a in v.num) && (a in v.num ==> u.num[a] == v.num[a])
      && (nc.Recom? ==> !u.Has(SfrOf(2)[q]) && !u.Has(SfrOf(3)[q]))
  {
    if nc.Recom? {
      var a := SfrOf(1)[q];
      var s2, s3 := set c | c in SfrOf(2), set c | c in SfrOf(3);
      forall p | 0 <= p < 4
        ensures SfrOf(2)[p] != a && SfrOf(3)[p] != a
      {
        DroppedApart(2, p, q);
        DroppedApart(3, p, q);
      }
      assert a !in s2 && a !in s3;
      var u1 := v.Without(s2);
      assert u1.num == v.num - s2;
      assert Dropped(v, nc) == u1.Without(s3);
      assert SfrOf(2)[q] in s2 && SfrOf(3)[q] in s3;
    }
  }

  /**
   * When the step passes, no SFR column of components 1, 2 or 3 is left
   * (2 and 3 only for the recommended-component fits), and each numeric
   * component-1 column now stands, unchanged, under its total.
   */
  lemma SfrStepMoves(v: Snapshot, nc: Components, q: nat)
    requires v.Valid() && SfrSpec(v, nc).0.Pass? && q < 4
    ensures var w, a, t := SfrSpec(v, nc).1, SfrOf(1)[q], SfrTotals[q];
      && !w.Has(a)
      && (nc.Recom? ==> !w.Has(SfrOf(2)[q]) && !w.Has(SfrOf(3)[q]))
      && (a in v.num ==> t in w.num && w.num[t] == v.num[a])
  {
    SfrPassed(v, nc);
    var u := Dropped(v, nc);
    DroppedOf(v, nc, q);
    RelabelledOf(u, q, SfrOf(2)[q]);
    if nc.Recom? {
      assert SfrOf(2)[q] !in SfrOf(1) && SfrOf(2)[q] !in SfrTotals by {
        forall p | 0 <= p < 4
          ensures SfrOf(2)[q] != SfrOf(1)[p] && SfrOf(2)[q] != SfrTotals[p]
        {
          DroppedApart(2, q, p);
        }
      }
      RelabelledOf(u, q, SfrOf(3)[q]);
      assert SfrOf(3)[q] !in SfrOf(1) && SfrOf(3)[q] !in SfrTotals by {
        forall p | 0 <= p < 4
          ensures SfrOf(3)[q] != SfrOf(1)[p] && SfrOf(3)[q] != SfrTotals[p]
        {
          DroppedApart(3, q, p);
        }
      }
    }
  }

  /** The step changes no column outside the SFR components and totals. */
  lemma SfrStepKeeps(v: Snapshot, nc: Components, c: string)
    requires v.Valid() && SfrSpec(v, nc).0.Pass? && !SfrLabel(c)
    ensures var w := SfrSpec(v, nc).1;
      && (w.Has(c) <==> v.Has(c)) && (c in w.num <==> c in v.num) && (c in v.num ==> w.num[c] == v.num[c])
  {
    SfrPassed(v, nc);
    RelabelledOf(Dropped(v, nc), 0, c);
  }

  // ---- Component 1 as its share of the total ----

  /** The order in which the source rewrites the component-1 columns. */
  const ShareOrder := [Sfrd, SfrdErr, Sfr, SfrErr]

  /** `total * HALPHA (component 1) / HALPHA (total)`, row by row. */
  function ShareColumn(total: seq<Num>, ha1: seq<Num>, hat: seq<Num>): (r: seq<Num>)
    requires |ha1| == |total| && |hat| == |total|
    ensures |r| == |total| && forall i :: 0 <= i < |total| ==> r[i] == Div(Mul(total[i], ha1[i]), hat[i])
  {
    seq(|total|, i requires 0 <= i < |total| => Div(Mul(total[i], ha1[i]), hat[i]))
  }

  /** The columns the rewrite of quantity q's component 1 reads, in the order Python evaluates them. */
  function ShareInputs(q: string): (r: seq<string>)
    ensures |r| == 3 && r[0] == Total(q) && r[1] == Comp(Halpha, 1) && r[2] == Total(Halpha)
  {
    [Total(q), Comp(Halpha, 1), Total(Halpha)]
  }

  /** The rewrites of the quantities qs, one after the other; each reads its total and the two HALPHA fluxes. */
  function ShareSpec(v: Snapshot, qs: seq<string>): (r: (Outcome, Snapshot))
    requires v.Valid()
    ensures r.1.Valid() && r.1.nrows == v.nrows
    ensures r.0.Fail? ==> r.0.error.KeyError?
    decreases |qs|
  {
    if qs == [] then (Pass, v)
    else
      match FirstMissing(v, ShareInputs(qs[0]))
      case Some(c) => (Fail(KeyError(c)), v)
      case None =>
        var col := ShareColumn(v.num[Total(qs[0])], v.num[Comp(Halpha, 1)], v.num[Total(Halpha)]);
        ShareSpec(v.WithNum(Comp(qs[0], 1), col), qs[1..])
  }

  /** Recompute the SFR and SFR surface density of component 1 from the totals. */
  method ShareComponentOne(df: Frame) returns (status: Outcome)
    requires df.Valid()
    modifies df
    ensures (status, df.Snap()) == ShareSpec(old(df.Snap()), ShareOrder)
  {
    var k := 0;
    while k < |ShareOrder|
      invariant 0 <= k <= |ShareOrder| && df.Valid()
      invariant ShareSpec(old(df.Snap()), ShareOrder) == ShareSpec(df.Snap(), ShareOrder[k..])
    {
      var q := ShareOrder[k];
      var missing := FirstMissing(df.Snap(), ShareInputs(q));
      if missing.Some? {
        return Fail(KeyError(missing.value));
      }
      var col := ShareColumn(df.num[Total(q)], df.num[Comp(Halpha, 1)], df.num[Total(Halpha)]);
      assert ShareOrder[k..][1..] == ShareOrder[k + 1..];
      df.SetNum(Comp(q, 1), col);
      k := k + 1;
    }
    status := Pass;
  }

  /** No rewritten component-1 column is one of the columns a rewrite reads. */
  ghost predicate ShareApart(qs: seq<string>)
  {
    forall p, q :: p in qs && q in qs ==> Comp(p, 1) != Total(q) && Comp(p, 1) != Comp(Halpha, 1) && Comp(p, 1) != Total(Halpha)
  }

  lemma ShareOrderApart()
    ensures ShareApart(ShareOrder)
    ensures forall j, l :: 0 <= j < l < 4 ==> Comp(ShareOrder[j], 1) != Comp(ShareOrder[l], 1)
  {
    ShareWritesApart();
    ShareWritesNotHalpha();
    forall p, q | p in ShareOrder && q in ShareOrder
      ensures Comp(p, 1) != Total(q) && Comp(p, 1) != Comp(Halpha, 1) && Comp(p, 1) != Total(Halpha)
    {
      var j :| 0 <= j < 4 && ShareOrder[j] == p;
      var l :| 0 <= l < 4 && ShareOrder[l] == q;
    }
  }

  /** The rewritten columns are neither totals nor one another. */
  lemma ShareWritesApart()
    ensures forall j, l :: 0 <= j < 4 && 0 <= l < 4 ==> Comp(ShareOrder[j], 1) != Total(ShareOrder[l])
    ensures forall j, l :: 0 <= j < l < 4 ==> Comp(ShareOrder[j], 1) != Comp(ShareOrder[l], 1)
  {
    SfrLabelsDistinct();
    var perm := [2, 3, 0, 1];
    forall j, l | 0 <= j < 4 && 0 <= l < 4
      ensures Comp(ShareOrder[j], 1) != Total(ShareOrder[l])
      ensures j != l ==> Comp(ShareOrder[j], 1) != Comp(ShareOrder[l], 1)
    {
      assert ShareOrder[j] == SfrQuantities[perm[j]] && ShareOrder[l] == SfrQuantities[perm[l]];
      assert Comp(ShareOrder[j], 1) == SfrOf(1)[perm[j]] && Comp(ShareOrder[l], 1) == SfrOf(1)[perm[l]];
      assert Total(ShareOrder[l]) == SfrTotals[perm[l]];
    }
  }

  /** The rewritten columns are not the HALPHA columns the rewrites divide by. */
  lemma ShareWritesNotHalpha()
    ensures forall j :: 0 <= j < 4 ==> Comp(ShareOrder[j], 1) != Comp(Halpha, 1) && Comp(ShareOrder[j], 1) != Total(Halpha)
  {
    var a := SfrOf(1);
    assert |a[0]| == 17 && |a[1]| == 23 && |a[2]| == 33 && |a[3]| == 39;
    assert |Comp(Halpha, 1)| == 20 && |Total(Halpha)| == 14;
    assert forall j :: 0 <= j < 4 ==> Comp(ShareOrder[j], 1) == a[[2, 3, 0, 1][j]];
  }

  /**
   * The rewrites fail, with a KeyError, exactly when one of the two HALPHA
   * fluxes or one of the totals is missing (and there is something to
   * rewrite).
   */
  lemma {:induction false} ShareFails(v: Snapshot, qs: seq<string>)
    requires v.Valid() && ShareApart(qs)
    ensures ShareSpec(v, qs).0.Fail? <==>
      |qs| > 0 && !(Comp(Halpha, 1) in v.num && Total(Halpha) in v.num && forall j :: 0 <= j < |qs| ==> Total(qs[j]) in v.num)
    decreases |qs|
  {
    if qs != [] && FirstMissing(v, ShareInputs(qs[0])).None? {
      var w := v.WithNum(Comp(qs[0], 1), ShareColumn(v.num[Total(qs[0])], v.num[Comp(Halpha, 1)], v.num[Total(Halpha)]));
      assert ShareApart(qs[1..]) by {
        forall p | p in qs[1..]
          ensures p in qs
        {
        }
      }
      ShareFails(w, qs[1..]);
      forall j | 0 <= j < |qs|
        ensures Total(qs[j]) in w.num <==> Total(qs[j]) in v.num
      {
        assert qs[0] in qs && qs[j] in qs;
      }
      assert Comp(Halpha, 1) in w.num && Total(Halpha) in w.num by {
        assert qs[0] in qs;
      }
      if forall j :: 0 <= j < |qs| - 1 ==> Total(qs[1..][j]) in w.num {
        forall j | 0 <= j < |qs|
          ensures Total(qs[j]) in v.num
        {
          if j > 0 {
            assert qs[j] == qs[1..][j - 1];
          }
        }
      }
    }
  }

  /** The rewrites change no column but the component-1 columns of qs. */
  lemma {:induction false} ShareKeeps(v: Snapshot, qs: seq<string>, c: string)
    requires v.Valid() && c in v.num && forall j :: 0 <= j < |qs| ==> c != Comp(qs[j], 1)
    ensures var w := ShareSpec(v, qs).1; c in w.num && w.num[c] == v.num[c]
    decreases |qs|
  {
    if qs != [] && FirstMissing(v, ShareInputs(qs[0])).None? {
      var w := v.WithNum(Comp(qs[0], 1), ShareColumn(v.num[Total(qs[0])], v.num[Comp(Halpha, 1)], v.num[Total(Halpha)]));
      assert forall j :: 0 <= j < |qs| - 1 ==> qs[1..][j] == qs[j + 1];
      ShareKeeps(w, qs[1..], c);
    }
  }

  /** Component 1 of every quantity is rewritten from the totals and fluxes the step started with. */
  lemma {:induction false} ShareWrites(v: Snapshot, qs: seq<string>, j: nat)
    requires v.Valid() && ShareSpec(v, qs).0.Pass? && ShareApart(qs) && j < |qs|
    requires forall a, b :: 0 <= a < b < |qs| ==> Comp(qs[a], 1) != Comp(qs[b], 1)
    ensures Total(qs[j]) in v.num && Comp(Halpha, 1) in v.num && Total(Halpha) in v.num
    ensures var w := ShareSpec(v, qs).1;
      Comp(qs[j], 1) in w.num && w.num[Comp(qs[j], 1)] == ShareColumn(v.num[Total(qs[j])], v.num[Comp(Halpha, 1)], v.num[Total(Halpha)])
    decreases |qs|
  {
    var col := ShareColumn(v.num[Total(qs[0])], v.num[Comp(Halpha, 1)], v.num[Total(Halpha)]);
    var w := v.WithNum(Comp(qs[0], 1), col);
    assert ShareSpec(v, qs) == ShareSpec(w, qs[1..]);
    assert forall l :: 0 <= l < |qs| - 1 ==> qs[1..][l] == qs[l + 1];
    if j == 0 {
      ShareKeeps(w, qs[1..], Comp(qs[0], 1));
    } else {
      assert ShareApart(qs[1..]) by {
        forall p | p in qs[1..]
          ensures p in qs
        {
        }
      }
      ShareWrites(w, qs[1..], j - 1);
      assert qs[0] in qs && qs[j] in qs;
    }
  }

  /** Per row, a NaN total or Halpha column gives a NaN share. */
  lemma ShareRowNaN(t: Num, a: Num, h: Num)
    ensures t.NaN? || a.NaN? || h.NaN? ==> Div(Mul(t, a), h).NaN?
  {
  }

  /** Per row, on finite cells with a non-zero total Halpha, the share is the product-quotient. */
  lemma ShareRowValue(t: Num, a: Num, h: Num)
    requires t.Val? && a.Val? && h.Val? && h.v != 0.0
    ensures Div(Mul(t, a), h) == Val(t.v * a.v / h.v)
  {
  }

  /** x * y / y == x for y != 0 */
  lemma CancelFactor(x: real, y: real)
    requires y != 0.0
    ensures x * y / y == x
  {
  }

  /** Below the total: 0 <= x <= t * h with 0 < h gives x / h <= t. */
  lemma QuotientAtMost(x: real, t: real, h: real)
    requires 0.0 < h && x <= t * h
    ensures x / h <= t
  {
    assert x / h * h == x;
  }

  /** Per row, when all Halpha is in component 1 the component gets the whole total. */
  lemma ShareRowWhole(t: Num, a: Num)
    requires t.Val? && a.Val? && a.v != 0.0
    ensures Div(Mul(t, a), a) == t
  {
    CancelFactor(t.v, a.v);
  }

  /** Per row, a non-negative total shared by a fraction 0 <= a <= h gives 0 <= share <= total. */
  lemma ShareRowBounded(t: Num, a: Num, h: Num)
    requires t.Val? && a.Val? && h.Val? && 0.0 <= t.v && 0.0 <= a.v <= h.v && h.v != 0.0
    ensures Div(Mul(t, a), h).Val?
    ensures 0.0 <= Div(Mul(t, a), h).v <= t.v
  {
    var x := t.v * a.v;
    assert 0.0 <= x by {
      assert 0.0 <= t.v * a.v;
    }
    assert x <= t.v * h.v by {
      assert t.v * (h.v - a.v) >= 0.0;
    }
    QuotientAtMost(x, t.v, h.v);
    assert 0.0 <= x / h.v;
  }

  // ---- The two SFR masks ----

  const Inclination := "Inclination i (degrees)"

  /** `sub in s` for strings. */
  predicate Contains(s: string, sub: string)
    decreases |s|
  {
    |sub| <= |s| && (s[..|sub|] == sub || Contains(s[1..], sub))
  }

  /** A string lacking the first character of sub does not contain sub. */
  lemma {:induction false} LacksFirst(s: string, sub: string)
    requires |sub| > 0 && forall i :: 0 <= i < |s| ==> s[i] != sub[0]
    ensures !Contains(s, sub)
    decreases |s|
  {
    if |sub| <= |s| {
      assert s[..|sub|][0] == s[0];
      LacksFirst(s[1..], sub);
    }
  }

  /** What contains "SFR surface density" contains "SFR". */
  lemma {:induction false} ContainsPrefix(s: string, sub: string, pre: string)
    requires pre <= sub && Contains(s, sub)
    ensures Contains(s, pre)
    decreases |s|
  {
    if s[..|sub|] == sub {
      assert s[..|pre|] == sub[..|pre|];
    } else {
      ContainsPrefix(s[1..], sub, pre);
    }
  }

  /** The numeric columns whose names contain sub. */
  function Named(v: Snapshot, sub: string): (r: set<string>)
    ensures forall c :: c in r <==> c in v.num && Contains(c, sub)
  {
    set c | c in v.num.Keys && Contains(c, sub)
  }

  /** `df.loc[cond, cols] = np.nan` for the numeric columns cols. */
  function Masked(v: Snapshot, cols: set<string>, cond: seq<bool>): (r: Snapshot)
    requires v.Valid() && |cond| == v.nrows
    ensures r.Valid() && r.nrows == v.nrows && r.num.Keys == v.num.Keys && r.text == v.text && r.flag == v.flag
    ensures forall c :: c in v.num ==> r.num[c] == if c in cols then MaskCells(v.num[c], cond) else v.num[c]
  {
    Snapshot(MaskColumns(v.num, cols, cond, v.nrows), v.text, v.flag, v.nrows)
  }

  /**
   * The step's effect: every SFR surface density column is NaN where the
   * inclination is NaN, then every SFR column is NaN where the total SFR is
   * zero (a KeyError if the inclination or the total SFR is missing).
   */
  function MaskSpec(v: Snapshot): (r: (Outcome, Snapshot))
    requires v.Valid()
    ensures r.1.Valid() && r.1.nrows == v.nrows
    ensures r.0.Fail? ==> r.0.error.KeyError?
  {
    if Inclination !in v.num then (Fail(KeyError(Inclination)), v)
    else
      var v1 := InclinationMasked(v);
      if Total(Sfr) !in v1.num then (Fail(KeyError(Total(Sfr))), v1)
      else (Pass, ZeroSfrMasked(v1))
  }

  /** The first mask: the SFR surface density columns, where the inclination is NaN. */
  function InclinationMasked(v: Snapshot): (r: Snapshot)
    requires v.Valid() && Inclination in v.num
    ensures r.Valid() && r.nrows == v.nrows && r.num.Keys == v.num.Keys
  {
    Masked(v, Named(v, Sfrd), NaNMask(v.num[Inclination]))
  }

  /** The second mask: the SFR columns, where the total SFR is zero. */
  function ZeroSfrMasked(v: Snapshot): (r: Snapshot)
    requires v.Valid() && Total(Sfr) in v.num
    ensures r.Valid() && r.nrows == v.nrows && r.num.Keys == v.num.Keys
  {
    Masked(v, Named(v, Sfr), EqMask(v.num[Total(Sfr)], Val(0.0)))
  }

  /** NaN the SFR surface density where the inclination is undefined, and every SFR column where the SFR is zero. */
  method MaskSfr(df: Frame) returns (status: Outcome)
    requires df.Valid()
    modifies df
    ensures (status, df.Snap()) == MaskSpec(old(df.Snap()))
  {
    if Inclination !in df.num {
      return Fail(KeyError(Inclination));
    }
    var cond := NaNMask(df.num[Inclination]);
    df.SetNumColumns(MaskColumns(df.num, Named(df.Snap(), Sfrd), cond, df.nrows));
    if Total(Sfr) !in df.num {
      return Fail(KeyError(Total(Sfr)));
    }
    cond := EqMask(df.num[Total(Sfr)], Val(0.0));
    df.SetNumColumns(MaskColumns(df.num, Named(df.Snap(), Sfr), cond, df.nrows));
    status := Pass;
  }

  /** The inclination is no SFR column, and the total SFR is no SFR surface density column. */
  lemma MaskNames()
    ensures !Contains(Inclination, Sfr) && !Contains(Inclination, Sfrd) && !Contains(Total(Sfr), Sfrd)
    ensures Contains(Total(Sfr), Sfr)
  {
    LacksFirst(Inclination, Sfr);
    LacksFirst(Inclination, Sfrd);
    assert Total(Sfr)[..|Sfr|] == Sfr;
  }

  /** The step fails, with a KeyError, exactly when the inclination or the total SFR is missing. */
  lemma MaskFails(v: Snapshot)
    requires v.Valid()
    ensures var o := MaskSpec(v).0;
      (o.Fail? <==> Inclination !in v.num || Total(Sfr) !in v.num) && (o.Fail? ==> o.error.KeyError?)
  {
  }

  lemma InclinationCell(v: Snapshot, c: string, i: nat)
    requires v.Valid() && Inclination in v.num && c in v.num && i < v.nrows
    ensures InclinationMasked(v).num[c][i] == if Contains(c, Sfrd) && v.num[Inclination][i].NaN? then NaN else v.num[c][i]
  {
  }

  lemma ZeroSfrCell(v: Snapshot, c: string, i: nat)
    requires v.Valid() && Total(Sfr) in v.num && c in v.num && i < v.nrows
    ensures ZeroSfrMasked(v).num[c][i] == if Contains(c, Sfr) && Eq(v.num[Total(Sfr)][i], Val(0.0)) then NaN else v.num[c][i]
  {
  }

  /**
   * Cell by cell, when the step passes: an SFR surface density cell is NaN
   * where the inclination is NaN, every SFR cell is NaN where the total SFR
   * was zero, and every other cell is as it was.
   */
  lemma MaskCell(v: Snapshot, c: string, i: nat)
    requires v.Valid() && MaskSpec(v).0.Pass? && c in v.num && i < v.nrows
    ensures var w := MaskSpec(v).1;
      && c in w.num
      && w.num[c][i] == if (Contains(c, Sfrd) && v.num[Inclination][i].NaN?) || (Contains(c, Sfr) && Eq(v.num[Total(Sfr)][i], Val(0.0)))
                        then NaN else v.num[c][i]
  {
    MaskNames();
    var v1 := InclinationMasked(v);
    assert MaskSpec(v).1 == ZeroSfrMasked(v1);
    InclinationCell(v, c, i);
    InclinationCell(v, Total(Sfr), i);
    ZeroSfrCell(v1, c, i);
    if Contains(c, Sfrd) {
      ContainsPrefix(c, Sfrd, Sfr);
    }
  }

  /** Afterwards no row has a total SFR of zero, and the inclination is as it was. */
  lemma MaskKeepsInputs(v: Snapshot, i: nat)
    requires v.Valid() && MaskSpec(v).0.Pass? && i < v.nrows
    ensures var w := MaskSpec(v).1;
      && !Eq(w.num[Total(Sfr)][i], Val(0.0))
      && w.num[Inclination][i] == v.num[Inclination][i]
  {
    MaskNames();
    MaskCell(v, Total(Sfr), i);
    MaskCell(v, Inclination, i);
  }

  /** One cell of the second masking: it is as the first left it. */
  lemma MaskAgainCell(v: Snapshot, c: string, i: nat)
    requires v.Valid() && MaskSpec(v).0.Pass? && c in v.num && i < v.nrows
    ensures var w := MaskSpec(v).1;
      MaskSpec(w).0.Pass? && c in w.num && MaskSpec(w).1.num[c][i] == w.num[c][i]
  {
    var w := MaskSpec(v).1;
    MaskKeepsInputs(v, i);
    MaskCell(v, c, i);
    MaskCell(w, c, i);
  }

  /** Masking a second time changes nothing. */
  lemma MaskIdempotent(v: Snapshot)
    requires v.Valid() && MaskSpec(v).0.Pass?
    ensures MaskSpec(MaskSpec(v).1) == (Pass, MaskSpec(v).1)
  {
    var w := MaskSpec(v).1;
    var w2 := MaskSpec(w).1;
    assert w2.num.Keys == w.num.Keys == v.num.Keys && w2.text == w.text && w2.flag == w.flag;
    forall c | c in w.num
      ensures w2.num[c] == w.num[c]
    {
      forall i | 0 <= i < w.nrows
        ensures w2.num[c][i] == w.num[c][i]
      {
        MaskAgainCell(v, c, i);
      }
    }
    SameColumns(w2.num, w.num);
  }

  lemma SameColumns(a: Cols, b: Cols)
    requires a.Keys == b.Keys && forall c :: c in a ==> a[c] == b[c]
    ensures a == b
  {
  }
}
