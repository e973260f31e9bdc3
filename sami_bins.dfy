/**
 * The bin centroids of `process_galaxies` in spaxelsleuth/io/sami.py, for
 * adaptively binned and sector-binned cubes, and the removal of all-NaN rows
 * from the table it returns.
 *
 * An image is a flat row-major sequence of ny * nx cells: cell k sits at
 * row k / nx and column k % nx (the `np.meshgrid(..., indexing="ij")`
 * coordinates ys and xs).
 */
module SamiBins {
  import opened Numeric
  import opened Carve

  /** The bin map and the image are ny * nx cells each (`ny, nx = im.shape`). */
  predicate Images(binMap: seq<Num>, im: seq<Num>, ny: nat, nx: nat)
  {
    |binMap| == |im| && |im| == ny * nx
  }

  /** The column x and the row y of cell k. */
  function Column(k: nat, nx: nat): nat
  {
    if nx == 0 then 0 else k % nx
  }

  function Row(k: nat, nx: nat): nat
  {
    if nx == 0 then 0 else k / nx
  }

  // ---- Bin labels ----

  /** `bin_map[bin_map == 0] = np.nan` */
  function MaskZeros(binMap: seq<Num>): (r: seq<Num>)
    ensures |r| == |binMap|
    ensures forall k :: 0 <= k < |binMap| ==> r[k] == (if Eq(binMap[k], Val(0.0)) then NaN else binMap[k])
  {
    seq(|binMap|, k requires 0 <= k < |binMap| => if Eq(binMap[k], Val(0.0)) then NaN else binMap[k])
  }

  predicate Ascending(ls: seq<Num>)
  {
    forall i, j :: 0 <= i < j < |ls| ==> Lt(ls[i], ls[j])
  }

  lemma LtTrans(a: Num, b: Num, c: Num)
    requires Lt(a, b) && Lt(b, c)
    ensures Lt(a, c)
  {
  }

  /** Insert a value into an ascending list of distinct values, unless it is there already. */
  function Insert(ls: seq<Num>, x: Num): (r: seq<Num>)
    requires !x.NaN? && Ascending(ls) && forall i :: 0 <= i < |ls| ==> !ls[i].NaN?
    ensures Ascending(r) && forall i :: 0 <= i < |r| ==> !r[i].NaN?
    ensures forall z :: z in r <==> z in ls || z == x
  {
    if ls == [] then [x]
    else if Lt(x, ls[0]) then
      assert forall j :: 0 < j < |ls| ==> Lt(x, ls[j]) by {
        forall j | 0 < j < |ls|
          ensures Lt(x, ls[j])
        {
          LtTrans(x, ls[0], ls[j]);
        }
      }
      [x] + ls
    else if x == ls[0] then ls
    else
      var rest := Insert(ls[1..], x);
      assert forall z :: z in ls <==> z == ls[0] || z in ls[1..];
      CompareNaN(x, ls[0]);
      assert forall z :: z in rest ==> Lt(ls[0], z) by {
        forall z | z in rest
          ensures Lt(ls[0], z)
        {
          if z != x {
            var j :| 0 <= j < |ls[1..]| && ls[1..][j] == z;
            assert ls[j + 1] == z;
          }
        }
      }
      [ls[0]] + rest
  }

  /** `[nn for nn in np.unique(bin_map) if ~np.isnan(nn)]`: the distinct non-NaN values, ascending. */
  function UniqueLabels(cells: seq<Num>): (r: seq<Num>)
    ensures Ascending(r) && forall i :: 0 <= i < |r| ==> !r[i].NaN?
    ensures forall z :: z in r <==> z in cells && !z.NaN?
  {
    if cells == [] then []
    else
      var init, last := cells[..|cells| - 1], cells[|cells| - 1];
      assert forall z :: z in cells <==> z in init || z == last;
      var ls := UniqueLabels(init);
      if last.NaN? then ls else Insert(ls, last)
  }

  /**
   * The labels are the distinct values of the map other than 0 and NaN, in
   * ascending order: label 0 marks the spaxels outside every bin.
   */
  lemma LabelsMeaning(binMap: seq<Num>)
    ensures var ls := UniqueLabels(MaskZeros(binMap));
      && (forall i, j :: 0 <= i < j < |ls| ==> Lt(ls[i], ls[j]))
      && (forall z :: z in ls <==> z in binMap && !z.NaN? && z != Val(0.0))
  {
    var m := MaskZeros(binMap);
    forall z
      ensures z in m && !z.NaN? <==> z in binMap && !z.NaN? && z != Val(0.0)
    {
      if z in binMap && !z.NaN? && z != Val(0.0) {
        var k :| 0 <= k < |binMap| && binMap[k] == z;
        assert m[k] == z;
      }
    }
  }

  // ---- One bin ----

  /** `len(bin_mask[bin_mask == True])`: the cells carrying label nn. */
  function Count(cells: seq<Num>, nn: Num): (r: nat)
    ensures r <= |cells|
  {
    if cells == [] then 0
    else Count(cells[..|cells| - 1], nn) + (if Eq(cells[|cells| - 1], nn) then 1 else 0)
  }

  /** The count is 0 exactly when no cell carries the label. */
  lemma {:induction false} CountZero(cells: seq<Num>, nn: Num)
    ensures Count(cells, nn) == 0 <==> forall k :: 0 <= k < |cells| ==> !Eq(cells[k], nn)
  {
    if cells != [] {
      var init := cells[..|cells| - 1];
      CountZero(init, nn);
      assert forall k :: 0 <= k < |init| ==> init[k] == cells[k];
    }
  }

  /** A boolean mask used as a number: 1.0 or 0.0. */
  function AsNum(b: bool): Num
  {
    if b then Val(1.0) else Val(0.0)
  }

  /** `xs * bin_mask * im` (w == 1), `ys * bin_mask * im` (w == 0) and `bin_mask * im` (w == 2), cell by cell. */
  function Weighted(m: seq<Num>, im: seq<Num>, nx: nat, nn: Num, w: nat): (r: seq<Num>)
    requires |m| == |im|
    ensures |r| == |m|
  {
    seq(|m|, k requires 0 <= k < |m| =>
      if w == 2 then Mul(AsNum(Eq(m[k], nn)), im[k])
      else Mul(Mul(Val(if w == 1 then Column(k, nx) as real else Row(k, nx) as real), AsNum(Eq(m[k], nn))), im[k]))
  }

  /** The light-weighted centroid (x_c, y_c) of the bin labelled nn. */
  function Centroid(m: seq<Num>, im: seq<Num>, nx: nat, nn: Num): (Num, Num)
    requires |m| == |im|
  {
    var total := NanSum(Weighted(m, im, nx, nn, 2));
    (Div(NanSum(Weighted(m, im, nx, nn, 1)), total), Div(NanSum(Weighted(m, im, nx, nn, 0)), total))
  }

  /** The test that drops a centroid: False on NaN, as every comparison with NaN is. */
  predicate OutOfBounds(xc: Num, yc: Num, ny: nat, nx: nat)
  {
    Lt(xc, Val(0.0)) || Ge(xc, Val(nx as real)) || Lt(yc, Val(0.0)) || Ge(yc, Val(ny as real))
  }

  /** The entry of `x_c_list`, `y_c_list` for one bin. */
  function Placed(c: (Num, Num), ny: nat, nx: nat): (Num, Num)
  {
    if OutOfBounds(c.0, c.1, ny, nx) then (NaN, NaN) else c
  }

  // ---- The bin table ----

  /** The four lists `process_galaxies` goes on with, position k describing one bin. */
  datatype Bins = Bins(x: seq<Num>, y: seq<Num>, size: seq<Num>, number: seq<Num>)

  /** The entries of every bin before the filtering: x, y, size and label. */
  function BinEntries(m: seq<Num>, im: seq<Num>, ny: nat, nx: nat): (r: seq<(Num, Num, Num, Num)>)
    requires |m| == |im|
    ensures |r| == |UniqueLabels(m)|
    ensures forall i :: 0 <= i < |r| ==> r[i] == Entry(m, im, ny, nx, UniqueLabels(m)[i])
  {
    MapAt(EntryOf(m, im, ny, nx), UniqueLabels(m));
    MapSeq(EntryOf(m, im, ny, nx), UniqueLabels(m))
  }

  /** f applied to each element of s, in order. */
  function MapSeq<T, U>(f: T -> U, s: seq<T>): (r: seq<U>)
    ensures |r| == |s|
  {
    if s == [] then [] else MapSeq(f, s[..|s| - 1]) + [f(s[|s| - 1])]
  }

  lemma {:induction false} MapAt<T, U>(f: T -> U, s: seq<T>)
    ensures forall i :: 0 <= i < |s| ==> MapSeq(f, s)[i] == f(s[i])
  {
    if s != [] {
      MapAt(f, s[..|s| - 1]);
    }
  }

  /** `Entry` as a function of the label alone. */
  function EntryOf(m: seq<Num>, im: seq<Num>, ny: nat, nx: nat): Num -> (Num, Num, Num, Num)
    requires |m| == |im|
  {
    nn => Entry(m, im, ny, nx, nn)
  }

  /** The bin labelled nn: its placed centroid, its size in spaxels and its label. */
  function Entry(m: seq<Num>, im: seq<Num>, ny: nat, nx: nat, nn: Num): (Num, Num, Num, Num)
    requires |m| == |im|
  {
    var c := Placed(Centroid(m, im, nx, nn), ny, nx);
    (c.0, c.1, Val(Count(m, nn) as real), nn)
  }

  /** One pass of the centroid loop. */
  method MeasureBin(m: seq<Num>, im: seq<Num>, ny: nat, nx: nat, nn: Num, ghost f: Num -> (Num, Num, Num, Num))
      returns (x: Num, y: Num, size: Num)
    requires |m| == |im|
    requires forall nn {:trigger Entry(m, im, ny, nx, nn)} :: f(nn) == Entry(m, im, ny, nx, nn)
    ensures (x, y, size, nn) == f(nn)
  {
    assert f(nn) == Entry(m, im, ny, nx, nn);
    size := Val(Count(m, nn) as real);
    var c := Centroid(m, im, nx, nn);
    if OutOfBounds(c.0, c.1, ny, nx) {
      x, y := NaN, NaN;
    } else {
      x, y := c.0, c.1;
    }
  }

  /** `~np.isnan(s)` at position i. */
  function NumAt(s: seq<Num>): nat -> bool
  {
    (i: nat) => i < |s| && !s[i].NaN?
  }

  function XsOf(es: seq<(Num, Num, Num, Num)>): (r: seq<Num>)
    ensures |r| == |es| && forall i :: 0 <= i < |es| ==> r[i] == es[i].0
  {
    seq(|es|, i requires 0 <= i < |es| => es[i].0)
  }

  /** `good_bins = np.argwhere(~np.isnan(x_c_list))`, then each list indexed by it. */
  function BinsSpec(binMap: seq<Num>, im: seq<Num>, ny: nat, nx: nat): (r: Bins)
    requires Images(binMap, im, ny, nx)
  {
    var es := BinEntries(MaskZeros(binMap), im, ny, nx);
    RowFilter(|es|, NumAt(XsOf(es)));
    RowsOf(es, Filter(Range(|es|), NumAt(XsOf(es))))
  }

  function RowsOf(es: seq<(Num, Num, Num, Num)>, good: seq<nat>): (r: Bins)
    requires forall k :: 0 <= k < |good| ==> good[k] < |es|
    ensures |r.x| == |good| && |r.y| == |good| && |r.size| == |good| && |r.number| == |good|
  {
    Bins(seq(|good|, k requires 0 <= k < |good| => es[good[k]].0),
         seq(|good|, k requires 0 <= k < |good| => es[good[k]].1),
         seq(|good|, k requires 0 <= k < |good| => es[good[k]].2),
         seq(|good|, k requires 0 <= k < |good| => es[good[k]].3))
  }

  /**
   * The centroid loop: NaN-filled lists, one pass per bin label writing its
   * placed centroid and its size. The ghost f names `Entry` for these images,
   * so that the loop speaks of bins without unfolding the centroid.
   */
  method MeasureBins(m: seq<Num>, im: seq<Num>, ny: nat, nx: nat, ls: seq<Num>, ghost f: Num -> (Num, Num, Num, Num))
      returns (xl: seq<Num>, yl: seq<Num>, sl: seq<Num>)
    requires |m| == |im|
    requires forall nn {:trigger Entry(m, im, ny, nx, nn)} :: f(nn) == Entry(m, im, ny, nx, nn)
    ensures var es := MapSeq(f, ls);
      && |xl| == |es| && |yl| == |es| && |sl| == |es|
      && forall j :: 0 <= j < |es| ==> es[j] == (xl[j], yl[j], sl[j], ls[j])
  {
    var nbins := |ls|;
    var xs := new Num[nbins](_ => NaN);
    var ys := new Num[nbins](_ => NaN);
    var sizes := new Num[nbins](_ => NaN);
    ghost var done: seq<(Num, Num, Num, Num)> := [];
    for ii := 0 to nbins
      invariant done == MapSeq(f, ls[..ii])
      invariant forall j :: 0 <= j < ii ==> xs[j] == done[j].0 && ys[j] == done[j].1 && sizes[j] == done[j].2 && ls[j] == done[j].3
    {
      var x, y, size := MeasureBin(m, im, ny, nx, ls[ii], f);
      assert ls[..ii + 1][..ii] == ls[..ii];
      done := done + [(x, y, size, ls[ii])];
      xs[ii] := x;
      ys[ii] := y;
      sizes[ii] := size;
    }
    assert ls[..nbins] == ls;
    xl, yl, sl := xs[..], ys[..], sizes[..];
  }

  /** The bin table: the measured lists, index-filtered on a non-NaN x. */
  method BinCentroids(binMap: seq<Num>, im: seq<Num>, ny: nat, nx: nat) returns (r: Bins)
    requires Images(binMap, im, ny, nx)
    ensures r == BinsSpec(binMap, im, ny, nx)
  {
    var m := MaskZeros(binMap);
    var ls := UniqueLabels(m);
    var xl, yl, sl := MeasureBins(m, im, ny, nx, ls, EntryOf(m, im, ny, nx));
    ghost var es := BinEntries(m, im, ny, nx);
    assert xl == XsOf(es);
    var good := Filter(Range(|ls|), NumAt(xl));
    RowFilter(|ls|, NumAt(xl));
    r := Pick(xl, yl, sl, ls, good);
    PickRows(es, xl, yl, sl, ls, good);
  }

  /** Each list indexed by `good_bins`. */
  function Pick(xl: seq<Num>, yl: seq<Num>, sl: seq<Num>, ls: seq<Num>, good: seq<nat>): (r: Bins)
    requires |yl| == |xl| && |sl| == |xl| && |ls| == |xl|
    requires forall k :: 0 <= k < |good| ==> good[k] < |xl|
  {
    Bins(seq(|good|, k requires 0 <= k < |good| => xl[good[k]]),
         seq(|good|, k requires 0 <= k < |good| => yl[good[k]]),
         seq(|good|, k requires 0 <= k < |good| => sl[good[k]]),
         seq(|good|, k requires 0 <= k < |good| => ls[good[k]]))
  }

  /** Picking from the filled lists is picking from the bin entries. */
  lemma PickRows(es: seq<(Num, Num, Num, Num)>, xl: seq<Num>, yl: seq<Num>, sl: seq<Num>, ls: seq<Num>, good: seq<nat>)
    requires |es| == |xl| && |yl| == |xl| && |sl| == |xl| && |ls| == |xl|
    requires forall j :: 0 <= j < |es| ==> es[j] == (xl[j], yl[j], sl[j], ls[j])
    requires forall k :: 0 <= k < |good| ==> good[k] < |xl|
    ensures Pick(xl, yl, sl, ls, good) == RowsOf(es, good)
  {
  }

  // ---- What the filtered table guarantees ----

  /**
   * The four lists stay aligned: they have one length, and position k holds
   * the centroid and size of the bin whose label is at position k. Labels
   * stay ascending and distinct, and none is 0.
   */
  lemma BinsAligned(binMap: seq<Num>, im: seq<Num>, ny: nat, nx: nat)
    requires Images(binMap, im, ny, nx)
    ensures var b := BinsSpec(binMap, im, ny, nx);
      var m := MaskZeros(binMap);
      && |b.x| == |b.number| && |b.y| == |b.number| && |b.size| == |b.number|
      && (forall k :: 0 <= k < |b.number| ==>
            && b.number[k] in binMap && !b.number[k].NaN? && b.number[k] != Val(0.0)
            && (b.x[k], b.y[k]) == Placed(Centroid(m, im, nx, b.number[k]), ny, nx)
            && b.size[k] == Val(Count(m, b.number[k]) as real))
      && (forall i, j :: 0 <= i < j < |b.number| ==> Lt(b.number[i], b.number[j]))
  {
    var m := MaskZeros(binMap);
    var es := BinEntries(m, im, ny, nx);
    var ls := UniqueLabels(m);
    var good := Filter(Range(|es|), NumAt(XsOf(es)));
    RowFilter(|es|, NumAt(XsOf(es)));
    LabelsMeaning(binMap);
    var b := RowsOf(es, good);
    forall k | 0 <= k < |good|
      ensures b.number[k] == ls[good[k]] && b.number[k] in ls
      ensures (b.x[k], b.y[k]) == Placed(Centroid(m, im, nx, b.number[k]), ny, nx)
      ensures b.size[k] == Val(Count(m, b.number[k]) as real)
    {
      assert es[good[k]] == Entry(m, im, ny, nx, ls[good[k]]);
    }
  }

  /** Every bin kept has a centroid inside the image: x a number in [0, nx), y not below 0 nor at or past ny. */
  lemma KeptInside(binMap: seq<Num>, im: seq<Num>, ny: nat, nx: nat)
    requires Images(binMap, im, ny, nx)
    ensures var b := BinsSpec(binMap, im, ny, nx);
      forall k :: 0 <= k < |b.x| ==>
        && b.x[k].Val? && 0.0 <= b.x[k].v < nx as real
        && !Lt(b.y[k], Val(0.0)) && !Ge(b.y[k], Val(ny as real))
  {
    var m := MaskZeros(binMap);
    var es := BinEntries(m, im, ny, nx);
    var good := Filter(Range(|es|), NumAt(XsOf(es)));
    RowFilter(|es|, NumAt(XsOf(es)));
    forall k | 0 <= k < |good|
      ensures es[good[k]].0.Val? && 0.0 <= es[good[k]].0.v < nx as real
      ensures !Lt(es[good[k]].1, Val(0.0)) && !Ge(es[good[k]].1, Val(ny as real))
    {
      assert good[k] in good;
    }
  }

  /**
   * With no infinite pixel in the image, a kept bin's y centroid is a number
   * in [0, ny) too (both centroids share the light total, which cannot be 0
   * once x passed the test).
   */
  lemma FiniteImageInside(binMap: seq<Num>, im: seq<Num>, ny: nat, nx: nat)
    requires Images(binMap, im, ny, nx)
    requires forall k :: 0 <= k < |im| ==> !im[k].PosInf? && !im[k].NegInf?
    ensures var b := BinsSpec(binMap, im, ny, nx);
      forall k :: 0 <= k < |b.y| ==> b.y[k].Val? && 0.0 <= b.y[k].v < ny as real
  {
    var m := MaskZeros(binMap);
    var es := BinEntries(m, im, ny, nx);
    var ls := UniqueLabels(m);
    var good := Filter(Range(|es|), NumAt(XsOf(es)));
    RowFilter(|es|, NumAt(XsOf(es)));
    forall k | 0 <= k < |good|
      ensures es[good[k]].1.Val? && 0.0 <= es[good[k]].1.v < ny as real
    {
      assert good[k] in good;
      var i := good[k];
      CentroidOfFinite(m, im, ny, nx, ls[i]);
    }
  }

  /** For a finite image, a placed centroid with a non-NaN x has a finite y inside the image. */
  lemma CentroidOfFinite(m: seq<Num>, im: seq<Num>, ny: nat, nx: nat, nn: Num)
    requires |m| == |im|
    requires forall k :: 0 <= k < |im| ==> !im[k].PosInf? && !im[k].NegInf?
    ensures var p := Placed(Centroid(m, im, nx, nn), ny, nx);
      !p.0.NaN? ==> p.1.Val? && 0.0 <= p.1.v < ny as real
  {
    var wx, wy, wt := Weighted(m, im, nx, nn, 1), Weighted(m, im, nx, nn, 0), Weighted(m, im, nx, nn, 2);
    NoInfinity(m, im, nx, nn, 1);
    NoInfinity(m, im, nx, nn, 0);
    NoInfinity(m, im, nx, nn, 2);
    NanSumOfFinite(wx);
    NanSumOfFinite(wy);
    NanSumOfFinite(wt);
  }

  /** The weighted cells of a finite image are finite or NaN. */
  lemma NoInfinity(m: seq<Num>, im: seq<Num>, nx: nat, nn: Num, w: nat)
    requires |m| == |im|
    requires forall k :: 0 <= k < |im| ==> !im[k].PosInf? && !im[k].NegInf?
    ensures forall k :: 0 <= k < |m| ==> Weighted(m, im, nx, nn, w)[k].NaN? || Weighted(m, im, nx, nn, w)[k].Val?
  {
  }

  /** A label present in the map covers at least one spaxel. */
  lemma BinsNotEmpty(cells: seq<Num>, nn: Num)
    requires nn in cells && !nn.NaN?
    ensures Count(cells, nn) >= 1
  {
    var k :| 0 <= k < |cells| && cells[k] == nn;
    assert Eq(cells[k], nn);
    CountZero(cells, nn);
  }

  // ---- All-NaN rows ----

  /** `rows_arr[~np.all(np.isnan(rows_arr), axis=1)]`: the rows with a non-NaN cell, in order. */
  function DropAllNaNRows(rows: seq<seq<Num>>): (r: seq<seq<Num>>)
    ensures forall row :: row in r <==> row in rows && !AllNaN(row)
    ensures |r| <= |rows|
  {
    if rows == [] then []
    else
      assert forall row :: row in rows <==> row == rows[0] || row in rows[1..];
      (if AllNaN(rows[0]) then [] else [rows[0]]) + DropAllNaNRows(rows[1..])
  }

  /**
   * A column that is never NaN (the galaxy ID the table ends with) keeps
   * every row: the filter then drops nothing.
   */
  lemma {:induction false} NothingDropped(rows: seq<seq<Num>>, c: nat)
    requires forall i :: 0 <= i < |rows| ==> c < |rows[i]| && !rows[i][c].NaN?
    ensures DropAllNaNRows(rows) == rows
  {
    if rows != [] {
      assert forall i :: 0 <= i < |rows[1..]| ==> rows[1..][i] == rows[i + 1];
      NothingDropped(rows[1..], c);
      assert !rows[0][c].NaN?;
      assert [rows[0]] + rows[1..] == rows;
    }
  }
}
