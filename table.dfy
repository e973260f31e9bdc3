/**
 * A pandas DataFrame as the modelled code uses it: named columns of equal
 * length, grouped by dtype (floating-point, text, boolean). Columns are
 * added, overwritten, masked with NaN and the rows reordered in place.
 */
module Table {
  import opened Numeric

  type Cols = map<string, seq<Num>>

  /** Every numeric column has `n` cells. */
  predicate Shaped(m: Cols, n: nat)
  {
    forall c :: c in m ==> |m[c]| == n
  }

  /** Row `perm[k]` of `s` becomes row k. */
  function Pick<T>(s: seq<T>, perm: seq<nat>): (r: seq<T>)
    requires forall k :: 0 <= k < |perm| ==> perm[k] < |s|
    ensures |r| == |perm| && forall k :: 0 <= k < |perm| ==> r[k] == s[perm[k]]
  {
    seq(|perm|, k requires 0 <= k < |perm| => s[perm[k]])
  }

  /** `df.loc[cond, c] = np.nan` on one column. */
  function MaskCells(s: seq<Num>, cond: seq<bool>): (r: seq<Num>)
    requires |cond| == |s|
    ensures |r| == |s|
    ensures forall i :: 0 <= i < |s| ==> r[i] == (if cond[i] then NaN else s[i])
  {
    seq(|s|, i requires 0 <= i < |s| => if cond[i] then NaN else s[i])
  }

  /** Mask the numeric columns named in `names`, leaving the rest alone. */
  function MaskColumns(m: Cols, names: set<string>, cond: seq<bool>, n: nat): (r: Cols)
    requires Shaped(m, n) && |cond| == n
    ensures r.Keys == m.Keys && Shaped(r, n)
    ensures forall c :: c in m ==> r[c] == (if c in names then MaskCells(m[c], cond) else m[c])
  {
    map c | c in m :: if c in names then MaskCells(m[c], cond) else m[c]
  }

  /** `df.loc[cond, c] = vals`: cells where cond holds take the new value, the rest keep theirs. */
  function Overwrite(s: seq<Num>, cond: seq<bool>, vals: seq<Num>): (r: seq<Num>)
    requires |cond| == |s| && |vals| == |s|
    ensures |r| == |s| && forall i :: 0 <= i < |s| ==> r[i] == (if cond[i] then vals[i] else s[i])
  {
    seq(|s|, i requires 0 <= i < |s| => if cond[i] then vals[i] else s[i])
  }

  /** `col == x` as a boolean mask (NaN equals nothing). */
  function EqMask(col: seq<Num>, x: Num): (r: seq<bool>)
    ensures |r| == |col| && forall i :: 0 <= i < |col| ==> r[i] == Eq(col[i], x)
  {
    seq(|col|, i requires 0 <= i < |col| => Eq(col[i], x))
  }

  /** `col.isna()` */
  function NaNMask(col: seq<Num>): (r: seq<bool>)
    ensures |r| == |col| && forall i :: 0 <= i < |col| ==> r[i] == col[i].NaN?
  {
    seq(|col|, i requires 0 <= i < |col| => col[i].NaN?)
  }

  /** The contents of a frame at one moment: what the pure specifications talk about. */
  datatype Snapshot = Snapshot(num: Cols, text: map<string, seq<string>>, flag: map<string, seq<bool>>, nrows: nat)
  {
    predicate Valid()
    {
      && Shaped(num, nrows)
      && (forall c :: c in text ==> |text[c]| == nrows)
      && (forall c :: c in flag ==> |flag[c]| == nrows)
      && num.Keys !! text.Keys && num.Keys !! flag.Keys && text.Keys !! flag.Keys
    }

    predicate Has(c: string)
    {
      c in num || c in text || c in flag
    }

    /** `df[c] = col` for a floating-point column. */
    function WithNum(c: string, col: seq<Num>): (r: Snapshot)
      requires Valid() && |col| == nrows
      ensures r.Valid() && r.nrows == nrows && r.Has(c)
    {
      Snapshot(num[c := col], text - {c}, flag - {c}, nrows)
    }

    /** `df[c] = col` for a text column. */
    function WithText(c: string, col: seq<string>): (r: Snapshot)
      requires Valid() && |col| == nrows
      ensures r.Valid() && r.nrows == nrows && r.Has(c)
    {
      Snapshot(num - {c}, text[c := col], flag - {c}, nrows)
    }

    /** `df[c] = col` for a boolean column. */
    function WithFlag(c: string, col: seq<bool>): (r: Snapshot)
      requires Valid() && |col| == nrows
      ensures r.Valid() && r.nrows == nrows && r.Has(c)
    {
      Snapshot(num - {c}, text - {c}, flag[c := col], nrows)
    }

    /** `df.drop(columns=...)` of names that are all columns: the frame without them. */
    function Without(cs: set<string>): (r: Snapshot)
      requires Valid()
      ensures r.Valid() && r.nrows == nrows
      ensures forall c :: r.Has(c) <==> Has(c) && c !in cs
    {
      Snapshot(num - cs, text - cs, flag - cs, nrows)
    }

    /**
     * `df.rename(columns={src: dst})`: the column src, whatever its group, is
     * now called dst (replacing any column of that name); a src that is not a
     * column is ignored.
     */
    function Renamed(src: string, dst: string): (r: Snapshot)
      requires Valid()
      ensures r.Valid() && r.nrows == nrows
      ensures !Has(src) || src == dst ==> r == this
      ensures Has(src) && src != dst ==> !r.Has(src) && r.Has(dst)
      ensures src in num ==> dst in r.num && r.num[dst] == num[src]
      ensures forall c :: c != src && c != dst ==> (c in r.num <==> c in num) && (c in num ==> r.num[c] == num[c])
      ensures forall c :: c != src && c != dst ==> (r.Has(c) <==> Has(c))
    {
      if src == dst || !Has(src) then this
      else if src in num then Snapshot((num - {src})[dst := num[src]], text - {dst}, flag - {dst}, nrows)
      else if src in text then Snapshot(num - {dst}, (text - {src})[dst := text[src]], flag - {dst}, nrows)
      else Snapshot(num - {dst}, text - {dst}, (flag - {src})[dst := flag[src]], nrows)
    }

    /** The rows `perm`, in that order, of every column. */
    function Rows(perm: seq<nat>): (r: Snapshot)
      requires Valid() && forall k :: 0 <= k < |perm| ==> perm[k] < nrows
      ensures r.Valid() && r.nrows == |perm|
      ensures r.num.Keys == num.Keys && r.text.Keys == text.Keys && r.flag.Keys == flag.Keys
      ensures forall c :: c in num ==> r.num[c] == Pick(num[c], perm)
      ensures forall c :: c in text ==> r.text[c] == Pick(text[c], perm)
    {
      Snapshot(map c | c in num :: Pick(num[c], perm), map c | c in text :: Pick(text[c], perm),
               map c | c in flag :: Pick(flag[c], perm), |perm|)
    }
  }

  /** Writing column c several times leaves only the last write. */
  lemma WithNumTwice(v: Snapshot, c: string, a: seq<Num>, b: seq<Num>)
    requires v.Valid() && |a| == v.nrows && |b| == v.nrows
    ensures v.WithNum(c, a).WithNum(c, b) == v.WithNum(c, b)
  {
    assert v.num[c := a][c := b] == v.num[c := b];
    assert v.text - {c} - {c} == v.text - {c};
    assert v.flag - {c} - {c} == v.flag - {c};
  }

  /** Writing a numeric column back with its own cells changes nothing. */
  lemma WithNumSame(v: Snapshot, c: string)
    requires v.Valid() && c in v.num
    ensures v.WithNum(c, v.num[c]) == v
  {
    assert v.num[c := v.num[c]] == v.num;
    assert c !in v.text && c !in v.flag;
    assert v.text - {c} == v.text && v.flag - {c} == v.flag;
  }

  /** Two columns written twice, in turn (`df[a] = ...; df[b] = ...; df.loc[cond, [a, b]] = ...`), keep the second writes. */
  lemma WithNumPairTwice(v: Snapshot, a: string, b: string, a1: seq<Num>, b1: seq<Num>, a2: seq<Num>, b2: seq<Num>)
    requires v.Valid() && a != b
    requires |a1| == v.nrows && |b1| == v.nrows && |a2| == v.nrows && |b2| == v.nrows
    ensures v.WithNum(a, a1).WithNum(b, b1).WithNum(a, a2).WithNum(b, b2) == v.WithNum(a, a2).WithNum(b, b2)
  {
    assert v.num[a := a1][b := b1][a := a2][b := b2] == v.num[a := a2][b := b2];
    assert v.text - {a} - {b} - {a} - {b} == v.text - {a} - {b};
    assert v.flag - {a} - {b} - {a} - {b} == v.flag - {a} - {b};
  }

  /** The cells a masked `df.loc[cond, c] = ...` or a `pd.concat` starts from: the column, or NaN where it is new. */
  function Prior(v: Snapshot, c: string): (r: seq<Num>)
    requires v.Valid()
    ensures |r| == v.nrows
  {
    if c in v.num then v.num[c] else seq(v.nrows, _ => NaN)
  }

  class Frame {
    var num: map<string, seq<Num>>
    var text: map<string, seq<string>>
    var flag: map<string, seq<bool>>
    var nrows: nat

    ghost predicate Valid()
      reads this
    {
      Snap().Valid()
    }

    function Snap(): Snapshot
      reads this
    {
      Snapshot(num, text, flag, nrows)
    }

    /** `c in df.columns` */
    predicate Has(c: string)
      reads this
    {
      c in num || c in text || c in flag
    }

    constructor (num: map<string, seq<Num>>, text: map<string, seq<string>>, flag: map<string, seq<bool>>, nrows: nat)
      requires Shaped(num, nrows)
      requires (forall c :: c in text ==> |text[c]| == nrows) && (forall c :: c in flag ==> |flag[c]| == nrows)
      requires num.Keys !! text.Keys && num.Keys !! flag.Keys && text.Keys !! flag.Keys
      ensures Valid()
      ensures this.num == num && this.text == text && this.flag == flag && this.nrows == nrows
    {
      this.num, this.text, this.flag, this.nrows := num, text, flag, nrows;
    }

    /** `df[c] = col` for a floating-point column (replacing any column named c). */
    method SetNum(c: string, col: seq<Num>)
      requires Valid() && |col| == nrows
      modifies this
      ensures Valid() && nrows == old(nrows)
      ensures num == old(num)[c := col] && text == old(text) - {c} && flag == old(flag) - {c}
      ensures Snap() == old(Snap()).WithNum(c, col)
    {
      num := num[c := col];
      text := text - {c};
      flag := flag - {c};
    }

    /** `df[c] = col` for a text column. */
    method SetText(c: string, col: seq<string>)
      requires Valid() && |col| == nrows
      modifies this
      ensures Valid() && nrows == old(nrows)
      ensures text == old(text)[c := col] && num == old(num) - {c} && flag == old(flag) - {c}
      ensures Snap() == old(Snap()).WithText(c, col)
    {
      text := text[c := col];
      num := num - {c};
      flag := flag - {c};
    }

    /** `df[c] = col` for a boolean column. */
    method SetFlag(c: string, col: seq<bool>)
      requires Valid() && |col| == nrows
      modifies this
      ensures Valid() && nrows == old(nrows)
      ensures flag == old(flag)[c := col] && num == old(num) - {c} && text == old(text) - {c}
      ensures Snap() == old(Snap()).WithFlag(c, col)
    {
      flag := flag[c := col];
      num := num - {c};
      text := text - {c};
    }

    /** Replace the numeric columns wholesale (same names for the other groups). */
    method SetNumColumns(m: Cols)
      requires Valid() && Shaped(m, nrows) && m.Keys !! text.Keys && m.Keys !! flag.Keys
      modifies this
      ensures Valid() && num == m && text == old(text) && flag == old(flag) && nrows == old(nrows)
    {
      num := m;
    }

    /** `df = df.drop(columns=cs)` */
    method Drop(cs: set<string>)
      requires Valid()
      modifies this
      ensures Valid() && Snap() == old(Snap()).Without(cs)
    {
      num, text, flag := num - cs, text - cs, flag - cs;
    }

    /** `df = df.rename(columns={src: dst})` */
    method Rename(src: string, dst: string)
      requires Valid()
      modifies this
      ensures Valid() && Snap() == old(Snap()).Renamed(src, dst)
    {
      if src == dst || !Has(src) {
        return;
      }
      if src in num {
        num, text, flag := (num - {src})[dst := num[src]], text - {dst}, flag - {dst};
      } else if src in text {
        num, text, flag := num - {dst}, (text - {src})[dst := text[src]], flag - {dst};
      } else {
        num, text, flag := num - {dst}, text - {dst}, (flag - {src})[dst := flag[src]];
      }
    }

    /** Keep the rows `perm` in that order, in every column (`pd.concat` of row subsets). */
    method Reorder(perm: seq<nat>)
      requires Valid() && forall k :: 0 <= k < |perm| ==> perm[k] < nrows
      modifies this
      ensures Valid() && nrows == |perm|
      ensures num.Keys == old(num.Keys) && text.Keys == old(text.Keys) && flag.Keys == old(flag.Keys)
      ensures forall c :: c in num ==> num[c] == Pick(old(num[c]), perm)
      ensures forall c :: c in text ==> text[c] == Pick(old(text[c]), perm)
      ensures forall c :: c in flag ==> flag[c] == Pick(old(flag[c]), perm)
      ensures Snap() == old(Snap()).Rows(perm)
    {
      num := map c | c in num :: Pick(num[c], perm);
      text := map c | c in text :: Pick(text[c], perm);
      flag := map c | c in flag :: Pick(flag[c], perm);
      nrows := |perm|;
    }
  }
}
