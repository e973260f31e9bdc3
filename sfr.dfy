/**
 * `sfr_fn` and `compute_SFR` of spaxelsleuth/utils/linefns.py: the star
 * formation rate from the H-alpha luminosity (Calzetti 2013), written only
 * in the rows the BPT classification calls star-forming.
 */
module Sfr {
  import opened Numeric
  import opened Outcomes
  import opened Table
  import Classify

  /** SFR per unit H-alpha luminosity, Calzetti (2013). */
  const CalzettiFactor: real := 5.5e-42

  function LumColumn(s: string): string { "HALPHA luminosity" + s }
  function LumErrColumn(s: string): string { "HALPHA luminosity error" + s }
  function SfrColumn(s: string): string { "SFR" + s }
  function SfrErrColumn(s: string): string { "SFR error" + s }

  /** The rows whose BPT code is 0 (star-forming); NaN codes compare false. */
  function StarForming(bpt: seq<Num>): (sf: seq<bool>)
    ensures |sf| == |bpt|
  {
    seq(|bpt|, i requires 0 <= i < |bpt| => Eq(bpt[i], Val(0.0)))
  }

  /** `df.loc[sf, c] = x[sf] * 5.5e-42` */
  function Gated(prior: seq<Num>, x: seq<Num>, sf: seq<bool>): (r: seq<Num>)
    requires |prior| == |x| == |sf|
    ensures |r| == |prior|
  {
    seq(|prior|, i requires 0 <= i < |prior| => if sf[i] then Mul(x[i], Val(CalzettiFactor)) else prior[i])
  }

  /**
   * What `sfr_fn` leaves behind. It does nothing unless both the luminosity
   * and the BPT code are there; the SFR is written before the luminosity
   * error is looked up, so a missing error column raises after that write.
   */
  function SfrSpec(v: Snapshot, s: string): (r: (Outcome, Snapshot))
    requires v.Valid()
    ensures r.1.Valid() && r.1.nrows == v.nrows
  {
    var lum, bpt, lumErr := LumColumn(s), Classify.BptColumn(s), LumErrColumn(s);
    if !(v.Has(lum) && v.Has(bpt)) then (Pass, v)
    else if lum !in v.num then (Fail(TypeError(lum)), v)
    else if bpt !in v.num then (Fail(TypeError(bpt)), v)
    else
      var sf := StarForming(v.num[bpt]);
      var w := v.WithNum(SfrColumn(s), Gated(Prior(v, SfrColumn(s)), v.num[lum], sf));
      if !w.Has(lumErr) then (Fail(KeyError(lumErr)), w)
      else if lumErr !in w.num then (Fail(TypeError(lumErr)), w)
      else (Pass, w.WithNum(SfrErrColumn(s), Gated(Prior(w, SfrErrColumn(s)), w.num[lumErr], sf)))
  }

  method SfrFn(df: Frame, s: string) returns (status: Outcome)
    requires df.Valid()
    modifies df
    ensures df.Valid()
    ensures (status, df.Snap()) == SfrSpec(old(df.Snap()), s)
  {
    var lum, bpt, lumErr := LumColumn(s), Classify.BptColumn(s), LumErrColumn(s);
    if !(df.Has(lum) && df.Has(bpt)) {
      return Pass;
    }
    if lum !in df.num {
      return Fail(TypeError(lum));
    }
    if bpt !in df.num {
      return Fail(TypeError(bpt));
    }
    var sf := StarForming(df.num[bpt]);
    df.SetNum(SfrColumn(s), Gated(Prior(df.Snap(), SfrColumn(s)), df.num[lum], sf));
    if !df.Has(lumErr) {
      return Fail(KeyError(lumErr));
    }
    if lumErr !in df.num {
      return Fail(TypeError(lumErr));
    }
    df.SetNum(SfrErrColumn(s), Gated(Prior(df.Snap(), SfrErrColumn(s)), df.num[lumErr], sf));
    status := Pass;
  }

  /**
   * After a successful `sfr_fn`, the star-forming rows hold 5.5e-42 times
   * the luminosity and its error, every other row keeps its previous SFR
   * (NaN if there was none), and no other numeric column changes.
   */
  lemma SfrOnlyStarForming(v: Snapshot, s: string)
    requires v.Valid() && SfrSpec(v, s).0 == Pass
    requires v.Has(LumColumn(s)) && v.Has(Classify.BptColumn(s))
    ensures var w := SfrSpec(v, s).1;
      && SfrColumn(s) in w.num && SfrErrColumn(s) in w.num
      && (forall i :: 0 <= i < v.nrows ==>
            if Eq(v.num[Classify.BptColumn(s)][i], Val(0.0)) then
              && w.num[SfrColumn(s)][i] == Mul(v.num[LumColumn(s)][i], Val(CalzettiFactor))
              && w.num[SfrErrColumn(s)][i] == Mul(v.num[LumErrColumn(s)][i], Val(CalzettiFactor))
            else
              && w.num[SfrColumn(s)][i] == Prior(v, SfrColumn(s))[i]
              && w.num[SfrErrColumn(s)][i] == Prior(v, SfrErrColumn(s))[i])
      && (forall c :: c in v.num && c != SfrColumn(s) && c != SfrErrColumn(s) ==> c in w.num && w.num[c] == v.num[c])
  {
  }

  /** Without both the luminosity and the BPT code the frame is left alone. */
  lemma SfrNeedsInputs(v: Snapshot, s: string)
    requires v.Valid() && !(v.Has(LumColumn(s)) && v.Has(Classify.BptColumn(s)))
    ensures SfrSpec(v, s) == (Pass, v)
  {
  }

  /** Gating twice on the same rows with the same values is gating once. */
  lemma GatedTwice(prior: seq<Num>, x: seq<Num>, sf: seq<bool>)
    requires |prior| == |x| == |sf|
    ensures Gated(Gated(prior, x, sf), x, sf) == Gated(prior, x, sf)
  {
  }

  /** A second `sfr_fn` with the same suffix changes nothing. */
  lemma SfrIdempotent(v: Snapshot, s: string)
    requires v.Valid() && SfrSpec(v, s).0 == Pass
    ensures SfrSpec(SfrSpec(v, s).1, s) == SfrSpec(v, s)
  {
    var w := SfrSpec(v, s).1;
    if v.Has(LumColumn(s)) && v.Has(Classify.BptColumn(s)) {
      NamesDistinct(s);
      var lum, bpt, lumErr := LumColumn(s), Classify.BptColumn(s), LumErrColumn(s);
      var sf := StarForming(v.num[bpt]);
      var w1 := v.WithNum(SfrColumn(s), Gated(Prior(v, SfrColumn(s)), v.num[lum], sf));
      assert w == w1.WithNum(SfrErrColumn(s), Gated(Prior(w1, SfrErrColumn(s)), w1.num[lumErr], sf));
      assert w.num[lum] == v.num[lum] && w.num[bpt] == v.num[bpt] && w.num[lumErr] == v.num[lumErr];
      assert Prior(w, SfrColumn(s)) == Gated(Prior(v, SfrColumn(s)), v.num[lum], sf);
      GatedTwice(Prior(v, SfrColumn(s)), v.num[lum], sf);
      WithNumSame(w, SfrColumn(s));
      assert Prior(w, SfrErrColumn(s)) == Gated(Prior(w1, SfrErrColumn(s)), w1.num[lumErr], sf);
      GatedTwice(Prior(w1, SfrErrColumn(s)), w1.num[lumErr], sf);
      WithNumSame(w, SfrErrColumn(s));
    }
  }

  /** The columns `sfr_fn` reads and the two it writes are six different names. */
  lemma NamesDistinct(s: string)
    ensures SfrColumn(s) != LumColumn(s) && SfrColumn(s) != LumErrColumn(s) && SfrColumn(s) != Classify.BptColumn(s)
    ensures SfrErrColumn(s) != LumColumn(s) && SfrErrColumn(s) != LumErrColumn(s) && SfrErrColumn(s) != Classify.BptColumn(s)
    ensures SfrColumn(s) != SfrErrColumn(s) && LumColumn(s) != LumErrColumn(s)
  {
    assert SfrColumn(s)[0] == 'S' && SfrErrColumn(s)[0] == 'S';
    assert LumColumn(s)[0] == 'H' && LumErrColumn(s)[0] == 'H' && Classify.BptColumn(s)[0] == 'B';
    assert |SfrColumn(s)| + 6 == |SfrErrColumn(s)|;
    assert |LumColumn(s)| + 6 == |LumErrColumn(s)|;
  }

  // ---- compute_SFR ----

  /** The decimal digits of a natural number. */
  function NatText(k: nat): (r: string)
    ensures |r| >= 1
  {
    if k < 10 then ["0123456789"[k]] else NatText(k / 10) + ["0123456789"[k % 10]]
  }

  /** The suffixes `compute_SFR` runs `sfr_fn` with: the total, then each component from 1. */
  function SfrSuffixes(ncomponents: nat): (r: seq<string>)
    ensures |r| == ncomponents + 1 && r[0] == " (total)"
    ensures forall k :: 1 <= k <= ncomponents ==> r[k] == " (component " + NatText(k) + ")"
  {
    [" (total)"] + seq(ncomponents, k requires 0 <= k < ncomponents => " (component " + NatText(k + 1) + ")")
  }

  /** `sfr_fn` once per suffix, stopping at the first exception. */
  function SfrAll(v: Snapshot, suffixes: seq<string>): (r: (Outcome, Snapshot))
    requires v.Valid()
    ensures r.1.Valid() && r.1.nrows == v.nrows
    decreases |suffixes|
  {
    if suffixes == [] then (Pass, v)
    else
      var (status, w) := SfrSpec(v, suffixes[0]);
      if status.Fail? then (status, w) else SfrAll(w, suffixes[1..])
  }

  method ComputeSfr(df: Frame, ncomponents: nat) returns (status: Outcome)
    requires df.Valid()
    modifies df
    ensures df.Valid()
    ensures (status, df.Snap()) == SfrAll(old(df.Snap()), SfrSuffixes(ncomponents))
  {
    var suffixes := SfrSuffixes(ncomponents);
    var i := 0;
    while i < |suffixes|
      invariant 0 <= i <= |suffixes| && df.Valid()
      invariant SfrAll(old(df.Snap()), suffixes) == SfrAll(df.Snap(), suffixes[i..])
    {
      assert suffixes[i..][1..] == suffixes[i + 1..];
      status := SfrFn(df, suffixes[i]);
      if status.Fail? {
        return;
      }
      i := i + 1;
    }
    status := Pass;
  }

  /** `compute_SFR` only ever writes SFR columns: every other numeric column is kept. */
  lemma {:induction false} SfrAllKeepsOthers(v: Snapshot, suffixes: seq<string>)
    requires v.Valid()
    ensures forall c :: c in v.num && (forall s :: s in suffixes ==> c != SfrColumn(s) && c != SfrErrColumn(s)) ==>
      c in SfrAll(v, suffixes).1.num && SfrAll(v, suffixes).1.num[c] == v.num[c]
    decreases |suffixes|
  {
    if suffixes != [] {
      var w := SfrSpec(v, suffixes[0]).1;
      SfrKeepsOthers(v, suffixes[0]);
      SfrAllKeepsOthers(w, suffixes[1..]);
      forall c | c in v.num && (forall s :: s in suffixes ==> c != SfrColumn(s) && c != SfrErrColumn(s))
        ensures c in SfrAll(v, suffixes).1.num && SfrAll(v, suffixes).1.num[c] == v.num[c]
      {
        assert forall s :: s in suffixes[1..] ==> s in suffixes;
      }
    }
  }

  /** One `sfr_fn`, successful or not, changes no numeric column but its own two. */
  lemma SfrKeepsOthers(v: Snapshot, s: string)
    requires v.Valid()
    ensures forall c :: c in v.num && c != SfrColumn(s) && c != SfrErrColumn(s) ==>
      c in SfrSpec(v, s).1.num && SfrSpec(v, s).1.num[c] == v.num[c]
  {
  }
}
