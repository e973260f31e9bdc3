/**
 * The two bounded fixed-point iterations of `_get_metallicity`
 * (utils/metallicity.py), for one row: Kewley (2019) metallicity with a
 * self-consistent log U, and the R23 calibration of Kobulnicky & Kewley
 * (2004) with a self-consistent log q. Both run
 *
 *     for n in range(max_niters):
 *         new = pass(old)
 *         if settled(new, old): break
 *         old = new
 *
 * and then read `new`, which is unbound when `max_niters` is 0.
 */
module MetIteration {
  import opened Numeric
  import opened Outcomes
  import opened MetTables
  import opened Calibrations

  /** The loop state of one row: (log(O/H) + 12, log U) for K19, (log(O/H) + 12, log q) for KK04. */
  type ZU = (Num, Num)

  // ---- The loop shape, for any state ----

  /** The state after m passes of `step` from s. */
  function Nth<S>(step: S -> S, s: S, m: nat): S
  {
    if m == 0 then s else Nth(step, step(s), m - 1)
  }

  /** The value `new` holds when a loop of at most k >= 1 passes from s ends. */
  function Loop<S>(step: S -> S, settled: (S, S) -> bool, s: S, k: nat): S
    requires k >= 1
    decreases k
  {
    var t := step(s);
    if settled(t, s) || k == 1 then t else Loop(step, settled, t, k - 1)
  }

  /** How many passes that loop makes. */
  function Passes<S>(step: S -> S, settled: (S, S) -> bool, s: S, k: nat): nat
    requires k >= 1
    decreases k
  {
    if settled(step(s), s) || k == 1 then 1 else 1 + Passes(step, settled, step(s), k - 1)
  }

  /**
   * The loop makes at most k passes, stops at the first pass whose result is
   * settled with respect to the state before it (or after the k-th pass), and
   * leaves the state that pass computed.
   */
  lemma {:induction false} LoopStopsAtFirstSettled<S>(step: S -> S, settled: (S, S) -> bool, s: S, k: nat)
    requires k >= 1
    ensures 1 <= Passes(step, settled, s, k) <= k
    ensures Loop(step, settled, s, k) == Nth(step, s, Passes(step, settled, s, k))
    ensures forall m :: 1 <= m < Passes(step, settled, s, k) ==> !settled(Nth(step, s, m), Nth(step, s, m - 1))
    ensures Passes(step, settled, s, k) < k ==> settled(Nth(step, s, Passes(step, settled, s, k)), Nth(step, s, Passes(step, settled, s, k) - 1))
    decreases k
  {
    var t := step(s);
    assert Nth(step, s, 1) == t;
    if !(settled(t, s) || k == 1) {
      LoopStopsAtFirstSettled(step, settled, t, k - 1);
      var n := Passes(step, settled, t, k - 1);
      assert Nth(step, s, n + 1) == Nth(step, t, n);
      forall m | 1 <= m < n + 1
        ensures !settled(Nth(step, s, m), Nth(step, s, m - 1))
      {
        if m > 1 {
          assert Nth(step, s, m) == Nth(step, t, m - 1);
          assert Nth(step, s, m - 1) == Nth(step, t, m - 2);
        }
      }
      assert Nth(step, s, n) == Nth(step, t, n - 1);
    }
  }

  /**
   * The loop itself, on the state `old` of one row. `last` is `new` after
   * the loop, None while it has never been bound.
   */
  method Iterate<S>(step: S -> S, settled: (S, S) -> bool, seed: S, maxIters: nat) returns (last: Option<S>)
    ensures maxIters == 0 ==> last.None?
    ensures maxIters >= 1 ==> last == Some(Loop(step, settled, seed, maxIters))
  {
    var before, after := seed, seed;
    var bound := false;
    var n := 0;
    while n < maxIters
      invariant 0 <= n <= maxIters
      invariant bound <==> n > 0
      invariant n < maxIters ==> Loop(step, settled, before, maxIters - n) == Loop(step, settled, seed, maxIters)
      invariant n == maxIters > 0 ==> after == Loop(step, settled, seed, maxIters)
    {
      after := step(before);
      bound := true;
      if settled(after, before) {
        break;
      }
      before := after;
      n := n + 1;
    }
    if !bound {
      return None;
    }
    return Some(after);
  }

  // ---- Kewley (2019): (Z, U) from Z = 8.0, U = -3.0 ----

  /** One pass: U from the ionisation cubic at the old Z, then Z from the metallicity cubic at that U. */
  function K19Pass(met: Cubic, ion: Cubic, xm: Num, xi: Num, s: (Num, Num)): (Num, Num)
  {
    var u := EvalCubic(ion, xi, s.0);
    (EvalCubic(met, xm, u), u)
  }

  function K19Step(met: Cubic, ion: Cubic, xm: Num, xi: Num): ZU -> ZU
  {
    s => K19Pass(met, ion, xm, xi, s)
  }

  /** `abs(dZ) < 0.001 and abs(dU) < 0.001` */
  predicate K19Settled(t: (Num, Num), s: (Num, Num))
  {
    Lt(Abs(Sub(t.0, s.0)), Val(0.001)) && Lt(Abs(Sub(t.1, s.1)), Val(0.001))
  }


  const K19Seed: (Num, Num) := (Val(8.0), Val(-3.0))

  /** The (Z, U) one row ends with; with no pass at all `logOH12_new` is never bound. */
  function K19Solve(met: Cubic, ion: Cubic, xm: Num, xi: Num, maxIters: nat): Result<(Num, Num)>
  {
    if maxIters == 0 then Failure(NameError("logOH12_new"))
    else Success(Loop(K19Step(met, ion, xm, xi), K19Settled, K19Seed, maxIters))
  }

  /** The K19 loop of one row: `Iterate` with the K19 pass and test, from (8.0, -3.0). */
  method K19Iterate(met: Cubic, ion: Cubic, xm: Num, xi: Num, maxIters: nat) returns (r: Result<(Num, Num)>)
    ensures r == K19Solve(met, ion, xm, xi, maxIters)
  {
    var last := Iterate(K19Step(met, ion, xm, xi), K19Settled, K19Seed, maxIters);
    if last.None? {
      return Failure(NameError("logOH12_new"));
    }
    return Success(last.value);
  }

  /**
   * The K19 iteration starts from (8.0, -3.0), makes at most `max_niters`
   * passes, stops at the first pass that moves both Z and U by less than
   * 0.001, and returns the pair that pass computed.
   */
  lemma K19Stops(met: Cubic, ion: Cubic, xm: Num, xi: Num, maxIters: nat)
    requires maxIters >= 1
    ensures var n := Passes(K19Step(met, ion, xm, xi), K19Settled, K19Seed, maxIters);
      && 1 <= n <= maxIters
      && K19Solve(met, ion, xm, xi, maxIters) == Success(Nth(K19Step(met, ion, xm, xi), K19Seed, n))
      && (forall m :: 1 <= m < n ==>
            !K19Settled(Nth(K19Step(met, ion, xm, xi), K19Seed, m), Nth(K19Step(met, ion, xm, xi), K19Seed, m - 1)))
      && (n < maxIters ==>
            K19Settled(Nth(K19Step(met, ion, xm, xi), K19Seed, n), Nth(K19Step(met, ion, xm, xi), K19Seed, n - 1)))
  {
    LoopStopsAtFirstSettled(K19Step(met, ion, xm, xi), K19Settled, K19Seed, maxIters);
  }

  // ---- R23, Kobulnicky & Kewley (2004): (Z, log q) from a seed picked by [NII]/[OII] ----

  /** The seed: 8.2 on the lower branch (log([NII]/[OII]) < -1.2), 8.7 otherwise. */
  function KK04Seed(n2o2: Num): real
  {
    if Lt(n2o2, Val(-1.2)) then 8.2 else 8.7
  }

  /** The branch formula the row uses, fixed by the same test as the seed. */
  function KK04Branch(n2o2: Num, r23: Num, q: Num): Num
  {
    if Lt(n2o2, Val(-1.2)) then KK04Lower(r23, q) else KK04Upper(r23, q)
  }

  /** One pass: log q at the old Z, then Z at that log q. The state is (Z, log q). */
  function KK04Pass(n2o2: Num, o3o2: Num, r23: Num, s: (Num, Num)): (Num, Num)
  {
    var q := KK04LogQ(o3o2, s.0);
    (KK04Branch(n2o2, r23, q), q)
  }

  function KK04Step(n2o2: Num, o3o2: Num, r23: Num): ZU -> ZU
  {
    s => KK04Pass(n2o2, o3o2, r23, s)
  }

  /** `abs(dZ) < 0.001`: log q plays no part in the test. */
  predicate KK04Settled(t: (Num, Num), s: (Num, Num))
  {
    Lt(Abs(Sub(t.0, s.0)), Val(0.001))
  }


  /** The row result: Z and log U = log q - log c. */
  function KK04Solve(n2o2: Num, o3o2: Num, r23: Num, maxIters: nat): Result<(Num, Num)>
  {
    if maxIters == 0 then Failure(NameError("logOH12_new"))
    else
      var zq := Loop(KK04Step(n2o2, o3o2, r23), KK04Settled, (Val(KK04Seed(n2o2)), NaN), maxIters);
      Success((zq.0, Sub(zq.1, Val(LogC))))
  }

  /** The KK04 loop of one row: `Iterate` with the KK04 pass and test, from the row's seed. */
  method KK04Iterate(n2o2: Num, o3o2: Num, r23: Num, maxIters: nat) returns (r: Result<(Num, Num)>)
    ensures r == KK04Solve(n2o2, o3o2, r23, maxIters)
  {
    var last := Iterate(KK04Step(n2o2, o3o2, r23), KK04Settled, (Val(KK04Seed(n2o2)), NaN), maxIters);
    if last.None? {
      return Failure(NameError("logOH12_new"));
    }
    return Success((last.value.0, Sub(last.value.1, Val(LogC))));
  }

  /**
   * The KK04 iteration starts from its seed, makes at most `max_niters`
   * passes and returns the Z and log q - log c of the last pass it made.
   */
  lemma KK04Stops(n2o2: Num, o3o2: Num, r23: Num, maxIters: nat)
    requires maxIters >= 1
    ensures var step, seed := KK04Step(n2o2, o3o2, r23), (Val(KK04Seed(n2o2)), NaN);
      var n := Passes(step, KK04Settled, seed, maxIters);
      && 1 <= n <= maxIters
      && KK04Solve(n2o2, o3o2, r23, maxIters) == Success((Nth(step, seed, n).0, Sub(Nth(step, seed, n).1, Val(LogC))))
  {
    LoopStopsAtFirstSettled(KK04Step(n2o2, o3o2, r23), KK04Settled, (Val(KK04Seed(n2o2)), NaN), maxIters);
  }

  /** No pass before the last one moves Z by less than 0.001, whatever log q does. */
  lemma KK04UnsettledBefore(n2o2: Num, o3o2: Num, r23: Num, maxIters: nat, m: nat)
    requires maxIters >= 1
    requires 1 <= m < Passes(KK04Step(n2o2, o3o2, r23), KK04Settled, (Val(KK04Seed(n2o2)), NaN), maxIters)
    ensures var step, seed := KK04Step(n2o2, o3o2, r23), (Val(KK04Seed(n2o2)), NaN);
      !KK04Settled(Nth(step, seed, m), Nth(step, seed, m - 1))
  {
    LoopStopsAtFirstSettled(KK04Step(n2o2, o3o2, r23), KK04Settled, (Val(KK04Seed(n2o2)), NaN), maxIters);
  }

  /** The last pass moves Z by less than 0.001, unless the loop ran out of passes. */
  lemma KK04SettledAtEnd(n2o2: Num, o3o2: Num, r23: Num, maxIters: nat)
    requires maxIters >= 1
    ensures var step, seed := KK04Step(n2o2, o3o2, r23), (Val(KK04Seed(n2o2)), NaN);
      var n := Passes(step, KK04Settled, seed, maxIters);
      n < maxIters ==> n >= 1 && KK04Settled(Nth(step, seed, n), Nth(step, seed, n - 1))
  {
    LoopStopsAtFirstSettled(KK04Step(n2o2, o3o2, r23), KK04Settled, (Val(KK04Seed(n2o2)), NaN), maxIters);
  }

  /** Every pass of a KK04 row uses the branch its seed was picked for: 8.2 with the lower formula, 8.7 with the upper. */
  lemma KK04SeedMatchesBranch(n2o2: Num, o3o2: Num, r23: Num, s: (Num, Num))
    ensures KK04Seed(n2o2) == 8.2 <==> Lt(n2o2, Val(-1.2))
    ensures Lt(n2o2, Val(-1.2)) ==> KK04Pass(n2o2, o3o2, r23, s).0 == KK04Lower(r23, KK04LogQ(o3o2, s.0))
    ensures !Lt(n2o2, Val(-1.2)) ==> KK04Pass(n2o2, o3o2, r23, s).0 == KK04Upper(r23, KK04LogQ(o3o2, s.0))
  {
  }
}
