/**
 * Sequential carve-out of table rows, the pattern `bpt_fn` and `law2021_fn`
 * of spaxelsleuth/utils/linefns.py follow: the rows satisfying the first
 * condition are taken out of the pool, the next condition is applied to what
 * is left, and so on; whatever survives every condition forms the last group.
 * The groups are then concatenated (`pd.concat`) in the order they were made.
 *
 * Rows are named by their position in the original frame.
 */
module Carve {

  /** The row positions 0, 1, ..., n - 1. */
  function Range(n: nat): (r: seq<nat>)
    ensures |r| == n && forall k :: 0 <= k < n ==> r[k] == k
  {
    seq(n, k => k)
  }

  /** `df[cond]`: the rows of `s` satisfying p, in their original order. */
  function Filter(s: seq<nat>, p: nat -> bool): (r: seq<nat>)
    ensures |r| <= |s|
  {
    if s == [] then []
    else Filter(s[..|s| - 1], p) + (if p(s[|s| - 1]) then [s[|s| - 1]] else [])
  }

  /** The rows `df[cond]` keeps are exactly those of `s` satisfying the condition. */
  lemma {:induction false} FilterMembers(s: seq<nat>, p: nat -> bool)
    ensures forall x :: x in Filter(s, p) <==> x in s && p(x)
  {
    if s != [] {
      FilterMembers(s[..|s| - 1], p);
      assert forall x :: x in s <==> x in s[..|s| - 1] || x == s[|s| - 1];
    }
  }

  /** `~cond` */
  function Not(p: nat -> bool): nat -> bool
  {
    (i: nat) => !p(i)
  }

  /** The index of the first condition from `from` on that a row satisfies, or |ps| when it satisfies none. */
  function FirstStage(ps: seq<nat -> bool>, i: nat, from: nat): (r: nat)
    ensures r <= |ps| && (from <= |ps| ==> from <= r)
    decreases |ps| - from
  {
    if from >= |ps| then |ps|
    else if ps[from](i) then from
    else FirstStage(ps, i, from + 1)
  }

  function StageIs(ps: seq<nat -> bool>, from: nat, j: nat): nat -> bool
  {
    (i: nat) => FirstStage(ps, i, from) == j
  }

  /** The groups the carve-out produces from condition `from` on: one per condition, then the remainder. */
  function Carving(pool: seq<nat>, ps: seq<nat -> bool>, from: nat): seq<seq<nat>>
    decreases |ps| - from
  {
    if from >= |ps| then [pool]
    else [Filter(pool, ps[from])] + Carving(Filter(pool, Not(ps[from])), ps, from + 1)
  }

  function Flatten(groups: seq<seq<nat>>): seq<nat>
  {
    if groups == [] then [] else Flatten(groups[..|groups| - 1]) + groups[|groups| - 1]
  }

  /** The label of each row of the concatenation: `tag(j)` for the rows of group j. */
  function Tags<T>(groups: seq<seq<nat>>, tag: nat -> T): (r: seq<T>)
    ensures |r| == |Flatten(groups)|
  {
    if groups == [] then []
    else Tags(groups[..|groups| - 1], tag) + seq(|groups[|groups| - 1]|, _ => tag(|groups| - 1))
  }

  // ---- Filter laws ----

  lemma {:induction false} FilterExt(s: seq<nat>, p: nat -> bool, q: nat -> bool)
    requires forall i :: i in s ==> p(i) == q(i)
    ensures Filter(s, p) == Filter(s, q)
  {
    if s != [] {
      FilterExt(s[..|s| - 1], p, q);
    }
  }

  lemma {:induction false} FilterFilter(s: seq<nat>, p: nat -> bool, q: nat -> bool, r: nat -> bool)
    requires forall i :: i in s ==> r(i) == (p(i) && q(i))
    ensures Filter(Filter(s, p), q) == Filter(s, r)
  {
    if s != [] {
      var init, last := s[..|s| - 1], s[|s| - 1];
      FilterFilter(init, p, q, r);
      if p(last) {
        assert Filter(s, p)[..|Filter(s, p)| - 1] == Filter(init, p);
      } else {
        assert Filter(s, p) == Filter(init, p);
      }
    }
  }

  /** `df[cond]` and `df[~cond]` split the rows between them. */
  lemma {:induction false} FilterPartition(s: seq<nat>, p: nat -> bool)
    ensures multiset(Filter(s, p)) + multiset(Filter(s, Not(p))) == multiset(s)
  {
    if s != [] {
      var init := s[..|s| - 1];
      FilterPartition(init, p);
      assert s == init + [s[|s| - 1]];
    }
  }

  /** Strictly increasing row positions, as every filter of the positions 0..n-1 is. */
  predicate Increasing(s: seq<nat>)
  {
    forall i, j :: 0 <= i < j < |s| ==> s[i] < s[j]
  }

  lemma {:induction false} FilterIncreasing(s: seq<nat>, p: nat -> bool)
    requires Increasing(s)
    ensures Increasing(Filter(s, p))
  {
    if s != [] {
      var init, last := s[..|s| - 1], s[|s| - 1];
      FilterIncreasing(init, p);
      FilterMembers(init, p);
      var fi := Filter(init, p);
      forall x | x in fi
        ensures x < last
      {
        var k :| 0 <= k < |init| && init[k] == x;
        assert s[k] == x;
      }
      if p(last) {
        var f := Filter(s, p);
        assert f == fi + [last];
        forall i, j | 0 <= i < j < |f|
          ensures f[i] < f[j]
        {
          if j == |fi| {
            assert f[i] == fi[i] && fi[i] in fi;
          }
        }
      }
    }
  }

  /** The labels a filter of the row positions keeps: increasing, in range, and exactly those satisfying p. */
  lemma RowFilter(n: nat, p: nat -> bool)
    ensures Increasing(Filter(Range(n), p))
    ensures forall x: nat :: x in Filter(Range(n), p) <==> x < n && p(x)
    ensures forall k :: 0 <= k < |Filter(Range(n), p)| ==> Filter(Range(n), p)[k] < n
  {
    FilterIncreasing(Range(n), p);
    FilterMembers(Range(n), p);
    forall x: nat | x < n
      ensures x in Range(n)
    {
      assert Range(n)[x] == x;
    }
    forall k | 0 <= k < |Filter(Range(n), p)|
      ensures Filter(Range(n), p)[k] < n
    {
      assert Filter(Range(n), p)[k] in Filter(Range(n), p);
    }
  }

  lemma RangeMembers(n: nat)
    ensures forall x :: x in Range(n) ==> x < n
  {
  }

  // ---- The carve-out ----

  /**
   * Group j of the carve-out holds exactly the rows whose first satisfied
   * condition is the j-th, and the remainder the rows that satisfy none, each
   * in its original order.
   */
  lemma {:induction false} CarvingGroups(pool: seq<nat>, ps: seq<nat -> bool>, from: nat)
    requires from <= |ps|
    ensures |Carving(pool, ps, from)| == |ps| - from + 1
    ensures forall j :: from <= j <= |ps| ==> Carving(pool, ps, from)[j - from] == Filter(pool, StageIs(ps, from, j))
    decreases |ps| - from
  {
    if from == |ps| {
      FilterExt(pool, StageIs(ps, from, from), _ => true);
      AllPass(pool);
    } else {
      var rest := Filter(pool, Not(ps[from]));
      CarvingGroups(rest, ps, from + 1);
      FilterExt(pool, ps[from], StageIs(ps, from, from));
      forall j | from + 1 <= j <= |ps|
        ensures Carving(pool, ps, from)[j - from] == Filter(pool, StageIs(ps, from, j))
      {
        LaterGroup(pool, ps, from, j);
      }
    }
  }

  /** Groups that match the carve-out's groups one by one are the carve-out. */
  lemma CarvingIs(pool: seq<nat>, ps: seq<nat -> bool>, groups: seq<seq<nat>>)
    requires |groups| == |ps| + 1
    requires forall j :: 0 <= j <= |ps| ==> groups[j] == Filter(pool, StageIs(ps, 0, j))
    ensures Carving(pool, ps, 0) == groups
  {
    CarvingGroups(pool, ps, 0);
  }

  /** One step of the induction above: a later group is carved from what condition `from` left. */
  lemma LaterGroup(pool: seq<nat>, ps: seq<nat -> bool>, from: nat, j: nat)
    requires from < j <= |ps| && |Carving(Filter(pool, Not(ps[from])), ps, from + 1)| == |ps| - from
    requires Carving(Filter(pool, Not(ps[from])), ps, from + 1)[j - from - 1] == Filter(Filter(pool, Not(ps[from])), StageIs(ps, from + 1, j))
    ensures Carving(pool, ps, from)[j - from] == Filter(pool, StageIs(ps, from, j))
  {
    CarvingTail(pool, ps, from, j);
    forall i | i in pool
      ensures StageIs(ps, from, j)(i) == (Not(ps[from])(i) && StageIs(ps, from + 1, j)(i))
    {
      StageAfter(ps, from, j, i);
    }
    FilterFilter(pool, Not(ps[from]), StageIs(ps, from + 1, j), StageIs(ps, from, j));
  }

  /** Past the first condition, the groups are those carved from what it left. */
  lemma CarvingTail(pool: seq<nat>, ps: seq<nat -> bool>, from: nat, j: nat)
    requires from < j <= |ps| && |Carving(Filter(pool, Not(ps[from])), ps, from + 1)| == |ps| - from
    ensures Carving(pool, ps, from)[j - from] == Carving(Filter(pool, Not(ps[from])), ps, from + 1)[j - from - 1]
  {
    var rest := Carving(Filter(pool, Not(ps[from])), ps, from + 1);
    assert Carving(pool, ps, from) == [Filter(pool, ps[from])] + rest;
  }

  /** A row first satisfies a later condition j exactly when it fails condition `from` and, from the next one on, first satisfies j. */
  lemma StageAfter(ps: seq<nat -> bool>, from: nat, j: nat, i: nat)
    requires from < j <= |ps|
    ensures StageIs(ps, from, j)(i) == (Not(ps[from])(i) && StageIs(ps, from + 1, j)(i))
  {
    assert FirstStage(ps, i, from) == if ps[from](i) then from else FirstStage(ps, i, from + 1);
  }

  lemma {:induction false} AllPass(s: seq<nat>)
    ensures Filter(s, _ => true) == s
  {
    if s != [] {
      AllPass(s[..|s| - 1]);
    }
  }

  lemma {:induction false} FlattenAppend(groups: seq<seq<nat>>, g: seq<nat>)
    ensures Flatten([g] + groups) == g + Flatten(groups)
  {
    if groups != [] {
      var init := groups[..|groups| - 1];
      assert ([g] + groups)[..|[g] + groups| - 1] == [g] + init;
      FlattenAppend(init, g);
    } else {
      assert [g][..0] == [];
    }
  }

  /** The concatenated groups are a rearrangement of the pool: every row appears exactly once. */
  lemma {:induction false} CarvingPermutes(pool: seq<nat>, ps: seq<nat -> bool>, from: nat)
    ensures multiset(Flatten(Carving(pool, ps, from))) == multiset(pool)
    decreases |ps| - from
  {
    if from >= |ps| {
      assert Flatten([pool]) == Flatten([pool][..0]) + pool;
    } else {
      var rest := Filter(pool, Not(ps[from]));
      CarvingPermutes(rest, ps, from + 1);
      FlattenAppend(Carving(rest, ps, from + 1), Filter(pool, ps[from]));
      FilterPartition(pool, ps[from]);
    }
  }

  /** Row k of the concatenation carries the tag of the group it came from. */
  lemma {:induction false} TagsOfGroups<T>(groups: seq<seq<nat>>, tag: nat -> T, g: nat -> nat)
    requires forall j :: 0 <= j < |groups| ==> forall i :: i in groups[j] ==> g(i) == j
    ensures forall k :: 0 <= k < |Flatten(groups)| ==> Tags(groups, tag)[k] == tag(g(Flatten(groups)[k]))
  {
    if groups != [] {
      var init, last := groups[..|groups| - 1], groups[|groups| - 1];
      TagsOfGroups(init, tag, g);
      forall k | |Flatten(init)| <= k < |Flatten(groups)|
        ensures Tags(groups, tag)[k] == tag(g(Flatten(groups)[k]))
      {
        assert Flatten(groups)[k] == last[k - |Flatten(init)|];
        assert last[k - |Flatten(init)|] in last;
      }
    }
  }

  // ---- The carve-out performed step by step ----

  /** `taken = pool[cond]; rest = pool[~cond]` */
  method Split(pool: seq<nat>, p: nat -> bool) returns (taken: seq<nat>, rest: seq<nat>)
    ensures taken == Filter(pool, p) && rest == Filter(pool, Not(p))
  {
    taken, rest := [], [];
    var i := 0;
    while i < |pool|
      invariant 0 <= i <= |pool|
      invariant taken == Filter(pool[..i], p) && rest == Filter(pool[..i], Not(p))
    {
      assert pool[..i + 1][..i] == pool[..i];
      if p(pool[i]) {
        taken := taken + [pool[i]];
      } else {
        rest := rest + [pool[i]];
      }
      i := i + 1;
    }
    assert pool[..i] == pool;
  }

  /** Applies the conditions in order, each to the rows no earlier condition took. */
  method CarveOut(pool: seq<nat>, ps: seq<nat -> bool>) returns (groups: seq<seq<nat>>)
    ensures groups == Carving(pool, ps, 0)
  {
    groups := [];
    var rest := pool;
    var j := 0;
    while j < |ps|
      invariant 0 <= j <= |ps|
      invariant groups + Carving(rest, ps, j) == Carving(pool, ps, 0)
    {
      var taken, left := Split(rest, ps[j]);
      groups := groups + [taken];
      rest := left;
      j := j + 1;
    }
    groups := groups + [rest];
  }
}
