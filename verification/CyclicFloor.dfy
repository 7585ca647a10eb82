/** Strict cyclic scans, and the number of misses no schedule can go below on them. */
module CyclicFloor {
  import opened Arithmetic
  import opened Finite
  import opened Demand
  import opened Belady

  /** `ref` is one permutation of 0..n-1 repeated `passes` times. */
  ghost predicate CyclicScan(ref: seq<nat>, n: nat, passes: nat) {
    && 0 < n && 0 < passes && |ref| == passes * n && n <= |ref|
    && (forall i :: 0 <= i < |ref| ==> ref[i] == ref[i % n])
    && (forall i :: 0 <= i < n ==> ref[i] < n)
    && (forall i, j :: 0 <= i < j < n ==> ref[i] != ref[j])
  }

  /** Every chunk of the first pass misses, and in each later one as many as the cache cannot hold. */
  function Floor(n: nat, passes: nat, k: nat): (floor: nat)
    requires passes > 0
    ensures passes == 1 || k >= n ==> floor == n
    ensures k == 0 ==> floor == passes * n
  {
    n + (passes - 1) * if k < n then n - k else 0
  }

  // ---- the bound ----

  /** The chunks referenced at positions `b` up to `e`. */
  ghost function Window(ref: seq<nat>, b: nat, e: nat): set<nat>
    requires b <= e <= |ref|
  {
    set l | b <= l < e :: ref[l]
  }

  ghost predicate Distinct(ref: seq<nat>, b: nat, e: nat)
    requires b <= e <= |ref|
  {
    forall l, m :: b <= l < m < e ==> ref[l] != ref[m]
  }

  lemma HitsGrow(s: set<nat>, w: set<nat>, c: nat)
    requires c !in w
    ensures |s * (w + {c})| == |s * w| + if c in s then 1 else 0
  {
    if c in s {
      assert s * (w + {c}) == s * w + {c};
    } else {
      assert s * (w + {c}) == s * w;
    }
  }

  lemma WindowGrows(ref: seq<nat>, b: nat, e: nat)
    requires b <= e < |ref| && Distinct(ref, b, e + 1)
    ensures Window(ref, b, e + 1) == Window(ref, b, e) + {ref[e]} && ref[e] !in Window(ref, b, e)
  {
  }

  /** What is cached was cached at the window's start or referenced in it. */
  lemma {:induction false} WindowCache(ref: seq<nat>, k: nat, cs: seq<set<nat>>, b: nat, e: nat)
    requires DemandSchedule(ref, k, cs) && b <= e <= |ref|
    ensures Before(cs, e) <= Before(cs, b) + Window(ref, b, e)
  {
    if b < e {
      WindowCache(ref, k, cs, b, e - 1);
      assert DemandAt(ref, k, cs, e - 1);
      assert Window(ref, b, e) == Window(ref, b, e - 1) + {ref[e - 1]};
    }
  }

  /** Over a window of distinct references only chunks cached at its start, `s`, can hit. */
  lemma {:induction false} WindowMisses(ref: seq<nat>, k: nat, cs: seq<set<nat>>, b: nat, e: nat, s: set<nat>)
    requires DemandSchedule(ref, k, cs) && b <= e <= |ref| && Distinct(ref, b, e) && s == Before(cs, b)
    ensures Misses(ref, cs, e) + |s * Window(ref, b, e)| >= Misses(ref, cs, b) + (e - b)
  {
    if b == e {
      assert s * Window(ref, b, e) == {};
    } else {
      hide Window, DemandSchedule;
      WindowMisses(ref, k, cs, b, e - 1, s);
      WindowCache(ref, k, cs, b, e - 1);
      WindowGrows(ref, b, e - 1);
      HitsGrow(s, Window(ref, b, e - 1), ref[e - 1]);
      OneReference(ref, cs, e, Before(cs, e - 1));
    }
  }

  lemma OneReference(ref: seq<nat>, cs: seq<set<nat>>, e: nat, before: set<nat>)
    requires 0 < e <= |ref| && |ref| == |cs| && before == Before(cs, e - 1)
    ensures Misses(ref, cs, e) == Misses(ref, cs, e - 1) + if ref[e - 1] in before then 0 else 1
  {
  }

  /** The references of one pass, the one starting at `b`, are distinct. */
  lemma PassDistinct(ref: seq<nat>, n: nat, passes: nat, p: nat, b: nat)
    requires CyclicScan(ref, n, passes) && b == p * n && b + n <= |ref|
    ensures Distinct(ref, b, b + n)
  {
    forall l | b <= l < b + n ensures ref[l] == ref[l - b] {
      Modulo(p, n, l - b);
      assert ref[l] == ref[l % n];
    }
    forall l, m | b <= l < m < b + n ensures ref[l] != ref[m] {
      assert ref[l - b] != ref[m - b];
    }
  }

  /** `n` distinct references miss at least `n` times, less whatever was cached before them. */
  lemma PassMisses(ref: seq<nat>, n: nat, k: nat, cs: seq<set<nat>>, b: nat)
    requires b + n <= |ref| && Distinct(ref, b, b + n) && DemandSchedule(ref, k, cs)
    ensures Misses(ref, cs, b + n) + |Before(cs, b)| >= Misses(ref, cs, b) + n
    ensures Misses(ref, cs, b + n) >= Misses(ref, cs, b)
  {
    var s, w := Before(cs, b), Window(ref, b, b + n);
    WindowMisses(ref, k, cs, b, b + n, s);
    Smaller(s * w, s);
    Smaller(s * w, w);
    WindowSize(ref, b, b + n);
  }

  lemma {:induction false} WindowSize(ref: seq<nat>, b: nat, e: nat)
    requires b <= e <= |ref|
    ensures |Window(ref, b, e)| <= e - b
  {
    if b < e {
      WindowSize(ref, b, e - 1);
      assert Window(ref, b, e) == Window(ref, b, e - 1) + {ref[e - 1]};
    }
  }

  lemma FloorStep(n: nat, p: nat, k: nat)
    requires 0 < p
    ensures Floor(n, p + 1, k) == Floor(n, p, k) + if k < n then n - k else 0
  {
    var extra := if k < n then n - k else 0;
    assert p * extra == (p - 1) * extra + extra;
  }

  /** The bound after `p` passes, that is, at position `e`. */
  lemma {:induction false} FloorUpTo(ref: seq<nat>, n: nat, passes: nat, k: nat, cs: seq<set<nat>>, p: nat, e: nat)
    requires CyclicScan(ref, n, passes) && DemandSchedule(ref, k, cs) && 0 < p <= passes && e == p * n <= |ref|
    ensures Misses(ref, cs, e) >= Floor(n, p, k)
  {
    var b := e - n;
    assert b == (p - 1) * n;
    PassDistinct(ref, n, passes, p - 1, b);
    PassMisses(ref, n, k, cs, b);
    if p > 1 {
      FloorUpTo(ref, n, passes, k, cs, p - 1, b);
      CacheBounded(ref, k, cs, b);
      FloorStep(n, p - 1, k);
    }
  }

  lemma CacheBounded(ref: seq<nat>, k: nat, cs: seq<set<nat>>, i: nat)
    requires DemandSchedule(ref, k, cs) && i <= |ref|
    ensures |Before(cs, i)| <= k
  {
    if i > 0 {
      assert DemandAt(ref, k, cs, i - 1);
    }
  }

  /** Every demand schedule of a cyclic scan misses at least `n` times in the first pass and at least
      `n - k` times in each later one. */
  lemma FloorHolds(ref: seq<nat>, n: nat, passes: nat, k: nat, cs: seq<set<nat>>)
    requires CyclicScan(ref, n, passes) && DemandSchedule(ref, k, cs)
    ensures Misses(ref, cs, |ref|) >= Floor(n, passes, k)
  {
    FloorUpTo(ref, n, passes, k, cs, passes, |ref|);
  }

  /** A minimum can therefore never be below the floor; nor can the solver's answer without slots. */
  lemma MinimumAboveFloor(ref: seq<nat>, n: nat, passes: nat, k: nat, m: nat)
    requires CyclicScan(ref, n, passes)
    requires Optimum(ref, k, m)
    ensures m >= Floor(n, passes, k)
  {
    if k == 0 {
      assert n + (passes - 1) * n == passes * n;
    } else {
      var cs :| DemandSchedule(ref, k, cs) && Misses(ref, cs, |ref|) == m;
      FloorHolds(ref, n, passes, k, cs);
    }
  }

  // ---- detection ----

  /** A permutation of 0..n-1 reaches n-1, so the period can only be one more than the largest id. */
  lemma PeriodIsForced(ref: seq<nat>, n: nat, passes: nat, maxId: nat)
    requires CyclicScan(ref, n, passes)
    requires maxId in ref && forall i :: 0 <= i < |ref| ==> ref[i] <= maxId
    ensures n == maxId + 1
  {
    var first := ref[..n];
    DistinctCount(first);
    var ids, image := Ids(n), Elements(first);
    assert image <= ids;
    if n - 1 !in image {
      assert image <= ids - {n - 1};
      Smaller(image, ids - {n - 1});
    }
    var i :| 0 <= i < n && first[i] == n - 1;
    assert ref[i] <= maxId;
    var j :| 0 <= j < |ref| && ref[j] == maxId;
    assert ref[j] == ref[j % n];
  }

  method MaxId(ref: seq<nat>) returns (maxId: nat)
    requires |ref| > 0
    ensures maxId in ref && forall i :: 0 <= i < |ref| ==> ref[i] <= maxId
  {
    maxId := ref[0];
    for i := 0 to |ref|
      invariant maxId in ref && forall j :: 0 <= j < i ==> ref[j] <= maxId
    {
      if ref[i] > maxId {
        maxId := ref[i];
      }
    }
  }

  ghost predicate Permutes(ref: seq<nat>, n: nat)
    requires n <= |ref|
  {
    (forall i :: 0 <= i < n ==> ref[i] < n) && (forall i, j :: 0 <= i < j < n ==> ref[i] != ref[j])
  }

  /** Whether the first `n` references are a permutation of 0..n-1. */
  method IsPermutation(ref: seq<nat>, n: nat) returns (ok: bool)
    requires n <= |ref|
    ensures ok == Permutes(ref, n)
  {
    var seen := new bool[n](_ => false);
    for i := 0 to n
      invariant forall j :: 0 <= j < i ==> ref[j] < n && seen[ref[j]]
      invariant forall j, l :: 0 <= j < l < i ==> ref[j] != ref[l]
      invariant forall x :: 0 <= x < n && seen[x] ==> exists j :: 0 <= j < i && ref[j] == x
    {
      if ref[i] >= n || seen[ref[i]] {
        return false;
      }
      seen[ref[i]] := true;
    }
    return true;
  }

  /** A scan of period `n` makes exactly `|ref| / n` passes. */
  lemma WholePasses(ref: seq<nat>, n: nat, passes: nat)
    requires CyclicScan(ref, n, passes)
    ensures |ref| % n == 0 && |ref| / n == passes
  {
    Modulo(passes, n, 0);
    assert passes * n + 0 == |ref|;
  }

  predicate RepeatsAt(ref: seq<nat>, n: nat, i: nat)
    requires n > 0 && i < |ref|
  {
    ref[i] == ref[i % n]
  }

  method IsPeriodic(ref: seq<nat>, n: nat) returns (ok: bool)
    requires n > 0
    ensures ok == forall j :: 0 <= j < |ref| ==> RepeatsAt(ref, n, j)
  {
    for i := 0 to |ref|
      invariant forall j :: 0 <= j < i ==> RepeatsAt(ref, n, j)
    {
      if !RepeatsAt(ref, n, i) {
        return false;
      }
    }
    return true;
  }

  lemma RepeatsThroughout(ref: seq<nat>, n: nat)
    requires n > 0
    ensures (forall i :: 0 <= i < |ref| ==> RepeatsAt(ref, n, i)) <==> (forall i :: 0 <= i < |ref| ==> ref[i] == ref[i % n])
  {
    if forall i :: 0 <= i < |ref| ==> RepeatsAt(ref, n, i) {
      forall i | 0 <= i < |ref| ensures ref[i] == ref[i % n] {
        assert RepeatsAt(ref, n, i);
      }
    }
  }

  /** A cyclic scan is whole passes that repeat a permutation. */
  lemma ScanParts(ref: seq<nat>, n: nat, passes: nat)
    ensures CyclicScan(ref, n, passes) <==>
              && 0 < n && 0 < passes && |ref| == passes * n && n <= |ref|
              && (forall i :: 0 <= i < |ref| ==> RepeatsAt(ref, n, i)) && Permutes(ref, n)
  {
    hide RepeatsAt;
    if 0 < n {
      RepeatsThroughout(ref, n);
    }
  }

  /** Recognizes exactly the strict cyclic scans. */
  method DetectCyclicScan(ref: seq<nat>) returns (found: bool, n: nat, passes: nat)
    ensures found ==> CyclicScan(ref, n, passes)
    ensures !found ==> forall n', passes' :: !CyclicScan(ref, n', passes')
  {
    hide RepeatsAt, Permutes;
    found, n, passes := false, 0, 0;
    if |ref| == 0 {
      return;
    }
    var maxId := MaxId(ref);
    var candidate := maxId + 1;
    var count := |ref| / candidate;
    forall n', passes' | CyclicScan(ref, n', passes')
      ensures n' == candidate && |ref| % candidate == 0 && count == passes' > 0
      ensures (forall i :: 0 <= i < |ref| ==> RepeatsAt(ref, candidate, i)) && candidate <= |ref| && Permutes(ref, candidate)
    {
      PeriodIsForced(ref, n', passes', maxId);
      WholePasses(ref, n', passes');
      ScanParts(ref, n', passes');
    }
    hide CyclicScan;
    if |ref| % candidate != 0 {
      return;
    }
    if count < 1 {
      return;
    }
    Divided(|ref|, candidate);
    var periodic := IsPeriodic(ref, candidate);
    if !periodic {
      return;
    }
    var permutation := IsPermutation(ref, candidate);
    if !permutation {
      return;
    }
    ScanParts(ref, candidate, count);
    return true, candidate, count;
  }

  /** Compares a result with the floor of a cyclic scan of `n` chunks; `aborted` stands for the solver
      being declared wrong, which it is exactly for a result below the floor. */
  method CheckCyclicFloor(ref: seq<nat>, capacity: nat, misses: nat) returns (checked: bool, n: nat, passes: nat, aborted: bool)
    ensures checked ==> CyclicScan(ref, n, passes) && (aborted <==> misses < Floor(n, passes, capacity))
    ensures !checked ==> !aborted && forall n', passes' :: !CyclicScan(ref, n', passes')
    ensures Optimum(ref, capacity, misses) ==> !aborted
  {
    checked, n, passes := DetectCyclicScan(ref);
    if !checked {
      return false, n, passes, false;
    }
    if Optimum(ref, capacity, misses) {
      MinimumAboveFloor(ref, n, passes, capacity, misses);
    }
    aborted := misses < Floor(n, passes, capacity);
  }

  /** The gate every real run of the solver passes through never fires. */
  method SolveAndCheck(ref: seq<nat>, capacity: nat) returns (misses: nat, aborted: bool)
    requires |ref| <= NEVER
    ensures Optimum(ref, capacity, misses) && !aborted
  {
    var total, checked, n, passes;
    ghost var discards: int, peak: nat;
    misses, total, discards, peak := BeladySimulate(ref, capacity);
    checked, n, passes, aborted := CheckCyclicFloor(ref, capacity, misses);
  }
}
