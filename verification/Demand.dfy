/** Reference strings, next uses, demand schedules and their cost.

    A reference string is a sequence of chunk ids.  A demand schedule gives the cache contents after
    each reference: the referenced chunk is present, at most `k` chunks are, and the only chunk that
    may have entered since the previous reference is the referenced one.  Bypassing the cache and
    loading ahead of time are not demand schedules. */
module Demand {
  import opened Finite

  /** The first position at or after `i` that references `x`; `|ref|` stands for "never again". */
  function Next(ref: seq<nat>, i: nat, x: nat): (j: nat)
    requires i <= |ref|
    ensures i <= j <= |ref|
    ensures j < |ref| ==> ref[j] == x
    ensures forall k :: i <= k < j ==> ref[k] != x
    decreases |ref| - i
  {
    if i == |ref| || ref[i] == x then i else Next(ref, i + 1, x)
  }

  /** Two different chunks are never next used at the same position. */
  lemma NextInjective(ref: seq<nat>, i: nat, x: nat, y: nat)
    requires i <= |ref| && Next(ref, i, x) == Next(ref, i, y) < |ref|
    ensures x == y
  {
  }

  /** The cache before position `i` of a schedule. */
  function Before(cs: seq<set<nat>>, i: nat): set<nat>
    requires i <= |cs|
  {
    if i == 0 then {} else cs[i - 1]
  }

  ghost predicate DemandStep(k: nat, c: nat, s: set<nat>, s': set<nat>) {
    c in s' && s' <= s + {c} && |s'| <= k
  }

  ghost predicate DemandAt(ref: seq<nat>, k: nat, cs: seq<set<nat>>, i: nat)
    requires i < |ref| == |cs|
  {
    DemandStep(k, ref[i], Before(cs, i), cs[i])
  }

  ghost predicate DemandSchedule(ref: seq<nat>, k: nat, cs: seq<set<nat>>) {
    && |cs| == |ref|
    && forall i :: 0 <= i < |ref| ==> DemandAt(ref, k, cs, i)
  }

  /** The number of misses among the first `i` references. */
  function Misses(ref: seq<nat>, cs: seq<set<nat>>, i: nat): (m: nat)
    requires i <= |ref| && i <= |cs|
  {
    if i == 0 then 0 else Misses(ref, cs, i - 1) + if ref[i - 1] in Before(cs, i - 1) then 0 else 1
  }

  /** `v` is a resident chunk whose next use after position `i` is furthest away. */
  ghost predicate Furthest(ref: seq<nat>, i: nat, s: set<nat>, v: nat)
    requires i < |ref|
  {
    v in s && forall x :: x in s ==> Next(ref, i + 1, x) <= Next(ref, i + 1, v)
  }

  /** One step of Belady's rule; which furthest chunk goes is left open. */
  ghost predicate GreedyStep(ref: seq<nat>, k: nat, i: nat, s: set<nat>, s': set<nat>)
    requires i < |ref|
  {
    if ref[i] in s then s' == s
    else if |s| < k then s' == s + {ref[i]}
    else exists v :: Furthest(ref, i, s, v) && s' == s - {v} + {ref[i]}
  }

  ghost predicate GreedyAt(ref: seq<nat>, k: nat, cs: seq<set<nat>>, i: nat)
    requires i < |ref| && i < |cs|
  {
    GreedyStep(ref, k, i, Before(cs, i), cs[i])
  }

  /** `cs` serves the first `n` references by Belady's rule. */
  ghost predicate GreedyPrefix(ref: seq<nat>, k: nat, cs: seq<set<nat>>, n: nat)
    requires n <= |ref|
  {
    n <= |cs| && forall i :: 0 <= i < n ==> GreedyAt(ref, k, cs, i)
  }

  ghost predicate GreedySchedule(ref: seq<nat>, k: nat, cs: seq<set<nat>>) {
    |cs| == |ref| && GreedyPrefix(ref, k, cs, |ref|)
  }

  lemma {:induction false} MissesPrefix(ref: seq<nat>, cs: seq<set<nat>>, cs': seq<set<nat>>, n: nat)
    requires n <= |ref| && n <= |cs| && cs <= cs'
    ensures Misses(ref, cs', n) == Misses(ref, cs, n)
  {
    if n > 0 {
      MissesPrefix(ref, cs, cs', n - 1);
      assert Before(cs', n - 1) == Before(cs, n - 1);
    }
  }

  /** `m` is the least number of misses of any demand schedule of capacity `k`, and is attained. */
  ghost predicate MinimumMisses(ref: seq<nat>, k: nat, m: nat) {
    && (exists cs :: DemandSchedule(ref, k, cs) && Misses(ref, cs, |ref|) == m)
    && (forall cs :: DemandSchedule(ref, k, cs) ==> m <= Misses(ref, cs, |ref|))
  }

  /** The least number of misses with `k` slots; without slots every reference misses. */
  ghost predicate Optimum(ref: seq<nat>, k: nat, m: nat) {
    if k == 0 then m == |ref| else MinimumMisses(ref, k, m)
  }

  /** The cache a greedy schedule holds is never over capacity. */
  lemma {:induction false} GreedyBounded(ref: seq<nat>, k: nat, cs: seq<set<nat>>, i: nat)
    requires 0 < k && GreedySchedule(ref, k, cs) && i <= |ref|
    ensures |Before(cs, i)| <= k
  {
    if i > 0 {
      GreedyBounded(ref, k, cs, i - 1);
      var s, s' := Before(cs, i - 1), cs[i - 1];
      assert GreedyAt(ref, k, cs, i - 1);
      if ref[i - 1] !in s && |s| >= k {
        var v :| Furthest(ref, i - 1, s, v) && s' == s - {v} + {ref[i - 1]};
        Exchanged(s, v, ref[i - 1]);
      }
    }
  }

  /** Belady's rule needs no bypass and no read-ahead: what it produces is a demand schedule. */
  lemma {:induction false} GreedyIsDemand(ref: seq<nat>, k: nat, cs: seq<set<nat>>)
    requires 0 < k && GreedySchedule(ref, k, cs)
    ensures DemandSchedule(ref, k, cs)
  {
    forall i | 0 <= i < |ref| ensures DemandAt(ref, k, cs, i) {
      GreedyBounded(ref, k, cs, i + 1);
      assert GreedyAt(ref, k, cs, i);
    }
  }
}

/** Belady's rule is optimal over all demand schedules.

    The proof compares a greedy schedule with an arbitrary one through a potential: for every
    deadline `t`, the other schedule holds at most `p` more chunks that are needed before `t`, where
    `p` is how many more misses it has already paid. */
module Optimality {
  import opened Finite
  import opened Demand

  /** The chunks of `s` that are needed at or after `i` but before `t`. */
  ghost function Early(ref: seq<nat>, i: nat, s: set<nat>, t: nat): set<nat>
    requires i <= |ref|
  {
    set x | x in s && Next(ref, i, x) < t
  }

  ghost predicate Dominates(ref: seq<nat>, i: nat, g: set<nat>, a: set<nat>, p: int)
    requires i <= |ref|
  {
    forall t: nat :: |Early(ref, i, a, t)| <= |Early(ref, i, g, t)| + p
  }

  function Miss(c: nat, s: set<nat>): int {
    if c in s then 0 else 1
  }

  /** Serving one reference moves only the referenced chunk's next use. */
  lemma NextAfter(ref: seq<nat>, i: nat, x: nat)
    requires i < |ref|
    ensures x != ref[i] ==> Next(ref, i, x) == Next(ref, i + 1, x)
    ensures x == ref[i] ==> Next(ref, i, x) == i
  {
  }

  /** Before the reference is served: if only `a` holds the chunk, the potential is positive. */
  lemma PotentialPays(ref: seq<nat>, i: nat, g: set<nat>, a: set<nat>, p: int)
    requires i < |ref| && Dominates(ref, i, g, a, p)
    ensures p >= 0
    ensures ref[i] in a && ref[i] !in g ==> p >= 1
  {
    assert Early(ref, i, a, 0) == Early(ref, i, g, 0) == {};
    if ref[i] in a && ref[i] !in g {
      assert ref[i] in Early(ref, i, a, i + 1);
      assert {ref[i]} <= Early(ref, i, a, i + 1);
      Smaller({ref[i]}, Early(ref, i, a, i + 1));
      assert Early(ref, i, g, i + 1) == {};
    }
  }

  /** How the early part of a demand cache can grow. */
  lemma EarlyDemand(ref: seq<nat>, k: nat, i: nat, a: set<nat>, a': set<nat>, t: nat)
    requires i + 1 < t && i < |ref| && DemandStep(k, ref[i], a, a')
    ensures |Early(ref, i + 1, a', t)| <=
            |Early(ref, i, a, t)| - (1 - Miss(ref[i], a)) + if Next(ref, i + 1, ref[i]) < t then 1 else 0
    ensures |Early(ref, i + 1, a', t)| <= k - if Next(ref, i + 1, ref[i]) < t then 0 else 1
  {
    var c := ref[i];
    var e, e' := Early(ref, i, a, t), Early(ref, i + 1, a', t);
    forall x | x in e' ensures x == c || x in e {
      NextAfter(ref, i, x);
    }
    assert e' - {c} <= e - {c};
    Smaller(e' - {c}, e - {c});
    Smaller(e', a');
    if c in a {
      assert c in e;
    }
    if c !in e' {
      assert e' <= a' - {c};
      Smaller(e', a' - {c});
    }
  }

  /** How the early part of a greedy cache changes when nothing, or a late chunk, is evicted. */
  lemma EarlyGreedy(ref: seq<nat>, i: nat, g: set<nat>, g': set<nat>, gone: set<nat>, t: nat)
    requires i + 1 < t && i < |ref| && g' == g - gone + {ref[i]} && ref[i] !in gone
    requires forall v :: v in gone ==> t <= Next(ref, i + 1, v)
    ensures |Early(ref, i + 1, g', t)| ==
            |Early(ref, i, g, t)| - (1 - Miss(ref[i], g)) + if Next(ref, i + 1, ref[i]) < t then 1 else 0
  {
    var c := ref[i];
    var e, e' := Early(ref, i, g, t), Early(ref, i + 1, g', t);
    forall x | x != c ensures x in e <==> x in e' {
      NextAfter(ref, i, x);
    }
    assert e - {c} == e' - {c};
    Without(e, c);
    Without(e', c);
    assert c in e <==> c in g;
    assert c in e' <==> Next(ref, i + 1, c) < t;
  }

  /** When the victim itself is early, everything the greedy cache keeps is early. */
  lemma EarlyFull(ref: seq<nat>, k: nat, i: nat, g: set<nat>, v: nat, t: nat)
    requires i < |ref| && Furthest(ref, i, g, v) && Next(ref, i + 1, v) < t && |g| == k && ref[i] !in g
    ensures |Early(ref, i + 1, g - {v} + {ref[i]}, t)| >= k - if Next(ref, i + 1, ref[i]) < t then 0 else 1
  {
    var c := ref[i];
    var g' := g - {v} + {c};
    Exchanged(g, v, c);
    var e' := Early(ref, i + 1, g', t);
    assert g' - {c} <= e';
    if Next(ref, i + 1, c) < t {
      assert g' <= e';
      Smaller(g', e');
    } else {
      Smaller(g' - {c}, e');
    }
  }

  /** How many early chunks a greedy cache is sure to have after serving a reference: as many as
      before, or all the slots but those that any other cache must leave to a late chunk too. */
  lemma EarlyAfterGreedy(ref: seq<nat>, k: nat, i: nat, g: set<nat>, g': set<nat>, t: nat, soon: int)
    requires i + 1 < t && i < |ref| && |g| <= k && GreedyStep(ref, k, i, g, g')
    requires soon == if Next(ref, i + 1, ref[i]) < t then 1 else 0
    ensures || |Early(ref, i + 1, g', t)| >= |Early(ref, i, g, t)| - (1 - Miss(ref[i], g)) + soon
            || (ref[i] !in g && |Early(ref, i + 1, g', t)| >= k - 1 + soon)
  {
    if ref[i] in g || |g| < k {
      assert g' == g - {} + {ref[i]};
      EarlyGreedy(ref, i, g, g', {}, t);
    } else {
      var v :| Furthest(ref, i, g, v) && g' == g - {v} + {ref[i]};
      EarlyAfterEviction(ref, k, i, g, v, t, soon);
    }
  }

  lemma EarlyAfterEviction(ref: seq<nat>, k: nat, i: nat, g: set<nat>, v: nat, t: nat, soon: int)
    requires i + 1 < t && i < |ref| && |g| == k && ref[i] !in g && Furthest(ref, i, g, v)
    requires soon == if Next(ref, i + 1, ref[i]) < t then 1 else 0
    ensures var e := |Early(ref, i + 1, g - {v} + {ref[i]}, t)|;
            e >= |Early(ref, i, g, t)| + soon || e >= k - 1 + soon
  {
    if Next(ref, i + 1, v) < t {
      EarlyFull(ref, k, i, g, v, t);
    } else {
      EarlyGreedy(ref, i, g, g - {v} + {ref[i]}, {v}, t);
    }
  }

  lemma DominatesAt(ref: seq<nat>, k: nat, i: nat, g: set<nat>, g': set<nat>, a: set<nat>, a': set<nat>, p: int, t: nat)
    requires i < |ref| && |g| <= k
    requires Dominates(ref, i, g, a, p)
    requires GreedyStep(ref, k, i, g, g') && DemandStep(k, ref[i], a, a')
    ensures |Early(ref, i + 1, a', t)| <= |Early(ref, i + 1, g', t)| + p + Miss(ref[i], a) - Miss(ref[i], g)
  {
    PotentialPays(ref, i, g, a, p);
    if t <= i + 1 {
      assert Early(ref, i + 1, a', t) == {};
    } else {
      EarlyDemand(ref, k, i, a, a', t);
      assert |Early(ref, i, a, t)| <= |Early(ref, i, g, t)| + p;
      EarlyAfterGreedy(ref, k, i, g, g', t, if Next(ref, i + 1, ref[i]) < t then 1 else 0);
    }
  }

  lemma {:induction false} PotentialInvariant(ref: seq<nat>, k: nat, g: seq<set<nat>>, a: seq<set<nat>>, i: nat)
    requires 0 < k && GreedySchedule(ref, k, g) && DemandSchedule(ref, k, a) && i <= |ref|
    ensures Dominates(ref, i, Before(g, i), Before(a, i), Misses(ref, a, i) - Misses(ref, g, i))
  {
    if i == 0 {
      assert forall t: nat :: Early(ref, 0, {}, t) == {};
    } else {
      var j := i - 1;
      PotentialInvariant(ref, k, g, a, j);
      GreedyBounded(ref, k, g, j);
      assert GreedyAt(ref, k, g, j) && DemandAt(ref, k, a, j);
      var p := Misses(ref, a, j) - Misses(ref, g, j);
      forall t: nat
        ensures |Early(ref, i, a[j], t)| <= |Early(ref, i, g[j], t)| + (Misses(ref, a, i) - Misses(ref, g, i))
      {
        DominatesAt(ref, k, j, Before(g, j), g[j], Before(a, j), a[j], p, t);
      }
    }
  }

  /** Whatever it does about ties, a greedy schedule misses no more often than any demand schedule. */
  lemma {:induction false} GreedyOptimal(ref: seq<nat>, k: nat, g: seq<set<nat>>, a: seq<set<nat>>)
    requires 0 < k && GreedySchedule(ref, k, g) && DemandSchedule(ref, k, a)
    ensures Misses(ref, g, |ref|) <= Misses(ref, a, |ref|)
  {
    PotentialInvariant(ref, k, g, a, |ref|);
    assert Early(ref, |ref|, Before(a, |ref|), 0) == Early(ref, |ref|, Before(g, |ref|), 0) == {};
  }

  lemma {:induction false} GreedyIsMinimum(ref: seq<nat>, k: nat, g: seq<set<nat>>)
    requires 0 < k && GreedySchedule(ref, k, g)
    ensures MinimumMisses(ref, k, Misses(ref, g, |ref|))
  {
    GreedyIsDemand(ref, k, g);
    forall cs | DemandSchedule(ref, k, cs) ensures Misses(ref, g, |ref|) <= Misses(ref, cs, |ref|) {
      GreedyOptimal(ref, k, g, cs);
    }
  }

  /** The minimum is one number, so two solvers that both meet it report the same misses. */
  lemma MinimumUnique(ref: seq<nat>, k: nat, m: nat, m': nat)
    requires MinimumMisses(ref, k, m) && MinimumMisses(ref, k, m')
    ensures m == m'
  {
    var cs :| DemandSchedule(ref, k, cs) && Misses(ref, cs, |ref|) == m;
    var cs' :| DemandSchedule(ref, k, cs') && Misses(ref, cs', |ref|) == m';
  }
}
