/** Belady's rule under a byte budget, for chunks of unequal length.

    The rule is only an approximation of the byte optimum there, but it is a deterministic one in
    everything that costs bytes: two runs that break ties differently agree on the chunks that are
    still needed, so they fetch the same chunks at the same times. */
module ByteBudget {
  import opened Finite
  import opened Demand
  import opened Optimality

  /** The bytes of the chunks below `n` that are in `s`. */
  function BytesBelow(s: set<nat>, len: seq<nat>, n: nat): (b: nat)
    requires n <= |len|
  {
    if n == 0 then 0 else BytesBelow(s, len, n - 1) + if n - 1 in s then len[n - 1] else 0
  }

  function Bytes(s: set<nat>, len: seq<nat>): nat {
    BytesBelow(s, len, |len|)
  }

  lemma {:induction false} BytesBelowAdd(s: set<nat>, c: nat, len: seq<nat>, n: nat)
    requires n <= |len| && c !in s
    ensures BytesBelow(s + {c}, len, n) == BytesBelow(s, len, n) + if c < n then len[c] else 0
  {
    if n > 0 {
      BytesBelowAdd(s, c, len, n - 1);
    }
  }

  lemma BytesAdd(s: set<nat>, c: nat, len: seq<nat>)
    requires c < |len| && c !in s
    ensures Bytes(s + {c}, len) == Bytes(s, len) + len[c]
  {
    BytesBelowAdd(s, c, len, |len|);
  }

  lemma BytesRemove(s: set<nat>, c: nat, len: seq<nat>)
    requires c < |len| && c in s
    ensures Bytes(s - {c}, len) == Bytes(s, len) - len[c]
  {
    BytesAdd(s - {c}, c, len);
    assert s - {c} + {c} == s;
  }

  lemma {:induction false} BytesMonotone(s: set<nat>, t: set<nat>, len: seq<nat>, n: nat)
    requires n <= |len| && s <= t
    ensures BytesBelow(s, len, n) <= BytesBelow(t, len, n)
  {
    if n > 0 {
      BytesMonotone(s, t, len, n - 1);
    }
  }

  lemma {:induction false} BytesNone(len: seq<nat>, n: nat)
    requires n <= |len|
    ensures BytesBelow({}, len, n) == 0
  {
    if n > 0 {
      BytesNone(len, n - 1);
    }
  }

  /** What is kept of `s` is used no later than what went. */
  ghost predicate KeptSooner(ref: seq<nat>, i: nat, s: set<nat>, kept: set<nat>)
    requires i < |ref|
  {
    forall x, v :: x in kept && v in s && v !in kept ==> Next(ref, i + 1, x) <= Next(ref, i + 1, v)
  }

  /** The chunks of `s` after evicting, furthest next use first, until `need` more bytes fit.
      The last chunk to go was necessary: with it still there, `need` bytes would not fit. */
  ghost predicate Evicted(ref: seq<nat>, len: seq<nat>, budget: nat, i: nat, s: set<nat>, kept: set<nat>, need: nat)
    requires i < |ref|
  {
    && kept <= s
    && KeptSooner(ref, i, s, kept)
    && Bytes(kept, len) + need <= budget
    && (kept == s || exists v :: LastOut(ref, len, budget, i, s, kept, need, v))
  }

  ghost predicate LastOut(ref: seq<nat>, len: seq<nat>, budget: nat, i: nat, s: set<nat>, kept: set<nat>, need: nat, v: nat)
    requires i < |ref|
  {
    && v in s && v !in kept
    && (forall u :: u in s && u !in kept ==> Next(ref, i + 1, v) <= Next(ref, i + 1, u))
    && Bytes(kept + {v}, len) + need > budget
  }

  ghost predicate ByteStep(ref: seq<nat>, len: seq<nat>, budget: nat, i: nat, s: set<nat>, s': set<nat>)
    requires i < |ref| && ref[i] < |len|
  {
    if ref[i] in s || len[ref[i]] > budget then s' == s
    else exists kept :: Evicted(ref, len, budget, i, s, kept, len[ref[i]]) && s' == kept + {ref[i]}
  }

  ghost predicate InTable(ref: seq<nat>, len: seq<nat>) {
    forall i :: 0 <= i < |ref| ==> ref[i] < |len|
  }

  ghost predicate ByteAt(ref: seq<nat>, len: seq<nat>, budget: nat, cs: seq<set<nat>>, i: nat)
    requires i < |ref| && i < |cs| && InTable(ref, len)
  {
    ByteStep(ref, len, budget, i, Before(cs, i), cs[i])
  }

  /** `cs` serves the first `n` references by the rule. */
  ghost predicate BytePrefix(ref: seq<nat>, len: seq<nat>, budget: nat, cs: seq<set<nat>>, n: nat)
    requires n <= |ref| && InTable(ref, len)
  {
    n <= |cs| && forall i :: 0 <= i < n ==> ByteAt(ref, len, budget, cs, i)
  }

  ghost predicate ByteSchedule(ref: seq<nat>, len: seq<nat>, budget: nat, cs: seq<set<nat>>)
    requires InTable(ref, len)
  {
    |cs| == |ref| && BytePrefix(ref, len, budget, cs, |ref|)
  }

  /** The bytes fetched by the first `i` references. */
  function MissBytes(ref: seq<nat>, len: seq<nat>, cs: seq<set<nat>>, i: nat): nat
    requires i <= |ref| && i <= |cs| && InTable(ref, len)
  {
    if i == 0 then 0 else MissBytes(ref, len, cs, i - 1) + if ref[i - 1] in Before(cs, i - 1) then 0 else len[ref[i - 1]]
  }

  /** `misses` and `bytes` are what serving `ref` by the rule costs. */
  ghost predicate ByteCost(ref: seq<nat>, len: seq<nat>, budget: nat, misses: nat, bytes: nat)
    requires InTable(ref, len)
  {
    exists cs :: ByteSchedule(ref, len, budget, cs)
              && misses == Misses(ref, cs, |ref|) && bytes == MissBytes(ref, len, cs, |ref|)
  }

  /** `s` is the cache, and `misses` and `bytes` the cost, after serving the first `i` references. */
  ghost predicate ByteServed(ref: seq<nat>, len: seq<nat>, budget: nat, i: nat, cs: seq<set<nat>>,
                             misses: nat, bytes: nat, s: set<nat>)
    requires InTable(ref, len) && i <= |ref|
  {
    && |cs| == i && BytePrefix(ref, len, budget, cs, i) && s == Before(cs, i)
    && misses == Misses(ref, cs, i) && bytes == MissBytes(ref, len, cs, i)
  }

  lemma {:induction false} MissBytesPrefix(ref: seq<nat>, len: seq<nat>, cs: seq<set<nat>>, cs': seq<set<nat>>, n: nat)
    requires InTable(ref, len) && n <= |ref| && n <= |cs| && cs <= cs'
    ensures MissBytes(ref, len, cs', n) == MissBytes(ref, len, cs, n)
  {
    if n > 0 {
      MissBytesPrefix(ref, len, cs, cs', n - 1);
      assert Before(cs', n - 1) == Before(cs, n - 1);
    }
  }

  lemma ByteServeNext(ref: seq<nat>, len: seq<nat>, budget: nat, i: nat, cs: seq<set<nat>>,
                      misses: nat, bytes: nat, s: set<nat>, s': set<nat>)
    requires InTable(ref, len) && i < |ref| && ByteServed(ref, len, budget, i, cs, misses, bytes, s)
    requires ByteStep(ref, len, budget, i, s, s')
    ensures ByteServed(ref, len, budget, i + 1, cs + [s'],
                       misses + (if ref[i] in s then 0 else 1), bytes + (if ref[i] in s then 0 else len[ref[i]]), s')
  {
    var cs' := cs + [s'];
    forall j | 0 <= j <= i ensures ByteAt(ref, len, budget, cs', j) {
      assert Before(cs', j) == Before(cs, j);
      if j < i {
        assert ByteAt(ref, len, budget, cs, j);
      }
    }
    MissesPrefix(ref, cs, cs', i);
    MissBytesPrefix(ref, len, cs, cs', i);
  }

  /** Part of the way through an eviction: `cur` is left of `s`, and whatever went had to go. */
  ghost predicate Evicting(ref: seq<nat>, len: seq<nat>, budget: nat, i: nat, s: set<nat>, cur: set<nat>, need: nat)
    requires i < |ref|
  {
    && cur <= s
    && KeptSooner(ref, i, s, cur)
    && (cur == s || exists v :: LastOut(ref, len, budget, i, s, cur, need, v))
  }

  /** While `need` bytes do not fit, the furthest chunk is the next to go. */
  lemma EvictOne(ref: seq<nat>, len: seq<nat>, budget: nat, i: nat, s: set<nat>, cur: set<nat>, need: nat, v: nat)
    requires i < |ref| && Evicting(ref, len, budget, i, s, cur, need) && Furthest(ref, i, cur, v)
    requires Bytes(cur, len) + need > budget
    ensures Evicting(ref, len, budget, i, s, cur - {v}, need)
  {
    var cur' := cur - {v};
    assert cur' + {v} == cur;
    assert LastOut(ref, len, budget, i, s, cur', need, v);
  }

  /** The chunks of `s` that are referenced again at or after `i`. */
  ghost function Live(ref: seq<nat>, i: nat, s: set<nat>): set<nat>
    requires i <= |ref|
  {
    set x | x in s && Next(ref, i, x) < |ref|
  }

  /** If one run evicts a chunk `x` that another keeps and that is still needed, then everything the
      first run keeps, and the last chunk `v` it evicted, is kept by the other run. */
  lemma KeptBelow(ref: seq<nat>, i: nat, s: set<nat>, kept: set<nat>, x: nat, y: nat)
    requires i < |ref| && KeptSooner(ref, i, s, kept) && x in kept && y in s
    requires Next(ref, i + 1, y) <= Next(ref, i + 1, x) < |ref|
    ensures y in kept
  {
    if y !in kept {
      NextInjective(ref, i + 1, x, y);
    }
  }

  /** A chunk one run keeps and still needs is kept by every other run. */
  lemma KeptLive(ref: seq<nat>, len: seq<nat>, budget: nat, i: nat, need: nat,
                 s: set<nat>, kept: set<nat>, t: set<nat>, kept': set<nat>, x: nat)
    requires i < |ref| && Live(ref, i + 1, s) == Live(ref, i + 1, t)
    requires Evicted(ref, len, budget, i, s, kept, need) && Evicted(ref, len, budget, i, t, kept', need)
    requires x in Live(ref, i + 1, kept)
    ensures x in kept'
  {
    if x !in kept' {
      assert x in Live(ref, i + 1, s);
      var v :| LastOut(ref, len, budget, i, t, kept', need, v);
      forall y | y in kept' || y == v ensures y in kept {
        assert Next(ref, i + 1, y) <= Next(ref, i + 1, v) <= Next(ref, i + 1, x);
        assert y in Live(ref, i + 1, t);
        KeptBelow(ref, i, s, kept, x, y);
      }
      BytesMonotone(kept' + {v}, kept, len, |len|);
      assert false;
    }
  }

  lemma LiveStep(ref: seq<nat>, i: nat, s: set<nat>, t: set<nat>)
    requires i < |ref| && Live(ref, i, s) == Live(ref, i, t)
    requires ref[i] in s <==> ref[i] in t
    ensures Live(ref, i + 1, s) == Live(ref, i + 1, t)
  {
    var ls, lt := Live(ref, i + 1, s), Live(ref, i + 1, t);
    forall x | x in ls || x in lt ensures x in ls && x in lt {
      if x != ref[i] {
        assert Next(ref, i, x) == Next(ref, i + 1, x);
        assert x in Live(ref, i, s) <==> x in Live(ref, i, t);
      }
    }
  }

  lemma KeptAgree(ref: seq<nat>, len: seq<nat>, budget: nat, i: nat, need: nat,
                  s: set<nat>, kept: set<nat>, t: set<nat>, kept': set<nat>)
    requires i < |ref| && Live(ref, i + 1, s) == Live(ref, i + 1, t)
    requires Evicted(ref, len, budget, i, s, kept, need) && Evicted(ref, len, budget, i, t, kept', need)
    ensures Live(ref, i + 1, kept) == Live(ref, i + 1, kept')
  {
    forall x | x in Live(ref, i + 1, kept) ensures x in kept' {
      KeptLive(ref, len, budget, i, need, s, kept, t, kept', x);
    }
    forall x | x in Live(ref, i + 1, kept') ensures x in kept {
      KeptLive(ref, len, budget, i, need, t, kept', s, kept, x);
    }
  }

  lemma ByteStepLive(ref: seq<nat>, len: seq<nat>, budget: nat, i: nat,
                     s: set<nat>, s': set<nat>, t: set<nat>, t': set<nat>)
    requires i < |ref| && InTable(ref, len) && Live(ref, i, s) == Live(ref, i, t)
    requires ByteStep(ref, len, budget, i, s, s') && ByteStep(ref, len, budget, i, t, t')
    ensures ref[i] in s <==> ref[i] in t
    ensures Live(ref, i + 1, s') == Live(ref, i + 1, t')
  {
    var c := ref[i];
    assert Next(ref, i, c) == i;
    assert c in s <==> c in Live(ref, i, s);
    assert c in t <==> c in Live(ref, i, t);
    LiveStep(ref, i, s, t);
    if c !in s && len[c] <= budget {
      var kept :| Evicted(ref, len, budget, i, s, kept, len[c]) && s' == kept + {c};
      var kept' :| Evicted(ref, len, budget, i, t, kept', len[c]) && t' == kept' + {c};
      KeptAgree(ref, len, budget, i, len[c], s, kept, t, kept');
      LiveAdd(ref, i + 1, kept, c);
      LiveAdd(ref, i + 1, kept', c);
    }
  }

  lemma LiveAdd(ref: seq<nat>, i: nat, s: set<nat>, c: nat)
    requires i <= |ref|
    ensures Live(ref, i, s + {c}) == Live(ref, i, s) + Live(ref, i, {c})
  {
  }

  /** The chunks still needed, the misses and the bytes fetched do not depend on how ties are broken
      or on the order in which chunks that are never used again are dropped. */
  lemma {:induction false} ByteAgreement(ref: seq<nat>, len: seq<nat>, budget: nat, a: seq<set<nat>>, b: seq<set<nat>>, i: nat)
    requires InTable(ref, len) && i <= |ref|
    requires ByteSchedule(ref, len, budget, a) && ByteSchedule(ref, len, budget, b)
    ensures Live(ref, i, Before(a, i)) == Live(ref, i, Before(b, i))
    ensures Misses(ref, a, i) == Misses(ref, b, i)
    ensures MissBytes(ref, len, a, i) == MissBytes(ref, len, b, i)
  {
    if i > 0 {
      ByteAgreement(ref, len, budget, a, b, i - 1);
      assert ByteAt(ref, len, budget, a, i - 1) && ByteAt(ref, len, budget, b, i - 1);
      ByteStepLive(ref, len, budget, i - 1, Before(a, i - 1), a[i - 1], Before(b, i - 1), b[i - 1]);
    }
  }

  lemma ByteCostUnique(ref: seq<nat>, len: seq<nat>, budget: nat, m: nat, b: nat, m': nat, b': nat)
    requires InTable(ref, len) && ByteCost(ref, len, budget, m, b) && ByteCost(ref, len, budget, m', b')
    ensures m == m' && b == b'
  {
    var cs :| ByteSchedule(ref, len, budget, cs) && m == Misses(ref, cs, |ref|) && b == MissBytes(ref, len, cs, |ref|);
    var cs' :| ByteSchedule(ref, len, budget, cs') && m' == Misses(ref, cs', |ref|) && b' == MissBytes(ref, len, cs', |ref|);
    ByteAgreement(ref, len, budget, cs, cs', |ref|);
  }

  /** The distinct chunks among the first `n` references. */
  function Referenced(ref: seq<nat>, n: nat): set<nat>
    requires n <= |ref|
  {
    set j | 0 <= j < n :: ref[j]
  }

  /** Every chunk that is referenced misses at least once, so its bytes are fetched at least once. */
  lemma {:induction false} Compulsory(ref: seq<nat>, len: seq<nat>, budget: nat, cs: seq<set<nat>>, i: nat)
    requires InTable(ref, len) && ByteSchedule(ref, len, budget, cs) && i <= |ref|
    ensures Before(cs, i) <= Referenced(ref, i)
    ensures |Referenced(ref, i)| <= Misses(ref, cs, i)
    ensures Bytes(Referenced(ref, i), len) <= MissBytes(ref, len, cs, i)
  {
    if i == 0 {
      BytesNone(len, |len|);
    } else {
      Compulsory(ref, len, budget, cs, i - 1);
      var earlier, now := Referenced(ref, i - 1), Referenced(ref, i);
      var c := ref[i - 1];
      assert now == earlier + {c};
      assert ByteAt(ref, len, budget, cs, i - 1);
      if c in earlier {
        assert now == earlier;
      } else {
        BytesAdd(earlier, c, len);
      }
    }
  }

  // ---- equal lengths: the byte rule is the slot rule ----

  ghost predicate EqualLengths(ref: seq<nat>, len: seq<nat>, unit: nat) {
    InTable(ref, len) && forall i :: 0 <= i < |ref| ==> len[ref[i]] == unit
  }

  lemma {:induction false} BytesEqual(s: set<nat>, len: seq<nat>, n: nat, unit: nat)
    requires n <= |len| && forall c :: c in s ==> c < n && len[c] == unit
    ensures BytesBelow(s, len, n) == unit * |s|
  {
    if n == 0 {
      assert s == {};
    } else {
      var c := n - 1;
      BytesEqual(s - {c}, len, c, unit);
      if c in s {
        BytesBelowAdd(s - {c}, c, len, n - 1);
        assert s - {c} + {c} == s;
        assert unit * |s| == unit * (|s - {c}| + 1);
      } else {
        assert s - {c} == s;
      }
    }
  }

  lemma SlotsFit(unit: nat, n: nat, budget: nat)
    requires 0 < unit
    ensures unit * n + unit <= budget <==> n + 1 <= budget / unit
  {
    var q := budget / unit;
    assert budget == unit * q + budget % unit;
    if n + 1 <= q {
      assert unit * (n + 1) <= unit * q;
    } else {
      assert unit * (n + 1) >= unit * (q + 1);
    }
  }

  ghost predicate AllOf(s: set<nat>, len: seq<nat>, unit: nat) {
    forall c :: c in s ==> c < |len| && len[c] == unit
  }

  lemma FitsSlots(s: set<nat>, len: seq<nat>, budget: nat, unit: nat, k: nat)
    requires 0 < unit && AllOf(s, len, unit) && k == budget / unit
    ensures Bytes(s, len) + unit <= budget <==> |s| + 1 <= k
  {
    BytesEqual(s, len, |len|, unit);
    SlotsFit(unit, |s|, budget);
  }

  /** Evicting for one more chunk of the common length removes one furthest chunk, and only when
      all `k` slots are taken. */
  lemma EqualEviction(ref: seq<nat>, len: seq<nat>, budget: nat, unit: nat, k: nat, i: nat, s: set<nat>, kept: set<nat>)
    requires 0 < unit && k == budget / unit && i < |ref|
    requires AllOf(s, len, unit) && |s| <= k
    requires Evicted(ref, len, budget, i, s, kept, unit)
    ensures if |s| < k then kept == s else exists v :: Furthest(ref, i, s, v) && kept == s - {v}
  {
    FitsSlots(kept, len, budget, unit, k);
    if kept != s {
      var v :| LastOut(ref, len, budget, i, s, kept, unit, v);
      FitsSlots(kept + {v}, len, budget, unit, k);
      Smaller(kept + {v}, s);
      assert kept == s - {v};
      assert Furthest(ref, i, s, v);
    }
  }

  lemma EqualStep(ref: seq<nat>, len: seq<nat>, budget: nat, unit: nat, k: nat, i: nat, s: set<nat>, s': set<nat>)
    requires 0 < unit <= budget && k == budget / unit && EqualLengths(ref, len, unit) && i < |ref|
    requires AllOf(s, len, unit) && |s| <= k && 0 < k
    requires ByteStep(ref, len, budget, i, s, s')
    ensures GreedyStep(ref, k, i, s, s')
    ensures AllOf(s', len, unit) && |s'| <= k
  {
    var c := ref[i];
    if c !in s {
      var kept :| Evicted(ref, len, budget, i, s, kept, unit) && s' == kept + {c};
      EqualEviction(ref, len, budget, unit, k, i, s, kept);
      if |s| >= k {
        var v :| Furthest(ref, i, s, v) && kept == s - {v};
        Exchanged(s, v, c);
      }
    }
  }

  lemma {:induction false} EqualPrefix(ref: seq<nat>, len: seq<nat>, budget: nat, unit: nat, k: nat, cs: seq<set<nat>>, i: nat)
    requires 0 < unit <= budget && k == budget / unit && 0 < k
    requires EqualLengths(ref, len, unit) && ByteSchedule(ref, len, budget, cs) && i <= |ref|
    ensures AllOf(Before(cs, i), len, unit) && |Before(cs, i)| <= k
    ensures GreedyPrefix(ref, k, cs, i)
  {
    if i > 0 {
      EqualPrefix(ref, len, budget, unit, k, cs, i - 1);
      assert ByteAt(ref, len, budget, cs, i - 1);
      EqualStep(ref, len, budget, unit, k, i - 1, Before(cs, i - 1), cs[i - 1]);
      assert GreedyAt(ref, k, cs, i - 1);
    }
  }

  /** Whatever the budget, equal lengths make the bytes proportional to the misses. */
  lemma {:induction false} EqualBytes(ref: seq<nat>, len: seq<nat>, unit: nat, cs: seq<set<nat>>, i: nat)
    requires EqualLengths(ref, len, unit) && i <= |ref| && i <= |cs|
    ensures MissBytes(ref, len, cs, i) == Misses(ref, cs, i) * unit
  {
    if i > 0 {
      EqualBytes(ref, len, unit, cs, i - 1);
      var m := Misses(ref, cs, i - 1);
      assert (m + 1) * unit == m * unit + unit;
    }
  }

  /** With equal lengths the byte rule is Belady's rule on `budget / unit` slots: optimal, and
      fetching `unit` bytes per miss. */
  lemma EqualIsMinimum(ref: seq<nat>, len: seq<nat>, budget: nat, unit: nat, cs: seq<set<nat>>)
    requires 0 < unit <= budget && EqualLengths(ref, len, unit) && ByteSchedule(ref, len, budget, cs)
    ensures MinimumMisses(ref, budget / unit, Misses(ref, cs, |ref|))
    ensures MissBytes(ref, len, cs, |ref|) == Misses(ref, cs, |ref|) * unit
  {
    SlotsFit(unit, 0, budget);
    EqualPrefix(ref, len, budget, unit, budget / unit, cs, |ref|);
    EqualBytes(ref, len, unit, cs, |ref|);
    GreedyIsMinimum(ref, budget / unit, cs);
  }
}
