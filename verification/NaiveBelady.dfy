/** The quadratic reference solver: no heap, a forward scan for every next use. */
module NaiveBelady {
  import opened Finite
  import opened Demand
  import opened Optimality
  import opened Belady

  method NaiveNextOccurrence(ref: seq<nat>, from: nat, chunk: nat) returns (pos: nat)
    requires from < |ref|
    ensures pos == Priority(ref, from + 1, chunk)
  {
    for j := from + 1 to |ref|
      invariant Next(ref, from + 1, chunk) == Next(ref, j, chunk)
    {
      if ref[j] == chunk {
        return j;
      }
    }
    return NEVER;
  }

  /** The slots below `filled` hold the distinct chunks of `s`; the others are unused. */
  ghost predicate Slots(cache: seq<nat>, used: seq<bool>, filled: nat, s: set<nat>) {
    && filled <= |cache| == |used| && |s| == filled
    && (forall k :: 0 <= k < |used| ==> used[k] == (k < filled))
    && (forall k :: 0 <= k < filled ==> cache[k] in s)
    && (forall x :: x in s ==> exists k :: 0 <= k < filled && cache[k] == x)
    && (forall k, l :: 0 <= k < l < filled ==> cache[k] != cache[l])
  }

  method FindChunk(cache: array<nat>, used: array<bool>, c: nat) returns (found: int)
    requires cache.Length == used.Length
    ensures -1 <= found < cache.Length
    ensures found >= 0 ==> used[found] && cache[found] == c
    ensures found < 0 ==> forall k :: 0 <= k < cache.Length && used[k] ==> cache[k] != c
  {
    for k := 0 to cache.Length
      invariant forall l :: 0 <= l < k && used[l] ==> cache[l] != c
    {
      if used[k] && cache[k] == c {
        return k;
      }
    }
    return -1;
  }

  method FindFree(used: array<bool>) returns (slot: int)
    ensures -1 <= slot < used.Length
    ensures slot >= 0 ==> !used[slot] && forall k :: 0 <= k < slot ==> used[k]
    ensures slot < 0 ==> forall k :: 0 <= k < used.Length ==> used[k]
  {
    for k := 0 to used.Length
      invariant forall l :: 0 <= l < k ==> used[l]
    {
      if !used[k] {
        return k;
      }
    }
    return -1;
  }

  /** The first slot whose chunk is used furthest in the future. */
  method FurthestSlot(ref: seq<nat>, i: nat, cache: array<nat>) returns (best: nat)
    requires i < |ref| && 0 < cache.Length
    ensures best < cache.Length
    ensures forall k :: 0 <= k < cache.Length ==>
              Priority(ref, i + 1, cache[k]) <= Priority(ref, i + 1, cache[best])
  {
    var bestDist := 0;
    best := 0;
    for k := 0 to cache.Length
      invariant best < cache.Length && (k > 0 ==> bestDist == Priority(ref, i + 1, cache[best]))
      invariant forall l :: 0 <= l < k ==> Priority(ref, i + 1, cache[l]) <= bestDist
    {
      var d := NaiveNextOccurrence(ref, i, cache[k]);
      if k == 0 || d > bestDist {
        bestDist, best := d, k;
      }
    }
  }

  lemma SlotFilled(cache: seq<nat>, used: seq<bool>, filled: nat, s: set<nat>, c: nat)
    requires Slots(cache, used, filled, s) && filled < |cache| && c !in s
    ensures Slots(cache[filled := c], used[filled := true], filled + 1, s + {c})
  {
    var cache' := cache[filled := c];
    forall x | x in s + {c} ensures exists k :: 0 <= k < filled + 1 && cache'[k] == x {
      if x == c {
        assert cache'[filled] == x;
      } else {
        var k :| 0 <= k < filled && cache[k] == x;
        assert cache'[k] == x;
      }
    }
  }

  lemma SlotReplaced(cache: seq<nat>, used: seq<bool>, s: set<nat>, slot: nat, c: nat)
    requires Slots(cache, used, |cache|, s) && slot < |cache| && c !in s
    ensures Slots(cache[slot := c], used[slot := true], |cache|, s - {cache[slot]} + {c})
  {
    var cache' := cache[slot := c];
    Exchanged(s, cache[slot], c);
    forall x | x in s - {cache[slot]} + {c} ensures exists k :: 0 <= k < |cache| && cache'[k] == x {
      if x == c {
        assert cache'[slot] == x;
      } else {
        var k :| 0 <= k < |cache| && cache[k] == x;
        assert cache'[k] == x;
      }
    }
  }

  lemma FurthestBySlot(ref: seq<nat>, i: nat, cache: seq<nat>, used: seq<bool>, s: set<nat>, best: nat)
    requires i < |ref| <= NEVER && Slots(cache, used, |cache|, s) && best < |cache|
    requires forall k :: 0 <= k < |cache| ==> Priority(ref, i + 1, cache[k]) <= Priority(ref, i + 1, cache[best])
    ensures Furthest(ref, i, s, cache[best])
  {
    forall x | x in s ensures Next(ref, i + 1, x) <= Next(ref, i + 1, cache[best]) {
      var k :| 0 <= k < |cache| && cache[k] == x;
      assert Priority(ref, i + 1, cache[k]) <= Priority(ref, i + 1, cache[best]);
    }
  }

  /** Chooses the slot for a missing chunk: the first unused one, else the furthest. */
  method ChooseSlot(ref: seq<nat>, i: nat, cache: array<nat>, used: array<bool>, ghost filled: nat, ghost s: set<nat>)
    returns (slot: nat)
    requires i < |ref| <= NEVER && 0 < cache.Length
    requires Slots(cache[..], used[..], filled, s) && ref[i] !in s
    ensures slot < cache.Length && filled <= cache.Length
    ensures if filled < cache.Length then slot == filled else Furthest(ref, i, s, cache[slot])
  {
    var free := FindFree(used);
    assert filled < cache.Length ==> !used[..][filled] && !used[filled];
    if free >= 0 {
      slot := free;
      assert used[..][slot] == false;
    } else {
      slot := FurthestSlot(ref, i, cache);
      FurthestBySlot(ref, i, cache[..], used[..], s, slot);
    }
  }

  /** Serves `ref[i]`: a chunk in some slot hits; any other takes the slot chosen for it. */
  method Reference(ref: seq<nat>, i: nat, cache: array<nat>, used: array<bool>, ghost filled: nat, ghost s: set<nat>)
    returns (miss: bool, ghost filled': nat, ghost s': set<nat>)
    requires i < |ref| <= NEVER && 0 < cache.Length && Slots(cache[..], used[..], filled, s)
    modifies cache, used
    ensures Slots(cache[..], used[..], filled', s')
    ensures miss == (ref[i] !in s) && GreedyStep(ref, cache.Length, i, s, s')
  {
    var c := ref[i];
    filled', s' := filled, s;
    var found := FindChunk(cache, used, c);
    miss := found < 0;
    if found >= 0 {
      assert cache[..][found] in s;
      return;
    }
    assert c !in s;
    var slot := ChooseSlot(ref, i, cache, used, filled, s);
    if filled < cache.Length {
      SlotFilled(cache[..], used[..], filled, s, c);
      filled', s' := filled + 1, s + {c};
    } else {
      SlotReplaced(cache[..], used[..], s, slot, c);
      s' := s - {cache[slot]} + {c};
    }
    cache[slot] := c;
    used[slot] := true;
  }

  method NaiveBelady(ref: seq<nat>, capacity: nat) returns (misses: nat)
    requires capacity > 0 && |ref| <= NEVER
    ensures MinimumMisses(ref, capacity, misses)
  {
    var cache := new nat[capacity];
    var used := new bool[capacity](_ => false);
    misses := 0;
    ghost var run, s: set<nat>, filled: nat := Run([], 0), {}, 0;
    for i := 0 to |ref|
      invariant ServedBefore(ref, capacity, i, run, s) && run.misses == misses
      invariant Slots(cache[..], used[..], filled, s)
    {
      var miss;
      ghost var s';
      miss, filled, s' := Reference(ref, i, cache, used, filled, s);
      ServeNext(ref, capacity, i, run, s, s');
      run, s := Served(ref, i, run, s, s'), s';
      if miss {
        misses := misses + 1;
      }
    }
    AllServed(ref, capacity, run, s);
  }

  /** The two solvers report the same misses although they break ties differently. */
  method SelfTest(ref: seq<nat>, capacity: nat) returns (fast: nat, slow: nat)
    requires capacity > 0 && |ref| <= NEVER
    ensures fast == slow
  {
    var total;
    ghost var discards: int, peak: nat;
    fast, total, discards, peak := BeladySimulate(ref, capacity);
    slow := NaiveBelady(ref, capacity);
    MinimumUnique(ref, capacity, fast, slow);
  }
}
