/** The byte-budget offline solver for a declared pass repeated a number of times. */
module Wp2Opt {
  import opened Arithmetic
  import opened Demand
  import opened Optimality
  import opened ByteBudget
  import opened Belady

  /** The reference string of `passes` repetitions of one pass. */
  function Repeated(pass: seq<nat>, passes: nat): (ref: seq<nat>)
    requires |pass| > 0
    ensures |ref| == |pass| * passes
    ensures forall i :: 0 <= i < |ref| ==> ref[i] == pass[i % |pass|]
  {
    seq(|pass| * passes, i requires 0 <= i => pass[i % |pass|])
  }

  lemma RepeatedInTable(pass: seq<nat>, passes: nat, len: seq<nat>)
    requires |pass| > 0 && InTable(pass, len)
    ensures InTable(Repeated(pass, passes), len)
  {
  }

  lemma PriorityStep(ref: seq<nat>, i: nat, c: nat)
    requires i <= |ref|
    ensures Priority(ref, i, c) == if i == |ref| then NEVER else if ref[i] == c then i else Priority(ref, i + 1, c)
  {
  }

  /** The reverse pass: `nextUse[i]` is where `ref[i]` is referenced next. */
  method NextUses(ref: seq<nat>, n: nat) returns (nextUse: array<nat>)
    requires forall i :: 0 <= i < |ref| ==> ref[i] < n
    ensures fresh(nextUse) && nextUse.Length == |ref|
    ensures forall i :: 0 <= i < |ref| ==> nextUse[i] == Priority(ref, i + 1, ref[i])
  {
    hide Priority;
    nextUse := new nat[|ref|];
    var lastSeen := new nat[n](_ => NEVER);
    forall c | 0 <= c < n ensures lastSeen[c] == Priority(ref, |ref|, c) {
      PriorityStep(ref, |ref|, c);
    }
    for i := |ref| downto 0
      invariant forall c :: 0 <= c < n ==> lastSeen[c] == Priority(ref, i, c)
      invariant forall j :: i <= j < |ref| ==> nextUse[j] == Priority(ref, j + 1, ref[j])
    {
      ghost var before := lastSeen[..];
      nextUse[i] := lastSeen[ref[i]];
      lastSeen[ref[i]] := i;
      forall c | 0 <= c < n ensures lastSeen[c] == Priority(ref, i, c) {
        PriorityStep(ref, i, c);
        assert c != ref[i] ==> lastSeen[c] == before[c];
      }
    }
  }

  /** Every resident chunk carries its next use. */
  ghost predicate UsesKnown(ref: seq<nat>, i: nat, resident: seq<bool>, use: seq<nat>)
    requires i <= |ref| && |resident| == |use|
  {
    forall c :: 0 <= c < |resident| && resident[c] ==> use[c] == Priority(ref, i, c)
  }

  /** The resident chunk used furthest in the future; `n` when nothing is resident. */
  method FurthestResident(ref: seq<nat>, i: nat, resident: array<bool>, use: array<nat>) returns (victim: nat)
    requires i < |ref| <= NEVER && resident.Length == use.Length
    requires UsesKnown(ref, i + 1, resident[..], use[..])
    ensures victim <= resident.Length
    ensures victim < resident.Length ==> Furthest(ref, i, Cached(resident[..]), victim)
    ensures victim == resident.Length ==> Cached(resident[..]) == {}
  {
    var n := resident.Length;
    victim := n;
    var best := 0;
    for k := 0 to n
      invariant victim == n || (victim < n && resident[victim] && best == use[victim])
      invariant victim == n ==> forall j :: 0 <= j < k ==> !resident[j]
      invariant forall j :: 0 <= j < k && resident[j] ==> use[j] <= best
    {
      if resident[k] {
        var d := use[k];
        if victim == n || d > best {
          victim, best := k, d;
        }
      }
    }
    if victim < n {
      forall x | x in Cached(resident[..]) ensures Next(ref, i + 1, x) <= Next(ref, i + 1, victim) {
        assert resident[..][x] && resident[..][victim];
      }
    }
  }

  lemma StillKnown(ref: seq<nat>, i: nat, resident: seq<bool>, use: seq<nat>)
    requires i < |ref| && |resident| == |use| && UsesKnown(ref, i, resident, use)
    requires ref[i] !in Cached(resident)
    ensures UsesKnown(ref, i + 1, resident, use)
  {
    forall c | 0 <= c < |resident| && resident[c] ensures use[c] == Priority(ref, i + 1, c) {
      assert Next(ref, i, c) == Next(ref, i + 1, c);
    }
  }

  lemma KnownServed(ref: seq<nat>, i: nat, resident: seq<bool>, use: seq<nat>, c: nat, flag: bool)
    requires i < |ref| && |resident| == |use| && c == ref[i] < |use|
    requires UsesKnown(ref, i, resident, use) || UsesKnown(ref, i + 1, resident, use)
    ensures UsesKnown(ref, i + 1, resident[c := flag], use[c := Priority(ref, i + 1, c)])
  {
    forall x | 0 <= x < |resident| && x != c && resident[x] ensures use[x] == Priority(ref, i + 1, x) {
      assert Next(ref, i, x) == Next(ref, i + 1, x);
    }
  }

  /** Evicts `victim`, the furthest resident chunk. */
  method Drop(ref: seq<nat>, len: seq<nat>, i: nat, resident: array<bool>, use: array<nat>, residentBytes: nat, victim: nat)
    returns (residentBytes': nat)
    requires i < |ref| && resident.Length == use.Length == |len| && victim < |len| && resident[victim]
    requires residentBytes == Bytes(Cached(resident[..]), len) && UsesKnown(ref, i + 1, resident[..], use[..])
    modifies resident
    ensures Cached(resident[..]) == old(Cached(resident[..])) - {victim}
    ensures residentBytes' == Bytes(Cached(resident[..]), len) && UsesKnown(ref, i + 1, resident[..], use[..])
  {
    ghost var flags := resident[..];
    BytesRemove(Cached(flags), victim, len);
    resident[victim] := false;
    assert resident[..] == flags[victim := false];
    assert Cached(resident[..]) == Cached(flags) - {victim};
    residentBytes' := residentBytes - len[victim];
  }

  /** Evicts, furthest next use first, until chunk `ref[i]` fits. */
  method MakeRoom(ref: seq<nat>, len: seq<nat>, budget: nat, i: nat,
                  resident: array<bool>, use: array<nat>, residentBytes: nat) returns (residentBytes': nat)
    requires i < |ref| <= NEVER && InTable(ref, len) && resident.Length == use.Length == |len|
    requires len[ref[i]] <= budget && residentBytes == Bytes(Cached(resident[..]), len)
    requires UsesKnown(ref, i + 1, resident[..], use[..])
    modifies resident
    ensures Evicted(ref, len, budget, i, old(Cached(resident[..])), Cached(resident[..]), len[ref[i]])
    ensures residentBytes' == Bytes(Cached(resident[..]), len)
    ensures UsesKnown(ref, i + 1, resident[..], use[..])
  {
    residentBytes' := residentBytes;
    var need := len[ref[i]];
    ghost var s, cur := Cached(resident[..]), Cached(resident[..]);
    BytesNone(len, |len|);
    while residentBytes' + need > budget
      invariant cur == Cached(resident[..]) && Evicting(ref, len, budget, i, s, cur, need)
      invariant residentBytes' == Bytes(cur, len)
      invariant UsesKnown(ref, i + 1, resident[..], use[..])
      decreases cur
    {
      var victim := FurthestResident(ref, i, resident, use);
      if victim == |len| {
        break;
      }
      EvictOne(ref, len, budget, i, s, cur, need, victim);
      residentBytes' := Drop(ref, len, i, resident, use, residentBytes', victim);
      cur := cur - {victim};
    }
  }

  /** The table after `i` references: which chunks are resident, their next uses, their bytes. */
  ghost predicate Table(ref: seq<nat>, len: seq<nat>, budget: nat, i: nat,
                        resident: seq<bool>, use: seq<nat>, residentBytes: nat, s: set<nat>)
    requires i <= |ref|
  {
    && |resident| == |use| == |len| && s == Cached(resident)
    && residentBytes == Bytes(s, len) && UsesKnown(ref, i, resident, use)
  }

  /** Serves `ref[i]`, whose next use is `nextUse`. */
  method Reference(ref: seq<nat>, len: seq<nat>, budget: nat, i: nat, nextUse: nat,
                   resident: array<bool>, use: array<nat>, residentBytes: nat, ghost s: set<nat>)
    returns (miss: bool, residentBytes': nat, ghost s': set<nat>)
    requires i < |ref| <= NEVER && InTable(ref, len) && nextUse == Priority(ref, i + 1, ref[i])
    requires Table(ref, len, budget, i, resident[..], use[..], residentBytes, s)
    modifies resident, use
    ensures miss == (ref[i] !in s) && ByteStep(ref, len, budget, i, s, s')
    ensures Table(ref, len, budget, i + 1, resident[..], use[..], residentBytes', s')
  {
    var c := ref[i];
    residentBytes', s' := residentBytes, s;
    miss := !resident[c];
    if resident[c] {
      KnownServed(ref, i, resident[..], use[..], c, true);
      assert resident[..][c := true] == resident[..];
      use[c] := nextUse;
    } else if len[c] > budget {
      KnownServed(ref, i, resident[..], use[..], c, false);
      assert resident[..][c := false] == resident[..];
      use[c] := nextUse;
    } else {
      StillKnown(ref, i, resident[..], use[..]);
      residentBytes' := MakeRoom(ref, len, budget, i, resident, use, residentBytes);
      ghost var kept := Cached(resident[..]);
      BytesAdd(kept, c, len);
      KnownServed(ref, i, resident[..], use[..], c, true);
      ghost var flags := resident[..];
      resident[c] := true;
      assert resident[..] == flags[c := true];
      s' := kept + {c};
      assert Cached(resident[..]) == s';
      residentBytes' := residentBytes' + len[c];
      use[c] := nextUse;
    }
  }

  /** The greedy simulation: misses and missed bytes of the byte-budget rule. */
  method Simulate(ref: seq<nat>, len: seq<nat>, budget: nat) returns (misses: nat, missedBytes: nat)
    requires InTable(ref, len) && |ref| <= NEVER
    ensures ByteCost(ref, len, budget, misses, missedBytes)
  {
    hide Table, ByteStep, ByteServed, Priority;
    var n := |len|;
    var nextUse := NextUses(ref, n);
    var resident := new bool[n](_ => false);
    var use := new nat[n];
    var residentBytes := 0;
    misses, missedBytes := 0, 0;
    ghost var cs: seq<set<nat>> := [];
    ghost var uses := nextUse[..];
    assert forall i :: 0 <= i < |ref| ==> uses[i] == Priority(ref, i + 1, ref[i]);
    NothingServed(ref, len, budget, resident[..], use[..]);
    for i := 0 to |ref|
      invariant nextUse[..] == uses
      invariant |cs| == i && ByteServed(ref, len, budget, i, cs, misses, missedBytes, Before(cs, i))
      invariant Table(ref, len, budget, i, resident[..], use[..], residentBytes, Before(cs, i))
    {
      ghost var s, s' := Before(cs, i), {};
      var miss;
      assert uses[i] == Priority(ref, i + 1, ref[i]);
      miss, residentBytes, s' := Reference(ref, len, budget, i, nextUse[i], resident, use, residentBytes, s);
      ByteServeNext(ref, len, budget, i, cs, misses, missedBytes, s, s');
      cs := cs + [s'];
      if miss {
        misses := misses + 1;
        missedBytes := missedBytes + len[ref[i]];
      }
    }
    ServedCost(ref, len, budget, cs, misses, missedBytes);
  }

  lemma NothingServed(ref: seq<nat>, len: seq<nat>, budget: nat, resident: seq<bool>, use: seq<nat>)
    requires InTable(ref, len) && |resident| == |use| == |len| && forall c :: 0 <= c < |resident| ==> !resident[c]
    ensures Table(ref, len, budget, 0, resident, use, 0, {}) && ByteServed(ref, len, budget, 0, [], 0, 0, {})
  {
    BytesNone(len, |len|);
    assert Cached(resident) == {};
  }

  lemma ServedCost(ref: seq<nat>, len: seq<nat>, budget: nat, cs: seq<set<nat>>, misses: nat, missedBytes: nat)
    requires InTable(ref, len) && |cs| == |ref| && ByteServed(ref, len, budget, |ref|, cs, misses, missedBytes, Before(cs, |ref|))
    ensures ByteCost(ref, len, budget, misses, missedBytes)
  {
    assert ByteSchedule(ref, len, budget, cs);
  }

  // ---- the checks made on the result ----

  /** The string starts with one whole pass. */
  lemma StartsWithPass(pass: seq<nat>, passes: nat, j: nat)
    requires passes > 0 && j < |pass|
    ensures j < |Repeated(pass, passes)| && Repeated(pass, passes)[j] == pass[j]
  {
    Multiples(0, passes, |pass|);
    assert passes * |pass| == |pass| * passes;
    Modulo(0, |pass|, j);
  }

  lemma ReferencedRepeats(pass: seq<nat>, passes: nat, n: nat)
    requires |pass| > 0 && passes > 0 && n == |Repeated(pass, passes)|
    ensures Referenced(Repeated(pass, passes), n) == Referenced(pass, |pass|)
  {
    var ref := Repeated(pass, passes);
    var one, all := Referenced(pass, |pass|), Referenced(ref, n);
    forall x | x in one ensures x in all {
      var j :| 0 <= j < |pass| && pass[j] == x;
      StartsWithPass(pass, passes, j);
    }
    forall x | x in all ensures x in one {
      var j :| 0 <= j < n && ref[j] == x;
      var q := j % |pass|;
      assert 0 <= q < |pass| && pass[q] == x;
    }
  }

  lemma ReferencedNext(pass: seq<nat>, len: seq<nat>, i: nat)
    requires InTable(pass, len) && i < |pass|
    ensures Referenced(pass, i + 1) == Referenced(pass, i) + {pass[i]}
    ensures var isNew := pass[i] !in Referenced(pass, i);
            && |Referenced(pass, i + 1)| == |Referenced(pass, i)| + (if isNew then 1 else 0)
            && Bytes(Referenced(pass, i + 1), len) == Bytes(Referenced(pass, i), len) + if isNew then len[pass[i]] else 0
  {
    if pass[i] in Referenced(pass, i) {
      assert Referenced(pass, i + 1) == Referenced(pass, i);
    } else {
      BytesAdd(Referenced(pass, i), pass[i], len);
    }
  }

  /** Counts the distinct chunks of a pass and adds up their bytes. */
  method Distinct(pass: seq<nat>, len: seq<nat>) returns (distinct: nat, sumDistinct: nat)
    requires InTable(pass, len)
    ensures distinct == |Referenced(pass, |pass|)| && sumDistinct == Bytes(Referenced(pass, |pass|), len)
  {
    var seen := new bool[|len|](_ => false);
    distinct, sumDistinct := 0, 0;
    BytesNone(len, |len|);
    for i := 0 to |pass|
      invariant forall c :: 0 <= c < |len| ==> seen[c] == (c in Referenced(pass, i))
      invariant distinct == |Referenced(pass, i)| && sumDistinct == Bytes(Referenced(pass, i), len)
    {
      ReferencedNext(pass, len, i);
      if !seen[pass[i]] {
        seen[pass[i]] := true;
        distinct := distinct + 1;
        sumDistinct := sumDistinct + len[pass[i]];
      }
    }
  }

  method AllEqual(pass: seq<nat>, len: seq<nat>) returns (equal: bool)
    requires |pass| > 0 && InTable(pass, len)
    ensures equal == EqualLengths(pass, len, len[pass[0]])
  {
    for i := 0 to |pass|
      invariant forall j :: 0 <= j < i ==> len[pass[j]] == len[pass[0]]
    {
      if len[pass[i]] != len[pass[0]] {
        return false;
      }
    }
    return true;
  }

  lemma FloorsHold(pass: seq<nat>, passes: nat, len: seq<nat>, budget: nat, misses: nat, missedBytes: nat)
    requires |pass| > 0 && passes > 0 && InTable(pass, len) && InTable(Repeated(pass, passes), len)
    requires ByteCost(Repeated(pass, passes), len, budget, misses, missedBytes)
    ensures 0 < |Referenced(pass, |pass|)| <= misses && Bytes(Referenced(pass, |pass|), len) <= missedBytes
    ensures EqualLengths(pass, len, len[pass[0]]) ==> missedBytes == misses * len[pass[0]]
  {
    var ref := Repeated(pass, passes);
    var cs :| ByteSchedule(ref, len, budget, cs)
           && misses == Misses(ref, cs, |ref|) && missedBytes == MissBytes(ref, len, cs, |ref|);
    Compulsory(ref, len, budget, cs, |ref|);
    ReferencedRepeats(pass, passes, |ref|);
    assert pass[0] in Referenced(pass, |pass|);
    if EqualLengths(pass, len, len[pass[0]]) {
      EqualBytes(ref, len, len[pass[0]], cs, |ref|);
    }
  }

  lemma CrossCheck(misses: nat, unit: nat, first: nat)
    requires misses > 0
    ensures misses * unit == misses * first <==> unit == first
  {
    if unit < first {
      assert misses * first == misses * unit + misses * (first - unit);
    } else if first < unit {
      assert misses * unit == misses * first + misses * (unit - first);
    }
  }

  /** The whole run.  The compulsory-miss floors never report a failure; the equal-size cross-check
      does exactly when the declared chunks share a length that chunk 0 does not have. */
  method Run(len: seq<nat>, budget: nat, pass: seq<nat>, passes: nat)
    returns (ok: bool, misses: nat, missedBytes: nat, below: bool)
    requires InTable(pass, len) && |pass| * passes <= NEVER
    ensures ok == (|len| > 0 && passes > 0 && |pass| > 0)
    ensures ok ==> InTable(Repeated(pass, passes), len)
    ensures ok ==> ByteCost(Repeated(pass, passes), len, budget, misses, missedBytes)
    ensures ok ==> below == (EqualLengths(pass, len, len[pass[0]]) && len[pass[0]] != len[0])
  {
    ok, misses, missedBytes, below := false, 0, 0, false;
    if |len| == 0 || passes == 0 || |pass| == 0 {
      return;
    }
    var ref := Repeated(pass, passes);
    RepeatedInTable(pass, passes, len);
    misses, missedBytes := Simulate(ref, len, budget);
    FloorsHold(pass, passes, len, budget, misses, missedBytes);
    var distinct, sumDistinct := Distinct(pass, len);
    if misses < distinct {
      below := true;
    }
    if missedBytes < sumDistinct {
      below := true;
    }
    var equal := AllEqual(pass, len);
    if equal && missedBytes != misses * len[0] {
      below := true;
    }
    CrossCheck(misses, len[pass[0]], len[0]);
    ok := true;
  }

  /** A run on which the equal-size cross-check reports a failure although nothing is wrong: chunk 0 is
      not declared and has another length. */
  lemma CrossCheckMisfires(misses: nat, missedBytes: nat)
    requires InTable(Repeated([1], 1), [4096, 8192])
    requires ByteCost(Repeated([1], 1), [4096, 8192], 8192, misses, missedBytes)
    ensures EqualLengths([1], [4096, 8192], 8192) && missedBytes == misses * 8192 != misses * 4096
  {
    FloorsHold([1], 1, [4096, 8192], 8192, misses, missedBytes);
  }

  // ---- agreement with the slot-based solver ----

  /** With equal lengths the byte solver and the heap solver report the same misses. */
  method Agree(ref: seq<nat>, len: seq<nat>, budget: nat, unit: nat) returns (misses: nat, missedBytes: nat, slotMisses: nat)
    requires EqualLengths(ref, len, unit) && 0 < unit <= budget && |ref| <= NEVER
    ensures misses == slotMisses && missedBytes == slotMisses * unit
    ensures MinimumMisses(ref, budget / unit, misses)
  {
    misses, missedBytes := Simulate(ref, len, budget);
    var total;
    ghost var discards: int, peak: nat;
    slotMisses, total, discards, peak := BeladySimulate(ref, budget / unit);
    CostIsMinimum(ref, len, budget, unit, misses, missedBytes);
    MinimumUnique(ref, budget / unit, misses, slotMisses);
  }

  lemma CostIsMinimum(ref: seq<nat>, len: seq<nat>, budget: nat, unit: nat, misses: nat, bytes: nat)
    requires EqualLengths(ref, len, unit) && 0 < unit <= budget && ByteCost(ref, len, budget, misses, bytes)
    ensures 0 < budget / unit && MinimumMisses(ref, budget / unit, misses) && bytes == misses * unit
  {
    var cs :| ByteSchedule(ref, len, budget, cs)
           && misses == Misses(ref, cs, |ref|) && bytes == MissBytes(ref, len, cs, |ref|);
    SlotsFit(unit, 0, budget);
    EqualIsMinimum(ref, len, budget, unit, cs);
  }
}
