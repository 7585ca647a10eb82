/** The synchronous pager driven by the declared sequence: the online policy is the offline optimum. */
module Serial {
  import opened Arithmetic
  import opened Demand
  import opened Optimality
  import opened ByteBudget
  import opened Belady
  import opened Wp2Opt
  import opened Chunks
  import opened DeclaredPolicies
  import opened Policies
  import opened Budgets
  import opened Pager

  // ---- the declared distance is the true next use, shifted ----

  /** Slots repeat with the sequence. */
  lemma SlotShift(slots: seq<nat>, p: nat, m: nat)
    requires |slots| > 0
    ensures Slot(slots, p + m * |slots|) == Slot(slots, p)
  {
    var n := |slots|;
    var q, r := p / n, p % n;
    assert p == q * n + r;
    assert p + m * n == (q + m) * n + r;
    Modulo(q + m, n, r);
  }

  lemma {:induction false} NextSlotShift(slots: seq<nat>, from: nat, until: nat, m: nat, x: nat)
    requires |slots| > 0 && from <= until
    ensures NextSlot(slots, from + m * |slots|, until + m * |slots|, x) == NextSlot(slots, from, until, x) + m * |slots|
    decreases until - from
  {
    if from < until {
      SlotShift(slots, from, m);
      NextSlotShift(slots, from + 1, until, m, x);
    }
  }

  /** In the repeated string the next use is the next slot, if the string lasts that long. */
  lemma {:induction false} NextIsSlot(pass: seq<nat>, passes: nat, m: nat, x: nat)
    requires |pass| > 0 && m <= |pass| * passes
    ensures Next(Repeated(pass, passes), m, x) == NextSlot(pass, m, |pass| * passes, x)
    decreases |pass| * passes - m
  {
    var ref := Repeated(pass, passes);
    if m < |ref| {
      assert ref[m] == Slot(pass, m);
      NextIsSlot(pass, passes, m + 1, x);
    }
  }

  /** Where the endlessly repeated sequence uses `x` next after position `i`. */
  function Upcoming(pass: seq<nat>, i: nat, x: nat): nat
    requires |pass| > 0
  {
    NextSlot(pass, i + 1, i + 1 + |pass|, x)
  }

  lemma NextIsUpcoming(pass: seq<nat>, passes: nat, i: nat, x: nat)
    requires x in pass && i < |pass| * passes
    ensures var u, n := Upcoming(pass, i, x), |pass| * passes;
            Next(Repeated(pass, passes), i + 1, x) == if u < n then u else n
  {
    var n, e := |pass| * passes, i + 1 + |pass|;
    NextInCycle(pass, i + 1, x);
    NextIsSlot(pass, passes, i + 1, x);
    if n <= e {
      NextSlotPrefix(pass, i + 1, n, e, x);
    } else {
      NextSlotPrefix(pass, i + 1, e, n, x);
    }
  }

  /** The consumption position while reference `i` is served: already moved to it, or still behind. */
  predicate Positioned(pass: seq<nat>, i: nat, pos: int, notified: bool)
    requires |pass| > 0
  {
    pos == if notified then i % |pass| else if i == 0 then -1 else (i - 1) % |pass|
  }

  /** The signal modes that match when the signal is given: pre mode needs it before the read. */
  predicate Matched(signalPre: bool, notifyFirst: bool) {
    signalPre ==> notifyFirst
  }

  lemma PositionSplit(pass: seq<nat>, i: nat) returns (m: nat)
    requires |pass| > 0
    ensures i == i % |pass| + m * |pass|
  {
    m := i / |pass|;
    assert i == m * |pass| + i % |pass|;
  }

  /** Searching the cycle from `i` or from just past it finds the same place for another chunk. */
  lemma SearchFrom(pass: seq<nat>, i: nat, x: nat)
    requires x in pass && x != Slot(pass, i)
    ensures NextSlot(pass, i, i + |pass|, x) == Upcoming(pass, i, x) < i + |pass|
  {
    NextInCycle(pass, i, x);
    NextSlotPrefix(pass, i + 1, i + |pass|, i + 1 + |pass|, x);
  }

  /** After the signal, either mode measures from the reference itself. */
  lemma DistanceNotified(pass: seq<nat>, i: nat, pre: bool, x: nat)
    requires x in pass && x != Slot(pass, i)
    ensures CyclicDistance(pass, i % |pass|, false, pre, x) == Upcoming(pass, i, x) - i
  {
    var b := i % |pass|;
    var m := PositionSplit(pass, i);
    SlotShift(pass, b, m);
    SearchFrom(pass, b, x);
    NextSlotShift(pass, b + 1, b + 1 + |pass|, m, x);
  }

  /** Before the signal, post mode measures from the reference before: one further. */
  lemma DistanceLagging(pass: seq<nat>, i: nat, x: nat)
    requires 0 < i && x in pass && x != Slot(pass, i)
    ensures CyclicDistance(pass, (i - 1) % |pass|, false, false, x) == Upcoming(pass, i, x) - i + 1
  {
    var b := (i - 1) % |pass|;
    var m := PositionSplit(pass, i - 1);
    assert b + 1 + m * |pass| == i;
    SlotShift(pass, b + 1, m);
    SearchFrom(pass, b + 1, x);
    NextSlotShift(pass, b + 2, b + 2 + |pass|, m, x);
  }

  /** In every matched mode the ranking of the other chunks is their ranking by true next use. */
  lemma RanksByNextUse(pass: seq<nat>, passes: nat, i: nat, pos: int, pre: bool, notified: bool, x: nat, y: nat)
    requires i < |pass| * passes && Positioned(pass, i, pos, notified) && (pre ==> notified) && (notified || 0 < i)
    requires x in pass && y in pass && x != Slot(pass, i) && y != Slot(pass, i)
    requires CyclicDistance(pass, pos, false, pre, x) <= CyclicDistance(pass, pos, false, pre, y)
    ensures Next(Repeated(pass, passes), i + 1, x) <= Next(Repeated(pass, passes), i + 1, y)
  {
    NextIsUpcoming(pass, passes, i, x);
    NextIsUpcoming(pass, passes, i, y);
    if notified {
      DistanceNotified(pass, i, pre, x);
      DistanceNotified(pass, i, pre, y);
    } else {
      DistanceLagging(pass, i, x);
      DistanceLagging(pass, i, y);
    }
  }

  // ---- the run ----

  /** No pins, no retention, no fetch under way: only the pass's chunks may be resident. */
  ghost predicate Quiet(view: View, pass: seq<nat>) {
    && view.fifo == []
    && forall i :: 0 <= i < |view.chunks| ==>
         view.chunks[i].pin == 0 && !view.chunks[i].state.Fetching? && (view.chunks[i].state.Resident? ==> i in pass)
  }

  /** The same while chunk `c` is being fetched. */
  ghost predicate QuietBut(view: View, pass: seq<nat>, c: nat) {
    && view.fifo == [] && c < |view.chunks| && view.chunks[c].state.Fetching?
    && (forall i :: 0 <= i < |view.chunks| ==> view.chunks[i].pin == 0 && (view.chunks[i].state.Resident? ==> i in pass))
    && (forall i :: 0 <= i < |view.chunks| && i != c ==> !view.chunks[i].state.Fetching?)
  }

  /** With the declared policy in a matched mode, every victim is a furthest resident chunk. */
  lemma VictimIsFurthest(pass: seq<nat>, passes: nat, i: nat, pos: int, pre: bool, notified: bool, view: View, v: nat)
    requires i < |pass| * passes && Positioned(pass, i, pos, notified) && (pre ==> notified) && (notified || 0 < i)
    requires QuietBut(view, pass, Slot(pass, i))
    requires DeclaredState(pass, pos, false, pre).Chosen(view.chunks, v)
    ensures Furthest(Repeated(pass, passes), i, ResidentSet(view.chunks), v)
  {
    var p := DeclaredState(pass, pos, false, pre);
    forall x | x in ResidentSet(view.chunks)
      ensures Next(Repeated(pass, passes), i + 1, x) <= Next(Repeated(pass, passes), i + 1, v)
    {
      assert Evictable(view.chunks, x);
      assert p.Rank(view.chunks, x) <= p.Rank(view.chunks, v);
      RanksByNextUse(pass, passes, i, pos, pre, notified, x, v);
    }
  }

  /** Evictions unpin and fetch nothing, so they leave the region as quiet as it was. */
  lemma {:induction false} RunKeepsQuiet(pass: seq<nat>, p: PolicyState, breakPins: bool, len: seq<nat>, room: int, c: nat,
                                         trace: seq<View>, victims: seq<nat>, j: nat)
    requires EvictionRun(p, breakPins, len, room, trace, victims) && j <= |victims|
    requires |trace[0].chunks| == |len| && QuietBut(trace[0], pass, c)
    ensures |trace[j].chunks| == |len| && QuietBut(trace[j], pass, c)
    ensures 0 < j ==> |trace[j - 1].chunks| == |len| && p.Ok(|len|)
    ensures 0 < j ==> p.Chosen(trace[j - 1].chunks, victims[j - 1]) && trace[j] == Dropped(trace[j - 1], victims[j - 1])
  {
    if j > 0 {
      RunKeepsQuiet(pass, p, breakPins, len, room, c, trace, victims, j - 1);
      assert EvictionAt(p, breakPins, len, room, trace, victims, j - 1);
    }
  }

  /** An eviction run of the declared policy evicts by Belady's rule. */
  lemma {:induction false} RunIsEvicting(pass: seq<nat>, passes: nat, len: seq<nat>, budget: nat, i: nat,
                                         pos: int, pre: bool, notified: bool, breakPins: bool,
                                         trace: seq<View>, victims: seq<nat>, j: nat)
    requires i < |pass| * passes && Positioned(pass, i, pos, notified) && (pre ==> notified)
    requires Slot(pass, i) < |len|
    requires EvictionRun(DeclaredState(pass, pos, false, pre), breakPins, len, budget - len[Slot(pass, i)], trace, victims)
    requires |trace[0].chunks| == |len| && QuietBut(trace[0], pass, Slot(pass, i))
    requires notified || 0 < i || ResidentSet(trace[0].chunks) == {}
    requires j <= |victims|
    ensures |trace[j].chunks| == |len| && QuietBut(trace[j], pass, Slot(pass, i))
    ensures Evicting(Repeated(pass, passes), len, budget, i, ResidentSet(trace[0].chunks), ResidentSet(trace[j].chunks), len[Slot(pass, i)])
  {
    if j > 0 {
      RunIsEvicting(pass, passes, len, budget, i, pos, pre, notified, breakPins, trace, victims, j - 1);
      var p, before, v := DeclaredState(pass, pos, false, pre), trace[j - 1], victims[j - 1];
      assert EvictionAt(p, breakPins, len, budget - len[Slot(pass, i)], trace, victims, j - 1);
      EvictionKeeps(p, breakPins, before, trace[j], v);
      assert v in ResidentSet(trace[0].chunks);
      VictimIsFurthest(pass, passes, i, pos, pre, notified, before, v);
      EvictOne(Repeated(pass, passes), len, budget, i, ResidentSet(trace[0].chunks), ResidentSet(before.chunks), len[Slot(pass, i)], v);
    }
  }

  /** Everything the pass needs fits the budget on its own. */
  ghost predicate Fits(pass: seq<nat>, len: seq<nat>, budget: nat) {
    |pass| > 0 && InTable(pass, len) && forall i :: 0 <= i < |pass| ==> len[pass[i]] <= budget
  }

  /** The region while reference `i` is served, its consumption signal given or not. */
  ghost predicate Running(r: Region, pass: seq<nat>, i: nat, notified: bool)
    requires |pass| > 0
    reads r, r.chunks, r.ring, r.ring.queue, Frame(r.policy)
  {
    && r.Valid() && r.reservedBytes == 0 && Quiet(r.Now(), pass)
    && r.policy.Declared? && r.policy.declared.Valid()
    && r.policy.declared.slots == pass && !r.policy.declared.protectCurrent
    && Positioned(pass, i, r.policy.declared.pos, notified)
  }

  /** Everything the pass needs fits, so a demand fetch with nothing pinned cannot fail. */
  lemma NothingLeft(view: View, len: seq<nat>)
    requires |view.chunks| == |len| && NoneEvictable(view.chunks)
    requires forall i :: 0 <= i < |view.chunks| ==> view.chunks[i].pin == 0
    ensures Bytes(ResidentSet(view.chunks), len) == 0
  {
    forall i | 0 <= i < |view.chunks| ensures !view.chunks[i].state.Resident? {
      assert !Evictable(view.chunks, i);
    }
    assert ResidentSet(view.chunks) == {};
    BytesNone(len, |len|);
  }

  lemma Settled(view: View, pass: seq<nat>, c: nat)
    requires QuietBut(view, pass, c) && c in pass
    ensures Quiet(WithState(view, c, Resident), pass)
    ensures ResidentSet(WithState(view, c, Resident).chunks) == ResidentSet(view.chunks) + {c}
    ensures c !in ResidentSet(view.chunks)
  {
  }

  lemma Abandoned(view: View, c: nat)
    requires c < |view.chunks| && view.chunks[c].state.Fetching?
    requires forall i :: 0 <= i < |view.chunks| ==> view.chunks[i].pin == 0
    ensures forall i :: 0 <= i < |view.chunks| ==> WithState(view, c, Absent).chunks[i].pin == 0
  {
  }

  lemma RunStaysQuiet(pass: seq<nat>, p: PolicyState, len: seq<nat>, room: int, c: nat,
                      breakPins: bool, before: View, seqNo: nat, trace: seq<View>, victims: seq<nat>)
    requires |before.chunks| == |len| && Quiet(before, pass) && c < |len| && before.chunks[c].state.Absent?
    requires EvictionRun(p, breakPins, len, room, trace, victims)
    requires trace[0] == View(before.chunks[c := Chunk(Fetching, 0, seqNo)], before.fifo)
    ensures |trace[|victims|].chunks| == |len| && QuietBut(trace[|victims|], pass, c)
  {
    RunKeepsQuiet(pass, p, breakPins, len, room, c, trace, victims, |victims|);
  }

  /** A demand fetch by the declared policy is one step of the byte-budget rule. */
  lemma MissIsByteStep(pass: seq<nat>, passes: nat, len: seq<nat>, budget: nat, i: nat, pos: int, pre: bool, notified: bool,
                       breakPins: bool, before: View, seqNo: nat, trace: seq<View>, victims: seq<nat>)
    requires i < |pass| * passes && Positioned(pass, i, pos, notified) && (pre ==> notified)
    requires Fits(pass, len, budget) && |before.chunks| == |len| && Quiet(before, pass)
    requires i == 0 ==> ResidentSet(before.chunks) == {}
    requires var c := Slot(pass, i);
             && c < |len| && before.chunks[c].state.Absent? && len[c] <= budget
             && EvictionRun(DeclaredState(pass, pos, false, pre), breakPins, len, budget - len[c], trace, victims)
             && trace[0] == View(before.chunks[c := Chunk(Fetching, 0, seqNo)], before.fifo)
    requires Bytes(ResidentSet(trace[|victims|].chunks), len) + len[Slot(pass, i)] <= budget
    ensures |trace[|victims|].chunks| == |len| && QuietBut(trace[|victims|], pass, Slot(pass, i))
    ensures InTable(Repeated(pass, passes), len)
    ensures ByteStep(Repeated(pass, passes), len, budget, i, ResidentSet(before.chunks),
                     ResidentSet(trace[|victims|].chunks) + {Slot(pass, i)})
  {
    var c := Slot(pass, i);
    assert ResidentSet(trace[0].chunks) == ResidentSet(before.chunks);
    RunIsEvicting(pass, passes, len, budget, i, pos, pre, notified, breakPins, trace, victims, |victims|);
    RepeatedInTable(pass, passes, len);
    assert Evicted(Repeated(pass, passes), len, budget, i, ResidentSet(before.chunks), ResidentSet(trace[|victims|].chunks), len[c]);
  }

  /** The consumption signal for the reference at position `i`. */
  method Signal(r: Region, pass: seq<nat>, i: nat)
    requires |pass| > 0 && Running(r, pass, i, false) && Slot(pass, i) < |r.len|
    modifies r.ring, r.ring.queue, r.chunks, Frame(r.policy)
    ensures Running(r, pass, i, true) && r.Now() == old(r.Now())
  {
    InOrderAdvance(pass, i, r.policy.declared.pos);
    r.NotifyAccess(Slot(pass, i));
  }

  /** Touches the chunk of reference `i`, fetching it if it is absent. */
  method Touch(r: Region, pass: seq<nat>, passes: nat, i: nat, ghost notified: bool) returns (miss: bool)
    requires Fits(pass, r.len, r.budgetBytes) && i < |pass| * passes && Slot(pass, i) < |r.len|
    requires InTable(Repeated(pass, passes), r.len)
    requires Running(r, pass, i, notified) && (r.policy.declared.signalPre ==> notified)
    requires i == 0 ==> ResidentSet(r.chunks[..]) == {}
    modifies r, r.chunks, r.ring, r.ring.queue, Frame(r.policy)
    ensures Running(r, pass, i, notified)
    ensures miss == (Slot(pass, i) !in old(ResidentSet(r.chunks[..])))
    ensures ByteStep(Repeated(pass, passes), r.len, r.budgetBytes, i, old(ResidentSet(r.chunks[..])), ResidentSet(r.chunks[..]))
    ensures r.bytesFetched == old(r.bytesFetched) + if miss then r.len[Slot(pass, i)] else 0
    ensures r.absentHandled == old(r.absentHandled) + if miss then 1 else 0
  {
    var c := Slot(pass, i);
    assert Repeated(pass, passes)[i] == c;
    miss := !r.chunks[c].state.Resident?;
    if miss {
      ghost var before, p := r.Now(), StateOf(r.policy);
      assert before.chunks[c].state.Absent? && before.chunks[c].pin == 0;
      var ok;
      ghost var trace, victims;
      ok, trace, victims := HandleAbsent(r, c);
      ghost var last := trace[|victims|];
      RunStaysQuiet(pass, p, r.len, r.budgetBytes - r.len[c], c, r.retentionPinned, before, old(r.faultSeq) + 1, trace, victims);
      Settled(last, pass, c);
      BytesAdd(ResidentSet(last.chunks), c, r.len);
      if !ok {
        Abandoned(last, c);
        NothingLeft(r.Now(), r.len);
      }
      MissIsByteStep(pass, passes, r.len, r.budgetBytes, i, r.policy.declared.pos, r.policy.declared.signalPre, notified,
                     r.retentionPinned, before, old(r.faultSeq) + 1, trace, victims);
    }
  }

  /** One reference of the workload: the signal before the read or after it, and the read. */
  method ServeReference(r: Region, pass: seq<nat>, passes: nat, i: nat, notifyFirst: bool) returns (miss: bool)
    requires Fits(pass, r.len, r.budgetBytes) && i < |pass| * passes && Slot(pass, i) < |r.len|
    requires InTable(Repeated(pass, passes), r.len)
    requires Running(r, pass, i, false) && Matched(r.policy.declared.signalPre, notifyFirst)
    requires i == 0 ==> ResidentSet(r.chunks[..]) == {}
    modifies r, r.chunks, r.ring, r.ring.queue, Frame(r.policy)
    ensures Running(r, pass, i + 1, false)
    ensures miss == (Slot(pass, i) !in old(ResidentSet(r.chunks[..])))
    ensures ByteStep(Repeated(pass, passes), r.len, r.budgetBytes, i, old(ResidentSet(r.chunks[..])), ResidentSet(r.chunks[..]))
    ensures r.bytesFetched == old(r.bytesFetched) + if miss then r.len[Slot(pass, i)] else 0
    ensures r.absentHandled == old(r.absentHandled) + if miss then 1 else 0
  {
    if notifyFirst {
      Signal(r, pass, i);
    }
    miss := Touch(r, pass, passes, i, notifyFirst);
    if !notifyFirst {
      Signal(r, pass, i);
    }
  }

  /** A fresh region with the sequence declared. */
  ghost predicate Ready(r: Region, pass: seq<nat>)
    reads r, r.chunks, r.ring, r.ring.queue, Frame(r.policy)
  {
    && Fits(pass, r.len, r.budgetBytes) && Running(r, pass, 0, false)
    && ResidentSet(r.chunks[..]) == {} && r.bytesFetched == r.absentHandled == 0
  }

  /** The declared policy, driven in declared order, costs exactly what the byte-budget solver computes:
      the same fetches and the same bytes, for chunks of any lengths. */
  method ServeRun(r: Region, pass: seq<nat>, passes: nat, notifyFirst: bool)
    requires Ready(r, pass) && Matched(r.policy.declared.signalPre, notifyFirst)
    modifies r, r.chunks, r.ring, r.ring.queue, Frame(r.policy)
    ensures InTable(Repeated(pass, passes), r.len)
    ensures ByteCost(Repeated(pass, passes), r.len, r.budgetBytes, r.absentHandled, r.bytesFetched)
  {
    ghost var ref := Repeated(pass, passes);
    ghost var cs: seq<set<nat>> := [];
    RepeatedInTable(pass, passes, r.len);
    for i := 0 to |pass| * passes
      invariant Fits(pass, r.len, r.budgetBytes) && Running(r, pass, i, false)
      invariant i == 0 ==> ResidentSet(r.chunks[..]) == {}
      invariant ByteServed(ref, r.len, r.budgetBytes, i, cs, r.absentHandled, r.bytesFetched, ResidentSet(r.chunks[..]))
    {
      assert ref[i] == Slot(pass, i);
      ghost var s, misses, bytes := ResidentSet(r.chunks[..]), r.absentHandled, r.bytesFetched;
      var miss := ServeReference(r, pass, passes, i, notifyFirst);
      ByteServeNext(ref, r.len, r.budgetBytes, i, cs, misses, bytes, s, ResidentSet(r.chunks[..]));
      cs := cs + [ResidentSet(r.chunks[..])];
    }
    assert ByteSchedule(ref, r.len, r.budgetBytes, cs);
  }

  /** A region set up for a declared run. */
  method SetUp(len: seq<nat>, budget: nat, pass: seq<nat>, signalPre: bool, depth: nat, retentionPinned: bool) returns (r: Region)
    requires |len| < CHUNK_NONE && (forall i :: 0 <= i < |len| ==> len[i] > 0) && depth > 0
    requires Fits(pass, len, budget)
    ensures fresh(r) && fresh(r.chunks) && fresh(r.ring) && fresh(r.ring.queue) && fresh(Frame(r.policy))
    ensures Ready(r, pass) && r.len == len && r.budgetBytes == budget && r.retentionPinned == retentionPinned
    ensures r.policy.declared.signalPre == signalPre
  {
    var declared := new DeclaredPolicy(|len|, false, signalPre);
    declared.DeclareSequence(pass);
    r := new Region(len, budget, Declared(declared), depth, retentionPinned, false);
  }

  /** The online run fetches what the offline byte solver says, in every matched signal mode. */
  method OnlineMatchesOffline(len: seq<nat>, budget: nat, pass: seq<nat>, passes: nat, signalPre: bool, notifyFirst: bool)
    returns (fetches: nat, fetchedBytes: nat, misses: nat, missedBytes: nat)
    requires |len| < CHUNK_NONE && (forall i :: 0 <= i < |len| ==> len[i] > 0)
    requires Fits(pass, len, budget) && Matched(signalPre, notifyFirst) && |pass| * passes <= NEVER
    ensures fetches == misses && fetchedBytes == missedBytes
  {
    var r := SetUp(len, budget, pass, signalPre, 1, true);
    ServeRun(r, pass, passes, notifyFirst);
    fetches, fetchedBytes := r.absentHandled, r.bytesFetched;
    misses, missedBytes := Simulate(Repeated(pass, passes), len, budget);
    ByteCostUnique(Repeated(pass, passes), len, budget, fetches, fetchedBytes, misses, missedBytes);
  }

  /** With chunks of one length the online policy is optimal: it fetches exactly as often as the heap
      solver says any schedule must. */
  method OnlineIsOptimal(len: seq<nat>, budget: nat, unit: nat, pass: seq<nat>, passes: nat, signalPre: bool, notifyFirst: bool)
    returns (fetches: nat, optimum: nat)
    requires |len| < CHUNK_NONE && (forall i :: 0 <= i < |len| ==> len[i] > 0)
    requires |pass| > 0 && EqualLengths(pass, len, unit) && 0 < unit <= budget
    requires Matched(signalPre, notifyFirst) && |pass| * passes <= NEVER
    ensures fetches == optimum && MinimumMisses(Repeated(pass, passes), budget / unit, fetches)
  {
    var r := SetUp(len, budget, pass, signalPre, 1, true);
    ServeRun(r, pass, passes, notifyFirst);
    fetches := r.absentHandled;
    ghost var ref := Repeated(pass, passes);
    assert EqualLengths(ref, len, unit);
    CostIsMinimum(ref, len, budget, unit, fetches, r.bytesFetched);
    var total;
    ghost var discards: int, peak: nat;
    optimum, total, discards, peak := BeladySimulate(Repeated(pass, passes), budget / unit);
    MinimumUnique(ref, budget / unit, fetches, optimum);
  }
}
