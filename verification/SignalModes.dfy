/** Why pre mode needs the signal before the read: given after it, the declared policy is not optimal. */
module SignalModes {
  import opened Demand
  import opened ByteBudget
  import opened Belady
  import opened Wp2Opt
  import opened Chunks
  import opened DeclaredPolicies
  import opened Policies
  import opened Budgets
  import opened Pager
  import opened Serial

  /** Three chunks of one byte, read over and over, and space for two. */
  const PASS: seq<nat> := [0, 1, 2]
  const LENS: seq<nat> := [1, 1, 1]
  const SPACE := 2

  /** The chunks of the last two references before position `i`. */
  function Recent(i: nat): set<nat> {
    if i == 0 then {} else if i == 1 then {0} else {(i - 1) % 3, (i - 2) % 3}
  }

  lemma Cycle(i: nat)
    requires 2 <= i
    ensures (i - 1) % 3 != i % 3 && (i - 2) % 3 != i % 3 && (i - 1) % 3 != (i - 2) % 3
    ensures i % 3 == ((i - 1) % 3 + 1) % 3 && (i - 2) % 3 == ((i - 1) % 3 + 2) % 3
  {
  }

  /** With the position still at the chunk read last, pre mode takes that chunk for imminent and the one
      before it, which is needed next, for the furthest. */
  lemma LaggingRanks(b: nat)
    requires b < 3
    ensures CyclicDistance(PASS, b, false, true, b) == 0
    ensures CyclicDistance(PASS, b, false, true, (b + 2) % 3) == 2
  {
    var x := (b + 2) % 3;
    assert Slot(PASS, b) == b && Slot(PASS, b + 1) == (b + 1) % 3 && Slot(PASS, b + 2) == x;
    assert NextSlot(PASS, b, b + 3, b) == b;
    assert NextSlot(PASS, b, b + 3, x) == NextSlot(PASS, b + 1, b + 3, x) == NextSlot(PASS, b + 2, b + 3, x) == b + 2;
  }

  lemma UnitBytes(s: set<nat>)
    requires forall x :: x in s ==> x < 3
    ensures Bytes(s, LENS) == |s|
  {
    BytesEqual(s, LENS, 3, 1);
  }

  /** Nothing is evicted while there is room. */
  lemma NeedsRoom(p: PolicyState, trace: seq<View>, victims: seq<nat>, j: nat)
    requires EvictionRun(p, true, LENS, SPACE - 1, trace, victims) && j < |victims|
    ensures Bytes(ResidentSet(trace[j].chunks), LENS) > 1
  {
    assert EvictionAt(p, true, LENS, SPACE - 1, trace, victims, j);
  }

  /** So the fetch of reference `i` evicts the chunk that is referenced next. */
  lemma EvictsNext(i: nat, before: View, seqNo: nat, trace: seq<View>, victims: seq<nat>)
    requires |before.chunks| == 3 && Quiet(before, PASS) && ResidentSet(before.chunks) == Recent(i)
    requires before.chunks[i % 3].state.Absent?
    requires var pos := if i == 0 then -1 else (i - 1) % 3;
             EvictionRun(DeclaredState(PASS, pos, false, true), true, LENS, SPACE - 1, trace, victims)
    requires trace[0] == View(before.chunks[i % 3 := Chunk(Fetching, 0, seqNo)], before.fifo)
    requires |ResidentSet(trace[|victims|].chunks)| <= 1
    ensures QuietBut(trace[|victims|], PASS, i % 3) && |trace[|victims|].chunks| == 3
    ensures ResidentSet(trace[|victims|].chunks) + {i % 3} == Recent(i + 1)
  {
    hide EvictionAt, Recent;
    var p := DeclaredState(PASS, if i == 0 then -1 else (i - 1) % 3, false, true);
    assert ResidentSet(trace[0].chunks) == ResidentSet(before.chunks);
    RunKeepsQuiet(PASS, p, true, LENS, SPACE - 1, i % 3, trace, victims, |victims|);
    if i < 2 {
      NoneGoes(i, p, trace, victims);
    } else {
      OneGoes(i, p, trace, victims);
    }
  }

  /** The first two chunks fit. */
  lemma NoneGoes(i: nat, p: PolicyState, trace: seq<View>, victims: seq<nat>)
    requires i < 2 && EvictionRun(p, true, LENS, SPACE - 1, trace, victims) && ResidentSet(trace[0].chunks) == Recent(i)
    ensures ResidentSet(trace[|victims|].chunks) + {i % 3} == Recent(i + 1)
  {
    UnitBytes(Recent(i));
    if |victims| > 0 {
      NeedsRoom(p, trace, victims, 0);
    }
    assert Recent(i + 1) == Recent(i) + {i % 3};
  }

  /** The victim is the older of the last two references. */
  lemma OlderGoes(i: nat, p: PolicyState, chunks: seq<Chunk>, v: nat)
    requires 2 <= i && p == DeclaredState(PASS, (i - 1) % 3, false, true) && |chunks| == 3
    requires (forall x :: 0 <= x < 3 ==> chunks[x].pin == 0) && ResidentSet(chunks) == Recent(i) && p.Chosen(chunks, v)
    ensures v == (i - 2) % 3
  {
    Cycle(i);
    LaggingRanks((i - 1) % 3);
    assert v in ResidentSet(chunks) && (i - 2) % 3 in ResidentSet(chunks);
    assert Evictable(chunks, (i - 2) % 3);
  }

  lemma OneGoes(i: nat, p: PolicyState, trace: seq<View>, victims: seq<nat>)
    requires 2 <= i && p == DeclaredState(PASS, (i - 1) % 3, false, true)
    requires EvictionRun(p, true, LENS, SPACE - 1, trace, victims)
    requires |trace[0].chunks| == 3 && QuietBut(trace[0], PASS, i % 3) && ResidentSet(trace[0].chunks) == Recent(i)
    requires |ResidentSet(trace[|victims|].chunks)| <= 1
    ensures ResidentSet(trace[|victims|].chunks) + {i % 3} == Recent(i + 1)
  {
    hide Slot, CyclicDistance, NextSlot, EvictionAt, ResidentSet;
    Cycle(i);
    var old1, old2 := (i - 1) % 3, (i - 2) % 3;
    assert |Recent(i)| == 2;
    assert |victims| > 0;
    RunKeepsQuiet(PASS, p, true, LENS, SPACE - 1, i % 3, trace, victims, 1);
    OlderGoes(i, p, trace[0].chunks, victims[0]);
    PunchedResident(trace[0].chunks, old2);
    assert ResidentSet(trace[1].chunks) == {old1};
    UnitBytes({old1});
    if |victims| > 1 {
      NeedsRoom(p, trace, victims, 1);
    }
    assert Recent(i + 1) == {i % 3, old1};
  }

  /** One reference of the lagging run: it always misses. */
  method MissAgain(r: Region, i: nat)
    requires Running(r, PASS, i, false) && ResidentSet(r.chunks[..]) == Recent(i)
    requires r.len == LENS && r.budgetBytes == SPACE && r.retentionPinned && r.policy.declared.signalPre
    modifies r, r.chunks, r.ring, r.ring.queue, Frame(r.policy)
    ensures Running(r, PASS, i + 1, false) && ResidentSet(r.chunks[..]) == Recent(i + 1)
    ensures r.policy.declared.signalPre && r.absentHandled == old(r.absentHandled) + 1
  {
    var c := i % 3;
    NextAbsent(i, r.Now());
    ghost var before := r.Now();
    var ok;
    ghost var trace, victims;
    ok, trace, victims := HandleAbsent(r, c);
    Fetched(r, i, before, old(r.faultSeq) + 1, trace, victims, ok);
    Signal(r, PASS, i);
  }

  lemma NextAbsent(i: nat, view: View)
    requires |view.chunks| == 3 && Quiet(view, PASS) && ResidentSet(view.chunks) == Recent(i)
    ensures view.chunks[i % 3].state.Absent? && view.chunks[i % 3].pin == 0 && Slot(PASS, i) == i % 3
  {
    var c := i % 3;
    assert c == 0 || c == 1 || c == 2;
    if i >= 2 {
      Cycle(i);
    }
    assert c !in ResidentSet(view.chunks);
  }

  /** The fetch succeeds and leaves the last two chunks resident. */
  lemma Fetched(r: Region, i: nat, before: View, seqNo: nat, trace: seq<View>, victims: seq<nat>, ok: bool)
    requires |before.chunks| == 3 && Quiet(before, PASS) && ResidentSet(before.chunks) == Recent(i)
    requires r.Valid() && r.len == LENS && r.budgetBytes == SPACE && r.reservedBytes == 0
    requires var pos := if i == 0 then -1 else (i - 1) % 3;
             EvictionRun(DeclaredState(PASS, pos, false, true), true, LENS, SPACE - 1, trace, victims)
    requires trace[0] == View(before.chunks[i % 3 := Chunk(Fetching, 0, seqNo)], before.fifo) && |trace[|victims|].chunks| == 3
    requires r.Now() == WithState(trace[|victims|], i % 3, if ok then Resident else Absent)
    requires ok ==> r.residentBytes + r.reservedBytes <= r.budgetBytes
    requires !ok ==> r.residentBytes + r.reservedBytes + r.len[i % 3] > r.budgetBytes && NoneEvictable(r.chunks[..])
    ensures ok && Quiet(r.Now(), PASS) && ResidentSet(r.chunks[..]) == Recent(i + 1)
  {
    var c, last := i % 3, trace[|victims|];
    var p := DeclaredState(PASS, if i == 0 then -1 else (i - 1) % 3, false, true);
    NextAbsent(i, before);
    RunStaysQuiet(PASS, p, LENS, SPACE - 1, c, true, before, seqNo, trace, victims);
    Settled(last, PASS, c);
    if !ok {
      Abandoned(last, c);
      NothingLeft(r.Now(), r.len);
    }
    UnitBytes(ResidentSet(last.chunks) + {c});
    EvictsNext(i, before, seqNo, trace, victims);
  }

  method MissAlways(r: Region, passes: nat)
    requires Running(r, PASS, 0, false) && ResidentSet(r.chunks[..]) == {} && r.absentHandled == 0
    requires r.len == LENS && r.budgetBytes == SPACE && r.retentionPinned && r.policy.declared.signalPre
    modifies r, r.chunks, r.ring, r.ring.queue, Frame(r.policy)
    ensures r.absentHandled == 3 * passes
  {
    for i := 0 to 3 * passes
      invariant Running(r, PASS, i, false) && ResidentSet(r.chunks[..]) == Recent(i)
      invariant r.policy.declared.signalPre && r.absentHandled == i
    {
      MissAgain(r, i);
    }
  }

  /** Pre mode with the signal after the read thrashes: every single reference is fetched. */
  method LaggingRun(passes: nat) returns (fetches: nat)
    ensures fetches == 3 * passes
  {
    var r := Serial.SetUp(LENS, SPACE, PASS, true, 1, true);
    MissAlways(r, passes);
    fetches := r.absentHandled;
  }

  /** A schedule of the same string that keeps chunk 0 over the first repetition. */
  function Keeping(n: nat): seq<set<nat>> {
    seq(n, (i: nat) => if i == 1 then {0, 1} else if i == 2 || i == 3 then {0, 2} else {i % 3})
  }

  lemma {:induction false} KeepingMisses(ref: seq<nat>, cs: seq<set<nat>>, i: nat)
    requires cs == Keeping(|ref|) && i <= |ref| && forall j :: 0 <= j < |ref| ==> ref[j] == j % 3
    ensures Misses(ref, cs, i) <= i - if i >= 4 then 1 else 0
  {
    if i > 0 {
      KeepingMisses(ref, cs, i - 1);
    }
  }

  lemma KeepingIsDemand(ref: seq<nat>)
    requires forall j :: 0 <= j < |ref| ==> ref[j] == j % 3
    ensures DemandSchedule(ref, SPACE, Keeping(|ref|))
  {
    var cs := Keeping(|ref|);
    forall i | 0 <= i < |ref| ensures DemandAt(ref, SPACE, cs, i) {
      assert i > 0 ==> Before(cs, i) == cs[i - 1];
    }
  }

  /** Over two or more passes the lagging run fetches more often than the optimum, so the declared policy
      is optimal on every input in the matched modes and only in those. */
  method LaggingIsNotOptimal(passes: nat) returns (fetches: nat, optimum: nat)
    requires 2 <= passes && 3 * passes <= NEVER
    ensures MinimumMisses(Repeated(PASS, passes), SPACE, optimum) && fetches > optimum
  {
    fetches := LaggingRun(passes);
    ghost var ref := Repeated(PASS, passes);
    forall j | 0 <= j < |ref| ensures ref[j] == j % 3 {
    }
    var total;
    ghost var discards: int, peak: nat;
    optimum, total, discards, peak := BeladySimulate(Repeated(PASS, passes), SPACE);
    KeepingIsDemand(ref);
    KeepingMisses(ref, Keeping(|ref|), |ref|);
  }
}
