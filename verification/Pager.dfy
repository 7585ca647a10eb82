/** The synchronous fault path: one thread fetches, evicts and prefetches. */
module Pager {
  import opened Chunks
  import opened ByteBudget
  import opened RetentionRings
  import opened Policies
  import opened Budgets

  /** No chunk is being fetched, and only retained chunks carry a pin, that of their retention; what
      is true of the chunks of `busy` is left open. */
  ghost predicate AtRestBut(view: View, busy: set<nat>) {
    forall i: nat :: i < |view.chunks| && i !in busy ==>
      !view.chunks[i].state.Fetching? && view.chunks[i].pin == if i in view.fifo then 1 else 0
  }

  lemma AbsentUnpinned(view: View, c: nat, busy: set<nat>)
    requires Retained(view) && AtRestBut(view, busy) && c < |view.chunks|
    ensures c !in busy ==> !view.chunks[c].state.Fetching?
    ensures view.chunks[c].state.Absent? && c !in busy ==> view.chunks[c].pin == 0 && c !in view.fifo
  {
  }

  lemma UnpinnedRests(view: View, c: nat)
    requires AtRestBut(view, {c}) && c < |view.chunks| && !view.chunks[c].state.Fetching? && c !in view.fifo
    ensures AtRestBut(View(Repinned(view.chunks, c, 0), view.fifo), {})
  {
  }

  lemma BusyPinned(view: View, c: nat, pin: nat, busy: set<nat>)
    requires c < |view.chunks| && c in busy
    ensures AtRestBut(view, busy) <==> AtRestBut(View(Repinned(view.chunks, c, pin), view.fifo), busy)
  {
  }

  function WithState(view: View, c: nat, state: ChunkState): View
    requires c < |view.chunks|
  {
    view.(chunks := view.chunks[c := view.chunks[c].(state := state)])
  }

  /** The view once chunk `c` has been fetched, pinned by its own fetch. */
  function Arrived(view: View, c: nat): View
    requires c < |view.chunks|
  {
    view.(chunks := view.chunks[c := view.chunks[c].(state := Resident, pin := view.chunks[c].pin + 1)])
  }

  /** An eviction run leaves alone a chunk that is not resident, or is pinned without being retained;
      and it keeps what is retained sound. */
  lemma {:induction false} RunLeaves(p: PolicyState, breakPins: bool, len: seq<nat>, room: int,
                                     trace: seq<View>, victims: seq<nat>, j: nat, c: nat)
    requires EvictionRun(p, breakPins, len, room, trace, victims) && j <= |victims|
    requires Retained(trace[0]) && c < |trace[0].chunks|
    requires !Evictable(trace[0].chunks, c) && c !in trace[0].fifo
    ensures |trace[j].chunks| == |trace[0].chunks| && trace[j].chunks[c] == trace[0].chunks[c]
    ensures Retained(trace[j]) && c !in trace[j].fifo
  {
    if j > 0 {
      RunLeaves(p, breakPins, len, room, trace, victims, j - 1, c);
      assert EvictionAt(p, breakPins, len, room, trace, victims, j - 1);
      EvictionKeeps(p, breakPins, trace[j - 1], trace[j], victims[j - 1]);
      if !p.Chosen(trace[j - 1].chunks, victims[j - 1]) {
        RemovedKeeps(trace[j - 1].fifo, victims[j - 1]);
      }
    }
  }

  lemma EvictionRests(p: PolicyState, breakPins: bool, before: View, after: View, v: nat, busy: set<nat>)
    requires p.Ok(|before.chunks|) && Retained(before) && Eviction(p, breakPins, before, after, v) && AtRestBut(before, busy)
    ensures AtRestBut(after, busy)
  {
    if !p.Chosen(before.chunks, v) {
      RemovedKeeps(before.fifo, v);
    }
  }

  /** Evictions change no pin but that of a retention they break. */
  lemma {:induction false} RunRests(p: PolicyState, breakPins: bool, len: seq<nat>, room: int,
                                    trace: seq<View>, victims: seq<nat>, j: nat, busy: set<nat>)
    requires EvictionRun(p, breakPins, len, room, trace, victims) && j <= |victims|
    requires Retained(trace[0]) && AtRestBut(trace[0], busy)
    ensures Retained(trace[j]) && AtRestBut(trace[j], busy)
  {
    if j > 0 {
      RunRests(p, breakPins, len, room, trace, victims, j - 1, busy);
      assert EvictionAt(p, breakPins, len, room, trace, victims, j - 1);
      EvictionKeeps(p, breakPins, trace[j - 1], trace[j], victims[j - 1]);
      EvictionRests(p, breakPins, trace[j - 1], trace[j], victims[j - 1], busy);
    }
  }

  /** So a fetch finds its chunk as it left it. */
  lemma RunOver(p: PolicyState, breakPins: bool, len: seq<nat>, room: int, trace: seq<View>, victims: seq<nat>, c: nat, busy: set<nat>)
    requires EvictionRun(p, breakPins, len, room, trace, victims)
    requires Retained(trace[0]) && c < |trace[0].chunks| && !Evictable(trace[0].chunks, c) && c !in trace[0].fifo
    ensures |trace| == |victims| + 1
    ensures var last := trace[|victims|];
            && |last.chunks| == |trace[0].chunks| && last.chunks[c] == trace[0].chunks[c] && Retained(last) && c !in last.fifo
            && (AtRestBut(trace[0], busy) ==> AtRestBut(last, busy))
  {
    hide AtRestBut;
    RunLeaves(p, breakPins, len, room, trace, victims, |victims|, c);
    if AtRestBut(trace[0], busy) {
      RunRests(p, breakPins, len, room, trace, victims, |victims|, busy);
    }
  }

  /** Starting a fetch of an absent chunk changes nothing that is resident or retained. */
  lemma FetchStarted(view: View, c: nat, chunk: Chunk)
    requires Retained(view) && c < |view.chunks| && !view.chunks[c].state.Resident? && !chunk.state.Resident?
    ensures Retained(View(view.chunks[c := chunk], view.fifo)) && c !in view.fifo
    ensures ResidentSet(view.chunks[c := chunk]) == ResidentSet(view.chunks)
  {
  }

  lemma FetchDone(view: View, c: nat, pin: nat, len: seq<nat>)
    requires Retained(view) && c < |view.chunks| == |len| && !view.chunks[c].state.Resident?
    ensures var cs := view.chunks[c := view.chunks[c].(state := Resident, pin := pin)];
            Retained(View(cs, view.fifo)) && c !in view.fifo
            && ResidentSet(cs) == ResidentSet(view.chunks) + {c}
            && Bytes(ResidentSet(cs), len) == Bytes(ResidentSet(view.chunks), len) + len[c]
  {
    BytesAdd(ResidentSet(view.chunks), c, len);
  }

  lemma NoneStill(chunks: seq<Chunk>, c: nat)
    requires NoneEvictable(chunks) && c < |chunks|
    ensures NoneEvictable(chunks[c := chunks[c].(state := Absent)])
  {
    var after := chunks[c := chunks[c].(state := Absent)];
    forall i | 0 <= i < |after| ensures !Evictable(after, i) {
      assert !Evictable(chunks, i);
    }
  }

  /** Marks chunk `c` as being fetched and tells the policy. */
  method StartFetch(r: Region, c: nat)
    requires r.Valid() && c < |r.len| && r.chunks[c].state.Absent?
    modifies r`faultSeq, r.chunks, Learning(r.policy)
    ensures r.Valid() && r.faultSeq == old(r.faultSeq) + 1
    ensures r.chunks[..] == old(r.chunks[..])[c := Chunk(Fetching, old(r.chunks[c].pin), r.faultSeq)]
    ensures r.ring.Contents() == old(r.ring.Contents()) && c !in r.ring.Contents()
    ensures Learnt(old(StateOf(r.policy)), StateOf(r.policy), c)
  {
    ghost var view := r.Now();
    r.faultSeq := r.faultSeq + 1;
    FetchStarted(view, c, Chunk(Fetching, view.chunks[c].pin, r.faultSeq));
    r.chunks[c] := Chunk(Fetching, r.chunks[c].pin, r.faultSeq);
    assert r.chunks[..] == view.chunks[c := Chunk(Fetching, view.chunks[c].pin, r.faultSeq)];
    match r.policy {
      case Learned(learned) => learned.OnFault(c);
      case _ =>
    }
  }

  /** Turns the reservation of a fetched chunk into residency, and pins the chunk. */
  method FinishFetch(r: Region, c: nat)
    requires r.Valid() && c < |r.len| && r.chunks[c].state.Fetching? && r.len[c] <= r.reservedBytes
    modifies r`reservedBytes, r`residentBytes, r`bytesFetched, r.chunks
    ensures r.Valid() && r.reservedBytes == old(r.reservedBytes) - r.len[c]
    ensures r.residentBytes == old(r.residentBytes) + r.len[c]
    ensures r.bytesFetched == old(r.bytesFetched) + r.len[c]
    ensures r.Now() == Arrived(old(r.Now()), c)
  {
    ghost var view := r.Now();
    FetchDone(view, c, view.chunks[c].pin + 1, r.len);
    r.CommitReservedAndPin(c, r.len[c]);
    r.chunks[c] := r.chunks[c].(state := Resident);
    r.bytesFetched := r.bytesFetched + r.len[c];
    assert r.chunks[..] == Arrived(view, c).chunks;
  }

  /** Gives a fetch up. */
  method AbandonFetch(r: Region, c: nat)
    requires r.Valid() && c < |r.len| && r.chunks[c].state.Fetching?
    modifies r.chunks
    ensures r.Valid() && r.Now() == WithState(old(r.Now()), c, Absent)
  {
    ghost var view := r.Now();
    FetchStarted(view, c, view.chunks[c].(state := Absent));
    r.chunks[c] := r.chunks[c].(state := Absent);
    assert r.chunks[..] == view.chunks[c := view.chunks[c].(state := Absent)];
  }

  /** Fetches absent chunk `c` on demand.  It evicts by the policy until the chunk fits, and either
      makes it resident, with the fetch's pin on it, or, with nothing left to evict, gives up. */
  method FetchAbsent(r: Region, c: nat) returns (ok: bool, ghost trace: seq<View>, ghost victims: seq<nat>)
    requires r.Valid() && c < |r.len| && r.chunks[c].state.Absent?
    modifies r, r.chunks, r.ring, r.ring.queue, Learning(r.policy)
    ensures r.Valid() && r.reservedBytes == old(r.reservedBytes) && r.absentHandled == old(r.absentHandled)
    ensures Learnt(old(StateOf(r.policy)), StateOf(r.policy), c)
    ensures EvictionRun(StateOf(r.policy), r.retentionPinned, r.len, r.budgetBytes - r.reservedBytes - r.len[c], trace, victims)
    ensures trace[0] == View(old(r.chunks[..])[c := Chunk(Fetching, old(r.chunks[c].pin), old(r.faultSeq) + 1)],
                             old(r.ring.Contents()))
    ensures |trace[|victims|].chunks| == |r.len| && trace[|victims|].chunks[c] == trace[0].chunks[c]
    ensures r.Now() == if ok then Arrived(trace[|victims|], c) else WithState(trace[|victims|], c, Absent)
    ensures c !in r.ring.Contents()
    ensures r.bytesFetched == old(r.bytesFetched) + if ok then r.len[c] else 0
    ensures ok ==> r.residentBytes + r.reservedBytes <= r.budgetBytes
    ensures !ok ==> r.residentBytes + r.reservedBytes + r.len[c] > r.budgetBytes
    ensures !ok ==> NoneEvictable(r.chunks[..]) && (r.retentionPinned ==> r.ring.Contents() == [])
    ensures old(AtRestBut(r.Now(), {})) ==> r.chunks[c].pin == (if ok then 1 else 0) && AtRestBut(r.Now(), if ok then {c} else {})
  {
    hide Retained, ResidentSet, RetentionRing.At, RetentionRing.Cell, RetentionRing.Contents,
      EvictionAt, NoneEvictable, PolicyState.Ok, Bytes, Learnt;
    if AtRestBut(r.Now(), {}) {
      AbsentUnpinned(r.Now(), c, {});
    }
    StartFetch(r, c);
    ghost var p, room := StateOf(r.policy), r.budgetBytes - r.reservedBytes - r.len[c];
    var rc;
    rc, trace, victims := r.EnsureBudget(r.len[c]);
    RunOver(p, r.retentionPinned, r.len, room, trace, victims, c, {c});
    ok := rc == 0;
    if ok {
      FinishFetch(r, c);
    } else {
      NoneStill(r.chunks[..], c);
      AbandonFetch(r, c);
    }
  }

  /** Takes the fetch's own pin off `c` again. */
  lemma FetchUnpinned(view: View, c: nat)
    requires c < |view.chunks| && view.chunks[c].state.Fetching?
    ensures Repinned(Arrived(view, c).chunks, c, view.chunks[c].pin) == WithState(view, c, Resident).chunks
  {
  }

  /** Handles the fault on an absent chunk, prefetching off. */
  method HandleAbsent(r: Region, c: nat) returns (ok: bool, ghost trace: seq<View>, ghost victims: seq<nat>)
    requires r.Valid() && c < |r.len| && r.chunks[c].state.Absent?
    modifies r, r.chunks, r.ring, r.ring.queue, Learning(r.policy)
    ensures r.Valid() && r.reservedBytes == old(r.reservedBytes) && Learnt(old(StateOf(r.policy)), StateOf(r.policy), c)
    ensures EvictionRun(StateOf(r.policy), r.retentionPinned, r.len, r.budgetBytes - r.reservedBytes - r.len[c], trace, victims)
    ensures trace[0] == View(old(r.chunks[..])[c := Chunk(Fetching, old(r.chunks[c].pin), old(r.faultSeq) + 1)],
                             old(r.ring.Contents()))
    ensures |trace[|victims|].chunks| == |r.len|
    ensures r.Now() == WithState(trace[|victims|], c, if ok then Resident else Absent)
    ensures ok ==> r.residentBytes + r.reservedBytes <= r.budgetBytes
    ensures ok ==> r.bytesFetched == old(r.bytesFetched) + r.len[c] && r.absentHandled == old(r.absentHandled) + 1
    ensures !ok ==> r.bytesFetched == old(r.bytesFetched) && r.absentHandled == old(r.absentHandled)
    ensures !ok ==> r.residentBytes + r.reservedBytes + r.len[c] > r.budgetBytes
    ensures !ok ==> NoneEvictable(r.chunks[..]) && (r.retentionPinned ==> r.ring.Contents() == [])
    ensures old(AtRestBut(r.Now(), {})) ==> AtRestBut(r.Now(), {})
  {
    hide Retained, ResidentSet, RetentionRing.At, RetentionRing.Cell, RetentionRing.Contents,
      EvictionAt, NoneEvictable, PolicyState.Ok, Bytes;
    ok, trace, victims := FetchAbsent(r, c);
    if ok {
      FetchUnpinned(trace[|victims|], c);
      PinsAside(r.Now(), c, r.chunks[c].pin - 1);
      r.UnpinChunk(c);
      r.absentHandled := r.absentHandled + 1;
    }
  }

  /** Pins `target` and marks it as being fetched. */
  method MarkTarget(r: Region, target: nat)
    requires r.Valid() && target < |r.len| && r.chunks[target].state.Absent? && r.chunks[target].pin == 0
    modifies r`faultSeq, r.chunks
    ensures r.Valid() && r.faultSeq == old(r.faultSeq) + 1 && r.ring.Contents() == old(r.ring.Contents())
    ensures r.chunks[..] == old(r.chunks[..])[target := Chunk(Fetching, 1, r.faultSeq)]
    ensures target !in r.ring.Contents() && ResidentSet(r.chunks[..]) == old(ResidentSet(r.chunks[..]))
    ensures forall busy :: old(AtRestBut(r.Now(), busy)) ==> AtRestBut(r.Now(), busy + {target})
  {
    ghost var view := r.Now();
    r.faultSeq := r.faultSeq + 1;
    FetchStarted(view, target, Chunk(Fetching, 1, r.faultSeq));
    r.chunks[target] := Chunk(Fetching, r.chunks[target].pin + 1, r.faultSeq);
    assert r.chunks[..] == view.chunks[target := Chunk(Fetching, 1, r.faultSeq)];
  }

  /** The victims of a prefetch, and why it has none or gives up. */
  lemma PrefetchRun(p: PolicyState, unguarded: bool, len: seq<nat>, room: int, trace: seq<View>, victims: seq<nat>, target: nat)
    requires EvictionRun(p, false, len, room, trace, victims) && Retained(trace[0]) && p.Ok(|len|)
    requires forall v :: v in victims ==> unguarded || p.NextUse(v) > p.NextUse(target)
    ensures var before, after := ResidentSet(trace[0].chunks), ResidentSet(trace[|victims|].chunks);
            && Justified(p, |len|, unguarded, before, after, target)
            && (Bytes(before, len) <= room ==> after == before)
  {
    RunLoses(p, false, len, room, trace, victims, |victims|);
  }

  /** Asks for the bytes of `target`, which is being fetched, with `c` pinned too. */
  method AskFor(r: Region, c: nat, target: nat) returns (rc: int)
    requires r.Valid() && c < |r.len| && target < |r.len| && target != c
    requires r.chunks[c].state.Resident? && r.chunks[c].pin == 1 && c !in r.ring.Contents()
    requires r.chunks[target].state.Fetching? && r.chunks[target].pin == 1 && target !in r.ring.Contents()
    modifies r`residentBytes, r`reservedBytes, r`evictions, r`bytesPunched, r`infeasible, r`declined, r.chunks
    ensures r.Valid() && StateOf(r.policy) == old(StateOf(r.policy)) && r.ring.Contents() == old(r.ring.Contents())
    ensures r.chunks[c] == old(r.chunks[c]) && r.chunks[target] == old(r.chunks[target])
    ensures rc == 0 ==> r.reservedBytes == old(r.reservedBytes) + r.len[target] && r.residentBytes + r.reservedBytes <= r.budgetBytes
    ensures rc != 0 ==> r.reservedBytes == old(r.reservedBytes) && r.residentBytes + r.reservedBytes + r.len[target] > r.budgetBytes
    ensures rc != 0 ==> NoneMakesWay(StateOf(r.policy), r.Unguarded(), r.chunks[..], target, {c})
    ensures r.residentBytes <= old(r.residentBytes)
    ensures Justified(StateOf(r.policy), |r.len|, r.Unguarded(), old(ResidentSet(r.chunks[..])), ResidentSet(r.chunks[..]), target)
    ensures old(r.residentBytes + r.reservedBytes) + r.len[target] <= r.budgetBytes ==>
              rc == 0 && ResidentSet(r.chunks[..]) == old(ResidentSet(r.chunks[..]))
    ensures old(AtRestBut(r.Now(), {c, target})) ==> AtRestBut(r.Now(), {c, target})
  {
    hide Retained, ResidentSet, RetentionRing.At, RetentionRing.Cell, RetentionRing.Contents,
      EvictionAt, PolicyState.Ok, Bytes, AtRestBut, NoneMakesWay, Justified;
    ghost var busy, started := {c, target}, r.Now();
    PinsAside(started, c, 2);
    BusyPinned(started, c, 2, busy);
    r.PinChunk(c);
    assert r.Now() == View(Repinned(started.chunks, c, 2), started.fifo);
    ghost var trace, victims;
    rc, trace, victims := r.EnsureBudgetPrefetch(target);
    ghost var p, room := StateOf(r.policy), r.budgetBytes - old(r.reservedBytes) - r.len[target];
    RunOver(p, false, r.len, room, trace, victims, c, busy);
    RunOver(p, false, r.len, room, trace, victims, target, busy);
    PrefetchRun(p, r.Unguarded(), r.len, room, trace, victims, target);
    if rc != 0 {
      StillNoneMakesWay(p, r.Unguarded(), r.chunks[..], target, {}, c, r.chunks[c].(pin := 1));
      assert {} + {c} == {c};
    }
    PinsAside(r.Now(), c, 1);
    BusyPinned(r.Now(), c, 1, busy);
    r.UnpinChunk(c);
  }

  /** Pins `target` and marks it as being fetched, then asks for its bytes. */
  method ReserveFor(r: Region, c: nat, target: nat) returns (rc: int)
    requires r.Valid() && c < |r.len| && target < |r.len| && target != c
    requires r.chunks[c].state.Resident? && r.chunks[c].pin == 1 && c !in r.ring.Contents()
    requires r.chunks[target].state.Absent? && r.chunks[target].pin == 0
    modifies r, r.chunks
    ensures r.Valid() && StateOf(r.policy) == old(StateOf(r.policy)) && r.ring.Contents() == old(r.ring.Contents())
    ensures r.chunks[c] == old(r.chunks[c])
    ensures r.chunks[target].state.Fetching? && r.chunks[target].pin == 1 && target !in r.ring.Contents()
    ensures r.bytesFetched == old(r.bytesFetched) && r.absentHandled == old(r.absentHandled)
    ensures rc == 0 ==> r.reservedBytes == old(r.reservedBytes) + r.len[target] && r.residentBytes + r.reservedBytes <= r.budgetBytes
    ensures rc != 0 ==> r.reservedBytes == old(r.reservedBytes) && r.residentBytes + r.reservedBytes + r.len[target] > r.budgetBytes
    ensures rc != 0 ==> NoneMakesWay(StateOf(r.policy), r.Unguarded(), r.chunks[..], target, {c})
    ensures r.residentBytes <= old(r.residentBytes)
    ensures Justified(StateOf(r.policy), |r.len|, r.Unguarded(), old(ResidentSet(r.chunks[..])), ResidentSet(r.chunks[..]), target)
    ensures old(r.residentBytes + r.reservedBytes) + r.len[target] <= r.budgetBytes ==>
              rc == 0 && ResidentSet(r.chunks[..]) == old(ResidentSet(r.chunks[..]))
    ensures old(AtRestBut(r.Now(), {c})) ==> AtRestBut(r.Now(), {c, target})
  {
    hide Retained, ResidentSet, RetentionRing.At, RetentionRing.Cell, RetentionRing.Contents,
      PolicyState.Ok, Bytes, AtRestBut, NoneMakesWay, Justified;
    assert {c} + {target} == {c, target};
    MarkTarget(r, target);
    rc := AskFor(r, c, target);
  }

  /** Pins on a chunk that is not retained do not matter to residency or retention. */
  lemma PinsAside(view: View, c: nat, pin: nat)
    requires Retained(view) && c < |view.chunks| && c !in view.fifo
    ensures Retained(View(Repinned(view.chunks, c, pin), view.fifo))
    ensures ResidentSet(Repinned(view.chunks, c, pin)) == ResidentSet(view.chunks)
  {
  }

  /** A retained chunk counts as at rest, and so does one whose retention was dropped to make room. */
  lemma RetainedRests(view: View, target: nat, capacity: nat, busy: set<nat>, after: View)
    requires Retained(view) && AtRestBut(view, busy) && target < |view.chunks| && 0 < capacity
    requires view.chunks[target].state.Resident? && view.chunks[target].pin == 1 && target !in view.fifo
    requires after.fifo == Pushed(view.fifo, capacity, target)
    requires |view.fifo| < capacity ==> after.chunks == view.chunks
    requires |view.fifo| >= capacity ==> view.fifo[0] < |view.chunks| && after.chunks == Repinned(view.chunks, view.fifo[0], 0)
    ensures AtRestBut(after, busy - {target})
  {
    assert target in after.fifo;
    if |view.fifo| >= capacity {
      OldestDropped(view);
    }
  }

  lemma PinsStayResident(chunks: seq<Chunk>)
    ensures forall v: nat, pin: nat :: v < |chunks| ==> ResidentSet(Repinned(chunks, v, pin)) == ResidentSet(chunks)
  {
  }

  /** Keeps a prefetched chunk by retaining it, or unpins it. */
  method KeepPrefetched(r: Region, target: nat, ghost busy: set<nat>)
    requires r.Valid() && target < |r.len| && target in busy && target !in r.ring.Contents()
    requires r.chunks[target].state.Resident? && r.chunks[target].pin == 1
    modifies r.chunks, r.ring, r.ring.queue
    ensures r.Valid()
    ensures r.chunks[target].state.Resident? && r.chunks[target].pin == if r.retentionPinned then 1 else 0
    ensures r.ring.Contents() == if r.retentionPinned then Pushed(old(r.ring.Contents()), r.ring.queue.Length, target)
                                 else old(r.ring.Contents())
    ensures forall i :: 0 <= i < |r.len| && i != target && i !in old(r.ring.Contents()) ==> r.chunks[i] == old(r.chunks[i])
    ensures old(AtRestBut(r.Now(), busy)) ==> AtRestBut(r.Now(), busy - {target})
    ensures ResidentSet(r.chunks[..]) == old(ResidentSet(r.chunks[..]))
  {
    hide Retained, ResidentSet, RetentionRing.At, RetentionRing.Cell, RetentionRing.Contents;
    ghost var view := r.Now();
    if r.retentionPinned {
      PinsStayResident(view.chunks);
      r.RetainOnResident(target);
      if AtRestBut(view, busy) {
        RetainedRests(view, target, r.ring.queue.Length, busy, r.Now());
      }
    } else {
      PinsAside(view, target, 0);
      r.UnpinChunk(target);
    }
  }

  method FinishPrefetch(r: Region, target: nat, ghost busy: set<nat>)
    requires r.Valid() && target < |r.len| && r.len[target] <= r.reservedBytes && target in busy
    requires r.chunks[target].state.Fetching? && r.chunks[target].pin == 1
    modifies r`reservedBytes, r`residentBytes, r`bytesFetched, r`prefetches, r.chunks, r.ring, r.ring.queue
    ensures r.Valid() && r.reservedBytes == old(r.reservedBytes) - r.len[target]
    ensures r.residentBytes == old(r.residentBytes) + r.len[target]
    ensures r.bytesFetched == old(r.bytesFetched) + r.len[target]
    ensures r.chunks[target].state.Resident? && r.chunks[target].pin == if r.retentionPinned then 1 else 0
    ensures r.ring.Contents() == if r.retentionPinned then Pushed(old(r.ring.Contents()), r.ring.queue.Length, target)
                                 else old(r.ring.Contents())
    ensures forall i :: 0 <= i < |r.len| && i != target && i !in old(r.ring.Contents()) ==> r.chunks[i] == old(r.chunks[i])
    ensures old(AtRestBut(r.Now(), busy)) ==> AtRestBut(r.Now(), busy - {target})
    ensures ResidentSet(r.chunks[..]) == old(ResidentSet(r.chunks[..])) + {target}
  {
    hide Retained, ResidentSet, RetentionRing.At, RetentionRing.Cell, RetentionRing.Contents, Pushed;
    ghost var view := r.Now();
    FetchDone(view, target, 1, r.len);
    r.CommitReserved(r.len[target]);
    r.chunks[target] := r.chunks[target].(state := Resident);
    r.bytesFetched := r.bytesFetched + r.len[target];
    assert r.chunks[..] == view.chunks[target := view.chunks[target].(state := Resident, pin := 1)];
    KeepPrefetched(r, target, busy);
    r.prefetches := r.prefetches + 1;
  }

  /** Gives a prefetch up: the target is unpinned and absent again. */
  method DropPrefetch(r: Region, target: nat, ghost busy: set<nat>)
    requires r.Valid() && target < |r.len| && r.chunks[target].state.Fetching? && r.chunks[target].pin == 1
    requires target !in r.ring.Contents()
    modifies r.chunks
    ensures r.Valid() && r.ring.Contents() == old(r.ring.Contents())
    ensures r.chunks[..] == old(r.chunks[..])[target := old(r.chunks[target]).(state := Absent, pin := 0)]
    ensures old(AtRestBut(r.Now(), busy)) && target in busy ==> AtRestBut(r.Now(), busy - {target})
    ensures ResidentSet(r.chunks[..]) == old(ResidentSet(r.chunks[..]))
  {
    PinsAside(r.Now(), target, 0);
    r.UnpinChunk(target);
    AbandonFetch(r, target);
  }

  /** Prefetches absent chunk `target`, or leaves it absent if its bytes do not fit and nothing may make way. */
  method PrefetchTarget(r: Region, c: nat, target: nat) returns (fetched: bool)
    requires r.Valid() && c < |r.len| && target < |r.len| && target != c
    requires r.chunks[c].state.Resident? && r.chunks[c].pin == 1 && c !in r.ring.Contents()
    requires r.chunks[target].state.Absent? && r.chunks[target].pin == 0
    modifies r, r.chunks, r.ring, r.ring.queue
    ensures r.Valid() && r.reservedBytes == old(r.reservedBytes) && StateOf(r.policy) == old(StateOf(r.policy))
    ensures r.chunks[c] == old(r.chunks[c]) && c !in r.ring.Contents()
    ensures r.chunks[target].state == if fetched then Resident else Absent
    ensures r.chunks[target].pin == if fetched && r.retentionPinned then 1 else 0
    ensures r.ring.Contents() == if fetched && r.retentionPinned then Pushed(old(r.ring.Contents()), r.ring.queue.Length, target)
                                 else old(r.ring.Contents())
    ensures r.bytesFetched == old(r.bytesFetched) + (if fetched then r.len[target] else 0) && r.absentHandled == old(r.absentHandled)
    ensures fetched ==> r.residentBytes + r.reservedBytes <= r.budgetBytes
    ensures !fetched ==> r.residentBytes <= old(r.residentBytes) && r.residentBytes + r.reservedBytes + r.len[target] > r.budgetBytes
    ensures !fetched ==> NoneMakesWay(StateOf(r.policy), r.Unguarded(), r.chunks[..], target, {c})
    ensures Justified(StateOf(r.policy), |r.len|, r.Unguarded(), old(ResidentSet(r.chunks[..])), ResidentSet(r.chunks[..]), target)
    ensures old(r.residentBytes + r.reservedBytes) + r.len[target] <= r.budgetBytes ==>
              fetched && ResidentSet(r.chunks[..]) == old(ResidentSet(r.chunks[..])) + {target}
    ensures old(AtRestBut(r.Now(), {c})) ==> AtRestBut(r.Now(), {c})
  {
    hide Retained, ResidentSet, RetentionRing.At, RetentionRing.Cell, RetentionRing.Contents,
      PolicyState.Ok, Bytes, AtRestBut, NoneMakesWay;
    var rc := ReserveFor(r, c, target);
    fetched := rc == 0;
    assert {c, target} - {target} == {c};
    if fetched {
      FinishPrefetch(r, target, {c, target});
    } else {
      ghost var dropped := r.chunks[target].(state := Absent, pin := 0);
      StillNoneMakesWay(StateOf(r.policy), r.Unguarded(), r.chunks[..], target, {c}, target, dropped);
      DropPrefetch(r, target, {c, target});
    }
  }

  /** Prefetches the predicted chunk.  A target that is fetched ends up retained, or unpinned when
      retention is off; a declined one is left as it was.  A prediction outside the table is fatal. */
  method PrefetchPredicted(r: Region, c: nat, predicted: int) returns (fetched: bool, aborted: bool)
    requires r.Valid() && c < |r.len|
    requires r.chunks[c].state.Resident? && r.chunks[c].pin == 1 && c !in r.ring.Contents()
    requires 0 <= predicted < |r.len| ==> r.chunks[predicted].state.Absent? ==> r.chunks[predicted].pin == 0
    modifies r, r.chunks, r.ring, r.ring.queue
    ensures r.Valid() && r.reservedBytes == old(r.reservedBytes) && StateOf(r.policy) == old(StateOf(r.policy))
    ensures r.chunks[c] == old(r.chunks[c]) && c !in r.ring.Contents()
    ensures aborted == (predicted >= |r.len|) && (fetched ==> 0 <= predicted < |r.len| && predicted != c)
    ensures fetched ==> old(r.chunks[predicted].state.Absent?)
    ensures fetched ==> r.residentBytes + r.reservedBytes <= r.budgetBytes
    ensures fetched ==> r.chunks[predicted].state.Resident? && r.chunks[predicted].pin == if r.retentionPinned then 1 else 0
    ensures fetched && r.retentionPinned ==> r.ring.Contents() == Pushed(old(r.ring.Contents()), r.ring.queue.Length, predicted)
    ensures !fetched || !r.retentionPinned ==> r.ring.Contents() == old(r.ring.Contents())
    ensures !fetched && 0 <= predicted < |r.len| ==>
              r.chunks[predicted].state == old(r.chunks[predicted].state) && r.chunks[predicted].pin == old(r.chunks[predicted].pin)
    ensures r.bytesFetched == old(r.bytesFetched) + if fetched then r.len[predicted] else 0
    ensures r.absentHandled == old(r.absentHandled) && (!fetched ==> r.residentBytes <= old(r.residentBytes))
    ensures 0 <= predicted < |r.len| && predicted != c && old(r.chunks[predicted].state.Absent?) && !fetched ==>
              && r.residentBytes + r.reservedBytes + r.len[predicted] > r.budgetBytes
              && NoneMakesWay(StateOf(r.policy), r.Unguarded(), r.chunks[..], predicted, {c})
    ensures 0 <= predicted < |r.len| ==> Justified(StateOf(r.policy), |r.len|, r.Unguarded(), old(ResidentSet(r.chunks[..])),
                                                   ResidentSet(r.chunks[..]), predicted)
    ensures !(0 <= predicted < |r.len|) || old(r.residentBytes + r.reservedBytes) + r.len[predicted] <= r.budgetBytes ==>
              ResidentSet(r.chunks[..]) == old(ResidentSet(r.chunks[..])) + if fetched then {predicted as nat} else {}
    ensures old(AtRestBut(r.Now(), {c})) ==> AtRestBut(r.Now(), {c})
  {
    hide Retained, ResidentSet, RetentionRing.At, RetentionRing.Cell, RetentionRing.Contents,
      PolicyState.Ok, Bytes, AtRestBut, NoneMakesWay;
    fetched, aborted := false, false;
    if predicted < 0 {
      return;
    }
    if predicted >= |r.len| {
      aborted := true;
      return;
    }
    if predicted == c {
      return;
    }
    if !r.chunks[predicted].state.Absent? {
      return;
    }
    fetched := PrefetchTarget(r, c, predicted);
  }

  /** The inline prefetch made right after `c` became resident, while `c` still carries the pin of its
      own fetch: chunk `c` itself cannot be its victim.  The prediction is fatal exactly if it is a
      declared link to a chunk outside the table. */
  method MaybePrefetch(r: Region, c: nat) returns (predicted: int, fetched: bool, aborted: bool)
    requires r.Valid() && c < |r.len| && r.chunks[c].state.Resident? && r.chunks[c].pin == 1 && c !in r.ring.Contents()
    requires AtRestBut(r.Now(), {c}) && Linked(r.policy, |r.len|)
    modifies r, r.chunks, r.ring, r.ring.queue
    ensures r.Valid() && r.reservedBytes == old(r.reservedBytes) && StateOf(r.policy) == old(StateOf(r.policy))
    ensures r.chunks[c] == old(r.chunks[c]) && c !in r.ring.Contents() && AtRestBut(r.Now(), {c})
    ensures StateOf(r.policy).Predicts(c, predicted)
    ensures aborted <==> predicted >= |r.len|
    ensures aborted <==> StateOf(r.policy).LinksOutside(|r.len|, c)
    ensures fetched ==> 0 <= predicted < |r.len| && predicted != c && !aborted
    ensures fetched ==> old(r.chunks[predicted].state.Absent?) && r.chunks[predicted].state.Resident?
    ensures fetched ==> r.residentBytes + r.reservedBytes <= r.budgetBytes
    ensures !fetched ==> r.residentBytes <= old(r.residentBytes) && r.ring.Contents() == old(r.ring.Contents())
    ensures fetched && r.retentionPinned ==> r.ring.Contents() == Pushed(old(r.ring.Contents()), r.ring.queue.Length, predicted)
    ensures r.bytesFetched == old(r.bytesFetched) + if fetched then r.len[predicted] else 0
    ensures r.absentHandled == old(r.absentHandled)
    ensures !fetched && 0 <= predicted < |r.len| ==> r.chunks[predicted].state == old(r.chunks[predicted].state)
    ensures 0 <= predicted < |r.len| && predicted != c && !fetched ==>
              || r.chunks[predicted].state.Resident?
              || (&& r.residentBytes + r.reservedBytes + r.len[predicted] > r.budgetBytes
                  && NoneMakesWay(StateOf(r.policy), r.Unguarded(), r.chunks[..], predicted, {c}))
    ensures 0 <= predicted < |r.len| ==> Justified(StateOf(r.policy), |r.len|, r.Unguarded(), old(ResidentSet(r.chunks[..])),
                                                   ResidentSet(r.chunks[..]), predicted)
    ensures !(0 <= predicted < |r.len|) || old(r.residentBytes + r.reservedBytes) + r.len[predicted] <= r.budgetBytes ==>
              ResidentSet(r.chunks[..]) == old(ResidentSet(r.chunks[..])) + if fetched then {predicted as nat} else {}
  {
    hide Retained, ResidentSet, RetentionRing.At, RetentionRing.Cell, RetentionRing.Contents, NoneMakesWay, Justified,
      AtRestBut, PolicyState.Predicts, PolicyState.LinksOutside, Pushed;
    predicted := PredictNext(r.policy, c, |r.len|);
    PredictionInRange(StateOf(r.policy), |r.len|, c, predicted);
    if 0 <= predicted < |r.len| {
      AbsentUnpinned(r.Now(), predicted, {c});
    }
    fetched, aborted := PrefetchPredicted(r, c, predicted);
  }

  /** Takes the fetch's own pin off `c`. */
  method LeaveFetched(r: Region, c: nat)
    requires r.Valid() && c < |r.len| && r.chunks[c].state.Resident? && r.chunks[c].pin == 1 && c !in r.ring.Contents()
    modifies r`absentHandled, r.chunks
    ensures r.Valid() && r.ring.Contents() == old(r.ring.Contents()) && r.absentHandled == old(r.absentHandled) + 1
    ensures r.chunks[..] == old(r.chunks[..])[c := old(r.chunks[c]).(pin := 0)]
    ensures old(AtRestBut(r.Now(), {c})) ==> AtRestBut(r.Now(), {})
  {
    PinsAside(r.Now(), c, 0);
    if AtRestBut(r.Now(), {c}) {
      UnpinnedRests(r.Now(), c);
    }
    r.UnpinChunk(c);
    r.absentHandled := r.absentHandled + 1;
  }

  lemma PushedLast(fifo: seq<nat>, cap: nat, x: nat)
    ensures x in Pushed(fifo, cap, x)
  {
  }

  /** Handles the fault on an absent chunk and then prefetches the chunk predicted to follow. */
  method HandleAbsentPrefetching(r: Region, c: nat) returns (ok: bool, predicted: int, fetched: bool, aborted: bool)
    requires r.Valid() && c < |r.len| && r.chunks[c].state.Absent?
    requires AtRestBut(r.Now(), {}) && Linked(r.policy, |r.len|)
    modifies r, r.chunks, r.ring, r.ring.queue, Learning(r.policy)
    ensures r.Valid() && r.reservedBytes == old(r.reservedBytes) && Linked(r.policy, |r.len|)
    ensures !aborted ==> AtRestBut(r.Now(), {})
    ensures r.chunks[c].state == if ok then Resident else Absent
    ensures ok ==> StateOf(r.policy).Predicts(c, predicted) && r.residentBytes + r.reservedBytes <= r.budgetBytes
    ensures Learnt(old(StateOf(r.policy)), StateOf(r.policy), c)
    ensures !ok ==> !fetched && NoneEvictable(r.chunks[..]) && (r.retentionPinned ==> r.ring.Contents() == [])
    ensures !ok ==> r.residentBytes + r.reservedBytes + r.len[c] > r.budgetBytes
    ensures ok && 0 <= predicted < |r.len| && predicted != c && !fetched ==>
              || r.chunks[predicted].state.Resident?
              || (&& r.residentBytes + r.reservedBytes + r.len[predicted] > r.budgetBytes
                  && NoneMakesWay(StateOf(r.policy), r.Unguarded(), r.chunks[..], predicted, {c}))
    ensures aborted <==> ok && StateOf(r.policy).LinksOutside(|r.len|, c)
    ensures fetched ==> 0 <= predicted < |r.len| && predicted != c && r.chunks[predicted].state.Resident?
    ensures fetched && r.retentionPinned ==> predicted in r.ring.Contents()
    ensures r.bytesFetched == old(r.bytesFetched) + (if ok then r.len[c] else 0) + (if fetched then r.len[predicted] else 0)
    ensures r.absentHandled == old(r.absentHandled) + if ok && !aborted then 1 else 0
  {
    hide Retained, ResidentSet, RetentionRing.At, RetentionRing.Cell, RetentionRing.Contents,
      EvictionRun, AtRestBut, NoneEvictable, NoneMakesWay, Justified, Learnt, Pushed,
      PolicyState.Ok, PolicyState.Predicts, PolicyState.LinksOutside;
    predicted, fetched, aborted := -1, false, false;
    ghost var trace, victims;
    ok, trace, victims := FetchAbsent(r, c);
    if !ok {
      return;
    }
    ghost var kept := r.ring.Contents();
    predicted, fetched, aborted := MaybePrefetch(r, c);
    if fetched {
      PushedLast(kept, r.ring.queue.Length, predicted);
    }
    if aborted {
      return;
    }
    if 0 <= predicted < |r.len| && predicted != c && !fetched && !r.chunks[predicted].state.Resident? {
      StillNoneMakesWay(StateOf(r.policy), r.Unguarded(), r.chunks[..], predicted, {c}, c, r.chunks[c].(pin := 0));
      assert {c} + {c} == {c};
    }
    LeaveFetched(r, c);
  }
}
