/** The byte budget: reservation, eviction, pins and retention. */
module Budgets {
  import opened Finite
  import opened Chunks
  import opened ByteBudget
  import opened RetentionRings
  import opened Policies
  import opened DeclaredPolicies

  /** What an eviction changes: the chunk table and the retained chunks, oldest first. */
  datatype View = View(chunks: seq<Chunk>, fifo: seq<nat>)

  function Punched(chunks: seq<Chunk>, v: nat): seq<Chunk>
    requires v < |chunks|
  {
    chunks[v := chunks[v].(state := Absent)]
  }

  function Repinned(chunks: seq<Chunk>, v: nat, pin: nat): seq<Chunk>
    requires v < |chunks|
  {
    chunks[v := chunks[v].(pin := pin)]
  }

  lemma PunchedResident(chunks: seq<Chunk>, v: nat)
    requires v < |chunks|
    ensures ResidentSet(Punched(chunks, v)) == ResidentSet(chunks) - {v}
  {
  }

  /** Retained chunks are resident and carry exactly their retention pin. */
  ghost predicate Retained(view: View) {
    && NoDuplicates(view.fifo)
    && forall v :: v in view.fifo ==> v < |view.chunks| && view.chunks[v].state.Resident? && view.chunks[v].pin == 1
  }

  /** The next-use distance of every chunk. */
  ghost function Distances(p: PolicyState, n: nat): (far: seq<int>)
    requires p.Ok(n)
    ensures |far| == n && forall i :: 0 <= i < n ==> far[i] == p.NextUse(i)
  {
    seq(n, i requires 0 <= i < n => p.NextUse(i))
  }

  /** The retained chunk with the furthest next use; of equals, the oldest. */
  ghost predicate Coldest(far: seq<int>, fifo: seq<nat>, v: nat) {
    exists i :: 0 <= i < |fifo| && fifo[i] == v && ColdestAt(far, fifo, |fifo|, i)
  }

  ghost predicate ColdestAt(far: seq<int>, fifo: seq<nat>, n: nat, i: nat)
    requires i < n <= |fifo|
  {
    forall j :: 0 <= j < n ==>
      fifo[j] < |far| && fifo[i] < |far| &&
      (far[fifo[j]] < far[fifo[i]] || (far[fifo[j]] == far[fifo[i]] && i <= j))
  }

  lemma ColdestExtends(far: seq<int>, fifo: seq<nat>, i: nat, at: nat)
    requires i < |fifo| && fifo[i] < |far|
    ensures i == 0 ==> ColdestAt(far, fifo, i + 1, i)
    ensures at < i && ColdestAt(far, fifo, i, at) && fifo[at] < |far| ==>
              ColdestAt(far, fifo, i + 1, if far[fifo[i]] > far[fifo[at]] then i else at)
  {
  }

  /** The view after an ordinary eviction, and after one that breaks a retention. */
  function Dropped(view: View, v: nat): View
    requires v < |view.chunks|
  {
    View(Punched(view.chunks, v), view.fifo)
  }

  function Broken(view: View, v: nat): View
    requires v < |view.chunks|
  {
    View(Punched(Repinned(view.chunks, v, 0), v), Removed(view.fifo, v))
  }

  /** One eviction: the policy's choice, or, for a demand fetch with nothing evictable, the coldest
      retained chunk, whose retention pin is broken first. */
  ghost predicate Eviction(p: PolicyState, breakPins: bool, before: View, after: View, v: nat)
    requires p.Ok(|before.chunks|)
  {
    || (p.Chosen(before.chunks, v) && after == Dropped(before, v))
    || (&& breakPins && NoneEvictable(before.chunks) && v < |before.chunks|
        && Coldest(Distances(p, |before.chunks|), before.fifo, v) && after == Broken(before, v))
  }

  /** A retention is broken only when nothing is evictable, and then the one with the furthest next use goes,
      on a demand fetch; whatever else is evicted was unpinned and leaves the retentions alone. */
  lemma RetentionsGoLast(p: PolicyState, breakPins: bool, before: View, after: View, v: nat)
    requires p.Ok(|before.chunks|) && Retained(before) && Eviction(p, breakPins, before, after, v)
    ensures v < |before.chunks| && before.chunks[v].state.Resident? && after.chunks[v].state.Absent? && after.chunks[v].pin == 0
    ensures v in before.fifo ==> breakPins && after.fifo == Removed(before.fifo, v)
    ensures v in before.fifo ==> forall u :: 0 <= u < |before.chunks| ==> !Evictable(before.chunks, u)
    ensures v in before.fifo ==> forall u :: u in before.fifo ==> u < |before.chunks| && p.NextUse(u) <= p.NextUse(v)
    ensures v !in before.fifo ==> Evictable(before.chunks, v) && after.fifo == before.fifo
    ensures forall u :: 0 <= u < |before.chunks| && u != v ==> after.chunks[u] == before.chunks[u]
  {
    if v in before.fifo {
      assert !Evictable(before.chunks, v);
    } else {
      ColdestRetained(p, before, v);
    }
  }

  lemma ColdestRetained(p: PolicyState, view: View, v: nat)
    requires p.Ok(|view.chunks|)
    ensures Coldest(Distances(p, |view.chunks|), view.fifo, v) ==> v in view.fifo
  {
  }

  lemma EvictionKeeps(p: PolicyState, breakPins: bool, before: View, after: View, v: nat)
    requires p.Ok(|before.chunks|) && Retained(before) && Eviction(p, breakPins, before, after, v)
    ensures Retained(after) && |after.chunks| == |before.chunks|
    ensures v in ResidentSet(before.chunks) && ResidentSet(after.chunks) == ResidentSet(before.chunks) - {v}
  {
    if !p.Chosen(before.chunks, v) {
      RemovedKeeps(before.fifo, v);
      assert v in before.fifo;
    }
  }

  lemma DroppedKeeps(view: View, v: nat)
    requires Retained(view) && Evictable(view.chunks, v)
    ensures Retained(Dropped(view, v))
  {
  }

  lemma BrokenKeeps(view: View, v: nat)
    requires Retained(view) && v in view.fifo
    ensures Retained(Broken(view, v))
    ensures Repinned(view.chunks, v, 0)[v] == view.chunks[v].(pin := 0) && view.chunks[v].state.Resident?
  {
    RemovedKeeps(view.fifo, v);
  }

  lemma Released(view: View, v: nat)
    requires Retained(view) && v < |view.chunks|
    ensures v in view.fifo ==> Retained(View(Repinned(view.chunks, v, 0), Removed(view.fifo, v)))
    ensures v !in view.fifo ==> Removed(view.fifo, v) == view.fifo
    ensures ResidentSet(Repinned(view.chunks, v, 0)) == ResidentSet(view.chunks)
  {
    RemovedKeeps(view.fifo, v);
  }

  lemma Grown(view: View, v: nat)
    requires Retained(view) && v < |view.chunks| && v !in view.fifo
    requires view.chunks[v].state.Resident? && view.chunks[v].pin == 1
    ensures Retained(View(view.chunks, view.fifo + [v]))
  {
  }

  lemma OldestDropped(view: View)
    requires Retained(view) && view.fifo != [] && view.fifo[0] < |view.chunks|
    ensures Retained(View(Repinned(view.chunks, view.fifo[0], 0), view.fifo[1..]))
    ensures view.fifo[0] !in view.fifo[1..]
    ensures ResidentSet(Repinned(view.chunks, view.fifo[0], 0)) == ResidentSet(view.chunks)
  {
    assert view.fifo[0] in view.fifo;
    forall v | v in view.fifo[1..] ensures v in view.fifo && v != view.fifo[0] {
    }
  }

  /** A run of evictions, each made while the space needed did not fit in `room`. */
  ghost predicate EvictionRun(p: PolicyState, breakPins: bool, len: seq<nat>, room: int, trace: seq<View>, victims: seq<nat>) {
    && |trace| == |victims| + 1
    && forall j :: 0 <= j < |victims| ==> EvictionAt(p, breakPins, len, room, trace, victims, j)
  }

  ghost predicate EvictionAt(p: PolicyState, breakPins: bool, len: seq<nat>, room: int, trace: seq<View>, victims: seq<nat>, j: nat)
    requires |trace| == |victims| + 1 && j < |victims|
  {
    && p.Ok(|trace[j].chunks|) && Bytes(ResidentSet(trace[j].chunks), len) > room
    && Eviction(p, breakPins, trace[j], trace[j + 1], victims[j])
  }

  lemma RunExtends(p: PolicyState, breakPins: bool, len: seq<nat>, room: int, trace: seq<View>, victims: seq<nat>, after: View, v: nat)
    requires EvictionRun(p, breakPins, len, room, trace, victims)
    requires var last := trace[|victims|];
             p.Ok(|last.chunks|) && Bytes(ResidentSet(last.chunks), len) > room && Eviction(p, breakPins, last, after, v)
    ensures EvictionRun(p, breakPins, len, room, trace + [after], victims + [v])
  {
    var trace', victims' := trace + [after], victims + [v];
    forall j | 0 <= j < |victims'| ensures EvictionAt(p, breakPins, len, room, trace', victims', j) {
      if j < |victims| {
        assert EvictionAt(p, breakPins, len, room, trace, victims, j);
      }
    }
  }

  /** No evictable chunk but those of `spared` may make way for `target`: with the guard none of them is
      needed later, and without it there is none. */
  ghost predicate NoneMakesWay(p: PolicyState, unguarded: bool, chunks: seq<Chunk>, target: nat, spared: set<nat>)
    requires p.Ok(|chunks|)
  {
    forall u :: 0 <= u < |chunks| && u !in spared && Evictable(chunks, u) ==>
      !unguarded && p.NextUse(u) <= p.NextUse(target)
  }

  /** Whoever lost its residency to a prefetch of `target` is needed strictly later, if the guard is on. */
  ghost predicate Justified(p: PolicyState, n: nat, unguarded: bool, before: set<nat>, after: set<nat>, target: nat)
    requires p.Ok(n)
  {
    forall v :: v in before && v !in after ==> unguarded || p.NextUse(v) > p.NextUse(target)
  }

  lemma StillNoneMakesWay(p: PolicyState, unguarded: bool, chunks: seq<Chunk>, target: nat, spared: set<nat>, c: nat, e: Chunk)
    requires p.Ok(|chunks|) && c < |chunks| && NoneMakesWay(p, unguarded, chunks, target, spared)
    ensures NoneMakesWay(p, unguarded, chunks[c := e], target, spared + {c})
    ensures !e.state.Resident? || e.pin > 0 ==> NoneMakesWay(p, unguarded, chunks[c := e], target, spared)
  {
  }

  /** Only the victims of a run of evictions lose their residency, and there are none if there is room. */
  lemma {:induction false} RunLoses(p: PolicyState, breakPins: bool, len: seq<nat>, room: int,
                                    trace: seq<View>, victims: seq<nat>, j: nat)
    requires EvictionRun(p, breakPins, len, room, trace, victims) && j <= |victims| && Retained(trace[0])
    ensures Retained(trace[j]) && |trace[j].chunks| == |trace[0].chunks|
    ensures forall v :: v in ResidentSet(trace[0].chunks) && v !in ResidentSet(trace[j].chunks) ==> v in victims[..j]
    ensures Bytes(ResidentSet(trace[0].chunks), len) <= room ==> victims == []
  {
    hide Eviction, Retained, ResidentSet;
    if j > 0 {
      RunLoses(p, breakPins, len, room, trace, victims, j - 1);
      assert EvictionAt(p, breakPins, len, room, trace, victims, j - 1);
      EvictionKeeps(p, breakPins, trace[j - 1], trace[j], victims[j - 1]);
    }
    if victims != [] {
      assert EvictionAt(p, breakPins, len, room, trace, victims, 0);
    }
  }

  class Region {
    const len: seq<nat>
    const chunks: array<Chunk>
    const ring: RetentionRing
    const policy: Policy
    const budgetBytes: nat
    const retentionPinned: bool
    const admissionAlways: bool
    var residentBytes: nat
    var reservedBytes: nat
    var faultSeq: nat
    var evictions: nat
    var bytesPunched: nat
    var infeasible: nat
    var declined: nat
    var pinsBroken: nat
    var bytesFetched: nat
    var absentHandled: nat
    var prefetches: nat

    ghost predicate Shaped()
      reads this, ring, Frame(policy)
    {
      && chunks.Length == |len| < CHUNK_NONE && (forall i :: 0 <= i < |len| ==> len[i] > 0)
      && ring.Valid()
      && {this, chunks, ring, ring.queue} !! Frame(policy)
      && StateOf(policy).Ok(|len|)
    }

    /** The accounting invariant: what is resident is what is counted, and retention is sound. */
    ghost predicate Valid()
      reads this, chunks, ring, ring.queue, Frame(policy)
    {
      && Shaped()
      && residentBytes == Bytes(ResidentSet(chunks[..]), len)
      && Retained(Now())
    }

    ghost function Now(): View
      requires Shaped()
      reads this, chunks, ring, ring.queue, Frame(policy)
    {
      View(chunks[..], ring.Contents())
    }

    constructor (len: seq<nat>, budgetBytes: nat, policy: Policy, prefetchDepth: nat, retentionPinned: bool, admissionAlways: bool)
      requires |len| < CHUNK_NONE && (forall i :: 0 <= i < |len| ==> len[i] > 0) && prefetchDepth > 0
      requires StateOf(policy).Ok(|len|)
      ensures Valid() && fresh(chunks) && fresh(ring) && fresh(ring.queue)
      ensures this.len == len && this.budgetBytes == budgetBytes && this.policy == policy
      ensures this.retentionPinned == retentionPinned && this.admissionAlways == admissionAlways
      ensures chunks[..] == seq(|len|, i => Chunk(Absent, 0, 0)) && ring.Contents() == []
      ensures residentBytes == reservedBytes == bytesFetched == absentHandled == 0
    {
      this.len, this.budgetBytes, this.policy := len, budgetBytes, policy;
      this.retentionPinned, this.admissionAlways := retentionPinned, admissionAlways;
      var table := new Chunk[|len|](_ => Chunk(Absent, 0, 0));
      var retained := new RetentionRing(prefetchDepth);
      chunks, ring := table, retained;
      residentBytes, reservedBytes, faultSeq, evictions, bytesPunched := 0, 0, 0, 0, 0;
      infeasible, declined, pinsBroken, bytesFetched, absentHandled, prefetches := 0, 0, 0, 0, 0, 0;
      new;
      BytesNone(len, |len|);
      assert ResidentSet(chunks[..]) == {};
    }

    /** Punches chunk `v` out of memory.  What aborts here is a victim that is not resident or is pinned. */
    method EvictChunk(v: nat)
      requires Shaped() && residentBytes == Bytes(ResidentSet(chunks[..]), len)
      requires v < |len| && chunks[v].state.Resident? && chunks[v].pin == 0
      modifies this`residentBytes, this`evictions, this`bytesPunched, chunks
      ensures chunks[..] == Punched(old(chunks[..]), v)
      ensures residentBytes == old(residentBytes) - len[v] == Bytes(ResidentSet(chunks[..]), len)
      ensures evictions == old(evictions) + 1 && bytesPunched == old(bytesPunched) + len[v]
    {
      ghost var before := chunks[..];
      PunchedResident(before, v);
      BytesRemove(ResidentSet(before), v, len);
      chunks[v] := chunks[v].(state := Absent);
      assert chunks[..] == Punched(before, v);
      residentBytes := residentBytes - len[v];
      evictions := evictions + 1;
      bytesPunched := bytesPunched + len[v];
    }

    /** The coldest retained chunk; none exactly when nothing is retained. */
    method PinBreakSelectVictim() returns (best: nat)
      requires Valid()
      ensures ring.length == 0 ==> best == CHUNK_NONE
      ensures ring.length > 0 ==> best < |len| && best in ring.Contents()
      ensures ring.length > 0 ==> Coldest(Distances(StateOf(policy), |len|), ring.Contents(), best)
    {
      hide ColdestAt, Retained, ResidentSet, PolicyState.NextUse, RetentionRing.Peek, RetentionRing.Contents;
      best := CHUNK_NONE;
      if ring.length == 0 {
        return;
      }
      ghost var far, fifo := Distances(StateOf(policy), |len|), ring.Contents();
      var bestDist: int := -1;
      ghost var at := 0;
      for i := 0 to ring.length
        invariant i == 0 ==> best == CHUNK_NONE
        invariant i > 0 ==> at < i && best == fifo[at] < |len| && bestDist == far[best] && ColdestAt(far, fifo, i, at)
      {
        EntryResident(i);
        var idx := ring.Peek(i);
        if !chunks[idx].state.Resident? {
          continue;
        }
        var d := NextUseDistance(policy, idx, |len|);
        assert d == far[idx];
        ColdestExtends(far, fifo, i, at);
        if best == CHUNK_NONE || d > bestDist {
          best, bestDist := idx, d;
          at := i;
        }
      }
    }

    /** Every entry of the ring is a resident chunk. */
    lemma EntryResident(i: nat)
      requires Valid() && i < ring.length
      ensures ring.Contents()[i] < |len| && chunks[ring.Contents()[i]].state.Resident?
    {
      assert ring.Contents()[i] in Now().fifo;
    }

    /** Drops the retention of `idx`, and with it its retention pin; otherwise nothing happens. */
    method RetainRelease(idx: nat)
      requires Valid() && idx < |len|
      modifies ring, ring.queue, chunks
      ensures Valid() && ring.Contents() == Removed(old(ring.Contents()), idx)
      ensures chunks[..] == if idx in old(ring.Contents()) then Repinned(old(chunks[..]), idx, 0) else old(chunks[..])
    {
      ghost var view := Now();
      Released(view, idx);
      var found := ring.Release(idx);
      if found {
        assert view.chunks[idx].pin == 1;
        chunks[idx] := chunks[idx].(pin := chunks[idx].pin - 1);
        assert chunks[..] == Repinned(view.chunks, idx, 0);
      }
    }

    /** Breaks the pin of a retained chunk and evicts it. */
    method BreakPin(v: nat)
      requires Valid() && v in ring.Contents() && v < |len|
      modifies this`residentBytes, this`evictions, this`bytesPunched, this`pinsBroken, chunks, ring, ring.queue
      ensures Valid() && residentBytes < old(residentBytes)
      ensures Now() == Broken(old(Now()), v)
      ensures evictions == old(evictions) + 1 && bytesPunched + residentBytes == old(bytesPunched + residentBytes)
      ensures pinsBroken + ring.length == old(pinsBroken + ring.length)
    {
      ghost var view := Now();
      BrokenKeeps(view, v);
      RetainRelease(v);
      pinsBroken := pinsBroken + 1;
      EvictChunk(v);
    }

    /** Evicts an evictable chunk. */
    method EvictSelected(v: nat)
      requires Valid() && Evictable(chunks[..], v)
      modifies this`residentBytes, this`evictions, this`bytesPunched, chunks
      ensures Valid() && residentBytes < old(residentBytes)
      ensures Now() == Dropped(old(Now()), v)
      ensures evictions == old(evictions) + 1 && bytesPunched + residentBytes == old(bytesPunched + residentBytes)
    {
      ghost var view := Now();
      EvictChunk(v);
      DroppedKeeps(view, v);
    }

    /** With nothing evictable, breaks the coldest retention, unless nothing is retained. */
    method BreakColdest(ghost p: PolicyState) returns (evicted: bool, ghost v: nat)
      requires Valid() && p == StateOf(policy) && NoneEvictable(chunks[..])
      modifies this`residentBytes, this`evictions, this`bytesPunched, this`pinsBroken, chunks, ring, ring.queue
      ensures Valid() && StateOf(policy) == p
      ensures evicted == (old(ring.Contents()) != [])
      ensures evicted ==> residentBytes < old(residentBytes) && Eviction(p, true, old(Now()), Now(), v)
      ensures evictions == old(evictions) + (if evicted then 1 else 0) && bytesPunched + residentBytes == old(bytesPunched + residentBytes)
      ensures pinsBroken + ring.length == old(pinsBroken + ring.length)
      ensures !evicted ==> Now() == old(Now()) && residentBytes == old(residentBytes)
    {
      hide Coldest, Retained, NoneEvictable, RetentionRing.At, RetentionRing.Cell, RetentionRing.Contents;
      var pinVictim := PinBreakSelectVictim();
      v := pinVictim;
      evicted := pinVictim != CHUNK_NONE;
      if evicted {
        BreakPin(pinVictim);
      }
    }

    /** One turn of the eviction loop of a demand fetch; fails when nothing is left that may go. */
    method EvictNext(ghost p: PolicyState) returns (evicted: bool, ghost v: nat)
      requires Valid() && p == StateOf(policy)
      modifies this`residentBytes, this`evictions, this`bytesPunched, this`pinsBroken, chunks, ring, ring.queue
      ensures Valid() && StateOf(policy) == p
      ensures evicted ==> residentBytes < old(residentBytes) && Eviction(p, retentionPinned, old(Now()), Now(), v)
      ensures evictions == old(evictions) + (if evicted then 1 else 0) && bytesPunched + residentBytes == old(bytesPunched + residentBytes)
      ensures pinsBroken + ring.length == old(pinsBroken + ring.length)
      ensures !evicted ==> Now() == old(Now()) && residentBytes == old(residentBytes)
      ensures !evicted ==> NoneEvictable(chunks[..]) && (retentionPinned ==> ring.Contents() == [])
    {
      var victim := SelectVictim(policy, chunks);
      v, evicted := victim, false;
      if victim != CHUNK_NONE {
        EvictSelected(victim);
        evicted := true;
      } else if retentionPinned {
        evicted, v := BreakColdest(p);
      }
    }

    /** Makes room for `need` more bytes and reserves them (rc 0), or finds nothing left to evict (rc -1).
        The ghost results are the eviction run: every victim was the policy's choice at its turn, or a
        broken retention when the policy had none, and none was evicted once `need` bytes fitted. */
    method EnsureBudget(need: nat) returns (rc: int, ghost trace: seq<View>, ghost victims: seq<nat>)
      requires Valid()
      modifies this`residentBytes, this`reservedBytes, this`evictions, this`bytesPunched, this`infeasible, this`pinsBroken,
               chunks, ring, ring.queue
      ensures Valid() && StateOf(policy) == old(StateOf(policy))
      ensures EvictionRun(StateOf(policy), retentionPinned, len, budgetBytes - old(reservedBytes) - need, trace, victims)
      ensures trace[0] == old(Now()) && trace[|victims|] == Now()
      ensures rc == 0 || rc == -1
      ensures rc == 0 ==> reservedBytes == old(reservedBytes) + need && residentBytes + reservedBytes <= budgetBytes
      ensures rc == -1 ==> reservedBytes == old(reservedBytes) && residentBytes + reservedBytes + need > budgetBytes
      ensures rc == -1 ==> NoneEvictable(chunks[..]) && (retentionPinned ==> ring.Contents() == [])
      ensures evictions == old(evictions) + |victims| && bytesPunched + residentBytes == old(bytesPunched + residentBytes)
      ensures pinsBroken + ring.length == old(pinsBroken + ring.length)
      ensures infeasible == old(infeasible) + if rc == 0 then 0 else 1
    {
      trace, victims := [Now()], [];
      ghost var p, room := StateOf(policy), budgetBytes - reservedBytes - need;
      rc := 0;
      while residentBytes + reservedBytes + need > budgetBytes
        invariant Valid() && reservedBytes == old(reservedBytes) && StateOf(policy) == p
        invariant EvictionRun(p, retentionPinned, len, room, trace, victims)
        invariant trace[0] == old(Now()) && trace[|victims|] == Now()
        invariant evictions == old(evictions) + |victims| && bytesPunched + residentBytes == old(bytesPunched + residentBytes)
        invariant pinsBroken + ring.length == old(pinsBroken + ring.length) && infeasible == old(infeasible)
        decreases residentBytes
      {
        var evicted;
        ghost var v: nat;
        evicted, v := EvictNext(p);
        if !evicted {
          infeasible := infeasible + 1;
          return -1, trace, victims;
        }
        RunExtends(p, retentionPinned, len, room, trace, victims, Now(), v);
        trace, victims := trace + [Now()], victims + [v];
      }
      reservedBytes := reservedBytes + need;
    }

    /** Whether evicting `victim` for a prefetch of `target` is justified by next use. */
    method Admits(ghost p: PolicyState, victim: nat, target: nat) returns (ok: bool)
      requires Shaped() && p == StateOf(policy) && victim < |len| && target < |len|
      ensures ok == (Unguarded() || p.NextUse(victim) > p.NextUse(target))
    {
      hide PolicyState.NextUse, Retained, RetentionRing.At, RetentionRing.Cell, RetentionRing.Contents;
      if admissionAlways || policy.NoPolicy? {
        return true;
      }
      var victimDist := NextUseDistance(policy, victim, |len|);
      var targetDist := NextUseDistance(policy, target, |len|);
      ok := victimDist > targetDist;
    }

    predicate Unguarded() {
      admissionAlways || policy.NoPolicy?
    }

    /** One turn of the eviction loop of a prefetch: only a chunk that may make way for `target` goes. */
    method EvictNextFor(ghost p: PolicyState, target: nat) returns (evicted: bool, ghost v: nat)
      requires Valid() && p == StateOf(policy) && target < |len|
      modifies this`residentBytes, this`evictions, this`bytesPunched, this`infeasible, this`declined, chunks
      ensures Valid() && StateOf(policy) == p && ring.Contents() == old(ring.Contents())
      ensures evicted ==> residentBytes < old(residentBytes) && Eviction(p, false, old(Now()), Now(), v)
      ensures evictions == old(evictions) + (if evicted then 1 else 0) && bytesPunched + residentBytes == old(bytesPunched + residentBytes)
      ensures infeasible + declined == old(infeasible + declined) + if evicted then 0 else 1
      ensures evicted ==> infeasible == old(infeasible)
      ensures !evicted ==> (infeasible > old(infeasible) <==> NoneEvictable(chunks[..]))
      ensures evicted ==> MayMakeWay(p, v, target)
      ensures !evicted ==> Now() == old(Now()) && residentBytes == old(residentBytes)
      ensures !evicted ==> forall u :: 0 <= u < |len| && Evictable(chunks[..], u) ==> !MayMakeWay(p, u, target)
      ensures evicted ==> declined == old(declined)
    {
      hide Retained, PolicyState.NextUse, ResidentSet, RetentionRing.At, RetentionRing.Cell, RetentionRing.Contents;
      var victim := SelectVictim(policy, chunks);
      v, evicted := victim, false;
      if victim == CHUNK_NONE {
        infeasible := infeasible + 1;
        return;
      }
      evicted := Admits(p, victim, target);
      if evicted {
        EvictSelected(victim);
      } else {
        ChosenIsColdest(p, chunks[..], victim);
        declined := declined + 1;
      }
    }

    /** Under the guarded rule a chunk may make way only for one that is needed strictly sooner. */
    ghost predicate MayMakeWay(p: PolicyState, v: nat, target: nat)
      requires p.Ok(|len|)
    {
      v < |len| && (Unguarded() || p.NextUse(v) > p.NextUse(target))
    }

    /** The prefetch counterpart of `EnsureBudget`: it never breaks a retention, and guarded it evicts
        only chunks needed strictly later than `target`.  It gives up only when no such chunk is left. */
    method EnsureBudgetPrefetch(target: nat) returns (rc: int, ghost trace: seq<View>, ghost victims: seq<nat>)
      requires Valid() && target < |len|
      modifies this`residentBytes, this`reservedBytes, this`evictions, this`bytesPunched, this`infeasible, this`declined, chunks
      ensures Valid() && StateOf(policy) == old(StateOf(policy)) && ring.Contents() == old(ring.Contents())
      ensures EvictionRun(StateOf(policy), false, len, budgetBytes - old(reservedBytes) - len[target], trace, victims)
      ensures trace[0] == old(Now()) && trace[|victims|] == Now()
      ensures forall v :: v in victims ==> MayMakeWay(StateOf(policy), v, target)
      ensures evictions == old(evictions) + |victims| && bytesPunched + residentBytes == old(bytesPunched + residentBytes)
      ensures infeasible + declined == old(infeasible + declined) + if rc == 0 then 0 else 1
      ensures rc == 0 ==> infeasible == old(infeasible)
      ensures rc == -1 ==> (infeasible > old(infeasible) <==> NoneEvictable(chunks[..]))
      ensures residentBytes <= old(residentBytes)
      ensures rc == 0 || rc == -1
      ensures rc == 0 ==> reservedBytes == old(reservedBytes) + len[target] && residentBytes + reservedBytes <= budgetBytes
      ensures rc == -1 ==> reservedBytes == old(reservedBytes) && residentBytes + reservedBytes + len[target] > budgetBytes
      ensures rc == -1 ==> NoneMakesWay(StateOf(policy), Unguarded(), chunks[..], target, {})
      ensures !admissionAlways && !policy.NoPolicy? ==>
                forall v :: v in victims ==> StateOf(policy).NextUse(v) > StateOf(policy).NextUse(target)
    {
      trace, victims := [Now()], [];
      ghost var p, room := StateOf(policy), budgetBytes - reservedBytes - len[target];
      rc := 0;
      while residentBytes + reservedBytes + len[target] > budgetBytes
        invariant Valid() && reservedBytes == old(reservedBytes) && StateOf(policy) == p
        invariant ring.Contents() == old(ring.Contents()) && residentBytes <= old(residentBytes)
        invariant EvictionRun(p, false, len, room, trace, victims)
        invariant trace[0] == old(Now()) && trace[|victims|] == Now()
        invariant forall v :: v in victims ==> MayMakeWay(p, v, target)
        invariant evictions == old(evictions) + |victims| && bytesPunched + residentBytes == old(bytesPunched + residentBytes)
        invariant infeasible == old(infeasible) && declined == old(declined)
        decreases residentBytes
      {
        var evicted;
        ghost var v: nat;
        evicted, v := EvictNextFor(p, target);
        if !evicted {
          return -1, trace, victims;
        }
        RunExtends(p, false, len, room, trace, victims, Now(), v);
        trace, victims := trace + [Now()], victims + [v];
      }
      reservedBytes := reservedBytes + len[target];
    }

    /** Moves a finished fetch from reserved to resident bytes. */
    method CommitReserved(bytes: nat)
      requires bytes <= reservedBytes
      modifies this`reservedBytes, this`residentBytes
      ensures reservedBytes == old(reservedBytes) - bytes && residentBytes == old(residentBytes) + bytes
    {
      reservedBytes := reservedBytes - bytes;
      residentBytes := residentBytes + bytes;
    }

    method PinChunk(c: nat)
      requires c < chunks.Length
      modifies chunks
      ensures chunks[..] == Repinned(old(chunks[..]), c, old(chunks[c].pin) + 1)
    {
      chunks[c] := chunks[c].(pin := chunks[c].pin + 1);
    }

    method UnpinChunk(c: nat)
      requires c < chunks.Length && chunks[c].pin > 0
      modifies chunks
      ensures chunks[..] == Repinned(old(chunks[..]), c, old(chunks[c].pin) - 1)
    {
      chunks[c] := chunks[c].(pin := chunks[c].pin - 1);
    }

    method CommitReservedAndPin(c: nat, bytes: nat)
      requires bytes <= reservedBytes && c < chunks.Length
      modifies this`reservedBytes, this`residentBytes, chunks
      ensures reservedBytes == old(reservedBytes) - bytes && residentBytes == old(residentBytes) + bytes
      ensures chunks[..] == Repinned(old(chunks[..]), c, old(chunks[c].pin) + 1)
    {
      CommitReserved(bytes);
      PinChunk(c);
    }

    /** Lets go of the oldest retained chunk. */
    method ReleaseOldest()
      requires Valid() && ring.length > 0
      modifies ring, chunks
      ensures Valid() && ring.length == old(ring.length) - 1
      ensures ring.Contents() == old(ring.Contents())[1..]
      ensures old(ring.Contents())[0] < |len| && chunks[..] == Repinned(old(chunks[..]), old(ring.Contents())[0], 0)
    {
      ghost var view := Now();
      assert view.fifo[0] in view.fifo;
      OldestDropped(view);
      var oldest := ring.DropOldest();
      chunks[oldest] := chunks[oldest].(pin := chunks[oldest].pin - 1);
      assert chunks[..] == Repinned(view.chunks, oldest, 0);
    }

    /** Turns the pin a prefetch took on `target` into its retention pin; a full ring first lets go of
        its oldest entry. */
    method RetainOnResident(target: nat)
      requires Valid() && target < |len| && target !in ring.Contents()
      requires chunks[target].state.Resident? && chunks[target].pin == 1
      modifies ring, ring.queue, chunks
      ensures Valid() && ring.Contents() == Pushed(old(ring.Contents()), ring.queue.Length, target)
      ensures old(ring.length) < ring.queue.Length ==> chunks[..] == old(chunks[..])
      ensures old(ring.length) == ring.queue.Length ==>
                old(ring.Contents())[0] < |len| && chunks[..] == Repinned(old(chunks[..]), old(ring.Contents())[0], 0)
    {
      ghost var view := Now();
      if ring.length >= ring.queue.Length {
        assert view.fifo[0] in view.fifo;
        ReleaseOldest();
      }
      assert chunks[..][target] == view.chunks[target];
      Grown(Now(), target);
      ring.Append(target);
    }

    /** The consumption signal: the policy's position moves and the chunk's retention is released. */
    method NotifyAccess(c: nat)
      requires Valid() && c < |len|
      requires policy.Declared? ==> policy.declared.Valid()
      modifies ring, ring.queue, chunks, Frame(policy)
      ensures Valid() && (policy.Declared? ==> policy.declared.Valid())
      ensures policy.Declared? ==> policy.declared.slots == old(policy.declared.slots)
      ensures policy.Declared? && |policy.declared.slots| > 0 ==>
                policy.declared.pos == Advanced(policy.declared.slots, old(policy.declared.pos), c)
      ensures !policy.Declared? ==> StateOf(policy) == old(StateOf(policy))
      ensures ring.Contents() == if retentionPinned then Removed(old(ring.Contents()), c) else old(ring.Contents())
      ensures chunks[..] == if retentionPinned && c in old(ring.Contents()) then Repinned(old(chunks[..]), c, 0) else old(chunks[..])
    {
      match policy {
        case Declared(declared) => declared.OnAccess(c);
        case _ =>
      }
      if !retentionPinned {
        return;
      }
      RetainRelease(c);
    }
  }
}
