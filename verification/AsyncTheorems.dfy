/** The promises of the asynchronous protocol, for every reachable state. */
module AsyncTheorems {
  import opened Chunks
  import opened Finite
  import opened RetentionRings
  import opened Protocol
  import opened Invariant
  import opened AsyncRuns

  // ---- no abort ----

  /** No abort is reachable: no chunk is picked up or left in the wrong state, no victim is pinned or not
      resident, the demand queue never fills up, and the kernel's counter never contradicts the accounts. */
  lemma NeverAborts(cfg: Config, faulters: nat, s: State)
    requires cfg.Valid() && Reachable(cfg, faulters, s)
    ensures !s.aborted
  {
    hide *;
    ReachableInv(cfg, faulters, s);
    Basics(cfg, s);
  }

  lemma Basics(cfg: Config, s: State)
    requires Inv(cfg, s)
    ensures Shaped(cfg, s) && |s.chunks| == |cfg.lens| && !s.aborted
  {
  }

  // ---- accounting ----

  /** The bytes of the chunks in `chunks`. */
  function BytesOf(cfg: Config, chunks: set<nat>): seq<int> {
    seq(|cfg.lens|, c requires 0 <= c < |cfg.lens| => if c in chunks then cfg.lens[c] else 0)
  }

  /** The chunks whose bytes a worker has been given and not yet committed. */
  function BeingRead(s: State): set<nat> {
    set c, t | 0 <= c < |s.chunks| && 0 <= t < |s.threads| && Reading(s.threads[t].at, c) :: c
  }

  predicate Reading(at: At, c: nat) {
    (at.Read? || at.Continue? || at.Commit?) && at.c == c
  }

  /** The chunks that are resident, or committed by a worker that has yet to say so. */
  function Charged(s: State): set<nat> {
    set c | 0 <= c < |s.chunks| && (s.chunks[c].state.Resident? || exists t :: 0 <= t < |s.threads| && Publishing(s.threads[t].at, c))
  }

  predicate Publishing(at: At, c: nat) {
    at.Publish? && at.c == c
  }

  lemma AcctExpected(th: Thread, t: nat, len: nat, e: Entry, c: nat)
    requires Subject(th.at) == Some(c) && th.at.c == c && Expects(th, t, len, e)
    requires OfChunk(c) in Locks(th)
    ensures e.acct.Reserved? <==> Reading(th.at, c)
    ensures e.acct.Counted? <==> e.state.Resident? || Publishing(th.at, c)
  {
  }

  lemma BusyOwns(th: Thread, c: nat)
    requires Reading(th.at, c) || Publishing(th.at, c)
    ensures Subject(th.at) == Some(c) && th.at.c == c && Owned(th.at) == Some(c) && OfChunk(c) in Locks(th)
  {
  }

  /** How a chunk's bytes are accounted is decided by the place of the worker that fetches it. */
  lemma AccountedBy(cfg: Config, s: State, c: nat)
    requires Core(cfg, s) && c < |s.chunks|
    ensures s.chunks[c].acct.Reserved? <==> c in BeingRead(s)
    ensures s.chunks[c].acct.Counted? <==> c in Charged(s)
  {
    hide Expects, Locks, Reading, Publishing, Subject;
    forall t | 0 <= t < |s.threads| && (Reading(s.threads[t].at, c) || Publishing(s.threads[t].at, c))
      ensures OfChunk(c) in s.held && s.held[OfChunk(c)] == t
    {
      BusyOwns(s.threads[t], c);
    }
    if OfChunk(c) in s.held {
      var t := s.held[OfChunk(c)];
      var th := s.threads[t];
      assert ThreadOk(cfg, s, t);
      HeldFor(th, c);
      if Subject(th.at).Some? {
        SubjectNamed(th.at);
      }
      if Subject(th.at) == Some(c) {
        AcctExpected(th, t, cfg.lens[c], Seen(s, c), c);
      } else {
        assert !Reading(th.at, c) && !Publishing(th.at, c) by {
          if Reading(th.at, c) || Publishing(th.at, c) {
            BusyOwns(th, c);
          }
        }
      }
    }
  }

  lemma SubjectNamed(at: At)
    requires Subject(at).Some?
    ensures Subject(at) == Some(at.c)
  {
  }

  function ResidentBytes(cfg: Config, s: State): seq<int>
    requires |cfg.lens| == |s.chunks|
  {
    seq(|s.chunks|, c requires 0 <= c < |s.chunks| => if s.chunks[c].state.Resident? then cfg.lens[c] else 0)
  }

  /** What is resident or being fetched fits in the budget at every moment: so do the bytes the kernel
      holds, which lie between the counted ones and those plus the reserved ones. */
  lemma WithinBudget(cfg: Config, faulters: nat, s: State)
    requires cfg.Valid() && Reachable(cfg, faulters, s)
    ensures |s.chunks| == |cfg.lens|
    ensures s.resident + s.reserved <= cfg.budget
    ensures s.reserved == Sum(BytesOf(cfg, BeingRead(s))) && s.resident == Sum(BytesOf(cfg, Charged(s)))
    ensures Sum(ResidentBytes(cfg, s)) <= s.resident <= Populated(s) <= s.resident + s.reserved
    ensures (forall c :: 0 <= c < |s.chunks| ==> !s.chunks[c].state.Fetching?) ==>
              s.reserved == 0 && s.resident == Sum(ResidentBytes(cfg, s))
  {
    ReachableInv(cfg, faulters, s);
    PopulatedBounds(cfg, s);
    ByPlace(cfg, s);
    Tally(cfg, s);
  }

  lemma ByPlace(cfg: Config, s: State)
    requires Inv(cfg, s)
    ensures s.reserved == Sum(BytesOf(cfg, BeingRead(s))) && s.resident == Sum(BytesOf(cfg, Charged(s)))
  {
    hide Shaped, LocksOk, ThreadsOk, UnlockedOk, JobsOk, TrackedOk, FaultersOk, QueueOk, FifoOk, BeingRead, Charged;
    Basics(cfg, s);
    forall c | 0 <= c < |s.chunks| ensures CountedBytes(cfg, s)[c] == BytesOf(cfg, Charged(s))[c]
                                         && ReservedBytes(cfg, s)[c] == BytesOf(cfg, BeingRead(s))[c] {
      AccountedBy(cfg, s, c);
    }
    assert CountedBytes(cfg, s) == BytesOf(cfg, Charged(s));
    assert ReservedBytes(cfg, s) == BytesOf(cfg, BeingRead(s));
  }

  lemma Tally(cfg: Config, s: State)
    requires Inv(cfg, s)
    ensures |s.chunks| == |cfg.lens| && Sum(ResidentBytes(cfg, s)) <= s.resident
    ensures (forall c :: 0 <= c < |s.chunks| ==> !s.chunks[c].state.Fetching?) ==>
              s.reserved == 0 && s.resident == Sum(ResidentBytes(cfg, s))
  {
    hide ThreadsOk, UnlockedOk, JobsOk, LocksOk, TrackedOk, FaultersOk, QueueOk, FifoOk, Names;
    var low, all, fetching := ResidentBytes(cfg, s), CountedBytes(cfg, s), CommittedBytes(cfg, s);
    forall c | 0 <= c < |s.chunks| ensures Shapely(Seen(s, c), cfg.lens[c]) {
      EntryShape(cfg, s, c);
    }
    SumBounds(all, low, fetching);
    if forall c :: 0 <= c < |s.chunks| ==> !s.chunks[c].state.Fetching? {
      assert low == all;
      SumZero(ReservedBytes(cfg, s));
    }
  }

  function CommittedBytes(cfg: Config, s: State): seq<int>
    requires |cfg.lens| == |s.chunks|
  {
    seq(|s.chunks|, c requires 0 <= c < |s.chunks| => if s.chunks[c].state.Fetching? then cfg.lens[c] else 0)
  }

  // ---- pins ----

  /** The places at which a worker's own pin is on its chunk. */
  predicate Pins(at: At, c: nat) {
    && (|| at.Mark? || at.UnpinDeclined? || at.Need? || at.Predict? || at.Push? || at.Unpin? || at.Retain? || at.Publish?
        || ((at.Ensure? || at.Evict? || at.Read? || at.Continue? || at.Commit?) && at.k.Prefetch?))
    && at.c == c
  }

  function Pinners(s: State, c: nat): set<nat> {
    set t | 0 <= t < |s.threads| && Pins(s.threads[t].at, c)
  }

  lemma PinsOwn(at: At, c: nat)
    requires Pins(at, c)
    ensures Owned(at) == Some(c)
  {
  }

  /** A chunk's pin, its retention apart, is the pin of the worker that holds its lock. */
  lemma PinExpected(th: Thread, t: nat, len: nat, e: Entry, c: nat)
    requires Subject(th.at).Some? && th.at.c == c && OfChunk(c) in Locks(th) && Expects(th, t, len, e)
    ensures e.pin == if Pins(th.at, c) then 1 else 0
  {
  }

  lemma PinEntry(cfg: Config, s: State, c: nat)
    requires Core(cfg, s) && c < |s.chunks|
    ensures OfChunk(c) in s.held ==> s.held[OfChunk(c)] < |s.threads|
    ensures Seen(s, c).pin == if OfChunk(c) in s.held && Pins(s.threads[s.held[OfChunk(c)]].at, c) then 1 else 0
  {
    hide Expects, Locks;
    if OfChunk(c) in s.held {
      var t := s.held[OfChunk(c)];
      var th := s.threads[t];
      assert ThreadOk(cfg, s, t);
      HeldFor(th, c);
      if Subject(th.at).Some? && th.at.c == c {
        PinExpected(th, t, cfg.lens[c], Seen(s, c), c);
      }
    }
  }

  lemma OwnedHeld(s: State, t: nat, c: nat)
    requires LocksOk(s) && t < |s.threads| && Owned(s.threads[t].at) == Some(c)
    ensures OfChunk(c) in s.held && s.held[OfChunk(c)] == t
  {
    assert OfChunk(c) in Locks(s.threads[t]);
  }

  lemma PinnersOf(s: State, c: nat)
    requires LocksOk(s)
    ensures Pinners(s, c) == if OfChunk(c) in s.held && Pins(s.threads[s.held[OfChunk(c)]].at, c) then {s.held[OfChunk(c)]} else {}
  {
    hide Pins, Owned, Locks;
    forall t | 0 <= t < |s.threads| && Pins(s.threads[t].at, c) ensures OfChunk(c) in s.held && s.held[OfChunk(c)] == t {
      PinsOwn(s.threads[t].at, c);
      OwnedHeld(s, t, c);
    }
  }

  /** Every pin is a retention or the pin of exactly one worker, never both; and retained chunks are resident. */
  lemma PinConservation(cfg: Config, faulters: nat, s: State, c: nat)
    requires cfg.Valid() && Reachable(cfg, faulters, s) && c < |s.chunks|
    ensures s.chunks[c].pin == (if c in s.fifo then 1 else 0) + |Pinners(s, c)| <= 1
    ensures NoDuplicates(s.fifo) && (c in s.fifo ==> s.chunks[c].state.Resident?)
  {
    ReachableInv(cfg, faulters, s);
    PinEntry(cfg, s, c);
    PinnersOf(s, c);
  }

  // ---- ownership of fetches ----

  /** The places responsible for bringing a chunk out of FETCHING. */
  predicate Responsible(at: At, c: nat) {
    Works(at, c) || ((at.DOnFault? || at.DEnqueue?) && at.c == c)
  }

  function Owners(s: State, c: nat): set<nat> {
    set t | 0 <= t < |s.threads| && Responsible(s.threads[t].at, c)
  }

  lemma ResponsibleExpects(th: Thread, t: nat, len: nat, e: Entry, c: nat)
    requires Responsible(th.at, c) && Expects(th, t, len, e)
    ensures Subject(th.at) == Some(c) && e.state.Fetching?
    ensures e.job == if th.at.DOnFault? || th.at.DEnqueue? then Preparing else Taken(t)
  {
  }

  lemma ResponsibleIf(at: At, c: nat)
    requires Works(at, c) || at == DOnFault(c) || at == DEnqueue(c)
    ensures Responsible(at, c)
  {
  }

  lemma OwnersOf(cfg: Config, s: State, c: nat)
    requires Core(cfg, s) && c < |s.chunks|
    ensures match s.chunks[c].job
            case NoJob => Owners(s, c) == {}
            case Queued => Owners(s, c) == {}
            case Preparing => Owners(s, c) == {0}
            case Taken(t) => Owners(s, c) == {t}
  {
    hide Expects, Locks, Responsible;
    assert |s.threads| > 0;
    forall t | 0 <= t < |s.threads| && Responsible(s.threads[t].at, c)
      ensures s.chunks[c].job == if s.threads[t].at.DOnFault? || s.threads[t].at.DEnqueue? then Preparing else Taken(t)
      ensures s.chunks[c].job.Preparing? ==> t == 0
    {
      assert ThreadOk(cfg, s, t);
      ResponsibleSubject(s.threads[t].at, c);
      ResponsibleExpects(s.threads[t], t, cfg.lens[c], Seen(s, c), c);
      RoleOf(cfg, s, t);
    }
    if s.chunks[c].job.Preparing? {
      PreparingAt(cfg, s, c);
      ResponsibleIf(s.threads[0].at, c);
    } else if s.chunks[c].job.Taken? {
      ResponsibleIf(s.threads[s.chunks[c].job.t].at, c);
    }
  }

  lemma RoleOf(cfg: Config, s: State, t: nat)
    requires Shaped(cfg, s) && t < |s.threads|
    ensures s.threads[t].at.DOnFault? || s.threads[t].at.DEnqueue? <==> t == 0 && (s.threads[t].at.DOnFault? || s.threads[t].at.DEnqueue?)
  {
    hide Names;
  }

  lemma PreparingExpected(th: Thread, t: nat, len: nat, e: Entry)
    requires Subject(th.at).Some? && OfChunk(th.at.c) in Locks(th) && Expects(th, t, len, e) && e.job.Preparing?
    ensures th.at.DOnFault? || th.at.DEnqueue?
  {
  }

  lemma PreparingAt(cfg: Config, s: State, c: nat)
    requires Core(cfg, s) && c < |s.chunks| && s.chunks[c].job.Preparing?
    ensures |s.threads| > 0 && (s.threads[0].at == DOnFault(c) || s.threads[0].at == DEnqueue(c))
  {
    hide Expects, Locks, Works;
    var t := s.held[OfChunk(c)];
    var th := s.threads[t];
    assert ThreadOk(cfg, s, t);
    HeldFor(th, c);
    if Subject(th.at).Some? && th.at.c == c {
      PreparingExpected(th, t, cfg.lens[c], Seen(s, c));
      RoleOf(cfg, s, t);
    }
  }

  /** A chunk is FETCHING exactly when one place is responsible for it, the demand queue included, and then
      it is only one; a FETCHING chunk with a free lock has a demand job queued or just taken. */
  lemma FetchOwnership(cfg: Config, faulters: nat, s: State, c: nat)
    requires cfg.Valid() && Reachable(cfg, faulters, s) && c < |s.chunks|
    ensures NoDuplicates(s.queue) && NoDuplicates(s.pfQueue)
    ensures |Owners(s, c)| + (if c in s.queue then 1 else 0) == if s.chunks[c].state.Fetching? then 1 else 0
    ensures s.chunks[c].state.Fetching? && OfChunk(c) !in s.held ==>
              c in s.queue || exists t :: 0 <= t < |s.threads| && s.threads[t].at == Take(Demand, c)
  {
    ReachableInv(cfg, faulters, s);
    OwnersOf(cfg, s, c);
    EntryShape(cfg, s, c);
    if s.chunks[c].state.Fetching? && OfChunk(c) !in s.held && c !in s.queue {
      TakenUnlocked(cfg, s, c);
    }
  }

  /** The workers handling a prefetch of `x`. */
  function Prefetchers(s: State, x: nat): set<nat> {
    set t | 0 <= t < |s.threads| && PrefetchOf(s.threads[t].at) == Some(x)
  }

  lemma PrefetchersOf(s: State, x: nat)
    requires TrackedOk(s)
    ensures |Prefetchers(s, x)| == if x in s.tracked && x !in s.pfQueue then 1 else 0
  {
    hide PrefetchOf;
    if x in s.tracked && x !in s.pfQueue {
      var t :| 0 <= t < |s.threads| && PrefetchOf(s.threads[t].at) == Some(x);
      assert Prefetchers(s, x) == {t};
    } else {
      assert Prefetchers(s, x) == {};
    }
  }

  /** A chunk is tracked exactly while its prefetch is queued, once, or handled by one worker, never both;
      and the outstanding count is that of the tracked chunks. */
  lemma TrackedPrefetches(cfg: Config, faulters: nat, s: State, x: nat)
    requires cfg.Valid() && Reachable(cfg, faulters, s)
    ensures NoDuplicates(s.pfQueue) && s.outstanding == |s.tracked|
    ensures (if x in s.pfQueue then 1 else 0) + |Prefetchers(s, x)| == if x in s.tracked then 1 else 0
  {
    ReachableInv(cfg, faulters, s);
    PrefetchersOf(s, x);
  }

  lemma TakenUnlocked(cfg: Config, s: State, c: nat)
    requires Inv(cfg, s) && c < |s.chunks| && s.chunks[c].state.Fetching? && OfChunk(c) !in s.held && c !in s.queue
    ensures s.chunks[c].job.Taken? && s.chunks[c].job.t < |s.threads| && s.threads[s.chunks[c].job.t].at == Take(Demand, c)
  {
    hide ThreadsOk, TrackedOk, FaultersOk, Names;
    var t := s.chunks[c].job.t;
    assert Works(s.threads[t].at, c);
    assert OfChunk(c) !in Locks(s.threads[t]);
  }

  // ---- no lost fault ----

  /** The places from which a worker or the dispatcher has yet to wake the threads blocked on its chunk. */
  predicate WillWake(at: At, c: nat) {
    at == DHandle(c) || (Responsible(at, c) && !at.Commit? && !at.Publish?)
  }

  /** Every blocked thread is covered: its message is still to be read, or its chunk is in the demand
      queue, or some thread is at a place from which it has yet to wake it. */
  lemma NoLostFault(cfg: Config, faulters: nat, s: State, f: nat)
    requires cfg.Valid() && Reachable(cfg, faulters, s) && f < |s.faulters| && s.faulters[f].Blocked?
    ensures s.faulters[f].read ==>
              s.faulters[f].c in s.queue || exists t :: 0 <= t < |s.threads| && WillWake(s.threads[t].at, s.faulters[f].c)
  {
    hide *;
    ReachableInv(cfg, faulters, s);
    if s.faulters[f].read {
      Covered(cfg, s, f);
    }
  }

  lemma WakePending(th: Thread, t: nat, len: nat, e: Entry, c: nat)
    requires Responsible(th.at, c) && Expects(th, t, len, e) && !e.mapped
    ensures WillWake(th.at, c)
  {
  }

  lemma Covered(cfg: Config, s: State, f: nat)
    requires Inv(cfg, s) && f < |s.faulters| && s.faulters[f].Blocked? && s.faulters[f].read
    ensures s.faulters[f].c in s.queue || exists t :: 0 <= t < |s.threads| && WillWake(s.threads[t].at, s.faulters[f].c)
  {
    hide Expects, Locks, TrackedOk, Responsible, Works;
    var c := s.faulters[f].c;
    if s.threads[0].at == DHandle(c) {
      assert WillWake(s.threads[0].at, c);
    } else if c !in s.queue {
      EntryShape(cfg, s, c);
      OwnersOf(cfg, s, c);
      var t := if s.chunks[c].job.Preparing? then 0 else s.chunks[c].job.t;
      assert t in Owners(s, c);
      assert ThreadOk(cfg, s, t);
      assert Responsible(s.threads[t].at, c);
      ResponsibleSubject(s.threads[t].at, c);
      WakePending(s.threads[t], t, cfg.lens[c], Seen(s, c), c);
    }
  }

  lemma ResponsibleSubject(at: At, c: nat)
    requires Responsible(at, c)
    ensures Subject(at) == Some(c) && at.c == c
  {
  }
}
