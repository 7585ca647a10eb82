/** What every state of the asynchronous protocol satisfies, and how one thread's step keeps it. */
module Invariant {
  import opened Chunks
  import opened Finite
  import opened RetentionRings
  import opened Protocol

  // ---- what a thread may rely on ----

  /** A chunk's entry, with the retention pin taken off: what is left is the pins of whoever works on it. */
  function Seen(s: State, c: nat): Entry
    requires c < |s.chunks|
  {
    s.chunks[c].(pin := s.chunks[c].pin - if c in s.fifo then 1 else 0)
  }

  const ABSENT := Entry(Absent, 0, 0, false, Free, NoJob)

  function Waiting(job: Job, pin: int): Entry {
    Entry(Fetching, pin, 0, false, Free, job)
  }

  function Present(len: nat, pin: int): Entry {
    Entry(Resident, pin, len, true, Counted, NoJob)
  }

  /** The entry of a chunk nobody is working on; a FETCHING one has a demand job outstanding. */
  predicate Settled(e: Entry, len: nat) {
    e == ABSENT || e == Present(len, 0) || (e == Waiting(e.job, 0) && (e.job.Queued? || e.job.Taken?))
  }

  /** The pin a worker of kind `k` has on its chunk while it fetches it. */
  function PinOf(k: Kind): int {
    if k.Prefetch? then 1 else 0
  }

  /** What thread `t` knows at its place about the entry of the chunk `at.c`. */
  predicate Expects(th: Thread, t: nat, len: nat, e: Entry) {
    match th.at
    case DHandle(_) => th.inside ==> Settled(e, len)
    case DOnFault(_) => e == Waiting(Preparing, 0)
    case DEnqueue(_) => e == Waiting(Preparing, 0)
    case DUnlock(_) => e.state.Fetching? && Settled(e, len)
    case Take(k, _) => if k.Demand? then e == Waiting(Taken(t), 0) else th.inside ==> Settled(e, len)
    case PinTarget(_) => e == ABSENT
    case Mark(_) => e == ABSENT.(pin := 1)
    case Ensure(k, _, _) => e == Waiting(Taken(t), PinOf(k))
    case Evict(k, _, _, _) => e == Waiting(Taken(t), PinOf(k))
    case UnpinDeclined(_) => e == Waiting(Taken(t), 1)
    case Abandon(_, _) => e == Waiting(Taken(t), 0)
    case Read(k, _) => e == Entry(Fetching, PinOf(k), e.populated, false, Reserved, Taken(t)) && e.populated < len
    case Continue(k, _) => e == Entry(Fetching, PinOf(k), len, false, Reserved, Taken(t))
    case Commit(k, _) => e == Entry(Fetching, PinOf(k), len, true, Reserved, Taken(t))
    case Publish(_, _) => e == Entry(Fetching, 1, len, true, Counted, Taken(t))
    case Need(_) => e == Present(len, 1)
    case Predict(_, _) => e == Present(len, 1)
    case Push(_, _, _) => e == Present(len, 1)
    case Unpin(_) => e == Present(len, 1)
    case Retain(_) => e == Present(len, 1)
    case Unlock(_, _) => e == Present(len, 0)
    case _ => true
  }

  /** The chunk `Expects` is about. */
  function Subject(at: At): Option<nat> {
    match at
    case DHandle(c) => Some(c)
    case Take(_, c) => Some(c)
    case _ => Owned(at)
  }

  ghost predicate ThreadOk(cfg: Config, s: State, t: nat)
    requires Shaped(cfg, s) && t < |s.threads|
  {
    var th := s.threads[t];
    && (Subject(th.at).Some? ==> Expects(th, t, cfg.lens[th.at.c], Seen(s, th.at.c)))
    && (th.at.Evict? ==> CanEvict(s, th.at.v) && (th.inside ==> Settled(Seen(s, th.at.v), cfg.lens[th.at.v])))
  }

  /** The job a place is part of, from taking it to making the chunk resident or giving up. */
  predicate Works(at: At, c: nat) {
    && (|| (at.Take? && at.k.Demand?) || at.Ensure? || at.Evict? || at.UnpinDeclined? || at.Abandon?
        || at.Read? || at.Continue? || at.Commit? || at.Publish?)
    && at.c == c
  }

  /** The prefetch target a place is part of handling. */
  function PrefetchOf(at: At): Option<nat> {
    if at.PinTarget? || at.Mark? || at.UnpinDeclined? || at.Retain? || at.Untrack? then Some(at.c)
    else if (at.Take? || at.Ensure? || at.Evict? || at.Abandon? || at.Read? || at.Continue? || at.Commit?
             || at.Publish? || at.Unlock?) && at.k.Prefetch? then Some(at.c)
    else None
  }

  // ---- the invariant ----

  /** A lock is recorded as held by exactly the thread that holds it. */
  ghost predicate LocksOk(s: State) {
    && (forall t, m :: 0 <= t < |s.threads| && m in Locks(s.threads[t]) ==> m in s.held && s.held[m] == t)
    && (forall m :: m in s.held ==> s.held[m] < |s.threads| && m in Locks(s.threads[s.held[m]]))
  }

  ghost predicate ThreadsOk(cfg: Config, s: State)
    requires Shaped(cfg, s)
  {
    forall t :: 0 <= t < |s.threads| ==> ThreadOk(cfg, s, t)
  }

  ghost predicate UnlockedOk(cfg: Config, s: State)
    requires Shaped(cfg, s)
  {
    forall c :: 0 <= c < |s.chunks| && OfChunk(c) !in s.held ==> Settled(Seen(s, c), cfg.lens[c])
  }

  ghost predicate JobsOk(s: State) {
    forall c :: 0 <= c < |s.chunks| && s.chunks[c].job.Taken? ==>
      s.chunks[c].job.t < |s.threads| && Works(s.threads[s.chunks[c].job.t].at, c)
  }

  ghost predicate QueueOk(s: State) {
    && NoDuplicates(s.queue)
    && forall c :: 0 <= c < |s.chunks| ==> (s.chunks[c].job.Queued? <==> c in s.queue)
  }

  /** Retained chunks are resident and carry no pin but their retention. */
  ghost predicate FifoOk(s: State) {
    && NoDuplicates(s.fifo)
    && forall v :: v in s.fifo ==> v < |s.chunks| && s.chunks[v].state.Resident? && s.chunks[v].pin == 1
  }

  /** A chunk is tracked while it is queued for prefetching or one worker is handling it. */
  ghost predicate TrackedOk(s: State) {
    && NoDuplicates(s.pfQueue) && s.outstanding == |s.tracked|
    && (forall x :: x in s.pfQueue ==> x in s.tracked)
    && (forall t :: 0 <= t < |s.threads| && PrefetchOf(s.threads[t].at).Some? ==>
          PrefetchOf(s.threads[t].at).value in s.tracked && PrefetchOf(s.threads[t].at).value !in s.pfQueue)
    && (forall t, u :: 0 <= t < u < |s.threads| && PrefetchOf(s.threads[t].at).Some? ==>
          PrefetchOf(s.threads[t].at) != PrefetchOf(s.threads[u].at))
    && (forall x :: x in s.tracked && x !in s.pfQueue ==>
          exists t :: 0 <= t < |s.threads| && PrefetchOf(s.threads[t].at) == Some(x))
  }

  function CountedBytes(cfg: Config, s: State): seq<int>
    requires |cfg.lens| == |s.chunks|
  {
    seq(|s.chunks|, c requires 0 <= c < |s.chunks| => if s.chunks[c].acct.Counted? then cfg.lens[c] else 0)
  }

  function ReservedBytes(cfg: Config, s: State): seq<int>
    requires |cfg.lens| == |s.chunks|
  {
    seq(|s.chunks|, c requires 0 <= c < |s.chunks| => if s.chunks[c].acct.Reserved? then cfg.lens[c] else 0)
  }

  ghost predicate AccountsOk(cfg: Config, s: State)
    requires |cfg.lens| == |s.chunks|
  {
    && s.resident == Sum(CountedBytes(cfg, s)) && s.reserved == Sum(ReservedBytes(cfg, s))
    && s.resident + s.reserved <= cfg.budget
  }

  /** A blocked thread's chunk is not mapped; once its message is read, the dispatcher is about to handle
      it or a fetch of the chunk is outstanding. */
  ghost predicate FaultersOk(s: State) {
    |s.threads| > 0 && forall f :: 0 <= f < |s.faulters| && s.faulters[f].Blocked? ==>
      && s.faulters[f].c < |s.chunks| && !s.chunks[s.faulters[f].c].mapped
      && (s.faulters[f].read ==>
            s.threads[0].at == DHandle(s.faulters[f].c) || s.chunks[s.faulters[f].c].state.Fetching?)
  }

  /** Locks, places, entries and jobs agree. */
  ghost predicate Core(cfg: Config, s: State) {
    Shaped(cfg, s) && LocksOk(s) && ThreadsOk(cfg, s) && UnlockedOk(cfg, s) && JobsOk(s)
  }

  ghost predicate Inv(cfg: Config, s: State) {
    && Core(cfg, s) && QueueOk(s) && FifoOk(s) && TrackedOk(s) && AccountsOk(cfg, s) && FaultersOk(s) && !s.aborted
  }

  // ---- sums ----

  lemma {:induction false} SumChange(xs: seq<int>, i: nat, v: int)
    requires i < |xs|
    ensures Sum(xs[i := v]) == Sum(xs) - xs[i] + v
  {
    var ys := xs[i := v];
    if i == |xs| - 1 {
      assert ys[..i] == xs[..i];
    } else {
      assert ys[..|xs| - 1] == xs[..|xs| - 1][i := v];
      SumChange(xs[..|xs| - 1], i, v);
    }
  }

  lemma {:induction false} SumBounds(xs: seq<int>, low: seq<int>, more: seq<int>)
    requires |xs| == |low| == |more|
    requires forall i :: 0 <= i < |xs| ==> low[i] <= xs[i] <= low[i] + more[i]
    ensures Sum(low) <= Sum(xs) <= Sum(low) + Sum(more)
  {
    if xs != [] {
      var n := |xs| - 1;
      SumBounds(xs[..n], low[..n], more[..n]);
    }
  }

  lemma {:induction false} SumZero(xs: seq<int>)
    requires forall i :: 0 <= i < |xs| ==> xs[i] == 0
    ensures Sum(xs) == 0
  {
    if xs != [] {
      SumZero(xs[..|xs| - 1]);
    }
  }

  // ---- consequences ----

  /** The bytes present agree with how they are accounted, and at most one pin is not a retention. */
  predicate Shapely(e: Entry, len: nat) {
    && 0 <= e.pin <= 1
    && (e.state.Fetching? <==> !e.job.NoJob?)
    && (e.state.Resident? ==> e.acct.Counted?)
    && match e.acct
       case Free => e.populated == 0 && !e.mapped
       case Reserved => e.populated <= len && e.state.Fetching?
       case Counted => e.populated == len && e.mapped && !e.state.Absent?
  }

  lemma ExpectsShape(th: Thread, t: nat, len: nat, e: Entry)
    requires Expects(th, t, len, e) && Subject(th.at).Some? && OfChunk(th.at.c) in Locks(th)
    ensures Shapely(e, len)
  {
  }

  /** A held chunk lock is held for the chunk a place is about, or for the victim it evicts. */
  lemma HeldFor(th: Thread, c: nat)
    requires OfChunk(c) in Locks(th)
    ensures (Subject(th.at).Some? && th.at.c == c) || (th.at.Evict? && th.inside && th.at.v == c)
  {
  }

  /** Whoever holds a chunk's lock, its entry is well-shaped. */
  lemma EntryShape(cfg: Config, s: State, c: nat)
    requires Shaped(cfg, s) && LocksOk(s) && ThreadsOk(cfg, s) && UnlockedOk(cfg, s) && c < |s.chunks|
    ensures Shapely(Seen(s, c), cfg.lens[c])
  {
    hide Expects;
    hide Locks;
    if OfChunk(c) in s.held {
      var t := s.held[OfChunk(c)];
      var th := s.threads[t];
      assert ThreadOk(cfg, s, t);
      HeldFor(th, c);
      if Subject(th.at).Some? && th.at.c == c {
        ExpectsShape(th, t, cfg.lens[c], Seen(s, c));
      }
    }
  }

  /** The kernel's bytes lie between those counted and those counted or reserved. */
  lemma PopulatedBounds(cfg: Config, s: State)
    requires Shaped(cfg, s) && LocksOk(s) && ThreadsOk(cfg, s) && UnlockedOk(cfg, s) && AccountsOk(cfg, s)
    ensures s.resident <= Populated(s) <= s.resident + s.reserved
    ensures !Diverges(cfg, s)
  {
    forall c | 0 <= c < |s.chunks|
      ensures CountedBytes(cfg, s)[c] <= s.chunks[c].populated <= CountedBytes(cfg, s)[c] + ReservedBytes(cfg, s)[c]
    {
      EntryShape(cfg, s, c);
    }
    SumBounds(seq(|s.chunks|, c requires 0 <= c < |s.chunks| => s.chunks[c].populated), CountedBytes(cfg, s), ReservedBytes(cfg, s));
  }

  /** The demand queue never fills up. */
  lemma QueueRoom(cfg: Config, s: State)
    requires Shaped(cfg, s) && QueueOk(s)
    ensures |s.queue| <= |s.chunks|
  {
    DistinctCount(s.queue);
    assert Elements(s.queue) <= Ids(|s.chunks|);
    Smaller(Elements(s.queue), Ids(|s.chunks|));
  }

  // ---- one thread moves ----

  lemma LocksMove(s: State, t: nat, th: Thread)
    requires LocksOk(s) && t < |s.threads| && Locks(th) <= Locks(s.threads[t])
    ensures LocksOk(Move(s, t, th))
  {
    hide Locks;
    var s1 := Move(s, t, th);
    forall u, m | 0 <= u < |s1.threads| && m in Locks(s1.threads[u]) ensures m in s1.held && s1.held[m] == u {
      assert m in Locks(s.threads[u]) && s.held[m] == u;
      assert u != t ==> m !in Locks(s.threads[t]);
    }
    forall m | m in s1.held ensures s1.held[m] < |s1.threads| && m in Locks(s1.threads[s1.held[m]]) {
      assert m in Locks(s.threads[s.held[m]]);
    }
  }

  /** The data of the state may change as long as no other thread notices: a chunk's entry only by the
      holder of its lock, except that a queued job may be taken without it. */
  ghost predicate Unnoticed(s: State, s1: State, t: nat, c: nat) {
    && t < |s.threads| && |s1.chunks| == |s.chunks|
    && s1.threads == s.threads && s1.held == s.held
    && (forall x :: 0 <= x < |s.chunks| && x != c ==> Seen(s1, x) == Seen(s, x))
    && (c < |s.chunks| && Seen(s1, c) != Seen(s, c) ==>
          || (OfChunk(c) in Locks(s.threads[t]) && (s.chunks[c].job.Taken? ==> s.chunks[c].job.t == t))
          || (s.chunks[c].job.Queued? && Seen(s1, c) == Seen(s, c).(job := Taken(t))))
    && (Budget in Locks(s.threads[t]) || forall v :: 0 <= v < |s.chunks| && CanEvict(s, v) ==> CanEvict(s1, v))
  }

  /** A place whose chunk is neither locked nor its job expects nothing of it. */
  lemma Vacuous(th: Thread, t: nat, len: nat, e1: Entry, e2: Entry)
    requires Subject(th.at).Some? && OfChunk(th.at.c) !in Locks(th)
    requires Expects(th, t, len, e1) && e1.job != Taken(t)
    ensures Expects(th, t, len, e2)
  {
  }

  /** Taking a queued job makes no difference to anyone else. */
  lemma TakingUnseen(th: Thread, t: nat, len: nat, e: Entry, u: nat)
    requires e.job.Queued?
    ensures Settled(e, len) ==> Settled(e.(job := Taken(u)), len)
    ensures Expects(th, t, len, e) ==> Expects(th, t, len, e.(job := Taken(u)))
  {
  }

  lemma EvictHolds(th: Thread)
    requires th.at.Evict?
    ensures Budget in Locks(th) && (th.inside ==> OfChunk(th.at.v) in Locks(th))
  {
  }

  lemma SettledVictim(s: State, v: nat, len: nat)
    requires CanEvict(s, v) && Settled(Seen(s, v), len)
    ensures s.chunks[v].job.NoJob?
  {
  }

  lemma Exclusive(s: State, t: nat, u: nat, m: Mutex)
    requires LocksOk(s) && t < |s.threads| && u < |s.threads| && t != u && m in Locks(s.threads[t])
    ensures m !in Locks(s.threads[u])
  {
    hide Locks;
    assert s.held[m] == t;
  }

  lemma OthersOk(cfg: Config, s: State, s1: State, t: nat, th: Thread, c: nat, u: nat)
    requires Shaped(cfg, s) && LocksOk(s) && Shaped(cfg, s1) && Unnoticed(s, s1, t, c)
    requires u < |s.threads| && u != t && ThreadOk(cfg, s, u) && Shaped(cfg, Move(s1, t, th))
    ensures ThreadOk(cfg, Move(s1, t, th), u)
  {
    hide Expects;
    hide Locks;
    hide Settled;
    var uh := s.threads[u];
    var s2 := Move(s1, t, th);
    assert s2.threads[u] == uh;
    if Subject(uh.at).Some? {
      var x := uh.at.c;
      assert Seen(s2, x) == Seen(s1, x);
      if Seen(s1, x) != Seen(s, x) {
        assert x == c && Seen(s, x).job == s.chunks[x].job;
        if s.chunks[x].job.Queued? && Seen(s1, x) == Seen(s, x).(job := Taken(t)) {
          TakingUnseen(uh, u, cfg.lens[x], Seen(s, x), t);
        } else {
          Exclusive(s, t, u, OfChunk(x));
          Vacuous(uh, u, cfg.lens[x], Seen(s, x), Seen(s1, x));
        }
      }
    }
    if uh.at.Evict? {
      EvictHolds(uh);
      Exclusive(s, u, t, Budget);
      assert CanEvict(s1, uh.at.v) && CanEvict(s2, uh.at.v);
      if uh.inside {
        Exclusive(s, u, t, OfChunk(uh.at.v));
        SettledVictim(s, uh.at.v, cfg.lens[uh.at.v]);
      }
      assert Seen(s2, uh.at.v) == Seen(s1, uh.at.v);
    }
  }

  /** What the moving thread has to show: its own new place, and that the chunks it unlocks are settled. */
  ghost predicate Arrives(cfg: Config, s: State, s1: State, t: nat, th: Thread)
    requires |s1.chunks| == |s.chunks| == |cfg.lens| && t < |s.threads|
  {
    && Names(|cfg.lens|, th.at) && (Dispatching(th.at) <==> t == 0) && (Notifying(th.at) <==> t > cfg.workers)
    && Locks(th) <= Locks(s.threads[t])
    && (Subject(th.at).Some? ==> Expects(th, t, cfg.lens[th.at.c], Seen(s1, th.at.c)))
    && (th.at.Evict? ==> CanEvict(s1, th.at.v) && !th.inside)
    && (forall x :: 0 <= x < |s.chunks| && OfChunk(x) in Locks(s.threads[t]) && OfChunk(x) !in Locks(th) ==>
          Settled(Seen(s1, x), cfg.lens[x]))
    && (forall x :: 0 <= x < |s.chunks| && s1.chunks[x].job.Taken? ==>
          if s1.chunks[x].job.t == t then Works(th.at, x) else s1.chunks[x].job == s.chunks[x].job)
  }

  lemma ShapedMove(cfg: Config, s: State, s1: State, t: nat, th: Thread)
    requires Shaped(cfg, s1) && t < |s.threads| && s1.threads == s.threads && |s1.chunks| == |s.chunks|
    requires Arrives(cfg, s, s1, t, th)
    ensures Shaped(cfg, Move(s1, t, th))
  {
    hide Expects;
    hide Locks;
    hide Settled;
    hide Names;
  }

  lemma UnlockedMove(cfg: Config, s: State, s1: State, t: nat, th: Thread, c: nat)
    requires Shaped(cfg, s) && LocksOk(s) && UnlockedOk(cfg, s) && Shaped(cfg, s1) && Unnoticed(s, s1, t, c)
    requires Arrives(cfg, s, s1, t, th) && Shaped(cfg, Move(s1, t, th))
    ensures UnlockedOk(cfg, Move(s1, t, th))
  {
    hide Expects;
    hide Locks;
    hide Settled;
    var s2 := Move(s1, t, th);
    forall x | 0 <= x < |s.chunks| && OfChunk(x) !in s2.held ensures Settled(Seen(s2, x), cfg.lens[x]) {
      assert Seen(s2, x) == Seen(s1, x);
      if OfChunk(x) !in s.held {
        assert Settled(Seen(s, x), cfg.lens[x]);
        if s.chunks[x].job.Queued? {
          TakingUnseen(th, t, cfg.lens[x], Seen(s, x), t);
        }
      } else {
        assert OfChunk(x) in Locks(s.threads[t]) && OfChunk(x) !in Locks(th);
      }
    }
  }

  lemma JobsMove(cfg: Config, s: State, s1: State, t: nat, th: Thread, c: nat)
    requires Shaped(cfg, s) && JobsOk(s) && Unnoticed(s, s1, t, c) && Arrives(cfg, s, s1, t, th)
    ensures JobsOk(Move(s1, t, th))
  {
    hide Expects;
    hide Locks;
    hide Settled;
    hide Works;
  }

  lemma CoreMove(cfg: Config, s: State, s1: State, t: nat, th: Thread, c: nat)
    requires Core(cfg, s) && Shaped(cfg, s1) && Unnoticed(s, s1, t, c) && Arrives(cfg, s, s1, t, th)
    ensures Core(cfg, Move(s1, t, th))
  {
    hide Expects;
    hide Locks;
    hide Settled;
    hide Works;
    var s2 := Move(s1, t, th);
    ShapedMove(cfg, s, s1, t, th);
    LocksMove(s1, t, th);
    UnlockedMove(cfg, s, s1, t, th, c);
    JobsMove(cfg, s, s1, t, th, c);
    forall u | 0 <= u < |s.threads| ensures ThreadOk(cfg, s2, u) {
      if u != t {
        OthersOk(cfg, s, s1, t, th, c, u);
      } else {
        assert s2.threads[t] == th;
      }
    }
  }
}
