/** The fetch workers' and the notifiers' transitions keep the invariant of the asynchronous protocol. */
module WorkerSteps {
  import opened Chunks
  import opened Finite
  import opened RetentionRings
  import opened Protocol
  import opened Invariant
  import opened Steps

  // ---- taking a job ----

  lemma DequeuedDemand(cfg: Config, s: State, s1: State, t: nat)
    requires Inv(cfg, s) && t < |s.threads| && s.queue != [] && s.queue[0] < |s.chunks|
    requires s1 == s.(queue := s.queue[1..], chunks := s.chunks[s.queue[0] := s.chunks[s.queue[0]].(job := Taken(t))])
    ensures s.chunks[s.queue[0]].job.Queued? && QueueOk(s1) && InRange(|cfg.lens|, s1.queue)
    ensures Unnoticed(s, s1, t, s.queue[0]) && Seen(s, s.queue[0]) == Waiting(Queued, 0)
  {
    hide Names, Locks, ThreadsOk, TrackedOk, FaultersOk;
    var c := s.queue[0];
    assert c in s.queue;
    assert s.queue == [c] + s.queue[1..];
    forall x | 0 <= x < |s.chunks| ensures s1.chunks[x].job.Queued? <==> x in s1.queue {
      assert x in s.queue <==> x == c || x in s1.queue;
      assert c !in s1.queue;
    }
    QueuedEntry(cfg, s, c);
  }

  lemma QueuedExpected(th: Thread, t: nat, len: nat, e: Entry)
    requires Expects(th, t, len, e) && Subject(th.at).Some? && OfChunk(th.at.c) in Locks(th) && e.job.Queued?
    ensures e == Waiting(Queued, 0)
  {
  }

  /** A queued chunk is waiting for its fetch, whoever holds its lock. */
  lemma QueuedEntry(cfg: Config, s: State, c: nat)
    requires Core(cfg, s) && c < |s.chunks| && s.chunks[c].job.Queued?
    ensures Seen(s, c) == Waiting(Queued, 0)
  {
    hide Locks, Expects;
    if OfChunk(c) in s.held {
      var t := s.held[OfChunk(c)];
      var th := s.threads[t];
      assert ThreadOk(cfg, s, t);
      HeldFor(th, c);
      if Subject(th.at).Some? && th.at.c == c {
        QueuedExpected(th, t, cfg.lens[c], Seen(s, c));
      }
    }
  }

  lemma PopDemandKeeps(cfg: Config, s: State, t: nat)
    requires Inv(cfg, s) && t < |s.threads| && s.threads[t] == Thread(WIdle, true) && InRange(|s.chunks|, s.queue) && s.queue != []
    ensures Inv(cfg, PopJob(s, t))
  {
    hide Inv, Shaped, Unnoticed, QueueOk, FifoOk, TrackedOk, AccountsOk, FaultersOk;
    var at := Knows(cfg, s, t);
    var c := s.queue[0];
    var s1 := s.(queue := s.queue[1..], chunks := s.chunks[c := s.chunks[c].(job := Taken(t))]);
    DequeuedDemand(cfg, s, s1, t);
    ShapedData(cfg, s, s1);
    assert Seen(s1, c) == Waiting(Taken(t), 0);
    Step(cfg, s, s1, t, Thread(Take(Demand, c), false), c);
  }

  lemma DequeuedPrefetch(s: State, s1: State, t: nat)
    requires TrackedOk(s) && t < |s.threads| && s.pfQueue != [] && PrefetchOf(s.threads[t].at).None?
    requires s1 == s.(pfQueue := s.pfQueue[1..])
    ensures TrackedOk(Move(s1, t, Thread(Take(Prefetch, s.pfQueue[0]), false)))
  {
    hide Locks;
    var c := s.pfQueue[0];
    var th := Thread(Take(Prefetch, c), false);
    var s2 := Move(s1, t, th);
    assert s.pfQueue == [c] + s1.pfQueue && c in s.pfQueue;
    assert PrefetchOf(th.at) == Some(c) && s2.threads[t] == th;
    hide PrefetchOf;
    forall x | x in s2.tracked && x !in s2.pfQueue
      ensures exists u :: 0 <= u < |s2.threads| && PrefetchOf(s2.threads[u].at) == Some(x)
    {
      if x == c {
        assert PrefetchOf(s2.threads[t].at) == Some(x);
      } else {
        var u :| 0 <= u < |s.threads| && PrefetchOf(s.threads[u].at) == Some(x);
        assert PrefetchOf(s2.threads[u].at) == Some(x);
      }
    }
  }

  lemma PopPrefetchKeeps(cfg: Config, s: State, t: nat)
    requires Inv(cfg, s) && t < |s.threads| && s.threads[t] == Thread(WIdle, true) && InRange(|s.chunks|, s.queue)
    requires s.queue == [] && s.pfQueue != []
    ensures Inv(cfg, PopJob(s, t))
  {
    hide Inv, Shaped, Unnoticed, QueueOk, FifoOk, TrackedOk, AccountsOk, FaultersOk;
    var at := Knows(cfg, s, t);
    var s1 := s.(pfQueue := s.pfQueue[1..]);
    TrackedPart(cfg, s);
    DequeuedPrefetch(s, s1, t);
    ShapedData(cfg, s, s1);
    Elsewhere(s, s1, t, s.pfQueue[0]);
    Step(cfg, s, s1, t, Thread(Take(Prefetch, s.pfQueue[0]), false), s.pfQueue[0]);
  }

  lemma PopKeeps(cfg: Config, s: State, t: nat)
    requires Inv(cfg, s) && t < |s.threads| && s.threads[t] == Thread(WIdle, true) && InRange(|s.chunks|, s.queue)
    ensures Inv(cfg, PopJob(s, t))
  {
    hide Inv, Shaped;
    var at := Knows(cfg, s, t);
    if s.queue != [] {
      PopDemandKeeps(cfg, s, t);
    } else if s.pfQueue != [] {
      PopPrefetchKeeps(cfg, s, t);
    } else if s.stop {
      Moves(cfg, s, t, Thread(WExit, false), 0);
    } else {
      SleepKeeps(cfg, s, t);
    }
  }

  lemma SleepKeeps(cfg: Config, s: State, t: nat)
    requires Inv(cfg, s) && t < |s.threads| && s.threads[t] == Thread(WIdle, true)
    ensures Inv(cfg, Goto(s.(asleep := s.asleep + {t}), t, WIdle))
  {
    hide Inv, Shaped, Unnoticed, QueueOk, FifoOk, TrackedOk, AccountsOk, FaultersOk;
    var at := Knows(cfg, s, t);
    var s1 := s.(asleep := s.asleep + {t});
    ShapedData(cfg, s, s1);
    Elsewhere(s, s1, t, 0);
    Step(cfg, s, s1, t, Thread(WIdle, false), 0);
  }

  lemma TakeKeeps(cfg: Config, s: State, t: nat, k: Kind, c: nat)
    requires Inv(cfg, s) && t < |s.threads| && c < |s.chunks| && s.threads[t] == Thread(Take(k, c), true)
    ensures Inv(cfg, TakeChunk(s, t, k, c))
  {
    hide Inv, Shaped;
    var at := Knows(cfg, s, t);
    match k
    case Demand => Moves(cfg, s, t, Thread(Ensure(Demand, c, RETRIES), false), c);
    case Prefetch =>
      if s.chunks[c].state != Absent {
        Moves(cfg, s, t, Thread(Untrack(c), false), c);
      } else {
        Moves(cfg, s, t, Thread(PinTarget(c), false), c);
      }
  }

  // ---- steps on the worker's own chunk that change no sum and wake nobody ----

  /** A step that changes the worker's chunk, and with it perhaps the accounts, and moves on. */
  lemma Alters(cfg: Config, s: State, t: nat, th: Thread, c: nat, e: Entry, resident: int, reserved: int)
    requires Inv(cfg, s) && t < |s.threads| && c < |s.chunks| && OfChunk(c) in Locks(s.threads[t])
    requires Budget in Locks(s.threads[t]) || !s.chunks[c].state.Resident?
    requires Names(|cfg.lens|, th.at) && !Dispatching(th.at) && !Notifying(th.at)
    requires !Dispatching(s.threads[t].at) && !Notifying(s.threads[t].at)
    requires s.chunks[c].job.Taken? ==> s.chunks[c].job.t == t
    requires Seen(s, c).pin == 1 || !s.chunks[c].state.Resident?
    requires Handover(s.threads[t], th, t, c, cfg.lens[c], Seen(s, c), e.(pin := e.pin - if c in s.fifo then 1 else 0))
    requires !s.chunks[c].job.Queued? && !e.job.Queued?
    requires var s1 := s.(chunks := s.chunks[c := e], resident := resident, reserved := reserved);
             AccountsSame(s, s1) || AccountsOk(cfg, s1)
    requires PrefetchOf(th.at) == PrefetchOf(s.threads[t].at)
    requires (e.mapped ==> s.chunks[c].mapped) && (s.chunks[c].state.Fetching? ==> e.state.Fetching?)
    ensures Inv(cfg, Move(s.(chunks := s.chunks[c := e], resident := resident, reserved := reserved), t, th))
  {
    hide Inv, Shaped, Unnoticed, TrackedOk, FaultersOk, AccountsOk, Locks, Handover, Names, PrefetchOf;
    var at := Knows(cfg, s, t);
    var s1 := s.(chunks := s.chunks[c := e], resident := resident, reserved := reserved);
    ShapedData(cfg, s, s1);
    NotRetained(cfg, s, c);
    Privately(s, s1, t, c, e);
    assert Seen(s1, c) == e.(pin := e.pin - if c in s.fifo then 1 else 0);
    Step(cfg, s, s1, t, th, c);
  }

  lemma PinKeeps(cfg: Config, s: State, t: nat, c: nat)
    requires Inv(cfg, s) && t < |s.threads| && c < |s.chunks|
    requires s.threads[t] == Thread(PinTarget(c), true)
    ensures Inv(cfg, Goto(Pinned(s, c, 1), t, Mark(c)))
  {
    hide Inv, Shaped;
    var at := Knows(cfg, s, t);
    Alters(cfg, s, t, Thread(Mark(c), false), c, s.chunks[c].(pin := s.chunks[c].pin + 1), s.resident, s.reserved);
  }

  lemma MarkKeeps(cfg: Config, s: State, t: nat, c: nat)
    requires Inv(cfg, s) && t < |s.threads| && c < |s.chunks|
    requires s.threads[t].at == Mark(c)
    ensures Inv(cfg, MarkTarget(s, t, c))
  {
    hide Inv, Shaped;
    var at := Knows(cfg, s, t);
    Alters(cfg, s, t, Thread(Ensure(Prefetch, c, 0), false), c, s.chunks[c].(state := Fetching, job := Taken(t)), s.resident, s.reserved);
  }

  lemma UnpinKeeps(cfg: Config, s: State, t: nat, c: nat, next: At)
    requires Inv(cfg, s) && t < |s.threads| && c < |s.chunks|
    requires (s.threads[t] == Thread(UnpinDeclined(c), true) && next == Abandon(Prefetch, c))
             || (s.threads[t] == Thread(Unpin(c), true) && next == Unlock(Demand, c))
             || (s.threads[t] == Thread(Retain(c), true) && next == Unlock(Prefetch, c))
    ensures Inv(cfg, Goto(Pinned(s, c, -1), t, next))
  {
    hide Inv, Shaped;
    var at := Knows(cfg, s, t);
    Alters(cfg, s, t, Thread(next, false), c, s.chunks[c].(pin := s.chunks[c].pin - 1), s.resident, s.reserved);
  }

  lemma ReadKeeps(cfg: Config, s: State, t: nat, k: Kind, c: nat, amount: nat)
    requires Inv(cfg, s) && t < |s.threads| && c < |s.chunks| && |s.chunks| == |cfg.lens|
    requires s.threads[t].at == Read(k, c) && 0 < amount <= cfg.lens[c] - s.chunks[c].populated
    ensures Inv(cfg, ReadMore(cfg, s, t, k, c, amount))
  {
    hide Inv, Shaped;
    var at := Knows(cfg, s, t);
    var filled := s.chunks[c].populated + amount;
    var th := Thread(if filled == cfg.lens[c] then Continue(k, c) else Read(k, c), false);
    Alters(cfg, s, t, th, c, s.chunks[c].(populated := filled), s.resident, s.reserved);
  }

  // ---- accounting ----

  /** The sums after one chunk's accounting changes. */
  lemma Recounted(cfg: Config, s: State, s1: State, c: nat)
    requires |cfg.lens| == |s.chunks| == |s1.chunks| && c < |s.chunks| && AccountsOk(cfg, s)
    requires forall x :: 0 <= x < |s.chunks| && x != c ==> s1.chunks[x].acct == s.chunks[x].acct
    ensures Sum(CountedBytes(cfg, s1)) == s.resident
              + (if s1.chunks[c].acct.Counted? then cfg.lens[c] else 0) - if s.chunks[c].acct.Counted? then cfg.lens[c] else 0
    ensures Sum(ReservedBytes(cfg, s1)) == s.reserved
              + (if s1.chunks[c].acct.Reserved? then cfg.lens[c] else 0) - if s.chunks[c].acct.Reserved? then cfg.lens[c] else 0
  {
    var a, b := CountedBytes(cfg, s), ReservedBytes(cfg, s);
    SumChange(a, c, if s1.chunks[c].acct.Counted? then cfg.lens[c] else 0);
    SumChange(b, c, if s1.chunks[c].acct.Reserved? then cfg.lens[c] else 0);
    assert CountedBytes(cfg, s1) == a[c := if s1.chunks[c].acct.Counted? then cfg.lens[c] else 0];
    assert ReservedBytes(cfg, s1) == b[c := if s1.chunks[c].acct.Reserved? then cfg.lens[c] else 0];
  }

  /** The accounts balance, so the reconciliation with the kernel never aborts. */
  lemma Balanced(cfg: Config, s: State)
    requires Inv(cfg, s)
    ensures AccountsOk(cfg, s) && |cfg.lens| == |s.chunks| > 0 && Reconciled(cfg, s) == s
  {
    hide LocksOk, ThreadsOk, UnlockedOk, JobsOk, TrackedOk, FaultersOk, Names;
    PopulatedBounds(cfg, s);
  }

  lemma PositiveLength(cfg: Config, s: State, c: nat)
    requires Shaped(cfg, s) && c < |cfg.lens|
    ensures cfg.lens[c] > 0
  {
    hide Names;
  }

  lemma ReservedAccounts(cfg: Config, s: State, c: nat, e: Entry)
    requires Inv(cfg, s) && c < |s.chunks| == |cfg.lens| && s.chunks[c].acct.Free? && e.acct.Reserved? && Fits(cfg, s, c)
    ensures AccountsOk(cfg, s.(chunks := s.chunks[c := e], reserved := s.reserved + cfg.lens[c]))
  {
    hide Inv;
    Balanced(cfg, s);
    Recounted(cfg, s, s.(chunks := s.chunks[c := e], reserved := s.reserved + cfg.lens[c]), c);
  }

  lemma ReserveKeeps(cfg: Config, s: State, t: nat, k: Kind, c: nat, left: nat)
    requires Inv(cfg, s) && t < |s.threads| && c < |s.chunks| == |cfg.lens| && s.threads[t] == Thread(Ensure(k, c, left), true)
    requires Fits(cfg, s, c)
    ensures Inv(cfg, Goto(s.(reserved := s.reserved + cfg.lens[c],
                             chunks := s.chunks[c := s.chunks[c].(acct := Reserved)]), t, Read(k, c)))
  {
    hide Inv, Shaped, AccountsOk, AccountsSame;
    var at := Knows(cfg, s, t);
    var e := s.chunks[c].(acct := Reserved);
    PositiveLength(cfg, s, c);
    assert s.chunks[c].acct.Free?;
    ReservedAccounts(cfg, s, c, e);
    Alters(cfg, s, t, Thread(Read(k, c), false), c, e, s.resident, s.reserved + cfg.lens[c]);
  }

  lemma CommittedAccounts(cfg: Config, s: State, c: nat, e: Entry)
    requires Inv(cfg, s) && c < |s.chunks| == |cfg.lens| && s.chunks[c].acct.Reserved? && e.acct.Counted?
    ensures AccountsOk(cfg, s.(chunks := s.chunks[c := e], reserved := s.reserved - cfg.lens[c], resident := s.resident + cfg.lens[c]))
  {
    hide Inv;
    Balanced(cfg, s);
    Recounted(cfg, s, s.(chunks := s.chunks[c := e], reserved := s.reserved - cfg.lens[c], resident := s.resident + cfg.lens[c]), c);
  }

  lemma CommitKeeps(cfg: Config, s: State, t: nat, k: Kind, c: nat)
    requires Inv(cfg, s) && t < |s.threads| && c < |s.chunks| == |cfg.lens| && s.threads[t] == Thread(Commit(k, c), true)
    ensures Inv(cfg, CommitReserved(cfg, s, t, k, c))
  {
    hide Inv, Shaped, AccountsOk, AccountsSame;
    var at := Knows(cfg, s, t);
    var e := s.chunks[c].(acct := Counted, pin := s.chunks[c].pin + if k.Demand? then 1 else 0);
    assert s.chunks[c].acct.Reserved?;
    CommittedAccounts(cfg, s, c, e);
    Alters(cfg, s, t, Thread(Publish(k, c), false), c, e, s.resident + cfg.lens[c], s.reserved - cfg.lens[c]);
  }

  // ---- evicting ----

  /** A chosen victim: the worker still has to take its lock. */
  lemma ChooseKeeps(cfg: Config, s: State, s1: State, t: nat, k: Kind, c: nat, left: nat, v: nat)
    requires Inv(cfg, s) && Shaped(cfg, s1) && t < |s.threads| && c < |s.chunks| && s.threads[t] == Thread(Ensure(k, c, left), true)
    requires Unnoticed(s, s1, t, |s.chunks|) && CanEvict(s1, v) && !s1.aborted
    requires QueueSame(s, s1) && (FifoSame(s, s1) || FifoOk(s1)) && AccountsSame(s, s1) && FaultersSame(s, s1, t)
    requires s1.pfQueue == s.pfQueue && s1.tracked == s.tracked && s1.outstanding == s.outstanding
    ensures Inv(cfg, Goto(s1, t, Evict(k, c, left, v)))
  {
    var th := Thread(Evict(k, c, left, v), false);
    assert Arrives(cfg, s, s1, t, th) by {
      hide Inv, Shaped;
      var at := Knows(cfg, s, t);
      OwnJobs(cfg, s, t);
      forall x | 0 <= x < |s.chunks| ensures Seen(s1, x) == Seen(s, x) && s1.chunks[x].job == s.chunks[x].job {
        assert Seen(s1, x).job == s1.chunks[x].job && Seen(s, x).job == s.chunks[x].job;
      }
    }
    hide Inv, Shaped, Unnoticed, QueueOk, FifoOk, TrackedOk, AccountsOk, FaultersOk, Arrives;
    Keeps(cfg, s, s1, t, th, |s.chunks|);
  }

  lemma EvictedAccounts(cfg: Config, s: State, v: nat)
    requires Inv(cfg, s) && v < |s.chunks| == |cfg.lens| && s.chunks[v].acct.Counted?
    ensures AccountsOk(cfg, s.(chunks := s.chunks[v := ABSENT], resident := s.resident - cfg.lens[v]))
  {
    hide Inv;
    Balanced(cfg, s);
    Recounted(cfg, s, s.(chunks := s.chunks[v := ABSENT], resident := s.resident - cfg.lens[v]), v);
  }

  /** The eviction itself: the victim is resident and unpinned, so neither check fails. */
  lemma EvictKeeps(cfg: Config, s: State, t: nat, k: Kind, c: nat, left: nat, v: nat)
    requires Inv(cfg, s) && t < |s.threads| && c < |s.chunks| == |cfg.lens| && v < |s.chunks|
    requires s.threads[t] == Thread(Evict(k, c, left, v), true)
    ensures Inv(cfg, EvictChunk(cfg, s, t, k, c, left, v))
  {
    hide Inv, Shaped, Unnoticed, QueueOk, FifoOk, TrackedOk, AccountsOk, FaultersOk, Arrives;
    var at := Knows(cfg, s, t);
    SettledVictim(s, v, cfg.lens[v]);
    NotPinned(cfg, s, v);
    var s1, th := s.(chunks := s.chunks[v := ABSENT], resident := s.resident - cfg.lens[v]), Thread(Ensure(k, c, left), true);
    assert s.chunks[v].(state := Absent, populated := 0, mapped := false, acct := Free) == ABSENT;
    ShapedData(cfg, s, s1);
    EvictedAccounts(cfg, s, v);
    Privately(s, s1, t, v, ABSENT);
    EvictedArrives(cfg, s, s1, t, v);
    Keeps(cfg, s, s1, t, th, v);
    Balanced(cfg, Move(s1, t, th));
  }

  lemma NotPinned(cfg: Config, s: State, v: nat)
    requires Inv(cfg, s) && CanEvict(s, v)
    ensures v !in s.fifo
  {
    hide Core;
  }

  lemma EvictedArrives(cfg: Config, s: State, s1: State, t: nat, v: nat)
    requires Inv(cfg, s) && t < |s.threads| && v < |s.chunks| && s.threads[t].inside && s.threads[t].at.Evict? && s.threads[t].at.v == v
    requires s1.chunks == s.chunks[v := ABSENT] && s1.fifo == s.fifo && v !in s.fifo && s.chunks[v].job.NoJob?
    ensures Arrives(cfg, s, s1, t, Thread(Ensure(s.threads[t].at.k, s.threads[t].at.c, s.threads[t].at.left), true))
  {
    hide Inv, Shaped;
    var at := Knows(cfg, s, t);
    OwnJobs(cfg, s, t);
    assert s.chunks[at.c].state.Fetching? && at.c != v;
    assert Seen(s1, at.c) == Seen(s, at.c);
    assert Seen(s1, v) == ABSENT;
  }

  // ---- waking, publishing ----

  lemma AbandonTo(cfg: Config, s: State, t: nat, k: Kind, c: nat, next: At)
    requires Inv(cfg, s) && t < |s.threads| && c < |s.chunks| && s.threads[t].at == Abandon(k, c)
    requires if k.Demand? then next == WIdle else next == Untrack(c)
    ensures Inv(cfg, Goto(s.(chunks := s.chunks[c := s.chunks[c].(state := Absent, job := NoJob)],
                             faulters := Woken(s.faulters, c)), t, next))
  {
    hide Inv, Shaped, Unnoticed, QueueOk, FifoOk, TrackedOk, AccountsOk, FaultersOk, Woken;
    var at := Knows(cfg, s, t);
    var e := s.chunks[c].(state := Absent, job := NoJob);
    var s1, th := s.(chunks := s.chunks[c := e], faulters := Woken(s.faulters, c)), Thread(next, false);
    assert Seen(s, c) == Waiting(Taken(t), 0);
    WokenRange(cfg, s, c);
    ShapedData(cfg, s, s1);
    NotRetained(cfg, s, c);
    FaultersPart(cfg, s);
    WakeKeeps(cfg, s, s1, t, th, c);
    Privately(s, s1, t, c, e);
    assert Seen(s1, c) == ABSENT;
    Step(cfg, s, s1, t, th, c);
  }

  lemma AbandonKeeps(cfg: Config, s: State, t: nat, k: Kind, c: nat)
    requires Inv(cfg, s) && t < |s.threads| && c < |s.chunks| && s.threads[t].at == Abandon(k, c)
    ensures Inv(cfg, AbandonFetch(s, t, k, c))
  {
    hide Inv, Move;
    AbandonTo(cfg, s, t, k, c, if k.Demand? then WIdle else Untrack(c));
  }

  lemma ContinueKeeps(cfg: Config, s: State, t: nat, k: Kind, c: nat)
    requires Inv(cfg, s) && t < |s.threads| && c < |s.chunks| && s.threads[t].at == Continue(k, c)
    ensures Inv(cfg, ContinueRange(s, t, k, c))
  {
    hide Inv, Shaped, Unnoticed, QueueOk, FifoOk, TrackedOk, AccountsOk, FaultersOk, Woken;
    var at := Knows(cfg, s, t);
    var e := s.chunks[c].(mapped := true);
    var s1, th := s.(chunks := s.chunks[c := e], faulters := Woken(s.faulters, c)), Thread(Commit(k, c), false);
    WokenRange(cfg, s, c);
    ShapedData(cfg, s, s1);
    NotRetained(cfg, s, c);
    FaultersPart(cfg, s);
    WakeKeeps(cfg, s, s1, t, th, c);
    Privately(s, s1, t, c, e);
    Step(cfg, s, s1, t, th, c);
  }

  /** Nobody is blocked on a mapped chunk, so nobody misses that its fetch is over. */
  lemma PublishedFaulters(s: State, s1: State, t: nat, th: Thread, c: nat)
    requires FaultersOk(s) && t < |s.threads| && s1.threads == s.threads && c < |s.chunks| && !s.threads[t].at.DHandle?
    requires s.chunks[c].mapped && s1.faulters == s.faulters && |s1.chunks| == |s.chunks|
    requires forall x :: 0 <= x < |s.chunks| && x != c ==> s1.chunks[x] == s.chunks[x]
    ensures FaultersOk(Move(s1, t, th))
  {
    hide Locks;
  }

  lemma PublishTo(cfg: Config, s: State, t: nat, k: Kind, c: nat, next: At)
    requires Inv(cfg, s) && t < |s.threads| && c < |s.chunks| && s.threads[t].at == Publish(k, c)
    requires if k.Prefetch? then next == Retain(c) else next == Need(c) || next == Unpin(c)
    ensures Inv(cfg, Goto(s.(chunks := s.chunks[c := s.chunks[c].(state := Resident, job := NoJob)]), t, next))
  {
    hide Inv, Shaped, Unnoticed, QueueOk, FifoOk, TrackedOk, AccountsOk, FaultersOk;
    var at := Knows(cfg, s, t);
    var e := s.chunks[c].(state := Resident, job := NoJob);
    var s1, th := s.(chunks := s.chunks[c := e]), Thread(next, false);
    ShapedData(cfg, s, s1);
    NotRetained(cfg, s, c);
    FaultersPart(cfg, s);
    PublishedFaulters(s, s1, t, th, c);
    Privately(s, s1, t, c, e);
    Step(cfg, s, s1, t, th, c);
  }

  lemma PublishKeeps(cfg: Config, s: State, t: nat, k: Kind, c: nat)
    requires Inv(cfg, s) && t < |s.threads| && c < |s.chunks| && s.threads[t].at == Publish(k, c)
    ensures Inv(cfg, MakeResident(cfg, s, t, k, c))
  {
    hide Inv, Move;
    PublishTo(cfg, s, t, k, c, if k.Prefetch? then Retain(c) else if cfg.prefetch then Need(c) else Unpin(c));
  }

  // ---- speculative fetches ----

  lemma TrackedPart(cfg: Config, s: State)
    requires Inv(cfg, s)
    ensures TrackedOk(s) && InRange(|cfg.lens|, s.pfQueue)
  {
    hide LocksOk, ThreadsOk, UnlockedOk, JobsOk, TrackedOk, FaultersOk, Names;
  }

  lemma PushedTarget(s: State, s1: State, t: nat, th: Thread, x: nat)
    requires TrackedOk(s) && t < |s.threads| && x !in s.tracked
    requires s1.threads == s.threads && s1.tracked == s.tracked + {x}
    requires s1.pfQueue == s.pfQueue + [x] && s1.outstanding == s.outstanding + 1
    requires PrefetchOf(th.at).None? && PrefetchOf(s.threads[t].at).None?
    ensures TrackedOk(Move(s1, t, th))
  {
    hide Locks, PrefetchOf;
    forall y | y in s1.tracked && y !in s1.pfQueue
      ensures exists u :: 0 <= u < |s1.threads| && PrefetchOf(s1.threads[u].at) == Some(y)
    {
      assert y in s.tracked && y !in s.pfQueue;
    }
    assert TrackedOk(s1);
    hide TrackedOk;
    TrackedMove(s1, s1, t, th);
  }

  lemma PushKeeps(cfg: Config, s: State, t: nat, c: nat, x: nat, need: nat, backoff: bool, w: nat)
    requires Inv(cfg, s) && t < |s.threads| && c < |s.chunks| && x < |s.chunks| && need > 0
    requires s.threads[t] == Thread(Push(c, x, need), true)
    ensures Inv(cfg, TopUpPush(s, t, c, x, need, backoff, w))
  {
    hide Inv, Shaped, Unnoticed, QueueOk, FifoOk, TrackedOk, AccountsOk, FaultersOk;
    var at := Knows(cfg, s, t);
    var th := Thread(if need > 1 then Predict(c, need - 1) else Unpin(c), false);
    if x !in s.tracked && s.chunks[x].state.Absent? && !backoff && |s.pfQueue| < |s.chunks| + 1 {
      var s1 := s.(tracked := s.tracked + {x}, pfQueue := s.pfQueue + [x], outstanding := s.outstanding + 1, asleep := s.asleep - {w});
      TrackedPart(cfg, s);
      PushedTarget(s, s1, t, th, x);
      ShapedData(cfg, s, s1);
      Elsewhere(s, s1, t, c);
      Step(cfg, s, s1, t, th, c);
    } else {
      Moves(cfg, s, t, th, c);
    }
  }

  lemma UntrackedTarget(s: State, s1: State, t: nat, c: nat)
    requires TrackedOk(s) && t < |s.threads| && s.threads[t].at == Untrack(c)
    requires s1 == s.(outstanding := s.outstanding - 1, tracked := s.tracked - {c})
    ensures TrackedOk(Move(s1, t, Thread(WIdle, false)))
  {
    hide Locks;
    var s2 := Move(s1, t, Thread(WIdle, false));
    assert PrefetchOf(s.threads[t].at) == Some(c) && PrefetchOf(s2.threads[t].at) == None;
    hide PrefetchOf;
    forall y | y in s2.tracked && y !in s2.pfQueue
      ensures exists u :: 0 <= u < |s2.threads| && PrefetchOf(s2.threads[u].at) == Some(y)
    {
      var u :| 0 <= u < |s.threads| && PrefetchOf(s.threads[u].at) == Some(y);
      assert PrefetchOf(s2.threads[u].at) == Some(y);
    }
  }

  lemma UntrackKeeps(cfg: Config, s: State, t: nat, c: nat)
    requires Inv(cfg, s) && t < |s.threads| && c < |s.chunks| && s.threads[t] == Thread(Untrack(c), true)
    ensures Inv(cfg, UntrackTarget(s, t, c))
  {
    hide Inv, Shaped, Unnoticed, QueueOk, FifoOk, TrackedOk, AccountsOk, FaultersOk;
    var at := Knows(cfg, s, t);
    var s1 := s.(outstanding := s.outstanding - 1, tracked := s.tracked - {c});
    TrackedPart(cfg, s);
    UntrackedTarget(s, s1, t, c);
    ShapedData(cfg, s, s1);
    Elsewhere(s, s1, t, c);
    Step(cfg, s, s1, t, Thread(WIdle, false), c);
  }

  // ---- retention ----

  /** Dropping a retention changes nothing anyone relies on. */
  lemma Released(cfg: Config, s: State, v: nat, t: nat)
    requires Inv(cfg, s) && v < |s.chunks| && t < |s.threads| && Budget in Locks(s.threads[t])
    ensures var s1 := ReleaseRetained(s, v);
            && FifoOk(s1) && Shaped(cfg, s1) && Unnoticed(s, s1, t, |s.chunks|) && QueueSame(s, s1) && AccountsSame(s, s1)
            && (t != 0 ==> FaultersSame(s, s1, t))
            && (v in s.fifo ==> CanEvict(s1, v))
  {
    hide Locks, ThreadsOk, UnlockedOk, JobsOk, LocksOk, TrackedOk, FaultersOk, Names;
    var s1 := ReleaseRetained(s, v);
    RemovedKeeps(s.fifo, v);
    forall x | 0 <= x < |s.chunks| ensures Seen(s1, x) == Seen(s, x) {
    }
    assert InRange(|cfg.lens|, s1.fifo) by {
      forall i | 0 <= i < |s1.fifo| ensures s1.fifo[i] < |cfg.lens| {
        assert s1.fifo[i] in s1.fifo;
      }
    }
    ShapedChunks(cfg, s, s1);
  }

  lemma ShapedChunks(cfg: Config, s: State, s1: State)
    requires Shaped(cfg, s) && s1.threads == s.threads && |s1.chunks| == |s.chunks| && s1.queue == s.queue
    requires s1.pfQueue == s.pfQueue && s1.faulters == s.faulters && InRange(|cfg.lens|, s1.fifo)
    ensures Shaped(cfg, s1)
  {
    hide Names;
  }

  lemma BreakKeeps(cfg: Config, s: State, t: nat, k: Kind, c: nat, left: nat, v: nat)
    requires Inv(cfg, s) && t < |s.threads| && c < |s.chunks| && s.threads[t] == Thread(Ensure(k, c, left), true)
    requires Breakable(cfg, s, v)
    ensures Inv(cfg, Goto(ReleaseRetained(s, v), t, Evict(k, c, left, v)))
  {
    hide Inv, Shaped, Unnoticed, QueueOk, FifoOk, TrackedOk, AccountsOk, FaultersOk;
    var at := Knows(cfg, s, t);
    Released(cfg, s, v, t);
    ChooseKeeps(cfg, s, ReleaseRetained(s, v), t, k, c, left, v);
  }

  lemma NotifyKeeps(cfg: Config, s: State, t: nat, c: nat)
    requires Inv(cfg, s) && t < |s.threads| && c < |s.chunks| && s.threads[t] == Thread(NRelease(c), true)
    ensures Inv(cfg, Goto(ReleaseRetained(s, c), t, NIdle))
  {
    hide Inv, Shaped, Unnoticed, QueueOk, FifoOk, TrackedOk, AccountsOk, FaultersOk;
    var at := Knows(cfg, s, t);
    Released(cfg, s, c, t);
    var s1 := ReleaseRetained(s, c);
    SameSeen(s, s1, t, c);
    Step(cfg, s, s1, t, Thread(NIdle, false), c);
  }

  lemma SameSeen(s: State, s1: State, t: nat, c: nat)
    requires Unnoticed(s, s1, t, |s.chunks|) && c < |s.chunks|
    ensures Unnoticed(s, s1, t, c) && Seen(s1, c) == Seen(s, c)
  {
  }

  /** The queue after retaining `c`, the oldest making way if it is full. */
  lemma PushedFifo(fifo: seq<nat>, cap: nat, c: nat)
    requires NoDuplicates(fifo) && c !in fifo && cap > 0
    ensures NoDuplicates(Pushed(fifo, cap, c))
    ensures forall x :: x in Pushed(fifo, cap, c) <==> x == c || (x in fifo && !(|fifo| >= cap && x == fifo[0]))
  {
    if |fifo| >= cap {
      assert fifo == [fifo[0]] + fifo[1..];
      assert forall x :: x in fifo <==> x == fifo[0] || x in fifo[1..];
    }
  }

  function WithTarget(cfg: Config, s: State, c: nat): State
    requires InRange(|s.chunks|, s.fifo) && cfg.capacity > 0
  {
    var room := if |s.fifo| >= cfg.capacity then Pinned(s, s.fifo[0], -1) else s;
    room.(fifo := Pushed(s.fifo, cfg.capacity, c))
  }

  lemma FifoPart(cfg: Config, s: State)
    requires Inv(cfg, s)
    ensures Shaped(cfg, s) && FifoOk(s) && InRange(|cfg.lens|, s.fifo) && |s.chunks| == |cfg.lens|
  {
    hide LocksOk, ThreadsOk, UnlockedOk, JobsOk, Names;
  }

  lemma TargetRetained(cfg: Config, s: State, c: nat, t: nat)
    requires Inv(cfg, s) && c < |s.chunks| && t < |s.threads| && s.threads[t] == Thread(Retain(c), true)
    requires Seen(s, c) == Present(cfg.lens[c], 1) && cfg.capacity > 0
    ensures Shaped(cfg, s) && InRange(|s.chunks|, s.fifo)
    ensures var s1 := WithTarget(cfg, s, c);
            && FifoOk(s1) && Shaped(cfg, s1) && Unnoticed(s, s1, t, c) && QueueSame(s, s1) && AccountsSame(s, s1)
            && (t != 0 ==> FaultersSame(s, s1, t)) && Seen(s1, c) == Present(cfg.lens[c], 0)
  {
    hide Inv, Shaped;
    assert {Budget, OfChunk(c)} <= Locks(s.threads[t]);
    hide Locks;
    FifoPart(cfg, s);
    var s1 := WithTarget(cfg, s, c);
    NotRetained(cfg, s, c);
    PushedFifo(s.fifo, cfg.capacity, c);
    assert c in s1.fifo;
    hide Pushed, NoDuplicates;
    forall x | 0 <= x < |s.chunks| && x != c ensures Seen(s1, x) == Seen(s, x) {
      if |s.fifo| >= cfg.capacity && x == s.fifo[0] {
        assert x in s.fifo;
      }
    }
    assert InRange(|cfg.lens|, s1.fifo) by {
      forall i | 0 <= i < |s1.fifo| ensures s1.fifo[i] < |cfg.lens| {
        assert s1.fifo[i] in s1.fifo;
      }
    }
    ShapedChunks(cfg, s, s1);
  }

  lemma Sized(cfg: Config, s: State)
    requires Shaped(cfg, s)
    ensures InRange(|s.chunks|, s.fifo) && InRange(|s.chunks|, s.queue) && cfg.capacity > 0
  {
    hide Names;
  }

  lemma RetainKeeps(cfg: Config, s: State, t: nat, c: nat)
    requires Inv(cfg, s) && t < |s.threads| && c < |s.chunks| && s.threads[t] == Thread(Retain(c), true)
    requires InRange(|s.chunks|, s.fifo) && cfg.capacity > 0
    ensures Inv(cfg, RetainTarget(cfg, s, t, c))
  {
    hide Inv, Shaped, Unnoticed, QueueOk, FifoOk, TrackedOk, AccountsOk, FaultersOk;
    if cfg.retention {
      var at := Knows(cfg, s, t);
      TargetRetained(cfg, s, c, t);
      Step(cfg, s, WithTarget(cfg, s, c), t, Thread(Unlock(Prefetch, c), false), c);
    } else {
      UnpinKeeps(cfg, s, t, c, Unlock(Prefetch, c));
    }
  }

  // ---- every transition of a worker or a notifier ----

  /** What a thread whose turn it is has taken and chosen. */
  lemma Turn(cfg: Config, s: State, t: nat, choice: Choice)
    requires Shaped(cfg, s) && CanRun(cfg, s, t, choice)
    ensures t < |s.threads| && Choosable(cfg, s, t, choice)
    ensures Needs(s.threads[t].at).Some? ==> s.threads[t].inside
    ensures s.threads[t].at.NIdle? ==> choice.x < |s.chunks|
    ensures s.threads[t].at.Read? ==> 0 < choice.amount <= cfg.lens[s.threads[t].at.c] - s.chunks[s.threads[t].at.c].populated
  {
    hide Shaped;
  }

  /** What the environment chose for a worker that asks for budget. */
  lemma BudgetTurn(cfg: Config, s: State, t: nat, k: Kind, c: nat, left: nat, choice: Choice)
    requires Shaped(cfg, s) && t < |s.threads| && Choosable(cfg, s, t, choice) && s.threads[t].at == Ensure(k, c, left) && c < |cfg.lens|
    ensures !Fits(cfg, s, c) && !NoVictim(s) ==> CanEvict(s, choice.x)
    ensures !Fits(cfg, s, c) && NoVictim(s) && k.Demand? && !NoneBreakable(cfg, s) ==> Breakable(cfg, s, choice.x)
  {
    hide Shaped, CanEvict, Breakable, NoVictim, NoneBreakable, Fits;
  }

  lemma EnsureKeeps(cfg: Config, s: State, t: nat, k: Kind, c: nat, left: nat, choice: Choice)
    requires Inv(cfg, s) && Shaped(cfg, s) && t < |s.threads| && Choosable(cfg, s, t, choice)
    requires c < |s.chunks| && s.threads[t] == Thread(Ensure(k, c, left), true)
    ensures Inv(cfg, EnsureBudget(cfg, s, t, k, c, left, choice))
  {
    hide Inv, Shaped, Choosable, Fits, NoVictim, NoneBreakable, Reconciled, Move, ReleaseRetained;
    var at := Knows(cfg, s, t);
    BudgetTurn(cfg, s, t, k, c, left, choice);
    Balanced(cfg, s);
    if Fits(cfg, s, c) {
      ReserveKeeps(cfg, s, t, k, c, left);
    } else if !NoVictim(s) {
      if k.Prefetch? && choice.yes {
        DeclineKeeps(cfg, s, t, c, left);
      } else {
        VictimKeeps(cfg, s, t, k, c, left, choice.x);
      }
    } else if k.Prefetch? {
      DeclineKeeps(cfg, s, t, c, left);
    } else if !NoneBreakable(cfg, s) {
      BreakKeeps(cfg, s, t, k, c, left, choice.x);
    } else {
      GiveUpKeeps(cfg, s, t, c, left);
    }
  }

  lemma DeclineKeeps(cfg: Config, s: State, t: nat, c: nat, left: nat)
    requires Inv(cfg, s) && t < |s.threads| && c < |s.chunks| && s.threads[t] == Thread(Ensure(Prefetch, c, left), true)
    ensures Inv(cfg, Goto(s, t, UnpinDeclined(c)))
  {
    hide Inv, Shaped;
    var at := Knows(cfg, s, t);
    Moves(cfg, s, t, Thread(UnpinDeclined(c), false), c);
  }

  lemma GiveUpKeeps(cfg: Config, s: State, t: nat, c: nat, left: nat)
    requires Inv(cfg, s) && t < |s.threads| && c < |s.chunks| && s.threads[t] == Thread(Ensure(Demand, c, left), true)
    ensures Inv(cfg, Goto(s, t, if left > 0 then Ensure(Demand, c, left - 1) else Abandon(Demand, c)))
  {
    hide Inv, Shaped;
    var at := Knows(cfg, s, t);
    Moves(cfg, s, t, Thread(if left > 0 then Ensure(Demand, c, left - 1) else Abandon(Demand, c), false), c);
  }

  lemma VictimKeeps(cfg: Config, s: State, t: nat, k: Kind, c: nat, left: nat, v: nat)
    requires Inv(cfg, s) && t < |s.threads| && c < |s.chunks| && s.threads[t] == Thread(Ensure(k, c, left), true) && CanEvict(s, v)
    ensures Inv(cfg, Goto(s, t, Evict(k, c, left, v)))
  {
    hide Inv, Shaped, Unnoticed, QueueOk, FifoOk, TrackedOk, AccountsOk, FaultersOk;
    var at := Knows(cfg, s, t);
    Elsewhere(s, s, t, |s.chunks|);
    ChooseKeeps(cfg, s, s, t, k, c, left, v);
  }

  lemma UnlockKeeps(cfg: Config, s: State, t: nat, k: Kind, c: nat)
    requires Inv(cfg, s) && t < |s.threads| && c < |s.chunks| && s.threads[t].at == Unlock(k, c)
    ensures Inv(cfg, UnlockChunk(s, t, k, c))
  {
    hide Inv, Shaped;
    var at := Knows(cfg, s, t);
    Moves(cfg, s, t, Thread(if k.Demand? then WIdle else Untrack(c), false), c);
  }

  lemma TopUpKeeps(cfg: Config, s: State, t: nat, c: nat, th: Thread)
    requires Inv(cfg, s) && t < |s.threads| && c < |s.chunks| && Names(|cfg.lens|, th.at) && !th.inside
    requires s.threads[t] == Thread(Need(c), true) || (s.threads[t].at.Predict? && s.threads[t].at.c == c && s.threads[t].inside)
    requires (th.at.Predict? || th.at.Push? || th.at.Unpin?) && th.at.c == c
    ensures Inv(cfg, Move(s, t, th))
  {
    hide Inv, Shaped;
    var at := Knows(cfg, s, t);
    Moves(cfg, s, t, th, c);
  }

  lemma SignalKeeps(cfg: Config, s: State, t: nat, c: nat, next: At)
    requires Inv(cfg, s) && t < |s.threads| && c < |s.chunks|
    requires (s.threads[t].at == NIdle && next == NAccess(c))
             || (s.threads[t] == Thread(NAccess(c), true) && (next == NRelease(c) || next == NIdle))
    ensures Inv(cfg, Goto(s, t, next))
  {
    hide Inv, Shaped;
    var at := Knows(cfg, s, t);
    Moves(cfg, s, t, Thread(next, false), c);
  }

  lemma NotifierKeeps(cfg: Config, s: State, t: nat, choice: Choice)
    requires Inv(cfg, s) && Shaped(cfg, s) && CanRun(cfg, s, t, choice) && Notifying(s.threads[t].at)
    ensures Inv(cfg, RunThread(cfg, s, t, choice))
  {
    hide Inv, Shaped, CanRun, Choosable, Move, ReleaseRetained;
    Turn(cfg, s, t, choice);
    var at := Knows(cfg, s, t);
    match at
    case NIdle => SignalKeeps(cfg, s, t, choice.x, NAccess(choice.x));
    case NAccess(c) => SignalKeeps(cfg, s, t, c, if cfg.retention then NRelease(c) else NIdle);
    case NRelease(c) => NotifyKeeps(cfg, s, t, c);
    case _ =>
  }

  /** Up to the point where the worker has its budget, or gives up. */
  predicate Asking(at: At) {
    at.WIdle? || at.Take? || at.PinTarget? || at.Mark? || at.Ensure? || at.Evict? || at.UnpinDeclined? || at.Abandon?
  }

  lemma AskingKeeps(cfg: Config, s: State, t: nat, choice: Choice)
    requires Inv(cfg, s) && Shaped(cfg, s) && CanRun(cfg, s, t, choice) && Asking(s.threads[t].at)
    ensures Inv(cfg, RunThread(cfg, s, t, choice))
  {
    hide Inv, Shaped, CanRun, Choosable, Expects, Settled, Move, PopJob, TakeChunk, MarkTarget, EnsureBudget, EvictChunk,
      AbandonFetch, ReadMore, ContinueRange, CommitReserved, MakeResident, TopUpPush, RetainTarget, UnlockChunk,
      UntrackTarget, Pinned;
    Turn(cfg, s, t, choice);
    var at := Knows(cfg, s, t);
    Sized(cfg, s);
    match at
    case WIdle => PopKeeps(cfg, s, t);
    case Take(k, c) => TakeKeeps(cfg, s, t, k, c);
    case PinTarget(c) => PinKeeps(cfg, s, t, c);
    case Mark(c) => MarkKeeps(cfg, s, t, c);
    case Ensure(k, c, left) => EnsureKeeps(cfg, s, t, k, c, left, choice);
    case Evict(k, c, left, v) => EvictKeeps(cfg, s, t, k, c, left, v);
    case UnpinDeclined(c) => UnpinKeeps(cfg, s, t, c, Abandon(Prefetch, c));
    case Abandon(k, c) => AbandonKeeps(cfg, s, t, k, c);
    case _ =>
  }

  lemma LandingKeeps(cfg: Config, s: State, t: nat, choice: Choice)
    requires Inv(cfg, s) && Shaped(cfg, s) && CanRun(cfg, s, t, choice)
    requires !Asking(s.threads[t].at) && !Dispatching(s.threads[t].at) && !Notifying(s.threads[t].at)
    ensures Inv(cfg, RunThread(cfg, s, t, choice))
  {
    hide Inv, Shaped, CanRun, Choosable, Expects, Settled, Move, PopJob, TakeChunk, MarkTarget, EnsureBudget, EvictChunk,
      AbandonFetch, ReadMore, ContinueRange, CommitReserved, MakeResident, TopUpPush, RetainTarget, UnlockChunk,
      UntrackTarget, Pinned;
    Turn(cfg, s, t, choice);
    var at := Knows(cfg, s, t);
    Sized(cfg, s);
    match at
    case Read(k, c) => ReadKeeps(cfg, s, t, k, c, choice.amount);
    case Continue(k, c) => ContinueKeeps(cfg, s, t, k, c);
    case Commit(k, c) => CommitKeeps(cfg, s, t, k, c);
    case Publish(k, c) => PublishKeeps(cfg, s, t, k, c);
    case Need(c) =>
      TopUpKeeps(cfg, s, t, c, Thread(if s.outstanding < cfg.depth then Predict(c, cfg.depth - s.outstanding) else Unpin(c), false));
    case Predict(c, need) =>
      var found := choice.yes && choice.x < |cfg.lens| && choice.x != c;
      TopUpKeeps(cfg, s, t, c, Thread(if found then Push(c, choice.x, need) else Unpin(c), false));
    case Push(c, x, need) => PushKeeps(cfg, s, t, c, x, need, choice.yes, choice.x);
    case Unpin(c) => UnpinKeeps(cfg, s, t, c, Unlock(Demand, c));
    case Retain(c) => RetainKeeps(cfg, s, t, c);
    case Unlock(k, c) => UnlockKeeps(cfg, s, t, k, c);
    case Untrack(c) => UntrackKeeps(cfg, s, t, c);
    case _ =>
  }
}
