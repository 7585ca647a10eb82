/** Every transition of the asynchronous protocol keeps the invariant. */
module Steps {
  import opened Chunks
  import opened Protocol
  import opened Invariant

  // ---- parts of the invariant a step does not touch ----

  ghost predicate QueueSame(s: State, s1: State) {
    && s1.queue == s.queue && |s1.chunks| == |s.chunks|
    && forall x :: 0 <= x < |s.chunks| ==> (s1.chunks[x].job.Queued? <==> s.chunks[x].job.Queued?)
  }

  ghost predicate FifoSame(s: State, s1: State) {
    && s1.fifo == s.fifo && |s1.chunks| == |s.chunks|
    && forall v :: v in s.fifo && v < |s.chunks| ==> s1.chunks[v].state == s.chunks[v].state && s1.chunks[v].pin == s.chunks[v].pin
  }

  ghost predicate TrackedSame(s: State, s1: State, t: nat, th: Thread)
    requires t < |s.threads|
  {
    && s1.pfQueue == s.pfQueue && s1.tracked == s.tracked && s1.outstanding == s.outstanding
    && PrefetchOf(th.at) == PrefetchOf(s.threads[t].at)
  }

  ghost predicate AccountsSame(s: State, s1: State) {
    && s1.resident == s.resident && s1.reserved == s.reserved && |s1.chunks| == |s.chunks|
    && forall x :: 0 <= x < |s.chunks| ==> s1.chunks[x].acct == s.chunks[x].acct
  }

  ghost predicate FaultersSame(s: State, s1: State, t: nat)
    requires t < |s.threads|
  {
    && s1.faulters == s.faulters && |s1.chunks| == |s.chunks| && (t == 0 ==> !s.threads[0].at.DHandle?)
    && forall x :: 0 <= x < |s.chunks| ==>
         (s1.chunks[x].mapped ==> s.chunks[x].mapped) && (s.chunks[x].state.Fetching? ==> s1.chunks[x].state.Fetching?)
  }

  lemma TrackedMove(s: State, s1: State, t: nat, th: Thread)
    requires TrackedOk(s) && t < |s.threads| && s1.threads == s.threads && TrackedSame(s, s1, t, th)
    ensures TrackedOk(Move(s1, t, th))
  {
    hide PrefetchOf, Locks;
    var s2 := Move(s1, t, th);
    forall x | x in s2.tracked && x !in s2.pfQueue
      ensures exists u :: 0 <= u < |s2.threads| && PrefetchOf(s2.threads[u].at) == Some(x)
    {
      var u :| 0 <= u < |s.threads| && PrefetchOf(s.threads[u].at) == Some(x);
      assert PrefetchOf(s2.threads[u].at) == Some(x);
    }
  }

  lemma AccountsMove(cfg: Config, s: State, s1: State)
    requires |cfg.lens| == |s.chunks| && AccountsOk(cfg, s) && AccountsSame(s, s1)
    ensures AccountsOk(cfg, s1)
  {
    assert CountedBytes(cfg, s1) == CountedBytes(cfg, s);
    assert ReservedBytes(cfg, s1) == ReservedBytes(cfg, s);
  }

  lemma FaultersMove(s: State, s1: State, t: nat, th: Thread)
    requires FaultersOk(s) && t < |s.threads| && s1.threads == s.threads && FaultersSame(s, s1, t)
    ensures FaultersOk(Move(s1, t, th))
  {
    hide Locks;
  }

  /** A step keeps the invariant if no other thread notices it, the moving thread knows what its new
      place expects, and every part it does touch holds again. */
  lemma Keeps(cfg: Config, s: State, s1: State, t: nat, th: Thread, c: nat)
    requires Inv(cfg, s) && Shaped(cfg, s1) && Unnoticed(s, s1, t, c) && Arrives(cfg, s, s1, t, th) && !s1.aborted
    requires QueueSame(s, s1) || QueueOk(s1)
    requires FifoSame(s, s1) || FifoOk(s1)
    requires TrackedSame(s, s1, t, th) || TrackedOk(Move(s1, t, th))
    requires AccountsSame(s, s1) || AccountsOk(cfg, s1)
    requires FaultersSame(s, s1, t) || FaultersOk(Move(s1, t, th))
    ensures Inv(cfg, Move(s1, t, th))
  {
    hide Expects, Locks, Settled, PrefetchOf, TrackedOk, FaultersOk;
    var s2 := Move(s1, t, th);
    CoreMove(cfg, s, s1, t, th, c);
    assert QueueOk(s2);
    assert FifoOk(s2);
    if TrackedSame(s, s1, t, th) {
      TrackedMove(s, s1, t, th);
    }
    if AccountsSame(s, s1) {
      AccountsMove(cfg, s, s1);
    }
    assert AccountsOk(cfg, s2) by {
      assert CountedBytes(cfg, s2) == CountedBytes(cfg, s1);
      assert ReservedBytes(cfg, s2) == ReservedBytes(cfg, s1);
    }
    if FaultersSame(s, s1, t) {
      FaultersMove(s, s1, t, th);
    }
  }

  /** What the thread about to move knows. */
  lemma Knows(cfg: Config, s: State, t: nat) returns (at: At)
    requires Inv(cfg, s) && t < |s.threads|
    ensures Shaped(cfg, s) && |s.chunks| == |cfg.lens| > 0 && !s.aborted
    ensures at == s.threads[t].at && Names(|cfg.lens|, at)
    ensures (Dispatching(at) <==> t == 0) && (Notifying(at) <==> t > cfg.workers)
    ensures Subject(at).Some? ==> Expects(s.threads[t], t, cfg.lens[at.c], Seen(s, at.c))
    ensures at.Evict? ==> CanEvict(s, at.v) && (s.threads[t].inside ==> Settled(Seen(s, at.v), cfg.lens[at.v]))
  {
    hide Expects, Settled;
    at := s.threads[t].at;
    assert ThreadOk(cfg, s, t);
  }

  lemma OwnJobs(cfg: Config, s: State, t: nat)
    requires Inv(cfg, s) && t < |s.threads|
    ensures forall x :: 0 <= x < |s.chunks| && s.chunks[x].job == Taken(t) ==> Works(s.threads[t].at, x)
  {
    hide ThreadsOk, UnlockedOk, Works;
  }

  /** What a move is about, apart from the state: `c` is the only chunk whose entry changes, from `e` to
      `e1`, whose lock may be released, and which the new place may be about. */
  ghost predicate Handover(from: Thread, th: Thread, t: nat, c: nat, len: nat, e: Entry, e1: Entry) {
    && Locks(th) <= Locks(from) && !th.at.Evict?
    && (Subject(th.at).Some? ==> th.at.c == c && Expects(th, t, len, e1))
    && (forall x :: OfChunk(x) in Locks(from) && OfChunk(x) !in Locks(th) ==> x == c && Settled(e1, len))
    && (e1.job.Taken? && e1.job != e.job ==> e1.job.t == t && Works(th.at, c))
    && (Works(from.at, c) && e1.job == Taken(t) ==> Works(th.at, c))
    && (forall x :: x != c && Works(from.at, x) ==> Works(th.at, x))
  }

  lemma HandoverArrives(cfg: Config, s: State, s1: State, t: nat, th: Thread, c: nat)
    requires Shaped(cfg, s) && Unnoticed(s, s1, t, c) && c < |s.chunks|
    requires Names(|cfg.lens|, th.at) && (Dispatching(th.at) <==> t == 0) && (Notifying(th.at) <==> t > cfg.workers)
    requires Handover(s.threads[t], th, t, c, cfg.lens[c], Seen(s, c), Seen(s1, c))
    requires forall x :: 0 <= x < |s.chunks| && s.chunks[x].job == Taken(t) ==> Works(s.threads[t].at, x)
    ensures Arrives(cfg, s, s1, t, th)
  {
    hide Expects, Settled, Works, Locks, Names;
    forall x | 0 <= x < |s.chunks| && s1.chunks[x].job.Taken?
      ensures if s1.chunks[x].job.t == t then Works(th.at, x) else s1.chunks[x].job == s.chunks[x].job
    {
      assert Seen(s1, x).job == s1.chunks[x].job && Seen(s, x).job == s.chunks[x].job;
    }
  }

  /** A step on one chunk's entry, `c`. */
  lemma Step(cfg: Config, s: State, s1: State, t: nat, th: Thread, c: nat)
    requires Inv(cfg, s) && Shaped(cfg, s1) && t < |s.threads| && Unnoticed(s, s1, t, c) && c < |s.chunks| && !s1.aborted
    requires Names(|cfg.lens|, th.at) && (Dispatching(th.at) <==> t == 0) && (Notifying(th.at) <==> t > cfg.workers)
    requires Handover(s.threads[t], th, t, c, cfg.lens[c], Seen(s, c), Seen(s1, c))
    requires QueueSame(s, s1) || QueueOk(s1)
    requires FifoSame(s, s1) || FifoOk(s1)
    requires TrackedSame(s, s1, t, th) || TrackedOk(Move(s1, t, th))
    requires AccountsSame(s, s1) || AccountsOk(cfg, s1)
    requires FaultersSame(s, s1, t) || FaultersOk(Move(s1, t, th))
    ensures Inv(cfg, Move(s1, t, th))
  {
    hide *;
    var at := Knows(cfg, s, t);
    OwnJobs(cfg, s, t);
    HandoverArrives(cfg, s, s1, t, th, c);
    Keeps(cfg, s, s1, t, th, c);
  }

  /** A step that only moves on. */
  lemma Moves(cfg: Config, s: State, t: nat, th: Thread, c: nat)
    requires Inv(cfg, s) && t < |s.threads| && c < |s.chunks|
    requires Names(|cfg.lens|, th.at) && (Dispatching(th.at) <==> t == 0) && (Notifying(th.at) <==> t > cfg.workers)
    requires Handover(s.threads[t], th, t, c, cfg.lens[c], Seen(s, c), Seen(s, c))
    requires PrefetchOf(th.at) == PrefetchOf(s.threads[t].at) && !s.threads[t].at.DHandle?
    ensures Inv(cfg, Move(s, t, th))
  {
    hide Inv, Shaped, Unnoticed, TrackedOk, FaultersOk, Handover, Names, PrefetchOf;
    var at := Knows(cfg, s, t);
    Elsewhere(s, s, t, c);
    Step(cfg, s, s, t, th, c);
  }

  /** New data keep the shape. */
  lemma ShapedData(cfg: Config, s: State, s1: State)
    requires Shaped(cfg, s) && s1.threads == s.threads && |s1.chunks| == |s.chunks|
    requires s1.fifo == s.fifo || InRange(|cfg.lens|, s1.fifo)
    requires s1.queue == s.queue || InRange(|cfg.lens|, s1.queue)
    requires s1.pfQueue == s.pfQueue || InRange(|cfg.lens|, s1.pfQueue)
    requires s1.faulters == s.faulters
             || forall f :: 0 <= f < |s1.faulters| && s1.faulters[f].Blocked? ==> s1.faulters[f].c < |cfg.lens|
    ensures Shaped(cfg, s1)
  {
    hide Names;
  }

  /** Changing the entry of a chunk whose lock is held goes unnoticed, unless it creates or removes a
      victim without the budget lock. */
  lemma Privately(s: State, s1: State, t: nat, c: nat, e: Entry)
    requires t < |s.threads| && c < |s.chunks| && s1.chunks == s.chunks[c := e]
    requires s1.threads == s.threads && s1.held == s.held && s1.fifo == s.fifo
    requires OfChunk(c) in Locks(s.threads[t])
    requires s.chunks[c].job.Taken? ==> s.chunks[c].job.t == t
    requires Budget in Locks(s.threads[t]) || !s.chunks[c].state.Resident? || (e.state.Resident? && e.pin == s.chunks[c].pin)
    ensures Unnoticed(s, s1, t, c)
  {
    hide Locks;
  }

  /** So does a change to anything but entries, retention and locks. */
  lemma Elsewhere(s: State, s1: State, t: nat, c: nat)
    requires t < |s.threads| && s1.chunks == s.chunks && s1.threads == s.threads && s1.held == s.held && s1.fifo == s.fifo
    ensures Unnoticed(s, s1, t, c)
  {
    hide Locks;
  }

  lemma WokenRange(cfg: Config, s: State, c: nat)
    requires Shaped(cfg, s)
    ensures forall f :: 0 <= f < |s.faulters| && Woken(s.faulters, c)[f].Blocked? ==> Woken(s.faulters, c)[f].c < |cfg.lens|
  {
    hide Names;
  }

  /** A chunk with a pin that is no retention, or not resident, is not retained. */
  lemma NotRetained(cfg: Config, s: State, c: nat)
    requires Inv(cfg, s) && c < |s.chunks| && (Seen(s, c).pin == 1 || !s.chunks[c].state.Resident?)
    ensures c !in s.fifo
  {
    hide Core;
  }

  // ---- the dispatcher ----

  lemma ReadMessage(cfg: Config, s: State, s1: State, t: nat, f: nat)
    requires Inv(cfg, s) && t == 0 && s.threads[t].at == DIdle && f < |s.faulters| && s.faulters[f].Blocked?
    requires s1 == s.(faulters := s.faulters[f := Blocked(s.faulters[f].c, true)])
    ensures Shaped(cfg, s1) && s.faulters[f].c < |cfg.lens|
    ensures FaultersOk(Move(s1, t, Thread(DHandle(s.faulters[f].c), false)))
  {
    hide Names, Locks, ThreadsOk;
  }

  lemma StopKeeps(cfg: Config, s: State, t: nat)
    requires Inv(cfg, s) && t < |s.threads| && s.threads[t].at == DIdle
    ensures Inv(cfg, Goto(s.(stop := true, asleep := {}), t, DStopped))
  {
    hide Inv, Shaped, Unnoticed, QueueOk, FifoOk, TrackedOk, AccountsOk, FaultersOk;
    var at := Knows(cfg, s, t);
    var s1 := s.(stop := true, asleep := {});
    ShapedData(cfg, s, s1);
    Elsewhere(s, s1, t, 0);
    Step(cfg, s, s1, t, Thread(DStopped, false), 0);
  }

  lemma DispatchKeeps(cfg: Config, s: State, t: nat, choice: Choice)
    requires Inv(cfg, s) && t < |s.threads| && s.threads[t].at == DIdle
    requires choice.yes || (choice.x < |s.faulters| && s.faulters[choice.x].Blocked?)
    ensures Inv(cfg, DispatchNext(s, t, choice))
  {
    hide Inv, Shaped, Unnoticed, QueueOk, FifoOk, TrackedOk, AccountsOk, FaultersOk;
    if choice.yes {
      StopKeeps(cfg, s, t);
    } else {
      var at := Knows(cfg, s, t);
      var c := s.faulters[choice.x].c;
      var s1 := s.(faulters := s.faulters[choice.x := Blocked(c, true)]);
      ReadMessage(cfg, s, s1, t, choice.x);
      Elsewhere(s, s1, t, c);
      Step(cfg, s, s1, t, Thread(DHandle(c), false), c);
    }
  }

  /** Waking everyone blocked on a chunk leaves nobody who has to be woken by its fetch. */
  lemma WakeKeeps(cfg: Config, s: State, s1: State, t: nat, th: Thread, c: nat)
    requires Shaped(cfg, s) && FaultersOk(s) && t < |s.threads| && s1.threads == s.threads && c < |s.chunks|
    requires |s1.chunks| == |s.chunks| && s1.faulters == Woken(s.faulters, c)
    requires forall x :: 0 <= x < |s.chunks| && x != c ==> s1.chunks[x] == s.chunks[x]
    requires s.threads[t].at.DHandle? ==> s.threads[t].at.c == c
    ensures FaultersOk(Move(s1, t, th))
  {
    hide Shaped, Locks;
  }

  /** Starting a fetch, or finding one under way, accounts for the message being handled. */
  lemma HandledMessage(s: State, s1: State, t: nat, th: Thread, c: nat)
    requires FaultersOk(s) && t < |s.threads| && s1.threads == s.threads && c < |s.chunks| && s.threads[t].at == DHandle(c)
    requires |s1.chunks| == |s.chunks| && s1.faulters == s.faulters
    requires forall x :: 0 <= x < |s.chunks| && x != c ==> s1.chunks[x] == s.chunks[x]
    requires s1.chunks[c].state.Fetching? && s1.chunks[c].mapped == s.chunks[c].mapped
    ensures FaultersOk(Move(s1, t, th))
  {
    hide Locks;
  }

  lemma FaultersPart(cfg: Config, s: State)
    requires Inv(cfg, s)
    ensures FaultersOk(s)
  {
    hide Core;
  }

  lemma FetchKeeps(cfg: Config, s: State, t: nat, c: nat)
    requires Inv(cfg, s) && t < |s.threads| && c < |s.chunks| && s.threads[t] == Thread(DHandle(c), true)
    requires s.chunks[c].state.Absent?
    ensures Inv(cfg, HandleFault(s, t, c))
  {
    hide Inv, Shaped, Unnoticed, QueueOk, FifoOk, TrackedOk, AccountsOk, FaultersOk;
    var at := Knows(cfg, s, t);
    FaultersPart(cfg, s);
    var e := s.chunks[c].(state := Fetching, job := Preparing);
    var s1, th := s.(chunks := s.chunks[c := e]), Thread(DOnFault(c), false);
    NotRetained(cfg, s, c);
    ShapedData(cfg, s, s1);
    HandledMessage(s, s1, t, th, c);
    Privately(s, s1, t, c, e);
    Step(cfg, s, s1, t, th, c);
  }

  lemma HandleKeeps(cfg: Config, s: State, t: nat, c: nat)
    requires Inv(cfg, s) && t < |s.threads| && c < |s.chunks| && s.threads[t] == Thread(DHandle(c), true)
    ensures Inv(cfg, HandleFault(s, t, c))
  {
    hide Inv, Shaped, Unnoticed, QueueOk, FifoOk, TrackedOk, AccountsOk, FaultersOk;
    var at := Knows(cfg, s, t);
    FaultersPart(cfg, s);
    match s.chunks[c].state
    case Resident =>
      var s1, th := s.(faulters := Woken(s.faulters, c)), Thread(DIdle, false);
      WokenRange(cfg, s, c);
      ShapedData(cfg, s, s1);
      WakeKeeps(cfg, s, s1, t, th, c);
      Elsewhere(s, s1, t, c);
      Step(cfg, s, s1, t, th, c);
    case Fetching =>
      HandledMessage(s, s, t, Thread(DIdle, false), c);
      Elsewhere(s, s, t, c);
      Step(cfg, s, s, t, Thread(DIdle, false), c);
    case Absent => FetchKeeps(cfg, s, t, c);
  }

  lemma Enqueued(cfg: Config, s: State, s1: State, c: nat)
    requires Inv(cfg, s) && c < |s.chunks| && !s.chunks[c].job.Queued?
    requires s1.queue == s.queue + [c] && s1.chunks == s.chunks[c := s.chunks[c].(job := Queued)]
    ensures |s.queue| <= |s.chunks| && QueueOk(s1) && InRange(|cfg.lens|, s1.queue)
  {
    hide ThreadsOk, Names;
    QueueRoom(cfg, s);
    assert c !in s.queue;
  }

  lemma EnqueueKeeps(cfg: Config, s: State, t: nat, c: nat, w: nat)
    requires Inv(cfg, s) && t < |s.threads| && c < |s.chunks| && s.threads[t] == Thread(DEnqueue(c), true)
    ensures Inv(cfg, EnqueueDemand(s, t, c, w))
  {
    hide Inv, Shaped, Unnoticed, QueueOk, FifoOk, TrackedOk, AccountsOk, FaultersOk;
    var at := Knows(cfg, s, t);
    var e := s.chunks[c].(job := Queued);
    var s1 := s.(queue := s.queue + [c], chunks := s.chunks[c := e], asleep := s.asleep - {w});
    Enqueued(cfg, s, s1, c);
    ShapedData(cfg, s, s1);
    Privately(s, s1, t, c, e);
    Step(cfg, s, s1, t, Thread(DUnlock(c), false), c);
  }

  lemma DispatcherKeeps(cfg: Config, s: State, t: nat, choice: Choice)
    requires Inv(cfg, s) && Shaped(cfg, s) && CanRun(cfg, s, t, choice) && Dispatching(s.threads[t].at)
    ensures Inv(cfg, RunThread(cfg, s, t, choice))
  {
    hide Inv, Shaped, Move, HandleFault, EnqueueDemand, DispatchNext;
    var at := Knows(cfg, s, t);
    match at
    case DIdle => DispatchKeeps(cfg, s, t, choice);
    case DHandle(c) => HandleKeeps(cfg, s, t, c);
    case DOnFault(c) => PassKeeps(cfg, s, t, c, DEnqueue(c));
    case DEnqueue(c) => EnqueueKeeps(cfg, s, t, c, choice.x);
    case DUnlock(c) => PassKeeps(cfg, s, t, c, DIdle);
    case _ =>
  }

  lemma PassKeeps(cfg: Config, s: State, t: nat, c: nat, next: At)
    requires Inv(cfg, s) && t < |s.threads| && c < |s.chunks|
    requires (s.threads[t] == Thread(DOnFault(c), true) && next == DEnqueue(c)) || (s.threads[t].at == DUnlock(c) && next == DIdle)
    ensures Inv(cfg, Goto(s, t, next))
  {
    hide Inv, Shaped;
    var at := Knows(cfg, s, t);
    Moves(cfg, s, t, Thread(next, false), c);
  }
}
