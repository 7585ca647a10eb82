/** What a reclaim leaves behind: from then on chunk and demand jobs are out of step for good. */
module StaleJobs {
  import opened Chunks
  import opened Finite
  import opened RetentionRings
  import opened Protocol
  import opened Invariant
  import opened AsyncRuns
  import opened AsyncTheorems
  import opened Watchdog

  // ---- one chunk, its fetches and its demand jobs ----

  /** What holding the lock of `c` at a place tells about the chunk, reclaimed or not. */
  predicate KnowsState(at: At, c: nat, state: ChunkState) {
    && (Responsible(at, c) && !at.Take? ==> state.Fetching?)
    && ((at.PinTarget? || at.Mark?) && at.c == c ==> state.Absent?)
  }

  /** Jobs for `c` in the queue, and a thread that has one or fetches the chunk, less the chunk's FETCHING. */
  function Excess(queue: seq<nat>, at: At, state: ChunkState, c: nat): int {
    (multiset(queue)[c] as int) + (if Responsible(at, c) then 1 else 0) - (if state.Fetching? then 1 else 0)
  }

  /** A thread goes from one place to another: it releases locks, changes the state of `c` only with the
      lock, and keeps the balance of jobs and fetches. */
  predicate Passes(n: nat, from: Thread, th: Thread, c: nat, queue: seq<nat>, queue1: seq<nat>, state: ChunkState, state1: ChunkState) {
    && Locks(th) <= Locks(from) && Names(n, th.at)
    && (Dispatching(th.at) <==> Dispatching(from.at)) && (Notifying(th.at) <==> Notifying(from.at))
    && (state1 != state ==> OfChunk(c) in Locks(from))
    && KnowsState(th.at, c, state1)
    && Excess(queue1, th.at, state1, c) == Excess(queue, from.at, state, c)
  }

  /** The turn of thread `t` leads to `s1`. */
  predicate Turn(cfg: Config, s: State, s1: State, t: nat, c: nat)
    requires t < |s.threads| && c < |s.chunks|
  {
    && |s1.threads| == |s.threads| && |s1.chunks| == |s.chunks|
    && s1 == Move(s1.(threads := s.threads, held := s.held), t, s1.threads[t])
    && Passes(|cfg.lens|, s.threads[t], s1.threads[t], c, s.queue, s1.queue, s.chunks[c].state, s1.chunks[c].state)
  }

  lemma Turned(cfg: Config, s: State, d: State, t: nat, th: Thread, c: nat)
    requires t < |s.threads| && c < |s.chunks| == |d.chunks| && d.threads == s.threads && d.held == s.held
    requires Passes(|cfg.lens|, s.threads[t], th, c, s.queue, d.queue, s.chunks[c].state, d.chunks[c].state)
    ensures Turn(cfg, s, Move(d, t, th), t, c)
  {
    hide Passes, Locks;
    var s1 := Move(d, t, th);
    assert s1.threads[t] == th && s1.(threads := s.threads, held := s.held) == d;
  }

  // ---- places ----

  predicate Holds(th: Thread) {
    Needs(th.at).Some? ==> th.inside
  }

  /** Where a thread may go without touching the state of its chunk or the demand queue. */
  predicate Onward(at: At, to: At) {
    match at
    case DHandle(_) => to.DIdle?
    case DOnFault(x) => to == DEnqueue(x)
    case DUnlock(_) => to.DIdle?
    case Take(k, x) => k.Prefetch? && to == Untrack(x)
    case PinTarget(x) => to == Mark(x)
    case Ensure(k, x, _) =>
      || to == Read(k, x) || to == Abandon(k, x) || ((to.Ensure? || to.Evict?) && to.k == k && to.c == x)
      || (k.Prefetch? && to == UnpinDeclined(x))
    case UnpinDeclined(x) => to == Abandon(Prefetch, x)
    case Read(k, x) => to == Read(k, x) || to == Continue(k, x)
    case Continue(k, x) => to == Commit(k, x)
    case Commit(k, x) => to == Publish(k, x)
    case Need(x) => (to.Predict? || to.Unpin?) && to.c == x
    case Predict(x, _) => (to.Push? || to.Unpin?) && to.c == x
    case Push(x, _, _) => (to.Predict? || to.Unpin?) && to.c == x
    case Unpin(x) => to == Unlock(Demand, x)
    case Retain(x) => to == Unlock(Prefetch, x)
    case Unlock(k, x) => if k.Demand? then to.WIdle? else to == Untrack(x)
    case Untrack(_) => to.WIdle?
    case NIdle => to.NAccess?
    case NAccess(_) => to.NIdle? || to.NRelease?
    case NRelease(_) => to.NIdle?
    case _ => false
  }

  lemma OnwardLocks(from: Thread, to: At)
    requires Holds(from) && Onward(from.at, to)
    ensures Locks(Thread(to, false)) <= Locks(from)
    ensures (Dispatching(to) <==> Dispatching(from.at)) && (Notifying(to) <==> Notifying(from.at))
  {
  }

  lemma OnwardKnows(at: At, to: At, c: nat, state: ChunkState)
    requires Onward(at, to) && KnowsState(at, c, state)
    ensures KnowsState(to, c, state) && (Responsible(to, c) <==> Responsible(at, c))
  {
  }

  lemma OnwardPasses(n: nat, from: Thread, to: At, c: nat, queue: seq<nat>, state: ChunkState)
    requires Holds(from) && Onward(from.at, to) && Names(n, to) && KnowsState(from.at, c, state)
    ensures Passes(n, from, Thread(to, false), c, queue, queue, state, state)
  {
    OnwardLocks(from, to);
    OnwardKnows(from.at, to, c, state);
    hide Names, KnowsState, Onward, Locks, Responsible;
  }

  /** A fetch of `x` begins. */
  lemma BeginPasses(n: nat, from: Thread, to: At, x: nat, c: nat, queue: seq<nat>, state: ChunkState)
    requires Holds(from) && Names(n, to) && KnowsState(from.at, c, state)
    requires (from.at == DHandle(x) && to == DOnFault(x)) || (from.at == Mark(x) && to == Ensure(Prefetch, x, 0))
    requires x == c ==> state.Absent?
    ensures Passes(n, from, Thread(to, false), c, queue, queue, state, if x == c then Fetching else state)
  {
  }

  /** A fetch of `x` ends. */
  lemma EndPasses(n: nat, from: Thread, to: At, x: nat, c: nat, queue: seq<nat>, state: ChunkState, state1: ChunkState)
    requires Holds(from) && Names(n, to) && KnowsState(from.at, c, state) && !state1.Fetching?
    requires (from.at.Abandon? && from.at.c == x && to == if from.at.k.Demand? then WIdle else Untrack(x))
             || (from.at.Publish? && from.at.c == x && (to == Retain(x) || to == Need(x) || to == Unpin(x)))
    ensures Passes(n, from, Thread(to, false), c, queue, queue, state, if x == c then state1 else state)
  {
  }

  lemma QueuedPasses(n: nat, from: Thread, x: nat, c: nat, queue: seq<nat>, state: ChunkState)
    requires Holds(from) && from.at == DEnqueue(x) && x < n
    ensures Passes(n, from, Thread(DUnlock(x), false), c, queue, queue + [x], state, state)
  {
  }

  lemma PoppedPasses(n: nat, from: Thread, c: nat, queue: seq<nat>, state: ChunkState)
    requires Holds(from) && from.at == WIdle && queue != [] && queue[0] < n
    ensures Passes(n, from, Thread(Take(Demand, queue[0]), false), c, queue, queue[1..], state, state)
  {
    assert queue == [queue[0]] + queue[1..];
  }

  // ---- turns ----

  /** What is known of a thread whose turn it is. */
  lemma Here(cfg: Config, s: State, t: nat, choice: Choice) returns (at: At)
    requires Shaped(cfg, s) && CanRun(cfg, s, t, choice)
    ensures t < |s.threads| && |s.chunks| == |cfg.lens| && at == s.threads[t].at && Names(|cfg.lens|, at)
    ensures InRange(|s.chunks|, s.queue) && InRange(|s.chunks|, s.pfQueue) && InRange(|s.chunks|, s.fifo) && cfg.capacity > 0
    ensures forall f :: 0 <= f < |s.faulters| && s.faulters[f].Blocked? ==> s.faulters[f].c < |cfg.lens|
    ensures Holds(s.threads[t]) && Choosable(cfg, s, t, choice) && !at.DStopped? && !at.WExit?
  {
    hide InRange, Names, Choosable;
    at := s.threads[t].at;
  }

  /** A turn that only moves on, as far as `c` and its jobs are concerned. */
  lemma Goes(cfg: Config, s: State, d: State, t: nat, to: At, c: nat)
    requires t < |s.threads| && c < |s.chunks| == |d.chunks| && d.threads == s.threads && d.held == s.held
    requires d.queue == s.queue && d.chunks[c].state == s.chunks[c].state
    requires Holds(s.threads[t]) && Onward(s.threads[t].at, to) && Names(|cfg.lens|, to)
    requires KnowsState(s.threads[t].at, c, s.chunks[c].state)
    ensures Turn(cfg, s, Goto(d, t, to), t, c)
  {
    hide *;
    OnwardPasses(|cfg.lens|, s.threads[t], to, c, s.queue, s.chunks[c].state);
    GotoIs(d, t, to);
    Turned(cfg, s, d, t, Thread(to, false), c);
  }

  lemma GotoIs(d: State, t: nat, to: At)
    requires t < |d.threads|
    ensures Goto(d, t, to) == Move(d, t, Thread(to, false))
  {
    hide Move;
  }

  /** A turn that begins the fetch of `x`. */
  lemma Begins(cfg: Config, s: State, e: Entry, t: nat, to: At, x: nat, c: nat)
    requires t < |s.threads| && c < |s.chunks| && x < |s.chunks| == |cfg.lens| && s.chunks[x].state.Absent? && e.state.Fetching?
    requires Holds(s.threads[t]) && KnowsState(s.threads[t].at, c, s.chunks[c].state)
    requires (s.threads[t].at == DHandle(x) && to == DOnFault(x)) || (s.threads[t].at == Mark(x) && to == Ensure(Prefetch, x, 0))
    ensures Turn(cfg, s, Goto(s.(chunks := s.chunks[x := e]), t, to), t, c)
  {
    hide Turn, Passes, Locks, KnowsState, Needs, Responsible, Holds, Move;
    BeginPasses(|cfg.lens|, s.threads[t], to, x, c, s.queue, s.chunks[c].state);
    Turned(cfg, s, s.(chunks := s.chunks[x := e]), t, Thread(to, false), c);
  }

  lemma DispatcherTurns(cfg: Config, s: State, t: nat, choice: Choice, c: nat)
    requires Shaped(cfg, s) && CanRun(cfg, s, t, choice) && Dispatching(s.threads[t].at)
    requires c < |s.chunks| && KnowsState(s.threads[t].at, c, s.chunks[c].state)
    ensures var s1 := RunThread(cfg, s, t, choice); s1.aborted || Turn(cfg, s, s1, t, c)
  {
    hide Shaped, Turn, Woken, Passes, KnowsState, Needs, Holds, Goto, CanRun;
    var at := Here(cfg, s, t, choice);
    var f := s.faulters;
    match at
    case DIdle => ReadTurns(cfg, s, t, choice, c);
    case DHandle(x) =>
      if s.chunks[x].state.Absent? {
        Begins(cfg, s, s.chunks[x].(state := Fetching, job := Preparing), t, DOnFault(x), x, c);
      } else {
        Goes(cfg, s, if s.chunks[x].state.Resident? then s.(faulters := Woken(f, x)) else s, t, DIdle, c);
      }
    case DOnFault(x) => Goes(cfg, s, s, t, DEnqueue(x), c);
    case DEnqueue(x) => EnqueueTurns(cfg, s, t, x, choice.x, c);
    case DUnlock(x) => Goes(cfg, s, s, t, DIdle, c);
    case _ =>
  }

  lemma ReadTurns(cfg: Config, s: State, t: nat, choice: Choice, c: nat)
    requires t < |s.threads| && s.threads[t].at.DIdle? && c < |s.chunks|
    requires choice.yes || (choice.x < |s.faulters| && s.faulters[choice.x].Blocked?)
    requires forall f :: 0 <= f < |s.faulters| && s.faulters[f].Blocked? ==> s.faulters[f].c < |cfg.lens|
    ensures Turn(cfg, s, DispatchNext(s, t, choice), t, c)
  {
    hide Turn, Move;
    if choice.yes {
      Turned(cfg, s, s.(stop := true, asleep := {}), t, Thread(DStopped, false), c);
    } else {
      var x := s.faulters[choice.x].c;
      Turned(cfg, s, s.(faulters := s.faulters[choice.x := Blocked(x, true)]), t, Thread(DHandle(x), false), c);
    }
  }

  lemma EnqueueTurns(cfg: Config, s: State, t: nat, x: nat, w: nat, c: nat)
    requires t < |s.threads| && x < |s.chunks| == |cfg.lens| && c < |s.chunks| && Holds(s.threads[t]) && s.threads[t].at == DEnqueue(x)
    ensures var s1 := EnqueueDemand(s, t, x, w); s1.aborted || Turn(cfg, s, s1, t, c)
  {
    hide Turn, Passes, Locks, Needs, Responsible, Holds, Move;
    QueuedPasses(|cfg.lens|, s.threads[t], x, c, s.queue, s.chunks[c].state);
    var d := s.(queue := s.queue + [x], chunks := s.chunks[x := s.chunks[x].(job := Queued)], asleep := s.asleep - {w});
    Turned(cfg, s, d, t, Thread(DUnlock(x), false), c);
  }

  // ---- the turns of a worker ----

  lemma EvictPasses(n: nat, from: Thread, c: nat, queue: seq<nat>, state: ChunkState)
    requires Holds(from) && from.at.Evict? && Names(n, from.at) && KnowsState(from.at, c, state)
    requires from.at.v == c ==> state.Resident?
    ensures Passes(n, from, Thread(Ensure(from.at.k, from.at.c, from.at.left), true), c, queue, queue,
                   state, if from.at.v == c then Absent else state)
  {
  }

  lemma PickedPasses(n: nat, from: Thread, x: nat, c: nat, queue: seq<nat>, state: ChunkState)
    requires Holds(from) && x < n && KnowsState(from.at, c, state)
    ensures from.at == Take(Demand, x) && (x == c ==> state.Fetching?) ==>
              Passes(n, from, Thread(Ensure(Demand, x, RETRIES), false), c, queue, queue, state, state)
    ensures from.at == Take(Prefetch, x) && (x == c ==> state.Absent?) ==>
              Passes(n, from, Thread(PinTarget(x), false), c, queue, queue, state, state)
  {
  }

  lemma IdlePasses(n: nat, from: Thread, to: At, c: nat, queue: seq<nat>, state: ChunkState)
    requires Holds(from) && from.at.WIdle? && Names(n, to)
    requires to.WIdle? || to.WExit? || (to.Take? && to.k.Prefetch?)
    ensures Passes(n, from, Thread(to, false), c, queue, queue, state, state)
  {
  }

  lemma PopTurns(cfg: Config, s: State, t: nat, c: nat)
    requires t < |s.threads| && |s.chunks| == |cfg.lens| && c < |s.chunks| && Holds(s.threads[t]) && s.threads[t].at.WIdle?
    requires InRange(|s.chunks|, s.queue) && InRange(|s.chunks|, s.pfQueue)
    ensures Turn(cfg, s, PopJob(s, t), t, c)
  {
    hide Turn, Passes, Locks, Needs, Responsible, Holds, Move;
    var n, from, st := |cfg.lens|, s.threads[t], s.chunks[c].state;
    if s.queue != [] {
      var x := s.queue[0];
      PoppedPasses(n, from, c, s.queue, st);
      var d := s.(queue := s.queue[1..], chunks := s.chunks[x := s.chunks[x].(job := Taken(t))]);
      Turned(cfg, s, d, t, Thread(Take(Demand, x), false), c);
    } else {
      var to := if s.pfQueue != [] then Take(Prefetch, s.pfQueue[0]) else if s.stop then WExit else WIdle;
      IdlePasses(n, from, to, c, s.queue, st);
      var d := if s.pfQueue != [] then s.(pfQueue := s.pfQueue[1..]) else if s.stop then s else s.(asleep := s.asleep + {t});
      Turned(cfg, s, d, t, Thread(to, false), c);
    }
  }

  lemma TakeTurns(cfg: Config, s: State, t: nat, k: Kind, x: nat, c: nat)
    requires t < |s.threads| && |s.chunks| == |cfg.lens| && c < |s.chunks| && x < |s.chunks|
    requires Holds(s.threads[t]) && s.threads[t].at == Take(k, x) && KnowsState(s.threads[t].at, c, s.chunks[c].state)
    ensures var s1 := TakeChunk(s, t, k, x); s1.aborted || Turn(cfg, s, s1, t, c)
  {
    hide Turn, Passes, Locks, Needs, Responsible, Holds, Move, KnowsState;
    PickedPasses(|cfg.lens|, s.threads[t], x, c, s.queue, s.chunks[c].state);
    if k.Demand? && s.chunks[x].state.Fetching? {
      Turned(cfg, s, s, t, Thread(Ensure(Demand, x, RETRIES), false), c);
    } else if k.Prefetch? && s.chunks[x].state.Absent? {
      Turned(cfg, s, s, t, Thread(PinTarget(x), false), c);
    } else if k.Prefetch? {
      Goes(cfg, s, s, t, Untrack(x), c);
    }
  }

  lemma EnsureTurns(cfg: Config, s: State, t: nat, choice: Choice, c: nat)
    requires Shaped(cfg, s) && CanRun(cfg, s, t, choice) && s.threads[t].at.Ensure?
    requires c < |s.chunks| && KnowsState(s.threads[t].at, c, s.chunks[c].state)
    ensures var at, s1 := s.threads[t].at, RunThread(cfg, s, t, choice); s1.aborted || Turn(cfg, s, s1, t, c)
  {
    hide Shaped, Turn, KnowsState, Holds, Needs, Locks, CanRun, Diverges, NoVictim, NoneBreakable, Removed, Pinned, Names;
    var at := Here(cfg, s, t, choice);
    EnsureNames(cfg, s, t, choice);
    var k, x := at.k, at.c;
    var x1 := choice.x;
    if Fits(cfg, s, x) {
      var e := s.chunks[x].(acct := Reserved);
      Goes(cfg, s, s.(reserved := s.reserved + cfg.lens[x], chunks := s.chunks[x := e]), t, Read(k, x), c);
    } else if !NoVictim(s) {
      Goes(cfg, s, s, t, if k.Prefetch? && choice.yes then UnpinDeclined(x) else Evict(k, x, at.left, x1), c);
    } else if k.Prefetch? {
      Goes(cfg, s, s, t, UnpinDeclined(x), c);
    } else if !NoneBreakable(cfg, s) {
      ReleasedSame(Reconciled(cfg, s), x1, c);
      ReleasedSame(s, x1, c);
      Goes(cfg, s, ReleaseRetained(s, x1), t, Evict(k, x, at.left, x1), c);
    } else {
      Goes(cfg, s, s, t, if at.left > 0 then Ensure(k, x, at.left - 1) else Abandon(k, x), c);
    }
  }

  lemma EnsureNames(cfg: Config, s: State, t: nat, choice: Choice)
    requires Shaped(cfg, s) && CanRun(cfg, s, t, choice) && s.threads[t].at.Ensure?
    ensures var at, n := s.threads[t].at, |cfg.lens|;
            && at.c < n && Names(n, Read(at.k, at.c)) && Names(n, UnpinDeclined(at.c)) && Names(n, Abandon(at.k, at.c))
            && (forall left :: Names(n, Ensure(at.k, at.c, left)))
            && (!Fits(cfg, s, at.c) && (!NoVictim(s) || (at.k.Demand? && !NoneBreakable(cfg, s))) ==>
                  (at.k.Prefetch? && choice.yes && !NoVictim(s)) || (choice.x < n && Names(n, Evict(at.k, at.c, at.left, choice.x))))
  {
    hide NoVictim, NoneBreakable, Fits;
  }

  /** Releasing a retention changes no chunk's state. */
  lemma ReleasedSame(s: State, v: nat, c: nat)
    requires v < |s.chunks| && c < |s.chunks|
    ensures var d := ReleaseRetained(s, v);
            && d.threads == s.threads && d.held == s.held && d.queue == s.queue && |d.chunks| == |s.chunks|
            && d.aborted == s.aborted && d.chunks[c].state == s.chunks[c].state
  {
  }

  lemma EvictTurns(cfg: Config, s: State, t: nat, k: Kind, x: nat, left: nat, v: nat, c: nat)
    requires t < |s.threads| && |s.chunks| == |cfg.lens| > 0 && c < |s.chunks| && x < |s.chunks| && v < |s.chunks|
    requires Holds(s.threads[t]) && s.threads[t].at == Evict(k, x, left, v) && KnowsState(s.threads[t].at, c, s.chunks[c].state)
    ensures var s1 := EvictChunk(cfg, s, t, k, x, left, v); s1.aborted || Turn(cfg, s, s1, t, c)
  {
    hide Turn, Passes, Locks, Needs, Responsible, Holds, Move, KnowsState, Diverges;
    if CanEvict(s, v) {
      EvictPasses(|cfg.lens|, s.threads[t], c, s.queue, s.chunks[c].state);
      var e := s.chunks[v].(state := Absent, populated := 0, mapped := false, acct := Free);
      var d := s.(chunks := s.chunks[v := e], resident := s.resident - cfg.lens[v]);
      Turned(cfg, s, d, t, Thread(Ensure(k, x, left), true), c);
    }
  }

  /** The fetch of `x` ends. */
  lemma Ends(cfg: Config, s: State, d: State, t: nat, to: At, x: nat, c: nat)
    requires t < |s.threads| && c < |s.chunks| && x < |s.chunks| == |cfg.lens| && Names(|cfg.lens|, to)
    requires d.threads == s.threads && d.held == s.held && d.queue == s.queue && |d.chunks| == |s.chunks|
    requires !d.chunks[x].state.Fetching? && forall y :: 0 <= y < |s.chunks| && y != x ==> d.chunks[y] == s.chunks[y]
    requires Holds(s.threads[t]) && KnowsState(s.threads[t].at, c, s.chunks[c].state)
    requires var at := s.threads[t].at;
             || (at.Abandon? && at.c == x && to == if at.k.Demand? then WIdle else Untrack(x))
             || (at.Publish? && at.c == x && (to == Retain(x) || to == Need(x) || to == Unpin(x)))
    ensures Turn(cfg, s, Goto(d, t, to), t, c)
  {
    hide Turn, Passes, Locks, Needs, Responsible, Holds, Move, KnowsState;
    EndPasses(|cfg.lens|, s.threads[t], to, x, c, s.queue, s.chunks[c].state, d.chunks[x].state);
    Turned(cfg, s, d, t, Thread(to, false), c);
  }

  lemma AskingTurns(cfg: Config, s: State, t: nat, choice: Choice, c: nat)
    requires Shaped(cfg, s) && CanRun(cfg, s, t, choice)
    requires s.threads[t].at.WIdle? || s.threads[t].at.Take? || s.threads[t].at.PinTarget? || s.threads[t].at.Mark?
             || s.threads[t].at.Evict? || s.threads[t].at.UnpinDeclined? || s.threads[t].at.Abandon?
    requires c < |s.chunks| && KnowsState(s.threads[t].at, c, s.chunks[c].state)
    ensures var s1 := RunThread(cfg, s, t, choice); s1.aborted || Turn(cfg, s, s1, t, c)
  {
    hide Shaped, Turn, KnowsState, Holds, Needs, Goto, CanRun, PopJob, TakeChunk, EvictChunk, Woken;
    var at := Here(cfg, s, t, choice);
    match at
    case WIdle => PopTurns(cfg, s, t, c);
    case Take(k, x) => TakeTurns(cfg, s, t, k, x, c);
    case PinTarget(x) => Goes(cfg, s, Pinned(s, x, 1), t, Mark(x), c);
    case Mark(x) => MarkTurns(cfg, s, t, x, c);
    case Evict(k, x, left, v) => EvictTurns(cfg, s, t, k, x, left, v, c);
    case UnpinDeclined(x) => Goes(cfg, s, Pinned(s, x, -1), t, Abandon(Prefetch, x), c);
    case Abandon(k, x) =>
      var e := s.chunks[x].(state := Absent, job := NoJob);
      Ends(cfg, s, s.(chunks := s.chunks[x := e], faulters := Woken(s.faulters, x)), t, if k.Demand? then WIdle else Untrack(x), x, c);
    case _ =>
  }

  /** A marked target was absent all along, its lock being held. */
  lemma MarkTurns(cfg: Config, s: State, t: nat, x: nat, c: nat)
    requires t < |s.threads| && |s.chunks| == |cfg.lens| && c < |s.chunks| && x < |s.chunks|
    requires Holds(s.threads[t]) && s.threads[t].at == Mark(x) && KnowsState(s.threads[t].at, c, s.chunks[c].state)
    ensures Turn(cfg, s, MarkTarget(s, t, x), t, c)
  {
    hide Turn, Passes, Locks, Needs, Responsible, Holds, Move;
    BeginPasses(|cfg.lens|, s.threads[t], Ensure(Prefetch, x, 0), x, c, s.queue, s.chunks[c].state);
    var e := s.chunks[x].(state := Fetching, job := Taken(t));
    Turned(cfg, s, s.(chunks := s.chunks[x := e]), t, Thread(Ensure(Prefetch, x, 0), false), c);
  }

  lemma FetchingTurns(cfg: Config, s: State, t: nat, choice: Choice, c: nat)
    requires Shaped(cfg, s) && CanRun(cfg, s, t, choice)
    requires s.threads[t].at.Read? || s.threads[t].at.Continue? || s.threads[t].at.Commit? || s.threads[t].at.Publish?
    requires c < |s.chunks| && KnowsState(s.threads[t].at, c, s.chunks[c].state)
    ensures var s1 := RunThread(cfg, s, t, choice); s1.aborted || Turn(cfg, s, s1, t, c)
  {
    hide Shaped, Turn, KnowsState, Holds, Needs, Goto, CanRun, Woken;
    var at := Here(cfg, s, t, choice);
    var x := at.c;
    var e := s.chunks[x];
    match at
    case Read(k, _) =>
      var filled := e.populated + choice.amount;
      var to := if filled == cfg.lens[x] then Continue(k, x) else Read(k, x);
      Goes(cfg, s, s.(chunks := s.chunks[x := e.(populated := filled)]), t, to, c);
    case Continue(k, _) =>
      Goes(cfg, s, s.(chunks := s.chunks[x := e.(mapped := true)], faulters := Woken(s.faulters, x)), t, Commit(k, x), c);
    case Commit(k, _) =>
      var e1 := e.(acct := Counted, pin := e.pin + if k.Demand? then 1 else 0);
      var d := s.(chunks := s.chunks[x := e1], reserved := s.reserved - cfg.lens[x], resident := s.resident + cfg.lens[x]);
      Goes(cfg, s, d, t, Publish(k, x), c);
    case Publish(k, _) =>
      var to := if k.Prefetch? then Retain(x) else if cfg.prefetch then Need(x) else Unpin(x);
      Ends(cfg, s, s.(chunks := s.chunks[x := e.(state := Resident, job := NoJob)]), t, to, x, c);
  }

  lemma ToppingTurns(cfg: Config, s: State, t: nat, choice: Choice, c: nat)
    requires Shaped(cfg, s) && CanRun(cfg, s, t, choice)
    requires s.threads[t].at.Need? || s.threads[t].at.Predict? || s.threads[t].at.Push?
    requires c < |s.chunks| && KnowsState(s.threads[t].at, c, s.chunks[c].state)
    ensures var s1 := RunThread(cfg, s, t, choice); s1.aborted || Turn(cfg, s, s1, t, c)
  {
    hide Shaped, Turn, KnowsState, Holds, Needs, Goto, CanRun;
    var at := Here(cfg, s, t, choice);
    match at
    case Need(x) => Goes(cfg, s, s, t, if s.outstanding < cfg.depth then Predict(x, cfg.depth - s.outstanding) else Unpin(x), c);
    case Predict(x, need) =>
      Goes(cfg, s, s, t, if choice.yes && choice.x < |cfg.lens| && choice.x != x then Push(x, choice.x, need) else Unpin(x), c);
    case Push(x, y, need) =>
      var d := s.(tracked := s.tracked + {y}, pfQueue := s.pfQueue + [y], outstanding := s.outstanding + 1,
                  asleep := s.asleep - {choice.x});
      var push := y !in s.tracked && s.chunks[y].state.Absent? && !choice.yes && |s.pfQueue| < |s.chunks| + 1;
      Goes(cfg, s, if push then d else s, t, if need > 1 then Predict(x, need - 1) else Unpin(x), c);
  }

  lemma RetainTurns(cfg: Config, s: State, t: nat, x: nat, c: nat)
    requires t < |s.threads| && |s.chunks| == |cfg.lens| && c < |s.chunks| && x < |s.chunks|
    requires InRange(|s.chunks|, s.fifo) && cfg.capacity > 0
    requires Holds(s.threads[t]) && s.threads[t].at == Retain(x) && KnowsState(s.threads[t].at, c, s.chunks[c].state)
    ensures Turn(cfg, s, RetainTarget(cfg, s, t, x), t, c)
  {
    hide Turn, KnowsState, Holds, Needs, Goto, Pushed;
    var room := if |s.fifo| >= cfg.capacity then Pinned(s, s.fifo[0], -1) else s;
    var d := if cfg.retention then room.(fifo := Pushed(s.fifo, cfg.capacity, x)) else Pinned(s, x, -1);
    Goes(cfg, s, d, t, Unlock(Prefetch, x), c);
  }

  lemma LandedTurns(cfg: Config, s: State, t: nat, choice: Choice, c: nat)
    requires Shaped(cfg, s) && CanRun(cfg, s, t, choice)
    requires s.threads[t].at.Unpin? || s.threads[t].at.Retain? || s.threads[t].at.Unlock? || s.threads[t].at.Untrack?
    requires c < |s.chunks| && KnowsState(s.threads[t].at, c, s.chunks[c].state)
    ensures var s1 := RunThread(cfg, s, t, choice); s1.aborted || Turn(cfg, s, s1, t, c)
  {
    hide Shaped, Turn, KnowsState, Holds, Needs, Goto, CanRun, RetainTarget;
    var at := Here(cfg, s, t, choice);
    match at
    case Unpin(x) => Goes(cfg, s, Pinned(s, x, -1), t, Unlock(Demand, x), c);
    case Retain(x) => RetainTurns(cfg, s, t, x, c);
    case Unlock(k, x) => Goes(cfg, s, s, t, if k.Demand? then WIdle else Untrack(x), c);
    case Untrack(x) => Goes(cfg, s, s.(outstanding := s.outstanding - 1, tracked := s.tracked - {x}), t, WIdle, c);
  }

  lemma NotifierTurns(cfg: Config, s: State, t: nat, choice: Choice, c: nat)
    requires Shaped(cfg, s) && CanRun(cfg, s, t, choice) && Notifying(s.threads[t].at)
    requires c < |s.chunks| && KnowsState(s.threads[t].at, c, s.chunks[c].state)
    ensures var s1 := RunThread(cfg, s, t, choice); s1.aborted || Turn(cfg, s, s1, t, c)
  {
    hide Shaped, Turn, KnowsState, Holds, Needs, Goto, CanRun, ReleaseRetained;
    var at := Here(cfg, s, t, choice);
    match at
    case NIdle => Goes(cfg, s, s, t, NAccess(choice.x), c);
    case NAccess(x) => Goes(cfg, s, s, t, if cfg.retention then NRelease(x) else NIdle, c);
    case NRelease(x) =>
      ReleasedSame(s, x, c);
      Goes(cfg, s, ReleaseRetained(s, x), t, NIdle, c);
  }

  lemma RunTurns(cfg: Config, s: State, t: nat, choice: Choice, c: nat)
    requires Shaped(cfg, s) && CanRun(cfg, s, t, choice)
    requires c < |s.chunks| && KnowsState(s.threads[t].at, c, s.chunks[c].state)
    ensures var s1 := RunThread(cfg, s, t, choice); s1.aborted || Turn(cfg, s, s1, t, c)
  {
    hide Shaped, Turn, KnowsState, RunThread, CanRun;
    var at := Here(cfg, s, t, choice);
    if Dispatching(at) {
      DispatcherTurns(cfg, s, t, choice, c);
    } else if Notifying(at) {
      NotifierTurns(cfg, s, t, choice, c);
    } else if at.Ensure? {
      EnsureTurns(cfg, s, t, choice, c);
    } else if at.Read? || at.Continue? || at.Commit? || at.Publish? {
      FetchingTurns(cfg, s, t, choice, c);
    } else if at.Need? || at.Predict? || at.Push? {
      ToppingTurns(cfg, s, t, choice, c);
    } else if at.Unpin? || at.Retain? || at.Unlock? || at.Untrack? {
      LandedTurns(cfg, s, t, choice, c);
    } else {
      AskingTurns(cfg, s, t, choice, c);
    }
  }

  // ---- the balance ----

  /** Chunk `c` has one demand job more than its fetch accounts for. */
  ghost predicate OneTooMany(cfg: Config, s: State, c: nat) {
    && Shaped(cfg, s) && LocksOk(s) && c < |s.chunks|
    && (forall t :: 0 <= t < |s.threads| ==> KnowsState(s.threads[t].at, c, s.chunks[c].state))
    && multiset(s.queue)[c] + |Owners(s, c)| == 1 + if s.chunks[c].state.Fetching? then 1 else 0
  }

  lemma OwnersTurn(s: State, s1: State, t: nat, c: nat)
    requires t < |s.threads| == |s1.threads| && forall u :: 0 <= u < |s.threads| && u != t ==> s1.threads[u] == s.threads[u]
    ensures |Owners(s1, c)| - (if Responsible(s1.threads[t].at, c) then 1 else 0)
            == |Owners(s, c)| - if Responsible(s.threads[t].at, c) then 1 else 0
  {
    hide Responsible;
    var others := Owners(s, c) - {t};
    assert Owners(s, c) == if Responsible(s.threads[t].at, c) then others + {t} else others;
    assert Owners(s1, c) == if Responsible(s1.threads[t].at, c) then others + {t} else others;
  }

  lemma KnowsLocked(th: Thread, c: nat, state: ChunkState, state1: ChunkState)
    requires KnowsState(th.at, c, state) && OfChunk(c) !in Locks(th)
    ensures KnowsState(th.at, c, state1)
  {
  }

  lemma TurnBalances(cfg: Config, s: State, s1: State, t: nat, c: nat)
    requires OneTooMany(cfg, s, c) && t < |s.threads| && Turn(cfg, s, s1, t, c) && Shaped(cfg, s1)
    ensures OneTooMany(cfg, s1, c)
  {
    hide Shaped, KnowsState, Locks, Names, Dispatching, Notifying, Responsible;
    var th := s1.threads[t];
    LocksMove(s1.(threads := s.threads, held := s.held), t, th);
    assert LocksOk(s1);
    OwnersTurn(s, s1, t, c);
    assert Excess(s1.queue, th.at, s1.chunks[c].state, c) == Excess(s.queue, s.threads[t].at, s.chunks[c].state, c);
    forall u | 0 <= u < |s1.threads| ensures KnowsState(s1.threads[u].at, c, s1.chunks[c].state) {
      if u != t && s1.chunks[c].state != s.chunks[c].state {
        Exclusive(s, t, u, OfChunk(c));
        KnowsLocked(s.threads[u], c, s.chunks[c].state, s1.chunks[c].state);
      }
    }
  }

  // ---- every transition keeps the shape ----

  /** The queues and the blocked threads name chunks of the table. */
  ghost predicate Ranged(n: nat, s: State) {
    && InRange(n, s.fifo) && InRange(n, s.queue) && InRange(n, s.pfQueue)
    && forall f :: 0 <= f < |s.faulters| && s.faulters[f].Blocked? ==> s.faulters[f].c < n
  }

  ghost predicate SameNames(s: State, s1: State) {
    s1.fifo == s.fifo && s1.queue == s.queue && s1.pfQueue == s.pfQueue && s1.faulters == s.faulters
  }

  lemma RemovedRange(n: nat, fifo: seq<nat>, x: nat)
    requires InRange(n, fifo)
    ensures InRange(n, Removed(fifo, x))
  {
    if fifo != [] && fifo[0] != x {
      RemovedRange(n, fifo[1..], x);
    }
  }

  lemma PushedRange(n: nat, fifo: seq<nat>, cap: nat, x: nat)
    requires InRange(n, fifo) && x < n
    ensures InRange(n, Pushed(fifo, cap, x))
  {
  }

  lemma DispatcherRanged(cfg: Config, s: State, t: nat, choice: Choice)
    requires Shaped(cfg, s) && CanRun(cfg, s, t, choice) && Dispatching(s.threads[t].at)
    ensures Ranged(|cfg.lens|, RunThread(cfg, s, t, choice))
  {
    hide Shaped, Locks, Needs, Holds, CanRun;
    var at := Here(cfg, s, t, choice);
  }

  lemma WorkerRanged(cfg: Config, s: State, t: nat, choice: Choice)
    requires Shaped(cfg, s) && CanRun(cfg, s, t, choice)
    requires s.threads[t].at.WIdle? || s.threads[t].at.Abandon? || s.threads[t].at.Continue?
    ensures Ranged(|cfg.lens|, RunThread(cfg, s, t, choice))
  {
    hide Shaped, Locks, Needs, Holds, CanRun;
    var at := Here(cfg, s, t, choice);
  }

  lemma EnsureRanged(cfg: Config, s: State, t: nat, choice: Choice)
    requires Shaped(cfg, s) && CanRun(cfg, s, t, choice) && s.threads[t].at.Ensure?
    ensures Ranged(|cfg.lens|, RunThread(cfg, s, t, choice))
  {
    hide Shaped, Locks, Needs, Holds, CanRun, Fits, NoVictim, NoneBreakable, Diverges, InRange;
    var at := Here(cfg, s, t, choice);
    RemovedRange(|cfg.lens|, s.fifo, choice.x);
  }

  lemma LandedRanged(cfg: Config, s: State, t: nat, choice: Choice)
    requires Shaped(cfg, s) && CanRun(cfg, s, t, choice)
    requires s.threads[t].at.Push? || s.threads[t].at.Retain? || s.threads[t].at.NRelease?
    ensures Ranged(|cfg.lens|, RunThread(cfg, s, t, choice))
  {
    hide Shaped, Locks, Needs, Holds, CanRun;
    var at := Here(cfg, s, t, choice);
    if at.Retain? {
      PushedRange(|cfg.lens|, s.fifo, cfg.capacity, at.c);
    } else if at.NRelease? {
      RemovedRange(|cfg.lens|, s.fifo, at.c);
    }
  }

  lemma OtherwiseSame(cfg: Config, s: State, t: nat, choice: Choice)
    requires Shaped(cfg, s) && CanRun(cfg, s, t, choice) && !Dispatching(s.threads[t].at)
    requires var at := s.threads[t].at;
             !at.WIdle? && !at.Ensure? && !at.Abandon? && !at.Continue? && !at.Push? && !at.Retain? && !at.NRelease?
    ensures SameNames(s, RunThread(cfg, s, t, choice))
  {
    hide Shaped, Locks, Needs, Holds, CanRun, Diverges;
    var at := Here(cfg, s, t, choice);
  }

  lemma RunShape(cfg: Config, s: State, t: nat, choice: Choice, c: nat)
    requires Shaped(cfg, s) && CanRun(cfg, s, t, choice) && c < |s.chunks| && Turn(cfg, s, RunThread(cfg, s, t, choice), t, c)
    ensures Shaped(cfg, RunThread(cfg, s, t, choice))
  {
    hide Shaped, RunThread, CanRun, InRange, Names;
    var at := Here(cfg, s, t, choice);
    var s1 := RunThread(cfg, s, t, choice);
    if Dispatching(at) {
      DispatcherRanged(cfg, s, t, choice);
    } else if at.WIdle? || at.Abandon? || at.Continue? {
      WorkerRanged(cfg, s, t, choice);
    } else if at.Ensure? {
      EnsureRanged(cfg, s, t, choice);
    } else if at.Push? || at.Retain? || at.NRelease? {
      LandedRanged(cfg, s, t, choice);
    } else {
      OtherwiseSame(cfg, s, t, choice);
    }
    ShapedAfter(cfg, s, s1, t, c);
  }

  lemma ShapedAfter(cfg: Config, s: State, s1: State, t: nat, c: nat)
    requires Shaped(cfg, s) && t < |s.threads| && c < |s.chunks| && Turn(cfg, s, s1, t, c)
    requires Ranged(|cfg.lens|, s1) || SameNames(s, s1)
    ensures Shaped(cfg, s1)
  {
    hide InRange, Names, Dispatching, Notifying, Locks, KnowsState, Excess;
  }

  // ---- runs ----

  lemma AcquireBalances(cfg: Config, s: State, s1: State, t: nat, c: nat)
    requires OneTooMany(cfg, s, c) && CanAcquire(s, t)
    requires s1 == s.(threads := s.threads[t := s.threads[t].(inside := true)], held := s.held[Needs(s.threads[t].at).value := t])
    ensures OneTooMany(cfg, s1, c)
  {
    hide Shaped, LocksOk, KnowsState, Locks, Needs, Responsible;
    AcquiredShape(cfg, s, s1, t);
    LocksAcquired(s, s1, t);
    OwnersTurn(s, s1, t, c);
  }

  lemma TouchBalances(cfg: Config, s: State, f: nat, x: nat, c: nat)
    requires OneTooMany(cfg, s, c) && CanTouch(s, f, x)
    ensures OneTooMany(cfg, s.(faulters := s.faulters[f := Blocked(x, false)]), c)
  {
    hide KnowsState, Locks, Names, Responsible;
    assert Owners(s.(faulters := s.faulters[f := Blocked(x, false)]), c) == Owners(s, c);
  }

  lemma StepBalances(cfg: Config, s: State, a: Action, c: nat)
    requires OneTooMany(cfg, s, c) && Shaped(cfg, s) && Enabled(cfg, s, a)
    ensures Next(cfg, s, a).aborted || OneTooMany(cfg, Next(cfg, s, a), c)
  {
    match a
    case Acquire(t) => AcquireBalances(cfg, s, Next(cfg, s, a), t, c);
    case Touch(f, x) => TouchBalances(cfg, s, f, x, c);
    case Run(t, choice) =>
      hide Shaped, RunThread, CanRun, Turn, KnowsState;
      var at := Here(cfg, s, t, choice);
      RunTurns(cfg, s, t, choice, c);
      if !RunThread(cfg, s, t, choice).aborted {
        RunShape(cfg, s, t, choice, c);
        TurnBalances(cfg, s, RunThread(cfg, s, t, choice), t, c);
      }
  }

  lemma FreeKnows(th: Thread, c: nat, state: ChunkState)
    requires OfChunk(c) !in Locks(th)
    ensures KnowsState(th.at, c, state)
  {
  }

  lemma Occurrences(queue: seq<nat>, c: nat)
    requires NoDuplicates(queue)
    ensures multiset(queue)[c] == if c in queue then 1 else 0
  {
    if queue != [] {
      assert queue == [queue[0]] + queue[1..];
      Occurrences(queue[1..], c);
    }
  }

  lemma InvParts(cfg: Config, s: State)
    requires Inv(cfg, s)
    ensures Shaped(cfg, s) && LocksOk(s)
  {
  }

  lemma ReclaimedShape(cfg: Config, s: State, c: nat)
    requires Shaped(cfg, s) && LocksOk(s) && c < |s.chunks|
    ensures Shaped(cfg, Reclaimed(s, c)) && LocksOk(Reclaimed(s, c))
  {
    hide Names, Locks;
  }

  /** The reclaim itself: the chunk is ABSENT again, its job is still there. */
  lemma ReclaimUnbalances(cfg: Config, faulters: nat, s: State, c: nat)
    requires cfg.Valid() && Reachable(cfg, faulters, s) && Suspects(s, c)
    ensures OneTooMany(cfg, Reclaimed(s, c), c)
  {
    hide Inv, Shaped, Reachable, Locks, KnowsState, Responsible;
    ReachableInv(cfg, faulters, s);
    InvParts(cfg, s);
    FetchOwnership(cfg, faulters, s, c);
    Occurrences(s.queue, c);
    ReclaimedShape(cfg, s, c);
    var s1 := Reclaimed(s, c);
    assert Owners(s1, c) == Owners(s, c);
    forall t | 0 <= t < |s1.threads| ensures KnowsState(s1.threads[t].at, c, s1.chunks[c].state) {
      FreeKnows(s.threads[t], c, s1.chunks[c].state);
    }
  }

  /** `trace` lists the states visited from its first one on, by the actions of `run`. */
  ghost predicate Continues(cfg: Config, trace: seq<State>, run: seq<Action>) {
    |trace| == |run| + 1 && forall i :: 0 <= i < |run| ==> Leads(cfg, trace[i], run[i], trace[i + 1])
  }

  lemma {:induction false} StaysUnbalanced(cfg: Config, c: nat, trace: seq<State>, run: seq<Action>, i: nat)
    requires Continues(cfg, trace, run) && i <= |run| && OneTooMany(cfg, trace[0], c)
    ensures trace[i].aborted || OneTooMany(cfg, trace[i], c)
  {
    hide OneTooMany, Shaped, Enabled, Next;
    if i > 0 {
      StaysUnbalanced(cfg, c, trace, run, i - 1);
      assert Leads(cfg, trace[i - 1], run[i - 1], trace[i]);
      LeadsOn(cfg, trace[i - 1], run[i - 1], trace[i], c);
    }
  }

  lemma LeadsOn(cfg: Config, s: State, a: Action, s1: State, c: nat)
    requires Leads(cfg, s, a, s1) && (s.aborted || OneTooMany(cfg, s, c))
    ensures s1.aborted || OneTooMany(cfg, s1, c)
  {
    hide OneTooMany, Shaped, Next;
    StepBalances(cfg, s, a, c);
  }

  /** A stale job is picked up for a chunk that is not FETCHING. */
  ghost predicate PicksStale(s: State, a: Action, c: nat) {
    && a.Run? && a.t < |s.threads| && s.threads[a.t] == Thread(Take(Demand, c), true)
    && c < |s.chunks| && !s.chunks[c].state.Fetching?
  }

  lemma StaleAborts(cfg: Config, s: State, a: Action, s1: State, c: nat)
    requires Leads(cfg, s, a, s1) && PicksStale(s, a, c)
    ensures s1.aborted
  {
    hide Shaped;
  }

  /** Nothing repairs a reclaim.  However a run goes on after it, and however often the chunk is fetched
      again, there is for ever one demand job for the chunk more than its fetch accounts for, so that the
      pager never comes to rest; and a worker that picks a job for it up while it is not FETCHING aborts. */
  lemma ReclaimNeverHeals(cfg: Config, faulters: nat, s: State, c: nat, trace: seq<State>, run: seq<Action>, i: nat)
    requires cfg.Valid() && Reachable(cfg, faulters, s) && Suspects(s, c)
    requires Continues(cfg, trace, run) && trace[0] == Reclaimed(s, c) && i <= |run|
    ensures !trace[i].aborted ==>
              && c < |trace[i].chunks|
              && multiset(trace[i].queue)[c] + |Owners(trace[i], c)| == 1 + (if trace[i].chunks[c].state.Fetching? then 1 else 0)
              && (c in trace[i].queue || exists t :: 0 <= t < |trace[i].threads| && Responsible(trace[i].threads[t].at, c))
    ensures i < |run| && PicksStale(trace[i], run[i], c) ==> trace[i + 1].aborted
  {
    hide Shaped, Reachable, Responsible, KnowsState, LocksOk, Leads, PicksStale;
    ReclaimUnbalances(cfg, faulters, s, c);
    StaysUnbalanced(cfg, c, trace, run, i);
    if !trace[i].aborted && c !in trace[i].queue {
      var t :| t in Owners(trace[i], c);
    }
    if i < |run| && PicksStale(trace[i], run[i], c) {
      assert Leads(cfg, trace[i], run[i], trace[i + 1]);
      StaleAborts(cfg, trace[i], run[i], trace[i + 1], c);
    }
  }
}
