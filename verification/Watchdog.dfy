/** The FETCHING watchdog: what it reclaims always still has a demand job. */
module Watchdog {
  import opened Chunks
  import opened Protocol
  import opened Invariant
  import opened AsyncRuns
  import opened AsyncTheorems
  import opened AsyncProgress

  /** What the watchdog looks for once a chunk has been FETCHING for long: the dispatcher runs it between
      two messages, and the chunk's lock is free. */
  predicate Suspects(s: State, c: nat) {
    && |s.threads| > 0 && s.threads[0].at.DIdle?
    && c < |s.chunks| && s.chunks[c].state.Fetching? && OfChunk(c) !in s.held
  }

  /** Reclaiming a chunk: back to ABSENT, and everyone blocked on it woken. */
  function Reclaimed(s: State, c: nat): State
    requires c < |s.chunks|
  {
    s.(chunks := s.chunks[c := s.chunks[c].(state := Absent)], faulters := Woken(s.faulters, c))
  }

  /** No run without the watchdog leaves a chunk orphaned: whatever the watchdog suspects has a demand job,
      queued or just taken by a worker, so reclaiming it strands that job; and the worker that has the job
      aborts as soon as it has the chunk's lock. */
  lemma ReclaimStrandsJob(cfg: Config, faulters: nat, s: State, c: nat)
    requires cfg.Valid() && Reachable(cfg, faulters, s) && Suspects(s, c)
    ensures c in s.queue || exists t :: 0 <= t < |s.threads| && s.threads[t].at == Take(Demand, c)
    ensures forall t :: 0 <= t < |s.threads| && s.threads[t].at == Take(Demand, c) ==>
              CanAcquire(Reclaimed(s, c), t) && TakeChunk(Reclaimed(s, c), t, Demand, c).aborted
  {
    hide Inv, Shaped, Reachable;
    ReachableInv(cfg, faulters, s);
    ReachablePool(cfg, faulters, s);
    if c !in s.queue {
      TakenUnlocked(cfg, s, c);
    }
    forall t | 0 <= t < |s.threads| && s.threads[t].at == Take(Demand, c) ensures CanAcquire(Reclaimed(s, c), t) {
      NotInside(cfg, s, t, c);
    }
  }

  lemma NotInside(cfg: Config, s: State, t: nat, c: nat)
    requires Inv(cfg, s) && t < |s.threads| && s.threads[t].at == Take(Demand, c) && OfChunk(c) !in s.held
    ensures !s.threads[t].inside
  {
    hide ThreadsOk, UnlockedOk, JobsOk, TrackedOk, FaultersOk, Names;
    assert s.threads[t].inside ==> OfChunk(c) in Locks(s.threads[t]);
  }

  // ---- such a run exists: one chunk, one worker, one faulting thread ----

  const ONE := Config([1], 1, 1, 0, false, 1, false, 0, false)

  const NO_CHOICE := Choice(0, 0, false)

  function Snapshot(dispatcher: Thread, worker: Thread, e: Entry, f: Faulter, held: map<Mutex, nat>, queue: seq<nat>): State {
    State([dispatcher, worker], [e], [f], held, 0, 0, [], queue, [], {}, 0, {}, false, false)
  }

  const SLEEPING := Thread(WIdle, false)
  const PREPARING := Waiting(Preparing, 0)
  const FAULTED := Blocked(0, true)

  /** The states up to the one in which the job is queued: the thread faults, the dispatcher reads the
      message, marks the chunk, runs the policy's hook, queues the job and unlocks the chunk. */
  function Moment(i: nat): State
    requires i <= 9
  {
    match i
    case 0 => Snapshot(Thread(DIdle, false), SLEEPING, ABSENT, Running, map[], [])
    case 1 => Snapshot(Thread(DIdle, false), SLEEPING, ABSENT, Blocked(0, false), map[], [])
    case 2 => Snapshot(Thread(DHandle(0), false), SLEEPING, ABSENT, FAULTED, map[], [])
    case 3 => Snapshot(Thread(DHandle(0), true), SLEEPING, ABSENT, FAULTED, map[OfChunk(0) := 0], [])
    case 4 => Snapshot(Thread(DOnFault(0), false), SLEEPING, PREPARING, FAULTED, map[OfChunk(0) := 0], [])
    case 5 => Snapshot(Thread(DOnFault(0), true), SLEEPING, PREPARING, FAULTED, map[OfChunk(0) := 0, Budget := 0], [])
    case 6 => Snapshot(Thread(DEnqueue(0), false), SLEEPING, PREPARING, FAULTED, map[OfChunk(0) := 0], [])
    case 7 => Snapshot(Thread(DEnqueue(0), true), SLEEPING, PREPARING, FAULTED, map[OfChunk(0) := 0, Pool := 0], [])
    case 8 => Snapshot(Thread(DUnlock(0), false), SLEEPING, Waiting(Queued, 0), FAULTED, map[OfChunk(0) := 0], [0])
    case _ => Snapshot(Thread(DIdle, false), SLEEPING, Waiting(Queued, 0), FAULTED, map[], [0])
  }

  const UNTIL_QUEUED: seq<Action> := [
    Touch(0, 0), Run(0, NO_CHOICE), Acquire(0), Run(0, NO_CHOICE), Acquire(0), Run(0, NO_CHOICE),
    Acquire(0), Run(0, NO_CHOICE), Run(0, NO_CHOICE)]

  lemma Faulting(i: nat)
    requires i < 4 && Shaped(ONE, Moment(i))
    ensures Leads(ONE, Moment(i), UNTIL_QUEUED[i], Moment(i + 1))
  {
    hide Shaped;
  }

  lemma Queueing(i: nat)
    requires 4 <= i < 9 && Shaped(ONE, Moment(i))
    ensures Leads(ONE, Moment(i), UNTIL_QUEUED[i], Moment(i + 1))
  {
    hide Shaped;
  }

  lemma {:induction false} MomentInv(i: nat)
    requires i <= 9
    ensures Inv(ONE, Moment(i)) && Shaped(ONE, Moment(i))
  {
    if i == 0 {
      assert Start(ONE, 1) == Moment(0);
      hide *;
      StartInv(ONE, 1);
      Basics(ONE, Start(ONE, 1));
    } else {
      hide Moment, Inv, Shaped, Enabled, Next, UNTIL_QUEUED;
      MomentInv(i - 1);
      if i <= 4 {
        Faulting(i - 1);
      } else {
        Queueing(i - 1);
      }
      NextInv(ONE, Moment(i - 1), UNTIL_QUEUED[i - 1]);
      Basics(ONE, Moment(i));
    }
  }

  lemma QueuedReached()
    ensures Reachable(ONE, 1, Moment(9))
  {
    assert Start(ONE, 1) == Moment(0) && |UNTIL_QUEUED| == 9;
    hide Moment, Leads, Shaped;
    var trace := seq(10, i requires 0 <= i < 10 => Moment(i));
    forall i | 0 <= i < 9 ensures Leads(ONE, trace[i], UNTIL_QUEUED[i], trace[i + 1]) {
      MomentInv(i);
      if i < 4 {
        Faulting(i);
      } else {
        Queueing(i);
      }
    }
    assert Visits(ONE, 1, trace, UNTIL_QUEUED);
  }

  /** After the reclaim the worker takes the stale job and aborts on picking the chunk up. */
  function Doomed(i: nat): State
    requires i <= 4
  {
    match i
    case 0 => Reclaimed(Moment(9), 0)
    case 1 => Snapshot(Thread(DIdle, false), Thread(WIdle, true), ABSENT.(job := Queued), Running, map[Pool := 1], [0])
    case 2 => Snapshot(Thread(DIdle, false), Thread(Take(Demand, 0), false), ABSENT.(job := Taken(1)), Running, map[], [])
    case 3 => Snapshot(Thread(DIdle, false), Thread(Take(Demand, 0), true), ABSENT.(job := Taken(1)), Running, map[OfChunk(0) := 1], [])
    case _ => Abort(Doomed(3))
  }

  const UNTIL_ABORT: seq<Action> := [Acquire(1), Run(1, NO_CHOICE), Acquire(1), Run(1, NO_CHOICE)]

  lemma SmallShape(s: State)
    requires |s.threads| == 2 && |s.chunks| == 1 && s.fifo == [] && s.pfQueue == []
    requires Names(1, s.threads[0].at) && Dispatching(s.threads[0].at) && !Notifying(s.threads[0].at)
    requires Names(1, s.threads[1].at) && !Dispatching(s.threads[1].at) && !Notifying(s.threads[1].at)
    requires InRange(1, s.queue) && forall f :: 0 <= f < |s.faulters| && s.faulters[f].Blocked? ==> s.faulters[f].c == 0
    ensures Shaped(ONE, s)
  {
    hide Names, Dispatching, Notifying;
  }

  lemma DoomedShape(i: nat)
    requires i <= 4
    ensures Shaped(ONE, Doomed(i))
  {
    hide Shaped;
    assert Woken([FAULTED], 0) == [Running];
    SmallShape(Doomed(i));
  }

  lemma DoomedLeads(i: nat)
    requires i < 4 && Shaped(ONE, Doomed(i))
    ensures Leads(ONE, Doomed(i), UNTIL_ABORT[i], Doomed(i + 1))
  {
    hide Shaped;
    assert Woken([FAULTED], 0) == [Running];
  }

  /** With the watchdog the promise that no abort is reachable fails: a job that merely waits in the queue
      is reclaimed, and four transitions of the worker later the pager aborts. */
  lemma WatchdogAborts()
    ensures Reachable(ONE, 1, Moment(9)) && Suspects(Moment(9), 0) && Doomed(0) == Reclaimed(Moment(9), 0)
    ensures forall i :: 0 <= i < 4 ==> Leads(ONE, Doomed(i), UNTIL_ABORT[i], Doomed(i + 1))
    ensures Doomed(4).aborted
  {
    hide Reachable, Leads, Shaped;
    QueuedReached();
    forall i | 0 <= i < 4 ensures Leads(ONE, Doomed(i), UNTIL_ABORT[i], Doomed(i + 1)) {
      DoomedShape(i);
      DoomedLeads(i);
    }
  }
}
