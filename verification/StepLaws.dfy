/** Which work the threads of the protocol do, and in which order: laws of single transitions, stated over
    the states before and after them, and of whole runs. */
module StepLaws {
  import opened Finite
  import opened RetentionRings
  import opened Protocol
  import opened Invariant
  import opened AsyncRuns
  import opened AsyncTheorems
  import opened AsyncBudget
  import opened AsyncProgress
  import opened StaleJobs

  // ---- jobs are served in order, demand first ----

  /** The chunk whose demand job a transition queues, if it does: the dispatcher's lock-protected step. */
  function Queued(s: State, a: Action): seq<nat> {
    if a.Run? && a.t < |s.threads| && s.threads[a.t].at.DEnqueue? then [s.threads[a.t].at.c] else []
  }

  /** The chunk whose prefetch a transition queues: one that was not tracked and now is. */
  function QueuedPrefetch(s: State, a: Action, s1: State): seq<nat> {
    if a.Run? && a.t < |s.threads| && s.threads[a.t].at.Push?
       && s.threads[a.t].at.x !in s.tracked && s.threads[a.t].at.x in s1.tracked then [s.threads[a.t].at.x] else []
  }

  /** The chunk of the job of kind `k` that a transition makes an idle worker take. */
  function TakenUp(s: State, a: Action, s1: State, k: Kind): seq<nat> {
    if a.Run? && a.t < |s.threads| && a.t < |s1.threads| && s.threads[a.t].at.WIdle? && s1.threads[a.t].at.Take?
       && s1.threads[a.t].at.k == k then [s1.threads[a.t].at.c] else []
  }

  ghost predicate InTurn(s: State, a: Action, s1: State) {
    && s.queue + Queued(s, a) == TakenUp(s, a, s1, Demand) + s1.queue
    && s.pfQueue + QueuedPrefetch(s, a, s1) == TakenUp(s, a, s1, Prefetch) + s1.pfQueue
  }

  /** An idle worker whose turn it is takes the oldest demand job; without one, the oldest prefetch; without
      that it leaves when the pool is stopping and goes to sleep otherwise.  It touches the other queue never. */
  lemma DemandFirst(cfg: Config, s: State, a: Action, s1: State)
    requires Leads(cfg, s, a, s1) && a.Run? && a.t < |s.threads| && s.threads[a.t].at.WIdle?
    ensures a.t < |s1.threads|
    ensures s.queue != [] ==>
              s1.threads[a.t].at == Take(Demand, s.queue[0]) && s1.queue == s.queue[1..] && s1.pfQueue == s.pfQueue
    ensures s.queue == [] && s.pfQueue != [] ==>
              s1.threads[a.t].at == Take(Prefetch, s.pfQueue[0]) && s1.pfQueue == s.pfQueue[1..] && s1.queue == []
    ensures s.queue == [] && s.pfQueue == [] ==>
              && s1.queue == [] && s1.pfQueue == []
              && if s.stop then s1.threads[a.t].at == WExit else s1.threads[a.t].at == WIdle && a.t in s1.asleep
  {
    hide Shaped, Locks;
    var at := Here(cfg, s, a.t, a.choice);
  }

  lemma PickInTurn(cfg: Config, s: State, a: Action, s1: State)
    requires Leads(cfg, s, a, s1) && a.Run? && a.t < |s.threads| && s.threads[a.t].at.WIdle?
    ensures InTurn(s, a, s1)
  {
    hide Leads;
    DemandFirst(cfg, s, a, s1);
    if s.queue != [] {
      assert s.queue == [s.queue[0]] + s.queue[1..];
    } else if s.pfQueue != [] {
      assert s.pfQueue == [s.pfQueue[0]] + s.pfQueue[1..];
    }
  }

  lemma QueuingInTurn(cfg: Config, s: State, a: Action, s1: State)
    requires Leads(cfg, s, a, s1) && a.Run? && a.t < |s.threads| && !s1.aborted
    requires s.threads[a.t].at.DEnqueue? || s.threads[a.t].at.Push?
    ensures InTurn(s, a, s1)
  {
    hide Shaped, Locks, Needs;
    var at := Here(cfg, s, a.t, a.choice);
  }

  lemma DispatchInTurn(cfg: Config, s: State, a: Action, s1: State)
    requires Leads(cfg, s, a, s1) && a.Run? && a.t < |s.threads|
    requires Dispatching(s.threads[a.t].at) && !s.threads[a.t].at.DEnqueue?
    ensures InTurn(s, a, s1)
  {
    hide Shaped, Locks, Needs, Woken;
    var at := Here(cfg, s, a.t, a.choice);
  }

  lemma OthersInTurn(cfg: Config, s: State, a: Action, s1: State)
    requires Leads(cfg, s, a, s1) && a.Run? && a.t < |s.threads|
    requires var at := s.threads[a.t].at; at.Abandon? || at.Continue? || at.Retain? || at.NRelease?
    ensures InTurn(s, a, s1)
  {
    hide Shaped, Locks, Needs, Woken, Removed, Pushed, Choosable;
    var at := Here(cfg, s, a.t, a.choice);
  }

  lemma AskingInTurn(cfg: Config, s: State, a: Action, s1: State)
    requires Leads(cfg, s, a, s1) && a.Run? && a.t < |s.threads| && s.threads[a.t].at.Ensure?
    ensures InTurn(s, a, s1)
  {
    hide Shaped, Locks, Needs, Removed, Diverges, Fits, NoVictim, NoneBreakable, Choosable;
    var at := Here(cfg, s, a.t, a.choice);
  }

  lemma RestInTurn(cfg: Config, s: State, a: Action, s1: State)
    requires Leads(cfg, s, a, s1) && a.Run? && a.t < |s.threads| && !Dispatching(s.threads[a.t].at)
    requires var at := s.threads[a.t].at;
             !at.WIdle? && !at.Ensure? && !at.Abandon? && !at.Continue? && !at.Push? && !at.Retain? && !at.NRelease?
    ensures InTurn(s, a, s1)
  {
    hide Shaped, RunThread, CanRun;
    OtherwiseSame(cfg, s, a.t, a.choice);
  }

  lemma EveryInTurn(cfg: Config, s: State, a: Action, s1: State)
    requires Leads(cfg, s, a, s1) && !s1.aborted
    ensures InTurn(s, a, s1)
  {
    if a.Run? && a.t < |s.threads| {
      hide Leads, InTurn;
      var at := s.threads[a.t].at;
      if at.WIdle? {
        PickInTurn(cfg, s, a, s1);
      } else if at.DEnqueue? || at.Push? {
        QueuingInTurn(cfg, s, a, s1);
      } else if Dispatching(at) {
        DispatchInTurn(cfg, s, a, s1);
      } else if at.Ensure? {
        AskingInTurn(cfg, s, a, s1);
      } else if at.Abandon? || at.Continue? || at.Retain? || at.NRelease? {
        OthersInTurn(cfg, s, a, s1);
      } else {
        RestInTurn(cfg, s, a, s1);
      }
    }
  }

  ghost function AllQueued(trace: seq<State>, run: seq<Action>, i: nat): seq<nat>
    requires i <= |run| && |trace| == |run| + 1
  {
    if i == 0 then [] else AllQueued(trace, run, i - 1) + Queued(trace[i - 1], run[i - 1])
  }

  ghost function AllPrefetches(trace: seq<State>, run: seq<Action>, i: nat): seq<nat>
    requires i <= |run| && |trace| == |run| + 1
  {
    if i == 0 then [] else AllPrefetches(trace, run, i - 1) + QueuedPrefetch(trace[i - 1], run[i - 1], trace[i])
  }

  ghost function AllTaken(trace: seq<State>, run: seq<Action>, k: Kind, i: nat): seq<nat>
    requires i <= |run| && |trace| == |run| + 1
  {
    if i == 0 then [] else AllTaken(trace, run, k, i - 1) + TakenUp(trace[i - 1], run[i - 1], trace[i], k)
  }

  lemma Chained(before: seq<nat>, queue: seq<nat>, taken: seq<nat>, added: seq<nat>, off: seq<nat>, queue1: seq<nat>)
    requires before == taken + queue && queue + added == off + queue1
    ensures before + added == (taken + off) + queue1
  {
    assert before + added == taken + (queue + added);
    assert taken + (off + queue1) == (taken + off) + queue1;
  }

  /** Over every run the jobs of either kind are taken up in the order in which they were queued, each once:
      those taken so far, followed by those still waiting, are those queued so far. */
  lemma {:induction false} JobsInOrder(cfg: Config, faulters: nat, trace: seq<State>, run: seq<Action>, i: nat)
    requires cfg.Valid() && Visits(cfg, faulters, trace, run) && i <= |run|
    ensures AllQueued(trace, run, i) == AllTaken(trace, run, Demand, i) + trace[i].queue
    ensures AllPrefetches(trace, run, i) == AllTaken(trace, run, Prefetch, i) + trace[i].pfQueue
  {
    hide Inv, Leads, Queued, QueuedPrefetch, TakenUp;
    if i > 0 {
      JobsInOrder(cfg, faulters, trace, run, i - 1);
      VisitedInv(cfg, faulters, trace, run, i);
      Basics(cfg, trace[i]);
      var s, a, s1 := trace[i - 1], run[i - 1], trace[i];
      assert Leads(cfg, s, a, s1);
      EveryInTurn(cfg, s, a, s1);
      Chained(AllQueued(trace, run, i - 1), s.queue, AllTaken(trace, run, Demand, i - 1),
              Queued(s, a), TakenUp(s, a, s1, Demand), s1.queue);
      Chained(AllPrefetches(trace, run, i - 1), s.pfQueue, AllTaken(trace, run, Prefetch, i - 1),
              QueuedPrefetch(s, a, s1), TakenUp(s, a, s1, Prefetch), s1.pfQueue);
    }
  }

  // ---- asking for budget ----

  /** Nothing may be evicted as it is. */
  ghost predicate NothingFree(s: State) {
    forall v :: 0 <= v < |s.chunks| && s.chunks[v].state.Resident? ==> s.chunks[v].pin != 0
  }

  ghost predicate NothingRetained(cfg: Config, s: State) {
    cfg.retention ==> forall v :: 0 <= v < |s.chunks| && s.chunks[v].state.Resident? ==> v !in s.fifo
  }

  lemma NothingLeft(cfg: Config, s: State)
    ensures NothingFree(s) <==> NoVictim(s)
    ensures NothingRetained(cfg, s) <==> NoneBreakable(cfg, s)
  {
    if NothingFree(s) {
      forall v: nat ensures !CanEvict(s, v) {
      }
    }
    if NoVictim(s) {
      forall v | 0 <= v < |s.chunks| && s.chunks[v].state.Resident? ensures s.chunks[v].pin != 0 {
        assert !CanEvict(s, v);
      }
    }
    if NothingRetained(cfg, s) {
      forall v: nat ensures !Breakable(cfg, s, v) {
      }
    }
    if NoneBreakable(cfg, s) && cfg.retention {
      forall v | 0 <= v < |s.chunks| && s.chunks[v].state.Resident? ensures v !in s.fifo {
        assert !Breakable(cfg, s, v);
      }
    }
  }

  /** What becomes of a thread that holds the budget lock and asks for the bytes of `c`. */
  lemma AskingRound(cfg: Config, s: State, a: Action, s1: State, k: Kind, c: nat, left: nat)
    requires Leads(cfg, s, a, s1) && a.Run? && a.t < |s.threads| && s.threads[a.t].at == Ensure(k, c, left)
    ensures a.t < |s1.threads| && c < |cfg.lens|
    ensures var at, fits := s1.threads[a.t].at, s.resident + s.reserved + cfg.lens[c] <= cfg.budget;
            && (fits ==> at == Read(k, c) && s1.reserved == s.reserved + cfg.lens[c])
            && (!fits && !NothingFree(s) ==> || (at.Evict? && FreeVictim(s, s1, k, c, left, at))
                                             || (at == UnpinDeclined(c) && k.Prefetch? && cfg.guarded))
            && (!fits && NothingFree(s) ==> if k.Prefetch? then at == UnpinDeclined(c)
                                            else if !NothingRetained(cfg, s) then at.Evict? && RetainedVictim(s, s1, c, left, at)
                                            else at == if left > 0 then Ensure(k, c, left - 1) else Abandon(k, c))
            && (!fits ==> s1.reserved == s.reserved) && s1.resident == s.resident
  {
    hide Shaped, Locks, Needs, Removed, Diverges, NothingFree, NothingRetained, NoVictim, NoneBreakable;
    NothingLeft(cfg, s);
    var at := Here(cfg, s, a.t, a.choice);
  }

  /** A victim that is unpinned is chosen without touching anything. */
  predicate FreeVictim(s: State, s1: State, k: Kind, c: nat, left: nat, at: At) {
    && at.Evict? && at == Evict(k, c, left, at.v) && at.v < |s.chunks|
    && s.chunks[at.v].state.Resident? && s.chunks[at.v].pin == 0 && s1.chunks == s.chunks && s1.fifo == s.fifo
  }

  /** A retention is broken only by a demand fetch that finds nothing else. */
  predicate RetainedVictim(s: State, s1: State, c: nat, left: nat, at: At) {
    && at.Evict? && at == Evict(Demand, c, left, at.v) && at.v < |s.chunks|
    && s.chunks[at.v].state.Resident? && at.v in s.fifo && s1.fifo == Removed(s.fifo, at.v)
  }

  // ---- asking again, and evicting only for room ----

  /** A place on the way from asking for budget on behalf of a demand fetch to getting or not getting it. */
  predicate Asks(at: At) {
    (at.Ensure? || at.Evict? || at.Abandon?) && at.k.Demand?
  }

  lemma TakesOver(cfg: Config, s: State, a: Action, s1: State)
    requires Leads(cfg, s, a, s1) && a.Run? && a.t < |s.threads| && !s1.aborted
    requires s.threads[a.t].at.Take? || s.threads[a.t].at.Evict?
    ensures a.t < |s1.threads|
    ensures var at, to := s.threads[a.t].at, s1.threads[a.t].at;
            && (at.Take? && at.k.Demand? ==> to == Ensure(Demand, at.c, RETRIES))
            && (at.Take? && at.k.Prefetch? ==>
                  at.c < |s.chunks| && to == if s.chunks[at.c].state.Absent? then PinTarget(at.c) else Untrack(at.c))
            && (at.Evict? ==> to == Ensure(at.k, at.c, at.left))
  {
    hide Shaped, Locks, Needs, Diverges;
    var at := Here(cfg, s, a.t, a.choice);
  }

  /** From anywhere else nobody comes to ask for a demand fetch, nor to evict. */
  lemma WorkerElsewhere(cfg: Config, s: State, a: Action, s1: State)
    requires Leads(cfg, s, a, s1) && a.Run? && a.t < |s.threads| && !s1.aborted
    requires var at := s.threads[a.t].at; !Dispatching(at) && !Notifying(at) && !at.Take? && !at.Evict? && !at.Ensure?
    ensures a.t < |s1.threads| && !Asks(s1.threads[a.t].at) && !s1.threads[a.t].at.Evict?
  {
    hide Shaped, Locks, Needs, Woken, Removed, Pushed, Diverges;
    var at := Here(cfg, s, a.t, a.choice);
  }

  lemma Elsewhere(cfg: Config, s: State, a: Action, s1: State)
    requires Leads(cfg, s, a, s1) && a.Run? && a.t < |s.threads| && !s1.aborted
    requires var at := s.threads[a.t].at; !at.Take? && !at.Evict? && !at.Ensure?
    ensures a.t < |s1.threads| && !Asks(s1.threads[a.t].at) && !s1.threads[a.t].at.Evict?
  {
    if Dispatching(s.threads[a.t].at) || Notifying(s.threads[a.t].at) {
      hide Locks, Needs, Woken, Removed, Names, InRange;
    } else {
      hide Leads;
      WorkerElsewhere(cfg, s, a, s1);
    }
  }

  /** How often thread `t` has asked in vain since it took up its job. */
  ghost function Refusals(t: nat, trace: seq<State>, run: seq<Action>, i: nat): nat
    requires i <= |run| && |trace| == |run| + 1
  {
    if i == 0 then 0
    else
      var before, s, a, s1 := Refusals(t, trace, run, i - 1), trace[i - 1], run[i - 1], trace[i];
      if !a.Run? || a.t != t || t >= |s.threads| || t >= |s1.threads| then before
      else if s.threads[t].at.Take? then 0
      else if s.threads[t].at.Ensure? && (s1.threads[t].at.Ensure? || s1.threads[t].at.Abandon?) then before + 1
      else before
  }

  /** The retries left and the refusals so far make up the allowance; all of it is used before giving up. */
  predicate Patient(at: At, refusals: nat) {
    && ((at.Ensure? || at.Evict?) && at.k.Demand? ==> at.left <= RETRIES && refusals == RETRIES - at.left)
    && (at.Abandon? && at.k.Demand? ==> refusals == RETRIES + 1)
  }

  lemma PatientTurn(cfg: Config, s: State, a: Action, s1: State, before: nat, after: nat)
    requires Leads(cfg, s, a, s1) && a.Run? && a.t < |s.threads| && !s1.aborted && Patient(s.threads[a.t].at, before)
    requires a.t < |s1.threads|
    requires var at, to := s.threads[a.t].at, s1.threads[a.t].at;
             after == if at.Take? then 0 else if at.Ensure? && (to.Ensure? || to.Abandon?) then before + 1 else before
    ensures Patient(s1.threads[a.t].at, after)
  {
    hide Leads;
    var at := s.threads[a.t].at;
    if at.Ensure? {
      AskingRound(cfg, s, a, s1, at.k, at.c, at.left);
    } else if at.Take? || at.Evict? {
      TakesOver(cfg, s, a, s1);
    } else {
      Elsewhere(cfg, s, a, s1);
    }
  }

  /** A transition moves at most the one thread. */
  lemma StaysPut(cfg: Config, s: State, a: Action, s1: State, t: nat)
    requires Leads(cfg, s, a, s1) && t < |s.threads| && !(a.Run? && a.t == t)
    ensures |s1.threads| == |s.threads| && s1.threads[t].at == s.threads[t].at
  {
    if a.Run? {
      hide Shaped, RunThread, CanRun, Signals;
      var at := Here(cfg, s, a.t, a.choice);
      PoolEffect(cfg, s, a.t, a.choice);
    } else {
      hide Shaped, Locks, Needs;
    }
  }

  lemma PatientStep(cfg: Config, trace: seq<State>, run: seq<Action>, i: nat, t: nat)
    requires 0 < i <= |run| && |trace| == |run| + 1 && Leads(cfg, trace[i - 1], run[i - 1], trace[i]) && !trace[i].aborted
    requires t < |trace[i - 1].threads| && Patient(trace[i - 1].threads[t].at, Refusals(t, trace, run, i - 1))
    ensures t < |trace[i].threads| && Patient(trace[i].threads[t].at, Refusals(t, trace, run, i))
  {
    hide Leads, Patient;
    var s, a, s1 := trace[i - 1], run[i - 1], trace[i];
    if a.Run? && a.t == t {
      Moved(cfg, s, a, s1);
      PatientTurn(cfg, s, a, s1, Refusals(t, trace, run, i - 1), Refusals(t, trace, run, i));
    } else {
      StaysPut(cfg, s, a, s1, t);
    }
  }

  lemma Moved(cfg: Config, s: State, a: Action, s1: State)
    requires Leads(cfg, s, a, s1) && a.Run?
    ensures a.t < |s.threads| == |s1.threads|
  {
    hide Shaped, RunThread, CanRun, Signals;
    var at := Here(cfg, s, a.t, a.choice);
    PoolEffect(cfg, s, a.t, a.choice);
  }

  /** A demand fetch is given up only when its worker has asked for the bytes in vain as often as it is
      allowed to, once and then `RETRIES` times again; the evictions in between do not count. */
  lemma {:induction false} GivenUpLate(cfg: Config, faulters: nat, trace: seq<State>, run: seq<Action>, i: nat, t: nat)
    requires cfg.Valid() && Visits(cfg, faulters, trace, run) && i <= |run| && t < |trace[i].threads|
    ensures trace[i].threads[t].at.Abandon? && trace[i].threads[t].at.k.Demand? ==> Refusals(t, trace, run, i) == RETRIES + 1
    ensures trace[i].threads[t].at.Ensure? && trace[i].threads[t].at.k.Demand? ==> Refusals(t, trace, run, i) <= RETRIES
    ensures Patient(trace[i].threads[t].at, Refusals(t, trace, run, i))
  {
    hide Inv, Leads, Refusals;
    if i > 0 {
      VisitedInv(cfg, faulters, trace, run, i);
      Basics(cfg, trace[i]);
      VisitedInv(cfg, faulters, trace, run, i - 1);
      Basics(cfg, trace[i - 1]);
      assert Leads(cfg, trace[i - 1], run[i - 1], trace[i]);
      GivenUpLate(cfg, faulters, trace, run, i - 1, t);
      PatientStep(cfg, trace, run, i, t);
    } else {
      StartShape(cfg, faulters);
    }
  }

  /** Whoever is about to evict still lacks the room it asks for. */
  predicate LacksRoom(cfg: Config, s: State, at: At) {
    at.Evict? ==> at.c < |cfg.lens| && s.resident + s.reserved + cfg.lens[at.c] > cfg.budget
  }

  lemma LacksRoomStep(cfg: Config, s: State, a: Action, s1: State, t: nat)
    requires Inv(cfg, s) && Leads(cfg, s, a, s1) && !s1.aborted && t < |s.threads| && LacksRoom(cfg, s, s.threads[t].at)
    ensures t < |s1.threads| && LacksRoom(cfg, s1, s1.threads[t].at)
  {
    hide Inv, Leads;
    if a.Run? && a.t == t {
      Moved(cfg, s, a, s1);
      var at := s.threads[t].at;
      if at.Ensure? {
        AskingRound(cfg, s, a, s1, at.k, at.c, at.left);
      } else if at.Take? || at.Evict? {
        TakesOver(cfg, s, a, s1);
      } else {
        Elsewhere(cfg, s, a, s1);
      }
    } else {
      StaysPut(cfg, s, a, s1, t);
      if s.threads[t].at.Evict? {
        EvictHolds(s.threads[t]);
        LeadsUndisturbed(cfg, s, a, s1, t);
      }
    }
  }

  lemma LeadsUndisturbed(cfg: Config, s: State, a: Action, s1: State, t: nat)
    requires Inv(cfg, s) && Leads(cfg, s, a, s1) && t < |s.threads| && Budget in Locks(s.threads[t]) && (a.Run? ==> a.t != t)
    ensures s1.resident == s.resident && s1.reserved == s.reserved
  {
    hide Inv, Shaped, Enabled, Next, Locks;
    LoopUndisturbed(cfg, s, t, a);
  }

  lemma {:induction false} VisitedLacksRoom(cfg: Config, faulters: nat, trace: seq<State>, run: seq<Action>, i: nat, t: nat)
    requires cfg.Valid() && Visits(cfg, faulters, trace, run) && i <= |run| && t < |trace[i].threads|
    ensures LacksRoom(cfg, trace[i], trace[i].threads[t].at)
  {
    hide Inv, Leads, LacksRoom;
    VisitedInv(cfg, faulters, trace, run, i);
    Basics(cfg, trace[i]);
    if i > 0 {
      VisitedInv(cfg, faulters, trace, run, i - 1);
      Basics(cfg, trace[i - 1]);
      assert Leads(cfg, trace[i - 1], run[i - 1], trace[i]);
      VisitedLacksRoom(cfg, faulters, trace, run, i - 1, t);
      LacksRoomStep(cfg, trace[i - 1], run[i - 1], trace[i], t);
    } else {
      NoEvictionYet(cfg, faulters, t);
    }
  }

  lemma NoEvictionYet(cfg: Config, faulters: nat, t: nat)
    requires cfg.Valid() && t < |Start(cfg, faulters).threads|
    ensures LacksRoom(cfg, Start(cfg, faulters), Start(cfg, faulters).threads[t].at)
  {
  }

  /** In every reachable state a thread at the point of evicting a chunk asks for bytes that do not fit: no
      chunk is evicted needlessly, under any interleaving. */
  lemma EvictsForRoomOnly(cfg: Config, faulters: nat, s: State, t: nat)
    requires cfg.Valid() && Reachable(cfg, faulters, s) && t < |s.threads| && s.threads[t].at.Evict?
    ensures s.threads[t].at.c < |cfg.lens| && s.resident + s.reserved + cfg.lens[s.threads[t].at.c] > cfg.budget
  {
    hide Inv, Leads;
    var trace, run :| Visits(cfg, faulters, trace, run) && s == trace[|run|];
    VisitedLacksRoom(cfg, faulters, trace, run, |run|, t);
  }

  // ---- retention ----

  /** How the retained chunks change in a transition of a thread at `at` that goes to `to`. */
  ghost predicate RetentionsChange(cfg: Config, s: State, at: At, to: At, s1: State) {
    match at
    case Retain(c) => s1.fifo == if cfg.retention then Pushed(s.fifo, cfg.capacity, c) else s.fifo
    case NRelease(c) => s1.fifo == Removed(s.fifo, c)
    case NAccess(c) => s1.fifo == s.fifo && to == if cfg.retention then NRelease(c) else NIdle
    case Ensure(k, _, _) =>
      s1.fifo == s.fifo || (k.Demand? && cfg.retention && NothingFree(s) && to.Evict? && to.v in s.fifo && s1.fifo == Removed(s.fifo, to.v))
    case _ => s1.fifo == s.fifo
  }

  lemma RetainingTurn(cfg: Config, s: State, a: Action, s1: State)
    requires Leads(cfg, s, a, s1) && a.Run? && a.t < |s.threads|
    requires var at := s.threads[a.t].at; at.Retain? || Notifying(at) || at.WIdle? || at.Abandon? || at.Continue? || at.Push?
    ensures a.t < |s1.threads| && RetentionsChange(cfg, s, s.threads[a.t].at, s1.threads[a.t].at, s1)
  {
    hide Shaped, Locks, Needs, Removed, Pushed, Woken, NothingFree;
    var at := Here(cfg, s, a.t, a.choice);
  }

  lemma DispatchRetains(cfg: Config, s: State, a: Action, s1: State)
    requires Leads(cfg, s, a, s1) && a.Run? && a.t < |s.threads| && Dispatching(s.threads[a.t].at)
    ensures s1.fifo == s.fifo
  {
    hide Shaped, Locks, Needs, Woken;
    var at := Here(cfg, s, a.t, a.choice);
  }

  lemma AskingRetains(cfg: Config, s: State, a: Action, s1: State)
    requires Leads(cfg, s, a, s1) && a.Run? && a.t < |s.threads| && s.threads[a.t].at.Ensure?
    ensures a.t < |s1.threads| && RetentionsChange(cfg, s, s.threads[a.t].at, s1.threads[a.t].at, s1)
  {
    hide Shaped, Locks, Needs, Removed, Diverges, NothingFree, NoVictim, NoneBreakable;
    NothingLeft(cfg, s);
    var at := Here(cfg, s, a.t, a.choice);
  }

  lemma TurnRetains(cfg: Config, s: State, a: Action, s1: State)
    requires Leads(cfg, s, a, s1) && a.Run? && a.t < |s.threads|
    ensures a.t < |s1.threads| && RetentionsChange(cfg, s, s.threads[a.t].at, s1.threads[a.t].at, s1)
  {
    hide RetentionsChange;
    Moved(cfg, s, a, s1);
    var at := s.threads[a.t].at;
    if at.Ensure? {
      AskingRetains(cfg, s, a, s1);
    } else if at.Retain? || Notifying(at) || at.WIdle? || at.Abandon? || at.Continue? || at.Push? {
      RetainingTurn(cfg, s, a, s1);
    } else {
      if Dispatching(at) {
        DispatchRetains(cfg, s, a, s1);
      } else {
        hide Shaped, RunThread, CanRun;
        OtherwiseSame(cfg, s, a.t, a.choice);
      }
      Retaining(cfg, s, at, s1.threads[a.t].at, s1);
    }
  }

  lemma Retaining(cfg: Config, s: State, at: At, to: At, s1: State)
    requires s1.fifo == s.fifo && !at.Retain? && !Notifying(at)
    ensures RetentionsChange(cfg, s, at, to, s1)
  {
  }

  lemma PushedMembers(fifo: seq<nat>, cap: nat, c: nat, v: nat)
    requires cap > 0
    ensures v in fifo && v !in Pushed(fifo, cap, c) ==> |fifo| >= cap && v == fifo[0]
    ensures v !in fifo && v in Pushed(fifo, cap, c) ==> v == c
    ensures c in Pushed(fifo, cap, c) && Pushed(fifo, cap, c)[|Pushed(fifo, cap, c)| - 1] == c
    ensures |fifo| <= cap ==> |Pushed(fifo, cap, c)| <= cap
  {
  }

  /** Why thread at `at`, going to `to`, takes `v` off the retained chunks. */
  ghost predicate MayDrop(cfg: Config, s: State, at: At, to: At, v: nat) {
    || at == NRelease(v)
    || (at.Retain? && s.fifo != [] && |s.fifo| >= cfg.capacity && v == s.fifo[0])
    || (at.Ensure? && at.k.Demand? && NothingFree(s) && to == Evict(Demand, at.c, at.left, v))
  }

  /** A retained chunk stays retained, and by `PinConservation` resident, until its consumption is signalled,
      or it is the oldest and a new one comes into a full queue, or a demand fetch finds nothing else to
      evict.  Only a prefetch that has landed becomes retained, as the youngest; and a signal releases. */
  lemma RetainedUntil(cfg: Config, faulters: nat, s: State, a: Action, s1: State, v: nat)
    requires cfg.Valid() && Reachable(cfg, faulters, s) && Leads(cfg, s, a, s1)
    ensures v in s.fifo && v !in s1.fifo ==> a.Run? && a.t < |s.threads| && a.t < |s1.threads|
                                             && MayDrop(cfg, s, s.threads[a.t].at, s1.threads[a.t].at, v)
    ensures v !in s.fifo && v in s1.fifo ==> cfg.retention && a.Run? && a.t < |s.threads| && s.threads[a.t].at == Retain(v)
    ensures a.Run? && a.t < |s.threads| && cfg.retention && s.threads[a.t].at == Retain(v) ==>
              s1.fifo != [] && s1.fifo[|s1.fifo| - 1] == v
    ensures a.Run? && a.t < |s.threads| && s.threads[a.t].at == NRelease(v) ==> v !in s1.fifo
    ensures a.Run? && a.t < |s.threads| && cfg.retention && s.threads[a.t].at == NAccess(v) ==>
              a.t < |s1.threads| && s1.threads[a.t].at == NRelease(v)
    ensures |s.fifo| <= cfg.capacity ==> |s1.fifo| <= cfg.capacity
  {
    hide Inv, Leads, Reachable, Pushed, Removed, NothingFree;
    ReachableInv(cfg, faulters, s);
    FifoDistinct(cfg, s);
    if a.Run? && a.t < |s.threads| {
      TurnRetains(cfg, s, a, s1);
      var at, to := s.threads[a.t].at, s1.threads[a.t].at;
      if at.Retain? {
        PushedMembers(s.fifo, cfg.capacity, at.c, v);
      } else if at.NRelease? {
        RemovedKeeps(s.fifo, at.c);
      } else if at.Ensure? && s1.fifo != s.fifo {
        RemovedKeeps(s.fifo, to.v);
        AskingEvicts(cfg, s, a, s1);
      }
    } else {
      IdleRetains(cfg, s, a, s1);
    }
  }

  lemma FifoDistinct(cfg: Config, s: State)
    requires Inv(cfg, s)
    ensures NoDuplicates(s.fifo)
  {
  }

  lemma AskingEvicts(cfg: Config, s: State, a: Action, s1: State)
    requires Leads(cfg, s, a, s1) && a.Run? && a.t < |s.threads| && s.threads[a.t].at.Ensure?
    ensures a.t < |s1.threads|
    ensures var at, to := s.threads[a.t].at, s1.threads[a.t].at; to.Evict? ==> to == Evict(at.k, at.c, at.left, to.v)
  {
    hide Leads;
    var at := s.threads[a.t].at;
    AskingRound(cfg, s, a, s1, at.k, at.c, at.left);
  }

  lemma IdleRetains(cfg: Config, s: State, a: Action, s1: State)
    requires Leads(cfg, s, a, s1) && !(a.Run? && a.t < |s.threads|)
    ensures s1.fifo == s.fifo
  {
    hide Shaped, Locks, Needs;
  }

  // ---- prefetching ahead ----

  /** A worker that has made a demanded chunk resident tops the prefetches up if it may: it asks the policy
      as often as prefetches are missing, and every chunk predicted is queued exactly if it is absent, not
      tracked yet and the worker does not back off.  A target that is still absent when its turn comes is
      fetched, and when it has landed it is retained. */
  lemma TopUpTurn(cfg: Config, faulters: nat, s: State, a: Action, s1: State)
    requires cfg.Valid() && Reachable(cfg, faulters, s) && Leads(cfg, s, a, s1) && a.Run? && a.t < |s.threads|
    ensures a.t < |s1.threads|
    ensures var at, to := s.threads[a.t].at, s1.threads[a.t].at;
            match at
            case Publish(k, c) => to == if k.Prefetch? then Retain(c) else if cfg.prefetch then Need(c) else Unpin(c)
            case Need(c) => to == if s.outstanding < cfg.depth then Predict(c, cfg.depth - s.outstanding) else Unpin(c)
            case Predict(c, need) =>
              to == if a.choice.yes && a.choice.x < |cfg.lens| && a.choice.x != c then Push(c, a.choice.x, need) else Unpin(c)
            case Push(c, x, need) =>
              && x < |s.chunks| && need > 0 && to == (if need > 1 then Predict(c, need - 1) else Unpin(c))
              && var queued := s.chunks[x].state.Absent? && x !in s.tracked && !a.choice.yes;
                 s1.tracked == if queued then s.tracked + {x} else s.tracked
            case _ => true
  {
    hide Inv, Shaped, Reachable, Locks, Needs;
    ReachableInv(cfg, faulters, s);
    PrefetchRoom(cfg, s);
    Moved(cfg, s, a, s1);
    var at := Here(cfg, s, a.t, a.choice);
  }

  /** The prefetch queue never fills up. */
  lemma PrefetchRoom(cfg: Config, s: State)
    requires Inv(cfg, s)
    ensures |s.pfQueue| <= |s.chunks|
  {
    hide ThreadsOk, UnlockedOk, JobsOk, LocksOk, FaultersOk, QueueOk, FifoOk, AccountsOk, Names;
    DistinctCount(s.pfQueue);
    assert Elements(s.pfQueue) <= Ids(|s.chunks|);
    Smaller(Elements(s.pfQueue), Ids(|s.chunks|));
  }
}
