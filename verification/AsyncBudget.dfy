/** The reserve-or-evict loop while other threads go on: it holds the budget lock, evicts at most as many
    bytes as were resident, and gives up only when nothing can be evicted. */
module AsyncBudget {
  import opened Chunks
  import opened RetentionRings
  import opened Protocol
  import opened Invariant
  import opened Steps
  import opened WorkerSteps
  import opened AsyncRuns
  import opened AsyncTheorems

  /** What the holder of the budget lock may rely on: the accounts, the retained chunks and the pins stay
      as they are, and whatever is resident stays resident. */
  ghost predicate Undisturbed(s: State, s1: State) {
    && s1.resident == s.resident && s1.reserved == s.reserved && s1.fifo == s.fifo && |s1.chunks| == |s.chunks|
    && forall v :: 0 <= v < |s.chunks| ==>
         s1.chunks[v].pin == s.chunks[v].pin && (s.chunks[v].state.Resident? ==> s1.chunks[v].state.Resident?)
  }

  lemma DispatcherUndisturbing(cfg: Config, s: State, t: nat, choice: Choice)
    requires Inv(cfg, s) && Shaped(cfg, s) && CanRun(cfg, s, t, choice) && Dispatching(s.threads[t].at)
    ensures Undisturbed(s, RunThread(cfg, s, t, choice))
  {
    hide Inv, Shaped, Locks, Choosable, Needs, Woken;
    var at := Knows(cfg, s, t);
  }

  lemma WorkerUndisturbing(cfg: Config, s: State, t: nat, choice: Choice)
    requires Inv(cfg, s) && Shaped(cfg, s) && CanRun(cfg, s, t, choice)
    requires s.threads[t].at.WIdle? || s.threads[t].at.Take? || s.threads[t].at.Mark? || s.threads[t].at.Abandon?
             || s.threads[t].at.Read? || s.threads[t].at.Continue? || s.threads[t].at.Publish?
    ensures Undisturbed(s, RunThread(cfg, s, t, choice))
  {
    hide Inv, Shaped, Locks, Choosable, Needs, Woken;
    var at := Knows(cfg, s, t);
    Sized(cfg, s);
  }

  lemma TopUpUndisturbing(cfg: Config, s: State, t: nat, choice: Choice)
    requires Shaped(cfg, s) && CanRun(cfg, s, t, choice)
    requires s.threads[t].at.Need? || s.threads[t].at.Push? || s.threads[t].at.Unlock? || s.threads[t].at.Untrack? || s.threads[t].at.NIdle?
    ensures Undisturbed(s, RunThread(cfg, s, t, choice))
  {
    hide Shaped, Locks, Choosable, Needs;
  }

  /** Without the budget lock nobody disturbs its holder. */
  lemma Undisturbing(cfg: Config, s: State, t: nat, choice: Choice)
    requires Inv(cfg, s) && Shaped(cfg, s) && CanRun(cfg, s, t, choice) && Budget !in Locks(s.threads[t])
    ensures Undisturbed(s, RunThread(cfg, s, t, choice))
  {
    WithoutBudget(cfg, s, t, choice);
    hide Inv, Shaped, RunThread, Undisturbed, Choosable, Needs, Locks;
    var at := s.threads[t].at;
    if Dispatching(at) {
      DispatcherUndisturbing(cfg, s, t, choice);
    } else if at.Need? || at.Push? || at.Unlock? || at.Untrack? || at.NIdle? {
      TopUpUndisturbing(cfg, s, t, choice);
    } else {
      WorkerUndisturbing(cfg, s, t, choice);
    }
  }

  lemma WithoutBudget(cfg: Config, s: State, t: nat, choice: Choice)
    requires Shaped(cfg, s) && CanRun(cfg, s, t, choice) && Budget !in Locks(s.threads[t])
    ensures var at := s.threads[t].at;
            || Dispatching(at) || at.Need? || at.Push? || at.Unlock? || at.Untrack? || at.NIdle? || at.WIdle? || at.Take?
            || at.Mark? || at.Abandon? || at.Read? || at.Continue? || at.Publish?
  {
    hide Shaped, Choosable;
  }

  /** While a thread holds the budget lock, no step of anyone else disturbs it. */
  lemma LoopUndisturbed(cfg: Config, s: State, t: nat, a: Action)
    requires Inv(cfg, s) && Shaped(cfg, s) && t < |s.threads| && Budget in Locks(s.threads[t])
    requires Enabled(cfg, s, a) && (a.Run? ==> a.t != t)
    ensures Undisturbed(s, Next(cfg, s, a))
  {
    match a
    case Acquire(_) =>
    case Touch(_, _) =>
    case Run(u, choice) =>
      BudgetExclusive(cfg, s, t, u);
      hide Inv, Shaped, RunThread, Undisturbed, Choosable, Needs, Locks;
      Undisturbing(cfg, s, u, choice);
  }

  lemma BudgetExclusive(cfg: Config, s: State, t: nat, u: nat)
    requires Inv(cfg, s) && t < |s.threads| && u < |s.threads| && u != t && Budget in Locks(s.threads[t])
    ensures Budget !in Locks(s.threads[u])
  {
    hide Locks, ThreadsOk, UnlockedOk, JobsOk, Names;
    Exclusive(s, t, u, Budget);
  }

  /** One eviction frees the victim's bytes and goes round the loop with the lock still held. */
  lemma EvictionFrees(cfg: Config, s: State, t: nat, choice: Choice)
    requires Inv(cfg, s) && Shaped(cfg, s) && CanRun(cfg, s, t, choice) && s.threads[t].at.Evict?
    ensures var at, s1 := s.threads[t].at, RunThread(cfg, s, t, choice);
            && s1.threads[t] == Thread(Ensure(at.k, at.c, at.left), true) && at.v < |cfg.lens|
            && s1.resident == s.resident - cfg.lens[at.v] < s.resident && s1.reserved == s.reserved
            && s1.chunks == s.chunks[at.v := ABSENT]
  {
    hide Inv, Shaped, Choosable, Locks;
    var at := Knows(cfg, s, t);
    PositiveLength(cfg, s, at.v);
    NotPinned(cfg, s, at.v);
  }

  predicate HoldsBudget(s: State, t: nat) {
    t < |s.threads| && Budget in Locks(s.threads[t])
  }

  /** A stretch of a run during which thread `t` holds the budget lock throughout. */
  ghost predicate Holding(cfg: Config, t: nat, trace: seq<State>, run: seq<Action>) {
    && |trace| == |run| + 1
    && (forall i :: 0 <= i < |trace| ==> HoldsBudget(trace[i], t))
    && (forall i :: 0 <= i < |run| ==> Leads(cfg, trace[i], run[i], trace[i + 1]))
  }

  predicate EvictsAt(t: nat, s: State, a: Action) {
    a.Run? && a.t == t && t < |s.threads| && s.threads[t].at.Evict?
  }

  ghost function Evictions(t: nat, trace: seq<State>, run: seq<Action>): nat
    requires |trace| == |run| + 1
  {
    if run == [] then 0
    else Evictions(t, trace[..|run|], run[..|run| - 1]) + if EvictsAt(t, trace[|run| - 1], run[|run| - 1]) then 1 else 0
  }

  lemma ResidentNonnegative(cfg: Config, s: State)
    requires Inv(cfg, s)
    ensures s.resident >= 0
  {
    hide ThreadsOk, UnlockedOk, JobsOk, LocksOk, TrackedOk, FaultersOk, QueueOk, FifoOk, Names;
    Tally(cfg, s);
    SumNonnegative(ResidentBytes(cfg, s));
  }

  lemma {:induction false} SumNonnegative(xs: seq<int>)
    requires forall i :: 0 <= i < |xs| ==> xs[i] >= 0
    ensures Sum(xs) >= 0
  {
    if xs != [] {
      SumNonnegative(xs[..|xs| - 1]);
    }
  }

  lemma {:induction false} HoldingInv(cfg: Config, t: nat, trace: seq<State>, run: seq<Action>)
    requires Holding(cfg, t, trace, run) && Inv(cfg, trace[0])
    ensures Inv(cfg, trace[|run|]) && trace[|run|].reserved == trace[0].reserved
    ensures trace[|run|].resident + Evictions(t, trace, run) <= trace[0].resident
  {
    hide Inv, Shaped, Enabled, Next, Locks, HoldsBudget;
    if run != [] {
      var n := |run| - 1;
      var front, s, a := trace[..|run|], trace[n], run[n];
      assert forall i :: 0 <= i < |front| ==> front[i] == trace[i];
      HoldingInv(cfg, t, front, run[..n]);
      assert Leads(cfg, s, a, trace[n + 1]) && HoldsBudget(s, t) && HoldsBudget(trace[n + 1], t);
      NextInv(cfg, s, a);
      LoopStep(cfg, s, t, a);
    }
  }

  /** The eviction loop ends: the evictions of a thread that keeps the budget lock take away at least a
      byte each, and nothing is added meanwhile, so they number at most the bytes resident at the start. */
  lemma EvictionsBounded(cfg: Config, faulters: nat, t: nat, trace: seq<State>, run: seq<Action>)
    requires cfg.Valid() && Holding(cfg, t, trace, run) && Reachable(cfg, faulters, trace[0])
    ensures Evictions(t, trace, run) <= trace[0].resident
  {
    hide Inv, Reachable, HoldsBudget, Leads, Evictions;
    ReachableInv(cfg, faulters, trace[0]);
    HoldingInv(cfg, t, trace, run);
    ResidentNonnegative(cfg, trace[|run|]);
  }

  lemma LoopStep(cfg: Config, s: State, t: nat, a: Action)
    requires Inv(cfg, s) && Shaped(cfg, s) && HoldsBudget(s, t) && Enabled(cfg, s, a) && HoldsBudget(Next(cfg, s, a), t)
    ensures Next(cfg, s, a).resident + (if EvictsAt(t, s, a) then 1 else 0) <= s.resident
    ensures Next(cfg, s, a).reserved == s.reserved
  {
    if a.Run? && a.t == t {
      OwnStep(cfg, s, t, a.choice);
    } else {
      hide Inv, Shaped, Enabled, Next, Locks;
      LoopUndisturbed(cfg, s, t, a);
    }
  }

  predicate ShortSection(at: At) {
    || at.DOnFault? || at.PinTarget? || at.UnpinDeclined? || at.Commit? || at.Predict? || at.Unpin? || at.Retain?
    || at.NAccess? || at.NRelease?
  }

  lemma BudgetPlaces(th: Thread)
    requires Budget in Locks(th)
    ensures th.at.Ensure? || th.at.Evict? || ShortSection(th.at)
  {
  }

  lemma PinsReleased(cfg: Config, s: State, t: nat, choice: Choice)
    requires Shaped(cfg, s) && CanRun(cfg, s, t, choice) && ShortSection(s.threads[t].at)
    requires s.threads[t].at.PinTarget? || s.threads[t].at.UnpinDeclined? || s.threads[t].at.Unpin? || s.threads[t].at.Retain?
    ensures var s1 := RunThread(cfg, s, t, choice);
            t < |s1.threads| && !s1.threads[t].inside && !s1.threads[t].at.Ensure? && !s1.threads[t].at.Evict?
  {
    hide Shaped, Choosable, Removed, Pushed, Locks, Needs;
  }

  lemma PolicyReleased(cfg: Config, s: State, t: nat, choice: Choice)
    requires Shaped(cfg, s) && CanRun(cfg, s, t, choice) && ShortSection(s.threads[t].at)
    requires s.threads[t].at.DOnFault? || s.threads[t].at.Predict? || s.threads[t].at.NAccess?
    ensures var s1 := RunThread(cfg, s, t, choice);
            t < |s1.threads| && !s1.threads[t].inside && !s1.threads[t].at.Ensure? && !s1.threads[t].at.Evict?
  {
    hide Shaped, Choosable, Removed, Pushed, Locks, Needs;
  }

  /** Everywhere but in the loop the budget lock is given back at once. */
  lemma BudgetReleased(cfg: Config, s: State, t: nat, choice: Choice)
    requires Shaped(cfg, s) && CanRun(cfg, s, t, choice) && ShortSection(s.threads[t].at)
    ensures var s1 := RunThread(cfg, s, t, choice);
            t < |s1.threads| && !s1.threads[t].inside && !s1.threads[t].at.Ensure? && !s1.threads[t].at.Evict?
  {
    var at := s.threads[t].at;
    if at.PinTarget? || at.UnpinDeclined? || at.Unpin? || at.Retain? {
      hide Shaped, RunThread, Choosable;
      PinsReleased(cfg, s, t, choice);
    } else if at.DOnFault? || at.Predict? || at.NAccess? {
      hide Shaped, RunThread, Choosable;
      PolicyReleased(cfg, s, t, choice);
    } else {
      hide Shaped, Choosable, Removed, Locks, Needs;
    }
  }

  lemma NotHeld(th: Thread)
    requires !th.inside && !th.at.Evict?
    ensures Budget !in Locks(th)
  {
  }

  lemma LoopStays(cfg: Config, s: State, t: nat, choice: Choice)
    requires Shaped(cfg, s) && CanRun(cfg, s, t, choice) && s.threads[t].at.Ensure?
    ensures var s1 := RunThread(cfg, s, t, choice);
            t < |s1.threads| && (Budget in Locks(s1.threads[t]) ==> s1.resident == s.resident && s1.reserved == s.reserved)
  {
    hide Shaped, Choosable, Diverges, NoVictim, NoneBreakable, Fits, Removed;
  }

  /** The holder's own step either evicts, or it leaves the loop and with it the lock. */
  lemma OwnStep(cfg: Config, s: State, t: nat, choice: Choice)
    requires Inv(cfg, s) && Shaped(cfg, s) && CanRun(cfg, s, t, choice) && Budget in Locks(s.threads[t])
    requires var s1 := RunThread(cfg, s, t, choice); t < |s1.threads| && Budget in Locks(s1.threads[t])
    ensures var s1 := RunThread(cfg, s, t, choice);
            s1.resident + (if s.threads[t].at.Evict? then 1 else 0) <= s.resident && s1.reserved == s.reserved
  {
    hide Inv, Shaped, Choosable, RunThread, Locks;
    if s.threads[t].at.Evict? {
      EvictionFrees(cfg, s, t, choice);
    } else if s.threads[t].at.Ensure? {
      LoopStays(cfg, s, t, choice);
    } else {
      BudgetPlaces(s.threads[t]);
      BudgetReleased(cfg, s, t, choice);
      NotHeld(RunThread(cfg, s, t, choice).threads[t]);
    }
  }

  /** The space is reserved, within the budget. */
  predicate Granted(cfg: Config, s: State, s1: State, c: nat)
    requires c < |cfg.lens|
  {
    s1.reserved == s.reserved + cfg.lens[c] && s1.resident + s1.reserved <= cfg.budget
  }

  /** Every resident chunk is pinned by a worker, and with retention on none merely retained. */
  ghost predicate AllPinned(cfg: Config, s: State) {
    forall v :: 0 <= v < |s.chunks| && s.chunks[v].state.Resident? ==>
      s.chunks[v].pin >= 1 && (cfg.retention ==> v !in s.fifo && Pinners(s, v) != {})
  }

  /** What a thread that asks for budget ends up with: the space, reserved within the budget; or, for a
      demand fetch, the certainty that every resident chunk is pinned by someone at work on it. */
  lemma AskingOutcome(cfg: Config, s: State, t: nat, k: Kind, c: nat, left: nat, choice: Choice)
    requires Inv(cfg, s) && Shaped(cfg, s) && CanRun(cfg, s, t, choice) && s.threads[t].at == Ensure(k, c, left)
    ensures c < |cfg.lens| && t < |RunThread(cfg, s, t, choice).threads|
    ensures RunThread(cfg, s, t, choice).threads[t].at == Read(k, c) ==> Granted(cfg, s, RunThread(cfg, s, t, choice), c)
    ensures k.Demand? && (RunThread(cfg, s, t, choice).threads[t].at.Ensure? || RunThread(cfg, s, t, choice).threads[t].at.Abandon?) ==>
              AllPinned(cfg, s)
  {
    hide Inv, Shaped, Choosable, Locks;
    var at := Knows(cfg, s, t);
    Balanced(cfg, s);
    var s1 := RunThread(cfg, s, t, choice);
    if k.Demand? && (s1.threads[t].at.Ensure? || s1.threads[t].at.Abandon?) {
      forall v | 0 <= v < |s.chunks| && s.chunks[v].state.Resident?
        ensures s.chunks[v].pin >= 1 && (cfg.retention ==> v !in s.fifo && Pinners(s, v) != {})
      {
        assert !CanEvict(s, v) && !Breakable(cfg, s, v);
        PinCount(cfg, s, v);
      }
    }
  }

  lemma PinCount(cfg: Config, s: State, c: nat)
    requires Inv(cfg, s) && c < |s.chunks|
    ensures s.chunks[c].pin == (if c in s.fifo then 1 else 0) + |Pinners(s, c)|
  {
    hide ThreadsOk, UnlockedOk, JobsOk, TrackedOk, FaultersOk, Names;
    PinEntry(cfg, s, c);
    PinnersOf(s, c);
  }
}
