/** The asynchronous protocol never gets stuck: no deadlock, no state in which nothing can move but
    someone is still waiting; and what the FETCHING watchdog would do to it. */
module AsyncProgress {
  import opened Chunks
  import opened RetentionRings
  import opened Protocol
  import opened Invariant
  import opened Steps
  import opened WorkerSteps
  import opened AsyncRuns
  import opened AsyncTheorems

  // ---- the wait-for graph ----

  /** Thread `t` waits for a lock that `u` holds. */
  predicate Waits(s: State, t: nat, u: nat) {
    && t < |s.threads| && Needs(s.threads[t].at).Some? && !s.threads[t].inside
    && Needs(s.threads[t].at).value in s.held && s.held[Needs(s.threads[t].at).value] == u
  }

  function Level(th: Thread): nat {
    if th.inside || Needs(th.at).None? then 0
    else if Needs(th.at).value.Pool? || th.at.Evict? then 1
    else if Needs(th.at).value.Budget? then 2
    else 3
  }

  /** Nobody who holds the pool lock waits; who holds the budget lock waits at most for a victim; and who
      holds a chunk's lock does not wait for a chunk, but for a victim. */
  lemma HolderLevel(th: Thread, m: Mutex)
    requires m in Locks(th)
    ensures Level(th) < if m.Pool? then 1 else if m.Budget? then 2 else 3
  {
  }

  /** The holder of a resident chunk without a pin of its own is waiting for nothing. */
  lemma VictimHolder(th: Thread, t: nat, len: nat, e: Entry)
    requires Subject(th.at).Some? && OfChunk(th.at.c) in Locks(th) && Expects(th, t, len, e)
    requires e.state.Resident? && e.pin == 0
    ensures Level(th) == 0
  {
  }

  lemma InsideLevel(th: Thread)
    requires th.inside
    ensures Level(th) == 0
  {
  }

  lemma VictimFree(cfg: Config, s: State, v: nat)
    requires Inv(cfg, s) && CanEvict(s, v) && OfChunk(v) in s.held
    ensures s.held[OfChunk(v)] < |s.threads| && Level(s.threads[s.held[OfChunk(v)]]) == 0
  {
    hide Expects, Locks, TrackedOk, FaultersOk, JobsOk, Level, Names;
    var u := s.held[OfChunk(v)];
    var th := s.threads[u];
    assert ThreadOk(cfg, s, u);
    HeldFor(th, v);
    NotPinned(cfg, s, v);
    if Subject(th.at).Some? && th.at.c == v {
      VictimHolder(th, u, cfg.lens[v], Seen(s, v));
    } else {
      InsideLevel(th);
    }
  }

  /** Every wait goes down a level, so the wait-for graph has no cycle. */
  lemma WaitsDown(cfg: Config, s: State, t: nat, u: nat)
    requires Inv(cfg, s) && Waits(s, t, u)
    ensures u < |s.threads| && Level(s.threads[u]) < Level(s.threads[t])
  {
    hide Expects, Locks, TrackedOk, FaultersOk, JobsOk, Names;
    var th, m := s.threads[t], Needs(s.threads[t].at).value;
    assert m in Locks(s.threads[u]);
    HolderLevel(s.threads[u], m);
    if th.at.Evict? {
      assert ThreadOk(cfg, s, t);
      VictimFree(cfg, s, th.at.v);
    } else {
      PlainLevel(th);
    }
  }

  lemma PlainLevel(th: Thread)
    requires Needs(th.at).Some? && !th.inside && !th.at.Evict?
    ensures var m := Needs(th.at).value; Level(th) == if m.Pool? then 1 else if m.Budget? then 2 else 3
  {
  }

  lemma {:induction false} ChainDown(cfg: Config, s: State, chain: seq<nat>)
    requires Inv(cfg, s) && |chain| >= 2 && forall i :: 0 <= i < |chain| - 1 ==> Waits(s, chain[i], chain[i + 1])
    ensures chain[0] < |s.threads| && chain[|chain| - 1] < |s.threads|
    ensures Level(s.threads[chain[|chain| - 1]]) < Level(s.threads[chain[0]])
  {
    hide Inv, Level;
    WaitsDown(cfg, s, chain[0], chain[1]);
    if |chain| > 2 {
      var rest := chain[1..];
      forall i | 0 <= i < |rest| - 1 ensures Waits(s, rest[i], rest[i + 1]) {
        assert Waits(s, chain[i + 1], chain[i + 2]);
      }
      ChainDown(cfg, s, rest);
    }
  }

  /** No chain of threads waiting for one another comes back to where it started. */
  lemma WaitForAcyclic(cfg: Config, faulters: nat, s: State, chain: seq<nat>)
    requires cfg.Valid() && Reachable(cfg, faulters, s)
    requires |chain| >= 2 && forall i :: 0 <= i < |chain| - 1 ==> Waits(s, chain[i], chain[i + 1])
    ensures chain[0] != chain[|chain| - 1]
  {
    hide *;
    ReachableInv(cfg, faulters, s);
    ChainDown(cfg, s, chain);
  }

  // ---- no deadlock ----

  /** A transition by which the pager gets on with its work: not a new consumption signal, nor stopping. */
  ghost predicate Progresses(cfg: Config, s: State, a: Action)
    requires Shaped(cfg, s)
  {
    && Enabled(cfg, s, a) && !a.Touch?
    && (a.Run? ==> !s.threads[a.t].at.NIdle? && !(s.threads[a.t].at.DIdle? && a.choice.yes))
  }

  predicate Idle(th: Thread) {
    th.at.DIdle? || th.at.DStopped? || (th.at.WIdle? && !th.inside) || th.at.WExit? || th.at.NIdle?
  }

  /** Something can always be chosen. */
  lemma SomeChoice(cfg: Config, s: State, t: nat) returns (choice: Choice)
    requires Inv(cfg, s) && t < |s.threads| && !Idle(s.threads[t])
    ensures Shaped(cfg, s) && Choosable(cfg, s, t, choice)
  {
    hide Inv, Shaped;
    var at := Knows(cfg, s, t);
    var x, amount := 0, 1;
    if at.Ensure? {
      if v: nat :| CanEvict(s, v) {
        x := v;
      } else if v: nat :| Breakable(cfg, s, v) {
        x := v;
      }
    }
    if w :| w in s.asleep {
      x := if at.DEnqueue? || at.Push? then w else x;
    }
    choice := Choice(x, amount, false);
  }

  lemma BusyRuns(cfg: Config, s: State, t: nat) returns (a: Action)
    requires Inv(cfg, s) && PoolOk(cfg, s) && t < |s.threads| && !Idle(s.threads[t])
    requires Needs(s.threads[t].at).Some? ==> s.threads[t].inside || Needs(s.threads[t].at).value !in s.held
    ensures Shaped(cfg, s) && Progresses(cfg, s, a)
  {
    hide Inv, Shaped, Choosable;
    Basics(cfg, s);
    var choice := SomeChoice(cfg, s, t);
    a := if Needs(s.threads[t].at).Some? && !s.threads[t].inside then Acquire(t) else Run(t, choice);
  }

  /** Wherever a thread is in the middle of something, it or one it waits for can move. */
  lemma {:induction false} BusyProgresses(cfg: Config, s: State, t: nat) returns (a: Action)
    requires Inv(cfg, s) && PoolOk(cfg, s) && t < |s.threads| && !Idle(s.threads[t])
    ensures Shaped(cfg, s) && Progresses(cfg, s, a)
    decreases Level(s.threads[t])
  {
    hide Inv, PoolOk, Shaped, Progresses, Level, Idle;
    var th := s.threads[t];
    if Needs(th.at).Some? && !th.inside && Needs(th.at).value in s.held {
      var u := s.held[Needs(th.at).value];
      WaitsDown(cfg, s, t, u);
      HolderBusy(cfg, s, Needs(th.at).value);
      a := BusyProgresses(cfg, s, u);
    } else {
      a := BusyRuns(cfg, s, t);
    }
  }

  lemma HoldersBusy(th: Thread, m: Mutex)
    requires m in Locks(th)
    ensures !Idle(th)
  {
  }

  lemma HolderBusy(cfg: Config, s: State, m: Mutex)
    requires Inv(cfg, s) && m in s.held
    ensures s.held[m] < |s.threads| && !Idle(s.threads[s.held[m]])
  {
    hide Expects, Locks, ThreadsOk, UnlockedOk, TrackedOk, FaultersOk, JobsOk, Names;
    HoldersBusy(s.threads[s.held[m]], m);
  }

  /** Nothing in the pager can move. */
  ghost predicate Quiescent(cfg: Config, s: State)
    requires Shaped(cfg, s)
  {
    forall a :: !Progresses(cfg, s, a)
  }

  /** In every reachable state, if a thread of the pager is in the middle of something then the pager can move. */
  lemma NoDeadlock(cfg: Config, faulters: nat, s: State)
    requires cfg.Valid() && Reachable(cfg, faulters, s)
    requires exists t :: 0 <= t < |s.threads| && !Idle(s.threads[t])
    ensures Shaped(cfg, s) && !Quiescent(cfg, s)
  {
    hide Inv, PoolOk, Shaped, Progresses, Idle;
    ReachableInv(cfg, faulters, s);
    ReachablePool(cfg, faulters, s);
    var t :| 0 <= t < |s.threads| && !Idle(s.threads[t]);
    var a := BusyProgresses(cfg, s, t);
  }

  // ---- stopping ----

  /** The pool is stopping exactly when the dispatcher has stopped; workers leave only then, and nobody
      sleeps; only workers between two jobs sleep; and while there are jobs, some worker is awake. */
  ghost predicate PoolOk(cfg: Config, s: State) {
    && cfg.workers > 0 && |s.threads| == cfg.Threads()
    && (s.stop <==> s.threads[0].at.DStopped?)
    && (forall t :: 0 <= t < |s.threads| && s.threads[t].at.WExit? ==> s.stop)
    && (forall t :: t in s.asleep ==> !s.stop && 0 < t <= cfg.workers && s.threads[t] == Thread(WIdle, false))
    && (s.queue != [] || s.pfQueue != [] ==> exists t :: 0 < t <= cfg.workers && Awake(s, t))
  }

  predicate Awake(s: State, t: nat) {
    t < |s.threads| && !s.threads[t].at.WExit? && t !in s.asleep
  }

  /** How thread `t`'s step may affect the pool. */
  ghost predicate PoolStep(s: State, s1: State, t: nat, stops: bool)
    requires t < |s.threads|
  {
    var at := s.threads[t].at;
    && |s1.threads| == |s.threads| && (forall u :: 0 <= u < |s.threads| && u != t ==> s1.threads[u] == s.threads[u])
    && (s1.stop <==> s.stop || stops) && (s1.threads[t].at.DStopped? <==> stops)
    && (s1.threads[t].at.WExit? ==> at.WIdle? && s.queue == [] && s.pfQueue == [] && s.stop)
    && Signals(s, s1, t, stops)
  }

  /** A worker falls asleep only if there are no jobs, and a new job wakes one that sleeps. */
  ghost predicate Signals(s: State, s1: State, t: nat, stops: bool)
    requires t < |s.threads|
  {
    var at := s.threads[t].at;
    && (stops ==> s1.asleep == {})
    && (forall u :: u in s1.asleep && u !in s.asleep ==>
          u == t && at.WIdle? && |s1.threads| > t && s1.threads[t] == Thread(WIdle, false)
          && s.queue == [] && s.pfQueue == [] && !s.stop)
    && (s1.queue != [] ==> s.queue != [] || (at.DEnqueue? && (s.asleep != {} ==> s1.asleep < s.asleep)))
    && (s1.pfQueue != [] ==> s.pfQueue != [] || (at.Push? && (s.asleep != {} ==> s1.asleep < s.asleep)))
  }

  lemma AskingPool(cfg: Config, s: State, t: nat, choice: Choice)
    requires Shaped(cfg, s) && CanRun(cfg, s, t, choice) && Asking(s.threads[t].at)
    requires !s.threads[t].at.Ensure? && !s.threads[t].at.WIdle?
    ensures PoolStep(s, RunThread(cfg, s, t, choice), t, false)
  {
    hide Shaped, Locks, Choosable, Diverges, CanEvict, Needs, Woken;
  }

  lemma PopPool(cfg: Config, s: State, t: nat, choice: Choice)
    requires Shaped(cfg, s) && CanRun(cfg, s, t, choice) && s.threads[t].at.WIdle?
    ensures PoolStep(s, RunThread(cfg, s, t, choice), t, false)
  {
    hide Shaped, Locks, Choosable, Needs;
  }

  lemma BudgetPool(cfg: Config, s: State, t: nat, choice: Choice)
    requires Shaped(cfg, s) && CanRun(cfg, s, t, choice) && s.threads[t].at.Ensure?
    ensures PoolStep(s, RunThread(cfg, s, t, choice), t, false)
  {
    hide Shaped, Locks, Choosable, Diverges, NoVictim, NoneBreakable, Fits, CanEvict, Needs, Removed, PoolStep, Goto;
    AsksFor(cfg, s, t, choice);
    var d, k, c, left := Reconciled(cfg, s), s.threads[t].at.k, s.threads[t].at.c, s.threads[t].at.left;
    if Fits(cfg, s, c) {
      var e := s.chunks[c].(acct := Reserved);
      GoesOn(s, d.(reserved := s.reserved + cfg.lens[c], chunks := s.chunks[c := e]), t, Read(k, c));
    } else if !NoVictim(s) {
      GoesOn(s, d, t, if k.Prefetch? && choice.yes then UnpinDeclined(c) else Evict(k, c, left, choice.x));
    } else if k.Prefetch? {
      GoesOn(s, d, t, UnpinDeclined(c));
    } else if !NoneBreakable(cfg, s) {
      GoesOn(s, ReleaseRetained(d, choice.x), t, Evict(k, c, left, choice.x));
    } else {
      GoesOn(s, d, t, if left > 0 then Ensure(k, c, left - 1) else Abandon(k, c));
    }
  }

  lemma AsksFor(cfg: Config, s: State, t: nat, choice: Choice)
    requires Shaped(cfg, s) && CanRun(cfg, s, t, choice) && s.threads[t].at.Ensure?
    ensures s.threads[t].at.c < |cfg.lens| == |s.chunks|
    ensures var at := s.threads[t].at;
            !Fits(cfg, s, at.c) && NoVictim(s) && at.k.Demand? && !NoneBreakable(cfg, s) ==> choice.x < |s.chunks|
  {
    hide NoVictim, NoneBreakable, Fits, CanEvict;
  }

  /** Going on with other work does not concern the pool. */
  lemma GoesOn(s: State, d: State, t: nat, to: At)
    requires t < |s.threads| && d.threads == s.threads && d.stop == s.stop && d.asleep == s.asleep
    requires d.queue == s.queue && d.pfQueue == s.pfQueue && !to.DStopped? && !to.WExit?
    ensures PoolStep(s, Goto(d, t, to), t, false)
  {
    hide Locks;
  }

  lemma FetchingPool(cfg: Config, s: State, t: nat, choice: Choice)
    requires Shaped(cfg, s) && CanRun(cfg, s, t, choice)
    requires s.threads[t].at.Read? || s.threads[t].at.Continue? || s.threads[t].at.Commit? || s.threads[t].at.Publish?
    ensures PoolStep(s, RunThread(cfg, s, t, choice), t, false)
  {
    hide Shaped, Locks, Choosable, Needs, Woken;
  }

  lemma TopUpPool(cfg: Config, s: State, t: nat, choice: Choice)
    requires Shaped(cfg, s) && CanRun(cfg, s, t, choice)
    requires s.threads[t].at.Need? || s.threads[t].at.Predict? || s.threads[t].at.Push?
    ensures PoolStep(s, RunThread(cfg, s, t, choice), t, false)
  {
    hide Shaped, Locks, Needs;
  }

  lemma LeavingPool(cfg: Config, s: State, t: nat, choice: Choice)
    requires Shaped(cfg, s) && CanRun(cfg, s, t, choice)
    requires s.threads[t].at.Unpin? || s.threads[t].at.Retain? || s.threads[t].at.Unlock? || s.threads[t].at.Untrack?
    ensures PoolStep(s, RunThread(cfg, s, t, choice), t, false)
  {
    hide Shaped, Locks, Choosable, Needs, Pushed;
  }

  lemma DispatcherPool(cfg: Config, s: State, t: nat, choice: Choice)
    requires Shaped(cfg, s) && CanRun(cfg, s, t, choice) && Dispatching(s.threads[t].at)
    ensures PoolStep(s, RunThread(cfg, s, t, choice), t, s.threads[t].at.DIdle? && choice.yes)
  {
    hide Shaped, Locks, Needs, Woken;
  }

  lemma NotifierPool(cfg: Config, s: State, t: nat, choice: Choice)
    requires Shaped(cfg, s) && CanRun(cfg, s, t, choice) && Notifying(s.threads[t].at)
    ensures PoolStep(s, RunThread(cfg, s, t, choice), t, false)
  {
    hide Shaped, Locks, Choosable, Needs, Removed;
  }

  lemma PoolEffect(cfg: Config, s: State, t: nat, choice: Choice)
    requires Shaped(cfg, s) && CanRun(cfg, s, t, choice)
    ensures PoolStep(s, RunThread(cfg, s, t, choice), t, s.threads[t].at.DIdle? && choice.yes)
  {
    hide Shaped, RunThread, PoolStep, Choosable, Needs;
    var at := s.threads[t].at;
    if Dispatching(at) {
      DispatcherPool(cfg, s, t, choice);
    } else if Notifying(at) {
      NotifierPool(cfg, s, t, choice);
    } else if at.WIdle? {
      PopPool(cfg, s, t, choice);
    } else if at.Ensure? {
      BudgetPool(cfg, s, t, choice);
    } else if Asking(at) {
      AskingPool(cfg, s, t, choice);
    } else if at.Need? || at.Predict? || at.Push? {
      TopUpPool(cfg, s, t, choice);
    } else if at.Unpin? || at.Retain? || at.Unlock? || at.Untrack? {
      LeavingPool(cfg, s, t, choice);
    } else {
      FetchingPool(cfg, s, t, choice);
    }
  }

  /** Whoever wakes or already is awake is awake. */
  lemma SomeoneAwake(cfg: Config, s: State, s1: State, t: nat, stops: bool)
    requires Shaped(cfg, s) && PoolOk(cfg, s) && t < |s.threads| && PoolStep(s, s1, t, stops)
    requires s1.queue != [] || s1.pfQueue != []
    ensures exists w :: 0 < w <= cfg.workers && Awake(s1, w)
  {
    hide Names;
    if s.queue != [] || s.pfQueue != [] {
      var w :| 0 < w <= cfg.workers && Awake(s, w);
      assert Awake(s1, w);
    } else if s.asleep != {} {
      var w :| w in s.asleep && w !in s1.asleep;
      assert Awake(s1, w);
    } else if s.threads[t].at.DEnqueue? {
      assert Awake(s1, 1);
    } else {
      assert Awake(s1, t);
    }
  }

  lemma PoolRun(cfg: Config, s: State, s1: State, t: nat, stops: bool)
    requires Shaped(cfg, s) && PoolOk(cfg, s) && t < |s.threads| && PoolStep(s, s1, t, stops)
    requires (stops ==> s.threads[t].at.DIdle?) && !s.threads[t].at.DStopped? && t !in s.asleep
    ensures PoolOk(cfg, s1)
  {
    hide Names;
    assert t != 0 ==> s1.threads[0] == s.threads[0];
    if s1.queue != [] || s1.pfQueue != [] {
      SomeoneAwake(cfg, s, s1, t, stops);
    }
  }

  /** A thread asleep has no turn: it has not taken the pool's lock. */
  lemma TurnAwake(cfg: Config, s: State, t: nat, choice: Choice)
    requires Shaped(cfg, s) && PoolOk(cfg, s) && CanRun(cfg, s, t, choice)
    ensures t !in s.asleep
  {
    hide Shaped, Choosable;
  }

  lemma PoolNext(cfg: Config, s: State, a: Action)
    requires Shaped(cfg, s) && Enabled(cfg, s, a) && PoolOk(cfg, s)
    ensures PoolOk(cfg, Next(cfg, s, a))
  {
    hide Shaped, RunThread, Choosable, Names;
    match a
    case Touch(_, _) =>
      var s1 := Next(cfg, s, a);
      assert forall t: nat :: Awake(s, t) ==> Awake(s1, t);
    case Run(t, choice) =>
      TurnAwake(cfg, s, t, choice);
      hide PoolOk, PoolStep;
      PoolEffect(cfg, s, t, choice);
      PoolRun(cfg, s, RunThread(cfg, s, t, choice), t, s.threads[t].at.DIdle? && choice.yes);
    case Acquire(t) =>
      var s1 := Next(cfg, s, a);
      assert forall u :: 0 <= u < |s.threads| ==> s1.threads[u].at == s.threads[u].at;
      assert forall u: nat :: Awake(s, u) ==> Awake(s1, u);
  }

  lemma StartPool(cfg: Config, faulters: nat)
    requires cfg.Valid()
    ensures PoolOk(cfg, Start(cfg, faulters))
  {
  }

  lemma {:induction false} VisitedPool(cfg: Config, faulters: nat, trace: seq<State>, run: seq<Action>, i: nat)
    requires cfg.Valid() && Visits(cfg, faulters, trace, run) && i <= |run|
    ensures PoolOk(cfg, trace[i])
  {
    hide PoolOk, Shaped, Enabled, Next, Start;
    if i == 0 {
      StartPool(cfg, faulters);
    } else {
      VisitedPool(cfg, faulters, trace, run, i - 1);
      assert Leads(cfg, trace[i - 1], run[i - 1], trace[i]);
      PoolNext(cfg, trace[i - 1], run[i - 1]);
    }
  }

  lemma ReachablePool(cfg: Config, faulters: nat, s: State)
    requires cfg.Valid() && Reachable(cfg, faulters, s)
    ensures PoolOk(cfg, s)
  {
    hide PoolOk;
    var trace, run :| Visits(cfg, faulters, trace, run) && s == trace[|run|];
    VisitedPool(cfg, faulters, trace, run, |run|);
  }

  /** Signalling one worker a job is enough: while jobs are queued some worker is awake, and none sleeps
      through the pool's stopping. */
  lemma NoLostWakeup(cfg: Config, faulters: nat, s: State)
    requires cfg.Valid() && Reachable(cfg, faulters, s)
    ensures s.queue != [] || s.pfQueue != [] ==> exists w :: 0 < w <= cfg.workers && Awake(s, w)
    ensures s.stop ==> s.asleep == {}
  {
    ReachablePool(cfg, faulters, s);
  }

  // ---- quiescence ----

  lemma AllIdle(cfg: Config, s: State)
    requires Inv(cfg, s) && PoolOk(cfg, s) && Shaped(cfg, s) && Quiescent(cfg, s)
    ensures s.held == map[]
    ensures forall t :: 0 <= t < |s.threads| ==> Idle(s.threads[t])
  {
    hide Inv, Shaped, Progresses, Idle;
    forall t | 0 <= t < |s.threads| ensures Idle(s.threads[t]) {
      if !Idle(s.threads[t]) {
        var a := BusyProgresses(cfg, s, t);
      }
    }
    if m :| m in s.held {
      HolderBusy(cfg, s, m);
    }
  }

  /** With every lock free, an idle worker that is awake can go on. */
  lemma WorkerCanTake(cfg: Config, s: State, w: nat)
    requires Shaped(cfg, s) && !s.aborted && w < |s.threads| && s.held == map[]
    requires 0 < w <= cfg.workers && Idle(s.threads[w]) && Awake(s, w)
    ensures Progresses(cfg, s, Acquire(w))
  {
    hide Names;
  }

  lemma DispatcherCanRead(cfg: Config, s: State, f: nat)
    requires Shaped(cfg, s) && !s.aborted && f < |s.faulters| && s.faulters[f].Blocked? && !s.faulters[f].read
    requires |s.threads| > 0 && s.threads[0].at.DIdle?
    ensures Progresses(cfg, s, Run(0, Choice(f, 0, false)))
  {
    hide Names;
  }

  lemma IdleDispatcher(cfg: Config, s: State)
    requires Shaped(cfg, s) && |s.threads| > 0 && Idle(s.threads[0])
    ensures s.threads[0].at.DIdle? || s.threads[0].at.DStopped?
  {
    hide Names;
  }

  lemma NoJobs(cfg: Config, s: State)
    requires Inv(cfg, s) && Shaped(cfg, s) && PoolOk(cfg, s) && Quiescent(cfg, s) && s.held == map[]
    requires forall t :: 0 <= t < |s.threads| ==> Idle(s.threads[t])
    ensures s.queue == [] && s.pfQueue == []
  {
    hide Inv, Shaped, Idle, Progresses;
    Basics(cfg, s);
    if s.queue != [] || s.pfQueue != [] {
      var w :| 0 < w <= cfg.workers && Awake(s, w);
      WorkerCanTake(cfg, s, w);
    }
  }

  lemma NoUnread(cfg: Config, s: State, f: nat)
    requires Inv(cfg, s) && Shaped(cfg, s) && Quiescent(cfg, s) && f < |s.faulters| && s.faulters[f].Blocked? && !s.faulters[f].read
    requires |s.threads| > 0 && Idle(s.threads[0])
    ensures s.threads[0].at.DStopped?
  {
    hide Inv, Shaped, Idle, Progresses;
    Basics(cfg, s);
    IdleDispatcher(cfg, s);
    if s.threads[0].at.DIdle? {
      DispatcherCanRead(cfg, s, f);
    }
  }

  lemma IdlePlaces(th: Thread, c: nat)
    requires Idle(th)
    ensures !Works(th.at, c) && PrefetchOf(th.at).None? && th.at != DHandle(c)
  {
  }

  lemma NotFetching(cfg: Config, s: State, c: nat)
    requires Core(cfg, s) && QueueOk(s) && s.held == map[] && s.queue == [] && c < |s.chunks|
    requires forall t :: 0 <= t < |s.threads| ==> Idle(s.threads[t])
    ensures !s.chunks[c].state.Fetching?
  {
    hide ThreadsOk, Names, Idle, Works;
    assert Settled(Seen(s, c), cfg.lens[c]);
    if s.chunks[c].job.Taken? {
      IdlePlaces(s.threads[s.chunks[c].job.t], c);
    }
  }

  /** No chunk is being fetched, and no thread waits for one that is. */
  lemma NothingPending(cfg: Config, s: State)
    requires Inv(cfg, s) && s.held == map[] && s.queue == [] && s.pfQueue == []
    requires forall t :: 0 <= t < |s.threads| ==> Idle(s.threads[t])
    ensures s.tracked == {} && s.outstanding == 0
    ensures forall c :: 0 <= c < |s.chunks| ==> !s.chunks[c].state.Fetching?
    ensures forall f :: 0 <= f < |s.faulters| && s.faulters[f].Blocked? ==> !s.faulters[f].read
  {
    hide Core, Idle, PrefetchOf;
    forall x | x in s.tracked ensures x in s.pfQueue {
      if t :| 0 <= t < |s.threads| && PrefetchOf(s.threads[t].at) == Some(x) {
        IdlePlaces(s.threads[t], x);
      }
    }
    forall c | 0 <= c < |s.chunks| ensures !s.chunks[c].state.Fetching? {
      NotFetching(cfg, s, c);
    }
    forall f | 0 <= f < |s.faulters| && s.faulters[f].Blocked? ensures !s.faulters[f].read {
      IdlePlaces(s.threads[0], s.faulters[f].c);
    }
  }

  lemma WorkerRests(cfg: Config, s: State, t: nat)
    requires Inv(cfg, s) && Shaped(cfg, s) && PoolOk(cfg, s) && Quiescent(cfg, s) && s.held == map[]
    requires 0 < t <= cfg.workers && t < |s.threads| && Idle(s.threads[t])
    ensures s.threads[t].at.WExit? || t in s.asleep
  {
    hide Inv, Shaped, Idle, Progresses;
    Basics(cfg, s);
    if !s.threads[t].at.WExit? && t !in s.asleep {
      WorkerCanTake(cfg, s, t);
    }
  }

  /** A state in which the pager cannot move owes nothing to anyone: no lock is held, no fetch is queued,
      tracked or under way, no space is reserved; every worker sleeps, or has left if the pager stopped;
      and only a stopped pager leaves a thread blocked, with its message unread. */
  lemma QuiescentMeansDone(cfg: Config, faulters: nat, s: State)
    requires cfg.Valid() && Reachable(cfg, faulters, s) && Shaped(cfg, s) && Quiescent(cfg, s)
    ensures s.held == map[] && s.queue == [] && s.pfQueue == [] && s.tracked == {} && s.outstanding == 0 && s.reserved == 0
    ensures forall c :: 0 <= c < |s.chunks| ==> !s.chunks[c].state.Fetching?
    ensures |s.threads| == cfg.Threads()
    ensures forall t :: 0 < t <= cfg.workers ==> s.threads[t].at.WExit? || (t in s.asleep && !s.stop)
    ensures forall f :: 0 <= f < |s.faulters| && s.faulters[f].Blocked? ==> !s.faulters[f].read && s.threads[0].at.DStopped?
  {
    hide Inv, Shaped, Quiescent, Idle;
    ReachableInv(cfg, faulters, s);
    ReachablePool(cfg, faulters, s);
    AllIdle(cfg, s);
    NoJobs(cfg, s);
    NothingPending(cfg, s);
    Tally(cfg, s);
    forall t | 0 < t <= cfg.workers ensures s.threads[t].at.WExit? || t in s.asleep {
      WorkerRests(cfg, s, t);
    }
    forall f | 0 <= f < |s.faulters| && s.faulters[f].Blocked? ensures !s.faulters[f].read && s.threads[0].at.DStopped? {
      NoUnread(cfg, s, f);
    }
  }
}
