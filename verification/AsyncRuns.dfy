/** What holds over whole runs of the asynchronous protocol, under every interleaving. */
module AsyncRuns {
  import opened RetentionRings
  import opened Protocol
  import opened Invariant
  import opened Steps
  import opened WorkerSteps

  // ---- the invariant holds in every reachable state ----

  lemma StartShape(cfg: Config, faulters: nat)
    requires cfg.Valid()
    ensures Shaped(cfg, Start(cfg, faulters))
    ensures forall t :: 0 <= t < cfg.Threads() ==> Start(cfg, faulters).threads[t].at in {DIdle, WIdle, NIdle}
    ensures forall t :: 0 <= t < cfg.Threads() ==> !Start(cfg, faulters).threads[t].inside
  {
  }

  lemma StartPlace(at: At)
    requires at in {DIdle, WIdle, NIdle}
    ensures Locks(Thread(at, false)) == {} && Subject(at).None? && !at.Evict? && PrefetchOf(at).None?
  {
  }

  lemma StartCore(cfg: Config, faulters: nat)
    requires cfg.Valid()
    ensures Core(cfg, Start(cfg, faulters))
  {
    hide Shaped, Expects, Locks, Subject;
    var s := Start(cfg, faulters);
    StartShape(cfg, faulters);
    forall t | 0 <= t < |s.threads| ensures Locks(s.threads[t]) == {} && ThreadOk(cfg, s, t) {
      StartPlace(s.threads[t].at);
      assert s.threads[t] == Thread(s.threads[t].at, false);
    }
    forall c | 0 <= c < |s.chunks| ensures Seen(s, c) == ABSENT {
    }
  }

  lemma StartInv(cfg: Config, faulters: nat)
    requires cfg.Valid()
    ensures Inv(cfg, Start(cfg, faulters))
  {
    hide Core;
    var s := Start(cfg, faulters);
    StartCore(cfg, faulters);
    SumZero(CountedBytes(cfg, s));
    SumZero(ReservedBytes(cfg, s));
    StartShape(cfg, faulters);
    hide Shaped;
    forall t | 0 <= t < |s.threads| ensures PrefetchOf(s.threads[t].at).None? {
      StartPlace(s.threads[t].at);
    }
  }

  /** Once it has the lock of a chunk, a thread knows that the chunk is settled. */
  lemma AcquiredOk(cfg: Config, s: State, s1: State, t: nat)
    requires Core(cfg, s) && CanAcquire(s, t)
    requires s1 == s.(threads := s.threads[t := s.threads[t].(inside := true)], held := s.held[Needs(s.threads[t].at).value := t])
    requires Shaped(cfg, s1)
    ensures ThreadOk(cfg, s1, t)
  {
    hide LocksOk, JobsOk;
    assert ThreadOk(cfg, s, t);
    var th := s.threads[t];
    if Subject(th.at).Some? {
      assert Seen(s1, th.at.c) == Seen(s, th.at.c);
    }
    if th.at.Evict? {
      assert Seen(s1, th.at.v) == Seen(s, th.at.v);
    }
  }

  lemma LocksInside(th: Thread)
    requires Needs(th.at).Some? && !th.inside
    ensures Locks(th.(inside := true)) == Locks(th) + {Needs(th.at).value}
  {
  }

  lemma LocksAcquired(s: State, s1: State, t: nat)
    requires LocksOk(s) && CanAcquire(s, t)
    requires s1 == s.(threads := s.threads[t := s.threads[t].(inside := true)], held := s.held[Needs(s.threads[t].at).value := t])
    ensures LocksOk(s1)
  {
    hide Locks, Needs;
    var m := Needs(s.threads[t].at).value;
    LocksInside(s.threads[t]);
    forall u, x | 0 <= u < |s1.threads| && x in Locks(s1.threads[u]) ensures x in s1.held && s1.held[x] == u {
      if u != t {
        assert s1.threads[u] == s.threads[u] && x in s.held;
      }
    }
    forall x | x in s1.held ensures s1.held[x] < |s1.threads| && x in Locks(s1.threads[s1.held[x]]) {
      if x != m {
        assert x in Locks(s.threads[s.held[x]]);
      }
    }
  }

  lemma AcquireKeeps(cfg: Config, s: State, t: nat)
    requires Inv(cfg, s) && CanAcquire(s, t)
    ensures Inv(cfg, s.(threads := s.threads[t := s.threads[t].(inside := true)], held := s.held[Needs(s.threads[t].at).value := t]))
  {
    var s1 := s.(threads := s.threads[t := s.threads[t].(inside := true)], held := s.held[Needs(s.threads[t].at).value := t]);
    AcquiredShape(cfg, s, s1, t);
    AcquiredOk(cfg, s, s1, t);
    LocksAcquired(s, s1, t);
    AcquiredCore(cfg, s, s1, t);
    AcquiredRest(cfg, s, s1, t);
  }

  lemma AcquiredShape(cfg: Config, s: State, s1: State, t: nat)
    requires Shaped(cfg, s) && t < |s.threads| && s1.threads == s.threads[t := s.threads[t].(inside := true)]
    requires s1.(threads := s.threads, held := s.held) == s
    ensures Shaped(cfg, s1)
  {
    hide Names;
  }

  lemma AcquiredCore(cfg: Config, s: State, s1: State, t: nat)
    requires Core(cfg, s) && CanAcquire(s, t) && Shaped(cfg, s1) && ThreadOk(cfg, s1, t) && LocksOk(s1)
    requires s1 == s.(threads := s.threads[t := s.threads[t].(inside := true)], held := s.held[Needs(s.threads[t].at).value := t])
    ensures Core(cfg, s1)
  {
    hide Expects, Settled, Locks, Works, LocksOk, Needs;
    forall u | 0 <= u < |s1.threads| ensures ThreadOk(cfg, s1, u) {
      if u != t {
        assert ThreadOk(cfg, s, u) && s1.threads[u] == s.threads[u];
        var at := s.threads[u].at;
        if Subject(at).Some? {
          assert Seen(s1, at.c) == Seen(s, at.c);
        }
        if at.Evict? {
          assert Seen(s1, at.v) == Seen(s, at.v);
        }
      }
    }
    forall c | 0 <= c < |s1.chunks| && OfChunk(c) !in s1.held ensures Settled(Seen(s1, c), cfg.lens[c]) {
      assert Seen(s1, c) == Seen(s, c);
    }
  }

  lemma AcquiredRest(cfg: Config, s: State, s1: State, t: nat)
    requires Inv(cfg, s) && t < |s.threads| && Core(cfg, s1) && |cfg.lens| == |s.chunks|
    requires s1.threads == s.threads[t := s.threads[t].(inside := true)] && s1.(threads := s.threads, held := s.held) == s
    ensures Inv(cfg, s1)
  {
    hide Core, PrefetchOf;
    forall x | x in s1.tracked && x !in s1.pfQueue
      ensures exists u :: 0 <= u < |s1.threads| && PrefetchOf(s1.threads[u].at) == Some(x)
    {
      var u :| 0 <= u < |s.threads| && PrefetchOf(s.threads[u].at) == Some(x);
      assert PrefetchOf(s1.threads[u].at) == Some(x);
    }
    assert CountedBytes(cfg, s1) == CountedBytes(cfg, s);
    assert ReservedBytes(cfg, s1) == ReservedBytes(cfg, s);
  }

  lemma TouchKeeps(cfg: Config, s: State, f: nat, c: nat)
    requires Inv(cfg, s) && CanTouch(s, f, c)
    ensures Inv(cfg, s.(faulters := s.faulters[f := Blocked(c, false)]))
  {
    hide Names, PrefetchOf, Expects, Settled, Locks, Works;
    var s1 := s.(faulters := s.faulters[f := Blocked(c, false)]);
    assert Shaped(cfg, s1);
    forall u | 0 <= u < |s1.threads| ensures ThreadOk(cfg, s1, u) {
      assert ThreadOk(cfg, s, u);
    }
    forall x | 0 <= x < |s.chunks| ensures Seen(s1, x) == Seen(s, x) {
    }
    assert CountedBytes(cfg, s1) == CountedBytes(cfg, s);
    assert ReservedBytes(cfg, s1) == ReservedBytes(cfg, s);
  }

  lemma NextInv(cfg: Config, s: State, a: Action)
    requires Inv(cfg, s) && Enabled(cfg, s, a)
    ensures Inv(cfg, Next(cfg, s, a))
  {
    assert Shaped(cfg, s);
    match a
    case Acquire(t) => AcquireKeeps(cfg, s, t);
    case Touch(f, c) => TouchKeeps(cfg, s, f, c);
    case Run(t, choice) =>
      hide Inv, Shaped, RunThread;
      if Dispatching(s.threads[t].at) {
        DispatcherKeeps(cfg, s, t, choice);
      } else if Notifying(s.threads[t].at) {
        NotifierKeeps(cfg, s, t, choice);
      } else if Asking(s.threads[t].at) {
        AskingKeeps(cfg, s, t, choice);
      } else {
        LandingKeeps(cfg, s, t, choice);
      }
  }

  /** Action `a` leads from `s` to `s1`. */
  ghost predicate Leads(cfg: Config, s: State, a: Action, s1: State) {
    Shaped(cfg, s) && Enabled(cfg, s, a) && s1 == Next(cfg, s, a)
  }

  /** `trace` lists the states a run visits, from the start on, by the actions of `run`. */
  ghost predicate Visits(cfg: Config, faulters: nat, trace: seq<State>, run: seq<Action>)
    requires cfg.Valid()
  {
    && |trace| == |run| + 1 && trace[0] == Start(cfg, faulters)
    && forall i :: 0 <= i < |run| ==> Leads(cfg, trace[i], run[i], trace[i + 1])
  }

  /** Some run of some interleaving visits `s`. */
  ghost predicate Reachable(cfg: Config, faulters: nat, s: State)
    requires cfg.Valid()
  {
    exists trace, run :: Visits(cfg, faulters, trace, run) && s == trace[|run|]
  }

  lemma {:induction false} VisitedInv(cfg: Config, faulters: nat, trace: seq<State>, run: seq<Action>, i: nat)
    requires cfg.Valid() && Visits(cfg, faulters, trace, run) && i <= |run|
    ensures Inv(cfg, trace[i])
  {
    hide Inv, Shaped, Enabled, Next, Start;
    if i == 0 {
      StartInv(cfg, faulters);
    } else {
      VisitedInv(cfg, faulters, trace, run, i - 1);
      assert Leads(cfg, trace[i - 1], run[i - 1], trace[i]);
      NextInv(cfg, trace[i - 1], run[i - 1]);
    }
  }

  lemma ReachableInv(cfg: Config, faulters: nat, s: State)
    requires cfg.Valid() && Reachable(cfg, faulters, s)
    ensures Inv(cfg, s)
  {
    hide Inv;
    var trace, run :| Visits(cfg, faulters, trace, run) && s == trace[|run|];
    VisitedInv(cfg, faulters, trace, run, |run|);
  }
}
