/** The multi-threaded replay driver: every thread walks the same steps, at most a window ahead.

    Step `s` stands for chunk `s % chunks` of pass `s / chunks`.  A transition is one thread executing
    up to its next shared access; the driver's lock is never held across a transition. */
module Lookahead {
  import opened DeclaredPolicies
  import opened Finite

  const PAGE := 4096

  datatype Config = Config(threads: nat, window: nat, lens: seq<nat>, passes: nat, allThreads: bool) {
    function Total(): nat {
      passes * |lens|
    }

    predicate Valid() {
      threads > 0 && |lens| > 0
    }
  }

  /** Where a thread is within its current step: waiting to begin it, announcing it before the read,
      reading its pages, announcing it once everyone has finished it, or (thread 0) waiting for that. */
  datatype At = Gate | Signal | Read | Announce | Await | Done

  datatype Thread = Thread(step: nat, at: At)

  datatype State = State(threads: seq<Thread>, completed: seq<nat>, notifyCount: nat,
                         notified: seq<nat>, trace: seq<nat>, bytes: nat)

  function Start(c: Config): State {
    State(seq(c.threads, i => Thread(0, if c.Total() == 0 then Done else Gate)),
          seq(c.Total(), i => 0), 0, [], [], 0)
  }

  predicate Shaped(c: Config, s: State) {
    && c.Valid() && |s.threads| == c.threads && |s.completed| == c.Total()
    && forall t :: 0 <= t < c.threads ==> s.threads[t].step <= c.Total() && (s.threads[t].at == Done <==> s.threads[t].step == c.Total())
  }

  /** Whether thread `t` can move: not if it has finished, or waits for a step that is not complete. */
  predicate Enabled(c: Config, s: State, t: nat)
    requires Shaped(c, s)
  {
    && t < c.threads
    && match s.threads[t].at
       case Gate => s.threads[t].step <= c.window || s.completed[s.threads[t].step - c.window - 1] >= c.threads
       case Await => s.completed[s.threads[t].step] >= c.threads
       case Done => false
       case _ => true
  }

  function Following(c: Config, step: nat): Thread {
    Thread(step + 1, if step + 1 == c.Total() then Done else Gate)
  }

  /** Where a thread goes once its own part of a step, and the announcement if it made one, is done. */
  function Finished(c: Config, t: nat, step: nat): Thread {
    if t == 0 then Thread(step, Await) else Following(c, step)
  }

  function Next(c: Config, s: State, t: nat): State
    requires Shaped(c, s) && Enabled(c, s, t)
  {
    var step := s.threads[t].step;
    match s.threads[t].at
    case Gate =>
      s.(threads := s.threads[t := Thread(step, if t == 0 && !c.allThreads then Signal else Read)])
    case Signal =>
      s.(threads := s.threads[t := Thread(step, Read)], notified := s.notified + [step])
    case Read =>
      var full := s.completed[step] + 1 == c.threads;
      s.(completed := s.completed[step := s.completed[step] + 1],
         notifyCount := s.notifyCount + (if full && c.allThreads then 1 else 0),
         threads := s.threads[t := if full && c.allThreads then Thread(step, Announce) else Finished(c, t, step)])
    case Announce =>
      s.(threads := s.threads[t := Finished(c, t, step)], notified := s.notified + [step])
    case Await =>
      s.(threads := s.threads[t := Following(c, step)],
         trace := s.trace + [step % |c.lens|], bytes := s.bytes + c.lens[step % |c.lens|])
    case Done => s
  }

  // ---- invariants ----

  /** Thread `t` has marked step `x` done. */
  predicate Passed(s: State, t: nat, x: nat)
    requires t < |s.threads|
  {
    x < s.threads[t].step || (x == s.threads[t].step && (s.threads[t].at == Announce || s.threads[t].at == Await))
  }

  function PassedBy(s: State, x: nat): set<nat> {
    set t | 0 <= t < |s.threads| && Passed(s, t, x)
  }

  ghost predicate Counted(c: Config, s: State)
    requires Shaped(c, s)
  {
    forall x :: 0 <= x < c.Total() ==> s.completed[x] == |PassedBy(s, x)|
  }

  /** Step `x` has been finished by every thread. */
  predicate Complete(c: Config, s: State, x: nat)
    requires Shaped(c, s) && x < c.Total()
  {
    s.completed[x] == c.threads
  }

  /** Thread `t` has begun step `x`. */
  predicate Begun(s: State, t: nat, x: nat)
    requires t < |s.threads|
  {
    x < s.threads[t].step || (x == s.threads[t].step && s.threads[t].at != Gate && s.threads[t].at != Done)
  }

  /** Nobody has begun a step whose window had not opened. */
  ghost predicate Windowed(c: Config, s: State)
    requires Shaped(c, s)
  {
    forall t, x :: 0 <= t < c.threads && c.window < x < c.Total() && Begun(s, t, x) ==> Complete(c, s, x - c.window - 1)
  }

  /** Only thread 0 signals early or waits for completion, and only in the matching mode. */
  ghost predicate Roles(c: Config, s: State)
    requires Shaped(c, s)
  {
    forall t :: 0 <= t < c.threads ==>
      && (s.threads[t].at == Signal ==> t == 0 && !c.allThreads)
      && (s.threads[t].at == Await ==> t == 0)
      && (s.threads[t].at == Announce ==> c.allThreads)
  }

  /** The steps 0..n in order. */
  function Upto(n: nat): (r: seq<nat>)
    ensures |r| == n && forall i :: 0 <= i < n ==> r[i] == i
  {
    seq(n, i => i)
  }

  /** Thread `t` owes an announcement. */
  predicate Owes(s: State, t: nat) {
    t < |s.threads| && s.threads[t].at == Announce
  }

  /** Steps below `k` are complete and announced; beyond `k` nothing is complete. */
  ghost predicate InOrder(c: Config, s: State, k: nat)
    requires Shaped(c, s)
  {
    && s.notified == Upto(k) && k <= c.Total()
    && (forall x :: 0 <= x < k ==> Complete(c, s, x))
    && (forall x :: k < x < c.Total() ==> !Complete(c, s, x))
  }

  /** At most one thread owes an announcement, that of step `k`, and one does exactly when `k` is complete. */
  ghost predicate OneOwes(c: Config, s: State, k: nat)
    requires Shaped(c, s)
  {
    && (forall t: nat :: Owes(s, t) ==> s.threads[t].step == k)
    && (forall t: nat, u: nat :: Owes(s, t) && Owes(s, u) ==> t == u)
    && (k < c.Total() ==> (Complete(c, s, k) <==> exists t: nat :: Owes(s, t)))
  }

  /** All-threads mode: the announcements made are those of a prefix of the steps, and the next one is
      owed by exactly one thread if its step is complete. */
  ghost predicate Announced(c: Config, s: State)
    requires Shaped(c, s)
  {
    var k := |s.notified|;
    && InOrder(c, s, k) && OneOwes(c, s, k)
    && s.notifyCount == k + if k < c.Total() && Complete(c, s, k) then 1 else 0
  }

  /** Thread-0 mode: thread 0 has announced the steps it has begun to read. */
  ghost predicate Signalled(c: Config, s: State)
    requires Shaped(c, s)
  {
    var first := s.threads[0];
    && s.notified == Upto(first.step + if first.at == Read || first.at == Await then 1 else 0)
    && s.notifyCount == 0
  }

  function BytesOf(c: Config, n: nat): nat
    requires c.Valid()
  {
    if n == 0 then 0 else BytesOf(c, n - 1) + c.lens[(n - 1) % |c.lens|]
  }

  /** The reference trace of the single-threaded driver after `n` steps. */
  function TraceOf(c: Config, n: nat): seq<nat>
    requires c.Valid()
  {
    seq(n, (i: nat) => i % |c.lens|)
  }

  /** Thread 0 has recorded exactly the steps it has left behind. */
  ghost predicate Recorded(c: Config, s: State)
    requires Shaped(c, s)
  {
    s.trace == TraceOf(c, s.threads[0].step) && s.bytes == BytesOf(c, s.threads[0].step)
  }

  /** Thread 0 has left behind only complete steps. */
  ghost predicate Awaited(c: Config, s: State)
    requires Shaped(c, s)
  {
    forall x :: 0 <= x < s.threads[0].step ==> Complete(c, s, x)
  }

  ghost predicate Inv(c: Config, s: State) {
    && Shaped(c, s) && Counted(c, s) && Windowed(c, s) && Roles(c, s) && Recorded(c, s) && Awaited(c, s)
    && (if c.allThreads then Announced(c, s) else Signalled(c, s))
  }

  // ---- completion ----

  /** A step is complete exactly when every thread has passed it. */
  lemma CompleteMeansAll(c: Config, s: State, x: nat)
    requires Shaped(c, s) && Counted(c, s) && x < c.Total()
    ensures s.completed[x] <= c.threads
    ensures Complete(c, s, x) <==> forall t :: 0 <= t < c.threads ==> Passed(s, t, x)
  {
    assert PassedBy(s, x) <= Ids(c.threads);
    Smaller(PassedBy(s, x), Ids(c.threads));
    if forall t :: 0 <= t < c.threads ==> Passed(s, t, x) {
      assert PassedBy(s, x) == Ids(c.threads);
    }
    if Complete(c, s, x) {
      forall t | 0 <= t < c.threads ensures Passed(s, t, x) {
        assert t in PassedBy(s, x);
      }
    }
  }

  /** Completion runs in step order. */
  lemma CompletionMonotone(c: Config, s: State, x: nat, y: nat)
    requires Inv(c, s) && x <= y < c.Total()
    ensures s.completed[y] <= s.completed[x]
    ensures Complete(c, s, y) ==> Complete(c, s, x)
  {
    assert PassedBy(s, y) <= PassedBy(s, x);
    Smaller(PassedBy(s, y), PassedBy(s, x));
    CompleteMeansAll(c, s, x);
  }

  lemma StartInv(c: Config)
    requires c.Valid()
    ensures Inv(c, Start(c))
  {
    var s := Start(c);
    forall x | 0 <= x < c.Total() ensures s.completed[x] == |PassedBy(s, x)| {
      assert PassedBy(s, x) == {};
    }
  }

  // ---- every transition keeps the invariant ----

  lemma ShapedNext(c: Config, s: State, t: nat)
    requires Shaped(c, s) && Enabled(c, s, t)
    ensures Shaped(c, Next(c, s, t))
  {
  }

  /** Only finishing the read of a step makes a thread pass it. */
  lemma PassedNext(c: Config, s: State, t: nat, x: nat)
    requires Inv(c, s) && Enabled(c, s, t)
    ensures PassedBy(Next(c, s, t), x) ==
            PassedBy(s, x) + if s.threads[t].at == Read && s.threads[t].step == x then {t} else {}
  {
    var s' := Next(c, s, t);
    forall u | 0 <= u < c.threads
      ensures u in PassedBy(s', x) <==> u in PassedBy(s, x) || (u == t && s.threads[t].at == Read && s.threads[t].step == x)
    {
      if u != t {
        assert s'.threads[u] == s.threads[u];
      }
    }
  }

  lemma CountedNext(c: Config, s: State, t: nat)
    requires Inv(c, s) && Enabled(c, s, t)
    ensures Shaped(c, Next(c, s, t)) && Counted(c, Next(c, s, t))
  {
    ShapedNext(c, s, t);
    var s' := Next(c, s, t);
    forall x | 0 <= x < c.Total() ensures s'.completed[x] == |PassedBy(s', x)| {
      PassedNext(c, s, t, x);
      assert s.completed[x] == |PassedBy(s, x)|;
      if s.threads[t].at == Read && s.threads[t].step == x {
        assert t !in PassedBy(s, x);
      } else {
        assert PassedBy(s', x) == PassedBy(s, x);
      }
    }
  }

  /** A complete step stays complete. */
  lemma CompleteStays(c: Config, s: State, t: nat, x: nat)
    requires Inv(c, s) && Enabled(c, s, t) && x < c.Total() && Complete(c, s, x)
    ensures Shaped(c, Next(c, s, t)) && Complete(c, Next(c, s, t), x)
  {
    CompleteMeansAll(c, s, x);
    assert Passed(s, t, x);
  }

  lemma WindowedNext(c: Config, s: State, t: nat)
    requires Inv(c, s) && Enabled(c, s, t)
    ensures Shaped(c, Next(c, s, t)) && Windowed(c, Next(c, s, t)) && Roles(c, Next(c, s, t))
  {
    ShapedNext(c, s, t);
    var s' := Next(c, s, t);
    forall u, x | 0 <= u < c.threads && c.window < x < c.Total() && Begun(s', u, x)
      ensures Complete(c, s', x - c.window - 1)
    {
      if !Begun(s, u, x) {
        CompleteMeansAll(c, s, x - c.window - 1);
      }
      CompleteStays(c, s, t, x - c.window - 1);
    }
  }

  lemma AwaitedNext(c: Config, s: State, t: nat)
    requires Inv(c, s) && Enabled(c, s, t)
    ensures Shaped(c, Next(c, s, t)) && Awaited(c, Next(c, s, t))
  {
    hide Counted, Windowed, Recorded, Announced, Signalled;
    ShapedNext(c, s, t);
    CompleteHere(c, s, t);
    forall x | 0 <= x < Next(c, s, t).threads[0].step ensures Complete(c, Next(c, s, t), x) {
      CompleteStays(c, s, t, x);
    }
  }

  /** Thread 0 goes on to the next step only when its own is complete. */
  lemma CompleteHere(c: Config, s: State, t: nat)
    requires Inv(c, s) && Enabled(c, s, t)
    ensures Shaped(c, Next(c, s, t))
    ensures forall x :: 0 <= x < Next(c, s, t).threads[0].step ==> Complete(c, s, x)
  {
    hide Windowed, Recorded, Announced, Signalled;
    ShapedNext(c, s, t);
    if t == 0 && s.threads[0].at == Await {
      CompleteMeansAll(c, s, s.threads[0].step);
    }
  }

  lemma RecordedNext(c: Config, s: State, t: nat)
    requires Inv(c, s) && Enabled(c, s, t)
    ensures Shaped(c, Next(c, s, t)) && Recorded(c, Next(c, s, t))
    ensures !c.allThreads ==> Signalled(c, Next(c, s, t))
  {
    ShapedNext(c, s, t);
    var s' := Next(c, s, t);
    if t == 0 {
      var step := s.threads[0].step;
      assert s.threads[0].at == Await ==> TraceOf(c, step + 1) == TraceOf(c, step) + [step % |c.lens|];
      assert Upto(step + 1) == Upto(step) + [step];
    } else {
      assert s'.threads[0] == s.threads[0];
    }
  }

  /** If all but `t`, who is still reading, have passed a step, whoever owes an announcement is past it. */
  lemma OwersHavePassed(c: Config, s: State, t: nat, x: nat)
    requires Shaped(c, s) && t < c.threads && s.threads[t].at == Read
    requires PassedBy(s, x) == Ids(c.threads) - {t}
    ensures forall u: nat :: Owes(s, u) ==> x <= s.threads[u].step
  {
    forall u: nat | Owes(s, u) ensures x <= s.threads[u].step {
      assert u in PassedBy(s, x);
    }
  }

  /** The step that becomes complete is the one after those announced, and nobody owed it before. */
  lemma CompletesInOrder(c: Config, s: State, t: nat)
    requires Inv(c, s) && c.allThreads && Enabled(c, s, t) && s.threads[t].at == Read
    requires s.completed[s.threads[t].step] + 1 == c.threads
    ensures s.threads[t].step == |s.notified| && !Complete(c, s, |s.notified|)
  {
    var x, k := s.threads[t].step, |s.notified|;
    var others := Ids(c.threads) - {t};
    assert t !in PassedBy(s, x) && PassedBy(s, x) <= others;
    Smaller(PassedBy(s, x), others);
    assert PassedBy(s, x) == others;
    OwersHavePassed(c, s, t, x);
    assert !Complete(c, s, x);
    if x > k {
      forall u | 0 <= u < c.threads ensures Passed(s, u, k) {
        assert u != t ==> u in PassedBy(s, x);
      }
      CompleteMeansAll(c, s, k);
    }
  }

  /** A thread that has not passed a step keeps it incomplete. */
  lemma NotComplete(c: Config, s: State, t: nat, x: nat)
    requires Shaped(c, s) && Counted(c, s) && x < c.Total() && t < c.threads && !Passed(s, t, x)
    ensures !Complete(c, s, x)
  {
    CompleteMeansAll(c, s, x);
  }

  /** What matters to the announcements is which steps are complete and who owes one. */
  lemma AnnouncedSame(c: Config, s: State, s': State)
    requires Shaped(c, s) && Shaped(c, s') && Announced(c, s)
    requires s'.notified == s.notified && s'.notifyCount == s.notifyCount
    requires forall x :: 0 <= x < c.Total() ==> (Complete(c, s', x) <==> Complete(c, s, x))
    requires forall u: nat :: Owes(s, u) || Owes(s', u) ==> Owes(s, u) && Owes(s', u) && s'.threads[u] == s.threads[u]
    ensures Announced(c, s')
  {
    if t: nat :| Owes(s, t) {
      assert Owes(s', t);
    }
    if t: nat :| Owes(s', t) {
      assert Owes(s, t);
    }
  }

  lemma AnnouncedQuiet(c: Config, s: State, t: nat)
    requires Inv(c, s) && c.allThreads && Enabled(c, s, t) && s.threads[t].at != Announce
    requires s.threads[t].at == Read ==> s.completed[s.threads[t].step] + 1 != c.threads
    ensures Shaped(c, Next(c, s, t)) && Announced(c, Next(c, s, t))
  {
    ShapedNext(c, s, t);
    var s' := Next(c, s, t);
    if s.threads[t].at == Read {
      NotComplete(c, s, t, s.threads[t].step);
    }
    assert s'.threads[t].at != Announce;
    AnnouncedSame(c, s, s');
  }

  lemma AnnouncedRead(c: Config, s: State, t: nat)
    requires Inv(c, s) && c.allThreads && Enabled(c, s, t) && s.threads[t].at == Read
    requires s.completed[s.threads[t].step] + 1 == c.threads
    ensures Shaped(c, Next(c, s, t)) && Announced(c, Next(c, s, t))
  {
    ShapedNext(c, s, t);
    var s', k := Next(c, s, t), |s.notified|;
    CompletesInOrder(c, s, t);
    assert forall u: nat :: !Owes(s, u);
    assert Owes(s', t) && Complete(c, s', k);
    forall u: nat | Owes(s', u) ensures u == t {
      assert u != t ==> Owes(s, u);
    }
    assert forall x :: 0 <= x < c.Total() && x != k ==> (Complete(c, s', x) <==> Complete(c, s, x));
    assert InOrder(c, s', k);
  }

  /** Once the announcement is made nobody owes one, and the next step is not complete. */
  lemma AnnounceSettles(c: Config, s: State, t: nat)
    requires Inv(c, s) && c.allThreads && Enabled(c, s, t) && s.threads[t].at == Announce
    ensures Shaped(c, Next(c, s, t)) && OneOwes(c, Next(c, s, t), |s.notified| + 1)
  {
    ShapedNext(c, s, t);
    var s', k := Next(c, s, t), |s.notified|;
    assert Owes(s, t);
    forall u: nat ensures !Owes(s', u) {
      assert Owes(s', u) ==> Owes(s, u);
    }
    if k + 1 < c.Total() {
      NotComplete(c, s, t, k + 1);
    }
  }

  lemma AnnouncedAnnounce(c: Config, s: State, t: nat)
    requires Inv(c, s) && c.allThreads && Enabled(c, s, t) && s.threads[t].at == Announce
    ensures Shaped(c, Next(c, s, t)) && Announced(c, Next(c, s, t))
  {
    ShapedNext(c, s, t);
    var s', k := Next(c, s, t), |s.notified|;
    assert Owes(s, t);
    assert Complete(c, s, k);
    AnnounceSettles(c, s, t);
    assert Upto(k + 1) == Upto(k) + [k];
    forall x | 0 <= x < c.Total() ensures Complete(c, s', x) <==> x <= k {
      assert Complete(c, s', x) <==> Complete(c, s, x);
    }
  }

  lemma NextInv(c: Config, s: State, t: nat)
    requires Inv(c, s) && Enabled(c, s, t)
    ensures Inv(c, Next(c, s, t))
  {
    CountedNext(c, s, t);
    WindowedNext(c, s, t);
    AwaitedNext(c, s, t);
    RecordedNext(c, s, t);
    if c.allThreads {
      match s.threads[t].at
      case Announce => AnnouncedAnnounce(c, s, t);
      case Read =>
        if s.completed[s.threads[t].step] + 1 == c.threads {
          AnnouncedRead(c, s, t);
        } else {
          AnnouncedQuiet(c, s, t);
        }
      case _ => AnnouncedQuiet(c, s, t);
    }
  }

  // ---- runs ----

  /** Thread `t` moves from `s` to `s1`. */
  ghost predicate Leads(c: Config, s: State, t: nat, s1: State) {
    Shaped(c, s) && Enabled(c, s, t) && s1 == Next(c, s, t)
  }

  /** `trace` lists the states visited by letting the threads in `schedule` move one after the other. */
  ghost predicate Visits(c: Config, trace: seq<State>, schedule: seq<nat>)
    requires c.Valid()
  {
    && |trace| == |schedule| + 1 && trace[0] == Start(c)
    && forall i :: 0 <= i < |schedule| ==> Leads(c, trace[i], schedule[i], trace[i + 1])
  }

  /** Some schedule of the threads visits `s`. */
  ghost predicate Reachable(c: Config, s: State)
    requires c.Valid()
  {
    exists trace, schedule :: Visits(c, trace, schedule) && s == trace[|schedule|]
  }

  lemma {:induction false} VisitedInv(c: Config, trace: seq<State>, schedule: seq<nat>, i: nat)
    requires c.Valid() && Visits(c, trace, schedule) && i <= |schedule|
    ensures Inv(c, trace[i])
  {
    hide Inv, Shaped, Enabled, Next, Start;
    if i == 0 {
      StartInv(c);
    } else {
      VisitedInv(c, trace, schedule, i - 1);
      assert Leads(c, trace[i - 1], schedule[i - 1], trace[i]);
      NextInv(c, trace[i - 1], schedule[i - 1]);
    }
  }

  lemma ReachableInv(c: Config, s: State)
    requires c.Valid() && Reachable(c, s)
    ensures Inv(c, s)
  {
    hide Inv;
    var trace, schedule :| Visits(c, trace, schedule) && s == trace[|schedule|];
    VisitedInv(c, trace, schedule, |schedule|);
  }

  /** Step `x` has been begun by some thread and is not complete. */
  ghost predicate InFlight(c: Config, s: State, x: nat)
    requires Shaped(c, s)
  {
    && x < c.Total() && !Complete(c, s, x)
    && exists t :: 0 <= t < c.threads && Begun(s, t, x)
  }

  /** A begun step is within the window of every incomplete one. */
  lemma WithinWindow(c: Config, s: State, x: nat, y: nat)
    requires Inv(c, s) && InFlight(c, s, x) && InFlight(c, s, y)
    ensures y <= x + c.window
  {
    if y > x + c.window {
      var t :| 0 <= t < c.threads && Begun(s, t, y);
      CompletionMonotone(c, s, x, y - c.window - 1);
    }
  }

  ghost function Flying(c: Config, s: State): set<nat>
    requires Shaped(c, s)
  {
    set x | 0 <= x < c.Total() && InFlight(c, s, x)
  }

  lemma {:induction false} IntervalSize(a: nat, n: nat, xs: set<nat>)
    requires forall x :: x in xs ==> a <= x < a + n
    ensures |xs| <= n
  {
    if n == 0 {
      assert xs == {};
    } else {
      IntervalSize(a, n - 1, xs - {a + n - 1});
    }
  }

  /** In every reachable state at most `window + 1` steps are begun but not complete, and completion
      has run in step order. */
  lemma LookaheadBound(c: Config, s: State)
    requires c.Valid() && Reachable(c, s)
    ensures Shaped(c, s) && |Flying(c, s)| <= c.window + 1
    ensures forall x, y :: 0 <= x <= y < c.Total() && Complete(c, s, y) ==> Complete(c, s, x)
  {
    ReachableInv(c, s);
    forall x, y | 0 <= x <= y < c.Total() && Complete(c, s, y) ensures Complete(c, s, x) {
      CompletionMonotone(c, s, x, y);
    }
    var flying := Flying(c, s);
    if flying != {} {
      var a := Least(flying);
      forall y | y in flying ensures a <= y < a + (c.window + 1) {
        WithinWindow(c, s, a, y);
      }
      IntervalSize(a, c.window + 1, flying);
    }
  }

  /** Step `y` is not complete: some thread has not finished its part of it. */
  ghost predicate Incomplete(s: State, y: nat) {
    exists u :: 0 <= u < |s.threads| && !Passed(s, u, y)
  }

  /** What holds a thread up in a reachable state is only this: it has finished, or it stands at the gate
      of a step beyond the window of some step that is not complete, or it is thread 0 and waits for the
      others to finish the step it has just read.  So every thread may use the whole window. */
  lemma HeldUpOnly(c: Config, s: State, t: nat)
    requires c.Valid() && Reachable(c, s) && t < c.threads
    ensures Shaped(c, s)
    ensures var step, at := s.threads[t].step, s.threads[t].at;
            Enabled(c, s, t) <==>
              && at != Done
              && (at == Gate ==> forall y :: 0 <= y < step - c.window ==> !Incomplete(s, y))
              && (at == Await ==> !Incomplete(s, step))
    ensures s.threads[t].at == Await ==> t == 0
  {
    ReachableInv(c, s);
    var step, at := s.threads[t].step, s.threads[t].at;
    if at == Gate && step > c.window {
      CompleteBelow(c, s, step - c.window - 1);
    } else if at == Await {
      CompleteMeansAll(c, s, step);
    }
    hide Counted, Windowed, Recorded, Awaited, Announced, Signalled, Passed;
  }

  /** A step is complete exactly if no step up to it is incomplete. */
  lemma CompleteBelow(c: Config, s: State, x: nat)
    requires Inv(c, s) && x < c.Total()
    ensures s.completed[x] <= c.threads
    ensures Complete(c, s, x) <==> forall y :: 0 <= y < x + 1 ==> !Incomplete(s, y)
  {
    hide Windowed, Recorded, Awaited, Announced, Signalled, Passed;
    CompleteMeansAll(c, s, x);
    assert !Incomplete(s, x) ==> Complete(c, s, x);
    forall y | 0 <= y < x + 1 && Complete(c, s, x) ensures !Incomplete(s, y) {
      CompletionMonotone(c, s, y, x);
      CompleteMeansAll(c, s, y);
    }
  }

  // ---- the window is used to the full ----

  /** Thread 1 has gone ahead through `k` steps while everyone else still stands at the first gate; if
      `reading`, it has begun one more. */
  function Ahead(c: Config, k: nat, reading: bool): State
    requires c.threads >= 2
  {
    Start(c).(threads := Start(c).threads[1 := Thread(k, if reading then Read else if k == c.Total() then Done else Gate)],
              completed := seq(c.Total(), x => if x < k then 1 else 0))
  }

  lemma GoesAhead(c: Config, k: nat)
    requires c.Valid() && c.threads >= 2 && k < c.Total() && k <= c.window
    ensures Leads(c, Ahead(c, k, false), 1, Ahead(c, k, true)) && Leads(c, Ahead(c, k, true), 1, Ahead(c, k + 1, false))
  {
    var s, s1, s2 := Ahead(c, k, false), Ahead(c, k, true), Ahead(c, k + 1, false);
    assert Next(c, s, 1).threads == s1.threads;
    assert s1.completed[k := s1.completed[k] + 1] == s2.completed;
    assert Next(c, s1, 1).threads == s2.threads;
  }

  lemma {:induction false} ReachesAhead(c: Config, k: nat) returns (trace: seq<State>, schedule: seq<nat>)
    requires c.Valid() && c.threads >= 2 && k <= c.Total() && k <= c.window + 1
    ensures Visits(c, trace, schedule) && trace[|schedule|] == Ahead(c, k, false)
  {
    if k == 0 {
      trace, schedule := [Start(c)], [];
      assert Ahead(c, 0, false).completed == Start(c).completed && Ahead(c, 0, false).threads == Start(c).threads;
    } else {
      hide Ahead, Leads, Start;
      trace, schedule := ReachesAhead(c, k - 1);
      GoesAhead(c, k - 1);
      trace, schedule := trace + [Ahead(c, k - 1, true), Ahead(c, k, false)], schedule + [1, 1];
    }
  }

  /** With at least two threads the bound is attained: some reachable state has `window + 1` steps begun
      but not complete, or all steps if there are fewer. */
  lemma WindowAttained(c: Config) returns (s: State)
    requires c.Valid() && c.threads >= 2
    ensures Reachable(c, s) && Shaped(c, s)
    ensures |Flying(c, s)| == if c.window + 1 < c.Total() then c.window + 1 else c.Total()
  {
    var k := if c.window + 1 < c.Total() then c.window + 1 else c.Total();
    var trace, schedule := ReachesAhead(c, k);
    s := Ahead(c, k, false);
    assert Reachable(c, s);
    ReachableInv(c, s);
    forall x: nat ensures x in Flying(c, s) <==> x < k {
      assert x < k ==> Begun(s, 1, x);
    }
    assert Flying(c, s) == Ids(k);
  }

  lemma Least(xs: set<nat>) returns (a: nat)
    requires xs != {}
    ensures a in xs && forall x :: x in xs ==> a <= x
  {
    a :| a in xs;
    var rest := xs - {a};
    if rest == {} {
      assert xs == {a};
    } else {
      var b := Least(rest);
      forall x | x in xs ensures a <= x || b <= x {
        assert x == a || x in rest;
      }
      if b < a {
        a := b;
      }
    }
  }

  ghost predicate Final(c: Config, s: State)
    requires Shaped(c, s)
  {
    forall t :: 0 <= t < c.threads ==> s.threads[t].at == Done
  }

  /** A thread on the least step any thread is on. */
  lemma {:induction false} Hindmost(c: Config, s: State, n: nat) returns (t: nat)
    requires Shaped(c, s) && 0 < n <= c.threads
    ensures t < n && forall u :: 0 <= u < n ==> s.threads[t].step <= s.threads[u].step
  {
    if n == 1 {
      t := 0;
    } else {
      t := Hindmost(c, s, n - 1);
      if s.threads[n - 1].step < s.threads[t].step {
        t := n - 1;
      }
    }
  }

  /** A thread on the least step is never held up at the gate. */
  lemma GateOpen(c: Config, s: State, t: nat)
    requires Inv(c, s) && t < c.threads && s.threads[t].at == Gate
    requires forall u :: 0 <= u < c.threads ==> s.threads[t].step <= s.threads[u].step
    ensures Enabled(c, s, t)
  {
    var step := s.threads[t].step;
    if step > c.window {
      CompleteMeansAll(c, s, step - c.window - 1);
    }
  }

  /** If thread 0 waits for a step that is not complete, another thread on that step can move. */
  lemma AwaitsOther(c: Config, s: State, t: nat) returns (u: nat)
    requires Inv(c, s) && t < c.threads && s.threads[t].at == Await && !Enabled(c, s, t)
    requires forall u :: 0 <= u < c.threads ==> s.threads[t].step <= s.threads[u].step
    ensures u < c.threads && Enabled(c, s, u)
  {
    var step := s.threads[t].step;
    CompleteMeansAll(c, s, step);
    u :| 0 <= u < c.threads && !Passed(s, u, step);
    assert s.threads[u].step == step;
    if s.threads[u].at == Gate {
      GateOpen(c, s, u);
    }
  }

  /** In every reachable state that is not final some thread can move. */
  lemma Progress(c: Config, s: State)
    requires c.Valid() && Reachable(c, s)
    ensures Shaped(c, s) && (Final(c, s) || exists t :: Enabled(c, s, t))
  {
    ReachableInv(c, s);
    var t := Hindmost(c, s, c.threads);
    match s.threads[t].at
    case Gate => GateOpen(c, s, t);
    case Await =>
      if !Enabled(c, s, t) {
        var u := AwaitsOther(c, s, t);
      }
    case Done => assert Final(c, s);
    case _ => assert Enabled(c, s, t);
  }

  /** In every reachable state the announcements made so far are the steps 0, 1, 2, ... in order, each
      once, in all-threads mode of steps that are complete, in thread-0 mode of the steps thread 0 has begun
      to read; only complete steps are on the trace; and in a final state every step has been announced, the
      count the driver asserts is met, and the trace and bytes are those of the single-threaded driver. */
  lemma AnnouncementsInOrder(c: Config, s: State)
    requires c.Valid() && Reachable(c, s)
    ensures Shaped(c, s) && s.notified == Upto(|s.notified|)
    ensures s.trace == TraceOf(c, |s.trace|) && s.bytes == BytesOf(c, |s.trace|)
    ensures |s.trace| <= c.Total() && forall x :: 0 <= x < |s.trace| ==> Complete(c, s, x)
    ensures c.allThreads ==> |s.notified| <= c.Total() && forall x :: 0 <= x < |s.notified| ==> Complete(c, s, x)
    ensures !c.allThreads ==> forall x :: 0 <= x < c.Total() ==>
              (Begun(s, 0, x) && s.threads[0] != Thread(x, Signal) <==> x < |s.notified|)
    ensures Final(c, s) ==> |s.notified| == |s.trace| == c.Total()
    ensures Final(c, s) && c.allThreads ==> s.notifyCount == c.Total()
  {
    ReachableInv(c, s);
  }

  // ---- what the announcements do to the declared policy ----

  /** The declared position after announcing, in this order, the chunks of the given steps. */
  ghost function PositionAfter(slots: seq<nat>, steps: seq<nat>): (pos: int)
    requires |slots| > 0
    ensures -1 <= pos
  {
    if steps == [] then -1
    else
      var last := |steps| - 1;
      Advanced(slots, PositionAfter(slots, steps[..last]), steps[last] % |slots|)
  }

  lemma {:induction false} InOrderPosition(slots: seq<nat>, n: nat)
    requires |slots| > 0 && slots == Upto(|slots|)
    ensures PositionAfter(slots, Upto(n)) == if n == 0 then -1 else (n - 1) % |slots|
  {
    if n > 0 {
      InOrderPosition(slots, n - 1);
      assert Upto(n)[..n - 1] == Upto(n - 1);
      assert Slot(slots, n - 1) == (n - 1) % |slots|;
      InOrderAdvance(slots, n - 1, PositionAfter(slots, Upto(n - 1)));
    }
  }

  /** However the threads interleave, with the chunks declared in index order the policy's position is
      always that of the last announced step: no announcement is skipped, repeated or reordered. */
  lemma PositionFollowsSteps(c: Config, s: State)
    requires c.Valid() && Reachable(c, s)
    ensures PositionAfter(Upto(|c.lens|), s.notified) == if s.notified == [] then -1 else (|s.notified| - 1) % |c.lens|
  {
    ReachableInv(c, s);
    InOrderPosition(Upto(|c.lens|), |s.notified|);
  }

  // ---- who reads which page ----

  /** The bytes of a chunk in its pages `k`, `k + 1`, ... that fall to thread `tid` of `threads`. */
  function StrideFrom(len: nat, threads: nat, tid: nat, k: nat): nat
    requires threads > 0
    decreases len - k * PAGE
  {
    if k * PAGE >= len then 0
    else (if k % threads == tid then if len - k * PAGE < PAGE then len - k * PAGE else PAGE else 0)
         + StrideFrom(len, threads, tid, k + 1)
  }

  /** One thread's pass over a chunk's pages; the bytes it takes. */
  method ReadStride(len: nat, threads: nat, tid: nat) returns (myBytes: nat, ghost pages: seq<nat>)
    requires threads > 0
    ensures myBytes == StrideFrom(len, threads, tid, 0)
    ensures forall p: nat :: p in pages <==> p * PAGE < len && p % threads == tid
    ensures forall i :: 0 < i < |pages| ==> pages[i - 1] < pages[i]
  {
    var off, page := 0, 0;
    myBytes, pages := 0, [];
    while off < len
      invariant off == page * PAGE && (page > 0 ==> off < len + PAGE)
      invariant forall p: nat :: p in pages <==> p < page && p % threads == tid
      invariant forall i :: 0 <= i < |pages| ==> pages[i] < page && (i > 0 ==> pages[i - 1] < pages[i])
      invariant myBytes + StrideFrom(len, threads, tid, page) == StrideFrom(len, threads, tid, 0)
      decreases len - off
    {
      if page % threads == tid {
        myBytes, pages := myBytes + (if len - off < PAGE then len - off else PAGE), pages + [page];
      }
      off, page := off + PAGE, page + 1;
    }
  }

  /** The bytes the first `n` threads take together. */
  function Shared(len: nat, threads: nat, n: nat, k: nat): nat
    requires threads > 0
  {
    if n == 0 then 0 else Shared(len, threads, n - 1, k) + StrideFrom(len, threads, n - 1, k)
  }

  lemma {:induction false} SharedPage(len: nat, threads: nat, n: nat, k: nat)
    requires threads > 0
    ensures k * PAGE >= len ==> Shared(len, threads, n, k) == 0
    ensures k * PAGE < len ==>
              Shared(len, threads, n, k) == Shared(len, threads, n, k + 1)
                + if k % threads < n then if len - k * PAGE < PAGE then len - k * PAGE else PAGE else 0
  {
    if n > 0 {
      SharedPage(len, threads, n - 1, k);
    }
  }

  /** The threads' strides split a chunk: from page `k` on they add up to what is left of it. */
  lemma {:induction false} StridesPartition(len: nat, threads: nat, k: nat)
    requires threads > 0
    ensures Shared(len, threads, threads, k) == if k * PAGE >= len then 0 else len - k * PAGE
    decreases len - k * PAGE
  {
    SharedPage(len, threads, threads, k);
    if k * PAGE < len {
      StridesPartition(len, threads, k + 1);
    }
  }
}
