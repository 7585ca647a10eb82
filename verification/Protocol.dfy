/** The asynchronous fetch protocol: one dispatcher, a pool of fetch workers, threads that signal
    consumption, and the faulting threads of the workload.

    A thread is a place in its code (`At`) and a flag saying whether it has taken the lock that place
    starts by taking.  One transition takes one lock, or runs one section of code up to the next lock;
    transitions of all threads interleave freely.  Nothing in a guard reads an entry's `acct` or `job`:
    these two only record who is responsible for the chunk and how its bytes are accounted. */
module Protocol {
  import opened Chunks
  import opened RetentionRings

  datatype Option<T> = None | Some(value: T)

  datatype Config = Config(lens: seq<nat>, budget: nat, workers: nat, notifiers: nat,
                           retention: bool, capacity: nat, prefetch: bool, depth: nat, guarded: bool) {
    predicate Valid() {
      workers > 0 && capacity > 0 && |lens| > 0 && forall c :: 0 <= c < |lens| ==> lens[c] > 0
    }

    function Threads(): nat {
      1 + workers + notifiers
    }
  }

  /** How often a demand fetch asks for budget again before it gives up. */
  const RETRIES := 200

  datatype Mutex = OfChunk(c: nat) | Budget | Pool

  datatype Kind = Demand | Prefetch

  datatype At =
    // the dispatcher (thread 0)
    | DIdle | DHandle(c: nat) | DOnFault(c: nat) | DEnqueue(c: nat) | DUnlock(c: nat) | DStopped
    // a fetch worker
    | WIdle | WExit
    | Take(k: Kind, c: nat) | PinTarget(c: nat) | Mark(c: nat)
    | Ensure(k: Kind, c: nat, left: nat) | Evict(k: Kind, c: nat, left: nat, v: nat)
    | UnpinDeclined(c: nat) | Abandon(k: Kind, c: nat)
    | Read(k: Kind, c: nat) | Continue(k: Kind, c: nat) | Commit(k: Kind, c: nat) | Publish(k: Kind, c: nat)
    | Need(c: nat) | Predict(c: nat, need: nat) | Push(c: nat, x: nat, need: nat) | Unpin(c: nat)
    | Retain(c: nat) | Unlock(k: Kind, c: nat) | Untrack(c: nat)
    // a thread signalling consumption
    | NIdle | NAccess(c: nat) | NRelease(c: nat)

  datatype Thread = Thread(at: At, inside: bool)

  datatype Acct = Free | Reserved | Counted

  datatype Job = NoJob | Preparing | Queued | Taken(t: nat)

  datatype Entry = Entry(state: ChunkState, pin: int, populated: nat, mapped: bool, acct: Acct, job: Job)

  /** A faulting thread is blocked on a chunk from its fault until it is woken; `read` says whether the
      dispatcher has taken its message. */
  datatype Faulter = Running | Blocked(c: nat, read: bool)

  datatype State = State(threads: seq<Thread>, chunks: seq<Entry>, faulters: seq<Faulter>, held: map<Mutex, nat>,
                         resident: int, reserved: int, fifo: seq<nat>,
                         queue: seq<nat>, pfQueue: seq<nat>, tracked: set<nat>, outstanding: int,
                         asleep: set<nat>, stop: bool, aborted: bool)

  /** What the scheduler and the environment decide: a chunk or a thread, a number of bytes, a yes or no. */
  datatype Choice = Choice(x: nat, amount: nat, yes: bool)

  datatype Action = Acquire(t: nat) | Run(t: nat, choice: Choice) | Touch(f: nat, c: nat)

  // ---- locks ----

  /** The lock a place starts by taking. */
  function Needs(at: At): Option<Mutex> {
    match at
    case DHandle(c) => Some(OfChunk(c))
    case Take(_, c) => Some(OfChunk(c))
    case Evict(_, _, _, v) => Some(OfChunk(v))
    case DOnFault(_) => Some(Budget)
    case PinTarget(_) => Some(Budget)
    case Ensure(_, _, _) => Some(Budget)
    case UnpinDeclined(_) => Some(Budget)
    case Commit(_, _) => Some(Budget)
    case Predict(_, _) => Some(Budget)
    case Unpin(_) => Some(Budget)
    case Retain(_) => Some(Budget)
    case NAccess(_) => Some(Budget)
    case NRelease(_) => Some(Budget)
    case DEnqueue(_) => Some(Pool)
    case WIdle => Some(Pool)
    case Need(_) => Some(Pool)
    case Push(_, _, _) => Some(Pool)
    case Untrack(_) => Some(Pool)
    case _ => None
  }

  /** The chunk whose lock is held throughout a place. */
  function Owned(at: At): Option<nat> {
    match at
    case DIdle => None
    case DHandle(_) => None
    case DStopped => None
    case WIdle => None
    case WExit => None
    case Take(_, _) => None
    case Untrack(_) => None
    case NIdle => None
    case NAccess(_) => None
    case NRelease(_) => None
    case _ => Some(at.c)
  }

  /** Every lock a thread holds. */
  function Locks(th: Thread): set<Mutex> {
    (if Owned(th.at).Some? then {OfChunk(Owned(th.at).value)} else {})
    + (if th.at.Evict? then {Budget} else {})
    + (if th.inside && Needs(th.at).Some? then {Needs(th.at).value} else {})
  }

  /** Thread `t` moves on, releasing the locks its new place does not hold. */
  function Move(s: State, t: nat, th: Thread): State
    requires t < |s.threads|
  {
    s.(threads := s.threads[t := th], held := s.held - (Locks(s.threads[t]) - Locks(th)))
  }

  function Goto(s: State, t: nat, at: At): State
    requires t < |s.threads|
  {
    Move(s, t, Thread(at, false))
  }

  // ---- shape ----

  predicate InRange(n: nat, ids: seq<nat>) {
    forall i :: 0 <= i < |ids| ==> ids[i] < n
  }

  /** The chunks a place names exist. */
  predicate Names(n: nat, at: At) {
    match at
    case DIdle => true
    case DStopped => true
    case WIdle => true
    case WExit => true
    case NIdle => true
    case Evict(_, c, _, v) => c < n && v < n
    case Push(c, x, need) => c < n && x < n && need > 0
    case Predict(c, need) => c < n && need > 0
    case _ => at.c < n
  }

  predicate Dispatching(at: At) {
    at.DIdle? || at.DHandle? || at.DOnFault? || at.DEnqueue? || at.DUnlock? || at.DStopped?
  }

  predicate Notifying(at: At) {
    at.NIdle? || at.NAccess? || at.NRelease?
  }

  predicate Shaped(cfg: Config, s: State) {
    && cfg.Valid()
    && |s.threads| == cfg.Threads() && |s.chunks| == |cfg.lens|
    && (forall t :: 0 <= t < |s.threads| ==> Names(|cfg.lens|, s.threads[t].at))
    && (forall t :: 0 <= t < |s.threads| ==> (Dispatching(s.threads[t].at) <==> t == 0))
    && (forall t :: 0 <= t < |s.threads| ==> (Notifying(s.threads[t].at) <==> t > cfg.workers))
    && InRange(|cfg.lens|, s.fifo) && InRange(|cfg.lens|, s.queue) && InRange(|cfg.lens|, s.pfQueue)
    && (forall f :: 0 <= f < |s.faulters| && s.faulters[f].Blocked? ==> s.faulters[f].c < |cfg.lens|)
  }

  function Start(cfg: Config, faulters: nat): State {
    State(seq(cfg.Threads(), t => Thread(if t == 0 then DIdle else if t <= cfg.workers then WIdle else NIdle, false)),
          seq(|cfg.lens|, c => Entry(Absent, 0, 0, false, Free, NoJob)), seq(faulters, f => Running), map[],
          0, 0, [], [], [], {}, 0, {}, false, false)
  }

  // ---- the kernel's side ----

  /** CONTINUE and WAKE: everyone blocked on the chunk runs again, and an unread message goes with him. */
  function Woken(faulters: seq<Faulter>, c: nat): (r: seq<Faulter>)
    ensures |r| == |faulters|
    ensures forall f :: 0 <= f < |faulters| ==>
              r[f] == if faulters[f].Blocked? && faulters[f].c == c then Running else faulters[f]
  {
    seq(|faulters|, f requires 0 <= f < |faulters| =>
      if faulters[f].Blocked? && faulters[f].c == c then Running else faulters[f])
  }

  function Sum(xs: seq<int>): int {
    if xs == [] then 0 else Sum(xs[..|xs| - 1]) + xs[|xs| - 1]
  }

  /** The bytes the kernel really holds for the region. */
  function Populated(s: State): int {
    Sum(seq(|s.chunks|, c requires 0 <= c < |s.chunks| => s.chunks[c].populated))
  }

  /** The two fatal branches of the reconciliation with the kernel's counter. */
  predicate Diverges(cfg: Config, s: State)
    requires |cfg.lens| > 0
  {
    Populated(s) + cfg.lens[0] < s.resident || Populated(s) > s.resident + s.reserved + cfg.lens[0]
  }

  function Reconciled(cfg: Config, s: State): State
    requires |cfg.lens| > 0
  {
    s.(aborted := s.aborted || Diverges(cfg, s))
  }

  function Abort(s: State): State {
    s.(aborted := true)
  }

  // ---- the dispatcher ----

  function DispatchNext(s: State, t: nat, choice: Choice): State
    requires t < |s.threads| && (choice.yes || (choice.x < |s.faulters| && s.faulters[choice.x].Blocked?))
  {
    if choice.yes then Goto(s.(stop := true, asleep := {}), t, DStopped)
    else
      var c := s.faulters[choice.x].c;
      Goto(s.(faulters := s.faulters[choice.x := Blocked(c, true)]), t, DHandle(c))
  }

  function HandleFault(s: State, t: nat, c: nat): State
    requires t < |s.threads| && c < |s.chunks|
  {
    match s.chunks[c].state
    case Resident => Goto(s.(faulters := Woken(s.faulters, c)), t, DIdle)
    case Fetching => Goto(s, t, DIdle)
    case Absent => Goto(s.(chunks := s.chunks[c := s.chunks[c].(state := Fetching, job := Preparing)]), t, DOnFault(c))
  }

  /** Signalling the pool's condition variable wakes one of the workers asleep, `w`, if there is any. */
  function EnqueueDemand(s: State, t: nat, c: nat, w: nat): State
    requires t < |s.threads| && c < |s.chunks|
  {
    if |s.queue| >= |s.chunks| + 1 then Abort(s)
    else Goto(s.(queue := s.queue + [c], chunks := s.chunks[c := s.chunks[c].(job := Queued)], asleep := s.asleep - {w}), t, DUnlock(c))
  }

  // ---- a fetch worker ----

  function PopJob(s: State, t: nat): State
    requires t < |s.threads| && InRange(|s.chunks|, s.queue)
  {
    if s.queue != [] then
      var c := s.queue[0];
      Goto(s.(queue := s.queue[1..], chunks := s.chunks[c := s.chunks[c].(job := Taken(t))]), t, Take(Demand, c))
    else if s.pfQueue != [] then Goto(s.(pfQueue := s.pfQueue[1..]), t, Take(Prefetch, s.pfQueue[0]))
    else if s.stop then Goto(s, t, WExit)
    else Goto(s.(asleep := s.asleep + {t}), t, WIdle)
  }

  function TakeChunk(s: State, t: nat, k: Kind, c: nat): State
    requires t < |s.threads| && c < |s.chunks|
  {
    match k
    case Demand => if s.chunks[c].state != Fetching then Abort(s) else Goto(s, t, Ensure(Demand, c, RETRIES))
    case Prefetch => if s.chunks[c].state != Absent then Goto(s, t, Untrack(c)) else Goto(s, t, PinTarget(c))
  }

  function Pinned(s: State, c: nat, delta: int): State
    requires c < |s.chunks|
  {
    s.(chunks := s.chunks[c := s.chunks[c].(pin := s.chunks[c].pin + delta)])
  }

  function MarkTarget(s: State, t: nat, c: nat): State
    requires t < |s.threads| && c < |s.chunks|
  {
    Goto(s.(chunks := s.chunks[c := s.chunks[c].(state := Fetching, job := Taken(t))]), t, Ensure(Prefetch, c, 0))
  }

  predicate Fits(cfg: Config, s: State, c: nat)
    requires c < |cfg.lens|
  {
    s.resident + s.reserved + cfg.lens[c] <= cfg.budget
  }

  predicate CanEvict(s: State, v: nat) {
    v < |s.chunks| && s.chunks[v].state.Resident? && s.chunks[v].pin == 0
  }

  ghost predicate NoVictim(s: State) {
    forall v: nat :: !CanEvict(s, v)
  }

  /** A retained chunk whose retention a demand fetch may break. */
  predicate Breakable(cfg: Config, s: State, v: nat) {
    cfg.retention && v in s.fifo && v < |s.chunks| && s.chunks[v].state.Resident?
  }

  ghost predicate NoneBreakable(cfg: Config, s: State) {
    forall v: nat :: !Breakable(cfg, s, v)
  }

  /** Dropping the retention of `v`, if it has one. */
  function ReleaseRetained(s: State, v: nat): State
    requires v < |s.chunks|
  {
    if v in s.fifo then Pinned(s.(fifo := Removed(s.fifo, v)), v, -1) else s
  }

  /** One round of the reserve-or-evict loop, under the budget lock. */
  ghost function EnsureBudget(cfg: Config, s0: State, t: nat, k: Kind, c: nat, left: nat, choice: Choice): State
    requires Shaped(cfg, s0) && t < |s0.threads| && c < |s0.chunks| && Choosable(cfg, s0, t, choice)
    requires s0.threads[t].at == Ensure(k, c, left)
  {
    var s := Reconciled(cfg, s0);
    if Fits(cfg, s0, c) then Goto(s.(reserved := s.reserved + cfg.lens[c],
                                    chunks := s.chunks[c := s.chunks[c].(acct := Reserved)]), t, Read(k, c))
    else if !NoVictim(s0) then
      if k.Prefetch? && choice.yes then Goto(s, t, UnpinDeclined(c))
      else Goto(s, t, Evict(k, c, left, choice.x))
    else if k.Prefetch? then Goto(s, t, UnpinDeclined(c))
    else if !NoneBreakable(cfg, s0) then Goto(ReleaseRetained(s, choice.x), t, Evict(k, c, left, choice.x))
    else if left > 0 then Goto(s, t, Ensure(k, c, left - 1))
    else Goto(s, t, Abandon(k, c))
  }

  function EvictChunk(cfg: Config, s: State, t: nat, k: Kind, c: nat, left: nat, v: nat): State
    requires t < |s.threads| && v < |s.chunks| && |s.chunks| == |cfg.lens|
  {
    if !CanEvict(s, v) then Abort(s)
    else
      var e := s.chunks[v].(state := Absent, populated := 0, mapped := false, acct := Free);
      Reconciled(cfg, Move(s.(chunks := s.chunks[v := e], resident := s.resident - cfg.lens[v]), t, Thread(Ensure(k, c, left), true)))
  }

  function AbandonFetch(s: State, t: nat, k: Kind, c: nat): State
    requires t < |s.threads| && c < |s.chunks|
  {
    Goto(s.(chunks := s.chunks[c := s.chunks[c].(state := Absent, job := NoJob)], faulters := Woken(s.faulters, c)),
         t, if k.Demand? then WIdle else Untrack(c))
  }

  function ReadMore(cfg: Config, s: State, t: nat, k: Kind, c: nat, amount: nat): State
    requires t < |s.threads| && c < |s.chunks| && |s.chunks| == |cfg.lens|
  {
    var filled := s.chunks[c].populated + amount;
    Goto(s.(chunks := s.chunks[c := s.chunks[c].(populated := filled)]), t, if filled == cfg.lens[c] then Continue(k, c) else Read(k, c))
  }

  function ContinueRange(s: State, t: nat, k: Kind, c: nat): State
    requires t < |s.threads| && c < |s.chunks|
  {
    Goto(s.(chunks := s.chunks[c := s.chunks[c].(mapped := true)], faulters := Woken(s.faulters, c)), t, Commit(k, c))
  }

  function CommitReserved(cfg: Config, s: State, t: nat, k: Kind, c: nat): State
    requires t < |s.threads| && c < |s.chunks| && |s.chunks| == |cfg.lens|
  {
    var e := s.chunks[c].(acct := Counted, pin := s.chunks[c].pin + if k.Demand? then 1 else 0);
    Goto(s.(chunks := s.chunks[c := e], reserved := s.reserved - cfg.lens[c], resident := s.resident + cfg.lens[c]), t, Publish(k, c))
  }

  function MakeResident(cfg: Config, s: State, t: nat, k: Kind, c: nat): State
    requires t < |s.threads| && c < |s.chunks|
  {
    Goto(s.(chunks := s.chunks[c := s.chunks[c].(state := Resident, job := NoJob)]), t,
         if k.Prefetch? then Retain(c) else if cfg.prefetch then Need(c) else Unpin(c))
  }

  function TopUpNeed(cfg: Config, s: State, t: nat, c: nat): State
    requires t < |s.threads|
  {
    Goto(s, t, if s.outstanding < cfg.depth then Predict(c, cfg.depth - s.outstanding) else Unpin(c))
  }

  function TopUpPredict(cfg: Config, s: State, t: nat, c: nat, need: nat, choice: Choice): State
    requires t < |s.threads|
  {
    Goto(s, t, if choice.yes && choice.x < |cfg.lens| && choice.x != c then Push(c, choice.x, need) else Unpin(c))
  }

  /** The state of the predicted chunk is read without its lock. */
  function TopUpPush(s: State, t: nat, c: nat, x: nat, need: nat, backoff: bool, w: nat): State
    requires t < |s.threads| && x < |s.chunks| && need > 0
  {
    var next := if need > 1 then Predict(c, need - 1) else Unpin(c);
    if x !in s.tracked && s.chunks[x].state.Absent? && !backoff && |s.pfQueue| < |s.chunks| + 1 then
      Goto(s.(tracked := s.tracked + {x}, pfQueue := s.pfQueue + [x], outstanding := s.outstanding + 1,
              asleep := s.asleep - {w}), t, next)
    else Goto(s, t, next)
  }

  function RetainTarget(cfg: Config, s: State, t: nat, c: nat): State
    requires t < |s.threads| && c < |s.chunks| && InRange(|s.chunks|, s.fifo) && cfg.capacity > 0
  {
    if cfg.retention then
      var room := if |s.fifo| >= cfg.capacity then Pinned(s, s.fifo[0], -1) else s;
      Goto(room.(fifo := Pushed(s.fifo, cfg.capacity, c)), t, Unlock(Prefetch, c))
    else Goto(Pinned(s, c, -1), t, Unlock(Prefetch, c))
  }

  function UnlockChunk(s: State, t: nat, k: Kind, c: nat): State
    requires t < |s.threads| && c < |s.chunks|
  {
    if s.chunks[c].state.Fetching? then Abort(s)
    else Goto(s, t, if k.Demand? then WIdle else Untrack(c))
  }

  function UntrackTarget(s: State, t: nat, c: nat): State
    requires t < |s.threads|
  {
    Goto(s.(outstanding := s.outstanding - 1, tracked := s.tracked - {c}), t, WIdle)
  }

  // ---- transitions ----

  /** The choices open to a thread whose turn it is. */
  ghost predicate Choosable(cfg: Config, s: State, t: nat, choice: Choice)
    requires Shaped(cfg, s) && t < |s.threads|
  {
    match s.threads[t].at
    case DIdle => choice.yes || (choice.x < |s.faulters| && s.faulters[choice.x].Blocked? && !s.faulters[choice.x].read)
    case Ensure(k, c, _) =>
      || Fits(cfg, s, c)
      || (if NoVictim(s) then k.Demand? && !NoneBreakable(cfg, s) ==> Breakable(cfg, s, choice.x)
          else CanEvict(s, choice.x) && (k.Prefetch? && choice.yes ==> cfg.guarded))
    case Read(_, c) => 0 < choice.amount <= cfg.lens[c] - s.chunks[c].populated
    case NIdle => choice.x < |s.chunks|
    case DEnqueue(_) => s.asleep != {} ==> choice.x in s.asleep
    case Push(_, _, _) => s.asleep != {} ==> choice.x in s.asleep
    case _ => true
  }

  ghost predicate CanRun(cfg: Config, s: State, t: nat, choice: Choice)
    requires Shaped(cfg, s)
  {
    && t < |s.threads|
    && (Needs(s.threads[t].at).Some? ==> s.threads[t].inside)
    && !s.threads[t].at.DStopped? && !s.threads[t].at.WExit?
    && Choosable(cfg, s, t, choice)
  }

  /** A worker asleep on the condition variable has to be woken before it can take the pool's lock again. */
  predicate CanAcquire(s: State, t: nat) {
    && t < |s.threads| && Needs(s.threads[t].at).Some? && !s.threads[t].inside
    && Needs(s.threads[t].at).value !in s.held
    && t !in s.asleep
  }

  predicate CanTouch(s: State, f: nat, c: nat) {
    f < |s.faulters| && s.faulters[f].Running? && c < |s.chunks| && !s.chunks[c].mapped
  }

  ghost predicate Enabled(cfg: Config, s: State, a: Action)
    requires Shaped(cfg, s)
  {
    && !s.aborted
    && match a
       case Acquire(t) => CanAcquire(s, t)
       case Run(t, choice) => CanRun(cfg, s, t, choice)
       case Touch(f, c) => CanTouch(s, f, c)
  }

  ghost function RunThread(cfg: Config, s: State, t: nat, choice: Choice): State
    requires Shaped(cfg, s) && CanRun(cfg, s, t, choice)
  {
    match s.threads[t].at
    case DIdle => DispatchNext(s, t, choice)
    case DHandle(c) => HandleFault(s, t, c)
    case DOnFault(c) => Goto(s, t, DEnqueue(c))
    case DEnqueue(c) => EnqueueDemand(s, t, c, choice.x)
    case DUnlock(c) => Goto(s, t, DIdle)
    case WIdle => PopJob(s, t)
    case Take(k, c) => TakeChunk(s, t, k, c)
    case PinTarget(c) => Goto(Pinned(s, c, 1), t, Mark(c))
    case Mark(c) => MarkTarget(s, t, c)
    case Ensure(k, c, left) => EnsureBudget(cfg, s, t, k, c, left, choice)
    case Evict(k, c, left, v) => EvictChunk(cfg, s, t, k, c, left, v)
    case UnpinDeclined(c) => Goto(Pinned(s, c, -1), t, Abandon(Prefetch, c))
    case Abandon(k, c) => AbandonFetch(s, t, k, c)
    case Read(k, c) => ReadMore(cfg, s, t, k, c, choice.amount)
    case Continue(k, c) => ContinueRange(s, t, k, c)
    case Commit(k, c) => CommitReserved(cfg, s, t, k, c)
    case Publish(k, c) => MakeResident(cfg, s, t, k, c)
    case Need(c) => TopUpNeed(cfg, s, t, c)
    case Predict(c, need) => TopUpPredict(cfg, s, t, c, need, choice)
    case Push(c, x, need) => TopUpPush(s, t, c, x, need, choice.yes, choice.x)
    case Unpin(c) => Goto(Pinned(s, c, -1), t, Unlock(Demand, c))
    case Retain(c) => RetainTarget(cfg, s, t, c)
    case Unlock(k, c) => UnlockChunk(s, t, k, c)
    case Untrack(c) => UntrackTarget(s, t, c)
    case NIdle => Goto(s, t, NAccess(choice.x))
    case NAccess(c) => Goto(s, t, if cfg.retention then NRelease(c) else NIdle)
    case NRelease(c) => Goto(ReleaseRetained(s, c), t, NIdle)
    case _ => s
  }

  ghost function Next(cfg: Config, s: State, a: Action): State
    requires Shaped(cfg, s) && Enabled(cfg, s, a)
  {
    match a
    case Acquire(t) =>
      s.(threads := s.threads[t := s.threads[t].(inside := true)], held := s.held[Needs(s.threads[t].at).value := t])
    case Run(t, choice) => RunThread(cfg, s, t, choice)
    case Touch(f, c) => s.(faulters := s.faulters[f := Blocked(c, false)])
  }
}
