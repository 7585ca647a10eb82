/** What the eviction loop asks of a policy, for whichever policy is installed. */
module Policies {
  import opened Chunks
  import opened LearnedPolicies
  import opened DeclaredPolicies

  datatype Policy =
    | NoPolicy
    | Lru
    | Learned(learned: LearnedPolicy)
    | Declared(declared: DeclaredPolicy)

  /** A policy's state as a value. */
  datatype PolicyState =
    | NoState
    | LruState
    | LearnedState(successor: seq<nat>, lastFetched: nat)
    | DeclaredState(slots: seq<nat>, pos: int, protectCurrent: bool, signalPre: bool)
  {
    ghost predicate Ok(n: nat) {
      match this
      case LearnedState(successor, lastFetched) =>
        |successor| == n && SuccessorTable(successor) && (lastFetched == CHUNK_NONE || lastFetched < n)
      case _ => true
    }

    /** What the policy ranks a chunk by; the highest rank is evicted first. */
    ghost function Rank(chunks: seq<Chunk>, i: nat): int
      requires Ok(|chunks|) && i < |chunks|
    {
      match this
      case NoState => 0 - i as int
      case LruState => 0 - chunks[i].lastFaultSeq as int
      case LearnedState(successor, lastFetched) => ChainDist(successor, lastFetched, i)
      case DeclaredState(slots, pos, protectCurrent, signalPre) => CyclicDistance(slots, pos, protectCurrent, signalPre, i)
    }

    /** Hops to the next use of chunk `i`, as compared by the prefetch gate. */
    ghost function NextUse(i: nat): int
      requires LearnedState? ==> SuccessorTable(successor) && (lastFetched == CHUNK_NONE || lastFetched < |successor|)
    {
      match this
      case LearnedState(successor, lastFetched) =>
        var d := ChainDist(successor, lastFetched, i);
        if d == CHUNK_NONE then UNREACHABLE else d
      case DeclaredState(slots, pos, protectCurrent, signalPre) => CyclicDistance(slots, pos, protectCurrent, signalPre, i)
      case _ => UNREACHABLE
    }

    /** `next` is what the policy predicts to follow chunk `i`. */
    ghost predicate Predicts(i: nat, next: int)
      requires LearnedState? ==> SuccessorTable(successor) && i < |successor|
    {
      match this
      case LearnedState(successor, _) => next == Prediction(Hop(successor, i, 1))
      case DeclaredState(slots, _, _, _) => Follows(slots, i, next)
      case _ => next == -1
    }

    /** A declared chunk whose last use is followed by a chunk outside a table of `n`. */
    ghost predicate LinksOutside(n: nat, i: nat) {
      DeclaredState? && exists p: nat :: LastUse(slots, p, i) && n <= Slot(slots, p + 1) != CHUNK_NONE
    }

    /** `v` is evictable, no evictable chunk ranks higher, and of equals it comes first. */
    ghost predicate Chosen(chunks: seq<Chunk>, v: nat)
      requires Ok(|chunks|)
    {
      && Evictable(chunks, v)
      && forall u :: 0 <= u < |chunks| && Evictable(chunks, u) ==>
           Rank(chunks, u) < Rank(chunks, v) || (Rank(chunks, u) == Rank(chunks, v) && v <= u)
    }

    /** The outcome of a victim search: the chosen chunk, or none because there is none. */
    ghost predicate Selected(chunks: seq<Chunk>, v: nat)
      requires Ok(|chunks|)
    {
      if v == CHUNK_NONE then NoneEvictable(chunks) else Chosen(chunks, v)
    }
  }

  /** With a policy installed, the chosen victim has the furthest next use of all evictable chunks. */
  lemma ChosenIsColdest(p: PolicyState, chunks: seq<Chunk>, v: nat)
    requires p.Ok(|chunks|) && !p.NoState? && p.Chosen(chunks, v)
    ensures forall u :: 0 <= u < |chunks| && Evictable(chunks, u) ==> p.NextUse(u) <= p.NextUse(v)
  {
    forall u | 0 <= u < |chunks| && Evictable(chunks, u) ensures p.NextUse(u) <= p.NextUse(v) {
      assert p.Rank(chunks, u) <= p.Rank(chunks, v);
    }
  }

  /** As long as the declared policy finds an evictable chunk that is not declared, that is, never used
      again, it evicts no declared one. */
  lemma UndeclaredFirst(p: PolicyState, chunks: seq<Chunk>, v: nat)
    requires p.DeclaredState? && |p.slots| < UNREACHABLE && p.Chosen(chunks, v) && v in p.slots
    ensures forall u :: 0 <= u < |chunks| && Evictable(chunks, u) ==> u in p.slots
  {
    DistanceLaw(p.slots, p.pos, p.protectCurrent, p.signalPre, v);
    forall u | 0 <= u < |chunks| && Evictable(chunks, u) ensures u in p.slots {
      DistanceLaw(p.slots, p.pos, p.protectCurrent, p.signalPre, u);
      assert p.Rank(chunks, u) <= p.Rank(chunks, v);
    }
  }

  /** The learned victim is met no sooner along the chain than any other evictable chunk. */
  lemma VictimMetLast(p: PolicyState, chunks: seq<Chunk>, v: nat, u: nat)
    requires p.LearnedState? && p.Ok(|chunks|) && p.Chosen(chunks, v) && Evictable(chunks, u)
    ensures NoSooner(p.successor, p.lastFetched, v, u)
  {
    assert p.Rank(chunks, u) <= p.Rank(chunks, v);
    ChainDistIsFirst(p.successor, p.lastFetched, u);
    ChainDistIsFirst(p.successor, p.lastFetched, v);
    forall d, e | FirstHop(p.successor, p.lastFetched, u, d) && FirstHop(p.successor, p.lastFetched, v, e)
      ensures e == CHUNK_NONE || (d != CHUNK_NONE && d <= e)
    {
      FirstHopUnique(p.successor, p.lastFetched, u, d, ChainDist(p.successor, p.lastFetched, u));
      FirstHopUnique(p.successor, p.lastFetched, v, e, ChainDist(p.successor, p.lastFetched, v));
    }
  }

  /** What a prefetch's gate and a broken pin compare: the hops after which the chain first meets the
      chunk, the slots to its next declared use, and without either always "unreachable". */
  lemma NextUseMeans(p: PolicyState, n: nat, i: nat)
    requires p.Ok(n) && i < n
    ensures p.LearnedState? ==> exists d: nat :: FirstHop(p.successor, p.lastFetched, i, d)
                                          && p.NextUse(i) == if d == CHUNK_NONE then UNREACHABLE else d
    ensures p.DeclaredState? ==> p.NextUse(i) == CyclicDistance(p.slots, p.pos, p.protectCurrent, p.signalPre, i)
    ensures p.NoState? || p.LruState? ==> p.NextUse(i) == UNREACHABLE
  {
    if p.LearnedState? {
      ChainDistIsFirst(p.successor, p.lastFetched, i);
    }
  }

  /** A prediction misses the table exactly if it comes from a declared link that does; so learned
      predictions never do, nor those of a sequence declared from chunks of the table. */
  lemma PredictionInRange(p: PolicyState, n: nat, i: nat, next: int)
    requires p.Ok(n) && i < n && p.Predicts(i, next)
    ensures next >= n <==> p.LinksOutside(n, i)
    ensures p.DeclaredState? && (forall q :: 0 <= q < |p.slots| ==> p.slots[q] < n) ==> next < n
  {
    if p.DeclaredState? && i in p.slots {
      var q: nat :| LastUse(p.slots, q, i) && next == Prediction(Slot(p.slots, q + 1));
      assert forall q': nat :: LastUse(p.slots, q', i) ==> q' == q;
    }
  }

  ghost function Frame(policy: Policy): set<object> {
    match policy
    case Learned(learned) => {learned, learned.successor}
    case Declared(declared) => {declared}
    case _ => {}
  }

  /** What the hook run at a fault may change. */
  ghost function Learning(policy: Policy): set<object> {
    if policy.Learned? then Frame(policy) else {}
  }

  /** What a fault on chunk `c` teaches: the learned chain now leads from the last fetch to `c`, and every
      other link stays; no other policy learns from faults. */
  ghost predicate Learnt(before: PolicyState, after: PolicyState, c: nat) {
    if before.LearnedState? then
      && after.LearnedState? && after.lastFetched == c && |after.successor| == |before.successor|
      && forall x :: 0 <= x < |before.successor| ==> after.successor[x] == if x == before.lastFetched then c else before.successor[x]
    else after == before
  }

  ghost function StateOf(policy: Policy): PolicyState
    reads Frame(policy)
  {
    match policy
    case NoPolicy => NoState
    case Lru => LruState
    case Learned(learned) => LearnedState(learned.successor[..], learned.lastFetched)
    case Declared(declared) =>
      DeclaredState(declared.slots, declared.pos, declared.protectCurrent, declared.signalPre)
  }

  /** The first evictable chunk. */
  method DefaultSelectVictim(chunks: array<Chunk>) returns (best: nat)
    requires chunks.Length < CHUNK_NONE
    ensures NoState.Selected(chunks[..], best)
    ensures best != CHUNK_NONE ==> Evictable(chunks[..], best) && forall u :: 0 <= u < best ==> !Evictable(chunks[..], u)
  {
    for i := 0 to chunks.Length
      invariant forall j :: 0 <= j < i ==> !Evictable(chunks[..], j)
    {
      if chunks[i].state.Resident? && chunks[i].pin == 0 {
        return i;
      }
    }
    return CHUNK_NONE;
  }

  /** Among the first `i` chunks: the best evictable one, or none. */
  ghost predicate BestSoFar(p: PolicyState, chunks: seq<Chunk>, i: nat, best: nat)
    requires p.Ok(|chunks|) && i <= |chunks| < CHUNK_NONE
  {
    if best == CHUNK_NONE then forall u :: 0 <= u < i ==> !Evictable(chunks, u)
    else
      && best < i && Evictable(chunks, best)
      && forall u :: 0 <= u < i && Evictable(chunks, u) ==>
           p.Rank(chunks, u) < p.Rank(chunks, best) || (p.Rank(chunks, u) == p.Rank(chunks, best) && best <= u)
  }

  /** The least recently faulted evictable chunk. */
  method LruSelectVictim(chunks: array<Chunk>) returns (best: nat)
    requires chunks.Length < CHUNK_NONE
    ensures LruState.Selected(chunks[..], best)
    ensures best != CHUNK_NONE ==> Evictable(chunks[..], best)
    ensures best != CHUNK_NONE ==> forall u :: 0 <= u < chunks.Length && Evictable(chunks[..], u) ==>
              chunks[best].lastFaultSeq <= chunks[u].lastFaultSeq
  {
    best := CHUNK_NONE;
    var bestSeq := 0;
    for i := 0 to chunks.Length
      invariant BestSoFar(LruState, chunks[..], i, best)
      invariant best != CHUNK_NONE ==> bestSeq == chunks[best].lastFaultSeq
    {
      if chunks[i].state.Resident? && chunks[i].pin == 0 {
        if best == CHUNK_NONE || chunks[i].lastFaultSeq < bestSeq {
          best, bestSeq := i, chunks[i].lastFaultSeq;
        }
      }
    }
  }

  /** Along the chain `v` is first met no sooner than `u`; never is latest of all. */
  ghost predicate NoSooner(successor: seq<nat>, start: nat, v: nat, u: nat)
    requires SuccessorTable(successor) && (start == CHUNK_NONE || start < |successor|)
  {
    forall d, e :: FirstHop(successor, start, u, d) && FirstHop(successor, start, v, e) ==>
      e == CHUNK_NONE || (d != CHUNK_NONE && d <= e)
  }

  /** The evictable chunk furthest along the learned chain. */
  method LearnedSelectVictim(policy: LearnedPolicy, chunks: array<Chunk>) returns (best: nat)
    requires chunks.Length < CHUNK_NONE && policy.Valid() && policy.successor.Length == chunks.Length
    ensures LearnedState(policy.successor[..], policy.lastFetched).Selected(chunks[..], best)
    ensures best != CHUNK_NONE ==> Evictable(chunks[..], best)
    ensures best != CHUNK_NONE ==> forall u :: 0 <= u < chunks.Length && Evictable(chunks[..], u) ==>
              NoSooner(policy.successor[..], policy.lastFetched, best, u)
  {
    hide NoSooner, FirstHop;
    ghost var p := LearnedState(policy.successor[..], policy.lastFetched);
    var dist := policy.ComputeDist();
    best := CHUNK_NONE;
    var bestDist := 0;
    for i := 0 to chunks.Length
      invariant BestSoFar(p, chunks[..], i, best)
      invariant best != CHUNK_NONE ==> bestDist == p.Rank(chunks[..], best)
    {
      if chunks[i].state.Resident? && chunks[i].pin == 0 {
        var d := dist[i];
        if best == CHUNK_NONE || d > bestDist {
          best, bestDist := i, d;
        }
      }
    }
    if best != CHUNK_NONE {
      forall u | 0 <= u < chunks.Length && Evictable(chunks[..], u) ensures NoSooner(p.successor, p.lastFetched, best, u) {
        VictimMetLast(p, chunks[..], best, u);
      }
    }
  }

  /** The evictable chunk whose declared next use is furthest ahead. */
  method DeclaredSelectVictim(policy: DeclaredPolicy, chunks: array<Chunk>) returns (best: nat)
    requires chunks.Length < CHUNK_NONE
    ensures DeclaredState(policy.slots, policy.pos, policy.protectCurrent, policy.signalPre).Selected(chunks[..], best)
    ensures best != CHUNK_NONE ==> Evictable(chunks[..], best)
    ensures best in policy.slots && best != CHUNK_NONE && |policy.slots| < UNREACHABLE ==>
              forall u :: 0 <= u < chunks.Length && Evictable(chunks[..], u) ==> u in policy.slots
  {
    hide CyclicDistance;
    ghost var p := DeclaredState(policy.slots, policy.pos, policy.protectCurrent, policy.signalPre);
    best := CHUNK_NONE;
    var bestDist: int := -1;
    for i := 0 to chunks.Length
      invariant BestSoFar(p, chunks[..], i, best)
      invariant best != CHUNK_NONE ==> bestDist == p.Rank(chunks[..], best)
    {
      if chunks[i].state.Resident? && chunks[i].pin == 0 {
        var d := policy.Dist(i);
        if best == CHUNK_NONE || d > bestDist {
          best, bestDist := i, d;
        }
      }
    }
    if best != CHUNK_NONE && best in policy.slots && |policy.slots| < UNREACHABLE {
      UndeclaredFirst(p, chunks[..], best);
    }
  }

  method SelectVictim(policy: Policy, chunks: array<Chunk>) returns (victim: nat)
    requires chunks.Length < CHUNK_NONE && StateOf(policy).Ok(chunks.Length)
    ensures StateOf(policy).Selected(chunks[..], victim)
  {
    match policy
    case NoPolicy => victim := DefaultSelectVictim(chunks);
    case Lru => victim := LruSelectVictim(chunks);
    case Learned(learned) => victim := LearnedSelectVictim(learned, chunks);
    case Declared(declared) => victim := DeclaredSelectVictim(declared, chunks);
  }

  /** The declared policy's links are kept for the chunks of the table. */
  ghost predicate Linked(policy: Policy, n: nat)
    reads Frame(policy)
  {
    policy.Declared? ==> policy.declared.Valid() && policy.declared.nChunks == n
  }

  method PredictNext(policy: Policy, i: nat, ghost n: nat) returns (next: int)
    requires StateOf(policy).Ok(n) && Linked(policy, n) && i < n
    ensures StateOf(policy).Predicts(i, next)
  {
    match policy
    case Learned(learned) => next := learned.PredictNext(i);
    case Declared(declared) => next := declared.PredictNext(i);
    case _ => next := -1;
  }

  method NextUseDistance(policy: Policy, i: nat, ghost n: nat) returns (d: int)
    requires StateOf(policy).Ok(n) && i < n
    ensures d == StateOf(policy).NextUse(i)
  {
    match policy
    case Learned(learned) =>
      var dist := learned.ComputeDist();
      d := if dist[i] == CHUNK_NONE then UNREACHABLE else dist[i];
    case Declared(declared) =>
      d := declared.Dist(i);
    case _ =>
      d := UNREACHABLE;
  }
}
