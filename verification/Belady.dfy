/** The offline solver: Belady's rule run with a lazily cleaned max-heap. */
module Belady {
  import opened Demand
  import opened Optimality
  import opened MaxHeap

  const NEVER: nat := 0xFFFF_FFFF_FFFF_FFFF

  /** A next-use position as a heap priority: a chunk that is never used again ranks above all. */
  function Priority(ref: seq<nat>, i: nat, x: nat): nat
    requires i <= |ref|
  {
    var j := Next(ref, i, x);
    if j == |ref| then NEVER else j
  }

  // ---- occurrence queues ----

  /** The positions below `n` that reference `c`, in order. */
  function Positions(ref: seq<nat>, c: nat, n: nat): seq<nat>
    requires n <= |ref|
  {
    if n == 0 then [] else if ref[n - 1] == c then Positions(ref, c, n - 1) + [n - 1] else Positions(ref, c, n - 1)
  }

  /** The queue entry after those already consumed is the next use. */
  lemma {:induction false} NextByRank(ref: seq<nat>, c: nat, i: nat, n: nat)
    requires i <= n <= |ref|
    ensures |Positions(ref, c, i)| <= |Positions(ref, c, n)|
    ensures |Positions(ref, c, i)| < |Positions(ref, c, n)| ==>
              Next(ref, i, c) == Positions(ref, c, n)[|Positions(ref, c, i)|] < n
    ensures |Positions(ref, c, i)| == |Positions(ref, c, n)| ==> n <= Next(ref, i, c)
  {
    if i < n {
      NextByRank(ref, c, i, n - 1);
    }
  }

  /** `queues[c]` lists the positions of chunk `c` among the first `n` references. */
  ghost predicate Queues(ref: seq<nat>, queues: seq<seq<nat>>, n: nat)
    requires n <= |ref|
  {
    forall c :: 0 <= c < |queues| ==> queues[c] == Positions(ref, c, n)
  }

  /** `readPtr[c]` counts the references to chunk `c` before position `i`. */
  ghost predicate Consumed(ref: seq<nat>, readPtr: seq<nat>, i: nat)
    requires i <= |ref|
  {
    forall c :: 0 <= c < |readPtr| ==> readPtr[c] == |Positions(ref, c, i)|
  }

  /** Builds the occurrence queues; `nChunks` is one more than the largest id. */
  method Occurrences(ref: seq<nat>) returns (nChunks: nat, occurrence: array<seq<nat>>)
    ensures fresh(occurrence) && occurrence.Length == nChunks
    ensures forall j :: 0 <= j < |ref| ==> ref[j] < nChunks
    ensures Queues(ref, occurrence[..], |ref|)
  {
    nChunks := 0;
    for i := 0 to |ref|
      invariant forall j :: 0 <= j < i ==> ref[j] < nChunks
    {
      if ref[i] + 1 > nChunks {
        nChunks := ref[i] + 1;
      }
    }
    occurrence := new seq<nat>[nChunks](_ => []);
    for i := 0 to |ref|
      invariant Queues(ref, occurrence[..], i)
    {
      occurrence[ref[i]] := occurrence[ref[i]] + [i];
    }
  }

  /** Consumes the occurrence at position `i` and looks up the chunk's next use. */
  method NextPosition(ref: seq<nat>, i: nat, occurrence: array<seq<nat>>, readPtr: array<nat>) returns (nextPos: nat)
    requires i < |ref| && ref[i] < occurrence.Length == readPtr.Length
    requires Queues(ref, occurrence[..], |ref|) && Consumed(ref, readPtr[..], i)
    modifies readPtr
    ensures Consumed(ref, readPtr[..], i + 1)
    ensures nextPos == Priority(ref, i + 1, ref[i])
  {
    var c := ref[i];
    readPtr[c] := readPtr[c] + 1;
    NextByRank(ref, c, i + 1, |ref|);
    nextPos := if readPtr[c] < |occurrence[c]| then occurrence[c][readPtr[c]] else NEVER;
  }

  // ---- cache and heap ----

  ghost function Cached(inCache: seq<bool>): set<nat> {
    set c | 0 <= c < |inCache| && inCache[c]
  }

  /** A heap entry is live while its chunk is cached and still has that priority. */
  ghost predicate Live(inCache: seq<bool>, priority: seq<nat>, e: Entry)
    requires |inCache| == |priority|
  {
    e.chunk < |inCache| && inCache[e.chunk] && priority[e.chunk] == e.priority
  }

  /** Every cached chunk has exactly one live entry; every other entry lies behind position `i`. */
  ghost predicate HeapMatches(inCache: seq<bool>, priority: seq<nat>, h: multiset<Entry>, i: nat)
    requires |inCache| == |priority|
  {
    && (forall c :: 0 <= c < |inCache| && inCache[c] ==> h[Entry(priority[c], c)] == 1)
    && (forall e :: e in h ==> e.chunk < |inCache| && (Live(inCache, priority, e) || e.priority < i))
  }

  ghost predicate PrioritiesMatch(ref: seq<nat>, inCache: seq<bool>, priority: seq<nat>, i: nat)
    requires |inCache| == |priority| && i <= |ref|
  {
    forall c :: 0 <= c < |inCache| && inCache[c] ==> priority[c] == Priority(ref, i, c)
  }

  /** The first entry off a heap that matches a non-empty cache is live, and its chunk is furthest. */
  lemma FirstPopIsVictim(ref: seq<nat>, i: nat, inCache: seq<bool>, priority: seq<nat>, h: multiset<Entry>, top: Entry)
    requires i < |ref| <= NEVER && |inCache| == |priority|
    requires HeapMatches(inCache, priority, h, i) && PrioritiesMatch(ref, inCache, priority, i)
    requires ref[i] !in Cached(inCache) && Cached(inCache) != {}
    requires top in h && forall e :: e in h ==> e.priority <= top.priority
    ensures Live(inCache, priority, top)
    ensures Furthest(ref, i, Cached(inCache), top.chunk)
  {
    var c :| c in Cached(inCache);
    assert Entry(priority[c], c) in h;
    assert Next(ref, i, c) == Next(ref, i + 1, c);
    assert Live(inCache, priority, top);
    forall x | x in Cached(inCache) ensures Next(ref, i + 1, x) <= Next(ref, i + 1, top.chunk) {
      assert Entry(priority[x], x) in h;
      assert Next(ref, i, x) == Next(ref, i + 1, x);
      assert Next(ref, i, top.chunk) == Next(ref, i + 1, top.chunk);
    }
  }

  lemma Evict(inCache: seq<bool>, priority: seq<nat>, h: multiset<Entry>, i: nat, top: Entry)
    requires |inCache| == |priority| && HeapMatches(inCache, priority, h, i)
    requires Live(inCache, priority, top)
    ensures HeapMatches(inCache[top.chunk := false], priority, h - multiset{top}, i)
    ensures Cached(inCache[top.chunk := false]) == Cached(inCache) - {top.chunk}
  {
  }

  /** Serving chunk `c` gives it a new priority and one new entry; its old entry is now behind. */
  lemma Serve(ref: seq<nat>, i: nat, inCache: seq<bool>, priority: seq<nat>, h: multiset<Entry>, c: nat)
    requires i < |ref| <= NEVER && |inCache| == |priority| && c < |inCache| && c == ref[i]
    requires HeapMatches(inCache, priority, h, i) && PrioritiesMatch(ref, inCache, priority, i)
    ensures var p := Priority(ref, i + 1, c);
            HeapMatches(inCache[c := true], priority[c := p], h + multiset{Entry(p, c)}, i + 1)
    ensures PrioritiesMatch(ref, inCache[c := true], priority[c := Priority(ref, i + 1, c)], i + 1)
    ensures Cached(inCache[c := true]) == Cached(inCache) + {c}
  {
    var p := Priority(ref, i + 1, c);
    assert Entry(p, c) !in h;
    forall x | 0 <= x < |inCache| && x != c && inCache[x] ensures Priority(ref, i, x) == Priority(ref, i + 1, x) {
      assert Next(ref, i, x) == Next(ref, i + 1, x);
    }
  }

  /** What a search for a victim leaves behind: the furthest chunk is gone if there was one. */
  ghost predicate Searched(ref: seq<nat>, i: nat, before: seq<bool>, after: seq<bool>, priority: seq<nat>,
                           h: multiset<Entry>, evicted: bool)
    requires i < |ref| && |before| == |after| == |priority|
  {
    && HeapMatches(after, priority, h, i) && PrioritiesMatch(ref, after, priority, i)
    && evicted == (Cached(before) != {})
    && (!evicted ==> Cached(after) == {})
    && (evicted ==> exists v :: Furthest(ref, i, Cached(before), v) && Cached(after) == Cached(before) - {v})
  }

  lemma FirstPop(ref: seq<nat>, i: nat, inCache: seq<bool>, priority: seq<nat>, h: multiset<Entry>, top: Entry)
    requires i < |ref| <= NEVER && |inCache| == |priority|
    requires HeapMatches(inCache, priority, h, i) && PrioritiesMatch(ref, inCache, priority, i)
    requires ref[i] !in Cached(inCache) && (Cached(inCache) == {} ==> h == multiset{})
    requires top in h && forall e :: e in h ==> e.priority <= top.priority
    ensures Live(inCache, priority, top)
    ensures Searched(ref, i, inCache, inCache[top.chunk := false], priority, h - multiset{top}, true)
  {
    FirstPopIsVictim(ref, i, inCache, priority, h, top);
    Evict(inCache, priority, h, i, top);
  }

  /** Pops entries until one is live and drops its chunk from the cache; `discards` counts the stale
      ones met on the way.  A live entry comes first whenever the cache is not empty. */
  method EvictFurthest(ref: seq<nat>, i: nat, heap: Heap, inCache: array<bool>, currentPriority: array<nat>)
    returns (evicted: bool, ghost discards: int)
    requires i < |ref| <= NEVER && inCache.Length == currentPriority.Length
    requires heap.Valid() && ref[i] !in Cached(inCache[..])
    requires HeapMatches(inCache[..], currentPriority[..], heap.Contents(), i)
    requires PrioritiesMatch(ref, inCache[..], currentPriority[..], i)
    requires Cached(inCache[..]) == {} ==> heap.size == 0
    modifies heap, heap.data, inCache
    ensures heap.Valid() && heap.size <= old(heap.size) && discards == 0
    ensures Searched(ref, i, old(inCache[..]), inCache[..], currentPriority[..], heap.Contents(), evicted)
  {
    hide HeapMatches, PrioritiesMatch, Searched, MaxHeap.Ordered, Live;
    evicted, discards := false, 0;
    ghost var flags := inCache[..];
    var searching := true;
    while searching
      invariant heap.Valid() && heap.size <= old(heap.size) && discards == 0
      invariant searching ==> heap.Contents() == old(heap.Contents()) && inCache[..] == flags && !evicted
      invariant !searching ==> Searched(ref, i, flags, inCache[..], currentPriority[..], heap.Contents(), evicted)
      decreases searching, heap.size
    {
      var found, top := heap.PopMax();
      if !found {
        searching := false;
        NothingCached(ref, flags, currentPriority[..], old(heap.Contents()), i);
      } else {
        FirstPop(ref, i, flags, currentPriority[..], old(heap.Contents()), top);
        if inCache[top.chunk] && currentPriority[top.chunk] == top.priority {
          inCache[top.chunk] := false;
          assert inCache[..] == flags[top.chunk := false];
          evicted, searching := true, false;
        } else {
          discards := discards + 1;
        }
      }
    }
  }

  lemma NothingCached(ref: seq<nat>, inCache: seq<bool>, priority: seq<nat>, h: multiset<Entry>, i: nat)
    requires i < |ref| && |inCache| == |priority| && HeapMatches(inCache, priority, h, i) && h == multiset{}
    requires PrioritiesMatch(ref, inCache, priority, i)
    ensures Searched(ref, i, inCache, inCache, priority, h, false)
  {
  }

  /** One reference: Belady's rule, or nothing at all when there are no slots. */
  ghost predicate Step(ref: seq<nat>, k: nat, i: nat, s: set<nat>, s': set<nat>)
    requires i < |ref|
  {
    if k == 0 then s' == {} else GreedyStep(ref, k, i, s, s')
  }

  ghost predicate StepAt(ref: seq<nat>, k: nat, cs: seq<set<nat>>, j: nat)
    requires j < |ref| && j < |cs|
  {
    Step(ref, k, j, Before(cs, j), cs[j])
  }

  /** The caches after each reference served so far, and the misses they cost. */
  datatype Run = Run(cs: seq<set<nat>>, misses: nat)

  /** `run` serves the first `i` references and leaves cache `s`. */
  ghost predicate ServedBefore(ref: seq<nat>, k: nat, i: nat, run: Run, s: set<nat>)
    requires i <= |ref|
  {
    match run
    case Run(cs, misses) =>
      && |cs| == i && s == Before(cs, i) && misses == Misses(ref, cs, i)
      && forall j :: 0 <= j < i ==> StepAt(ref, k, cs, j)
  }

  function Served(ref: seq<nat>, i: nat, run: Run, s: set<nat>, s': set<nat>): Run
    requires i < |ref|
  {
    Run(run.cs + [s'], run.misses + if ref[i] in s then 0 else 1)
  }

  lemma ServeNext(ref: seq<nat>, k: nat, i: nat, run: Run, s: set<nat>, s': set<nat>)
    requires i < |ref| && ServedBefore(ref, k, i, run, s) && Step(ref, k, i, s, s')
    ensures ServedBefore(ref, k, i + 1, Served(ref, i, run, s, s'), s')
  {
    var cs' := run.cs + [s'];
    forall j | 0 <= j <= i ensures StepAt(ref, k, cs', j) {
      assert Before(cs', j) == Before(run.cs, j);
      if j < i {
        assert StepAt(ref, k, run.cs, j);
      }
    }
    MissesPrefix(ref, run.cs, cs', i);
  }

  lemma {:induction false} NoSlots(ref: seq<nat>, cs: seq<set<nat>>, i: nat)
    requires i <= |ref| && |cs| == |ref| && forall j :: 0 <= j < |ref| ==> StepAt(ref, 0, cs, j)
    ensures Before(cs, i) == {} && Misses(ref, cs, i) == i
  {
    if i > 0 {
      NoSlots(ref, cs, i - 1);
      assert StepAt(ref, 0, cs, i - 1);
    }
  }

  /** A run over the whole string costs the optimum. */
  lemma AllServed(ref: seq<nat>, k: nat, run: Run, s: set<nat>)
    requires ServedBefore(ref, k, |ref|, run, s)
    ensures Optimum(ref, k, run.misses)
  {
    if k == 0 {
      NoSlots(ref, run.cs, |ref|);
    } else {
      forall j | 0 <= j < |ref| ensures GreedyAt(ref, k, run.cs, j) {
        assert StepAt(ref, k, run.cs, j);
      }
      GreedyIsMinimum(ref, k, run.cs);
    }
  }

  /** The solver's arrays describe cache `s` before position `i`. */
  ghost predicate Describes(ref: seq<nat>, i: nat, s: set<nat>, inCache: seq<bool>, priority: seq<nat>, h: multiset<Entry>)
    requires i <= |ref|
  {
    && |inCache| == |priority| && Cached(inCache) == s
    && HeapMatches(inCache, priority, h, i) && PrioritiesMatch(ref, inCache, priority, i)
  }

  lemma DescribesServed(ref: seq<nat>, i: nat, s: set<nat>, inCache: seq<bool>, priority: seq<nat>, h: multiset<Entry>, c: nat)
    requires i < |ref| <= NEVER && c == ref[i] < |inCache| && Describes(ref, i, s, inCache, priority, h)
    ensures var p := Priority(ref, i + 1, c);
            Describes(ref, i + 1, s + {c}, inCache[c := true], priority[c := p], h + multiset{Entry(p, c)})
  {
    Serve(ref, i, inCache, priority, h, c);
  }

  lemma RoomMade(ref: seq<nat>, k: nat, i: nat, s: set<nat>, before: seq<bool>, after: seq<bool>, priority: seq<nat>,
                 h: multiset<Entry>, evicted: bool)
    requires i < |ref| && |before| == |after| == |priority| && s == Cached(before) && |s| == k && ref[i] !in s
    requires Searched(ref, i, before, after, priority, h, evicted)
    ensures k == 0 ==> !evicted && Cached(after) == {}
    ensures k > 0 ==> evicted && GreedyStep(ref, k, i, s, Cached(after) + {ref[i]}) && |Cached(after)| == k - 1
  {
    if evicted {
      var v :| Furthest(ref, i, s, v) && Cached(after) == s - {v};
    }
  }

  /** Serves a chunk that is cached: it gets its new priority and a new heap entry. */
  method Hit(ref: seq<nat>, i: nat, nextPos: nat, heap: Heap, inCache: array<bool>, currentPriority: array<nat>, ghost s: set<nat>)
    requires i < |ref| <= NEVER && ref[i] < inCache.Length == currentPriority.Length
    requires nextPos == Priority(ref, i + 1, ref[i]) && inCache[ref[i]]
    requires heap.Valid() && heap.size < heap.data.Length
    requires Describes(ref, i, s, inCache[..], currentPriority[..], heap.Contents())
    modifies heap, heap.data, currentPriority
    ensures heap.Valid() && heap.size == old(heap.size) + 1
    ensures Describes(ref, i + 1, s, inCache[..], currentPriority[..], heap.Contents())
  {
    var c := ref[i];
    DescribesServed(ref, i, s, inCache[..], currentPriority[..], heap.Contents(), c);
    assert inCache[..][c := true] == inCache[..] && s + {c} == s;
    currentPriority[c] := nextPos;
    heap.Push(nextPos, c);
  }

  /** Caches a missing chunk. */
  method Insert(ref: seq<nat>, i: nat, nextPos: nat, heap: Heap, inCache: array<bool>, currentPriority: array<nat>, ghost s: set<nat>)
    requires i < |ref| <= NEVER && ref[i] < inCache.Length == currentPriority.Length
    requires nextPos == Priority(ref, i + 1, ref[i])
    requires heap.Valid() && heap.size < heap.data.Length
    requires Describes(ref, i, s, inCache[..], currentPriority[..], heap.Contents())
    modifies heap, heap.data, inCache, currentPriority
    ensures heap.Valid() && heap.size == old(heap.size) + 1
    ensures Describes(ref, i + 1, s + {ref[i]}, inCache[..], currentPriority[..], heap.Contents())
  {
    var c := ref[i];
    DescribesServed(ref, i, s, inCache[..], currentPriority[..], heap.Contents(), c);
    inCache[c] := true;
    currentPriority[c] := nextPos;
    heap.Push(nextPos, c);
  }

  /** Serves `ref[i]`, whose next use is `nextPos`, with `cacheSize` slots taken. */
  method Reference(ref: seq<nat>, i: nat, nextPos: nat, capacity: nat, cacheSize: nat,
                   heap: Heap, inCache: array<bool>, currentPriority: array<nat>, ghost s: set<nat>)
    returns (miss: bool, cacheSize': nat, ghost discards: int, ghost s': set<nat>)
    requires i < |ref| <= NEVER && ref[i] < inCache.Length == currentPriority.Length
    requires nextPos == Priority(ref, i + 1, ref[i])
    requires heap.Valid() && heap.size < heap.data.Length
    requires Describes(ref, i, s, inCache[..], currentPriority[..], heap.Contents())
    requires cacheSize == |s| <= capacity && (capacity == 0 ==> heap.size == 0)
    modifies heap, heap.data, inCache, currentPriority
    ensures heap.Valid() && heap.size <= old(heap.size) + 1 && (capacity == 0 ==> heap.size == 0)
    ensures miss == (ref[i] !in s) && discards == 0
    ensures Step(ref, capacity, i, s, s') && cacheSize' == |s'| <= capacity
    ensures Describes(ref, i + 1, s', inCache[..], currentPriority[..], heap.Contents())
  {
    discards, cacheSize', s' := 0, cacheSize, s;
    miss := !inCache[ref[i]];
    if inCache[ref[i]] {
      Hit(ref, i, nextPos, heap, inCache, currentPriority, s);
      return;
    }
    if cacheSize' == capacity {
      var evicted;
      evicted, discards := EvictFurthest(ref, i, heap, inCache, currentPriority);
      s' := Cached(inCache[..]);
      RoomMade(ref, capacity, i, s, old(inCache[..]), inCache[..], currentPriority[..], heap.Contents(), evicted);
      if evicted {
        cacheSize' := cacheSize' - 1;
      }
    }
    if cacheSize' < capacity {
      Insert(ref, i, nextPos, heap, inCache, currentPriority, s');
      s' := s' + {ref[i]};
      cacheSize' := cacheSize' + 1;
    } else {
      DescribesNothing(ref, i, inCache[..], currentPriority[..], heap.Contents());
    }
  }

  lemma DescribesNothing(ref: seq<nat>, i: nat, inCache: seq<bool>, priority: seq<nat>, h: multiset<Entry>)
    requires i < |ref| && Describes(ref, i, {}, inCache, priority, h)
    ensures Describes(ref, i + 1, {}, inCache, priority, h)
  {
    forall c | 0 <= c < |inCache| ensures !inCache[c] {
      assert c !in Cached(inCache);
    }
  }

  /** The solver's working arrays. */
  datatype Tables = Tables(occurrence: array<seq<nat>>, readPtr: array<nat>, currentPriority: array<nat>,
                           inCache: array<bool>, heap: Heap)

  /** Before position `i` the tables describe cache `s`, and the heap has at most `i` entries. */
  ghost predicate Holds(t: Tables, ref: seq<nat>, capacity: nat, i: nat, s: set<nat>, cacheSize: nat)
    requires i <= |ref|
    reads t.occurrence, t.readPtr, t.currentPriority, t.inCache, t.heap, t.heap.data
  {
    match t
    case Tables(occurrence, readPtr, currentPriority, inCache, heap) =>
      && readPtr != currentPriority && occurrence.Length == readPtr.Length == inCache.Length
      && (forall j :: 0 <= j < |ref| ==> ref[j] < inCache.Length)
      && heap.Valid() && heap.size <= i && heap.data.Length == |ref| + 1
      && Queues(ref, occurrence[..], |ref|) && Consumed(ref, readPtr[..], i)
      && Describes(ref, i, s, inCache[..], currentPriority[..], heap.Contents())
      && cacheSize == |s| <= capacity && (capacity == 0 ==> heap.size == 0)
  }

  method SetUp(ref: seq<nat>, capacity: nat) returns (t: Tables)
    ensures fresh(t.readPtr) && fresh(t.currentPriority) && fresh(t.inCache) && fresh(t.heap) && fresh(t.heap.data)
    ensures Holds(t, ref, capacity, 0, {}, 0)
  {
    var nChunks, occurrence := Occurrences(ref);
    var readPtr := new nat[nChunks](_ => 0);
    var currentPriority := new nat[nChunks](_ => 0);
    var inCache := new bool[nChunks](_ => false);
    var heap := new Heap(|ref| + 1);
    t := Tables(occurrence, readPtr, currentPriority, inCache, heap);
    assert Cached(inCache[..]) == {};
  }

  /** Serves the reference at position `i`. */
  method Advance(t: Tables, ref: seq<nat>, capacity: nat, i: nat, cacheSize: nat, ghost s: set<nat>)
    returns (miss: bool, cacheSize': nat, ghost s': set<nat>, ghost discards: int, ghost size: nat)
    requires i < |ref| <= NEVER && Holds(t, ref, capacity, i, s, cacheSize)
    modifies t.readPtr, t.currentPriority, t.inCache, t.heap, t.heap.data
    ensures Holds(t, ref, capacity, i + 1, s', cacheSize')
    ensures Step(ref, capacity, i, s, s') && miss == (ref[i] !in s) && discards == 0
    ensures size == t.heap.size <= i + 1
  {
    var nextPos := NextPosition(ref, i, t.occurrence, t.readPtr);
    ghost var consumed := t.readPtr[..];
    miss, cacheSize', discards, s' := Reference(ref, i, nextPos, capacity, cacheSize, t.heap, t.inCache, t.currentPriority, s);
    assert t.readPtr[..] == consumed;
    size := t.heap.size;
  }

  /** Serves the whole string. */
  method ServeAll(t: Tables, ref: seq<nat>, capacity: nat)
    returns (misses: nat, ghost discards: int, ghost peak: nat, ghost run: Run, ghost s: set<nat>)
    requires |ref| <= NEVER && Holds(t, ref, capacity, 0, {}, 0)
    modifies t.readPtr, t.currentPriority, t.inCache, t.heap, t.heap.data
    ensures ServedBefore(ref, capacity, |ref|, run, s) && run.misses == misses
    ensures discards == 0 && peak <= |ref|
  {
    hide Holds;
    misses, discards, peak := 0, 0, 0;
    var cacheSize := 0;
    s, run := {}, Run([], 0);
    for i := 0 to |ref|
      invariant ServedBefore(ref, capacity, i, run, s) && run.misses == misses
      invariant Holds(t, ref, capacity, i, s, cacheSize)
      invariant discards == 0 && peak <= i
    {
      var miss;
      ghost var s', met, size;
      miss, cacheSize, s', met, size := Advance(t, ref, capacity, i, cacheSize, s);
      ServeNext(ref, capacity, i, run, s, s');
      run, s := Served(ref, i, run, s, s'), s';
      if miss {
        misses := misses + 1;
      }
      discards := discards + met;
      peak := if size > peak then size else peak;
    }
  }

  /** Computes the least number of misses of any demand schedule with `capacity` slots.
      `discards` counts stale heap entries met while looking for a victim; `peak` is the largest
      heap size reached. */
  method BeladySimulate(ref: seq<nat>, capacity: nat)
    returns (misses: nat, totalRefs: nat, ghost discards: int, ghost peak: nat)
    requires |ref| <= NEVER
    ensures totalRefs == |ref|
    ensures Optimum(ref, capacity, misses)
    ensures if capacity > 0 then MinimumMisses(ref, capacity, misses) else misses == |ref|
    ensures discards == 0 && peak <= |ref|
  {
    misses, totalRefs, discards, peak := 0, |ref|, 0, 0;
    if |ref| == 0 {
      AllServed(ref, capacity, Run([], 0), {});
      return;
    }
    var t := SetUp(ref, capacity);
    ghost var run, s;
    misses, discards, peak, run, s := ServeAll(t, ref, capacity);
    AllServed(ref, capacity, run, s);
  }
}
