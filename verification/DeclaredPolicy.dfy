/** The policy that is told the access sequence and ranks chunks by cyclic distance to their next slot. */
module DeclaredPolicies {
  import opened Arithmetic
  import opened Chunks

  /** The declared chunk at position `p` when the sequence repeats for ever. */
  function Slot(slots: seq<nat>, p: nat): nat
    requires |slots| > 0
  {
    slots[p % |slots|]
  }

  /** The first position in `from..until` whose slot is `x`; `until` when there is none. */
  function NextSlot(slots: seq<nat>, from: nat, until: nat, x: nat): (p: nat)
    requires |slots| > 0 && from <= until
    ensures from <= p <= until
    ensures p < until ==> Slot(slots, p) == x
    ensures forall j :: from <= j < p ==> Slot(slots, j) != x
    decreases until - from
  {
    if from == until || Slot(slots, from) == x then from else NextSlot(slots, from + 1, until, x)
  }

  /** Looking further ahead does not change what is found. */
  lemma NextSlotPrefix(slots: seq<nat>, from: nat, until: nat, later: nat, x: nat)
    requires |slots| > 0 && from <= until <= later
    ensures var p := NextSlot(slots, from, later, x);
            NextSlot(slots, from, until, x) == if p < until then p else until
  {
    var p, q := NextSlot(slots, from, later, x), NextSlot(slots, from, until, x);
    assert q < until ==> Slot(slots, q) == x;
    assert p < later ==> Slot(slots, p) == x;
  }

  /** One full cycle finds every declared chunk. */
  lemma NextInCycle(slots: seq<nat>, from: nat, x: nat)
    requires |slots| > 0 && x in slots
    ensures NextSlot(slots, from, from + |slots|, x) < from + |slots|
  {
    var q :| 0 <= q < |slots| && slots[q] == x;
    var k := Aligned(from, q, |slots|);
    assert Slot(slots, from + k) == x;
  }

  predicate Protected(slots: seq<nat>, base: nat, x: nat)
    requires |slots| > 0
  {
    Slot(slots, base) == x || (base > 0 && Slot(slots, base - 1) == x)
  }

  /** Where the search for the next use begins, counted from the position. */
  function FirstAhead(signalPre: bool): nat {
    if signalPre then 0 else 1
  }

  /** Next-use distance of `x` from consumption position `pos`. */
  function CyclicDistance(slots: seq<nat>, pos: int, protectCurrent: bool, signalPre: bool, x: nat): nat {
    var base: nat := if pos < 0 then 0 else pos;
    if |slots| == 0 then UNREACHABLE
    else if protectCurrent && Protected(slots, base, x) then 0
    else
      var from := base + FirstAhead(signalPre);
      var p := NextSlot(slots, from, from + |slots|, x);
      if p < from + |slots| then p - base else UNREACHABLE
  }

  /** The distance is 0 for the protected chunks, those of the current slot and of the one before it; for
      any other declared chunk the number of slots to its next one, the current slot counting as next in
      pre mode and as a whole cycle away in post mode; and unreachable for a chunk that is not declared. */
  lemma DistanceLaw(slots: seq<nat>, pos: int, protectCurrent: bool, signalPre: bool, x: nat)
    ensures x !in slots ==> CyclicDistance(slots, pos, protectCurrent, signalPre, x) == UNREACHABLE
    ensures var base: nat := if pos < 0 then 0 else pos;
            var d := CyclicDistance(slots, pos, protectCurrent, signalPre, x);
            x in slots ==>
              if protectCurrent && (Slot(slots, base) == x || (base > 0 && Slot(slots, base - 1) == x)) then d == 0
              else
                && FirstAhead(signalPre) <= d < FirstAhead(signalPre) + |slots| && Slot(slots, base + d) == x
                && forall q: nat :: base + FirstAhead(signalPre) <= q < base + d ==> Slot(slots, q) != x
  {
    var from := (if pos < 0 then 0 else pos) + FirstAhead(signalPre);
    if x in slots {
      NextInCycle(slots, from, x);
    } else if |slots| > 0 {
      NeverNext(slots, from, x);
    }
    hide Slot;
  }

  lemma NeverNext(slots: seq<nat>, from: nat, x: nat)
    requires |slots| > 0 && x !in slots
    ensures NextSlot(slots, from, from + |slots|, x) == from + |slots|
    ensures forall base: nat :: !Protected(slots, base, x)
  {
    forall p: nat ensures Slot(slots, p) != x {
      assert Slot(slots, p) in slots;
    }
  }

  /** Where chunk `x` last occurs among the first `n` declared slots; `n` when it does not. */
  function LastSlot(ids: seq<nat>, n: nat, x: nat): (p: nat)
    requires n <= |ids|
    ensures p <= n && (p < n ==> ids[p] == x && forall q :: p < q < n ==> ids[q] != x)
    ensures p == n ==> forall q :: 0 <= q < n ==> ids[q] != x
  {
    if n == 0 then 0
    else if ids[n - 1] == x then n - 1
    else
      var p := LastSlot(ids, n - 1, x);
      if p == n - 1 then n else p
  }

  /** The link out of the last occurrence of `x` among the first `n` slots. */
  function Link(ids: seq<nat>, n: nat, x: nat): nat
    requires n <= |ids|
  {
    var p := LastSlot(ids, n, x);
    if p < n then Slot(ids, p + 1) else CHUNK_NONE
  }

  /** `links` holds the link of every chunk, as far as the first `n` slots tell. */
  ghost predicate LinksOf(ids: seq<nat>, n: nat, links: seq<nat>)
    requires n <= |ids|
  {
    forall x :: 0 <= x < |links| ==> links[x] == Link(ids, n, x)
  }

  lemma LinksExtend(ids: seq<nat>, n: nat, links: seq<nat>)
    requires n < |ids| && LinksOf(ids, n, links)
    ensures LinksOf(ids, n + 1, if ids[n] < |links| then links[ids[n] := Slot(ids, n + 1)] else links)
  {
    var after := if ids[n] < |links| then links[ids[n] := Slot(ids, n + 1)] else links;
    forall x | 0 <= x < |after| ensures after[x] == Link(ids, n + 1, x) {
      assert links[x] == Link(ids, n, x);
    }
  }

  /** Slot `p` is the last of the sequence that declares `x`. */
  ghost predicate LastUse(slots: seq<nat>, p: nat, x: nat) {
    p < |slots| && slots[p] == x && forall q :: p < q < |slots| ==> slots[q] != x
  }

  /** After its last declared use, `x` is followed by `next`, cyclically; -1 if it is not declared. */
  ghost predicate Follows(slots: seq<nat>, x: nat, next: int) {
    if x in slots then exists p: nat :: LastUse(slots, p, x) && next == Prediction(Slot(slots, p + 1))
    else next == -1
  }

  lemma LinkFollows(slots: seq<nat>, x: nat)
    ensures Follows(slots, x, Prediction(Link(slots, |slots|, x)))
  {
    assert x in slots ==> LastUse(slots, LastSlot(slots, |slots|, x), x);
  }

  class DeclaredPolicy {
    const nChunks: nat
    const protectCurrent: bool
    const signalPre: bool
    var slots: seq<nat>
    var pos: int
    var nextInSeq: seq<nat>

    ghost predicate Valid()
      reads this
    {
      && (pos == -1 || 0 <= pos < |slots|)
      && |nextInSeq| == nChunks && LinksOf(slots, |slots|, nextInSeq)
    }

    constructor (nChunks: nat, protectCurrent: bool, signalPre: bool)
      ensures Valid() && slots == [] && pos == -1
      ensures this.nChunks == nChunks && this.protectCurrent == protectCurrent && this.signalPre == signalPre
    {
      this.nChunks, this.protectCurrent, this.signalPre := nChunks, protectCurrent, signalPre;
      slots, pos := [], -1;
      nextInSeq := seq(nChunks, i => CHUNK_NONE);
    }

    /** Installs the sequence; every declared chunk is linked to the slot after its last occurrence. */
    method DeclareSequence(ids: seq<nat>)
      requires Valid()
      modifies this
      ensures Valid() && slots == ids && pos == -1
      ensures forall x :: 0 <= x < nChunks ==> Follows(ids, x, Prediction(nextInSeq[x]))
    {
      slots, pos := ids, -1;
      nextInSeq := seq(nChunks, i => CHUNK_NONE);
      for p := 0 to |ids|
        invariant slots == ids && pos == -1 && |nextInSeq| == nChunks && LinksOf(ids, p, nextInSeq)
      {
        LinksExtend(ids, p, nextInSeq);
        var x := ids[p];
        if x < nChunks {
          nextInSeq := nextInSeq[x := ids[(p + 1) % |ids|]];
        }
      }
      forall x | 0 <= x < nChunks ensures Follows(ids, x, Prediction(nextInSeq[x])) {
        LinkFollows(ids, x);
      }
    }

    function Distance(x: nat): nat
      reads this
    {
      CyclicDistance(slots, pos, protectCurrent, signalPre, x)
    }

    method Dist(x: nat) returns (d: nat)
      ensures d == Distance(x) && (|slots| < UNREACHABLE ==> (d == UNREACHABLE <==> x !in slots))
    {
      DistanceLaw(slots, pos, protectCurrent, signalPre, x);
      if |slots| == 0 {
        return UNREACHABLE;
      }
      var base := if pos < 0 then 0 else pos;
      if protectCurrent {
        if slots[base % |slots|] == x {
          return 0;
        }
        if base > 0 && slots[(base - 1) % |slots|] == x {
          return 0;
        }
      }
      var d0 := if signalPre then 0 else 1;
      ghost var from := base + d0;
      ghost var next := NextSlot(slots, from, from + |slots|, x);
      for k := 0 to |slots|
        invariant from + k <= next
      {
        d := d0 + k;
        assert Slot(slots, from + k) == slots[(base + d) % |slots|];
        if slots[(base + d) % |slots|] == x {
          return d;
        }
      }
      return UNREACHABLE;
    }

    /** Moves to the next slot of `idx` after the current one; a chunk that is not declared moves nothing. */
    method OnAccess(idx: nat)
      requires Valid()
      modifies this`pos
      ensures Valid()
      ensures pos == if |slots| > 0 then Advanced(slots, old(pos), idx) else old(pos)
      ensures idx !in slots ==> pos == old(pos)
      ensures idx in slots ==> 0 <= pos < |slots| && slots[pos] == idx
    {
      if |slots| > 0 {
        AdvancedLaw(slots, pos, idx);
      }
      if |slots| == 0 {
        return;
      }
      var from := if pos < 0 then 0 else pos + 1;
      for k := 0 to |slots|
        invariant pos == old(pos) && from + k <= NextSlot(slots, from, from + |slots|, idx)
      {
        assert Slot(slots, from + k) == slots[(from + k) % |slots|];
        var q := (from + k) % |slots|;
        if slots[q] == idx {
          pos := q;
          return;
        }
      }
    }

    /** The chunk declared right after the last use of `idx`, cyclically; -1 for one that is not declared. */
    method PredictNext(idx: nat) returns (next: int)
      requires Valid()
      ensures idx < nChunks ==> Follows(slots, idx, next)
      ensures idx >= nChunks ==> next == -1
    {
      if idx >= nChunks {
        return -1;
      }
      LinkFollows(slots, idx);
      next := if nextInSeq[idx] == CHUNK_NONE then -1 else nextInSeq[idx];
    }
  }

  /** The position after a consumption signal for `idx`. */
  function Advanced(slots: seq<nat>, pos: int, idx: nat): int
    requires |slots| > 0 && -1 <= pos
  {
    var from := if pos < 0 then 0 else pos + 1;
    var p := NextSlot(slots, from, from + |slots|, idx);
    if p < from + |slots| then p % |slots| else pos
  }

  /** A signal moves the position to the chunk's first slot after the old one, wrapping round, and not at
      all if the chunk is not declared. */
  lemma AdvancedLaw(slots: seq<nat>, pos: int, idx: nat)
    requires |slots| > 0 && -1 <= pos
    ensures idx !in slots ==> Advanced(slots, pos, idx) == pos
    ensures idx in slots ==> exists p: nat ::
              && pos < p <= pos + |slots| && Slot(slots, p) == idx && Advanced(slots, pos, idx) == p % |slots|
              && forall q: nat :: pos < q < p ==> Slot(slots, q) != idx
  {
    if idx in slots {
      NextInCycle(slots, pos + 1, idx);
    } else {
      NeverNext(slots, pos + 1, idx);
    }
    hide Slot;
  }

  /** Consuming the next declared slot advances the position by exactly one, cyclically. */
  lemma InOrderAdvance(slots: seq<nat>, i: nat, pos: int)
    requires |slots| > 0 && pos == (if i == 0 then -1 else (i - 1) % |slots|)
    ensures Advanced(slots, pos, Slot(slots, i)) == i % |slots|
  {
    if i > 0 {
      Successor(i - 1, |slots|);
    }
  }
}
