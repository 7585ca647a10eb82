/** The bounded ring buffer of retained prefetch targets, oldest first. */
module RetentionRings {
  import opened Arithmetic
  import opened Finite

  /** `fifo` without the first occurrence of `x`. */
  function Removed(fifo: seq<nat>, x: nat): (rest: seq<nat>)
    ensures x !in fifo ==> rest == fifo
    ensures x in fifo ==> |rest| == |fifo| - 1
  {
    if fifo == [] then [] else if fifo[0] == x then fifo[1..] else [fifo[0]] + Removed(fifo[1..], x)
  }

  lemma {:induction false} RemovedAt(fifo: seq<nat>, x: nat, i: nat)
    requires i < |fifo| && fifo[i] == x && forall j :: 0 <= j < i ==> fifo[j] != x
    ensures Removed(fifo, x) == fifo[..i] + fifo[i + 1..]
  {
    if i > 0 {
      RemovedAt(fifo[1..], x, i - 1);
      assert [fifo[0]] + fifo[1..][..i - 1] == fifo[..i];
      assert fifo[1..][i..] == fifo[i + 1..];
    }
  }

  /** Releasing removes exactly `x` and keeps the others, in order and without repetition. */
  lemma {:induction false} RemovedKeeps(fifo: seq<nat>, x: nat)
    requires NoDuplicates(fifo)
    ensures NoDuplicates(Removed(fifo, x))
    ensures forall y :: y in Removed(fifo, x) <==> y in fifo && y != x
  {
    if fifo != [] && fifo[0] != x {
      RemovedKeeps(fifo[1..], x);
      var rest := Removed(fifo[1..], x);
      assert fifo == [fifo[0]] + fifo[1..];
      assert fifo[0] !in fifo[1..];
    } else if fifo != [] {
      assert fifo == [fifo[0]] + fifo[1..];
    }
  }

  /** `fifo` after retaining `x` with room for `cap` entries: the oldest entry makes way. */
  function Pushed(fifo: seq<nat>, cap: nat, x: nat): seq<nat> {
    (if |fifo| >= cap > 0 then fifo[1..] else fifo) + [x]
  }

  /** `s` with the entries after `i` moved down one place, as far as the hole at `j`. */
  function Hole(s: seq<nat>, i: nat, j: nat): (t: seq<nat>)
    requires i <= j < |s|
    ensures |t| == |s|
  {
    s[..i] + s[i + 1..j + 1] + s[j..]
  }

  lemma HoleMoves(s: seq<nat>, i: nat, j: nat)
    requires i <= j && j + 1 < |s|
    ensures Hole(s, i, j)[j := Hole(s, i, j)[j + 1]] == Hole(s, i, j + 1)
  {
  }

  lemma HoleEnds(s: seq<nat>, i: nat)
    requires i < |s|
    ensures Hole(s, i, i) == s
    ensures Hole(s, i, |s| - 1)[..|s| - 1] == s[..i] + s[i + 1..]
  {
  }

  function Unrolled(cells: seq<nat>, head: nat, length: nat): seq<nat>
    requires |cells| > 0
  {
    seq(length, (i: nat) => cells[(head + i) % |cells|])
  }

  class RetentionRing {
    const queue: array<nat>
    var head: nat
    var length: nat

    ghost predicate Valid()
      reads this
    {
      length <= queue.Length && head < queue.Length
    }

    /** The retained chunks, oldest first. */
    ghost function Contents(): (s: seq<nat>)
      requires Valid()
      reads this, queue
      ensures |s| == length && forall i :: 0 <= i < length ==> s[i] == At(i)
    {
      Unrolled(queue[..], head, length)
    }

    /** The entry in the cell that is `i` places after the head. */
    function Peek(i: nat): (x: nat)
      requires Valid() && i < length
      reads this, queue
      ensures x == Contents()[i]
    {
      assert Contents()[i] == At(i);
      queue[(head + i) % queue.Length]
    }

    ghost function At(i: nat): nat
      requires Valid()
      reads this, queue
    {
      queue[Cell(i)]
    }

    ghost function Cell(i: nat): nat
      requires Valid()
      reads this
    {
      (head + i) % queue.Length
    }

    constructor (cap: nat)
      requires cap > 0
      ensures Valid() && fresh(queue) && queue.Length == cap && Contents() == []
    {
      queue := new nat[cap](_ => 0);
      head, length := 0, 0;
    }

    /** Different entries occupy different cells, across the wrap-around too. */
    lemma Cells(i: nat, j: nat)
      requires Valid() && i < j < queue.Length
      ensures Cell(i) != Cell(j)
    {
      Wrap(head + i, queue.Length);
      Wrap(head + j, queue.Length);
    }

    static lemma Wrap(a: nat, n: nat)
      requires a < 2 * n
      ensures a % n == if a < n then a else a - n
    {
      if a < n {
        Modulo(0, n, a);
      } else {
        Modulo(1, n, a - n);
      }
    }

    /** Drops the oldest entry. */
    method DropOldest() returns (oldest: nat)
      requires Valid() && length > 0
      modifies this
      ensures Valid() && oldest == old(Contents())[0] && Contents() == old(Contents())[1..]
    {
      oldest := queue[head];
      assert Contents()[0] == At(0) && (head + 0) % queue.Length == head by {
        Wrap(head, queue.Length);
      }
      ghost var before := Contents();
      ghost var h := head;
      head := (head + 1) % queue.Length;
      length := length - 1;
      forall i | 0 <= i < length ensures Contents()[i] == before[1..][i] {
        Wrap(h + 1, queue.Length);
        Wrap(h + 1 + i, queue.Length);
        Wrap(head + i, queue.Length);
        assert before[i + 1] == queue[(h + (i + 1)) % queue.Length];
      }
    }

    /** Appends `x`; the caller has made room. */
    method Append(x: nat)
      requires Valid() && length < queue.Length
      modifies this, queue
      ensures Valid() && Contents() == old(Contents()) + [x]
    {
      ghost var before := Contents();
      queue[(head + length) % queue.Length] := x;
      length := length + 1;
      forall i | 0 <= i < length ensures Contents()[i] == (before + [x])[i] {
        if i < length - 1 {
          Cells(i, length - 1);
        }
      }
    }

    /** Removes `x` if it is retained, shifting the younger entries down. */
    method Release(x: nat) returns (found: bool)
      requires Valid()
      modifies this, queue
      ensures Valid() && found == (x in old(Contents()))
      ensures Contents() == Removed(old(Contents()), x)
    {
      ghost var before := Contents();
      for i := 0 to length
        invariant Valid() && Contents() == before
        invariant forall j :: 0 <= j < i ==> before[j] != x
      {
        if Peek(i) == x {
          RemovedAt(before, x, i);
          HoleEnds(before, i);
          ShiftDown(i);
          DropLast();
          return true;
        }
      }
      return false;
    }

    /** Moves the entry after `j` into the cell of `j`. */
    method CopyDown(j: nat)
      requires Valid() && j + 1 < length
      modifies queue
      ensures Contents() == old(Contents())[j := old(Contents())[j + 1]]
    {
      var from := (head + j + 1) % queue.Length;
      var to := (head + j) % queue.Length;
      ghost var before := Contents();
      assert queue[from] == At(j + 1);
      forall l | 0 <= l < length && l != j ensures Cell(l) != to {
        if l < j {
          Cells(l, j);
        } else {
          Cells(j, l);
        }
      }
      queue[to] := queue[from];
      forall l | 0 <= l < length ensures Contents()[l] == before[j := before[j + 1]][l] {
        assert Contents()[l] == At(l) == queue[Cell(l)];
      }
    }

    method DropLast()
      requires Valid() && length > 0
      modifies this
      ensures Valid() && Contents() == old(Contents())[..old(length) - 1]
    {
      length := length - 1;
    }

    method ShiftDown(i: nat)
      requires Valid() && i < length
      modifies queue
      ensures Contents() == Hole(old(Contents()), i, length - 1)
    {
      hide Unrolled, RetentionRing.At, RetentionRing.Cell, Hole;
      ghost var before := Contents();
      HoleEnds(before, i);
      var j := i;
      while j + 1 < length
        invariant i <= j < length == |before|
        invariant Contents() == Hole(before, i, j)
      {
        HoleMoves(before, i, j);
        CopyDown(j);
        j := j + 1;
      }
    }
  }
}
