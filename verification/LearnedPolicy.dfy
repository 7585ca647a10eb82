/** The policy that learns which chunk is fetched after which, and ranks chunks by walking that chain. */
module LearnedPolicies {
  import opened Chunks
  import opened Finite

  /** Following at most one learned successor per chunk. */
  ghost predicate SuccessorTable(successor: seq<nat>) {
    |successor| < CHUNK_NONE && forall i :: 0 <= i < |successor| ==> successor[i] == CHUNK_NONE || successor[i] < |successor|
  }

  /** The chunk reached from `start` after `d` hops; `CHUNK_NONE` once the chain is unknown. */
  function Hop(successor: seq<nat>, start: nat, d: nat): (x: nat)
    requires SuccessorTable(successor) && (start == CHUNK_NONE || start < |successor|)
    ensures x == CHUNK_NONE || x < |successor|
  {
    if d == 0 then start
    else
      var p := Hop(successor, start, d - 1);
      if p == CHUNK_NONE then CHUNK_NONE else successor[p]
  }

  /** `d` is the first time, counting from one hop, that the chain from `start` reaches `x`;
      `CHUNK_NONE` says that it never does. */
  ghost predicate FirstHop(successor: seq<nat>, start: nat, x: nat, d: nat)
    requires SuccessorTable(successor) && (start == CHUNK_NONE || start < |successor|)
  {
    if d == CHUNK_NONE then forall e :: 1 <= e ==> Hop(successor, start, e) != x
    else 1 <= d && Hop(successor, start, d) == x && forall e :: 1 <= e < d ==> Hop(successor, start, e) != x
  }

  /** A chunk has one distance along the chain. */
  lemma FirstHopUnique(successor: seq<nat>, start: nat, x: nat, d: nat, d': nat)
    requires SuccessorTable(successor) && (start == CHUNK_NONE || start < |successor|)
    requires FirstHop(successor, start, x, d) && FirstHop(successor, start, x, d')
    ensures d == d'
  {
    var at, at' := Hop(successor, start, d), Hop(successor, start, d');
  }

  /** The chunks reached so far, in order, without repetition. */
  ghost predicate Path(successor: seq<nat>, start: nat, path: seq<nat>)
    requires SuccessorTable(successor) && (start == CHUNK_NONE || start < |successor|)
  {
    && (forall j :: 0 <= j < |path| ==> path[j] < |successor| && Hop(successor, start, j + 1) == path[j])
    && NoDuplicates(path)
  }

  ghost predicate Recorded(successor: seq<nat>, path: seq<nat>, dist: seq<nat>) {
    && |dist| == |successor|
    && (forall j :: 0 <= j < |path| ==> path[j] < |dist| && dist[path[j]] == j + 1)
    && (forall x :: 0 <= x < |dist| && x !in path ==> dist[x] == CHUNK_NONE)
  }

  /** Once the chain is unknown it stays unknown. */
  lemma {:induction false} HopStops(successor: seq<nat>, start: nat, h: nat, d: nat)
    requires SuccessorTable(successor) && (start == CHUNK_NONE || start < |successor|)
    requires h <= d && Hop(successor, start, h) == CHUNK_NONE
    ensures Hop(successor, start, d) == CHUNK_NONE
  {
    if h < d {
      HopStops(successor, start, h, d - 1);
    }
  }

  /** Once the chain re-enters its path it never leaves it. */
  lemma {:induction false} HopCycles(successor: seq<nat>, start: nat, path: seq<nat>, d: nat)
    requires SuccessorTable(successor) && (start == CHUNK_NONE || start < |successor|)
    requires Path(successor, start, path) && 1 <= d && |path| > 0
    requires Hop(successor, start, |path| + 1) in path
    ensures Hop(successor, start, d) in path
  {
    if d <= |path| {
      assert Hop(successor, start, (d - 1) + 1) == path[d - 1];
    } else {
      HopCycles(successor, start, path, d - 1);
      var j :| 0 <= j < |path| && path[j] == Hop(successor, start, d - 1);
      assert Hop(successor, start, j + 1) == path[j];
      assert Hop(successor, start, j + 2) == successor[path[j]] == Hop(successor, start, d);
      if j + 1 < |path| {
        assert Hop(successor, start, (j + 1) + 1) == path[j + 1];
      }
    }
  }

  /** A repetition-free path through all `n` chunks misses none of them. */
  lemma PathFull(successor: seq<nat>, start: nat, path: seq<nat>, x: nat)
    requires SuccessorTable(successor) && (start == CHUNK_NONE || start < |successor|)
    requires Path(successor, start, path) && |path| >= |successor| && x < |successor|
    ensures x in path
  {
    DistinctCount(path);
    Smaller(Elements(path), Ids(|successor|));
    assert x in Elements(path);
  }

  lemma PathLength(successor: seq<nat>, start: nat, path: seq<nat>)
    requires SuccessorTable(successor) && (start == CHUNK_NONE || start < |successor|)
    requires Path(successor, start, path)
    ensures |path| <= |successor|
  {
    DistinctCount(path);
    Smaller(Elements(path), Ids(|successor|));
  }

  /** The walk may stop: the chain is unknown from here, closes a cycle, or has met every chunk. */
  ghost predicate Finished(successor: seq<nat>, start: nat, path: seq<nat>)
    requires SuccessorTable(successor) && (start == CHUNK_NONE || start < |successor|)
  {
    || Hop(successor, start, |path| + 1) == CHUNK_NONE
    || Hop(successor, start, |path| + 1) in path
    || |path| >= |successor|
  }

  /** What a finished walk recorded is exactly the first-hop distance of every chunk. */
  lemma WalkComplete(successor: seq<nat>, start: nat, path: seq<nat>, dist: seq<nat>, x: nat)
    requires SuccessorTable(successor) && (start == CHUNK_NONE || start < |successor|)
    requires Path(successor, start, path) && Recorded(successor, path, dist) && Finished(successor, start, path)
    requires x < |successor|
    ensures FirstHop(successor, start, x, dist[x]) && (dist[x] == CHUNK_NONE || 1 <= dist[x] <= |successor|)
  {
    PathLength(successor, start, path);
    if x in path {
      var j :| 0 <= j < |path| && path[j] == x;
      assert Hop(successor, start, j + 1) == x;
      forall e | 1 <= e < j + 1 ensures Hop(successor, start, e) != x {
        assert Hop(successor, start, (e - 1) + 1) == path[e - 1];
      }
    } else {
      forall e | 1 <= e ensures Hop(successor, start, e) != x {
        if e <= |path| {
          assert Hop(successor, start, (e - 1) + 1) == path[e - 1];
        } else if Hop(successor, start, |path| + 1) == CHUNK_NONE {
          HopStops(successor, start, |path| + 1, e);
        } else if Hop(successor, start, |path| + 1) in path {
          HopCycles(successor, start, path, e);
        } else {
          PathFull(successor, start, path, x);
        }
      }
    }
  }

  /** The first of hops `d..n` that reaches `x`. */
  function HopTo(successor: seq<nat>, start: nat, x: nat, d: nat, n: nat): (hops: nat)
    requires SuccessorTable(successor) && (start == CHUNK_NONE || start < |successor|)
    ensures hops == CHUNK_NONE || d <= hops <= n
    decreases n + 1 - d
  {
    if d > n then CHUNK_NONE
    else if Hop(successor, start, d) == x then d
    else HopTo(successor, start, x, d + 1, n)
  }

  /** The number of hops from `start` to `x`; looking `n` hops ahead is enough. */
  function ChainDist(successor: seq<nat>, start: nat, x: nat): nat
    requires SuccessorTable(successor) && (start == CHUNK_NONE || start < |successor|)
  {
    HopTo(successor, start, x, 1, |successor|)
  }

  lemma {:induction false} HopToIsFirst(successor: seq<nat>, start: nat, x: nat, dist: nat, d: nat)
    requires SuccessorTable(successor) && (start == CHUNK_NONE || start < |successor|)
    requires FirstHop(successor, start, x, dist) && (dist == CHUNK_NONE || d <= dist <= |successor|) && 1 <= d
    ensures HopTo(successor, start, x, d, |successor|) == dist
    decreases |successor| + 1 - d
  {
    if d <= |successor| && Hop(successor, start, d) != x {
      HopToIsFirst(successor, start, x, dist, d + 1);
    }
  }

  ghost predicate Walked(successor: seq<nat>, start: nat, path: seq<nat>, dist: seq<nat>)
    requires SuccessorTable(successor) && (start == CHUNK_NONE || start < |successor|)
  {
    Path(successor, start, path) && Recorded(successor, path, dist)
  }

  /** The next hop is new exactly when nothing is recorded for it. */
  lemma WalkOn(successor: seq<nat>, start: nat, path: seq<nat>, dist: seq<nat>)
    requires SuccessorTable(successor) && (start == CHUNK_NONE || start < |successor|)
    requires Walked(successor, start, path, dist)
    requires var next := Hop(successor, start, |path| + 1); next != CHUNK_NONE && dist[next] == CHUNK_NONE
    requires |path| < |successor|
    ensures var next := Hop(successor, start, |path| + 1);
            Walked(successor, start, path + [next], dist[next := |path| + 1])
  {
    var next := Hop(successor, start, |path| + 1);
    assert next !in path;
  }

  lemma Closed(successor: seq<nat>, start: nat, path: seq<nat>, dist: seq<nat>)
    requires SuccessorTable(successor) && (start == CHUNK_NONE || start < |successor|)
    requires Walked(successor, start, path, dist)
    requires var next := Hop(successor, start, |path| + 1); next == CHUNK_NONE || dist[next] != CHUNK_NONE
    ensures Finished(successor, start, path)
  {
  }

  /** A walk of `k` hops, or one that has finished before. */
  lemma {:induction false} WalkFor(successor: seq<nat>, start: nat, k: nat) returns (path: seq<nat>, dist: seq<nat>)
    requires SuccessorTable(successor) && (start == CHUNK_NONE || start < |successor|) && k <= |successor|
    ensures Walked(successor, start, path, dist) && (|path| == k || Finished(successor, start, path))
  {
    if k == 0 {
      path, dist := [], seq(|successor|, _ => CHUNK_NONE);
    } else {
      path, dist := WalkFor(successor, start, k - 1);
      if |path| == k - 1 && !Finished(successor, start, path) {
        var next := Hop(successor, start, |path| + 1);
        WalkOn(successor, start, path, dist);
        path, dist := path + [next], dist[next := |path| + 1];
      }
    }
  }

  /** The distance along the chain is the number of hops after which `x` is first reached, or none exactly
      if it never is. */
  lemma ChainDistIsFirst(successor: seq<nat>, start: nat, x: nat)
    requires SuccessorTable(successor) && (start == CHUNK_NONE || start < |successor|) && x < |successor|
    ensures FirstHop(successor, start, x, ChainDist(successor, start, x))
    ensures ChainDist(successor, start, x) == CHUNK_NONE || 1 <= ChainDist(successor, start, x) <= |successor|
  {
    var path, dist := WalkFor(successor, start, |successor|);
    WalkComplete(successor, start, path, dist, x);
    HopToIsFirst(successor, start, x, dist[x], 1);
  }

  class LearnedPolicy {
    const successor: array<nat>
    var lastFetched: nat

    ghost predicate Valid()
      reads this, successor
    {
      SuccessorTable(successor[..]) && (lastFetched == CHUNK_NONE || lastFetched < successor.Length)
    }

    constructor (nChunks: nat)
      requires nChunks < CHUNK_NONE
      ensures Valid() && fresh(successor) && successor.Length == nChunks && lastFetched == CHUNK_NONE
      ensures forall i :: 0 <= i < nChunks ==> successor[i] == CHUNK_NONE
    {
      successor := new nat[nChunks](_ => CHUNK_NONE);
      lastFetched := CHUNK_NONE;
    }

    /** Records that `idx` was fetched after the previous fetch. */
    method OnFault(idx: nat)
      requires Valid() && idx < successor.Length
      modifies this, successor
      ensures Valid() && lastFetched == idx
      ensures successor[..] == if old(lastFetched) == CHUNK_NONE then old(successor[..])
                               else old(successor[..])[old(lastFetched) := idx]
    {
      if lastFetched != CHUNK_NONE {
        successor[lastFetched] := idx;
      }
      lastFetched := idx;
    }

    /** One hop along the chain: never a chunk outside the table. */
    method PredictNext(idx: nat) returns (next: int)
      requires Valid() && idx < successor.Length
      ensures next == Prediction(Hop(successor[..], idx, 1)) && -1 <= next < successor.Length
    {
      assert Hop(successor[..], idx, 1) == successor[..][Hop(successor[..], idx, 0)];
      next := if successor[idx] == CHUNK_NONE then -1 else successor[idx];
    }

    /** Walks the chain from the last fetch: every chunk gets the least number of hops to reach it. */
    method ComputeDist() returns (dist: array<nat>)
      requires Valid()
      ensures fresh(dist) && dist.Length == successor.Length
      ensures forall x :: 0 <= x < dist.Length ==>
                FirstHop(successor[..], lastFetched, x, dist[x]) && dist[x] == ChainDist(successor[..], lastFetched, x)
    {
      var n := successor.Length;
      dist := new nat[n](_ => CHUNK_NONE);
      ghost var table, path: seq<nat> := successor[..], [];
      if lastFetched != CHUNK_NONE {
        var node, d, hops := lastFetched, 1, 0;
        while hops < n
          invariant successor[..] == table && Walked(table, lastFetched, path, dist[..])
          invariant hops == |path| <= n && d == hops + 1 && node < n
          invariant node == Hop(table, lastFetched, hops)
        {
          var next := successor[node];
          if next == CHUNK_NONE || dist[next] != CHUNK_NONE {
            Closed(table, lastFetched, path, dist[..]);
            break;
          }
          WalkOn(table, lastFetched, path, dist[..]);
          dist[next] := d;
          path := path + [next];
          d, node, hops := d + 1, next, hops + 1;
        }
      } else {
        assert Hop(table, lastFetched, 1) == CHUNK_NONE;
      }
      forall x | 0 <= x < n
        ensures FirstHop(table, lastFetched, x, dist[x]) && dist[x] == ChainDist(table, lastFetched, x)
      {
        WalkComplete(table, lastFetched, path, dist[..], x);
        assert dist[x] == dist[..][x];
        HopToIsFirst(table, lastFetched, x, dist[x], 1);
      }
    }
  }
}
