/** Facts about division that the cyclic models share. */
module Arithmetic {

  lemma {:induction false} Multiples(p: nat, q: nat, n: nat)
    requires p < q
    ensures p * n + n <= q * n
    decreases q
  {
    assert q * n == (q - 1) * n + n;
    if p < q - 1 {
      Multiples(p, q - 1, n);
    }
  }

  lemma Modulo(p: nat, n: nat, l: nat)
    requires l < n
    ensures (p * n + l) % n == l && (p * n + l) / n == p
  {
    var a := p * n + l;
    var q := a / n;
    assert a == q * n + a % n;
    if q < p {
      Multiples(q, p, n);
    } else if p < q {
      Multiples(p, q, n);
    }
  }

  lemma Divided(a: nat, n: nat)
    requires 0 < n && a % n == 0 && a / n >= 1
    ensures a == (a / n) * n && n <= a
  {
    var q := a / n;
    assert a == q * n + a % n;
    Multiples(0, q, n);
  }

  /** One step further is one step further in the cycle. */
  lemma Successor(a: nat, n: nat)
    requires 0 < n
    ensures (a + 1) % n == (a % n + 1) % n
  {
    var q, r := a / n, a % n;
    assert a == q * n + r;
    if r + 1 < n {
      Modulo(q, n, r + 1);
    } else {
      assert a + 1 == (q + 1) * n;
      Modulo(q + 1, n, 0);
    }
  }

  /** Some position within one cycle from `from` falls on slot `q`. */
  lemma Aligned(from: nat, q: nat, n: nat) returns (k: nat)
    requires q < n
    ensures k < n && (from + k) % n == q
  {
    var d, b := from / n, from % n;
    assert from == d * n + b;
    if q >= b {
      k := q - b;
      assert from + k == d * n + q;
      Modulo(d, n, q);
    } else {
      k := q + n - b;
      assert from + k == (d + 1) * n + q;
      Modulo(d + 1, n, q);
    }
  }
}

/** Sizes of finite sets. */
module Finite {

  lemma Smaller<T>(a: set<T>, b: set<T>)
    requires a <= b
    ensures |a| <= |b| && (|a| == |b| ==> a == b)
  {
    assert b == a + (b - a);
    assert |b| == |a| + |b - a|;
  }

  lemma Without<T>(s: set<T>, c: T)
    ensures |s - {c}| == |s| - if c in s then 1 else 0
  {
    if c !in s {
      assert s - {c} == s;
    }
  }

  lemma Exchanged<T>(s: set<T>, v: T, c: T)
    requires v in s && c !in s
    ensures |s - {v} + {c}| == |s|
  {
    assert |s - {v}| == |s| - 1;
  }

  /** The numbers below `n`. */
  function Ids(n: nat): (ids: set<nat>)
    ensures |ids| == n && forall x :: x in ids <==> 0 <= x < n
  {
    if n == 0 then {} else Ids(n - 1) + {n - 1}
  }

  function Elements<T>(s: seq<T>): set<T> {
    set x | x in s
  }

  ghost predicate NoDuplicates<T>(s: seq<T>) {
    forall i, j :: 0 <= i < j < |s| ==> s[i] != s[j]
  }

  lemma {:induction false} DistinctCount<T>(s: seq<T>)
    requires NoDuplicates(s)
    ensures |Elements(s)| == |s|
  {
    if |s| > 0 {
      var t, last := s[..|s| - 1], s[|s| - 1];
      DistinctCount(t);
      assert s == t + [last];
      assert Elements(s) == Elements(t) + {last};
    }
  }
}
