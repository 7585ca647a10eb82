/** The array-based max-heap of (priority, chunk) pairs that the offline solver sifts in place. */
module MaxHeap {

  datatype Entry = Entry(priority: nat, chunk: nat)

  function Parent(j: nat): nat
    requires 0 < j
  {
    (j - 1) / 2
  }

  /** Entry `j` does not outrank its parent. */
  ghost predicate Under(s: seq<Entry>, j: nat)
    requires 0 < j < |s|
  {
    s[Parent(j)].priority >= s[j].priority
  }

  ghost predicate Ordered(s: seq<Entry>) {
    forall j :: 0 < j < |s| ==> Under(s, j)
  }

  lemma {:induction false} RootIsMax(s: seq<Entry>, j: nat)
    requires Ordered(s) && j < |s|
    ensures s[0].priority >= s[j].priority
  {
    if j > 0 {
      assert Under(s, j);
      RootIsMax(s, Parent(j));
    }
  }

  lemma RootIsMost(s: seq<Entry>)
    requires Ordered(s) && |s| > 0
    ensures forall e :: e in multiset(s) ==> e.priority <= s[0].priority
  {
    forall e | e in multiset(s) ensures e.priority <= s[0].priority {
      var j :| 0 <= j < |s| && s[j] == e;
      RootIsMax(s, j);
    }
  }

  /** The children of `i` do not outrank the parent of `i`. */
  ghost predicate Bridged(s: seq<Entry>, i: nat) {
    0 < i < |s| ==> forall j :: 0 < j < |s| && Parent(j) == i ==> s[Parent(i)].priority >= s[j].priority
  }

  /** Ordered except that entry `i` may outrank its parent. */
  ghost predicate OrderedAbove(s: seq<Entry>, i: nat) {
    Bridged(s, i) && forall j :: 0 < j < |s| && j != i ==> Under(s, j)
  }

  /** Ordered except that entry `i` may be outranked by its children. */
  ghost predicate OrderedBelow(s: seq<Entry>, i: nat) {
    Bridged(s, i) && forall j :: 0 < j < |s| && Parent(j) != i ==> Under(s, j)
  }

  lemma SiftUp(s: seq<Entry>, t: seq<Entry>, i: nat)
    requires 0 < i < |s| && OrderedAbove(s, i) && !Under(s, i)
    requires t == s[Parent(i) := s[i]][i := s[Parent(i)]]
    ensures OrderedAbove(t, Parent(i))
  {
    var p := Parent(i);
    forall j | 0 < j < |t| && j != p ensures Under(t, j) {
      if j != i {
        assert Under(s, j);
      }
    }
    if p > 0 {
      assert Under(s, p);
      forall j | 0 < j < |t| && Parent(j) == p ensures t[Parent(p)].priority >= t[j].priority {
        if j != i {
          assert Under(s, j);
        }
      }
    }
  }

  lemma SiftDown(s: seq<Entry>, t: seq<Entry>, i: nat, child: nat)
    requires 0 < child < |s| && Parent(child) == i && OrderedBelow(s, i) && !Under(s, child)
    requires forall j :: 0 < j < |s| && Parent(j) == i ==> s[child].priority >= s[j].priority
    requires t == s[i := s[child]][child := s[i]]
    ensures OrderedBelow(t, child)
  {
    forall j | 0 < j < |t| && Parent(j) != child ensures Under(t, j) {
      if j == i {
        assert s[Parent(i)].priority >= s[child].priority;
      } else if Parent(j) != i {
        assert Under(s, j);
      }
    }
    forall j | 0 < j < |t| && Parent(j) == child ensures t[i].priority >= t[j].priority {
      assert Under(s, j);
    }
  }

  lemma Appended(s: seq<Entry>, e: Entry)
    requires Ordered(s)
    ensures OrderedAbove(s + [e], |s|)
  {
    forall j | 0 < j < |s| ensures Under(s + [e], j) {
      assert Under(s, j);
    }
  }

  lemma SiftedUp(s: seq<Entry>, i: nat)
    requires OrderedAbove(s, i) && i < |s| && (i > 0 ==> Under(s, i))
    ensures Ordered(s)
  {
  }

  lemma SiftedDown(s: seq<Entry>, i: nat)
    requires OrderedBelow(s, i)
    requires forall j :: 0 < j < |s| && Parent(j) == i ==> Under(s, j)
    ensures Ordered(s)
  {
  }

  class Heap {
    const data: array<Entry>
    var size: nat

    ghost predicate Shaped()
      reads this
    {
      size <= data.Length
    }

    ghost predicate Valid()
      reads this, data
    {
      Shaped() && Ordered(data[..size])
    }

    ghost function Contents(): multiset<Entry>
      requires Shaped()
      reads this, data
    {
      multiset(data[..size])
    }

    constructor (cap: nat)
      ensures Valid() && fresh(data) && data.Length == cap
      ensures Contents() == multiset{} && size == 0
    {
      data := new Entry[cap];
      size := 0;
    }

    method Swap(i: nat, j: nat)
      requires Shaped() && i < size && j < size
      modifies data
      ensures data[..size] == old(data[..size])[i := old(data[j])][j := old(data[i])]
      ensures Contents() == old(Contents())
    {
      ghost var before := data[..size];
      data[i], data[j] := data[j], data[i];
      assert data[..size] == before[i := before[j]][j := before[i]];
    }

    method Push(priority: nat, chunk: nat)
      requires Valid() && size < data.Length
      modifies this, data
      ensures Valid() && size == old(size) + 1
      ensures Contents() == old(Contents()) + multiset{Entry(priority, chunk)}
    {
      var i := size;
      ghost var before := data[..size];
      data[i] := Entry(priority, chunk);
      size := size + 1;
      assert data[..size] == before + [Entry(priority, chunk)];
      Appended(before, Entry(priority, chunk));
      while i > 0
        invariant Shaped() && i < size == old(size) + 1
        invariant OrderedAbove(data[..size], i)
        invariant Contents() == old(Contents()) + multiset{Entry(priority, chunk)}
      {
        var parent := (i - 1) / 2;
        if data[parent].priority >= data[i].priority {
          assert Under(data[..size], i);
          break;
        }
        ghost var unsifted := data[..size];
        Swap(parent, i);
        SiftUp(unsifted, data[..size], i);
        i := parent;
      }
      SiftedUp(data[..size], i);
    }

    /** Removes an entry of the highest priority; fails exactly when the heap is empty. */
    method PopMax() returns (ok: bool, out: Entry)
      requires Valid()
      modifies this, data
      ensures Valid() && ok == (old(size) > 0)
      ensures !ok ==> size == 0 && Contents() == old(Contents())
      ensures ok ==> size == old(size) - 1
      ensures ok ==> out in old(Contents()) && Contents() == old(Contents()) - multiset{out}
      ensures ok ==> forall e :: e in old(Contents()) ==> e.priority <= out.priority
    {
      hide Ordered, OrderedBelow, Under;
      if size == 0 {
        return false, Entry(0, 0);
      }
      ghost var before := data[..size];
      out := data[0];
      RootIsMost(before);
      size := size - 1;
      data[0] := data[size];
      RemoveRoot(before, data[..size]);
      RootReplaced(before, data[..size]);
      SiftRoot();
      ok := true;
    }

    /** Picks the larger child if some child outranks entry `i`, and `i` itself otherwise. */
    method Largest(i: nat) returns (largest: nat)
      requires Shaped() && i < size
      ensures largest < size
      ensures largest == i ==> forall j :: 0 < j < size && Parent(j) == i ==> Under(data[..size], j)
      ensures largest != i ==> largest > 0 && Parent(largest) == i && !Under(data[..size], largest)
      ensures largest != i ==>
        forall j :: 0 < j < size && Parent(j) == i ==> data[..size][largest].priority >= data[..size][j].priority
    {
      var l, r := 2 * i + 1, 2 * i + 2;
      largest := i;
      if l < size && data[l].priority > data[largest].priority {
        largest := l;
      }
      if r < size && data[r].priority > data[largest].priority {
        largest := r;
      }
      assert forall j :: 0 < j < size && Parent(j) == i ==> j == l || j == r;
    }

    /** Sinks the root below any larger child. */
    method SiftRoot()
      requires Shaped() && OrderedBelow(data[..size], 0)
      modifies data
      ensures Valid() && Contents() == old(Contents())
    {
      var i := 0;
      while i < size
        invariant Shaped() && OrderedBelow(data[..size], i) && (i < size || size == 0)
        invariant Contents() == old(Contents())
        decreases size - i
      {
        var largest := Largest(i);
        if largest == i {
          SiftedDown(data[..size], i);
          break;
        }
        ghost var unsifted := data[..size];
        Swap(i, largest);
        SiftDown(unsifted, data[..size], i, largest);
        i := largest;
      }
    }
  }

  /** Moving the last entry to the root drops exactly the root. */
  lemma RemoveRoot(s: seq<Entry>, t: seq<Entry>)
    requires 0 < |s| == |t| + 1
    requires |t| > 0 ==> t == s[..|t|][0 := s[|t|]]
    ensures multiset(t) == multiset(s) - multiset{s[0]}
  {
    var n := |t|;
    assert s == s[..n] + [s[n]];
    if n > 0 {
      assert s[..n] == [s[0]] + s[1..n];
      assert t == [s[n]] + s[1..n];
    }
  }

  lemma RootReplaced(s: seq<Entry>, t: seq<Entry>)
    requires Ordered(s) && 0 < |s| == |t| + 1
    requires |t| > 0 ==> t == s[..|t|][0 := s[|t|]]
    ensures OrderedBelow(t, 0)
  {
    forall j | 0 < j < |t| && Parent(j) != 0 ensures Under(t, j) {
      assert Under(s, j);
    }
  }
}
