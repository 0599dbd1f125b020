/**
 A binary heap of ids in a sequence, ordered by keys that are kept elsewhere: the heap compares `keys[heap[i]]` and
 swaps ids. The keys may change for ids that are not in the heap.
 */
module IdHeap {

  predicate Distinct(s: seq<int>) {
    forall i, j | 0 <= i < j < |s| :: s[i] != s[j]
  }

  predicate InRange(heap: seq<int>, n: nat) {
    forall i | 0 <= i < |heap| :: 0 <= heap[i] < n
  }

  function Parent(i: nat): nat
    requires i > 0
  {
    (i - 1) / 2
  }

  function Key(keys: seq<int>, heap: seq<int>, i: nat): int
    requires InRange(heap, |keys|) && i < |heap|
  {
    keys[heap[i]]
  }

  /** No id comes before its parent. */
  ghost predicate Ordered(keys: seq<int>, heap: seq<int>) {
    && InRange(heap, |keys|)
    && forall i | 0 < i < |heap| :: Key(keys, heap, Parent(i)) <= Key(keys, heap, i)
  }

  /** The same ids in another order. */
  ghost predicate Shuffled(a: seq<int>, b: seq<int>) {
    |a| == |b| && Distinct(b) && forall x: int :: x in a <==> x in b
  }

  function Swap(s: seq<int>, i: nat, j: nat): (r: seq<int>)
    requires i < |s| && j < |s|
    ensures |r| == |s| && r[i] == s[j] && r[j] == s[i] && forall k | 0 <= k < |s| && k != i && k != j :: r[k] == s[k]
  {
    s[i := s[j]][j := s[i]]
  }

  lemma SwapShuffles(a: seq<int>, s: seq<int>, i: nat, j: nat)
    requires i < |s| && j < |s| && i != j && Shuffled(a, s)
    ensures Shuffled(a, Swap(s, i, j))
  {
    var r := Swap(s, i, j);
    forall x: int
      ensures x in s <==> x in r
    {
      if x in s {
        var k :| 0 <= k < |s| && s[k] == x;
        assert r[if k == i then j else if k == j then i else k] == x;
      }
      if x in r {
        var k :| 0 <= k < |r| && r[k] == x;
        assert s[if k == i then j else if k == j then i else k] == x;
      }
    }
  }

  /** The top of a heap has the least key. */
  lemma {:induction false} TopIsLeast(keys: seq<int>, heap: seq<int>, i: nat)
    requires Ordered(keys, heap) && i < |heap|
    ensures Key(keys, heap, 0) <= Key(keys, heap, i)
  {
    if i > 0 {
      TopIsLeast(keys, heap, Parent(i));
    }
  }

  /** Only the keys of the ids in the heap matter for its order. */
  lemma OtherKeys(keys: seq<int>, more: seq<int>, heap: seq<int>)
    requires Ordered(keys, heap) && InRange(heap, |more|) &&
      forall i | 0 <= i < |heap| :: more[heap[i]] == keys[heap[i]]
    ensures Ordered(more, heap)
  {
    forall i | 0 < i < |heap|
      ensures Key(more, heap, Parent(i)) <= Key(more, heap, i)
    {
      assert Key(keys, heap, Parent(i)) <= Key(keys, heap, i);
    }
  }

  /** In order but for the id at i, which may come before its parent; its children do not. */
  ghost predicate Rising(keys: seq<int>, heap: seq<int>, i: nat) {
    && InRange(heap, |keys|) && i < |heap|
    && (forall j | 0 < j < |heap| && j != i :: Key(keys, heap, Parent(j)) <= Key(keys, heap, j))
    && (i > 0 ==> forall j | 0 < j < |heap| && Parent(j) == i :: Key(keys, heap, Parent(i)) <= Key(keys, heap, j))
  }

  /** In order but for the id at i, which may come after its children; their parent's parent does not. */
  ghost predicate Sinking(keys: seq<int>, heap: seq<int>, i: nat) {
    && InRange(heap, |keys|) && i < |heap|
    && (forall j | 0 < j < |heap| && Parent(j) != i :: Key(keys, heap, Parent(j)) <= Key(keys, heap, j))
    && (i > 0 ==> forall j | 0 < j < |heap| && Parent(j) == i :: Key(keys, heap, Parent(i)) <= Key(keys, heap, j))
  }

  lemma RiseStep(keys: seq<int>, heap: seq<int>, i: nat)
    requires Rising(keys, heap, i) && i > 0 && Key(keys, heap, i) < Key(keys, heap, Parent(i))
    ensures Rising(keys, Swap(heap, i, Parent(i)), Parent(i))
  {
    var p, r := Parent(i), Swap(heap, i, Parent(i));
    forall j | 0 < j < |r| && j != p
      ensures Key(keys, r, Parent(j)) <= Key(keys, r, j)
    {
      assert j != i ==> Key(keys, heap, Parent(j)) <= Key(keys, heap, j);
    }
    if p > 0 {
      assert Key(keys, heap, Parent(p)) <= Key(keys, heap, p);
      forall j | 0 < j < |r| && Parent(j) == p
        ensures Key(keys, r, Parent(p)) <= Key(keys, r, j)
      {
        assert j != i ==> Key(keys, heap, Parent(j)) <= Key(keys, heap, j);
      }
    }
  }

  /** Moves the id at i up to its place. */
  method SiftUp(keys: seq<int>, heap0: seq<int>, i0: nat) returns (heap: seq<int>)
    requires Rising(keys, heap0, i0) && Distinct(heap0)
    ensures Ordered(keys, heap) && Shuffled(heap0, heap)
  {
    heap := heap0;
    var i: nat := i0;
    while i > 0 && keys[heap[i]] < keys[heap[Parent(i)]]
      invariant Rising(keys, heap, i) && Shuffled(heap0, heap)
    {
      RiseStep(keys, heap, i);
      SwapShuffles(heap0, heap, i, Parent(i));
      heap, i := Swap(heap, i, Parent(i)), Parent(i);
    }
  }

  /** The child that comes first. */
  function Child(keys: seq<int>, heap: seq<int>, i: nat): (c: nat)
    requires InRange(heap, |keys|) && 2 * i + 1 < |heap|
    ensures c < |heap| && c > 0 && Parent(c) == i
    ensures forall j | 0 < j < |heap| && Parent(j) == i :: Key(keys, heap, c) <= Key(keys, heap, j)
  {
    if 2 * i + 2 < |heap| && Key(keys, heap, 2 * i + 2) < Key(keys, heap, 2 * i + 1) then 2 * i + 2 else 2 * i + 1
  }

  lemma SinkStep(keys: seq<int>, heap: seq<int>, i: nat, c: nat)
    requires Sinking(keys, heap, i) && 2 * i + 1 < |heap| && c == Child(keys, heap, i)
    requires Key(keys, heap, c) < Key(keys, heap, i)
    ensures Sinking(keys, Swap(heap, i, c), c)
  {
    var r := Swap(heap, i, c);
    forall j | 0 < j < |r| && Parent(j) != c
      ensures Key(keys, r, Parent(j)) <= Key(keys, r, j)
    {
      if Parent(j) == i {
        assert j != c ==> r[j] == heap[j];
      } else {
        assert Key(keys, heap, Parent(j)) <= Key(keys, heap, j);
        assert j == i ==> Key(keys, heap, Parent(i)) <= Key(keys, heap, c);
      }
    }
    forall j | 0 < j < |r| && Parent(j) == c
      ensures Key(keys, r, Parent(c)) <= Key(keys, r, j)
    {
      assert Parent(j) != i && Key(keys, heap, Parent(j)) <= Key(keys, heap, j);
    }
  }

  /** Moves the id at i down to its place. */
  method SiftDown(keys: seq<int>, heap0: seq<int>, i0: nat) returns (heap: seq<int>)
    requires Sinking(keys, heap0, i0) && Distinct(heap0)
    ensures Ordered(keys, heap) && Shuffled(heap0, heap)
  {
    heap := heap0;
    var i: nat := i0;
    while 2 * i + 1 < |heap| && Key(keys, heap, Child(keys, heap, i)) < Key(keys, heap, i)
      invariant Sinking(keys, heap, i) && Shuffled(heap0, heap)
      decreases |heap| - i
    {
      var c := Child(keys, heap, i);
      SinkStep(keys, heap, i, c);
      SwapShuffles(heap0, heap, i, c);
      heap, i := Swap(heap, i, c), c;
    }
    SinkDone(keys, heap, i);
  }

  lemma SinkDone(keys: seq<int>, heap: seq<int>, i: nat)
    requires Sinking(keys, heap, i)
    requires 2 * i + 1 < |heap| ==> Key(keys, heap, i) <= Key(keys, heap, Child(keys, heap, i))
    ensures Ordered(keys, heap)
  {
    forall j | 0 < j < |heap|
      ensures Key(keys, heap, Parent(j)) <= Key(keys, heap, j)
    {
      if Parent(j) == i {
        assert 2 * i + 1 < |heap|;
      }
    }
  }

  /** Adds an id at the end and moves it up. */
  method Insert(keys: seq<int>, heap0: seq<int>, id: int) returns (heap: seq<int>)
    requires Ordered(keys, heap0) && Distinct(heap0) && 0 <= id < |keys| && id !in heap0
    ensures Ordered(keys, heap) && Shuffled(heap0 + [id], heap)
  {
    var all := heap0 + [id];
    forall j | 0 < j < |all| && j != |heap0|
      ensures Key(keys, all, Parent(j)) <= Key(keys, all, j)
    {
      assert Key(keys, heap0, Parent(j)) <= Key(keys, heap0, j);
    }
    heap := SiftUp(keys, all, |heap0|);
  }

  /** Takes the top off: the last id takes its place and moves down. */
  method Pop(keys: seq<int>, heap0: seq<int>) returns (heap: seq<int>)
    requires Ordered(keys, heap0) && Distinct(heap0) && heap0 != []
    ensures Ordered(keys, heap) && Shuffled(heap0[1..], heap)
  {
    if |heap0| == 1 {
      return [];
    }
    var last := heap0[|heap0| - 1];
    var moved := [last] + heap0[1..|heap0| - 1];
    MovedShuffles(heap0);
    forall j | 0 < j < |moved| && Parent(j) != 0
      ensures Key(keys, moved, Parent(j)) <= Key(keys, moved, j)
    {
      assert moved[j] == heap0[j] && moved[Parent(j)] == heap0[Parent(j)];
      assert Key(keys, heap0, Parent(j)) <= Key(keys, heap0, j);
    }
    heap := SiftDown(keys, moved, 0);
    assert forall x: int :: x in heap0[1..] <==> x in heap;
  }

  lemma MovedShuffles(heap: seq<int>)
    requires |heap| > 1 && Distinct(heap)
    ensures Shuffled(heap[1..], [heap[|heap| - 1]] + heap[1..|heap| - 1])
  {
    var n := |heap| - 1;
    var a, b := heap[1..], [heap[n]] + heap[1..n];
    forall x: int
      ensures x in a <==> x in b
    {
      assert a == heap[1..n] + [heap[n]];
    }
    forall i, j | 0 <= i < j < |b|
      ensures b[i] != b[j]
    {
      assert b[j] == heap[j] && b[i] == if i == 0 then heap[n] else heap[i];
    }
  }
}
