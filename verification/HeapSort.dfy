/** heap_sort of the standard library (stdlib/heap/heap.sy): in place, on a collection with
    a `less` that is the strict part of a total preorder. */
module HeapSort {

  /** Not greater: what `less` leaves out. */
  predicate AtMost<T(!new)>(less: (T, T) -> bool, x: T, y: T) { !less(y, x) }

  ghost predicate Preorder<T(!new)>(less: (T, T) -> bool)
  {
    && (forall x, y :: AtMost(less, x, y) || AtMost(less, y, x))
    && (forall x, y, z :: AtMost(less, x, y) && AtMost(less, y, z) ==> AtMost(less, x, z))
  }

  function Parent(c: nat): nat
    requires c > 0
  {
    (c - 1) / 2
  }

  /** Node `c` is not greater than its parent. */
  predicate Under<T(!new)>(less: (T, T) -> bool, s: seq<T>, c: nat)
    requires 0 < c < |s|
  {
    AtMost(less, s[c], s[Parent(c)])
  }

  /** The max-heap order for all parents from `lo` on, within the first `n` elements. */
  ghost predicate HeapFrom<T(!new)>(less: (T, T) -> bool, s: seq<T>, lo: nat, n: nat)
    requires n <= |s|
  {
    forall c :: 0 < c < n && Parent(c) >= lo ==> Under(less, s, c)
  }

  /** As above but for the children of `i`, which are not greater than the parent of `i`. */
  ghost predicate HeapBut<T(!new)>(less: (T, T) -> bool, s: seq<T>, lo: nat, n: nat, i: nat)
    requires n <= |s|
  {
    && (forall c :: 0 < c < n && Parent(c) >= lo && Parent(c) != i ==> Under(less, s, c))
    && (forall c :: 0 < c < n && Parent(c) == i && i > 0 && Parent(i) >= lo ==> AtMost(less, s[c], s[Parent(i)]))
  }

  ghost predicate Sorted<T(!new)>(less: (T, T) -> bool, s: seq<T>)
  {
    forall i, j :: 0 <= i < j < |s| ==> AtMost(less, s[i], s[j])
  }

  function Swapped<T>(s: seq<T>, i: nat, j: nat): (r: seq<T>)
    requires i < |s| && j < |s|
    ensures |r| == |s|
  {
    s[i := s[j]][j := s[i]]
  }

  lemma SwapKeeps<T>(s: seq<T>, i: nat, j: nat, n: nat)
    requires i < n && j < n && n <= |s|
    ensures multiset(Swapped(s, i, j)[..n]) == multiset(s[..n]) && Swapped(s, i, j)[n..] == s[n..]
  {
    assert Swapped(s, i, j)[..n] == Swapped(s[..n], i, j);
  }

  method Swap<T(!new)>(h: array<T>, i: nat, j: nat)
    requires i < h.Length && j < h.Length
    modifies h
    ensures h[..] == Swapped(old(h[..]), i, j)
  {
    h[i], h[j] := h[j], h[i];
  }

  /** What one round of sift_down does to the order. */
  lemma SwapDown<T(!new)>(less: (T, T) -> bool, s: seq<T>, lo: nat, n: nat, i: nat, big: nat)
    requires Preorder(less) && n <= |s| && lo <= i < n && HeapBut(less, s, lo, n, i)
    requires 0 < big < n && Parent(big) == i && less(s[i], s[big])
    requires forall c :: 0 < c < n && Parent(c) == i ==> AtMost(less, s[c], s[big])
    ensures HeapBut(less, Swapped(s, i, big), lo, n, big)
  {
    var r := Swapped(s, i, big);
    assert r[i] == s[big] && r[big] == s[i] && forall k :: 0 <= k < |s| && k != i && k != big ==> r[k] == s[k];
    forall c | 0 < c < n && Parent(c) >= lo && Parent(c) != big ensures Under(less, r, c) {
      if Parent(c) != i && c != i { assert Under(less, s, c); }
    }
    forall c | 0 < c < n && Parent(c) == big && Parent(big) >= lo ensures AtMost(less, r[c], r[Parent(big)]) {
      assert Under(less, s, c);
    }
  }

  /** Lets the element at `i` sink to its place; the rest from `lo` on is a heap already. */
  method SiftDown<T(!new)>(less: (T, T) -> bool, h: array<T>, n: nat, i: nat, ghost lo: nat)
    requires Preorder(less) && lo <= i < n <= h.Length && HeapBut(less, h[..], lo, n, i)
    modifies h
    ensures HeapFrom(less, h[..], lo, n)
    ensures multiset(h[..n]) == old(multiset(h[..n])) && h[n..] == old(h[n..])
    decreases n - i
  {
    var largest := i;
    var left, right := 2 * i + 1, 2 * i + 2;
    if left < n && less(h[largest], h[left]) { largest := left; }
    if right < n && less(h[largest], h[right]) { largest := right; }
    Largest(less, h[..], n, i, largest);
    if largest != i {
      SwapDown(less, h[..], lo, n, i, largest);
      SwapKeeps(h[..], i, largest, n);
      assert h[..][..n] == h[..n] && h[..][n..] == h[n..];
      Swap(h, i, largest);
      assert h[..][..n] == h[..n] && h[..][n..] == h[n..];
      SiftDown(less, h, n, largest, lo);
    } else {
      Done(less, h[..], lo, n, i);
    }
  }

  lemma ChildrenOf(c: nat, i: nat)
    requires c > 0
    ensures Parent(c) == i <==> c == 2 * i + 1 || c == 2 * i + 2
  {
  }

  lemma Largest<T(!new)>(less: (T, T) -> bool, s: seq<T>, n: nat, i: nat, largest: nat)
    requires Preorder(less) && i < n <= |s|
    requires var a := if 2 * i + 1 < n && less(s[i], s[2 * i + 1]) then 2 * i + 1 else i;
      largest == if 2 * i + 2 < n && less(s[a], s[2 * i + 2]) then 2 * i + 2 else a
    ensures forall c :: 0 < c < n && Parent(c) == i ==> AtMost(less, s[c], s[largest])
    ensures largest != i ==> 0 < largest < n && Parent(largest) == i && less(s[i], s[largest])
  {
    var a := if 2 * i + 1 < n && less(s[i], s[2 * i + 1]) then 2 * i + 1 else i;
    assert AtMost(less, s[i], s[a]) && AtMost(less, s[a], s[largest]) && AtMost(less, s[largest], s[largest]);
    forall c | 0 < c < n && Parent(c) == i ensures AtMost(less, s[c], s[largest]) {
      ChildrenOf(c, i);
      if c == 2 * i + 1 { assert AtMost(less, s[c], s[a]) by { assert AtMost(less, s[c], s[c]); } }
    }
    assert largest == 2 * i + 2 ==> !AtMost(less, s[largest], s[a]);
  }

  lemma Done<T(!new)>(less: (T, T) -> bool, s: seq<T>, lo: nat, n: nat, i: nat)
    requires n <= |s| && i < n && HeapBut(less, s, lo, n, i)
      && forall c :: 0 < c < n && Parent(c) == i ==> AtMost(less, s[c], s[i])
    ensures HeapFrom(less, s, lo, n)
  {
  }

  method Heapify<T(!new)>(less: (T, T) -> bool, h: array<T>)
    requires Preorder(less)
    modifies h
    ensures HeapFrom(less, h[..], 0, h.Length) && multiset(h[..]) == old(multiset(h[..]))
  {
    var n := h.Length;
    var i := n / 2 - 1;
    while i >= 0
      invariant -1 <= i && i < n && HeapFrom(less, h[..], (i + 1) as nat, n) && multiset(h[..]) == old(multiset(h[..]))
      decreases i
    {
      assert h[..n] == h[..];
      SiftDown(less, h, n, i, i);
      assert h[..n] == h[..];
      i := i - 1;
    }
  }

  /** In a heap the root is the greatest. */
  lemma {:induction false} RootGreatest<T(!new)>(less: (T, T) -> bool, s: seq<T>, n: nat, k: nat)
    requires Preorder(less) && n <= |s| && HeapFrom(less, s, 0, n) && k < n
    ensures AtMost(less, s[k], s[0])
    decreases k
  {
    if k == 0 {
      assert AtMost(less, s[0], s[0]);
    } else {
      assert Under(less, s, k);
      RootGreatest(less, s, n, Parent(k));
    }
  }

  /** The elements from `n` on are sorted and no smaller than those before. */
  ghost predicate Tail<T(!new)>(less: (T, T) -> bool, s: seq<T>, n: nat)
    requires n <= |s|
  {
    forall i, j :: 0 <= i < j < |s| && n <= j ==> AtMost(less, s[i], s[j])
  }

  /** Taking the root out: it goes to the front of the sorted tail. */
  lemma TakeRoot<T(!new)>(less: (T, T) -> bool, s: seq<T>, i: nat)
    requires Preorder(less) && 0 < i < |s| && HeapFrom(less, s, 0, i + 1) && Tail(less, s, i + 1)
    ensures Tail(less, Swapped(s, 0, i), i) && HeapBut(less, Swapped(s, 0, i), 0, i, 0)
  {
    var r := Swapped(s, 0, i);
    forall k | 0 <= k <= i ensures AtMost(less, s[k], s[0]) { RootGreatest(less, s, i + 1, k); }
    forall k, j | 0 <= k < j < |s| && i <= j ensures AtMost(less, r[k], r[j]) {
      if j == i { assert r[k] == s[if k == 0 then i else k]; }
      else if k == 0 || k == i { assert AtMost(less, s[0], s[j]) && AtMost(less, s[i], s[j]); }
      else { assert AtMost(less, s[k], s[j]); }
    }
    forall c | 0 < c < i && Parent(c) != 0 ensures Under(less, r, c) { assert Under(less, s, c); }
  }

  /** Rearranging the elements before the tail keeps them below it. */
  lemma TailKept<T(!new)>(less: (T, T) -> bool, s: seq<T>, r: seq<T>, n: nat)
    requires |s| == |r| && n <= |s| && Tail(less, s, n) && multiset(s[..n]) == multiset(r[..n]) && s[n..] == r[n..]
    ensures Tail(less, r, n)
  {
    forall i, j | 0 <= i < j < |r| && n <= j ensures AtMost(less, r[i], r[j]) {
      assert r[j] == r[n..][j - n] && s[j] == s[n..][j - n];
      if i < n {
        assert r[..n][i] in multiset(r[..n]);
        assert r[i] in s[..n];
        var k :| 0 <= k < n && s[..n][k] == r[i];
        assert AtMost(less, s[k], s[j]);
      } else {
        assert r[i] == r[n..][i - n] && s[i] == s[n..][i - n];
        assert AtMost(less, s[i], s[j]);
      }
    }
  }

  /** One round: root to the end, then the heap shrunk by one restored. */
  method Extract<T(!new)>(less: (T, T) -> bool, h: array<T>, i: nat)
    requires Preorder(less) && 0 < i < h.Length && HeapFrom(less, h[..], 0, i + 1) && Tail(less, h[..], i + 1)
    modifies h
    ensures HeapFrom(less, h[..], 0, i) && Tail(less, h[..], i) && multiset(h[..]) == old(multiset(h[..]))
  {
    TakeRoot(less, h[..], i);
    SwapKeeps(h[..], 0, i, h.Length);
    assert h[..][..h.Length] == h[..];
    Swap(h, 0, i);
    assert h[..][..h.Length] == h[..];
    ghost var s := h[..];
    assert s[..i] == h[..i] && s[i..] == h[i..];
    SiftDown(less, h, i, 0, 0);
    assert h[..][..i] == h[..i] && h[..][i..] == h[i..];
    TailKept(less, s, h[..], i);
    assert s == s[..i] + s[i..] && h[..] == h[..i] + h[i..];
  }

  /** Any collection ends up sorted and a permutation of what it was. */
  method Sort<T(!new)>(less: (T, T) -> bool, h: array<T>)
    requires Preorder(less)
    modifies h
    ensures Sorted(less, h[..]) && multiset(h[..]) == old(multiset(h[..]))
  {
    Heapify(less, h);
    var i := h.Length - 1;
    while i > 0
      invariant -1 <= i < h.Length && (h.Length > 0 ==> i >= 0)
      invariant HeapFrom(less, h[..], 0, i + 1) && Tail(less, h[..], i + 1) && multiset(h[..]) == old(multiset(h[..]))
    {
      Extract(less, h, i);
      i := i - 1;
    }
  }
}
