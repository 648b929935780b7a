/** What the collector of the native runtime is to keep: the blocks reachable from the roots
    through words that are the address of a block (sydney_rt/src/gc.rs). */
module Reachability {

  type Address = nat

  /** The blocks with their sizes, and the word at every address. */
  datatype Heap = Heap(sizes: map<Address, nat>, word: Address -> Address)

  /** The word at offset `8 * k` of block `a` is `b`. */
  predicate PointsAt(h: Heap, a: Address, k: nat, b: Address)
  {
    a in h.sizes && 8 * k < h.sizes[a] && h.word(a + 8 * k) == b
  }

  ghost predicate PointsTo(h: Heap, a: Address, b: Address)
  {
    exists k: nat :: PointsAt(h, a, k, b)
  }

  /** Block `a` is reachable from a root word over `n` pointers. */
  ghost predicate ReachableIn(h: Heap, roots: set<Address>, a: Address, n: nat)
    decreases n
  {
    a in h.sizes && if n == 0 then a in roots
      else exists b :: b in h.sizes && ReachableIn(h, roots, b, n - 1) && PointsTo(h, b, a)
  }

  ghost predicate Reachable(h: Heap, roots: set<Address>, a: Address)
  {
    exists n: nat :: ReachableIn(h, roots, a, n)
  }

  lemma RootReachable(h: Heap, roots: set<Address>, a: Address)
    requires a in roots && a in h.sizes
    ensures Reachable(h, roots, a)
  {
    assert ReachableIn(h, roots, a, 0);
  }

  lemma StepReachable(h: Heap, roots: set<Address>, a: Address, b: Address)
    requires Reachable(h, roots, a) && a in h.sizes && PointsTo(h, a, b) && b in h.sizes
    ensures Reachable(h, roots, b)
  {
    var n: nat :| ReachableIn(h, roots, a, n);
    assert ReachableIn(h, roots, b, n + 1);
  }

  /** `m` contains what the blocks of `m` besides `gray` point to. */
  ghost predicate Closed(h: Heap, m: set<Address>, gray: set<Address>)
  {
    forall a, b :: a in m && a !in gray && b in h.sizes && PointsTo(h, a, b) ==> b in m
  }

  /** A closed set with the roots in it contains everything reachable. */
  lemma {:induction false} ClosedContains(h: Heap, roots: set<Address>, m: set<Address>, a: Address, n: nat)
    requires Closed(h, m, {}) && (forall r :: r in roots && r in h.sizes ==> r in m)
    requires ReachableIn(h, roots, a, n)
    ensures a in m
    decreases n
  {
    if n > 0 {
      var b :| b in h.sizes && ReachableIn(h, roots, b, n - 1) && PointsTo(h, b, a);
      ClosedContains(h, roots, m, b, n - 1);
    }
  }

  /** Exactness: a closed set of reachable blocks with the roots in it is the set of reachable
      blocks. */
  lemma ExactlyReachable(h: Heap, roots: set<Address>, m: set<Address>)
    requires Closed(h, m, {}) && (forall r :: r in roots && r in h.sizes ==> r in m)
    requires forall a :: a in m ==> Reachable(h, roots, a)
    ensures forall a :: a in m <==> Reachable(h, roots, a)
  {
    forall a | Reachable(h, roots, a) ensures a in m {
      var n: nat :| ReachableIn(h, roots, a, n);
      ClosedContains(h, roots, m, a, n);
    }
  }

  // ---------- sizes ----------

  ghost function Total(sizes: map<Address, nat>): nat
  {
    if sizes == map[] then 0 else var a :| a in sizes; sizes[a] + Total(sizes - {a})
  }

  /** The sum does not depend on the order. */
  lemma {:induction false} TotalWithout(sizes: map<Address, nat>, a: Address)
    requires a in sizes
    ensures Total(sizes) == sizes[a] + Total(sizes - {a})
    decreases |sizes|
  {
    var c :| c in sizes && Total(sizes) == sizes[c] + Total(sizes - {c});
    if c != a {
      TotalWithout(sizes - {c}, a);
      TotalWithout(sizes - {a}, c);
      assert sizes - {c} - {a} == sizes - {a} - {c};
    }
  }

  lemma TotalWith(sizes: map<Address, nat>, a: Address, n: nat)
    requires a !in sizes
    ensures Total(sizes[a := n]) == Total(sizes) + n
  {
    TotalWithout(sizes[a := n], a);
    assert sizes[a := n] - {a} == sizes;
  }

  // ---------- collecting again ----------

  ghost predicate Survives(h: Heap, roots: set<Address>, h': Heap)
  {
    && h'.word == h.word && (forall a :: a in h'.sizes <==> Reachable(h, roots, a))
    && (forall a :: a in h'.sizes ==> a in h.sizes && h'.sizes[a] == h.sizes[a])
  }

  lemma {:induction false} SurvivorReached(h: Heap, roots: set<Address>, h': Heap, a: Address, n: nat)
    requires Survives(h, roots, h') && ReachableIn(h, roots, a, n)
    ensures ReachableIn(h', roots, a, n)
    decreases n
  {
    assert Reachable(h, roots, a);
    if n > 0 {
      var b :| b in h.sizes && ReachableIn(h, roots, b, n - 1) && PointsTo(h, b, a);
      SurvivorReached(h, roots, h', b, n - 1);
      assert Reachable(h, roots, b);
      var k: nat :| PointsAt(h, b, k, a);
      assert PointsAt(h', b, k, a);
    }
  }

  /** A second collection right after the first finds nothing to free. */
  lemma NothingLeftToFree(h: Heap, roots: set<Address>, h': Heap, a: Address)
    requires Survives(h, roots, h')
    ensures a in h'.sizes <==> Reachable(h', roots, a)
  {
    if a in h'.sizes {
      var n: nat :| ReachableIn(h, roots, a, n);
      SurvivorReached(h, roots, h', a, n);
    }
  }
}
