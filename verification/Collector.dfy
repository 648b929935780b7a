/** The mark-sweep collector as it works: mark bits set by recursion over the words of the
    blocks, then a sweep with byte accounting (sydney_rt/src/gc.rs). Memory and the machine
    stack are given. */
module Collector {
  import opened Reachability

  datatype Allocation = Allocation(ptr: Address, size: nat, marked: bool)

  function Sizes(allocations: map<Address, Allocation>): (m: map<Address, nat>)
    ensures m.Keys == allocations.Keys && forall a :: a in allocations ==> m[a] == allocations[a].size
  {
    map a | a in allocations :: allocations[a].size
  }

  function Marked(allocations: map<Address, Allocation>): set<Address>
  {
    set a | a in allocations && allocations[a].marked
  }

  function Unmarked(allocations: map<Address, Allocation>): set<Address>
  {
    set a | a in allocations && !allocations[a].marked
  }

  /** The keys are the addresses of the blocks. */
  predicate Keyed(allocations: map<Address, Allocation>)
  {
    forall a :: a in allocations ==> allocations[a].ptr == a
  }

  function WordSet(words: seq<Address>): set<Address> { set w | w in words }

  /** What a sweep leaves. */
  function Swept(allocations: map<Address, Allocation>): map<Address, Allocation>
  {
    map a | a in allocations && allocations[a].marked :: allocations[a].(marked := false)
  }

  lemma FewerUnmarked(before: map<Address, Allocation>, after: map<Address, Allocation>)
    requires before.Keys == after.Keys && Marked(before) <= Marked(after)
    ensures |Unmarked(after)| <= |Unmarked(before)|
  {
    assert Unmarked(before) == before.Keys - Marked(before) && Unmarked(after) == after.Keys - Marked(after);
    Subset(Unmarked(after), Unmarked(before));
  }

  /** All words of `start` looked at: it is gray no more. */
  lemma Scanned(h: Heap, m: set<Address>, gray: set<Address>, start: Address, k: nat)
    requires Closed(h, m, gray + {start}) && start in h.sizes && 8 * k >= h.sizes[start]
    requires forall j: nat :: j < k && h.word(start + 8 * j) in h.sizes ==> h.word(start + 8 * j) in m
    ensures Closed(h, m, gray)
  {
    forall b | b in h.sizes && PointsTo(h, start, b) ensures b in m {
      var j: nat :| PointsAt(h, start, j, b);
      assert j < k;
    }
  }

  lemma Subset<T>(a: set<T>, b: set<T>)
    requires a <= b
    ensures |a| <= |b|
  {
    assert b == a + (b - a);
  }

  class GcState {
    var allocations: map<Address, Allocation>
    var globalRoots: seq<Address>
    var bytesAllocated: nat
    var threshold: nat

    /** The word at every address. */
    const word: Address -> Address

    ghost function Heap(): Heap
      reads this
    {
      Reachability.Heap(Sizes(allocations), word)
    }

    /** Between collections: no mark bits, and the counter counts the allocated bytes. */
    ghost predicate Valid()
      reads this
    {
      Keyed(allocations) && Marked(allocations) == {} && bytesAllocated == Total(Sizes(allocations))
    }

    constructor (memory: Address -> Address)
      ensures Valid() && allocations == map[] && globalRoots == [] && word == memory && threshold == 1_048_576
    {
      allocations, globalRoots, bytesAllocated, threshold, word := map[], [], 0, 1024 * 1024, memory;
      new;
      assert Sizes(allocations) == map[];
    }

    /** Marks what is reachable from `p` and not marked yet; `gray` are the blocks whose words
        are being scanned. */
    method Mark(p: Address, ghost roots: set<Address>, ghost gray: set<Address>)
      requires Keyed(allocations) && Closed(Heap(), Marked(allocations), gray)
      requires forall a :: a in Marked(allocations) ==> Reachable(Heap(), roots, a)
      requires p in allocations ==> Reachable(Heap(), roots, p)
      modifies this`allocations
      ensures Keyed(allocations) && Sizes(allocations) == old(Sizes(allocations))
      ensures Closed(Heap(), Marked(allocations), gray) && Marked(allocations) >= old(Marked(allocations))
      ensures p in allocations ==> p in Marked(allocations)
      ensures forall a :: a in Marked(allocations) ==> Reachable(Heap(), roots, a)
      decreases |Unmarked(allocations)|, 1, 0
    {
      if p in allocations {
        var a := allocations[p];
        if a.marked { return; }
        allocations := allocations[p := a.(marked := true)];
        assert Sizes(allocations) == old(Sizes(allocations));
        assert Marked(allocations) == old(Marked(allocations)) + {p};
        assert Unmarked(allocations) == old(Unmarked(allocations)) - {p};
        ScanRange(p, a.size, roots, gray);
      }
    }

    /** Marks what the words of block `start` point to; this block is gray until then. */
    method ScanRange(start: Address, size: nat, ghost roots: set<Address>, ghost gray: set<Address>)
      requires Keyed(allocations) && start in Marked(allocations) && size == allocations[start].size
      requires Closed(Heap(), Marked(allocations), gray + {start})
      requires forall a :: a in Marked(allocations) ==> Reachable(Heap(), roots, a)
      modifies this`allocations
      ensures Keyed(allocations) && Sizes(allocations) == old(Sizes(allocations))
      ensures Closed(Heap(), Marked(allocations), gray) && Marked(allocations) >= old(Marked(allocations))
      ensures forall a :: a in Marked(allocations) ==> Reachable(Heap(), roots, a)
      decreases |Unmarked(allocations)|, 2, 0
    {
      hide Closed, Reachable, Unmarked;
      var k := 0;
      while 8 * k < size
        invariant Keyed(allocations) && Sizes(allocations) == old(Sizes(allocations))
        invariant Closed(Heap(), Marked(allocations), gray + {start}) && Marked(allocations) >= old(Marked(allocations))
        invariant forall a :: a in Marked(allocations) ==> Reachable(Heap(), roots, a)
        invariant forall j: nat :: j < k && word(start + 8 * j) in allocations ==>
          word(start + 8 * j) in Marked(allocations)
        decreases size - 8 * k
      {
        var value := word(start + 8 * k);
        assert PointsAt(Heap(), start, k, value);
        if value in allocations { StepReachable(Heap(), roots, start, value); }
        FewerUnmarked(old(allocations), allocations);
        Mark(value, roots, gray + {start});
        k := k + 1;
      }
      Scanned(Heap(), Marked(allocations), gray, start, k);
    }

    /** The machine words that are the address of a block. */
    method StackRoots(stack: seq<Address>) returns (roots: seq<Address>)
      ensures forall a :: a in roots <==> a in stack && a in allocations
    {
      roots := [];
      for i := 0 to |stack|
        invariant forall a :: a in roots <==> a in stack[..i] && a in allocations
      {
        assert stack[..i + 1] == stack[..i] + [stack[i]];
        if stack[i] in allocations { roots := roots + [stack[i]]; }
      }
    }

    method MarkAll(words: seq<Address>, ghost roots: set<Address>)
      requires Keyed(allocations) && Closed(Heap(), Marked(allocations), {}) && WordSet(words) <= roots
      requires forall a :: a in Marked(allocations) ==> Reachable(Heap(), roots, a)
      modifies this`allocations
      ensures Keyed(allocations) && Sizes(allocations) == old(Sizes(allocations))
      ensures Closed(Heap(), Marked(allocations), {}) && Marked(allocations) >= old(Marked(allocations))
      ensures forall w :: w in words && w in allocations ==> w in Marked(allocations)
      ensures forall a :: a in Marked(allocations) ==> Reachable(Heap(), roots, a)
    {
      for i := 0 to |words|
        invariant Keyed(allocations) && Sizes(allocations) == old(Sizes(allocations))
        invariant Closed(Heap(), Marked(allocations), {}) && Marked(allocations) >= old(Marked(allocations))
        invariant forall j :: 0 <= j < i && words[j] in allocations ==> words[j] in Marked(allocations)
        invariant forall a :: a in Marked(allocations) ==> Reachable(Heap(), roots, a)
      {
        assert words[i] in WordSet(words);
        if words[i] in allocations { RootReachable(Heap(), roots, words[i]); }
        Mark(words[i], roots, {});
      }
    }

    /** Frees the unmarked blocks and clears the mark bits, in any order. */
    method Sweep()
      requires Keyed(allocations) && bytesAllocated == Total(Sizes(allocations))
      modifies this`allocations, this`bytesAllocated
      ensures allocations == Swept(old(allocations)) && bytesAllocated == Total(Sizes(allocations))
    {
      ghost var all := allocations;
      var todo := allocations.Keys;
      while todo != {}
        invariant todo <= allocations.Keys <= all.Keys
        invariant forall a :: a in todo ==> allocations[a] == all[a]
        invariant forall a :: a in all && a !in todo ==> (a in allocations <==> all[a].marked)
        invariant forall a :: a in allocations && a !in todo ==> allocations[a] == all[a].(marked := false)
        invariant bytesAllocated == Total(Sizes(allocations))
        decreases |todo|
      {
        var a :| a in todo;
        todo := todo - {a};
        SweepOne(a);
      }
      assert allocations == Swept(all);
    }

    method SweepOne(a: Address)
      requires a in allocations && bytesAllocated == Total(Sizes(allocations))
      modifies this`allocations, this`bytesAllocated
      ensures bytesAllocated == Total(Sizes(allocations))
      ensures allocations == if old(allocations)[a].marked
        then old(allocations)[a := old(allocations)[a].(marked := false)]
        else old(allocations) - {a}
    {
      var block := allocations[a];
      if block.marked {
        allocations := allocations[a := block.(marked := false)];
        assert Sizes(allocations) == old(Sizes(allocations));
      } else {
        TotalWithout(Sizes(allocations), a);
        bytesAllocated := bytesAllocated - block.size;
        allocations := allocations - {a};
        assert Sizes(allocations) == old(Sizes(allocations)) - {a};
      }
    }

    ghost function Roots(stack: seq<Address>): set<Address>
      reads this
    {
      WordSet(Pointees(globalRoots, word)) + WordSet(stack)
    }

    /** The blocks that remain are exactly those reachable from the words of the global roots
        and of the stack; they are as they were, and the counter counts them. */
    method Collect(stack: seq<Address>)
      requires Valid()
      modifies this`allocations, this`bytesAllocated
      ensures Valid()
      ensures forall a :: a in allocations <==> Reachable(old(Heap()), old(Roots(stack)), a)
      ensures forall a :: a in allocations ==> a in old(allocations) && allocations[a] == old(allocations)[a]
    {
      ghost var h, roots := Heap(), Roots(stack);
      var stackRoots := StackRoots(stack);
      var globals := [];
      for i := 0 to |globalRoots|
        invariant globals == Pointees(globalRoots[..i], word)
      {
        globals := globals + [word(globalRoots[i])];
        assert globalRoots[..i + 1][..i] == globalRoots[..i];
      }
      assert globalRoots[..|globalRoots|] == globalRoots;
      MarkAll(globals, roots);
      MarkAll(stackRoots, roots);
      ExactlyReachable(h, roots, Marked(allocations));
      MarkedOnly(old(allocations), allocations);
      Sweep();
    }

    /** Collects first when the threshold is reached: then of the old blocks exactly the reachable
        ones remain, and otherwise all. `ptr` is what the system allocator
        answers; it is not the address of a block still allocated. */
    method Alloc(size: int, ptr: Address, stack: seq<Address>) returns (ok: bool, r: Address)
      requires Valid()
      requires ptr in allocations ==> bytesAllocated >= threshold && !Reachable(Heap(), Roots(stack), ptr)
      modifies this`allocations, this`bytesAllocated
      ensures Valid() && (ok <==> size <= 0 || ptr != 0) && r == if size <= 0 || !ok then 0 else ptr
      ensures r != 0 ==> r in allocations && allocations[r] == Allocation(r, size, false)
      ensures forall a :: a in allocations && (a != r || r == 0) ==>
        a in old(allocations) && allocations[a] == old(allocations)[a]
      ensures forall a ::
        a in old(allocations) && (old(bytesAllocated) < threshold || Reachable(old(Heap()), old(Roots(stack)), a)) ==>
          a in allocations
      ensures forall a :: a in allocations && (a != r || r == 0) ==>
        old(bytesAllocated) < threshold || Reachable(old(Heap()), old(Roots(stack)), a)
    {
      if bytesAllocated >= threshold { Collect(stack); }
      if size <= 0 { return true, 0; }
      if ptr == 0 { return false, 0; }
      TotalWith(Sizes(allocations), ptr, size);
      ghost var before := allocations;
      allocations := allocations[ptr := Allocation(ptr, size, false)];
      bytesAllocated := bytesAllocated + size;
      assert Sizes(allocations) == Sizes(before)[ptr := size];
      assert Marked(allocations) == Marked(before);
      return true, ptr;
    }

    method AddGlobalRoot(root: Address)
      modifies this`globalRoots
      ensures globalRoots == old(globalRoots) + [root]
      ensures forall stack :: Roots(stack) == old(Roots(stack)) + {word(root)}
    {
      globalRoots := globalRoots + [root];
      PointeesMore(old(globalRoots), root, word);
    }

    method Shutdown()
      modifies this`allocations, this`bytesAllocated, this`globalRoots
      ensures Valid() && allocations == map[] && globalRoots == [] && bytesAllocated == 0
    {
      allocations, globalRoots, bytesAllocated := map[], [], 0;
      assert Sizes(allocations) == map[];
    }
  }

  /** The words the global roots are cells of. */
  function Pointees(roots: seq<Address>, word: Address -> Address): seq<Address>
  {
    if roots == [] then [] else Pointees(roots[..|roots| - 1], word) + [word(roots[|roots| - 1])]
  }

  lemma PointeesMore(roots: seq<Address>, root: Address, word: Address -> Address)
    ensures WordSet(Pointees(roots + [root], word)) == WordSet(Pointees(roots, word)) + {word(root)}
  {
    assert (roots + [root])[..|roots|] == roots;
  }

  /** Marking changed nothing but mark bits. */
  lemma MarkedOnly(before: map<Address, Allocation>, after: map<Address, Allocation>)
    requires Keyed(before) && Keyed(after) && Sizes(before) == Sizes(after) && Marked(before) == {}
    ensures Swept(after).Keys == Marked(after)
      && forall a :: a in Swept(after) ==> a in before && Swept(after)[a] == before[a]
    ensures Keyed(Swept(after)) && Marked(Swept(after)) == {}
  {
    forall a | a in Swept(after) ensures a in before && Swept(after)[a] == before[a] {
      assert a in Sizes(before) && before[a].size == after[a].size;
      assert a !in Marked(before);
    }
  }

  /** What the collector leaves is what it leaves when called again. */
  lemma CollectedTwice(before: map<Address, Allocation>, after: map<Address, Allocation>, word: Address -> Address,
          roots: set<Address>, a: Address)
    requires forall b :: b in after <==> Reachable(Heap(Sizes(before), word), roots, b)
    requires forall b :: b in after ==> b in before && after[b] == before[b]
    ensures a in after <==> Reachable(Heap(Sizes(after), word), roots, a)
  {
    NothingLeftToFree(Heap(Sizes(before), word), roots, Heap(Sizes(after), word), a);
  }
}
