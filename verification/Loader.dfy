/** Package loading (loader/loader.go): a depth-first traversal of the import graph with one
    `visited` map shared by all recursive calls. */
module Loading {

  /** Each package has programs, and each program its imports in order. */
  type Graph = map<string, seq<seq<string>>>

  predicate Imports(g: Graph, p: string, q: string)
  {
    p in g && exists i :: 0 <= i < |g[p]| && q in g[p][i]
  }

  ghost predicate ReachableIn(g: Graph, roots: set<string>, p: string, n: nat)
    decreases n
  {
    if n == 0 then p in roots else exists q :: q in g && ReachableIn(g, roots, q, n - 1) && Imports(g, q, p)
  }

  /** Some chain of imports leads to `p`. */
  ghost predicate Reachable(g: Graph, roots: set<string>, p: string) { exists n: nat :: ReachableIn(g, roots, p, n) }

  lemma StepReachable(g: Graph, roots: set<string>, p: string, q: string)
    requires Reachable(g, roots, p) && Imports(g, p, q)
    ensures Reachable(g, roots, q)
  {
    var n: nat :| ReachableIn(g, roots, p, n);
    assert ReachableIn(g, roots, q, n + 1);
  }

  /** A set with the roots and all imports of its packages contains everything reachable. */
  lemma {:induction false} ClosedContains(g: Graph, roots: set<string>, m: set<string>, p: string, n: nat)
    requires roots <= m && (forall a, b :: a in m && Imports(g, a, b) ==> b in m) && ReachableIn(g, roots, p, n)
    ensures p in m
    decreases n
  {
    if n > 0 {
      var q :| q in g && ReachableIn(g, roots, q, n - 1) && Imports(g, q, p);
      ClosedContains(g, roots, m, q, n - 1);
    }
  }

  /** A chain of `n` imports leads from `p` to `q`. */
  ghost predicate Chain(g: Graph, p: string, q: string, n: nat)
    decreases n
  {
    if n == 0 then p == q else exists r :: Imports(g, p, r) && Chain(g, r, q, n - 1)
  }

  /** The package imports itself, directly or not. */
  ghost predicate Circular(g: Graph, p: string) { exists n: nat :: n > 0 && Chain(g, p, p, n) }

  /** Imports of the packages that are loaded have lower rank. */
  ghost predicate Ranked(g: Graph, roots: set<string>, rank: string -> nat)
  {
    forall p, q :: Reachable(g, roots, p) && Imports(g, p, q) ==> rank(q) < rank(p)
  }

  ghost function Mentioned(g: Graph): set<string>
  {
    set p, i, q | p in g && 0 <= i < |g[p]| && q in g[p][i] :: q
  }

  /** What `p` imports, directly or not. */
  ghost function Below(g: Graph, p: string): set<string>
  {
    set q | q in Mentioned(g) && exists n: nat :: n > 0 && Chain(g, p, q, n)
  }

  lemma FewerBelow(g: Graph, p: string, q: string)
    requires Imports(g, p, q) && !Circular(g, q)
    ensures |Below(g, q)| < |Below(g, p)|
  {
    var i :| 0 <= i < |g[p]| && q in g[p][i];
    assert Chain(g, q, q, 0) && Chain(g, p, q, 1);
    assert q in Below(g, p) && q !in Below(g, q);
    forall r | r in Below(g, q) ensures r in Below(g, p) {
      var n: nat :| n > 0 && Chain(g, q, r, n);
      assert Chain(g, p, r, n + 1);
    }
    Smaller(Below(g, q), Below(g, p), q);
  }

  lemma Smaller(a: set<string>, b: set<string>, q: string)
    requires a <= b && q in b && q !in a
    ensures |a| < |b|
  {
    assert b == a + (b - a) && q in b - a;
  }

  /** If no package that is loaded is circular, there is a rank. */
  lemma RankBelow(g: Graph, roots: set<string>, rank: string -> nat)
    requires (forall p :: Reachable(g, roots, p) ==> !Circular(g, p)) && forall p :: rank(p) == |Below(g, p)|
    ensures Ranked(g, roots, rank)
  {
    forall p, q | Reachable(g, roots, p) && Imports(g, p, q) ensures rank(q) < rank(p) {
      StepReachable(g, roots, p, q);
      FewerBelow(g, p, q);
    }
  }

  /** Where imports come first, a chain leads backwards. */
  lemma {:induction false} ChainBack(g: Graph, pkgs: seq<string>, i: nat, q: string, n: nat)
    requires Ordered(g, pkgs, {}) && i < |pkgs| && n > 0 && Chain(g, pkgs[i], q, n)
    ensures q in pkgs[..i]
    decreases n
  {
    var r :| Imports(g, pkgs[i], r) && Chain(g, r, q, n - 1);
    ghost var none: set<string> := {};
    assert r in none || r in pkgs[..i];
    if n > 1 {
      var j :| 0 <= j < i && pkgs[j] == r;
      ChainBack(g, pkgs, j, q, n - 1);
      assert forall x :: x in pkgs[..j] ==> x in pkgs[..i];
    }
  }

  lemma OrderedNotCircular(g: Graph, pkgs: seq<string>, i: nat)
    requires Ordered(g, pkgs, {}) && NoDup(pkgs) && i < |pkgs|
    ensures !Circular(g, pkgs[i])
  {
    if Circular(g, pkgs[i]) {
      var n: nat :| n > 0 && Chain(g, pkgs[i], pkgs[i], n);
      ChainBack(g, pkgs, i, pkgs[i], n);
      assert false;
    }
  }

  predicate NoDup(s: seq<string>) { forall i, j :: 0 <= i < j < |s| ==> s[i] != s[j] }

  /** Every package comes after its imports, but for those in `before`. */
  ghost predicate Ordered(g: Graph, pkgs: seq<string>, before: set<string>)
  {
    forall i, q :: 0 <= i < |pkgs| && Imports(g, pkgs[i], q) ==> q in before || q in pkgs[..i]
  }

  function SetOf(s: seq<string>): set<string> { set p | p in s }

  /** `m` contains the imports of its packages besides `gray`. */
  ghost predicate Closed(g: Graph, m: set<string>, gray: set<string>)
  {
    forall p, q :: p in m && p !in gray && Imports(g, p, q) ==> q in m
  }

  /** Loading went from `before` to `after` and returned `pkgs`; `gray` are the packages whose
      imports are being loaded. */
  ghost predicate Loaded(g: Graph, roots: set<string>, gray: set<string>, rank: string -> nat, before: set<string>,
          after: set<string>, pkgs: seq<string>)
  {
    && NoDup(pkgs) && (forall p :: p in pkgs ==> p !in before && p in g && Reachable(g, roots, p))
    && after == before + SetOf(pkgs) && Closed(g, after, gray)
    && (Ranked(g, roots, rank) ==> Ordered(g, pkgs, before - gray))
  }

  /** Packages of the lowest rank so far, as seen from those being loaded. */
  ghost predicate Lower(g: Graph, roots: set<string>, rank: string -> nat, p: string, gray: set<string>)
  {
    Ranked(g, roots, rank) ==> forall a :: a in gray ==> rank(p) < rank(a)
  }

  lemma LoadedNone(g: Graph, roots: set<string>, gray: set<string>, rank: string -> nat, v: set<string>)
    requires Closed(g, v, gray)
    ensures Loaded(g, roots, gray, rank, v, v, [])
  {
  }

  lemma LoadedAppend(g: Graph, roots: set<string>, gray: set<string>, rank: string -> nat, v0: set<string>,
          v1: set<string>, v2: set<string>, a: seq<string>, b: seq<string>)
    requires Loaded(g, roots, gray, rank, v0, v1, a) && Loaded(g, roots, gray, rank, v1, v2, b) && gray <= v0
    ensures Loaded(g, roots, gray, rank, v0, v2, a + b)
  {
    hide Reachable, Closed, Ranked;
    assert forall p :: p in a + b <==> p in a || p in b;
    assert SetOf(a + b) == SetOf(a) + SetOf(b);
    NoDupAppend(a, b);
    if Ranked(g, roots, rank) { OrderedAppend(g, a, b, v0 - gray, v1 - gray); }
  }

  lemma NoDupAppend(a: seq<string>, b: seq<string>)
    requires NoDup(a) && NoDup(b) && forall p :: p in b ==> p !in a
    ensures NoDup(a + b)
  {
    forall i, j | 0 <= i < j < |a + b| ensures (a + b)[i] != (a + b)[j] {
      if i < |a| && j >= |a| { assert b[j - |a|] in b && a[i] in a; }
    }
  }

  lemma OrderedAppend(g: Graph, a: seq<string>, b: seq<string>, before: set<string>, between: set<string>)
    requires Ordered(g, a, before) && Ordered(g, b, between) && forall q :: q in between ==> q in before || q in a
    ensures Ordered(g, a + b, before)
  {
    forall i, q | 0 <= i < |a + b| && Imports(g, (a + b)[i], q) ensures q in before || q in (a + b)[..i] {
      if i < |a| {
        assert (a + b)[..i] == a[..i];
      } else {
        assert (a + b)[..i] == a + b[..i - |a|];
      }
    }
  }

  /** The package itself, after all it imports. */
  lemma LoadedLast(g: Graph, roots: set<string>, gray: set<string>, rank: string -> nat, v0: set<string>,
          v1: set<string>, a: seq<string>, name: string)
    requires Loaded(g, roots, gray + {name}, rank, v0 + {name}, v1, a) && gray <= v0 && name !in v0 && name in g
    requires Reachable(g, roots, name) && Lower(g, roots, rank, name, gray)
      && forall q :: Imports(g, name, q) ==> q in v1
    ensures Loaded(g, roots, gray, rank, v0, v1, a + [name])
  {
    hide Reachable;
    assert forall p :: p in a + [name] <==> p in a || p == name;
    assert SetOf(a + [name]) == SetOf(a) + {name};
    NoDupAppend(a, [name]);
    if Ranked(g, roots, rank) {
      forall q | Imports(g, name, q) ensures q in v0 - gray || q in a {
        assert rank(q) < rank(name);
      }
      OrderedLast(g, a, name, v0 - gray);
    }
  }

  lemma OrderedLast(g: Graph, a: seq<string>, name: string, before: set<string>)
    requires Ordered(g, a, before) && forall q :: Imports(g, name, q) ==> q in before || q in a
    ensures Ordered(g, a + [name], before)
  {
    forall i, q | 0 <= i < |a + [name]| && Imports(g, (a + [name])[i], q)
      ensures q in before || q in (a + [name])[..i] {
      if i < |a| {
        assert (a + [name])[..i] == a[..i];
      } else {
        assert (a + [name])[..i] == a;
      }
    }
  }

  lemma Fewer(g: Graph, v0: set<string>, v1: set<string>)
    requires v0 <= v1
    ensures |g.Keys - v1| <= |g.Keys - v0|
    ensures (exists p :: p in g && p in v1 && p !in v0) ==> |g.Keys - v1| < |g.Keys - v0|
  {
    var a, b := g.Keys - v1, g.Keys - v0;
    assert b == a + (b - a);
    if p :| p in g && p in v1 && p !in v0 { assert p in b - a; }
  }

  class Loader {
    const graph: Graph
    var visited: set<string>

    constructor (g: Graph)
      ensures graph == g && visited == {}
    {
      graph, visited := g, {};
    }

    /** Loads what is not visited yet, imports first; fails at a package that does not exist. */
    method Load(imports: seq<string>, ghost roots: set<string>, ghost gray: set<string>, ghost rank: string -> nat)
      returns (ok: bool, pkgs: seq<string>)
      requires gray <= visited && Closed(graph, visited, gray)
      requires forall p :: p in imports ==> Reachable(graph, roots, p) && Lower(graph, roots, rank, p, gray)
      modifies this`visited
      ensures ok ==>
        Loaded(graph, roots, gray, rank, old(visited), visited, pkgs) && forall p :: p in imports ==> p in visited
      ensures !ok ==> exists p :: Reachable(graph, roots, p) && p !in graph
      decreases |graph.Keys - visited|, 1
    {
      hide Reachable, Closed, Ranked, Ordered, NoDup, Lower;
      pkgs := [];
      LoadedNone(graph, roots, gray, rank, visited);
      for i := 0 to |imports|
        invariant Loaded(graph, roots, gray, rank, old(visited), visited, pkgs)
        invariant forall j :: 0 <= j < i ==> imports[j] in visited
      {
        var name := imports[i];
        if name in visited { continue; }
        if name !in graph { return false, []; }
        ghost var v := visited;
        Fewer(graph, old(visited), v);
        var more;
        ok, more := LoadOne(name, roots, gray, rank);
        if !ok { return; }
        LoadedAppend(graph, roots, gray, rank, old(visited), v, visited, pkgs, more);
        pkgs := pkgs + more;
      }
      ok := true;
    }

    /** One package: what its programs import, then itself. */
    method LoadOne(name: string, ghost roots: set<string>, ghost gray: set<string>, ghost rank: string -> nat)
      returns (ok: bool, pkgs: seq<string>)
      requires gray <= visited && Closed(graph, visited, gray) && name !in visited && name in graph
      requires Reachable(graph, roots, name) && Lower(graph, roots, rank, name, gray)
      modifies this`visited
      ensures ok ==> Loaded(graph, roots, gray, rank, old(visited), visited, pkgs) && name in visited
      ensures !ok ==> exists p :: Reachable(graph, roots, p) && p !in graph
      decreases |graph.Keys - visited|, 0
    {
      hide Reachable, Ranked, Ordered, NoDup, Lower;
      ghost var v0 := visited;
      visited := visited + {name};
      ghost var v1 := visited;
      var programs := graph[name];
      pkgs := [];
      assert Closed(graph, visited, gray + {name});
      LoadedNone(graph, roots, gray + {name}, rank, visited);
      for i := 0 to |programs|
        invariant Loaded(graph, roots, gray + {name}, rank, v1, visited, pkgs)
        invariant forall j, q :: 0 <= j < i && q in programs[j] ==> q in visited
      {
        ghost var v := visited;
        Fewer(graph, v0, v);
        Imported(graph, roots, gray, rank, name, i);
        var more;
        ok, more := Load(programs[i], roots, gray + {name}, rank);
        if !ok { return; }
        LoadedAppend(graph, roots, gray + {name}, rank, v1, v, visited, pkgs, more);
        pkgs := pkgs + more;
      }
      LoadedLast(graph, roots, gray, rank, v0, visited, pkgs, name);
      pkgs := pkgs + [name];
      ok := true;
    }
  }

  lemma Imported(g: Graph, roots: set<string>, gray: set<string>, rank: string -> nat, name: string, i: nat)
    requires name in g && i < |g[name]| && Reachable(g, roots, name) && Lower(g, roots, rank, name, gray)
    ensures forall q :: q in g[name][i] ==> Reachable(g, roots, q) && Lower(g, roots, rank, q, gray + {name})
  {
    forall q | q in g[name][i] ensures Reachable(g, roots, q) && Lower(g, roots, rank, q, gray + {name}) {
      assert Imports(g, name, q);
      StepReachable(g, roots, name, q);
    }
  }

  /** Load with nothing visited: each reachable package exactly once, and all of them; an error
      exactly if a reachable package does not exist; and packages come after their imports if
      and only if none of them imports itself, directly or not. */
  method LoadAll(graph: Graph, imports: seq<string>) returns (ok: bool, pkgs: seq<string>)
    ensures ok <==> forall p :: Reachable(graph, SetOf(imports), p) ==> p in graph
    ensures ok ==> NoDup(pkgs) && forall p :: p in pkgs <==> Reachable(graph, SetOf(imports), p)
    ensures ok ==> (Ordered(graph, pkgs, {}) <==> forall p :: p in pkgs ==> !Circular(graph, p))
  {
    hide Circular, Ranked, Ordered;
    var l := new Loader(graph);
    ghost var roots := SetOf(imports);
    ghost var rank := (p: string) => |Below(graph, p)|;
    forall p | p in imports ensures Reachable(graph, roots, p) { assert ReachableIn(graph, roots, p, 0); }
    NoneAbove(graph, imports, roots, rank);
    ok, pkgs := l.Load(imports, roots, {}, rank);
    if ok {
      ghost var none: set<string> := {};
      assert none - none == none && none + SetOf(pkgs) == SetOf(pkgs);
      assert l.visited == SetOf(pkgs);
      forall p | Reachable(graph, roots, p) ensures p in l.visited {
        var n: nat :| ReachableIn(graph, roots, p, n);
        ClosedContains(graph, roots, l.visited, p, n);
      }
      OrderExact(graph, roots, rank, pkgs);
    }
  }

  lemma NoneAbove(g: Graph, imports: seq<string>, roots: set<string>, rank: string -> nat)
    ensures forall p :: p in imports ==> Lower(g, roots, rank, p, {})
  {
  }

  lemma OrderExact(g: Graph, roots: set<string>, rank: string -> nat, pkgs: seq<string>)
    requires NoDup(pkgs) && (forall p :: p in pkgs <==> Reachable(g, roots, p))
      && (forall p :: rank(p) == |Below(g, p)|)
    requires Ranked(g, roots, rank) ==> Ordered(g, pkgs, {})
    ensures Ordered(g, pkgs, {}) <==> forall p :: p in pkgs ==> !Circular(g, p)
  {
    if Ordered(g, pkgs, {}) {
      forall p | p in pkgs ensures !Circular(g, p) {
        var i :| 0 <= i < |pkgs| && pkgs[i] == p;
        OrderedNotCircular(g, pkgs, i);
      }
    } else if forall p :: p in pkgs ==> !Circular(g, p) {
      RankBelow(g, roots, rank);
    }
  }
}
