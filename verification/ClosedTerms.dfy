/** Which terms compile: exactly those whose names are all bound, and that assign to no parameter. */
module ClosedTerms {
  import opened Language
  import opened Closures
  import opened Conversion

  /** The names that can be used, and whether they are constants. */
  type Bound = map<string, bool>

  /** A function's own name, then its parameters. */
  function Entering(known: Bound, name: string, params: seq<string>): Bound
  {
    WithParams(if name == "" then known else known[name := false], params)
  }

  function WithParams(known: Bound, params: seq<string>): Bound
    decreases |params|
  {
    if params == [] then known else WithParams(known[params[0] := true], params[1..])
  }

  predicate ClosedTerm(t: Term, known: Bound)
  {
    match t
    case Num(_) => true
    case Var(x) => x in known
    case Plus(l, r) => ClosedTerm(l, known) && ClosedTerm(r, known)
    case Let(x, e, body) => ClosedTerm(e, known) && ClosedTerm(body, known[x := false])
    case Set(x, e, body) => x in known && !known[x] && ClosedTerm(e, known) && ClosedTerm(body, known)
    case Fn(name, params, body) => ClosedTerm(body, Entering(known, name, params))
    case App(f, args) => ClosedTerm(f, known) && ClosedTerms(args, known)
  }

  predicate ClosedTerms(ts: Terms, known: Bound)
  {
    ts.TCons? ==> ClosedTerm(ts.head, known) && ClosedTerms(ts.tail, known)
  }

  /** The tables know exactly these names. */
  ghost predicate Tells(st: seq<Level>, known: Bound)
  {
    && (forall x :: Resolve(st, x).sym.Some? <==> x in known)
    && (forall x :: x in known ==> (Parameter(st, x) <==> known[x]))
  }

  // ---------- the tables tell the same after they have grown ----------

  lemma {:induction false} SameTold(st: seq<Level>, st': seq<Level>, x: string)
    requires AllGrow(st, st') && StackOk(st) && StackOk(st')
    ensures Resolve(st, x).sym.Some? <==> Resolve(st', x).sym.Some?
    ensures Parameter(st, x) <==> Parameter(st', x)
    decreases |st|
  {
    if st != [] {
      TailGrows(st, st');
      TailOk(st);
      TailOk(st');
      SameTold(st[1..], st'[1..], x);
      assert Grows(st[0], st'[0]);
      if x in st'[0].store && x !in st[0].store { NewCapture(st', x); }
      if Known(st[0], x).Some? { KnownKept(st[0], st'[0], x); }
    }
  }

  /** What a function has captured is known around it. */
  lemma NewCapture(st: seq<Level>, x: string)
    requires StackOk(st) && st != [] && x in st[0].store && st[0].store[x].Free?
    ensures |st| > 1 && Resolve(st[1..], x).sym.Some?
  {
    var i := st[0].store[x].i;
    assert FreeNamed(st[0]) && st[0].free[i].0 == x;
    if |st| > 1 { assert CapturesKnown(st[0], st[0 + 1]); }
  }

  lemma TellsGrow(st: seq<Level>, st': seq<Level>, known: Bound)
    requires AllGrow(st, st') && StackOk(st) && StackOk(st') && Tells(st, known)
    ensures Tells(st', known)
  {
    forall x ensures Resolve(st', x).sym.Some? == Resolve(st, x).sym.Some? && Parameter(st', x) == Parameter(st, x) {
      SameTold(st, st', x);
    }
  }

  lemma TellsPush(st: seq<Level>, x: string, known: Bound)
    requires st != [] && Tells(st, known)
    ensures Tells(PushBlock(st, x), known[x := false])
  {
    var p := PushBlock(st, x);
    assert p[0].blocks[1..] == st[0].blocks && p[1..] == st[1..];
    forall y ensures InBlocks(p[0].blocks, y) == if y == x then Some(VarSym(st)) else InBlocks(st[0].blocks, y) { }
    forall y | y != x ensures Resolve(p, y).sym.Some? == Resolve(st, y).sym.Some?
      && Parameter(p, y) == Parameter(st, y) {
      assert Known(p[0], y) == Known(st[0], y);
    }
  }

  /** A function's own table: its name and parameters before what is around. */
  lemma {:induction false} StoreTells(params: seq<string>, from: nat, store: map<string, Sym>, known: Bound,
          outer: Bound)
    requires forall x :: x in known <==> x in outer || x in store
    requires forall x :: x in store ==> !store[x].Free? && !store[x].Global? && (known[x] <==> store[x].Local?)
    requires forall x :: x in outer && x !in store ==> known[x] == outer[x]
    ensures var s, k := ParamStore(params, from, store), WithParams(known, params);
      && (forall x :: x in k <==> x in outer || x in s)
      && (forall x :: x in s ==> !s[x].Free? && !s[x].Global? && (k[x] <==> s[x].Local?))
      && (forall x :: x in outer && x !in s ==> k[x] == outer[x])
    decreases |params|
  {
    if params != [] {
      StoreTells(params[1..], from + 1, store[params[0] := Local(from)], known[params[0] := true], outer);
    }
  }

  lemma TellsEnter(st: seq<Level>, name: string, params: seq<string>, known: Bound)
    requires st != [] && Tells(st, known)
    ensures Tells([FnLevel(name, params)] + st, Entering(known, name, params))
  {
    var lv, k := FnLevel(name, params), Entering(known, name, params);
    var store: map<string, Sym> := if name == "" then map[] else map[name := Self];
    StoreTells(params, 0, store, if name == "" then known else known[name := false], known);
    var q := [lv] + st;
    assert q[1..] == st;
    forall x ensures Resolve(q, x).sym.Some? <==> x in k {
      assert Known(lv, x).Some? <==> x in lv.store;
    }
    forall x | x in k ensures Parameter(q, x) <==> k[x] {
      assert Parameter(q, x) == if x in lv.store then lv.store[x].Local? else Parameter(st, x);
    }
  }

  // ---------- what compiles ----------

  /** A term compiles if and only if it is closed. */
  lemma {:induction false} CompilesExactly(t: Term, st: seq<Level>, known: Bound)
    requires st != [] && StackOk(st) && Tells(st, known)
    ensures Compile(t, st).Compiled? <==> ClosedTerm(t, known)
    decreases t
  {
    hide StackOk, AllGrow, Tells;
    match t
    case Num(_) =>
    case Var(x) => Told(st, known, x);
    case Plus(l, r) =>
      CompilesExactly(l, st, known);
      if Compile(l, st).Compiled? {
        CompileGrows(l, st);
        TellsGrow(st, Compile(l, st).st, known);
        CompilesExactly(r, Compile(l, st).st, known);
      }
    case Let(x, e, body) =>
      CompilesExactly(e, st, known);
      if Compile(e, st).Compiled? {
        var a := Compile(e, st).st;
        CompileGrows(e, st);
        TellsGrow(st, a, known);
        TellsPush(a, x, known);
        PushOk(a, x);
        CompilesExactly(body, PushBlock(a, x), known[x := false]);
      }
    case Set(x, e, body) =>
      CompilesExactly(e, st, known);
      if Compile(e, st).Compiled? {
        var a := Compile(e, st).st;
        CompileGrows(e, st);
        TellsGrow(st, a, known);
        Told(a, known, x);
        ResolveGrows(a, x);
        TellsGrow(a, Resolve(a, x).st, known);
        CompilesExactly(body, Resolve(a, x).st, known);
      }
    case Fn(name, params, body) =>
      LevelNamed(name, params);
      EnterOk(st, FnLevel(name, params));
      TellsEnter(st, name, params, known);
      CompilesExactly(body, [FnLevel(name, params)] + st, Entering(known, name, params));
    case App(f, args) =>
      CompilesExactly(f, st, known);
      if Compile(f, st).Compiled? {
        CompileGrows(f, st);
        TellsGrow(st, Compile(f, st).st, known);
        ArgsCompile(args, Compile(f, st).st, known);
      }
  }

  lemma Told(st: seq<Level>, known: Bound, x: string)
    requires Tells(st, known)
    ensures Resolve(st, x).sym.Some? <==> x in known
    ensures x in known ==> (Parameter(st, x) <==> known[x])
  {
  }

  lemma {:induction false} ArgsCompile(ts: Terms, st: seq<Level>, known: Bound)
    requires st != [] && StackOk(st) && Tells(st, known)
    ensures CompileArgs(ts, st).Compiled? <==> ClosedTerms(ts, known)
    decreases ts
  {
    hide StackOk, AllGrow, Tells;
    if ts.TCons? {
      CompilesExactly(ts.head, st, known);
      if Compile(ts.head, st).Compiled? {
        CompileGrows(ts.head, st);
        TellsGrow(st, Compile(ts.head, st).st, known);
        ArgsCompile(ts.tail, Compile(ts.head, st).st, known);
      }
    }
  }

  lemma ProgramCompiles(t: Term)
    ensures Compile(t, [GLOBAL]).Compiled? <==> ClosedTerm(t, map[])
  {
    assert StackOk([GLOBAL]);
    assert [GLOBAL][1..] == [];
    forall x ensures Resolve([GLOBAL], x).sym.None? && !Parameter([GLOBAL], x) {
      assert Known(GLOBAL, x).None?;
    }
    CompilesExactly(t, [GLOBAL], map[]);
  }
}
