/** What source programs compute: branches, scopes, assignments and loops. */
module Meaning {
  import opened Language
  import opened Typing
  import opened Codegen
  import opened Preservation
  import opened Compilability
  import opened SmallPrograms
  import opened Arithmetic
  import opened Scoping
  import opened Machine

  function Just(e: Expr): Block { Seq(ExprStmt(e), Empty) }

  function Let(x: string, e: Expr): Stmt { VarDecl(false, x, None, Some(e)) }

  /** The value of a program, if it comes to one. */
  function Result(prog: Block, fuel: nat): Option<Value>
  {
    match ExecStmts(prog, [map[]], fuel) case Val(v, _) => Some(v) case _ => None
  }

  // ---------- one step ----------

  lemma SeqMeans(h: Stmt, t: Block, s: Store, fuel: nat)
    ensures ExecStmts(Seq(h, t), s, fuel)
      == var o := ExecS(h, s, fuel); if !o.Val? || t.Empty? then o else ExecStmts(t, o.s, fuel)
  {
    hide ExecS;
  }

  lemma JustMeans(e: Expr, s: Store, fuel: nat)
    ensures ExecStmts(Just(e), s, fuel) == EvalE(e, s, fuel)
  {
    hide EvalE, ExecStmts;
    SeqMeans(ExprStmt(e), Empty, s, fuel);
    ExprMeans(e, s, fuel);
  }

  lemma ExprMeans(e: Expr, s: Store, fuel: nat)
    ensures ExecS(ExprStmt(e), s, fuel) == EvalE(e, s, fuel)
  {
    hide EvalE;
  }

  lemma LetMeans(x: string, e: Expr, s: Store, fuel: nat)
    requires s != [] && EvalE(e, s, fuel).Val? && EvalE(e, s, fuel).s == s
    ensures ExecS(Let(x, e), s, fuel) == Val(NullV, [s[0][x := EvalE(e, s, fuel).v]] + s[1..])
  {
    hide EvalE;
  }

  lemma AssignMeans(x: string, e: Expr, s: Store, fuel: nat)
    requires EvalE(e, s, fuel).Val? && EvalE(e, s, fuel).s == s
    ensures ExecS(Assign(x, e), s, fuel) == Val(NullV, Update(s, x, EvalE(e, s, fuel).v))
  {
    hide EvalE;
  }

  lemma IfMeans(c: Expr, a: Block, b: Option<Block>, unit: bool, s: Store, fuel: nat)
    requires EvalE(c, s, fuel).Val? && EvalE(c, s, fuel).v.BoolV? && EvalE(c, s, fuel).s == s
    ensures EvalE(If(c, a, b, unit), s, fuel)
      == if EvalE(c, s, fuel).v.b then Valued(unit, ExecBlock(a, s, fuel))
      else if b.Some? then Valued(unit, ExecBlock(b.value, s, fuel)) else Val(NullV, s)
  {
    hide ExecBlock;
    assert EvalTruthy(EvalE(c, s, fuel).v) <==> EvalE(c, s, fuel).v.b;
  }

  lemma BlockMeans(b: Block, s: Store, fuel: nat)
    ensures ExecBlock(b, s, fuel) == Pop(ExecStmts(b, [map[]] + s, fuel))
  {
    hide ExecStmts;
  }

  // ---------- branches and scopes ----------

  /** The first branch on true, the second on false. */
  lemma BranchLaw(v: bool, n: int, m: int, fuel: nat)
    ensures Result(Just(If(BoolLit(v), Just(IntLit(n)), Some(Just(IntLit(m))), false)), fuel)
      == Some(IntV(if v then n else m))
  {
    hide ExecStmts, ExecBlock;
    var s: Store := [map[]];
    assert ([map[]] + s)[1..] == s;
    forall k: int ensures ExecBlock(Just(IntLit(k)), s, fuel) == Val(IntV(k), s) {
      BlockMeans(Just(IntLit(k)), s, fuel);
      JustMeans(IntLit(k), [map[]] + s, fuel);
    }
    var e := If(BoolLit(v), Just(IntLit(n)), Some(Just(IntLit(m))), false);
    IfMeans(BoolLit(v), Just(IntLit(n)), Some(Just(IntLit(m))), false, s, fuel);
    JustMeans(e, s, fuel);
  }

  /** `let x = n; if (true) { let x = m; x = k }; x`: what a block declares and then assigns is its
      own. `let x = n; if (true) { x = m }; x`: what it does not declare is not. */
  lemma ScopeLaw(x: string, n: int, m: int, k: int, fuel: nat)
    ensures Result(Seq(Let(x, IntLit(n)), Seq(ExprStmt(If(BoolLit(true),
      Seq(Let(x, IntLit(m)), Seq(Assign(x, IntLit(k)), Empty)), None, true)), Just(Ident(x)))), fuel) == Some(IntV(n))
    ensures Result(Seq(Let(x, IntLit(n)), Seq(ExprStmt(If(BoolLit(true),
      Seq(Assign(x, IntLit(m)), Empty), None, true)), Just(Ident(x)))), fuel) == Some(IntV(m))
  {
    hide ExecStmts, ExecBlock, ExecS;
    var b1, b2 := Seq(Let(x, IntLit(m)), Seq(Assign(x, IntLit(k)), Empty)), Seq(Assign(x, IntLit(m)), Empty);
    Hides(x, n, m, k, fuel);
    Assigns(x, n, m, fuel);
    AroundBlock(x, n, b1, n, fuel);
    AroundBlock(x, n, b2, m, fuel);
  }

  lemma AroundBlock(x: string, n: int, b: Block, v: int, fuel: nat)
    requires ExecBlock(b, [map[x := IntV(n)]], fuel) == Val(NullV, [map[x := IntV(v)]])
    ensures Result(Seq(Let(x, IntLit(n)), Seq(ExprStmt(If(BoolLit(true), b, None, true)), Just(Ident(x)))), fuel)
      == Some(IntV(v))
  {
    hide ExecStmts, ExecBlock, ExecS, EvalE;
    var s0: Store := [map[]];
    var s1: Store := [map[x := IntV(n)]];
    var s2: Store := [map[x := IntV(v)]];
    var none: map<string, Value> := map[];
    var e := If(BoolLit(true), b, None, true);
    LiteralMeans(n, s0, fuel);
    LetMeans(x, IntLit(n), s0, fuel);
    assert s0[0] == none && none[x := IntV(n)] == map[x := IntV(n)] && [s0[0][x := IntV(n)]] + s0[1..] == s1;
    SeqMeans(Let(x, IntLit(n)), Seq(ExprStmt(e), Just(Ident(x))), s0, fuel);
    SeqMeans(ExprStmt(e), Just(Ident(x)), s1, fuel);
    ExprMeans(e, s1, fuel);
    TrueMeans(s1, fuel);
    IfMeans(BoolLit(true), b, None, true, s1, fuel);
    JustMeans(Ident(x), s2, fuel);
    NameMeans(x, IntV(v), s2, fuel);
  }

  lemma TrueMeans(s: Store, fuel: nat)
    ensures EvalE(BoolLit(true), s, fuel) == Val(BoolV(true), s)
  { }

  lemma Hides(x: string, n: int, m: int, k: int, fuel: nat)
    ensures ExecBlock(Seq(Let(x, IntLit(m)), Seq(Assign(x, IntLit(k)), Empty)), [map[x := IntV(n)]], fuel)
      == Val(NullV, [map[x := IntV(n)]])
  {
    hide ExecStmts, ExecS, ExecBlock;
    var s: Store := [map[x := IntV(n)]];
    var s0, s1 := [map[]] + s, [map[x := IntV(m)]] + s;
    var b := Seq(Assign(x, IntLit(k)), Empty);
    LetMeans(x, IntLit(m), s0, fuel);
    assert s0[1..] == s && s1[1..] == s;
    AssignMeans(x, IntLit(k), s1, fuel);
    assert s1[0][x := IntV(k)] == map[x := IntV(k)];
    SeqMeans(Let(x, IntLit(m)), b, s0, fuel);
    SeqMeans(Assign(x, IntLit(k)), Empty, s1, fuel);
    BlockMeans(Seq(Let(x, IntLit(m)), b), s, fuel);
  }

  lemma Assigns(x: string, n: int, m: int, fuel: nat)
    ensures ExecBlock(Seq(Assign(x, IntLit(m)), Empty), [map[x := IntV(n)]], fuel) == Val(NullV, [map[x := IntV(m)]])
  {
    hide ExecStmts, ExecS, ExecBlock;
    var s: Store := [map[x := IntV(n)]];
    var s0 := [map[]] + s;
    AssignMeans(x, IntLit(m), s0, fuel);
    assert s0[1..] == s && s[0][x := IntV(m)] == map[x := IntV(m)] && s[1..] == [];
    SeqMeans(Assign(x, IntLit(m)), Empty, s0, fuel);
    BlockMeans(Seq(Assign(x, IntLit(m)), Empty), s, fuel);
    var r: Store := [map[x := IntV(m)]];
    assert Update(s, x, IntV(m)) == r;
    assert Update(s0, x, IntV(m)) == [map[]] + r && ([map[]] + r)[1..] == r;
  }

  // ---------- loops ----------

  /** What the body of the loop does before it adds. */
  datatype Extra = Nothing | Breaking(at: int) | Continuing(at: int)

  function Adding(a: int): Block { Seq(Assign("s", Infix(Add, Ident("s"), IntLit(a))), Empty) }

  function Leaving(at: int, how: Stmt): Stmt
  {
    ExprStmt(If(Infix(Eq, Ident("i"), IntLit(at)), Seq(how, Empty), None, true))
  }

  function LoopBody(x: Extra, a: int): Block
  {
    match x
    case Nothing => Adding(a)
    case Breaking(k) => Seq(Leaving(k, Break), Adding(a))
    case Continuing(k) => Seq(Leaving(k, Continue), Adding(a))
  }

  /** `for (let i = 0; i < n; i = i + 1) { ... s = s + a }` */
  function Counting(x: Extra, n: int, a: int): Stmt
  {
    For(Some(Let("i", IntLit(0))), Infix(Lt, Ident("i"), IntLit(n)),
      Some(Assign("i", Infix(Add, Ident("i"), IntLit(1)))), LoopBody(x, a))
  }

  /** `let s = 0; for ...; s` */
  function Summing(x: Extra, n: int, a: int): Block
  {
    Seq(Let("s", IntLit(0)), Seq(Counting(x, n, a), Just(Ident("s"))))
  }

  /** How often the body adds from the turn `j` on. */
  function Turns(x: Extra, j: int, n: int): int
  {
    match x
    case Nothing => n - j
    case Breaking(k) => if j <= k < n then k - j else n - j
    case Continuing(k) => if j <= k < n then n - j - 1 else n - j
  }

  function At(j: int, acc: int): Store { [map["i" := IntV(j)], map["s" := IntV(acc)]] }

  function Sum(t: int): Store { [map["s" := IntV(Wrap(t))]] }

  lemma Variables(j: int, acc: int, v: int)
    ensures Lookup(At(j, acc), "i") == Some(IntV(j)) && Lookup(At(j, acc), "s") == Some(IntV(acc))
    ensures Lookup([map[]] + At(j, acc), "i") == Some(IntV(j)) && Lookup([map[]] + At(j, acc), "s") == Some(IntV(acc))
    ensures Update(At(j, acc), "i", IntV(v)) == At(v, acc)
    ensures Update([map[]] + At(j, acc), "s", IntV(v)) == [map[]] + At(j, v)
  {
    var s := At(j, acc);
    var t: Store := [map["s" := IntV(acc)]];
    assert s[1..] == t && t[1..] == [] && ([map[]] + s)[1..] == s;
    assert t[0]["s" := IntV(v)] == map["s" := IntV(v)];
    assert Update(t, "s", IntV(v)) == [map["s" := IntV(v)]] + t[1..];
    assert Update(s, "s", IntV(v)) == At(j, v);
    assert s[0]["i" := IntV(v)] == map["i" := IntV(v)];
    assert Lookup(t, "s") == Some(IntV(acc));
  }

  lemma OperatorMeans(op: InfixOp, x: string, n: int, s: Store, fuel: nat)
    requires Lookup(s, x).Some? && Lookup(s, x).value.IntV?
    ensures var v := Lookup(s, x).value.n; var o := EvalE(Infix(op, Ident(x), IntLit(n)), s, fuel);
      && (op == Add ==> o == Val(IntV(Wrap(v + n)), s))
      && (op == Lt ==> o == Val(BoolV(v < n), s))
      && (op == Eq ==> o == Val(BoolV(v == n), s))
  {
    hide Lookup;
    assert EvalE(Ident(x), s, fuel) == Val(Lookup(s, x).value, s);
    assert EvalE(IntLit(n), s, fuel) == Val(IntV(n), s);
  }

  lemma AddingMeans(a: int, j: int, acc: int, fuel: nat)
    ensures ExecStmts(Adding(a), [map[]] + At(j, acc), fuel) == Val(NullV, [map[]] + At(j, Wrap(acc + a)))
  {
    hide EvalE, ExecStmts, ExecS, Lookup, Update;
    var e, s := Infix(Add, Ident("s"), IntLit(a)), [map[]] + At(j, acc);
    Variables(j, acc, Wrap(acc + a));
    OperatorMeans(Add, "s", a, s, fuel);
    AssignMeans("s", e, s, fuel);
    SeqMeans(Assign("s", e), Empty, s, fuel);
  }

  lemma LeavingMeans(k: int, how: Stmt, j: int, acc: int, fuel: nat)
    requires how == Break || how == Continue
    ensures var s := [map[]] + At(j, acc);
      ExecS(Leaving(k, how), s, fuel) == if j != k then Val(NullV, s) else if how == Break then Brk(s) else Cnt(s)
  {
    hide EvalE, ExecStmts, ExecS, Lookup, Update, ExecBlock;
    var c, s := Infix(Eq, Ident("i"), IntLit(k)), [map[]] + At(j, acc);
    Variables(j, acc, 0);
    OperatorMeans(Eq, "i", k, s, fuel);
    ExprMeans(If(c, Seq(how, Empty), None, true), s, fuel);
    IfMeans(c, Seq(how, Empty), None, true, s, fuel);
    BlockMeans(Seq(how, Empty), s, fuel);
    SeqMeans(how, Empty, [map[]] + s, fuel);
    LeaveMeans([map[]] + s, fuel);
    assert ([map[]] + s)[1..] == s;
  }

  lemma LeaveMeans(s: Store, fuel: nat)
    ensures ExecS(Break, s, fuel) == Brk(s) && ExecS(Continue, s, fuel) == Cnt(s)
  { }

  /** One execution of the body. */
  lemma BodyMeans(x: Extra, a: int, j: int, acc: int, fuel: nat)
    ensures ExecBlock(LoopBody(x, a), At(j, acc), fuel)
      == if x.Breaking? && x.at == j then Brk(At(j, acc)) else if x.Continuing? && x.at == j then Cnt(At(j, acc))
      else Val(NullV, At(j, Wrap(acc + a)))
  {
    hide ExecStmts, ExecS, ExecBlock;
    var s := [map[]] + At(j, acc);
    assert s[1..] == At(j, acc) && ([map[]] + At(j, Wrap(acc + a)))[1..] == At(j, Wrap(acc + a));
    AddingMeans(a, j, acc, fuel);
    BlockMeans(LoopBody(x, a), At(j, acc), fuel);
    if !x.Nothing? {
      var how := if x.Breaking? then Break else Continue;
      LeavingMeans(x.at, how, j, acc, fuel);
      SeqMeans(Leaving(x.at, how), Adding(a), s, fuel);
    }
  }

  lemma TestMeans(n: int, j: int, acc: int, fuel: nat)
    requires InRange(j + 1)
    ensures EvalE(Infix(Lt, Ident("i"), IntLit(n)), At(j, acc), fuel) == Val(BoolV(j < n), At(j, acc))
    ensures ExecOpt(Some(Assign("i", Infix(Add, Ident("i"), IntLit(1)))), At(j, acc), fuel) == Val(NullV,
      At(j + 1, acc))
  {
    hide EvalE, ExecS, Lookup, Update;
    var e := Infix(Add, Ident("i"), IntLit(1));
    Variables(j, acc, j + 1);
    OperatorMeans(Lt, "i", n, At(j, acc), fuel);
    OperatorMeans(Add, "i", 1, At(j, acc), fuel);
    AssignMeans("i", e, At(j, acc), fuel);
    assert Wrap(j + 1) == j + 1;
  }

  lemma WrapTwice(t: int, a: int)
    ensures Wrap(Wrap(t) + a) == Wrap(t + a)
  {
    assert Wrap(t) == t + (-((t + TWO_63) / TWO_64)) * TWO_64;
    WrapExact(t + a, Wrap(Wrap(t) + a));
    WrapExact(Wrap(t) + a, Wrap(Wrap(t) + a));
    WrapExact(t, Wrap(t));
    CongruentAdd(Wrap(t), t, a, a) by { assert a == a + 0 * TWO_64; }
    CongruentTrans(Wrap(Wrap(t) + a), Wrap(t) + a, t + a);
  }

  lemma {:induction false} LoopMeans(x: Extra, n: int, a: int, j: int, t: int, fuel: nat)
    requires 0 <= j <= n && InRange(n + 1) && fuel > n - j
    ensures Pop(ExecLoop(Counting(x, n, a), At(j, Wrap(t)), fuel)) == Val(NullV, Sum(t + a * Turns(x, j, n)))
    decreases n - j
  {
    hide EvalE, ExecBlock, ExecOpt, Wrap;
    var s := At(j, Wrap(t));
    TestMeans(n, j, Wrap(t), fuel);
    BodyMeans(x, a, j, Wrap(t), fuel);
    if j == n {
      assert Turns(x, j, n) == 0;
      assert ExecLoop(Counting(x, n, a), s, fuel) == Val(NullV, s);
    } else if x.Breaking? && x.at == j {
      assert Turns(x, j, n) == 0;
    } else if x.Continuing? && x.at == j {
      assert Turns(x, j, n) == Turns(x, j + 1, n);
      LoopMeans(x, n, a, j + 1, t, fuel - 1);
    } else {
      WrapTwice(t, a);
      TestMeans(n, j, Wrap(t + a), fuel);
      assert Turns(x, j, n) == Turns(x, j + 1, n) + 1;
      assert a * Turns(x, j, n) == a + a * Turns(x, j + 1, n);
      LoopMeans(x, n, a, j + 1, t + a, fuel - 1);
    }
  }

  /** The loop adds once in each turn: `n` times; up to the turn in which it breaks; or in all turns
      but the one it continues. */
  lemma LoopLaw(x: Extra, n: int, a: int, fuel: nat)
    requires 0 <= n && InRange(n + 1) && fuel > n
    ensures var r := a * Turns(x, 0, n); ExecStmts(Summing(x, n, a), [map[]], fuel) == Val(IntV(Wrap(r)), Sum(r))
  {
    hide ExecStmts, ExecS, EvalE, ExecLoop, Wrap;
    var s0: Store := [map[]];
    var s1: Store := [map["s" := IntV(0)]];
    LetMeans("s", IntLit(0), s0, fuel) by { LiteralMeans(0, s0, fuel); }
    LiteralMeans(0, s0, fuel);
    assert s0[0]["s" := IntV(0)] == map["s" := IntV(0)] && [s0[0]["s" := IntV(0)]] + s0[1..] == s1;
    SeqMeans(Let("s", IntLit(0)), Seq(Counting(x, n, a), Just(Ident("s"))), s0, fuel);
    SeqMeans(Counting(x, n, a), Just(Ident("s")), s1, fuel);
    assert Wrap(0) == 0 by { WrapExact(0, 0); assert Congruent(0, 0) by { assert 0 == 0 + 0 * TWO_64; } }
    LoopMeans(x, n, a, 0, 0, fuel);
    ForMeans(x, n, a, fuel);
    var s2 := Sum(0 + a * Turns(x, 0, n));
    JustMeans(Ident("s"), s2, fuel);
    NameMeans("s", s2[0]["s"], s2, fuel);
  }

  lemma LiteralMeans(n: int, s: Store, fuel: nat)
    ensures EvalE(IntLit(n), s, fuel) == Val(IntV(n), s)
  { }

  lemma NameMeans(x: string, v: Value, s: Store, fuel: nat)
    requires Lookup(s, x) == Some(v)
    ensures EvalE(Ident(x), s, fuel) == Val(v, s)
  { }

  lemma ForMeans(x: Extra, n: int, a: int, fuel: nat)
    ensures ExecS(Counting(x, n, a), [map["s" := IntV(0)]], fuel) == Pop(ExecLoop(Counting(x, n, a), At(0, 0), fuel))
  {
    hide ExecLoop;
    var s: Store := [map["s" := IntV(0)]];
    var s0 := [map[]] + s;
    var none: map<string, Value> := map[];
    LiteralMeans(0, s0, fuel);
    LetMeans("i", IntLit(0), s0, fuel);
    assert s0[0] == none && s0[1..] == s && none["i" := IntV(0)] == map["i" := IntV(0)];
    assert ExecOpt(Some(Let("i", IntLit(0))), s0, fuel) == Val(NullV, At(0, 0));
  }

  // ---------- and what their bytes do ----------

  /** What the predicates on programs say of a statement list, and of an operator on a variable and
      a literal. */
  lemma SeqIs(h: Stmt, t: Block, here: set<string>, known: Names, loop: bool, g: Env)
    requires g != []
    ensures FineB(Seq(h, t), here, known, loop)
      == (FineS(h, here, known, loop) && FineB(t, here + Declares(h), With(known, h), loop))
    ensures ShapedB(Seq(h, t)) == (ShapedS(h) && ShapedB(t)) && NodesB(Seq(h, t)) == NodesS(h) + NodesB(t)
    ensures FineB(Empty, here, known, loop) && ShapedB(Empty) && NodesB(Empty) == 0
    ensures TypeS(h, g).Some? ==>
      TypeB(Seq(h, t), g) == if t.Empty? then Some(TypeS(h, g).value.0) else TypeB(t, TypeS(h, g).value.1)
  {
    hide FineS, ShapedS, NodesS, TypeS;
  }

  lemma OperandIs(op: InfixOp, x: string, n: int, known: Names, loop: bool, g: Env)
    ensures var e := Infix(op, Ident(x), IntLit(n));
      && FineE(e, known, loop) == (x in known) && ShapedE(e) && !EscapesE(e) && NodesE(e) == 3
      && (LookupTy(g, x) == Some(TInt) ==> TypeE(e, g) == InfixTy(op, TInt, TInt))
  {
    hide LookupTy;
    assert FineE(Ident(x), known, loop) == (x in known) && FineE(IntLit(n), known, loop);
    assert NodesE(Ident(x)) == 1 && NodesE(IntLit(n)) == 1;
    assert ShapedE(Ident(x)) && ShapedE(IntLit(n)) && EffectFreeE(Ident(x)) && EffectFreeE(IntLit(n));
    assert TypeE(Ident(x), g) == LookupTy(g, x) && TypeE(IntLit(n), g) == Some(TInt);
  }

  lemma AssignIs(x: string, e: Expr, here: set<string>, known: Names, loop: bool, g: Env)
    requires x in known && !known[x] && FineE(e, known, loop) && ShapedE(e) && LookupTy(g, x) == TypeE(e, g)
      && TypeE(e, g).Some? && g != []
    ensures var s := Assign(x, e);
      FineS(s, here, known, loop) && ShapedS(s) && NodesS(s) == 1 + NodesE(e) && TypeS(s, g) == Some((TUnit, g))
  {
    hide FineE, ShapedE, NodesE, TypeE, LookupTy;
  }

  const VARS: Names := map["s" := false, "i" := false]

  function LoopEnv(): Env { [map["i" := TInt], map["s" := TInt]] }

  lemma LoopTypes()
    ensures var g := LoopEnv(); var h := [map[]] + g;
      LookupTy(g, "i") == LookupTy(g, "s") == LookupTy(h, "i") == LookupTy(h, "s") == Some(TInt)
  {
    var g := LoopEnv();
    assert g[1..] == [map["s" := TInt]] && ([map[]] + g)[1..] == g;
    assert LookupTy(g[1..], "s") == Some(TInt);
  }

  lemma AddingFine(a: int)
    ensures var g := [map[]] + LoopEnv();
      FineB(Adding(a), {}, VARS, true) && ShapedB(Adding(a)) && NodesB(Adding(a)) == 4 && TypeB(Adding(a), g).Some?
  {
    hide FineB, FineS, FineE, ShapedB, ShapedS, ShapedE, NodesB, NodesS, NodesE, TypeB, TypeS, TypeE, LookupTy;
    var g, e := [map[]] + LoopEnv(), Infix(Add, Ident("s"), IntLit(a));
    LoopTypes();
    OperandIs(Add, "s", a, VARS, true, g);
    AssignIs("s", e, {}, VARS, true, g);
    SeqIs(Assign("s", e), Empty, {}, VARS, true, g);
    SeqIs(Assign("s", e), Empty, {} + Declares(Assign("s", e)), VARS, true, g);
  }

  lemma LeavingFine(k: int, how: Stmt)
    requires how == Break || how == Continue
    ensures var g := [map[]] + LoopEnv(); var s := Leaving(k, how);
      FineS(s, {}, VARS, true) && ShapedS(s) && NodesS(s) <= 10 && TypeS(s, g).Some? && TypeS(s, g).value.1 == g
  {
    var g, c, b := [map[]] + LoopEnv(), Infix(Eq, Ident("i"), IntLit(k)), Seq(how, Empty);
    LoopTypes();
    OperandIs(Eq, "i", k, VARS, true, g);
    SeqIs(how, Empty, {}, VARS, true, [map[]] + g);
    SeqIs(how, Empty, {} + Declares(how), VARS, true, g);
    hide FineB, ShapedB, NodesB, TypeB, LookupTy;
    assert TypeS(how, [map[]] + g).Some? && NodesS(how) == 1;
    IfIs(c, b, VARS, g);
  }

  lemma IfIs(c: Expr, b: Block, known: Names, g: Env)
    requires g != [] && FineE(c, known, true) && FineB(b, {}, known, true) && ShapedE(c) && ShapedB(b)
    requires TypeE(c, g) == Some(TBool) && TypeB(b, [map[]] + g).Some?
    ensures var s := ExprStmt(If(c, b, None, true));
      && FineS(s, {}, known, true) && ShapedS(s) && NodesS(s) == 3 + NodesE(c) + NodesB(b)
      && TypeS(s, g) == Some((TUnit, g))
  {
    var e := If(c, b, None, true);
    ConditionIs(c, b, known, g);
    hide FineE, ShapedE, NodesE, TypeE;
  }

  lemma ConditionIs(c: Expr, b: Block, known: Names, g: Env)
    requires g != [] && FineE(c, known, true) && FineB(b, {}, known, true) && ShapedE(c) && ShapedB(b)
    requires TypeE(c, g) == Some(TBool) && TypeB(b, [map[]] + g).Some?
    ensures var e := If(c, b, None, true);
      FineE(e, known, true) && ShapedE(e) && NodesE(e) == 2 + NodesE(c) + NodesB(b) && TypeE(e, g) == Some(TUnit)
  {
    hide FineB, ShapedB, NodesB, TypeB;
  }

  lemma BodyFine(x: Extra, a: int)
    ensures var g := [map[]] + LoopEnv(); var b := LoopBody(x, a);
      FineB(b, {}, VARS, true) && ShapedB(b) && NodesB(b) <= 20 && TypeB(b, g).Some?
  {
    hide FineB, FineS, FineE, ShapedB, ShapedS, ShapedE, NodesB, NodesS, NodesE, TypeB, TypeS, TypeE, LookupTy;
    AddingFine(a);
    if !x.Nothing? {
      var how := if x.Breaking? then Break else Continue;
      LeavingFine(x.at, how);
      SeqIs(Leaving(x.at, how), Adding(a), {}, VARS, true, [map[]] + LoopEnv());
      assert {} + Declares(Leaving(x.at, how)) == {};
    }
  }

  lemma CountingFine(x: Extra, n: int, a: int)
    ensures var g: Env := [map["s" := TInt]]; var s := Counting(x, n, a);
      FineS(s, {"s"}, map["s" := false], false) && ShapedS(s) && NodesS(s) <= 40 && TypeS(s, g) == Some((TUnit, g))
  {
    var g: Env := [map["s" := TInt]];
    var g1, s := LoopEnv(), Counting(x, n, a);
    LoopTypes();
    BodyFine(x, a);
    OperandIs(Lt, "i", n, VARS, true, g1);
    OperandIs(Add, "i", 1, VARS, true, g1);
    var step := Infix(Add, Ident("i"), IntLit(1));
    AssignIs("i", step, {"i"}, VARS, true, g1);
    LetIs("i", map["s" := false], [map[]] + g);
    var none: map<string, Ty> := map[];
    assert ([map[]] + g)[0] == none && none["i" := TInt] == map["i" := TInt];
    assert [map["i" := TInt]] + ([map[]] + g)[1..] == g1;
    assert WithOpt(map["s" := false], s.first) == VARS;
    CountingIs(s, g, g1);
  }

  lemma LetIs(x: string, known: Names, g: Env)
    requires g != []
    ensures var s := Let(x, IntLit(0));
      && (forall here :: FineS(s, here, known, false) <==> x !in here) && ShapedS(s) && !EscapesS(s) && NodesS(s) == 2
      && TypeS(s, g) == Some((TUnit, [g[0][x := TInt]] + g[1..]))
  {
    assert FineE(IntLit(0), known, false) && ShapedE(IntLit(0)) && NodesE(IntLit(0)) == 1 && !EscapesE(IntLit(0));
    assert TypeE(IntLit(0), g) == Some(TInt);
  }

  lemma CountingIs(s: Stmt, g: Env, g1: Env)
    requires g != [] && g1 != [] && s.For? && s.first.Some? && s.first.value.VarDecl? && s.post.Some?
      && s.post.value.Assign?
    requires var known := map["s" := false]; var f, p := s.first.value, s.post.value;
      && FineS(f, {}, known, false) && FineE(s.test, VARS, true) && FineB(s.body, {}, VARS, true)
      && FineS(p, {f.x}, VARS, true) && With(known, f) == VARS
    requires var f, p := s.first.value, s.post.value;
      && ShapedS(f) && !EscapesS(f) && ShapedE(s.test) && !EscapesE(s.test) && ShapedS(p) && !EscapesS(p)
      && ShapedB(s.body) && NodesS(f) == 2 && NodesE(s.test) == 3 && NodesS(p) <= 5 && NodesB(s.body) <= 20
    requires var f, p := s.first.value, s.post.value;
      && TypeS(f, [map[]] + g) == Some((TUnit, g1)) && TypeE(s.test, g1) == Some(TBool)
      && TypeB(s.body, [map[]] + g1).Some? && TypeS(p, g1) == Some((TUnit, g1))
    ensures FineS(s, {"s"}, map["s" := false], false) && ShapedS(s) && NodesS(s) <= 40
      && TypeS(s, g) == Some((TUnit, g))
  {
    hide FineE, FineB, ShapedE, ShapedB, EscapesE, NodesE, NodesB, TypeE, TypeB;
  }

  /** These programs compile, fit, and are well typed and shaped as the compiler expects. */
  lemma SummingFine(x: Extra, n: int, a: int)
    ensures var prog := Summing(x, n, a); Compilable(prog) && Fitting(prog) && ShapedB(prog) && WellTyped(prog)
  {
    hide FineB, FineS, FineE, ShapedB, ShapedS, ShapedE, NodesB, NodesS, NodesE, TypeB, TypeS, TypeE, LookupTy, Fitting;
    var prog, s := Summing(x, n, a), Counting(x, n, a);
    var g0: Env := [map[]];
    var g: Env := [map["s" := TInt]];
    var known: Names := map[];
    var none: map<string, Ty> := map[];
    LetIs("s", known, g0);
    assert g0[0] == none && none["s" := TInt] == map["s" := TInt] && [g0[0]["s" := TInt]] + g0[1..] == g;
    SeqIs(Let("s", IntLit(0)), Seq(s, Just(Ident("s"))), {}, known, false, g0);
    assert {} + Declares(Let("s", IntLit(0))) == {"s"} && With(known, Let("s", IntLit(0))) == map["s" := false];
    CountingFine(x, n, a);
    SeqIs(s, Just(Ident("s")), {"s"}, map["s" := false], false, g);
    assert {"s"} + Declares(s) == {"s"};
    NameIs("s", map["s" := false], g);
    SmallFits(prog);
  }

  lemma NameIs(x: string, known: Names, g: Env)
    requires x in known && g != [] && x in g[0]
    ensures FineB(Just(Ident(x)), {x}, known, false) && ShapedB(Just(Ident(x))) && NodesB(Just(Ident(x))) == 2
      && TypeB(Just(Ident(x)), g).Some?
  {
    SeqIs(ExprStmt(Ident(x)), Empty, {x}, known, false, g);
    assert FineE(Ident(x), known, false) && ShapedE(Ident(x)) && NodesE(Ident(x)) == 1;
    assert TypeE(Ident(x), g) == Some(g[0][x]);
  }

  /** On the machine they stop, and the global of `s` holds the sum. */
  lemma SummingRuns(x: Extra, n: int, a: int, globals: seq<Value>) returns (steps: nat, st: State)
    requires 0 <= n && InRange(n + 1) && |globals| == GLOBALS_SIZE
    ensures var prog := Summing(x, n, a);
      && GenProgram(prog).Gen? && Reaches(Stepper(MainFrame(prog)), State(0, [], globals), steps, st)
      && Step(MainFrame(prog), st).Halt? && st.stack == []
      && var slot := Resolve(GenProgram(prog).ctx.scopes, "s");
      && slot.Some? && slot.value.index < |st.globals|
      && st.globals[slot.value.index] == IntV(Wrap(a * Turns(x, 0, n)))
  {
    hide Reaches, ExecStmts, GenStmts, Fitting, ShapedB, TypeB, FineB, Step, Wrap;
    var prog, r := Summing(x, n, a), a * Turns(x, 0, n);
    SummingFine(x, n, a);
    LoopLaw(x, n, a, n + 1);
    Fits(prog);
    steps, st := TerminatesThenStops(prog, globals, n + 1);
    RelLookup(GenProgram(prog).ctx.scopes, Sum(r), st.globals, "s");
  }

  lemma Fits(prog: Block)
    requires Fitting(prog)
    ensures GenProgram(prog).Gen?
  { }
}
