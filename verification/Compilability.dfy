/** Which programs compile: exactly those that use names declared before in a block still open,
    declare no name twice in a block, assign to no constant, and break and continue inside loops. */
module Compilability {
  import opened Language
  import opened Bytecode
  import opened Codegen
  import opened Scoping
  import opened Preservation

  /** The variables that can be used, and whether they are constants. */
  type Names = map<string, bool>

  function With(known: Names, s: Stmt): Names { if s.VarDecl? then known[s.x := s.constant] else known }

  function WithOpt(known: Names, s: Option<Stmt>): Names { if s.Some? then With(known, s.value) else known }

  /** What a statement declares in the block it stands in. */
  function Declares(s: Stmt): set<string> { if s.VarDecl? then {s.x} else {} }

  function DeclaresOpt(s: Option<Stmt>): set<string> { if s.Some? then Declares(s.value) else {} }

  predicate FineE(e: Expr, known: Names, loop: bool)
  {
    match e
    case IntLit(_) => true
    case BoolLit(_) => true
    case Ident(x) => x in known
    case Prefix(_, r) => FineE(r, known, loop)
    case Infix(_, l, r) => FineE(l, known, loop) && FineE(r, known, loop)
    case If(c, a, b, _) => FineE(c, known, loop) && FineB(a, {}, known, loop) && FineAlt(b, known, loop)
  }

  predicate FineAlt(b: Option<Block>, known: Names, loop: bool) { b.Some? ==> FineB(b.value, {}, known, loop) }

  /** `here` are the names that the block has declared so far. */
  predicate FineB(b: Block, here: set<string>, known: Names, loop: bool)
  {
    b.Seq? ==> FineS(b.head, here, known, loop) && FineB(b.tail, here + Declares(b.head), With(known, b.head), loop)
  }

  predicate FineOpt(s: Option<Stmt>, here: set<string>, known: Names, loop: bool)
  {
    s.Some? ==> FineS(s.value, here, known, loop)
  }

  predicate FineS(s: Stmt, here: set<string>, known: Names, loop: bool)
  {
    match s
    case ExprStmt(e) => FineE(e, known, loop)
    case VarDecl(_, x, _, i) => x !in here && (i.Some? ==> FineE(i.value, known, loop))
    case Assign(x, e) => x in known && !known[x] && FineE(e, known, loop)
    case For(f, c, p, b) =>
      && FineOpt(f, {}, known, loop) && FineE(c, WithOpt(known, f), true)
      && FineB(b, {}, WithOpt(known, f), true) && FineOpt(p, DeclaresOpt(f), WithOpt(known, f), true)
    case Break => loop
    case Continue => loop
  }

  predicate Compilable(prog: Block) { FineB(prog, {}, map[], false) }

  // ---------- the compiler's tables ----------

  /** The tables know exactly these variables, and the innermost table these. */
  ghost predicate Seen(sc: Scopes, here: set<string>, known: Names)
  {
    && sc != [] && sc[0].Keys == here
    && (forall x :: Resolve(sc, x).Some? <==> x in known)
    && (forall x :: x in known ==> Resolve(sc, x).value.constant == known[x])
  }

  lemma SeenPush(c: Ctx, here: set<string>, known: Names)
    requires Seen(c.scopes, here, known)
    ensures Seen(Push(c).scopes, {}, known)
  {
    assert Push(c).scopes[1..] == c.scopes;
  }

  lemma SeenDefine(c: Ctx, x: string, constant: bool, here: set<string>, known: Names)
    requires Seen(c.scopes, here, known)
    ensures Seen(Define(c, x, constant).scopes, here + {x}, known[x := constant])
  {
    assert Define(c, x, constant).scopes[1..] == c.scopes[1..];
  }

  lemma {:induction false} FineExactE(e: Expr, c: Ctx, pos: nat, k: nat, lp: Loop, here: set<string>, known: Names)
    requires Seen(c.scopes, here, known)
    ensures GenE(e, c, pos, k, lp).Gen? <==> FineE(e, known, lp.InLoop?)
    decreases e, 1
  {
    hide GenStmts, GenBlock, JoinIf, GenIf, Resolve;
    match e
    case IntLit(_) =>
    case BoolLit(_) =>
    case Ident(x) =>
    case Prefix(_, r) => FineExactE(r, c, pos, k, lp, here, known);
    case Infix(op, l, r) =>
      var (a, b) := if Swapped(op) then (r, l) else (l, r);
      var g := GenE(a, c, pos, k, lp);
      FineExactE(a, c, pos, k, lp, here, known);
      KeepsE(a, c, pos, k, lp);
      if g.Gen? { FineExactE(b, g.ctx, pos + g.size, k + |g.consts|, lp, here, known); }
    case If(_, _, _, _) => FineExactIf(e, c, pos, k, lp, here, known);
  }

  lemma {:induction false} FineExactIf(e: Expr, c: Ctx, pos: nat, k: nat, lp: Loop, here: set<string>, known: Names)
    requires e.If? && Seen(c.scopes, here, known)
    ensures GenIf(e, c, pos, k, lp).Gen? <==> FineE(e, known, lp.InLoop?)
    decreases e, 0
  {
    hide GenE, GenStmts, GenBlock, Resolve, BranchCode, BranchSize, Seen;
    var g := GenE(e.cond, c, pos, k, lp);
    FineExactE(e.cond, c, pos, k, lp, here, known);
    KeepsE(e.cond, c, pos, k, lp);
    if g.Bad? { return; }
    var p1, k1 := pos + g.size + 3, k + |g.consts|;
    var ga := GenBlock(e.cons, g.ctx, p1, k1, lp);
    FineExactBlock(e.cons, g.ctx, p1, k1, lp, here, known);
    KeepsBlock(e.cons, g.ctx, p1, k1, lp);
    if ga.Bad? || e.alt.None? { return; }
    FineExactBlock(e.alt.value, ga.ctx, p1 + BranchSize(e.unit, ga) + 3, k1 + |ga.consts|, lp, here, known);
  }

  lemma {:induction false} FineExactBlock(b: Block, c: Ctx, pos: nat, k: nat, lp: Loop, here: set<string>, known: Names)
    requires Seen(c.scopes, here, known)
    ensures GenBlock(b, c, pos, k, lp).Gen? <==> FineB(b, {}, known, lp.InLoop?)
    decreases b, 1
  {
    SeenPush(c, here, known);
    FineExactB(b, Push(c), pos, k, lp, {}, known);
    KeepsStmts(b, Push(c), pos, k, lp);
  }

  lemma {:induction false} FineExactB(b: Block, c: Ctx, pos: nat, k: nat, lp: Loop, here: set<string>, known: Names)
    requires Seen(c.scopes, here, known)
    ensures GenStmts(b, c, pos, k, lp).Gen? <==> FineB(b, here, known, lp.InLoop?)
    decreases b, 0
  {
    hide GenS, GenE, Seen;
    if b.Seq? {
      var g := GenS(b.head, c, pos, k, lp);
      FineExactS(b.head, c, pos, k, lp, here, known);
      if g.Gen? {
        FineExactB(b.tail, g.ctx, pos + g.size, k + |g.consts|, lp, here + Declares(b.head), With(known, b.head));
      }
    }
  }

  lemma {:induction false} FineExactOpt(s: Option<Stmt>, c: Ctx, pos: nat, k: nat, lp: Loop, here: set<string>,
          known: Names)
    requires Seen(c.scopes, here, known)
    ensures var g := GenOpt(s, c, pos, k, lp);
      && (g.Gen? <==> FineOpt(s, here, known, lp.InLoop?))
      && (g.Gen? ==> Seen(g.ctx.scopes, here + DeclaresOpt(s), WithOpt(known, s)))
    decreases s, 2
  {
    if s.Some? { FineExactS(s.value, c, pos, k, lp, here, known); } else { assert here + {} == here; }
  }

  lemma {:induction false} FineExactS(s: Stmt, c: Ctx, pos: nat, k: nat, lp: Loop, here: set<string>, known: Names)
    requires Seen(c.scopes, here, known)
    ensures var g := GenS(s, c, pos, k, lp);
      && (g.Gen? <==> FineS(s, here, known, lp.InLoop?))
      && (g.Gen? ==> Seen(g.ctx.scopes, here + Declares(s), With(known, s)))
    decreases s, 1
  {
    hide GenFor, GenE, Resolve;
    assert here + {} == here;
    match s
    case ExprStmt(e) =>
      FineExactE(e, c, pos, k, lp, here, known);
      KeepsE(e, c, pos, k, lp);
    case VarDecl(constant, x, ty, i) =>
      if i.Some? {
        FineExactE(i.value, c, pos, k, lp, here, known);
        KeepsE(i.value, c, pos, k, lp);
      }
      var g := GenInit(i, ty, c, pos, k, lp);
      if g.Gen? { SeenDefine(g.ctx, x, constant, here, known); }
    case Assign(x, e) =>
      FineExactE(e, c, pos, k, lp, here, known);
      KeepsE(e, c, pos, k, lp);
    case For(_, _, _, _) => FineExactFor(s, c, pos, k, lp, here, known);
    case Break =>
    case Continue =>
  }

  lemma {:induction false} FineExactFor(s: Stmt, c: Ctx, pos: nat, k: nat, lp: Loop, here: set<string>, known: Names)
    requires s.For? && Seen(c.scopes, here, known)
    ensures var g := GenFor(s, c, pos, k, lp);
      (g.Gen? <==> FineS(s, here, known, lp.InLoop?)) && (g.Gen? ==> g.ctx.scopes == c.scopes)
    decreases s, 0
  {
    hide GenE, GenStmts, GenS, GenBlock, GenOpt, Resolve, Fill, Seen, FineE, FineB;
    KeepsFor(s, c, pos, k, lp);
    SeenPush(c, here, known);
    var gi := GenOpt(s.first, Push(c), pos, k, lp);
    FineExactOpt(s.first, Push(c), pos, k, lp, {}, known);
    KeepsOpt(s.first, Push(c), pos, k, lp);
    if gi.Bad? { return; }
    var in1, k1 := {} + DeclaresOpt(s.first), WithOpt(known, s.first);
    assert in1 == DeclaresOpt(s.first);
    var p1, n1 := pos + gi.size, k + |gi.consts|;
    var inner := InLoop(s.post.Some?, p1);
    var gc := GenE(s.test, gi.ctx, p1, n1, inner);
    FineExactE(s.test, gi.ctx, p1, n1, inner, in1, k1);
    KeepsE(s.test, gi.ctx, p1, n1, inner);
    if gc.Bad? { return; }
    var p2, n2 := p1 + gc.size + 3, n1 + |gc.consts|;
    var gb := GenBlock(s.body, gc.ctx, p2, n2, inner);
    FineExactBlock(s.body, gc.ctx, p2, n2, inner, in1, k1);
    KeepsBlock(s.body, gc.ctx, p2, n2, inner);
    if gb.Bad? { return; }
    FineExactOpt(s.post, gb.ctx, p2 + gb.size, n2 + |gb.consts|, inner, in1, k1);
    KeepsOpt(s.post, gb.ctx, p2 + gb.size, n2 + |gb.consts|, inner);
  }

  /** A program compiles if and only if it is fine. */
  lemma FineExact(prog: Block)
    ensures GenProgram(prog).Gen? <==> Compilable(prog)
  {
    var none: map<string, Symbol> := map[];
    assert TOP.scopes[0] == none && TOP.scopes[0].Keys == {} && TOP.scopes[1..] == [];
    assert forall x :: Resolve(TOP.scopes[1..], x) == None && Resolve(TOP.scopes, x) == None;
    assert Seen(TOP.scopes, {}, map[]);
    FineExactB(prog, TOP, 0, 0, NoLoop, {}, map[]);
  }
}
