/** What compiles uses only names that are declared before, in a block that is still open. */
module BoundNames {
  import opened Language
  import opened Bytecode
  import opened Codegen
  import opened Scoping
  import opened Slots

  function Declared(s: Option<Stmt>): set<string> { if s.Some? && s.value.VarDecl? then {s.value.x} else {} }

  /** All names used are among the visible ones or declared before. */
  predicate BoundE(e: Expr, names: set<string>)
  {
    match e
    case Ident(x) => x in names
    case Prefix(_, r) => BoundE(r, names)
    case Infix(_, l, r) => BoundE(l, names) && BoundE(r, names)
    case If(c, a, b, _) => BoundE(c, names) && BoundB(a, names) && (b.Some? ==> BoundB(b.value, names))
    case _ => true
  }

  predicate BoundB(b: Block, names: set<string>)
  {
    b.Seq? ==> BoundS(b.head, names) && BoundB(b.tail, names + Declared(Some(b.head)))
  }

  predicate BoundS(s: Stmt, names: set<string>)
  {
    match s
    case ExprStmt(e) => BoundE(e, names)
    case VarDecl(_, _, _, i) => i.Some? ==> BoundE(i.value, names)
    case Assign(x, e) => x in names && BoundE(e, names)
    case For(f, c, p, b) =>
      var inner := names + Declared(f);
      && (f.Some? ==> BoundS(f.value, names)) && BoundE(c, inner)
      && BoundB(b, inner) && (p.Some? ==> BoundS(p.value, inner))
    case _ => true
  }

  ghost predicate Within(sc: Scopes, names: set<string>) { forall x :: Resolve(sc, x).Some? ==> x in names }

  lemma {:induction false} GenBoundE(e: Expr, c: Ctx, pos: nat, k: nat, lp: Loop, names: set<string>)
    requires GenE(e, c, pos, k, lp).Gen? && Within(c.scopes, names)
    ensures BoundE(e, names)
    decreases e, 1
  {
    match e
    case Prefix(_, r) => GenBoundE(r, c, pos, k, lp, names);
    case Infix(_, _, _) =>
      hide GenE, SlotsE, Within;
      var x, y, g, h, p1, k1 := InfixPieces(e, c, pos, k, lp);
      GenBoundE(x, c, pos, k, lp, names);
      KeepsE(x, c, pos, k, lp);
      GenBoundE(y, g.ctx, p1, k1, lp, names);
    case If(_, _, _, _) =>
      assert GenE(e, c, pos, k, lp) == GenIf(e, c, pos, k, lp);
      GenBoundIf(e, c, pos, k, lp, names);
    case _ =>
  }

  lemma {:induction false} GenBoundIf(e: Expr, c: Ctx, pos: nat, k: nat, lp: Loop, names: set<string>)
    requires e.If? && GenIf(e, c, pos, k, lp).Gen? && Within(c.scopes, names)
    ensures BoundE(e, names)
    decreases e, 0
  {
    hide GenIf, GenE, GenStmts, GenBlock, BranchSize, JoinIf, Within;
    var g, ga, gb, p1, k1, p2, k2 := IfPieces(e, c, pos, k, lp);
    GenBoundE(e.cond, c, pos, k, lp, names);
    KeepsE(e.cond, c, pos, k, lp);
    GenBoundBlock(e.cons, g.ctx, p1, k1, lp, names);
    KeepsBlock(e.cons, g.ctx, p1, k1, lp);
    if e.alt.Some? { GenBoundBlock(e.alt.value, ga.ctx, p2, k2, lp, names); }
  }

  lemma {:induction false} GenBoundBlock(b: Block, c: Ctx, pos: nat, k: nat, lp: Loop, names: set<string>)
    requires GenBlock(b, c, pos, k, lp).Gen? && Within(c.scopes, names)
    ensures BoundB(b, names)
    decreases b, 1
  {
    assert Push(c).scopes[1..] == c.scopes;
    GenBoundB(b, Push(c), pos, k, lp, names);
  }

  lemma {:induction false} GenBoundB(b: Block, c: Ctx, pos: nat, k: nat, lp: Loop, names: set<string>)
    requires c.scopes != [] && GenStmts(b, c, pos, k, lp).Gen? && Within(c.scopes, names)
    ensures BoundB(b, names)
    decreases b, 0
  {
    hide Within;
    if b.Seq? {
      var g := GenS(b.head, c, pos, k, lp);
      GenBoundS(b.head, c, pos, k, lp, names);
      KeepsS(b.head, c, pos, k, lp);
      hide GenS;
      GenBoundB(b.tail, g.ctx, pos + g.size, k + |g.consts|, lp, names + Declared(Some(b.head)));
    }
  }

  lemma {:induction false} GenBoundO(s: Option<Stmt>, c: Ctx, pos: nat, k: nat, lp: Loop, names: set<string>)
    requires c.scopes != [] && GenOpt(s, c, pos, k, lp).Gen? && Within(c.scopes, names)
    ensures s.Some? ==> BoundS(s.value, names)
    ensures Within(GenOpt(s, c, pos, k, lp).ctx.scopes, names + Declared(s))
    decreases s, 2
  {
    if s.Some? { GenBoundS(s.value, c, pos, k, lp, names); }
  }

  lemma {:induction false} GenBoundS(s: Stmt, c: Ctx, pos: nat, k: nat, lp: Loop, names: set<string>)
    requires c.scopes != [] && GenS(s, c, pos, k, lp).Gen? && Within(c.scopes, names)
    ensures BoundS(s, names) && Within(GenS(s, c, pos, k, lp).ctx.scopes, names + Declared(Some(s)))
    decreases s, 1
  {
    match s
    case ExprStmt(e) =>
      GenBoundE(e, c, pos, k, lp, names);
      KeepsE(e, c, pos, k, lp);
    case VarDecl(constant, x, ty, i) =>
      if i.Some? {
        GenBoundE(i.value, c, pos, k, lp, names);
        KeepsE(i.value, c, pos, k, lp);
      }
      DefineWithin(GenInit(i, ty, c, pos, k, lp).ctx, x, constant, names);
    case Assign(x, e) =>
      GenBoundE(e, c, pos, k, lp, names);
      KeepsE(e, c, pos, k, lp);
    case For(_, _, _, _) =>
      assert GenS(s, c, pos, k, lp) == GenFor(s, c, pos, k, lp);
      GenBoundFor(s, c, pos, k, lp, names);
    case _ =>
  }

  lemma DefineWithin(c: Ctx, x: string, constant: bool, names: set<string>)
    requires c.scopes != [] && Within(c.scopes, names)
    ensures Within(Define(c, x, constant).scopes, names + {x})
  {
    assert Define(c, x, constant).scopes[1..] == c.scopes[1..];
  }

  lemma {:induction false} GenBoundFor(s: Stmt, c: Ctx, pos: nat, k: nat, lp: Loop, names: set<string>)
    requires s.For? && c.scopes != [] && GenFor(s, c, pos, k, lp).Gen? && Within(c.scopes, names)
    ensures BoundS(s, names) && Within(GenFor(s, c, pos, k, lp).ctx.scopes, names)
    decreases s, 0
  {
    hide GenFor, GenE, GenStmts, GenS, GenBlock, GenOpt, JoinFor, Within;
    var gi, gc, gb, gp, m := Pieces(s, c, pos, k, lp);
    var inner := names + Declared(s.first);
    PushWithin(c, names);
    KeepsOpt(s.first, Push(c), pos, k, lp);
    GenBoundO(s.first, Push(c), pos, k, lp, names);
    GenBoundE(s.test, gi.ctx, m.p1, m.k1, m.inner, inner);
    KeepsE(s.test, gi.ctx, m.p1, m.k1, m.inner);
    GenBoundBlock(s.body, gc.ctx, m.p2, m.k2, m.inner, inner);
    KeepsBlock(s.body, gc.ctx, m.p2, m.k2, m.inner);
    GenBoundO(s.post, gb.ctx, m.p3, m.k3, m.inner, inner);
    KeepsOpt(s.post, gb.ctx, m.p3, m.k3, m.inner);
    assert Push(c).scopes[1..] == c.scopes;
  }

  lemma PushWithin(c: Ctx, names: set<string>)
    requires Within(c.scopes, names)
    ensures Within(Push(c).scopes, names)
  {
    assert Push(c).scopes[1..] == c.scopes;
  }
}
