/** Programs of moderate size fit the encoding: what the compiler emits for a node takes few bytes,
    and at most one constant and one slot. */
module SmallPrograms {
  import opened Language
  import opened Bytecode
  import opened Codegen
  import opened Scoping
  import opened Slots
  import opened Emission
  import opened Preservation
  import opened Compilability

  // ---------- size of the syntax ----------

  function NodesE(e: Expr): (n: nat)
    ensures n >= 1
  {
    match e
    case Prefix(_, r) => 1 + NodesE(r)
    case Infix(_, l, r) => 1 + NodesE(l) + NodesE(r)
    case If(c, a, b, _) => 2 + NodesE(c) + NodesB(a) + (match b case None => 0 case Some(blk) => NodesB(blk))
    case _ => 1
  }

  function NodesB(b: Block): nat
  {
    match b case Empty => 0 case Seq(h, t) => NodesS(h) + NodesB(t)
  }

  function NodesO(s: Option<Stmt>): nat { match s case None => 0 case Some(st) => NodesS(st) }

  function NodesS(s: Stmt): (n: nat)
    ensures n >= 1
  {
    match s
    case ExprStmt(e) => 1 + NodesE(e)
    case VarDecl(_, _, _, i) => 1 + (match i case None => 1 case Some(e) => NodesE(e))
    case Assign(_, e) => 1 + NodesE(e)
    case For(f, c, p, b) => 1 + NodesO(f) + NodesE(c) + NodesO(p) + NodesB(b)
    case Break => 1
    case Continue => 1
  }

  // ---------- size of the code ----------

  /** Every instruction that is no open exit fits its encoding. */
  predicate Small(code: seq<Ins>)
  {
    forall i :: 0 <= i < |code| ==> code[i].BreakHole? || code[i].ContinueHole? || Fits(code[i])
  }

  /** Slots in use are below the counter. */
  ghost predicate Roomy(c: Ctx)
  {
    c.global && c.scopes != [] && forall x :: Resolve(c.scopes, x).Some? ==> Resolve(c.scopes, x).value.index < c.next
  }

  /** There is room for `n` nodes. */
  predicate Room(c: Ctx, pos: nat, k: nat, lp: Loop, n: nat)
  {
    pos + 10 * n < 65536 && k + n < 65536 && c.next + n <= 65536 && (lp.InLoop? ==> lp.condPos < 65536)
  }

  ghost predicate Takes(c: Ctx, g: Gen, n: nat)
  {
    g.Gen? ==>
      g.size <= 10 * n && |g.consts| <= n && c.next <= g.ctx.next <= c.next + n && Small(g.code) && Roomy(g.ctx)
  }

  lemma {:induction false} SmallFill(code: seq<Ins>, brk: nat, cont: nat)
    requires Small(code) && brk < 65536 && cont < 65536
    ensures Small(Fill(code, brk, cont)) && AllFit(Fill(code, brk, cont))
  {
    if code != [] {
      assert Small(code[1..]);
      SmallFill(code[1..], brk, cont);
      assert Fits(Fill1(code[0], brk, cont));
    }
  }

  lemma SmallBranch(unit: bool, g: Gen)
    requires g.Gen? && Small(g.code)
    ensures Small(BranchCode(unit, g.code)) && BranchSize(unit, g) <= g.size + 1
  { }

  lemma RoomyPush(c: Ctx)
    requires Roomy(c)
    ensures Roomy(Push(c))
  {
    assert Push(c).scopes[1..] == c.scopes;
  }

  lemma RoomyDefine(c: Ctx, x: string, constant: bool)
    requires Roomy(c)
    ensures Roomy(Define(c, x, constant))
  {
    var d := Define(c, x, constant);
    assert d.scopes[1..] == c.scopes[1..];
    forall y | Resolve(d.scopes, y).Some? ensures Resolve(d.scopes, y).value.index < d.next {
      if y != x { assert Resolve(d.scopes, y) == Resolve(c.scopes, y); }
    }
  }

  /** The counter only grows, so what was below it still is. */
  lemma RoomyGrown(c: Ctx, d: Ctx)
    requires Roomy(c) && d.scopes == c.scopes && d.global && d.next >= c.next
    ensures Roomy(d)
  { }

  lemma TakesLeaf(e: Expr, c: Ctx, pos: nat, k: nat, lp: Loop)
    requires (e.IntLit? || e.BoolLit? || e.Ident?) && Roomy(c) && Room(c, pos, k, lp, 1)
    ensures Takes(c, GenE(e, c, pos, k, lp), 1)
  {
    hide Resolve;
  }

  lemma AddIns(c: Ctx, g: Gen, i: Ins, n: nat)
    requires g.Gen? && Takes(c, g, n) && Fits(i) && SizeOf(i) <= 10
    ensures Takes(c, Then(g, i), n + 1)
  {
    hide Fits, Roomy;
  }

  lemma AddGen(c: Ctx, g: Gen, h: Gen, n: nat, m: nat)
    requires g.Gen? && Takes(c, g, n) && Takes(g.ctx, h, m)
    ensures Takes(c, Join(g, h), n + m)
  {
    hide Fits, Roomy;
  }

  lemma OperatorFits(op: InfixOp, p: PrefixOp)
    ensures Fits(InfixIns(op)) && Fits(PrefixIns(p)) && SizeOf(InfixIns(op)) == SizeOf(PrefixIns(p)) == 1
  { }

  lemma {:induction false} TakesE(e: Expr, c: Ctx, pos: nat, k: nat, lp: Loop)
    requires Roomy(c) && Room(c, pos, k, lp, NodesE(e))
    ensures Takes(c, GenE(e, c, pos, k, lp), NodesE(e))
    decreases e, 1
  {
    hide GenIf, Roomy, Small, Fits, Takes;
    match e
    case IntLit(_) => TakesLeaf(e, c, pos, k, lp);
    case BoolLit(_) => TakesLeaf(e, c, pos, k, lp);
    case Ident(_) => TakesLeaf(e, c, pos, k, lp);
    case Prefix(op, r) =>
      var g := GenE(r, c, pos, k, lp);
      TakesE(r, c, pos, k, lp);
      OperatorFits(Add, op);
      if g.Gen? { AddIns(c, g, PrefixIns(op), NodesE(r)); } else { BadTakes(c, 1 + NodesE(r)); }
    case Infix(_, _, _) => TakesInfix(e, c, pos, k, lp);
    case If(_, _, _, _) => TakesIf(e, c, pos, k, lp);
  }

  lemma BadTakes(c: Ctx, n: nat)
    ensures Takes(c, Bad, n)
  { }

  lemma TakesAre(c: Ctx, g: Gen, n: nat)
    requires g.Gen? && Takes(c, g, n)
    ensures g.size <= 10 * n && |g.consts| <= n && g.ctx.next <= c.next + n && Roomy(g.ctx)
  { }

  lemma {:induction false} TakesInfix(e: Expr, c: Ctx, pos: nat, k: nat, lp: Loop)
    requires e.Infix? && Roomy(c) && Room(c, pos, k, lp, NodesE(e))
    ensures Takes(c, GenE(e, c, pos, k, lp), NodesE(e))
    decreases e, 0
  {
    hide GenE, Roomy, Small, Fits, Takes, SlotsE, NodesE;
    if GenE(e, c, pos, k, lp).Bad? {
      BadTakes(c, NodesE(e));
    } else {
      var a, b, g, h, p1, k1 := InfixPieces(e, c, pos, k, lp);
      InfixNodes(e, a, b);
      TakesE(a, c, pos, k, lp);
      TakesAre(c, g, NodesE(a));
      TakesE(b, g.ctx, p1, k1, lp);
      AddGen(c, g, h, NodesE(a), NodesE(b));
      OperatorFits(e.op, Not);
      AddIns(c, Join(g, h), InfixIns(e.op), NodesE(a) + NodesE(b));
    }
  }

  lemma InfixNodes(e: Expr, a: Expr, b: Expr)
    requires e.Infix? && (a, b) == if Swapped(e.op) then (e.rhs, e.left) else (e.left, e.rhs)
    ensures NodesE(e) == NodesE(a) + NodesE(b) + 1
  { }

  lemma {:induction false} TakesIf(e: Expr, c: Ctx, pos: nat, k: nat, lp: Loop)
    requires e.If? && Roomy(c) && Room(c, pos, k, lp, NodesE(e))
    ensures Takes(c, GenIf(e, c, pos, k, lp), NodesE(e))
    decreases e, 0
  {
    hide GenE, GenStmts, GenBlock, Resolve, BranchCode, BranchSize, Roomy, NodesB, Fits;
    var g := GenE(e.cond, c, pos, k, lp);
    TakesE(e.cond, c, pos, k, lp);
    if g.Bad? { return; }
    var p1, k1 := pos + g.size + 3, k + |g.consts|;
    var ga := GenBlock(e.cons, g.ctx, p1, k1, lp);
    TakesBlock(e.cons, g.ctx, p1, k1, lp);
    if ga.Bad? { return; }
    SmallBranch(e.unit, ga);
    var p2, k2 := p1 + BranchSize(e.unit, ga) + 3, k1 + |ga.consts|;
    var gb := GenAlt(e.alt, ga.ctx, p2, k2, lp);
    if e.alt.Some? { TakesBlock(e.alt.value, ga.ctx, p2, k2, lp); }
    if gb.Bad? { return; }
    TakesAlt(e, gb);
    JoinIfSmall(e.unit, e.alt.Some?, pos, g, ga, gb);
  }

  lemma TakesAlt(e: Expr, gb: Gen)
    requires e.If? && gb.Gen?
    requires if e.alt.None? then gb.code == [Plain(OP_NULL)] else Small(gb.code)
    ensures Small(gb.code)
  { }

  lemma JoinIfSmall(unit: bool, hasAlt: bool, pos: nat, g: Gen, ga: Gen, gb: Gen)
    requires g.Gen? && ga.Gen? && gb.Gen? && Small(g.code) && Small(ga.code) && Small(gb.code)
    requires pos + g.size + ga.size + gb.size + 8 < 65536
    ensures Small(JoinIf(unit, hasAlt, pos, g, ga, gb).code)
    ensures JoinIf(unit, hasAlt, pos, g, ga, gb).size <= g.size + ga.size + gb.size + 8
  {
    hide BranchCode, BranchSize;
    SmallBranch(unit, ga);
    SmallBranch(unit, gb);
    assert forall n: nat | n < 65536 :: Fits(Wide(OP_JUMP_NOT_TRUTHY, n)) && Fits(Wide(OP_JUMP, n));
  }

  lemma {:induction false} TakesBlock(b: Block, c: Ctx, pos: nat, k: nat, lp: Loop)
    requires Roomy(c) && Room(c, pos, k, lp, NodesB(b))
    ensures Takes(c, GenBlock(b, c, pos, k, lp), NodesB(b))
    decreases b, 1
  {
    hide GenStmts, Fits, Resolve;
    RoomyPush(c);
    TakesB(b, Push(c), pos, k, lp);
    KeepsBlock(b, c, pos, k, lp);
    var g := GenBlock(b, c, pos, k, lp);
    if g.Gen? { RoomyGrown(c, g.ctx); }
  }

  lemma {:induction false} TakesB(b: Block, c: Ctx, pos: nat, k: nat, lp: Loop)
    requires Roomy(c) && Room(c, pos, k, lp, NodesB(b))
    ensures Takes(c, GenStmts(b, c, pos, k, lp), NodesB(b))
    decreases b, 0
  {
    hide GenS, Fits, Resolve;
    if b.Seq? {
      var g := GenS(b.head, c, pos, k, lp);
      TakesS(b.head, c, pos, k, lp);
      if g.Gen? { TakesB(b.tail, g.ctx, pos + g.size, k + |g.consts|, lp); }
    }
  }

  lemma {:induction false} TakesOpt(s: Option<Stmt>, c: Ctx, pos: nat, k: nat, lp: Loop)
    requires Roomy(c) && Room(c, pos, k, lp, NodesO(s))
    ensures Takes(c, GenOpt(s, c, pos, k, lp), NodesO(s))
    decreases s, 2
  {
    hide GenS, Fits, Resolve;
    if s.Some? { TakesS(s.value, c, pos, k, lp); }
  }

  lemma {:induction false} TakesS(s: Stmt, c: Ctx, pos: nat, k: nat, lp: Loop)
    requires Roomy(c) && Room(c, pos, k, lp, NodesS(s))
    ensures Takes(c, GenS(s, c, pos, k, lp), NodesS(s))
    decreases s, 1
  {
    hide GenE, GenFor, Resolve;
    match s
    case ExprStmt(e) => TakesE(e, c, pos, k, lp);
    case VarDecl(constant, x, ty, i) =>
      if i.Some? { TakesE(i.value, c, pos, k, lp); }
      var g := GenInit(i, ty, c, pos, k, lp);
      if g.Gen? { RoomyDefine(g.ctx, x, constant); }
    case Assign(x, e) => TakesE(e, c, pos, k, lp);
    case For(_, _, _, _) => TakesFor(s, c, pos, k, lp);
    case Break =>
    case Continue =>
  }

  lemma {:induction false} TakesFor(s: Stmt, c: Ctx, pos: nat, k: nat, lp: Loop)
    requires s.For? && Roomy(c) && Room(c, pos, k, lp, NodesS(s))
    ensures Takes(c, GenFor(s, c, pos, k, lp), NodesS(s))
    decreases s, 0
  {
    hide GenE, GenStmts, GenS, GenBlock, GenOpt, Resolve, Fill, Roomy, Small, NodesB, NodesO;
    RoomyPush(c);
    KeepsFor(s, c, pos, k, lp);
    var gi := GenOpt(s.first, Push(c), pos, k, lp);
    TakesOpt(s.first, Push(c), pos, k, lp);
    if gi.Bad? { return; }
    var p1, n1 := pos + gi.size, k + |gi.consts|;
    var inner := InLoop(s.post.Some?, p1);
    var gc := GenE(s.test, gi.ctx, p1, n1, inner);
    TakesE(s.test, gi.ctx, p1, n1, inner);
    if gc.Bad? { return; }
    var p2, n2 := p1 + gc.size + 3, n1 + |gc.consts|;
    var gb := GenBlock(s.body, gc.ctx, p2, n2, inner);
    TakesBlock(s.body, gc.ctx, p2, n2, inner);
    if gb.Bad? { return; }
    var gp := GenOpt(s.post, gb.ctx, p2 + gb.size, n2 + |gb.consts|, inner);
    TakesOpt(s.post, gb.ctx, p2 + gb.size, n2 + |gb.consts|, inner);
    if gp.Bad? || gp.ctx.scopes == [] { return; }
    JoinForSmall(pos, s.post.Some?, gi, gc, gb, gp);
    RoomyGrown(c, JoinFor(pos, s.post.Some?, gi, gc, gb, gp).ctx) by { RoomyGlobal(gp.ctx); }
  }

  lemma RoomyGlobal(c: Ctx)
    requires Roomy(c)
    ensures c.global
  { }

  lemma JoinForSmall(pos: nat, hasPost: bool, gi: Gen, gc: Gen, gb: Gen, gp: Gen)
    requires gi.Gen? && gc.Gen? && gb.Gen? && gp.Gen? && gp.ctx.scopes != []
    requires Small(gi.code) && Small(gc.code) && Small(gb.code) && Small(gp.code)
    requires pos + gi.size + gc.size + gb.size + gp.size + 8 < 65536
    ensures Small(JoinFor(pos, hasPost, gi, gc, gb, gp).code)
  {
    hide Fill;
    var condPos := pos + gi.size;
    var postPos := condPos + gc.size + 3 + gb.size;
    var escape := postPos + gp.size + 3;
    var cont := if hasPost then postPos else condPos;
    SmallFill(gc.code, escape, cont);
    SmallFill(gb.code, escape, cont);
    SmallFill(gp.code, escape, PLACEHOLDER);
    assert Fits(Wide(OP_JUMP_NOT_TRUTHY, escape)) && Fits(Wide(OP_JUMP, condPos));
    assert Fits(Plain(OP_NULL)) && Fits(Plain(OP_POP));
  }

  // ---------- operands ----------

  lemma {:induction false} DepthNodesE(e: Expr)
    ensures DepthE(e) <= NodesE(e)
    decreases e, 0
  {
    match e
    case Prefix(_, r) => DepthNodesE(r);
    case Infix(_, l, r) =>
      DepthNodesE(l);
      DepthNodesE(r);
    case If(c, a, b, _) =>
      DepthNodesE(c);
      DepthNodesB(a);
      if b.Some? { DepthNodesB(b.value); }
    case _ =>
  }

  lemma {:induction false} DepthNodesB(b: Block)
    ensures DepthB(b) <= NodesB(b) + 1
    decreases b, 1
  {
    if b.Seq? {
      DepthNodesS(b.head);
      DepthNodesB(b.tail);
    }
  }

  lemma {:induction false} DepthNodesS(s: Stmt)
    ensures DepthS(s) <= NodesS(s)
    decreases s, 2
  {
    match s
    case ExprStmt(e) => DepthNodesE(e);
    case VarDecl(_, _, _, i) => if i.Some? { DepthNodesE(i.value); }
    case Assign(_, e) => DepthNodesE(e);
    case For(f, c, p, b) =>
      if f.Some? { DepthNodesS(f.value); }
      if p.Some? { DepthNodesS(p.value); }
      DepthNodesE(c);
      DepthNodesB(b);
    case Break =>
    case Continue =>
  }

  /** Every program of up to 2000 nodes that compiles fits. */
  lemma SmallFits(prog: Block)
    requires Compilable(prog) && NodesB(prog) <= 2000
    ensures Fitting(prog)
  {
    hide GenStmts, NodesB;
    FineExact(prog);
    var none: map<string, Symbol> := map[];
    assert TOP.scopes[0] == none && TOP.scopes[1..] == [];
    forall x ensures Resolve(TOP.scopes, x) == None { assert Resolve(TOP.scopes[1..], x) == None; }
    TakesB(prog, TOP, 0, 0, NoLoop);
    SmallFill(GenProgram(prog).code, PLACEHOLDER, PLACEHOLDER);
    DepthNodesB(prog);
  }
}
