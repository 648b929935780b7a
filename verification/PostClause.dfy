/** Where code has open continues: exactly where its source has a continue of a loop around. */
module PostClause {
  import opened Language
  import opened Typing
  import opened Bytecode
  import opened Codegen
  import opened Patching
  import opened Snapshots

  /** A continue occurs that refers to a loop outside the construct. */
  predicate ContinuesE(e: Expr)
  {
    match e
    case Prefix(_, r) => ContinuesE(r)
    case Infix(_, l, r) => ContinuesE(l) || ContinuesE(r)
    case If(c, a, b, _) => ContinuesE(c) || ContinuesB(a) || (b.Some? && ContinuesB(b.value))
    case _ => false
  }

  predicate ContinuesB(b: Block) { b.Seq? && (ContinuesS(b.head) || ContinuesB(b.tail)) }

  predicate ContinuesS(s: Stmt)
  {
    match s
    case ExprStmt(e) => ContinuesE(e)
    case VarDecl(_, _, _, i) => i.Some? && ContinuesE(i.value)
    case Assign(_, e) => ContinuesE(e)
    case For(f, _, _, _) => f.Some? && ContinuesS(f.value)
    case Break => false
    case Continue => true
  }

  predicate Open(c: seq<Ins>) { !NoContinues(c) }

  lemma OpenAppend(a: seq<Ins>, b: seq<Ins>)
    ensures Open(a + b) <==> Open(a) || Open(b)
  {
    if i :| 0 <= i < |a| && a[i].ContinueHole? { assert (a + b)[i].ContinueHole?; }
    if i :| 0 <= i < |b| && b[i].ContinueHole? { assert (a + b)[|a| + i].ContinueHole?; }
  }

  lemma OpenOne(i: Ins)
    ensures Open([i]) <==> i.ContinueHole?
  {
    assert [i][0] == i;
  }

  lemma OpenBranch(unit: bool, c: seq<Ins>)
    ensures Open(BranchCode(unit, c)) <==> Open(c)
  {
    if unit {
      OpenAppend(c, [Plain(OP_NULL)]);
      OpenOne(Plain(OP_NULL));
    } else if c != [] && c[|c| - 1] == Plain(OP_POP) {
      assert c == c[..|c| - 1] + [Plain(OP_POP)];
      OpenAppend(c[..|c| - 1], [Plain(OP_POP)]);
      OpenOne(Plain(OP_POP));
    }
  }

  /** In a loop with a post clause, code has an open continue exactly if its source has one. */
  lemma {:induction false} OpenE(e: Expr, c: Ctx, pos: nat, k: nat, lp: Loop)
    requires lp.InLoop? && lp.hasPost && GenE(e, c, pos, k, lp).Gen?
    ensures Open(GenE(e, c, pos, k, lp).code) <==> ContinuesE(e)
    decreases e, 1
  {
    hide NoContinues, GenStmts, GenS, GenFor, JoinIf, Open;
    match e
    case IntLit(_) => OpenOne(Wide(OP_CONSTANT, k));
    case BoolLit(b) => OpenOne(Plain(if b then OP_TRUE else OP_FALSE));
    case Ident(x) => OpenOne(GetIns(c, Resolve(c.scopes, x).value.index));
    case Prefix(op, r) =>
      OpenE(r, c, pos, k, lp);
      OpenAppend(GenE(r, c, pos, k, lp).code, [PrefixIns(op)]);
      OpenOne(PrefixIns(op));
    case Infix(op, l, r) =>
      var (x, y) := if Swapped(op) then (r, l) else (l, r);
      var g := GenE(x, c, pos, k, lp);
      OpenE(x, c, pos, k, lp);
      OpenE(y, g.ctx, pos + g.size, k + |g.consts|, lp);
      var g' := GenE(y, g.ctx, pos + g.size, k + |g.consts|, lp);
      OpenAppend(g.code, g'.code);
      OpenAppend(g.code + g'.code, [InfixIns(op)]);
      OpenOne(InfixIns(op));
    case If(_, _, _, _) =>
      assert GenE(e, c, pos, k, lp) == GenIf(e, c, pos, k, lp);
      OpenIf(e, c, pos, k, lp);
  }

  lemma {:induction false} OpenIf(e: Expr, c: Ctx, pos: nat, k: nat, lp: Loop)
    requires e.If? && lp.InLoop? && lp.hasPost && GenIf(e, c, pos, k, lp).Gen?
    ensures Open(GenIf(e, c, pos, k, lp).code) <==> ContinuesE(e)
    decreases e, 0
  {
    hide NoContinues, JoinIf, BranchSize, Open;
    var g := GenE(e.cond, c, pos, k, lp);
    OpenE(e.cond, c, pos, k, lp);
    var p1 := pos + g.size + 3;
    var ga := GenBlock(e.cons, g.ctx, p1, k + |g.consts|, lp);
    OpenStmts(e.cons, Push(g.ctx), p1, k + |g.consts|, lp);
    var p2 := p1 + BranchSize(e.unit, ga) + 3;
    var gb := GenAlt(e.alt, ga.ctx, p2, k + |g.consts| + |ga.consts|, lp);
    assert GenIf(e, c, pos, k, lp) == JoinIf(e.unit, e.alt.Some?, pos, g, ga, gb);
    JoinedAll(e.unit, e.alt.Some?, pos, g, ga, gb);
    if e.alt.Some? {
      assert gb == GenBlock(e.alt.value, ga.ctx, p2, k + |g.consts| + |ga.consts|, lp);
      OpenStmts(e.alt.value, Push(ga.ctx), p2, k + |g.consts| + |ga.consts|, lp);
    } else {
      assert gb.code == [Plain(OP_NULL)];
      OpenOne(Plain(OP_NULL));
    }
    OpenJoin(e.unit, e.alt.Some?, pos, g, ga, gb);
  }

  lemma JoinedAll(unit: bool, hasAlt: bool, pos: nat, g: Gen, ga: Gen, gb: Gen)
    requires JoinIf(unit, hasAlt, pos, g, ga, gb).Gen?
    ensures g.Gen? && ga.Gen? && gb.Gen?
  {
  }

  lemma OpenJoin(unit: bool, hasAlt: bool, pos: nat, g: Gen, ga: Gen, gb: Gen)
    requires g.Gen? && ga.Gen? && gb.Gen?
    ensures Open(JoinIf(unit, hasAlt, pos, g, ga, gb).code) <==> Open(g.code) || Open(ga.code) || Open(gb.code)
  {
    hide NoContinues;
    var codeB := if hasAlt then BranchCode(unit, gb.code) else gb.code;
    var sizeB := if hasAlt then BranchSize(unit, gb) else gb.size;
    var p2 := pos + g.size + 3 + BranchSize(unit, ga) + 3;
    var i, j := Wide(OP_JUMP_NOT_TRUTHY, p2), Wide(OP_JUMP, p2 + sizeB);
    var a := BranchCode(unit, ga.code);
    OpenBranch(unit, ga.code);
    OpenBranch(unit, gb.code);
    OpenOne(i);
    OpenOne(j);
    OpenAppend([j], codeB);
    OpenAppend(a, [j] + codeB);
    OpenAppend([i], a + ([j] + codeB));
    OpenAppend(g.code, [i] + (a + ([j] + codeB)));
  }

  lemma {:induction false} OpenStmts(b: Block, c: Ctx, pos: nat, k: nat, lp: Loop)
    requires lp.InLoop? && lp.hasPost && GenStmts(b, c, pos, k, lp).Gen?
    ensures Open(GenStmts(b, c, pos, k, lp).code) <==> ContinuesB(b)
    decreases b, 0
  {
    if b.Seq? {
      var g := GenS(b.head, c, pos, k, lp);
      OpenS(b.head, c, pos, k, lp);
      OpenStmts(b.tail, g.ctx, pos + g.size, k + |g.consts|, lp);
      OpenAppend(g.code, GenStmts(b.tail, g.ctx, pos + g.size, k + |g.consts|, lp).code);
    }
  }

  lemma {:induction false} OpenS(s: Stmt, c: Ctx, pos: nat, k: nat, lp: Loop)
    requires lp.InLoop? && lp.hasPost && GenS(s, c, pos, k, lp).Gen?
    ensures Open(GenS(s, c, pos, k, lp).code) <==> ContinuesS(s)
    decreases s, 1
  {
    hide NoContinues;
    match s
    case ExprStmt(e) =>
      OpenE(e, c, pos, k, lp);
      OpenAppend(GenE(e, c, pos, k, lp).code, [Plain(OP_POP)]);
      OpenOne(Plain(OP_POP));
    case VarDecl(constant, _, ty, init) =>
      var g := GenInit(init, ty, c, pos, k, lp);
      if init.Some? { OpenE(init.value, c, pos, k, lp); } else { OpenOne(g.code[0]); }
      OpenAppend(g.code, [SetIns(g.ctx, g.ctx.next, constant)]);
      OpenOne(SetIns(g.ctx, g.ctx.next, constant));
    case Assign(x, e) =>
      var g := GenE(e, c, pos, k, lp);
      OpenE(e, c, pos, k, lp);
      var i := SetIns(g.ctx, Resolve(g.ctx.scopes, x).value.index, false);
      OpenAppend(g.code, [i]);
      OpenOne(i);
    case For(f, _, _, _) =>
      assert GenS(s, c, pos, k, lp) == GenFor(s, c, pos, k, lp);
      OpenFor(s, c, pos, k, lp);
    case Break => OpenOne(BreakHole);
    case Continue => OpenOne(ContinueHole);
  }

  lemma {:induction false} OpenFor(s: Stmt, c: Ctx, pos: nat, k: nat, lp: Loop)
    requires s.For? && lp.InLoop? && lp.hasPost && GenFor(s, c, pos, k, lp).Gen?
    ensures Open(GenFor(s, c, pos, k, lp).code) <==> ContinuesS(s)
    decreases s, 0
  {
    hide NoContinues, Fill;
    var gi := GenOpt(s.first, Push(c), pos, k, lp);
    if s.first.Some? { OpenS(s.first.value, Push(c), pos, k, lp); } else { OpenNone(); }
    var condPos := pos + gi.size;
    var inner := InLoop(s.post.Some?, condPos);
    var gc := GenE(s.test, gi.ctx, condPos, k + |gi.consts|, inner);
    var bodyPos := condPos + gc.size + 3;
    var kb := k + |gi.consts| + |gc.consts|;
    var gb := GenBlock(s.body, gc.ctx, bodyPos, kb, inner);
    var gp := GenOpt(s.post, gb.ctx, bodyPos + gb.size, kb + |gb.consts|, inner);
    OpenLoop(pos, s.post.Some?, gi, gc, gb, gp);
  }

  lemma OpenNone()
    ensures !Open([])
  {
  }

  lemma OpenLoop(pos: nat, hasPost: bool, gi: Gen, gc: Gen, gb: Gen, gp: Gen)
    requires JoinFor(pos, hasPost, gi, gc, gb, gp).Gen?
    ensures Open(JoinFor(pos, hasPost, gi, gc, gb, gp).code) <==> Open(gi.code)
  {
    hide NoContinues, Fill;
    var condPos := pos + gi.size;
    var postPos := condPos + gc.size + 3 + gb.size;
    var escape := postPos + gp.size + 3;
    var cont := if hasPost then postPos else condPos;
    var (c, b, p) := (Fill(gc.code, escape, cont), Fill(gb.code, escape, cont), Fill(gp.code, escape, PLACEHOLDER));
    var j, tail := Wide(OP_JUMP_NOT_TRUTHY, escape), [Wide(OP_JUMP, condPos), Plain(OP_NULL), Plain(OP_POP)];
    FilledDirect(gc.code, escape, cont);
    FilledDirect(gb.code, escape, cont);
    FilledDirect(gp.code, escape, PLACEHOLDER);
    TailClosed(condPos);
    OpenOne(j);
    OpenAppend(p, tail);
    OpenAppend(b, p + tail);
    OpenAppend([j], b + (p + tail));
    OpenAppend(c, [j] + (b + (p + tail)));
    OpenAppend(gi.code, c + ([j] + (b + (p + tail))));
  }

  lemma TailClosed(condPos: nat)
    ensures NoContinues([Wide(OP_JUMP, condPos), Plain(OP_NULL), Plain(OP_POP)])
  {
  }
}
