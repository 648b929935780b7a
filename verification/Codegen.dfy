/** What the bytecode compiler emits, as a function: every jump already has its target,
    except those of break and continue, which are holes until their loop is closed. */
module Codegen {
  import opened Language
  import opened Typing
  import opened Bytecode

  // ---------- compile-time scopes ----------

  datatype Symbol = Symbol(index: nat, constant: bool)

  type Scopes = seq<map<string, Symbol>>

  /** The open block scopes, innermost first, the next free slot, and whether variables live
      in the globals or in the frame of a function. */
  datatype Ctx = Ctx(scopes: Scopes, next: nat, global: bool)

  function Resolve(sc: Scopes, x: string): Option<Symbol>
  {
    if sc == [] then None
    else if x in sc[0] then Some(sc[0][x])
    else Resolve(sc[1..], x)
  }

  function Define(c: Ctx, x: string, constant: bool): Ctx
    requires c.scopes != []
  {
    c.(scopes := [c.scopes[0][x := Symbol(c.next, constant)]] + c.scopes[1..], next := c.next + 1)
  }

  function Push(c: Ctx): Ctx { c.(scopes := [map[]] + c.scopes) }

  function PopScope(c: Ctx): Ctx
    requires c.scopes != []
  {
    c.(scopes := c.scopes[1..])
  }

  function GetIns(c: Ctx, index: nat): Ins
  {
    if c.global then Wide(OP_GET_GLOBAL, index) else Short(OP_GET_LOCAL, index)
  }

  function SetIns(c: Ctx, index: nat, constant: bool): Ins
  {
    if c.global then Wide(if constant then OP_SET_IMMUTABLE_GLOBAL else OP_SET_MUTABLE_GLOBAL, index)
    else Short(if constant then OP_SET_IMMUTABLE_LOCAL else OP_SET_MUTABLE_LOCAL, index)
  }

  // ---------- code ----------

  /** The innermost loop being compiled. */
  datatype Loop = NoLoop | InLoop(hasPost: bool, condPos: nat)

  /** Instructions with their size in bytes, the constants they add, and the scopes after. */
  datatype Gen = Gen(code: seq<Ins>, size: nat, consts: seq<Value>, ctx: Ctx) | Bad

  function InfixIns(op: InfixOp): Ins
  {
    match op
    case Add => Plain(OP_ADD)
    case Sub => Plain(OP_SUB)
    case Mul => Plain(OP_MUL)
    case Div => Plain(OP_DIV)
    case Mod => Plain(OP_MODULO)
    case Eq => Plain(OP_EQUAL)
    case Ne => Plain(OP_NOT_EQUAL)
    case Gt => Plain(OP_GT)
    case Ge => Plain(OP_GTE)
    case Lt => Plain(OP_GT)
    case Le => Plain(OP_GTE)
    case And => Plain(OP_AND)
    case Or => Plain(OP_OR)
  }

  function PrefixIns(op: PrefixOp): Ins
  {
    match op case Not => Plain(OP_BANG) case Neg => Plain(OP_MINUS)
  }

  /** `removeLastPop`, applied only when the last instruction is a pop. */
  function DropPop(c: seq<Ins>): seq<Ins>
  {
    if c != [] && c[|c| - 1] == Plain(OP_POP) then c[..|c| - 1] else c
  }

  function BranchCode(unit: bool, c: seq<Ins>): seq<Ins>
  {
    if unit then c + [Plain(OP_NULL)] else DropPop(c)
  }

  function BranchSize(unit: bool, g: Gen): nat
    requires g.Gen?
  {
    if unit then g.size + 1
    else if g.code != [] && g.code[|g.code| - 1] == Plain(OP_POP) && g.size > 0 then g.size - 1
    else g.size
  }

  function Then(g: Gen, i: Ins): Gen
  {
    if g.Bad? then Bad else g.(code := g.code + [i], size := g.size + SizeOf(i))
  }

  function Join(a: Gen, b: Gen): Gen
  {
    if a.Bad? || b.Bad? then Bad
    else Gen(a.code + b.code, a.size + b.size, a.consts + b.consts, b.ctx)
  }

  /** Condition, jump over the consequence, consequence, jump over the alternative. */
  function JoinIf(unit: bool, hasAlt: bool, pos: nat, g: Gen, ga: Gen, gb: Gen): Gen
  {
    if g.Bad? || ga.Bad? || gb.Bad? then Bad else
    var codeB := if hasAlt then BranchCode(unit, gb.code) else gb.code;
    var sizeB := if hasAlt then BranchSize(unit, gb) else gb.size;
    var p2 := pos + g.size + 3 + BranchSize(unit, ga) + 3;
    Gen(g.code + ([Wide(OP_JUMP_NOT_TRUTHY, p2)]
          + (BranchCode(unit, ga.code) + ([Wide(OP_JUMP, p2 + sizeB)] + codeB))),
        g.size + 3 + BranchSize(unit, ga) + 3 + sizeB,
        g.consts + (ga.consts + gb.consts), gb.ctx)
  }

  /** Initialisation, condition, body, post, jump back, and the null popped at once. Continue
      leads to the post statement, or to the condition when there is none. The continue
      positions are patched before the post statement is compiled, so a continue inside the
      post statement keeps its placeholder. */
  function JoinFor(pos: nat, hasPost: bool, gi: Gen, gc: Gen, gb: Gen, gp: Gen): Gen
  {
    if gi.Bad? || gc.Bad? || gb.Bad? || gp.Bad? || gp.ctx.scopes == [] then Bad else
    var condPos := pos + gi.size;
    var postPos := condPos + gc.size + 3 + gb.size;
    var escape := postPos + gp.size + 3;
    var cont := if hasPost then postPos else condPos;
    Gen(gi.code + (Fill(gc.code, escape, cont) + ([Wide(OP_JUMP_NOT_TRUTHY, escape)]
          + (Fill(gb.code, escape, cont) + (Fill(gp.code, escape, PLACEHOLDER)
          + [Wide(OP_JUMP, condPos), Plain(OP_NULL), Plain(OP_POP)])))),
        gi.size + gc.size + 3 + gb.size + gp.size + 5,
        gi.consts + (gc.consts + (gb.consts + gp.consts)), PopScope(gp.ctx))
  }

  /** Code for `e` placed at byte `pos`, with `k` constants already in the pool. */
  function GenE(e: Expr, c: Ctx, pos: nat, k: nat, lp: Loop): (g: Gen)
    decreases e, 1
  {
    match e
    case IntLit(n) => Gen([Wide(OP_CONSTANT, k)], 3, [IntV(n)], c)
    case BoolLit(b) => Gen([Plain(if b then OP_TRUE else OP_FALSE)], 1, [], c)
    case Ident(x) =>
      (match Resolve(c.scopes, x)
       case None => Bad
       case Some(sym) => Gen([GetIns(c, sym.index)], SizeOf(GetIns(c, sym.index)), [], c))
    case Prefix(op, r) => Then(GenE(r, c, pos, k, lp), PrefixIns(op))
    case Infix(op, l, r) =>
      if Swapped(op) then
        var g := GenE(r, c, pos, k, lp);
        if g.Bad? then Bad
        else Then(Join(g, GenE(l, g.ctx, pos + g.size, k + |g.consts|, lp)), InfixIns(op))
      else
        var g := GenE(l, c, pos, k, lp);
        if g.Bad? then Bad
        else Then(Join(g, GenE(r, g.ctx, pos + g.size, k + |g.consts|, lp)), InfixIns(op))
    case If(_, _, _, _) => GenIf(e, c, pos, k, lp)
  }

  function GenIf(e: Expr, c: Ctx, pos: nat, k: nat, lp: Loop): (g: Gen)
    requires e.If?
    decreases e, 0
  {
    var g := GenE(e.cond, c, pos, k, lp);
    if g.Bad? then Bad else
    var p1 := pos + g.size + 3;
    var ga := GenBlock(e.cons, g.ctx, p1, k + |g.consts|, lp);
    if ga.Bad? then Bad else
    var p2 := p1 + BranchSize(e.unit, ga) + 3;
    JoinIf(e.unit, e.alt.Some?, pos, g, ga, GenAlt(e.alt, ga.ctx, p2, k + |g.consts| + |ga.consts|, lp))
  }

  function GenAlt(b: Option<Block>, c: Ctx, pos: nat, k: nat, lp: Loop): (g: Gen)
    decreases b, 2
  {
    match b
    case None => Gen([Plain(OP_NULL)], 1, [], c)
    case Some(blk) => GenBlock(blk, c, pos, k, lp)
  }

  function GenBlock(b: Block, c: Ctx, pos: nat, k: nat, lp: Loop): (g: Gen)
    decreases b, 1
  {
    var g := GenStmts(b, Push(c), pos, k, lp);
    if g.Bad? || g.ctx.scopes == [] then Bad else g.(ctx := PopScope(g.ctx))
  }

  function GenStmts(b: Block, c: Ctx, pos: nat, k: nat, lp: Loop): (g: Gen)
    decreases b, 0
  {
    match b
    case Empty => Gen([], 0, [], c)
    case Seq(h, t) =>
      var g := GenS(h, c, pos, k, lp);
      if g.Bad? then Bad
      else Join(g, GenStmts(t, g.ctx, pos + g.size, k + |g.consts|, lp))
  }

  function ZeroGen(ty: Option<Ty>, c: Ctx, k: nat): Gen
  {
    match ty
    case Some(TInt) => Gen([Wide(OP_CONSTANT, k)], 3, [IntV(0)], c)
    case Some(TBool) => Gen([Plain(OP_FALSE)], 1, [], c)
    case _ => Gen([Plain(OP_NULL)], 1, [], c)
  }

  function GenInit(init: Option<Expr>, ty: Option<Ty>, c: Ctx, pos: nat, k: nat, lp: Loop): Gen
    decreases init, 1
  {
    match init case None => ZeroGen(ty, c, k) case Some(e) => GenE(e, c, pos, k, lp)
  }

  function GenOpt(s: Option<Stmt>, c: Ctx, pos: nat, k: nat, lp: Loop): (g: Gen)
    decreases s, 2
  {
    match s case None => Gen([], 0, [], c) case Some(st) => GenS(st, c, pos, k, lp)
  }

  function GenS(s: Stmt, c: Ctx, pos: nat, k: nat, lp: Loop): (g: Gen)
    decreases s, 1
  {
    match s
    case ExprStmt(e) => Then(GenE(e, c, pos, k, lp), Plain(OP_POP))
    case VarDecl(constant, x, ty, init) =>
      if c.scopes == [] || x in c.scopes[0] then Bad else
      var g := GenInit(init, ty, c, pos, k, lp);
      if g.Bad? || g.ctx.scopes == [] then Bad
      else Then(g, SetIns(g.ctx, g.ctx.next, constant)).(ctx := Define(g.ctx, x, constant))
    case Assign(x, e) =>
      var g := GenE(e, c, pos, k, lp);
      if g.Bad? || Resolve(g.ctx.scopes, x).None? || Resolve(g.ctx.scopes, x).value.constant then Bad
      else Then(g, SetIns(g.ctx, Resolve(g.ctx.scopes, x).value.index, false))
    case For(_, _, _, _) => GenFor(s, c, pos, k, lp)
    case Break => if lp.NoLoop? then Bad else Gen([BreakHole], 3, [], c)
    case Continue =>
      if lp.NoLoop? then Bad
      else if lp.hasPost then Gen([ContinueHole], 3, [], c)
      else Gen([Wide(OP_JUMP, lp.condPos)], 3, [], c)
  }

  function GenFor(s: Stmt, c: Ctx, pos: nat, k: nat, lp: Loop): (g: Gen)
    requires s.For?
    decreases s, 0
  {
    var gi := GenOpt(s.first, Push(c), pos, k, lp);
    if gi.Bad? then Bad else
    var condPos := pos + gi.size;
    var inner := InLoop(s.post.Some?, condPos);
    var gc := GenE(s.test, gi.ctx, condPos, k + |gi.consts|, inner);
    if gc.Bad? then Bad else
    var bodyPos := condPos + gc.size + 3;
    var kb := k + |gi.consts| + |gc.consts|;
    var gb := GenBlock(s.body, gc.ctx, bodyPos, kb, inner);
    if gb.Bad? then Bad else
    var gp := GenOpt(s.post, gb.ctx, bodyPos + gb.size, kb + |gb.consts|, inner);
    JoinFor(pos, s.post.Some?, gi, gc, gb, gp)
  }
}
