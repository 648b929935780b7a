/** Where the code of each construct lies in the final bytes: a declarative reading of the
    compiler's output, with every jump target resolved and one operand height per place. */
module Placement {
  import opened Language
  import opened Typing
  import opened Bytecode
  import opened Codegen
  import opened Scoping
  import opened Machine
  import opened FrameView

  /** Where the jumps of break and continue lead. */
  datatype Target = Target(brk: nat, cont: nat)

  /** A point of the code: the scopes there, the byte position, the number of constants used
      so far, the number of pending operands, and the exits of the enclosing loop. */
  datatype Place = Place(c: Ctx, pos: nat, k: nat, h: nat, tg: Target)

  function Limit(m: Setup): nat { if m.global then GLOBALS_SIZE else m.room }

  /** One more operand fits on the stack. */
  predicate Room(m: Setup, h: nat) { m.f.base + m.room + h < STACK_SIZE }

  predicate Is(m: Setup, pos: nat, i: Ins) { m.decode(pos) == Some(i) }

  predicate Same(p: Place, q: Place) { q.tg == p.tg && q.c.global == p.c.global && q.c.next >= p.c.next }

  function Skip(p: Place, n: nat, h: nat): Place { p.(pos := p.pos + n, h := h) }

  /** The code of `e` runs from `p` to `q` and leaves one more operand. */
  ghost predicate PlacedE(m: Setup, e: Expr, p: Place, q: Place)
    decreases e, 1
  {
    && Same(p, q) && q.c.scopes == p.c.scopes && q.h == p.h + 1
    && match e
       case IntLit(n) =>
         && Is(m, p.pos, Wide(OP_CONSTANT, p.k)) && p.k < |m.f.consts| && m.f.consts[p.k] == IntV(n)
         && Room(m, p.h) && q.pos == p.pos + 3
       case BoolLit(b) =>
         Is(m, p.pos, Plain(if b then OP_TRUE else OP_FALSE)) && Room(m, p.h) && q.pos == p.pos + 1
       case Ident(x) =>
         && Resolve(p.c.scopes, x).Some? && Room(m, p.h)
         && var i := GetIns(p.c, Resolve(p.c.scopes, x).value.index);
         Is(m, p.pos, i) && q.pos == p.pos + SizeOf(i)
       case Prefix(op, r) =>
         exists p1 :: PlacedE(m, r, p, p1) && Is(m, p1.pos, PrefixIns(op)) && q.pos == p1.pos + 1
       case Infix(op, l, r) =>
         if Swapped(op) then
           exists p1, p2 :: PlacedE(m, r, p, p1) && PlacedE(m, l, p1, p2)
             && Is(m, p2.pos, InfixIns(op)) && q.pos == p2.pos + 1
         else
           exists p1, p2 :: PlacedE(m, l, p, p1) && PlacedE(m, r, p1, p2)
             && Is(m, p2.pos, InfixIns(op)) && q.pos == p2.pos + 1
       case If(_, _, _, _) =>
         exists p1, p2 :: PlacedIf(m, e, p, p1, p2, q)
  }

  /** `p1` follows the condition, `p2` the consequence. */
  ghost predicate PlacedIf(m: Setup, e: Expr, p: Place, p1: Place, p2: Place, q: Place)
    requires e.If?
    decreases e, 0
  {
    && PlacedE(m, e.cond, p, p1)
    && Is(m, p1.pos, Wide(OP_JUMP_NOT_TRUTHY, p2.pos + 3))
    && PlacedBranch(m, e.cons, e.unit, Skip(p1, 3, p.h), p2)
    && Is(m, p2.pos, Wide(OP_JUMP, q.pos))
    && match e.alt
       case None => Is(m, p2.pos + 3, Plain(OP_NULL)) && Room(m, p.h) && q.pos == p2.pos + 4
       case Some(b) => PlacedBranch(m, b, e.unit, Skip(p2, 3, p.h), q)
  }

  /** A branch of an if-expression leaves one operand: null, or the value of its last statement. */
  ghost predicate PlacedBranch(m: Setup, b: Block, unit: bool, p: Place, q: Place)
    decreases b, 2
  {
    if unit then
      exists p1 :: PlacedBlock(m, b, p, p1, false) && Is(m, p1.pos, Plain(OP_NULL)) && Room(m, p.h)
        && q == Skip(p1, 1, p.h + 1)
    else PlacedBlock(m, b, p, q, true)
  }

  /** With `keep`, the value of the last statement stays on the stack. */
  ghost predicate PlacedBlock(m: Setup, b: Block, p: Place, q: Place, keep: bool)
    decreases b, 1
  {
    exists q1 :: PlacedStmts(m, b, p.(c := Push(p.c)), q1, keep)
      && q1.c.scopes != [] && q == q1.(c := PopScope(q1.c)) && q.c.scopes == p.c.scopes
  }

  ghost predicate PlacedStmts(m: Setup, b: Block, p: Place, q: Place, keep: bool)
    decreases b, 0
  {
    && Same(p, q) && q.h == (if keep then p.h + 1 else p.h)
    && p.c.scopes != [] && q.c.scopes != [] && q.c.scopes[1..] == p.c.scopes[1..]
    && match b
       case Empty => !keep && q == p
       case Seq(h, t) =>
         if keep && t.Empty? then
           (match h
            case ExprStmt(e) => PlacedE(m, e, p, q)
            case Break => PlacedS(m, h, p, q.(h := p.h))
            case Continue => PlacedS(m, h, p, q.(h := p.h))
            case _ => false)
         else exists p1 :: PlacedS(m, h, p, p1) && PlacedStmts(m, t, p1, q, keep)
  }

  ghost predicate PlacedOpt(m: Setup, s: Option<Stmt>, p: Place, q: Place)
    decreases s, 2
  {
    match s case None => q == p case Some(st) => PlacedS(m, st, p, q)
  }

  ghost predicate PlacedInit(m: Setup, init: Option<Expr>, ty: Option<Ty>, p: Place, q: Place)
    decreases init, 2
  {
    match init
    case Some(e) => PlacedE(m, e, p, q)
    case None =>
      && Same(p, q) && q.c.scopes == p.c.scopes && q.h == p.h + 1 && Room(m, p.h)
      && match ty
         case Some(TInt) => Is(m, p.pos, Wide(OP_CONSTANT, p.k)) && p.k < |m.f.consts| && m.f.consts[p.k] == IntV(0)
           && q.pos == p.pos + 3
         case Some(TBool) => Is(m, p.pos, Plain(OP_FALSE)) && q.pos == p.pos + 1
         case _ => Is(m, p.pos, Plain(OP_NULL)) && q.pos == p.pos + 1
  }

  ghost predicate PlacedS(m: Setup, s: Stmt, p: Place, q: Place)
    decreases s, 3
  {
    && Same(p, q) && q.h == p.h
    && p.c.scopes != [] && q.c.scopes != [] && q.c.scopes[1..] == p.c.scopes[1..]
    && (!s.VarDecl? ==> q.c.scopes == p.c.scopes)
    && match s
       case ExprStmt(e) =>
         exists p1 :: PlacedE(m, e, p, p1) && Is(m, p1.pos, Plain(OP_POP)) && q.pos == p1.pos + 1
       case VarDecl(constant, x, ty, init) =>
         exists p1 :: PlacedInit(m, init, ty, p, p1)
           && Is(m, p1.pos, SetIns(p.c, p1.c.next, constant))
           && q.pos == p1.pos + SizeOf(SetIns(p.c, p1.c.next, constant))
           && p1.c.scopes != [] && p1.c.next < Limit(m) && Below(p1.c.scopes, p1.c.next)
           && q.c == Define(p1.c, x, constant)
       case Assign(x, e) =>
         && Resolve(p.c.scopes, x).Some? && CtxOk(p.c)
         && var i := SetIns(p.c, Resolve(p.c.scopes, x).value.index, false);
         exists p1 :: PlacedE(m, e, p, p1) && Is(m, p1.pos, i) && q.pos == p1.pos + SizeOf(i)
       case For(_, _, _, _) =>
         exists p0, p1, p2, p3 :: PlacedFor(m, s, p, p0, p1, p2, p3, q)
       case Break => Is(m, p.pos, Wide(OP_JUMP, p.tg.brk)) && q.pos == p.pos + 3
       case Continue => Is(m, p.pos, Wide(OP_JUMP, p.tg.cont)) && q.pos == p.pos + 3
  }

  /** `p0` follows the initialisation, `p1` the condition, `p2` the body, `p3` the post statement. */
  ghost predicate PlacedFor(m: Setup, s: Stmt, p: Place, p0: Place, p1: Place, p2: Place, p3: Place, q: Place)
    requires s.For?
    decreases s, 2
  {
    && PlacedOpt(m, s.first, p.(c := Push(p.c)), p0)
    && PlacedLoop(m, s, p0.(tg := Target(p3.pos + 3, if s.post.Some? then p2.pos else p0.pos)), p1, p2, p3)
    && p0.c.scopes != [] && p0.c.scopes[1..] == p.c.scopes && p0.h == p.h
    && Is(m, p3.pos + 3, Plain(OP_NULL)) && Is(m, p3.pos + 4, Plain(OP_POP)) && Room(m, p.h)
    && q.pos == p3.pos + 5
  }

  /** The continue jumps are already patched when the post statement is compiled. */
  ghost predicate PlacedLoop(m: Setup, s: Stmt, p0: Place, p1: Place, p2: Place, p3: Place)
    requires s.For?
    decreases s, 1
  {
    && PlacedE(m, s.test, p0, p1)
    && Is(m, p1.pos, Wide(OP_JUMP_NOT_TRUTHY, p0.tg.brk))
    && PlacedBlock(m, s.body, Skip(p1, 3, p0.h), p2, false) && p2.h == p0.h
    && p0.tg.cont == (if s.post.Some? then p2.pos else p0.pos)
    && PlacedOpt(m, s.post, p2.(tg := Target(p0.tg.brk, PLACEHOLDER)), p3)
    && p2.c.scopes == p0.c.scopes && p3.c.scopes == p0.c.scopes && p3.h == p0.h
    && Is(m, p3.pos, Wide(OP_JUMP, p0.pos))
  }
}
