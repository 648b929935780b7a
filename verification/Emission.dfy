/** The code the compiler generates is placed as the simulation needs it. */
module Emission {
  import opened Language
  import opened Typing
  import opened Bytecode
  import opened Codegen
  import opened Scoping
  import opened Machine
  import opened FrameView
  import opened Placement

  function Max(a: nat, b: nat): nat { if a >= b then a else b }

  /** Operand cells a construct needs above the current height. */
  function DepthE(e: Expr): (d: nat)
    ensures d >= 1
  {
    match e
    case Prefix(_, r) => DepthE(r)
    case Infix(op, l, r) =>
      if Swapped(op) then Max(DepthE(r), 1 + DepthE(l)) else Max(DepthE(l), 1 + DepthE(r))
    case If(c, a, b, _) => Max(DepthE(c), Max(DepthB(a), match b case None => 1 case Some(blk) => DepthB(blk)))
    case _ => 1
  }

  function DepthB(b: Block): (d: nat)
    ensures d >= 1
  {
    match b
    case Empty => 1
    case Seq(h, t) => Max(DepthS(h), DepthB(t))
  }

  function DepthO(s: Option<Stmt>): (d: nat)
    ensures d >= 1
  {
    match s case None => 1 case Some(st) => DepthS(st)
  }

  function DepthS(s: Stmt): (d: nat)
    ensures d >= 1
  {
    match s
    case ExprStmt(e) => DepthE(e)
    case VarDecl(_, _, _, i) => (match i case None => 1 case Some(e) => DepthE(e))
    case Assign(_, e) => DepthE(e)
    case For(f, c, p, b) => Max(DepthO(f), Max(DepthE(c), Max(DepthB(b), DepthO(p))))
    case Break => 1
    case Continue => 1
  }

  predicate ConstsAt(all: seq<Value>, k: nat, ks: seq<Value>)
  {
    k + |ks| <= |all| && all[k..k + |ks|] == ks
  }

  lemma ConstsSplit(all: seq<Value>, k: nat, a: seq<Value>, b: seq<Value>)
    requires ConstsAt(all, k, a + b)
    ensures ConstsAt(all, k, a) && ConstsAt(all, k + |a|, b)
  {
    assert all[k..k + |a|] == (a + b)[..|a|];
    assert all[k + |a|..k + |a| + |b|] == (a + b)[|a|..];
  }

  predicate At(m: Setup, pos: nat, c: seq<Ins>, tg: Target) { m.placed(pos, c, tg.brk, tg.cont) }

  /** Instructions in a row; the places between them are named by the caller. */
  lemma FilledSplit(m: Setup, pos: nat, a: seq<Ins>, p1: nat, b: seq<Ins>, tg: Target)
    requires Drives(m) && At(m, pos, a + b, tg) && p1 == pos + Size(a)
    ensures At(m, pos, a, tg) && At(m, p1, b, tg)
  {
    assert FilledAt(m, pos, a + b, tg.brk, tg.cont);
    FillAppend(a, b, tg.brk, tg.cont);
    FillSize(a, tg.brk, tg.cont);
    CodeAtSplit(m.decode, pos, Fill(a, tg.brk, tg.cont), Fill(b, tg.brk, tg.cont));
    assert FilledAt(m, pos, a, tg.brk, tg.cont) && FilledAt(m, p1, b, tg.brk, tg.cont);
  }

  lemma FilledOne(m: Setup, pos: nat, i: Ins, tg: Target)
    requires Drives(m) && At(m, pos, [i], tg)
    ensures Is(m, pos, Fill1(i, tg.brk, tg.cont))
  {
    assert FilledAt(m, pos, [i], tg.brk, tg.cont);
  }

  lemma FilledCons(m: Setup, pos: nat, i: Ins, p1: nat, b: seq<Ins>, tg: Target)
    requires Drives(m) && At(m, pos, [i] + b, tg) && p1 == pos + SizeOf(i)
    ensures Is(m, pos, Fill1(i, tg.brk, tg.cont)) && At(m, p1, b, tg)
  {
    Size1(i);
    FilledSplit(m, pos, [i], p1, b, tg);
    FilledOne(m, pos, i, tg);
  }

  lemma FilledThen(m: Setup, pos: nat, a: seq<Ins>, p1: nat, i: Ins, p2: nat, b: seq<Ins>, tg: Target)
    requires Drives(m) && At(m, pos, a + ([i] + b), tg) && p1 == pos + Size(a) && p2 == p1 + SizeOf(i)
    ensures At(m, pos, a, tg) && Is(m, p1, Fill1(i, tg.brk, tg.cont)) && At(m, p2, b, tg)
  {
    FilledSplit(m, pos, a, p1, [i] + b, tg);
    FilledCons(m, p1, i, p2, b, tg);
  }

  /** Code without holes does not care how holes are filled. */
  lemma FilledRefill(m: Setup, pos: nat, c: seq<Ins>, b: nat, k: nat, tg: Target)
    requires Drives(m)
    requires At(m, pos, Fill(c, b, k), tg)
    ensures At(m, pos, c, Target(b, k))
  {
    assert FilledAt(m, pos, Fill(c, b, k), tg.brk, tg.cont);
    FillNoHoles(c, b, k);
    FillNoHoles(Fill(c, b, k), tg.brk, tg.cont);
    assert FilledAt(m, pos, c, b, k);
  }

  /** The code and constants of `g` are in place at `p`. */
  predicate Loaded(m: Setup, g: Gen, p: Place)
  {
    g.Gen? && At(m, p.pos, g.code, p.tg) && ConstsAt(m.f.consts, p.k, g.consts)
  }

  /** The place right after `g`, with `h` operands pending. */
  function After(p: Place, g: Gen, h: nat): Place
    requires g.Gen?
  {
    Place(g.ctx, p.pos + g.size, p.k + |g.consts|, h, p.tg)
  }

  lemma LoadedThen(m: Setup, g: Gen, i: Ins, p: Place)
    requires Drives(m)
    requires g.Gen? && Sized(g) && Loaded(m, Then(g, i), p)
    ensures Loaded(m, g, p) && Is(m, p.pos + g.size, Fill1(i, p.tg.brk, p.tg.cont))
  {
    FilledSplit(m, p.pos, g.code, p.pos + g.size, [i], p.tg);
    FilledOne(m, p.pos + g.size, i, p.tg);
  }

  lemma LoadedJoin(m: Setup, a: Gen, b: Gen, p: Place, h: nat)
    requires Drives(m)
    requires a.Gen? && b.Gen? && Sized(a) && Loaded(m, Join(a, b), p)
    ensures Loaded(m, a, p) && Loaded(m, b, After(p, a, h))
  {
    FilledSplit(m, p.pos, a.code, p.pos + a.size, b.code, p.tg);
    ConstsSplit(m.f.consts, p.k, a.consts, b.consts);
  }

  predicate LoopOk(lp: Loop, tg: Target)
  {
    lp.InLoop? && !lp.hasPost ==> tg.cont == lp.condPos
  }

  /** `need` slots exist and `d` more operands fit. */
  ghost predicate Fit(m: Setup, p: Place, need: nat, d: nat)
  {
    CtxOk(p.c) && p.c.global == m.global && need <= Limit(m) && m.f.base + m.room + p.h + d <= STACK_SIZE
  }

  function GE(e: Expr, p: Place, lp: Loop): Gen { GenE(e, p.c, p.pos, p.k, lp) }

  ghost predicate PreE(m: Setup, e: Expr, p: Place, lp: Loop)
  {
    && ShapedE(e) && LoopOk(lp, p.tg)
    && var g := GE(e, p, lp);
    Loaded(m, g, p) && Fit(m, p, g.ctx.next, DepthE(e))
  }

  ghost predicate PostE(m: Setup, e: Expr, p: Place, lp: Loop)
    requires GE(e, p, lp).Gen?
  {
    PlacedE(m, e, p, After(p, GE(e, p, lp), p.h + 1))
  }

  lemma PlaceLeaf(m: Setup, e: Expr, p: Place, lp: Loop)
    requires Drives(m)
    requires PreE(m, e, p, lp) && (e.IntLit? || e.BoolLit? || e.Ident?)
    ensures PostE(m, e, p, lp)
  {
    FilledOne(m, p.pos, GE(e, p, lp).code[0], p.tg);
    if e.IntLit? { assert m.f.consts[p.k..p.k + 1][0] == m.f.consts[p.k]; }
  }

  lemma {:induction false} PlaceE(m: Setup, e: Expr, p: Place, lp: Loop)
    requires Drives(m)
    requires PreE(m, e, p, lp)
    ensures PostE(m, e, p, lp)
    decreases e, 2
  {
    match e
    case IntLit(_) => PlaceLeaf(m, e, p, lp);
    case BoolLit(_) => PlaceLeaf(m, e, p, lp);
    case Ident(_) => PlaceLeaf(m, e, p, lp);
    case Prefix(op, r) =>
      SizedE(r, p.c, p.pos, p.k, lp);
      KeepsE(r, p.c, p.pos, p.k, lp);
      LoadedThen(m, GE(r, p, lp), PrefixIns(op), p);
      PlaceE(m, r, p, lp);
    case Infix(_, _, _) => PlaceInfix(m, e, p, lp);
    case If(_, _, _, _) => PlaceIf(m, e, p, lp);
  }

  /** The operand compiled first, and the place where the second one starts. */
  lemma InfixParts(m: Setup, e: Expr, p: Place, lp: Loop, a: Expr, b: Expr) returns (p1: Place, p2: Place)
    requires Drives(m)
    requires PreE(m, e, p, lp) && e.Infix?
    requires (a, b) == if Swapped(e.op) then (e.rhs, e.left) else (e.left, e.rhs)
    ensures PreE(m, a, p, lp) && p1 == After(p, GE(a, p, lp), p.h + 1)
    ensures PreE(m, b, p1, lp) && p2 == After(p1, GE(b, p1, lp), p.h + 2)
    ensures Is(m, p2.pos, InfixIns(e.op)) && After(p, GE(e, p, lp), p.h + 1) == Skip(p2, 1, p.h + 1)
    ensures Same(p, p2) && p2.c.scopes == p.c.scopes
  {
    hide Size, CtxOk, Resolve, CodeAt, Sized, Keeps, DepthB, Encode, JoinFor, GenFor, GenIf, GenStmts, GenS, GenBlock;
    var g1 := GE(a, p, lp);
    p1 := After(p, g1, p.h + 1);
    var g2 := GE(b, p1, lp);
    p2 := After(p1, g2, p.h + 2);
    SizedE(a, p.c, p.pos, p.k, lp);
    SizedE(b, p1.c, p1.pos, p1.k, lp);
    SizedJoin(g1, g2);
    KeepsE(a, p.c, p.pos, p.k, lp);
    KeepsE(b, p1.c, p1.pos, p1.k, lp);
    LoadedThen(m, Join(g1, g2), InfixIns(e.op), p);
    LoadedJoin(m, g1, g2, p, p.h + 1);
    CtxGrow(p.c, g1);
  }

  lemma {:induction false} PlaceInfix(m: Setup, e: Expr, p: Place, lp: Loop)
    requires Drives(m)
    requires PreE(m, e, p, lp) && e.Infix?
    ensures PostE(m, e, p, lp)
    decreases e, 1
  {
    var (a, b) := if Swapped(e.op) then (e.rhs, e.left) else (e.left, e.rhs);
    var p1, p2 := InfixParts(m, e, p, lp, a, b);
    PlaceE(m, a, p, lp);
    PlaceE(m, b, p1, lp);
    assert PlacedE(m, a, p, p1) && PlacedE(m, b, p1, p2);
  }

  // ---------- if-expressions ----------

  function GB(b: Block, p: Place, lp: Loop): Gen { GenBlock(b, p.c, p.pos, p.k, lp) }

  /** Code of a block, without its last pop when the value is kept. */
  function KeepCode(keep: bool, c: seq<Ins>): seq<Ins> { if keep then DropPop(c) else c }

  function KeepSize(keep: bool, g: Gen): nat
    requires g.Gen?
  {
    if keep then BranchSize(false, g) else g.size
  }

  ghost predicate PreB(m: Setup, b: Block, p: Place, lp: Loop, keep: bool)
  {
    && ShapedB(b) && LoopOk(lp, p.tg) && (keep ==> Yields(b))
    && var g := GB(b, p, lp);
    && g.Gen? && At(m, p.pos, KeepCode(keep, g.code), p.tg) && ConstsAt(m.f.consts, p.k, g.consts)
    && Fit(m, p, g.ctx.next, DepthB(b))
  }

  function AfterB(p: Place, g: Gen, keep: bool): Place
    requires g.Gen?
  {
    Place(g.ctx, p.pos + KeepSize(keep, g), p.k + |g.consts|, if keep then p.h + 1 else p.h, p.tg)
  }

  ghost predicate PreBranch(m: Setup, b: Block, unit: bool, p: Place, lp: Loop)
  {
    && ShapedB(b) && LoopOk(lp, p.tg) && (!unit ==> Yields(b))
    && var g := GB(b, p, lp);
    && g.Gen? && At(m, p.pos, BranchCode(unit, g.code), p.tg) && ConstsAt(m.f.consts, p.k, g.consts)
    && Fit(m, p, g.ctx.next, DepthB(b))
  }

  function AfterBranch(p: Place, g: Gen, unit: bool): Place
    requires g.Gen?
  {
    Place(g.ctx, p.pos + BranchSize(unit, g), p.k + |g.consts|, p.h + 1, p.tg)
  }

  lemma {:induction false} PlaceBranch(m: Setup, b: Block, unit: bool, p: Place, lp: Loop)
    requires Drives(m)
    requires PreBranch(m, b, unit, p, lp)
    ensures PlacedBranch(m, b, unit, p, AfterBranch(p, GB(b, p, lp), unit))
    decreases b, 4
  {
    var g := GB(b, p, lp);
    if unit {
      SizedBlock(b, p.c, p.pos, p.k, lp);
      FilledSplit(m, p.pos, g.code, p.pos + g.size, [Plain(OP_NULL)], p.tg);
      FilledOne(m, p.pos + g.size, Plain(OP_NULL), p.tg);
      PlaceBlock(m, b, p, lp, false);
      assert PlacedBlock(m, b, p, AfterB(p, g, false), false);
    } else {
      PlaceBlock(m, b, p, lp, true);
    }
  }

  lemma {:induction false} PlaceBlock(m: Setup, b: Block, p: Place, lp: Loop, keep: bool)
    requires Drives(m)
    requires PreB(m, b, p, lp, keep)
    ensures PlacedBlock(m, b, p, AfterB(p, GB(b, p, lp), keep), keep)
    decreases b, 3
  {
    hide Size, Fill, Encode, BranchCode, JoinIf, JoinFor, GenFor, GenIf, GenE, GenS, CodeAt, PlacedS, DepthB, DepthE,
      ConstsAt, EscapesB;
    var p0 := p.(c := Push(p.c));
    var g := GenStmts(b, p0.c, p.pos, p.k, lp);
    CtxPush(p.c);
    KeepsBlock(b, p.c, p.pos, p.k, lp);
    KeepsStmts(b, p0.c, p.pos, p.k, lp);
    PlaceStmts(m, b, p0, lp, keep);
    assert PlacedStmts(m, b, p0, AfterB(p0, g, keep), keep);
  }

  /** The pieces of an if-expression and where they start. */
  datatype IfPieces = IfPieces(g: Gen, p1: Place, pa: Place, ga: Gen, p2: Place, pb: Place, gb: Gen)

  predicate Pieces(e: Expr, p: Place, lp: Loop, x: IfPieces)
    requires e.If?
  {
    && x.g == GE(e.cond, p, lp) && x.g.Gen? && x.p1 == After(p, x.g, p.h + 1) && x.pa == Skip(x.p1, 3, p.h)
    && x.ga == GB(e.cons, x.pa, lp) && x.ga.Gen? && x.p2 == AfterBranch(x.pa, x.ga, e.unit)
    && x.pb == Skip(x.p2, 3, p.h)
    && x.gb == GenAlt(e.alt, x.pb.c, x.pb.pos, x.pb.k, lp) && x.gb.Gen?
    && GE(e, p, lp) == JoinIf(e.unit, e.alt.Some?, p.pos, x.g, x.ga, x.gb)
  }

  lemma TakeApart(e: Expr, p: Place, lp: Loop) returns (x: IfPieces)
    requires e.If? && GE(e, p, lp).Gen?
    ensures Pieces(e, p, lp, x)
  {
    assert GE(e, p, lp) == GenIf(e, p.c, p.pos, p.k, lp);
    var g := GE(e.cond, p, lp);
    var p1 := After(p, g, p.h + 1);
    var pa := Skip(p1, 3, p.h);
    var ga := GB(e.cons, pa, lp);
    var p2 := AfterBranch(pa, ga, e.unit);
    var pb := Skip(p2, 3, p.h);
    x := IfPieces(g, p1, pa, ga, p2, pb, GenAlt(e.alt, pb.c, pb.pos, pb.k, lp));
  }

  /** Every piece is in its place, and the two jumps lead over the branches. */
  lemma IfCode(m: Setup, unit: bool, hasAlt: bool, p: Place, g: Gen, ga: Gen, gb: Gen)
    requires Drives(m)
    requires g.Gen? && ga.Gen? && gb.Gen? && Sized(g) && Sized(ga)
      && Loaded(m, JoinIf(unit, hasAlt, p.pos, g, ga, gb), p)
    ensures Loaded(m, g, p)
    ensures ConstsAt(m.f.consts, p.k + |g.consts|, ga.consts)
      && ConstsAt(m.f.consts, p.k + |g.consts| + |ga.consts|, gb.consts)
    ensures var p1 := p.pos + g.size;
      var p2 := p1 + 3 + BranchSize(unit, ga);
      && Is(m, p1, Wide(OP_JUMP_NOT_TRUTHY, p2 + 3)) && At(m, p1 + 3, BranchCode(unit, ga.code), p.tg)
      && Is(m, p2, Wide(OP_JUMP, p.pos + JoinIf(unit, hasAlt, p.pos, g, ga, gb).size))
      && At(m, p2 + 3, if hasAlt then BranchCode(unit, gb.code) else gb.code, p.tg)
  {
    hide Size, Fill, Encode, JoinFor, GenFor, GenIf, GenE, GenS, GenStmts, CodeAt, PlacedE, PlacedS, PlacedStmts,
      DepthB, DepthE;
    var p2 := p.pos + g.size + 3 + BranchSize(unit, ga);
    var end := p.pos + JoinIf(unit, hasAlt, p.pos, g, ga, gb).size;
    var b := if hasAlt then BranchCode(unit, gb.code) else gb.code;
    SizedBranch(unit, ga);
    var p1 := p.pos + g.size;
    FilledThen(m, p.pos, g.code, p1, Wide(OP_JUMP_NOT_TRUTHY, p2 + 3), p1 + 3,
      BranchCode(unit, ga.code) + ([Wide(OP_JUMP, end)] + b), p.tg);
    FilledThen(m, p1 + 3, BranchCode(unit, ga.code), p2, Wide(OP_JUMP, end), p2 + 3, b, p.tg);
    ConstsSplit(m.f.consts, p.k, g.consts, ga.consts + gb.consts);
    ConstsSplit(m.f.consts, p.k + |g.consts|, ga.consts, gb.consts);
  }

  lemma IfParts(m: Setup, e: Expr, p: Place, lp: Loop, x: IfPieces)
    requires Drives(m)
    requires PreE(m, e, p, lp) && e.If? && Pieces(e, p, lp, x)
    ensures PreE(m, e.cond, p, lp) && PreBranch(m, e.cons, e.unit, x.pa, lp)
    ensures e.alt.Some? ==> PreBranch(m, e.alt.value, e.unit, x.pb, lp)
    ensures e.alt.None? ==> Is(m, x.pb.pos, Plain(OP_NULL))
    ensures Is(m, x.p1.pos, Wide(OP_JUMP_NOT_TRUTHY, x.pb.pos))
      && Is(m, x.p2.pos, Wide(OP_JUMP, p.pos + GE(e, p, lp).size))
  {
    SizedE(e.cond, p.c, p.pos, p.k, lp);
    SizedBlock(e.cons, x.pa.c, x.pa.pos, x.pa.k, lp);
    IfCode(m, e.unit, e.alt.Some?, p, x.g, x.ga, x.gb);
    KeepsE(e.cond, p.c, p.pos, p.k, lp);
    CtxGrow(p.c, x.g);
    KeepsBlock(e.cons, x.pa.c, x.pa.pos, x.pa.k, lp);
    CtxGrow(x.pa.c, x.ga);
    if e.alt.Some? { KeepsBlock(e.alt.value, x.pb.c, x.pb.pos, x.pb.k, lp); }
    else { FilledOne(m, x.pb.pos, Plain(OP_NULL), p.tg); }
  }

  lemma AssembleIf(m: Setup, e: Expr, p: Place, p1: Place, p2: Place, q: Place)
    requires e.If? && PlacedIf(m, e, p, p1, p2, q)
    requires Same(p, q) && q.c.scopes == p.c.scopes && q.h == p.h + 1
    ensures PlacedE(m, e, p, q)
  {
  }

  lemma {:induction false} PlaceIf(m: Setup, e: Expr, p: Place, lp: Loop)
    requires Drives(m)
    requires PreE(m, e, p, lp) && e.If?
    ensures PostE(m, e, p, lp)
    decreases e, 1
  {
    var x := TakeApart(e, p, lp);
    IfParts(m, e, p, lp, x);
    PlaceE(m, e.cond, p, lp);
    PlaceBranch(m, e.cons, e.unit, x.pa, lp);
    if e.alt.Some? { PlaceBranch(m, e.alt.value, e.unit, x.pb, lp); }
    KeepsE(e, p.c, p.pos, p.k, lp);
    AssembleIf(m, e, p, x.p1, x.p2, After(p, GE(e, p, lp), p.h + 1));
  }

  // ---------- statements ----------

  function GL(b: Block, p: Place, lp: Loop): Gen { GenStmts(b, p.c, p.pos, p.k, lp) }

  function GS(s: Stmt, p: Place, lp: Loop): Gen { GenS(s, p.c, p.pos, p.k, lp) }

  ghost predicate PreL(m: Setup, b: Block, p: Place, lp: Loop, keep: bool)
  {
    && ShapedB(b) && LoopOk(lp, p.tg) && (keep ==> Yields(b)) && p.c.scopes != []
    && var g := GL(b, p, lp);
    && g.Gen? && At(m, p.pos, KeepCode(keep, g.code), p.tg) && ConstsAt(m.f.consts, p.k, g.consts)
    && Fit(m, p, g.ctx.next, DepthB(b))
  }

  ghost predicate PreS(m: Setup, s: Stmt, p: Place, lp: Loop)
  {
    && ShapedS(s) && LoopOk(lp, p.tg) && p.c.scopes != []
    && var g := GS(s, p, lp);
    Loaded(m, g, p) && Fit(m, p, g.ctx.next, DepthS(s))
  }

  ghost predicate PostS(m: Setup, s: Stmt, p: Place, lp: Loop)
    requires GS(s, p, lp).Gen?
  {
    PlacedS(m, s, p, After(p, GS(s, p, lp), p.h))
  }

  lemma NonEmptyS(s: Stmt, p: Place, lp: Loop)
    requires GS(s, p, lp).Gen?
    ensures GS(s, p, lp).code != []
  {
    if s.For? { assert GS(s, p, lp) == GenFor(s, p.c, p.pos, p.k, lp); }
  }

  lemma NonEmptyL(b: Block, p: Place, lp: Loop)
    requires GL(b, p, lp).Gen? && b.Seq?
    ensures GL(b, p, lp).code != []
  {
    NonEmptyS(b.head, p, lp);
  }

  lemma DropJoin(a: Gen, b: Gen)
    requires a.Gen? && b.Gen? && b.code != [] && Sized(b)
    ensures DropPop(Join(a, b).code) == a.code + DropPop(b.code)
    ensures BranchSize(false, Join(a, b)) == a.size + BranchSize(false, b)
  {
    var c := a.code + b.code;
    assert c[|c| - 1] == b.code[|b.code| - 1];
    assert c[..|c| - 1] == a.code + b.code[..|b.code| - 1];
  }

  lemma {:induction false} PlaceStmts(m: Setup, b: Block, p: Place, lp: Loop, keep: bool)
    requires Drives(m)
    requires PreL(m, b, p, lp, keep)
    ensures PlacedStmts(m, b, p, AfterB(p, GL(b, p, lp), keep), keep)
    decreases b, 2
  {
    KeepsStmts(b, p.c, p.pos, p.k, lp);
    if b.Seq? {
      if keep && b.tail.Empty? { PlaceLast(m, b, p, lp); }
      else { PlaceCons(m, b, p, lp, keep); }
    }
  }

  /** First statement and the rest, which alone may give up its last pop. */
  lemma ConsParts(m: Setup, b: Block, p: Place, lp: Loop, keep: bool) returns (p1: Place)
    requires Drives(m)
    requires PreL(m, b, p, lp, keep) && b.Seq? && !(keep && b.tail.Empty?)
    ensures PreS(m, b.head, p, lp) && p1 == After(p, GS(b.head, p, lp), p.h)
    ensures PreL(m, b.tail, p1, lp, keep)
    ensures AfterB(p, GL(b, p, lp), keep) == AfterB(p1, GL(b.tail, p1, lp), keep)
  {
    var g1 := GS(b.head, p, lp);
    p1 := After(p, g1, p.h);
    var g2 := GL(b.tail, p1, lp);
    assert GL(b, p, lp) == Join(g1, g2);
    SizedS(b.head, p.c, p.pos, p.k, lp);
    SizedStmts(b.tail, p1.c, p1.pos, p1.k, lp);
    KeepsS(b.head, p.c, p.pos, p.k, lp);
    KeepsStmts(b.tail, p1.c, p1.pos, p1.k, lp);
    VisibleApart(b.head, p.c, p.pos, p.k, lp);
    if keep {
      NonEmptyL(b.tail, p1, lp);
      DropJoin(g1, g2);
    }
    FilledSplit(m, p.pos, g1.code, p1.pos, KeepCode(keep, g2.code), p.tg);
    ConstsSplit(m.f.consts, p.k, g1.consts, g2.consts);
  }

  lemma {:induction false} PlaceCons(m: Setup, b: Block, p: Place, lp: Loop, keep: bool)
    requires Drives(m)
    requires PreL(m, b, p, lp, keep) && b.Seq? && !(keep && b.tail.Empty?)
    ensures PlacedStmts(m, b, p, AfterB(p, GL(b, p, lp), keep), keep)
    decreases b, 1
  {
    var p1 := ConsParts(m, b, p, lp, keep);
    PlaceS(m, b.head, p, lp);
    PlaceStmts(m, b.tail, p1, lp, keep);
    KeepsStmts(b, p.c, p.pos, p.k, lp);
    assert PlacedS(m, b.head, p, p1) && PlacedStmts(m, b.tail, p1, AfterB(p, GL(b, p, lp), keep), keep);
  }

  /** A block of one statement has the code of that statement. */
  lemma Single(b: Block, p: Place, lp: Loop)
    requires GL(b, p, lp).Gen? && b.Seq? && b.tail.Empty?
    ensures GS(b.head, p, lp) == GL(b, p, lp)
  {
    var g := GS(b.head, p, lp);
    var rest := GL(b.tail, After(p, g, p.h), lp);
    assert GL(b, p, lp) == Join(g, rest);
    assert rest == Gen([], 0, [], g.ctx);
    assert g.code + rest.code == g.code && g.consts + rest.consts == g.consts;
  }

  lemma DropThen(g: Gen)
    requires g.Gen?
    ensures var g' := Then(g, Plain(OP_POP)); DropPop(g'.code) == g.code && BranchSize(false, g') == g.size
  {
    assert (g.code + [Plain(OP_POP)])[..|g.code|] == g.code;
  }

  /** The last statement of a kept block: an expression without its pop, or an exit. */
  lemma {:induction false} PlaceLast(m: Setup, b: Block, p: Place, lp: Loop)
    requires Drives(m)
    requires PreL(m, b, p, lp, true) && b.Seq? && b.tail.Empty?
    ensures PlacedStmts(m, b, p, AfterB(p, GL(b, p, lp), true), true)
    decreases b, 1
  {
    Single(b, p, lp);
    KeepsStmts(b, p.c, p.pos, p.k, lp);
    var q := AfterB(p, GL(b, p, lp), true);
    if b.head.ExprStmt? {
      LastExpr(m, b, p, lp);
      PlaceE(m, b.head.e, p, lp);
      LastPlaced(m, b, p, q);
    } else {
      LastExit(m, b, p, lp);
      LastPlaced(m, b, p, q);
    }
  }

  lemma LastExpr(m: Setup, b: Block, p: Place, lp: Loop)
    requires Drives(m)
    requires PreL(m, b, p, lp, true) && b.Seq? && b.tail.Empty? && b.head.ExprStmt? && GS(b.head, p, lp) == GL(b, p, lp)
    ensures PreE(m, b.head.e, p, lp) && After(p, GE(b.head.e, p, lp), p.h + 1) == AfterB(p, GL(b, p, lp), true)
  {
    var g := GE(b.head.e, p, lp);
    assert GS(b.head, p, lp) == Then(g, Plain(OP_POP));
    DropThen(g);
    assert ShapedS(b.head) && DepthS(b.head) == DepthE(b.head.e);
  }

  lemma LastExit(m: Setup, b: Block, p: Place, lp: Loop)
    requires Drives(m)
    requires PreL(m, b, p, lp, true) && b.Seq? && b.tail.Empty? && !b.head.ExprStmt?
      && GS(b.head, p, lp) == GL(b, p, lp)
    ensures PlacedS(m, b.head, p, AfterB(p, GL(b, p, lp), true).(h := p.h))
  {
    FilledOne(m, p.pos, GS(b.head, p, lp).code[0], p.tg);
  }

  lemma {:induction false} LastPlaced(m: Setup, b: Block, p: Place, q: Place)
    requires b.Seq? && b.tail.Empty? && Same(p, q) && q.h == p.h + 1
    requires p.c.scopes != [] && q.c.scopes != [] && q.c.scopes[1..] == p.c.scopes[1..]
    requires if b.head.ExprStmt? then PlacedE(m, b.head.e, p, q)
      else (b.head.Break? || b.head.Continue?) && PlacedS(m, b.head, p, q.(h := p.h))
    ensures PlacedStmts(m, b, p, q, true)
  {
  }

  lemma {:induction false} PlaceS(m: Setup, s: Stmt, p: Place, lp: Loop)
    requires Drives(m)
    requires PreS(m, s, p, lp)
    ensures PostS(m, s, p, lp)
    decreases s, 2
  {
    KeepsS(s, p.c, p.pos, p.k, lp);
    match s
    case ExprStmt(e) =>
      var g := GE(e, p, lp);
      SizedE(e, p.c, p.pos, p.k, lp);
      LoadedThen(m, g, Plain(OP_POP), p);
      PlaceE(m, e, p, lp);
    case VarDecl(_, _, _, _) => PlaceDecl(m, s, p, lp);
    case Assign(x, e) =>
      var g := GE(e, p, lp);
      SizedE(e, p.c, p.pos, p.k, lp);
      KeepsE(e, p.c, p.pos, p.k, lp);
      LoadedThen(m, g, SetIns(p.c, Resolve(p.c.scopes, x).value.index, false), p);
      PlaceE(m, e, p, lp);
    case For(_, _, _, _) => PlaceFor(m, s, p, lp);
    case Break => FilledOne(m, p.pos, BreakHole, p.tg);
    case Continue => FilledOne(m, p.pos, GS(s, p, lp).code[0], p.tg);
  }

  lemma {:induction false} PlaceDecl(m: Setup, s: Stmt, p: Place, lp: Loop)
    requires Drives(m)
    requires PreS(m, s, p, lp) && s.VarDecl?
    ensures PostS(m, s, p, lp)
    decreases s, 1
  {
    var g := GenInit(s.init, s.ty, p.c, p.pos, p.k, lp);
    if s.init.Some? {
      SizedE(s.init.value, p.c, p.pos, p.k, lp);
      KeepsE(s.init.value, p.c, p.pos, p.k, lp);
    } else if s.ty == Some(TInt) {
      assert Sized(g) by { Size1(g.code[0]); }
    } else {
      Size1(g.code[0]);
    }
    var i := SetIns(g.ctx, g.ctx.next, s.constant);
    LoadedThen(m, g, i, p);
    if s.init.Some? { PlaceE(m, s.init.value, p, lp); }
    else { PlaceZero(m, s, p, g); }
    var p1 := After(p, g, p.h + 1);
    CtxGrow(p.c, g);
    assert PlacedInit(m, s.init, s.ty, p, p1);
  }

  lemma PlaceZero(m: Setup, s: Stmt, p: Place, g: Gen)
    requires Drives(m)
    requires s.VarDecl? && s.init.None? && g == ZeroGen(s.ty, p.c, p.k) && Loaded(m, g, p)
    requires m.f.base + m.room + p.h + 1 <= STACK_SIZE
    ensures PlacedInit(m, s.init, s.ty, p, After(p, g, p.h + 1))
  {
    FilledOne(m, p.pos, g.code[0], p.tg);
    if s.ty == Some(TInt) { assert m.f.consts[p.k..p.k + 1][0] == m.f.consts[p.k]; }
  }

  // ---------- loops ----------

  function GO(s: Option<Stmt>, p: Place, lp: Loop): Gen { GenOpt(s, p.c, p.pos, p.k, lp) }

  /** The pieces of a loop: `p0` is the condition with the loop's own exits. */
  datatype ForPieces = ForPieces(gi: Gen, p0: Place, gc: Gen, pb: Place, gb: Gen, p2: Place, gp: Gen)

  function Inner(s: Stmt, x: ForPieces): Loop
    requires s.For?
  {
    InLoop(s.post.Some?, x.p0.pos)
  }

  predicate ForApart(s: Stmt, p: Place, lp: Loop, x: ForPieces)
    requires s.For?
  {
    && x.gi == GO(s.first, p.(c := Push(p.c)), lp) && x.gi.Gen?
    && x.gc.Gen? && x.gb.Gen? && x.gp.Gen?
    && var escape := p.pos + x.gi.size + x.gc.size + 3 + x.gb.size + x.gp.size + 3;
    && var post := p.pos + x.gi.size + x.gc.size + 3 + x.gb.size;
    && x.p0 == After(p, x.gi, p.h).(tg := Target(escape, if s.post.Some? then post else p.pos + x.gi.size))
    && x.gc == GE(s.test, x.p0, Inner(s, x)) && x.pb == Skip(After(x.p0, x.gc, p.h), 3, p.h)
    && x.gb == GB(s.body, x.pb, Inner(s, x)) && x.p2 == After(x.pb, x.gb, p.h).(tg := Target(escape, PLACEHOLDER))
    && x.gp == GO(s.post, x.p2, Inner(s, x))
    && GS(s, p, lp) == JoinFor(p.pos, s.post.Some?, x.gi, x.gc, x.gb, x.gp)
  }

  lemma TakeForApart(s: Stmt, p: Place, lp: Loop) returns (x: ForPieces)
    requires s.For? && GS(s, p, lp).Gen?
    ensures ForApart(s, p, lp, x)
  {
    assert GS(s, p, lp) == GenFor(s, p.c, p.pos, p.k, lp);
    var gi := GO(s.first, p.(c := Push(p.c)), lp);
    var condPos := p.pos + gi.size;
    var inner := InLoop(s.post.Some?, condPos);
    var kc := p.k + |gi.consts|;
    var gc := GenE(s.test, gi.ctx, condPos, kc, inner);
    var bodyPos := condPos + gc.size + 3;
    var kb := kc + |gc.consts|;
    var gb := GenBlock(s.body, gc.ctx, bodyPos, kb, inner);
    var gp := GenOpt(s.post, gb.ctx, bodyPos + gb.size, kb + |gb.consts|, inner);
    var escape := p.pos + gi.size + gc.size + 3 + gb.size + gp.size + 3;
    var post := p.pos + gi.size + gc.size + 3 + gb.size;
    var p0 := After(p, gi, p.h).(tg := Target(escape, if s.post.Some? then post else condPos));
    var pb := Skip(After(p0, gc, p.h), 3, p.h);
    x := ForPieces(gi, p0, gc, pb, gb, After(pb, gb, p.h).(tg := Target(escape, PLACEHOLDER)), gp);
  }

  /** Every piece of the loop is in its place, with the loop's exits filled in. */
  lemma ForCode(m: Setup, p: Place, hasPost: bool, gi: Gen, gc: Gen, gb: Gen, gp: Gen)
    requires Drives(m)
    requires gi.Gen? && gc.Gen? && gb.Gen? && gp.Gen? && gp.ctx.scopes != []
    requires Sized(gi) && Sized(gc) && Sized(gb) && Sized(gp)
      && At(m, p.pos, JoinFor(p.pos, hasPost, gi, gc, gb, gp).code, p.tg)
    ensures At(m, p.pos, gi.code, p.tg)
    ensures var condPos := p.pos + gi.size;
      var postPos := condPos + gc.size + 3 + gb.size;
      var escape := postPos + gp.size + 3;
      var cont := if hasPost then postPos else condPos;
      && At(m, condPos, gc.code, Target(escape, cont))
      && Is(m, condPos + gc.size, Wide(OP_JUMP_NOT_TRUTHY, escape))
      && At(m, condPos + gc.size + 3, gb.code, Target(escape, cont))
      && At(m, postPos, gp.code, Target(escape, PLACEHOLDER))
      && Is(m, postPos + gp.size, Wide(OP_JUMP, condPos)) && Is(m, escape, Plain(OP_NULL))
      && Is(m, escape + 1, Plain(OP_POP))
  {
    hide GenE, GenStmts, GenS, GenIf, GenFor, GenBlock, JoinIf, Size, Encode, PlacedE, PlacedBlock, PlacedOpt, PlacedS,
      PlacedStmts, Fill;
    var condPos := p.pos + gi.size;
    var postPos := condPos + gc.size + 3 + gb.size;
    var escape := postPos + gp.size + 3;
    var cont := if hasPost then postPos else condPos;
    FillSize(gc.code, escape, cont);
    FillSize(gb.code, escape, cont);
    FillSize(gp.code, escape, PLACEHOLDER);
    var tail := [Wide(OP_JUMP, condPos), Plain(OP_NULL), Plain(OP_POP)];
    var (fc, fb, fp) := (Fill(gc.code, escape, cont), Fill(gb.code, escape, cont), Fill(gp.code, escape, PLACEHOLDER));
    var j := Wide(OP_JUMP_NOT_TRUTHY, escape);
    var bodyPos := condPos + gc.size + 3;
    FilledSplit(m, p.pos, gi.code, condPos, fc + ([j] + (fb + (fp + tail))), p.tg);
    FilledThen(m, condPos, fc, condPos + gc.size, j, bodyPos, fb + (fp + tail), p.tg);
    FilledSplit(m, bodyPos, fb, postPos, fp + tail, p.tg);
    FilledSplit(m, postPos, fp, postPos + gp.size, tail, p.tg);
    FilledTail(m, postPos + gp.size, condPos, p.tg);
    FilledRefill(m, condPos, gc.code, escape, cont, p.tg);
    FilledRefill(m, condPos + gc.size + 3, gb.code, escape, cont, p.tg);
    FilledRefill(m, postPos, gp.code, escape, PLACEHOLDER, p.tg);
  }

  lemma FilledTail(m: Setup, pos: nat, condPos: nat, tg: Target)
    requires Drives(m)
    requires At(m, pos, [Wide(OP_JUMP, condPos), Plain(OP_NULL), Plain(OP_POP)], tg)
    ensures Is(m, pos, Wide(OP_JUMP, condPos)) && Is(m, pos + 3, Plain(OP_NULL)) && Is(m, pos + 4, Plain(OP_POP))
  {
    var tail := [Wide(OP_JUMP, condPos)] + ([Plain(OP_NULL)] + [Plain(OP_POP)]);
    assert tail == [Wide(OP_JUMP, condPos), Plain(OP_NULL), Plain(OP_POP)];
    FilledCons(m, pos, Wide(OP_JUMP, condPos), pos + 3, [Plain(OP_NULL)] + [Plain(OP_POP)], tg);
    FilledCons(m, pos + 3, Plain(OP_NULL), pos + 4, [Plain(OP_POP)], tg);
    FilledOne(m, pos + 4, Plain(OP_POP), tg);
  }

  lemma ForConsts(m: Setup, p: Place, gi: Gen, gc: Gen, gb: Gen, gp: Gen)
    requires gi.Gen? && gc.Gen? && gb.Gen? && gp.Gen?
    requires ConstsAt(m.f.consts, p.k, gi.consts + (gc.consts + (gb.consts + gp.consts)))
    ensures var k1 := p.k + |gi.consts|;
      && ConstsAt(m.f.consts, p.k, gi.consts) && ConstsAt(m.f.consts, k1, gc.consts)
      && ConstsAt(m.f.consts, k1 + |gc.consts|, gb.consts)
      && ConstsAt(m.f.consts, k1 + |gc.consts| + |gb.consts|, gp.consts)
  {
    var k1 := p.k + |gi.consts|;
    ConstsSplit(m.f.consts, p.k, gi.consts, gc.consts + (gb.consts + gp.consts));
    ConstsSplit(m.f.consts, k1, gc.consts, gb.consts + gp.consts);
    ConstsSplit(m.f.consts, k1 + |gc.consts|, gb.consts, gp.consts);
  }

  /** Scopes and slots at the pieces of a loop. */
  lemma ForScopes(s: Stmt, p: Place, lp: Loop, x: ForPieces)
    requires s.For? && ForApart(s, p, lp, x) && CtxOk(p.c)
    ensures CtxOk(Push(p.c)) && CtxOk(x.p0.c) && CtxOk(x.pb.c) && CtxOk(x.p2.c)
    ensures x.p0.c.scopes != [] && x.p0.c.scopes[1..] == p.c.scopes
    ensures x.pb.c.scopes == x.p0.c.scopes && x.p2.c.scopes == x.p0.c.scopes && x.gp.ctx.scopes != []
    ensures p.c.next <= x.p0.c.next <= x.pb.c.next <= x.p2.c.next <= x.gp.ctx.next
    ensures x.p0.c.global == p.c.global && x.pb.c.global == p.c.global && x.p2.c.global == p.c.global
      && x.gp.ctx.global == p.c.global
    ensures Sized(x.gi) && Sized(x.gc) && Sized(x.gb) && Sized(x.gp)
    ensures s.post.Some? && !s.post.value.VarDecl? ==> x.gp.ctx.scopes == x.p0.c.scopes
    ensures s.post.None? ==> x.gp.ctx.scopes == x.p0.c.scopes
  {
    var c0 := Push(p.c);
    var inner := Inner(s, x);
    CtxPush(p.c);
    assert c0.scopes[1..] == p.c.scopes;
    KeepsOpt(s.first, c0, p.pos, p.k, lp);
    if s.first.Some? { VisibleApart(s.first.value, c0, p.pos, p.k, lp); }
    KeepsE(s.test, x.p0.c, x.p0.pos, x.p0.k, inner);
    CtxGrow(x.p0.c, x.gc);
    KeepsBlock(s.body, x.pb.c, x.pb.pos, x.pb.k, inner);
    CtxGrow(x.pb.c, x.gb);
    KeepsOpt(s.post, x.p2.c, x.p2.pos, x.p2.k, inner);
    if s.post.Some? { KeepsS(s.post.value, x.p2.c, x.p2.pos, x.p2.k, inner); }
    SizedOpt(s.first, c0, p.pos, p.k, lp);
    SizedE(s.test, x.p0.c, x.p0.pos, x.p0.k, inner);
    SizedBlock(s.body, x.pb.c, x.pb.pos, x.pb.k, inner);
    SizedOpt(s.post, x.p2.c, x.p2.pos, x.p2.k, inner);
  }

  ghost predicate PreO(m: Setup, s: Option<Stmt>, p: Place, lp: Loop)
  {
    s.Some? ==> PreS(m, s.value, p, lp)
  }

  /** Room for the pieces. */
  lemma ForFits(m: Setup, s: Stmt, p: Place, lp: Loop, x: ForPieces)
    requires s.For? && GS(s, p, lp).Gen? && ForApart(s, p, lp, x) && Fit(m, p, GS(s, p, lp).ctx.next, DepthS(s))
    ensures Fit(m, p.(c := Push(p.c)), x.gi.ctx.next, DepthO(s.first)) && Fit(m, x.p0, x.gc.ctx.next, DepthE(s.test))
    ensures Fit(m, x.pb, x.gb.ctx.next, DepthB(s.body)) && Fit(m, x.p2, x.gp.ctx.next, DepthO(s.post))
  {
    ForScopes(s, p, lp, x);
    assert GS(s, p, lp).ctx.next == x.gp.ctx.next;
  }

  lemma ForParts(m: Setup, s: Stmt, p: Place, lp: Loop, x: ForPieces)
    requires Drives(m)
    requires PreS(m, s, p, lp) && s.For? && ForApart(s, p, lp, x)
    requires Fit(m, p.(c := Push(p.c)), x.gi.ctx.next, DepthO(s.first)) && Fit(m, x.p0, x.gc.ctx.next, DepthE(s.test))
    requires Fit(m, x.pb, x.gb.ctx.next, DepthB(s.body)) && Fit(m, x.p2, x.gp.ctx.next, DepthO(s.post))
    ensures PreO(m, s.first, p.(c := Push(p.c)), lp) && PreE(m, s.test, x.p0, Inner(s, x))
    ensures PreB(m, s.body, x.pb, Inner(s, x), false) && PreO(m, s.post, x.p2, Inner(s, x))
  {
    hide GenStmts, GenS, GenFor, GenBlock, JoinIf, Size;
    ForScopes(s, p, lp, x);
    ForCode(m, p, s.post.Some?, x.gi, x.gc, x.gb, x.gp);
    ForConsts(m, p, x.gi, x.gc, x.gb, x.gp);
    if s.first.Some? { assert DepthO(s.first) == DepthS(s.first.value); }
    if s.post.Some? { assert DepthO(s.post) == DepthS(s.post.value); }
  }

  lemma {:induction false} PlaceOpt(m: Setup, s: Option<Stmt>, p: Place, lp: Loop)
    requires Drives(m)
    requires PreO(m, s, p, lp) && GO(s, p, lp).Gen?
    ensures PlacedOpt(m, s, p, After(p, GO(s, p, lp), p.h))
    decreases s, 3
  {
    if s.Some? { PlaceS(m, s.value, p, lp); }
  }

  lemma AssembleFor(m: Setup, s: Stmt, p: Place, p0: Place, p1: Place, p2: Place, p3: Place, q: Place)
    requires s.For? && PlacedFor(m, s, p, p0, p1, p2, p3, q)
    requires Same(p, q) && q.h == p.h && p.c.scopes != [] && q.c.scopes == p.c.scopes
    ensures PlacedS(m, s, p, q)
  {
  }

  /** The instructions between the pieces of a loop. */
  predicate ForGlue(m: Setup, s: Stmt, p: Place, x: ForPieces)
    requires s.For? && x.gi.Gen? && x.gc.Gen? && x.gb.Gen? && x.gp.Gen? && x.p0.tg.brk >= 3
  {
    var escape := x.p0.tg.brk;
    && Is(m, x.p0.pos + x.gc.size, Wide(OP_JUMP_NOT_TRUTHY, escape)) && Is(m, escape - 3, Wide(OP_JUMP, x.p0.pos))
    && Is(m, escape, Plain(OP_NULL)) && Is(m, escape + 1, Plain(OP_POP)) && Room(m, p.h)
  }

  lemma ForReady(m: Setup, s: Stmt, p: Place, lp: Loop, x: ForPieces)
    requires Drives(m) && PreS(m, s, p, lp) && s.For? && ForApart(s, p, lp, x)
    ensures PreO(m, s.first, p.(c := Push(p.c)), lp) && PreE(m, s.test, x.p0, Inner(s, x))
    ensures PreB(m, s.body, x.pb, Inner(s, x), false) && PreO(m, s.post, x.p2, Inner(s, x))
    ensures x.p0.tg.brk >= 3 && ForGlue(m, s, p, x)
  {
    hide GenE, GenStmts, GenS, GenIf, GenFor, GenBlock, JoinIf, JoinFor, Size, Fill, Encode, PlacedE, PlacedBlock,
      PlacedOpt, PlacedS, PlacedStmts;
    ForScopes(s, p, lp, x);
    ForFits(m, s, p, lp, x);
    ForParts(m, s, p, lp, x);
    ForCode(m, p, s.post.Some?, x.gi, x.gc, x.gb, x.gp);
  }

  /** The pieces, once placed, make up the loop. */
  lemma ForJoins(m: Setup, s: Stmt, p: Place, lp: Loop, x: ForPieces)
    requires s.For? && GS(s, p, lp).Gen? && ForApart(s, p, lp, x) && CtxOk(p.c) && p.c.scopes != [] && ShapedS(s)
    requires x.p0.tg.brk >= 3 && ForGlue(m, s, p, x)
    requires PlacedOpt(m, s.first, p.(c := Push(p.c)), After(p, x.gi, p.h))
    requires PlacedE(m, s.test, x.p0, After(x.p0, x.gc, p.h + 1))
    requires PlacedBlock(m, s.body, x.pb, After(x.pb, x.gb, p.h), false)
    requires PlacedOpt(m, s.post, x.p2, After(x.p2, x.gp, p.h))
    ensures PostS(m, s, p, lp)
  {
    hide GenE, GenStmts, GenIf, GenFor, GenBlock, JoinIf, Size, Fill, Encode, PlacedE, PlacedBlock;
    ForScopes(s, p, lp, x);
    KeepsS(s, p.c, p.pos, p.k, lp);
    var p0 := After(p, x.gi, p.h);
    var p1 := After(x.p0, x.gc, p.h + 1);
    var p2 := After(x.pb, x.gb, p.h);
    var p3 := After(x.p2, x.gp, p.h);
    assert PlacedLoop(m, s, x.p0, p1, p2, p3);
    AssembleFor(m, s, p, p0, p1, p2, p3, After(p, GS(s, p, lp), p.h));
  }

  lemma {:induction false} PlaceFor(m: Setup, s: Stmt, p: Place, lp: Loop)
    requires Drives(m) && PreS(m, s, p, lp) && s.For?
    ensures PostS(m, s, p, lp)
    decreases s, 1
  {
    var x := TakeForApart(s, p, lp);
    ForReady(m, s, p, lp, x);
    PlaceOpt(m, s.first, p.(c := Push(p.c)), lp);
    PlaceE(m, s.test, x.p0, Inner(s, x));
    PlaceBlock(m, s.body, x.pb, Inner(s, x), false);
    PlaceOpt(m, s.post, x.p2, Inner(s, x));
    ForJoins(m, s, p, lp, x);
  }
}
