/** The slots of variables: the declarations of a piece of code, in the order they are compiled
    and also in blocks that are closed again, get consecutive slots. No two share one. */
module Slots {
  import opened Language
  import opened Bytecode
  import opened Codegen
  import opened Scoping

  // ---------- the slot of every declaration ----------

  /** The slot a declaration got: that of the symbol it defined. */
  function SlotOf(s: Stmt, c: Ctx, pos: nat, k: nat, lp: Loop): nat
    requires s.VarDecl? && GenS(s, c, pos, k, lp).Gen?
  {
    var sc := GenS(s, c, pos, k, lp).ctx.scopes;
    match Resolve(sc, s.x) case Some(sym) => sym.index case None => 0
  }

  /** The slots of all declarations in `e`, in the order they are compiled. */
  function SlotsE(e: Expr, c: Ctx, pos: nat, k: nat, lp: Loop): seq<nat>
    decreases e, 1
  {
    match e
    case Prefix(_, r) => SlotsE(r, c, pos, k, lp)
    case Infix(op, l, r) =>
      if Swapped(op) then
        var g := GenE(r, c, pos, k, lp);
        if g.Bad? then [] else SlotsE(r, c, pos, k, lp) + SlotsE(l, g.ctx, pos + g.size, k + |g.consts|, lp)
      else
        var g := GenE(l, c, pos, k, lp);
        if g.Bad? then [] else SlotsE(l, c, pos, k, lp) + SlotsE(r, g.ctx, pos + g.size, k + |g.consts|, lp)
    case If(cond, a, b, unit) =>
      var g := GenE(cond, c, pos, k, lp);
      if g.Bad? then [] else
      var p1, k1 := pos + g.size + 3, k + |g.consts|;
      var ga := GenBlock(a, g.ctx, p1, k1, lp);
      if ga.Bad? then [] else
      SlotsE(cond, c, pos, k, lp) + (SlotsB(a, Push(g.ctx), p1, k1, lp)
        + match b
          case None => []
          case Some(blk) => SlotsB(blk, Push(ga.ctx), p1 + BranchSize(unit, ga) + 3, k1 + |ga.consts|, lp))
    case _ => []
  }

  function SlotsB(b: Block, c: Ctx, pos: nat, k: nat, lp: Loop): seq<nat>
    decreases b, 0
  {
    match b
    case Empty => []
    case Seq(h, t) =>
      var g := GenS(h, c, pos, k, lp);
      if g.Bad? then [] else SlotsS(h, c, pos, k, lp) + SlotsB(t, g.ctx, pos + g.size, k + |g.consts|, lp)
  }

  function SlotsO(s: Option<Stmt>, c: Ctx, pos: nat, k: nat, lp: Loop): seq<nat>
    decreases s, 2
  {
    match s case None => [] case Some(st) => SlotsS(st, c, pos, k, lp)
  }

  function SlotsS(s: Stmt, c: Ctx, pos: nat, k: nat, lp: Loop): seq<nat>
    decreases s, 1
  {
    match s
    case ExprStmt(e) => SlotsE(e, c, pos, k, lp)
    case VarDecl(_, _, _, i) =>
      (match i case None => [] case Some(e) => SlotsE(e, c, pos, k, lp))
        + if GenS(s, c, pos, k, lp).Gen? then [SlotOf(s, c, pos, k, lp)] else []
    case Assign(_, e) => SlotsE(e, c, pos, k, lp)
    case For(f, test, p, b) =>
      var gi := GenOpt(f, Push(c), pos, k, lp);
      if gi.Bad? then [] else
      var inner := InLoop(p.Some?, pos + gi.size);
      var gc := GenE(test, gi.ctx, pos + gi.size, k + |gi.consts|, inner);
      if gc.Bad? then [] else
      var p2, k2 := pos + gi.size + gc.size + 3, k + |gi.consts| + |gc.consts|;
      var gb := GenBlock(b, gc.ctx, p2, k2, inner);
      if gb.Bad? then [] else
      SlotsO(f, Push(c), pos, k, lp) + (SlotsE(test, gi.ctx, pos + gi.size, k + |gi.consts|, inner)
        + (SlotsB(b, Push(gc.ctx), p2, k2, inner) + SlotsO(p, gb.ctx, p2 + gb.size, k2 + |gb.consts|, inner)))
    case _ => []
  }

  /** The numbers from `a` up to but not including `b`. */
  function Run(a: nat, b: nat): (r: seq<nat>)
    ensures a <= b ==> |r| == b - a && forall i :: 0 <= i < |r| ==> r[i] == a + i
  {
    if a < b then seq(b - a, i requires 0 <= i < b - a => a + i) else []
  }

  /** Slots are given out one after the other, from the counter before to the counter after. */
  ghost predicate InOrder(slots: seq<nat>, c: Ctx, g: Gen)
  {
    g.Gen? ==> c.next <= g.ctx.next && slots == Run(c.next, g.ctx.next)
  }

  lemma RunJoin(a: nat, b: nat, c: nat)
    requires a <= b <= c
    ensures Run(a, b) + Run(b, c) == Run(a, c)
  {
  }

  lemma {:induction false} OrderE(e: Expr, c: Ctx, pos: nat, k: nat, lp: Loop)
    ensures InOrder(SlotsE(e, c, pos, k, lp), c, GenE(e, c, pos, k, lp))
    decreases e, 1
  {
    match e
    case Prefix(_, r) => OrderE(r, c, pos, k, lp);
    case Infix(op, l, r) => OrderInfix(e, c, pos, k, lp);
    case If(_, _, _, _) =>
      assert GenE(e, c, pos, k, lp) == GenIf(e, c, pos, k, lp);
      OrderIf(e, c, pos, k, lp);
    case _ =>
  }

  /** The operand compiled first and the one compiled second. */
  lemma InfixPieces(e: Expr, c: Ctx, pos: nat, k: nat, lp: Loop)
    returns (x: Expr, y: Expr, g: Gen, h: Gen, p1: nat, k1: nat)
    requires e.Infix? && GenE(e, c, pos, k, lp).Gen?
    ensures (x, y) == if Swapped(e.op) then (e.rhs, e.left) else (e.left, e.rhs)
    ensures g == GenE(x, c, pos, k, lp) && g.Gen? && p1 == pos + g.size && k1 == k + |g.consts|
      && h == GenE(y, g.ctx, p1, k1, lp) && h.Gen?
    ensures GenE(e, c, pos, k, lp) == Then(Join(g, h), InfixIns(e.op))
    ensures SlotsE(e, c, pos, k, lp) == SlotsE(x, c, pos, k, lp) + SlotsE(y, g.ctx, p1, k1, lp)
  {
    if Swapped(e.op) { x, y := e.rhs, e.left; } else { x, y := e.left, e.rhs; }
    g := InfixFirst(e, c, pos, k, lp, x, y);
    hide GenE, SlotsE;
    p1, k1 := pos + g.size, k + |g.consts|;
    h := GenE(y, g.ctx, p1, k1, lp);
    InfixSlots(e, c, pos, k, lp, x, y, g, p1, k1);
  }

  lemma InfixFirst(e: Expr, c: Ctx, pos: nat, k: nat, lp: Loop, x: Expr, y: Expr) returns (g: Gen)
    requires e.Infix? && GenE(e, c, pos, k, lp).Gen?
      && (x, y) == if Swapped(e.op) then (e.rhs, e.left) else (e.left, e.rhs)
    ensures g == GenE(x, c, pos, k, lp) && g.Gen?
    ensures var h := GenE(y, g.ctx, pos + g.size, k + |g.consts|, lp);
      h.Gen? && GenE(e, c, pos, k, lp) == Then(Join(g, h), InfixIns(e.op))
  {
    hide Resolve, GenIf;
    g := GenE(x, c, pos, k, lp);
    if Swapped(e.op) { assert x == e.rhs && y == e.left; } else { assert x == e.left && y == e.rhs; }
  }

  lemma InfixSlots(e: Expr, c: Ctx, pos: nat, k: nat, lp: Loop, x: Expr, y: Expr, g: Gen, p1: nat, k1: nat)
    requires e.Infix? && (x, y) == if Swapped(e.op) then (e.rhs, e.left) else (e.left, e.rhs)
    requires g == GenE(x, c, pos, k, lp) && g.Gen? && p1 == pos + g.size && k1 == k + |g.consts|
    ensures SlotsE(e, c, pos, k, lp) == SlotsE(x, c, pos, k, lp) + SlotsE(y, g.ctx, p1, k1, lp)
  {
    hide GenE, GenBlock, BranchSize, SlotsB;
    if Swapped(e.op) { assert x == e.rhs && y == e.left; } else { assert x == e.left && y == e.rhs; }
  }

  lemma {:induction false} OrderInfix(e: Expr, c: Ctx, pos: nat, k: nat, lp: Loop)
    requires e.Infix?
    ensures InOrder(SlotsE(e, c, pos, k, lp), c, GenE(e, c, pos, k, lp))
    decreases e, 0
  {
    if GenE(e, c, pos, k, lp).Bad? { return; }
    hide Run, GenE, SlotsE;
    var x, y, g, h, p1, k1 := InfixPieces(e, c, pos, k, lp);
    OrderE(x, c, pos, k, lp);
    OrderE(y, g.ctx, p1, k1, lp);
    RunJoin(c.next, g.ctx.next, h.ctx.next);
  }

  lemma IfPieces(e: Expr, c: Ctx, pos: nat, k: nat, lp: Loop)
    returns (g: Gen, ga: Gen, gb: Gen, p1: nat, k1: nat, p2: nat, k2: nat)
    requires e.If? && GenIf(e, c, pos, k, lp).Gen?
    ensures g == GenE(e.cond, c, pos, k, lp) && g.Gen? && p1 == pos + g.size + 3 && k1 == k + |g.consts|
    ensures ga == GenBlock(e.cons, g.ctx, p1, k1, lp) && ga.Gen? && p2 == p1 + BranchSize(e.unit, ga) + 3
      && k2 == k1 + |ga.consts|
    ensures gb == (match e.alt case None => Gen([Plain(OP_NULL)], 1, [], ga.ctx)
      case Some(b) => GenBlock(b, ga.ctx, p2, k2, lp)) && gb.Gen?
    ensures GenIf(e, c, pos, k, lp) == JoinIf(e.unit, e.alt.Some?, pos, g, ga, gb)
  {
    hide GenE, GenStmts, BranchCode, BranchSize;
    g := GenE(e.cond, c, pos, k, lp);
    p1, k1 := pos + g.size + 3, k + |g.consts|;
    ga := GenBlock(e.cons, g.ctx, p1, k1, lp);
    p2, k2 := p1 + BranchSize(e.unit, ga) + 3, k1 + |ga.consts|;
    gb := GenAlt(e.alt, ga.ctx, p2, k2, lp);
  }

  lemma IfSlots(e: Expr, c: Ctx, pos: nat, k: nat, lp: Loop, g: Gen, ga: Gen, p1: nat, k1: nat, p2: nat, k2: nat)
    requires e.If? && g == GenE(e.cond, c, pos, k, lp) && g.Gen? && p1 == pos + g.size + 3 && k1 == k + |g.consts|
    requires ga == GenBlock(e.cons, g.ctx, p1, k1, lp) && ga.Gen? && p2 == p1 + BranchSize(e.unit, ga) + 3
      && k2 == k1 + |ga.consts|
    ensures SlotsE(e, c, pos, k, lp) == SlotsE(e.cond, c, pos, k, lp) + (SlotsB(e.cons, Push(g.ctx), p1, k1, lp)
      + match e.alt case None => [] case Some(b) => SlotsB(b, Push(ga.ctx), p2, k2, lp))
  {
    hide GenE, GenBlock, BranchSize, SlotsB;
  }

  lemma {:induction false} OrderIf(e: Expr, c: Ctx, pos: nat, k: nat, lp: Loop)
    requires e.If?
    ensures InOrder(SlotsE(e, c, pos, k, lp), c, GenIf(e, c, pos, k, lp))
    decreases e, 0
  {
    if GenIf(e, c, pos, k, lp).Bad? { return; }
    hide GenIf, GenE, GenStmts, GenBlock, BranchSize, Run, SlotsE, SlotsB;
    var g, ga, gb, p1, k1, p2, k2 := IfPieces(e, c, pos, k, lp);
    IfSlots(e, c, pos, k, lp, g, ga, p1, k1, p2, k2);
    OrderE(e.cond, c, pos, k, lp);
    OrderBlock(e.cons, g.ctx, p1, k1, lp);
    if e.alt.Some? { OrderBlock(e.alt.value, ga.ctx, p2, k2, lp); } else { RunNone(ga.ctx.next); }
    RunJoin(ga.ctx.next, gb.ctx.next, gb.ctx.next);
    RunJoin(g.ctx.next, ga.ctx.next, gb.ctx.next);
    RunJoin(c.next, g.ctx.next, gb.ctx.next);
  }

  lemma RunNone(a: nat)
    ensures Run(a, a) == []
  {
  }

  lemma {:induction false} OrderBlock(b: Block, c: Ctx, pos: nat, k: nat, lp: Loop)
    ensures InOrder(SlotsB(b, Push(c), pos, k, lp), c, GenBlock(b, c, pos, k, lp))
    decreases b, 1
  {
    OrderB(b, Push(c), pos, k, lp);
  }

  lemma {:induction false} OrderB(b: Block, c: Ctx, pos: nat, k: nat, lp: Loop)
    ensures InOrder(SlotsB(b, c, pos, k, lp), c, GenStmts(b, c, pos, k, lp))
    decreases b, 0
  {
    hide Run;
    if b.Empty? {
      RunNone(c.next);
    } else {
      OrderS(b.head, c, pos, k, lp);
      var g := GenS(b.head, c, pos, k, lp);
      if g.Gen? {
        OrderB(b.tail, g.ctx, pos + g.size, k + |g.consts|, lp);
        var g' := GenStmts(b.tail, g.ctx, pos + g.size, k + |g.consts|, lp);
        if g'.Gen? { RunJoin(c.next, g.ctx.next, g'.ctx.next); }
      }
    }
  }

  lemma {:induction false} OrderO(s: Option<Stmt>, c: Ctx, pos: nat, k: nat, lp: Loop)
    ensures InOrder(SlotsO(s, c, pos, k, lp), c, GenOpt(s, c, pos, k, lp))
    decreases s, 2
  {
    if s.Some? { OrderS(s.value, c, pos, k, lp); } else { RunNone(c.next); }
  }

  lemma {:induction false} OrderS(s: Stmt, c: Ctx, pos: nat, k: nat, lp: Loop)
    ensures InOrder(SlotsS(s, c, pos, k, lp), c, GenS(s, c, pos, k, lp))
    decreases s, 1
  {
    match s
    case ExprStmt(e) => OrderE(e, c, pos, k, lp);
    case VarDecl(_, _, _, _) => OrderDecl(s, c, pos, k, lp);
    case Assign(_, e) => OrderE(e, c, pos, k, lp);
    case For(_, _, _, _) =>
      assert GenS(s, c, pos, k, lp) == GenFor(s, c, pos, k, lp);
      OrderFor(s, c, pos, k, lp);
    case _ => RunNone(c.next);
  }

  lemma {:induction false} OrderDecl(s: Stmt, c: Ctx, pos: nat, k: nat, lp: Loop)
    requires s.VarDecl?
    ensures InOrder(SlotsS(s, c, pos, k, lp), c, GenS(s, c, pos, k, lp))
    decreases s, 0
  {
    if GenS(s, c, pos, k, lp).Bad? { return; }
    var g := GenInit(s.init, s.ty, c, pos, k, lp);
    if s.init.Some? { OrderE(s.init.value, c, pos, k, lp); } else { RunNone(c.next); }
    assert SlotOf(s, c, pos, k, lp) == g.ctx.next;
    assert Run(g.ctx.next, g.ctx.next + 1) == [g.ctx.next];
    RunJoin(c.next, g.ctx.next, g.ctx.next + 1);
  }

  /** Positions and constant counts after the initialisation, the condition and the body. */
  datatype Marks = Marks(p1: nat, k1: nat, p2: nat, k2: nat, p3: nat, k3: nat, inner: Loop)

  predicate Marked(s: Stmt, pos: nat, k: nat, gi: Gen, gc: Gen, gb: Gen, m: Marks)
  {
    && s.For? && gi.Gen? && gc.Gen? && gb.Gen? && m.inner == InLoop(s.post.Some?, m.p1)
    && m.p1 == pos + gi.size && m.k1 == k + |gi.consts| && m.p2 == m.p1 + gc.size + 3 && m.k2 == m.k1 + |gc.consts|
    && m.p3 == m.p2 + gb.size && m.k3 == m.k2 + |gb.consts|
  }

  lemma Pieces(s: Stmt, c: Ctx, pos: nat, k: nat, lp: Loop) returns (gi: Gen, gc: Gen, gb: Gen, gp: Gen, m: Marks)
    requires s.For? && GenFor(s, c, pos, k, lp).Gen?
    ensures Marked(s, pos, k, gi, gc, gb, m) && gi == GenOpt(s.first, Push(c), pos, k, lp)
      && gc == GenE(s.test, gi.ctx, m.p1, m.k1, m.inner)
    ensures gb == GenBlock(s.body, gc.ctx, m.p2, m.k2, m.inner) && gp == GenOpt(s.post, gb.ctx, m.p3, m.k3, m.inner)
    ensures gp.Gen? && gp.ctx.scopes != [] && GenFor(s, c, pos, k, lp) == JoinFor(pos, s.post.Some?, gi, gc, gb, gp)
    ensures GenFor(s, c, pos, k, lp).ctx == PopScope(gp.ctx)
  {
    hide GenE, GenStmts, GenS, Fill;
    gi := GenOpt(s.first, Push(c), pos, k, lp);
    var p1, k1 := pos + gi.size, k + |gi.consts|;
    gc := GenE(s.test, gi.ctx, p1, k1, InLoop(s.post.Some?, p1));
    var p2, k2 := p1 + gc.size + 3, k1 + |gc.consts|;
    gb := GenBlock(s.body, gc.ctx, p2, k2, InLoop(s.post.Some?, p1));
    m := Marks(p1, k1, p2, k2, p2 + gb.size, k2 + |gb.consts|, InLoop(s.post.Some?, p1));
    gp := GenOpt(s.post, gb.ctx, m.p3, m.k3, m.inner);
  }

  lemma ForSlots(s: Stmt, c: Ctx, pos: nat, k: nat, lp: Loop, gi: Gen, gc: Gen, gb: Gen, m: Marks)
    requires Marked(s, pos, k, gi, gc, gb, m) && gi == GenOpt(s.first, Push(c), pos, k, lp)
      && gc == GenE(s.test, gi.ctx, m.p1, m.k1, m.inner)
    requires gb == GenBlock(s.body, gc.ctx, m.p2, m.k2, m.inner)
    ensures SlotsS(s, c, pos, k, lp) == SlotsO(s.first, Push(c), pos, k, lp)
      + (SlotsE(s.test, gi.ctx, m.p1, m.k1, m.inner)
      + (SlotsB(s.body, Push(gc.ctx), m.p2, m.k2, m.inner) + SlotsO(s.post, gb.ctx, m.p3, m.k3, m.inner)))
  {
    hide GenE, GenBlock, GenOpt, SlotsB, SlotsE, SlotsO;
  }

  lemma {:induction false} OrderFor(s: Stmt, c: Ctx, pos: nat, k: nat, lp: Loop)
    requires s.For?
    ensures InOrder(SlotsS(s, c, pos, k, lp), c, GenFor(s, c, pos, k, lp))
    decreases s, 0
  {
    if GenFor(s, c, pos, k, lp).Bad? { return; }
    hide GenFor, GenE, GenStmts, GenS, GenBlock, GenOpt, JoinFor, Run, SlotsS, SlotsB, SlotsE, SlotsO, Marked;
    var gi, gc, gb, gp, m := Pieces(s, c, pos, k, lp);
    ForSlots(s, c, pos, k, lp, gi, gc, gb, m);
    AllGen(s, pos, k, gi, gc, gb, m);
    OrderO(s.first, Push(c), pos, k, lp);
    OrderE(s.test, gi.ctx, m.p1, m.k1, m.inner);
    OrderBlock(s.body, gc.ctx, m.p2, m.k2, m.inner);
    OrderO(s.post, gb.ctx, m.p3, m.k3, m.inner);
    RunJoin(gc.ctx.next, gb.ctx.next, gp.ctx.next);
    RunJoin(gi.ctx.next, gc.ctx.next, gp.ctx.next);
    RunJoin(c.next, gi.ctx.next, gp.ctx.next);
  }

  lemma AllGen(s: Stmt, pos: nat, k: nat, gi: Gen, gc: Gen, gb: Gen, m: Marks)
    requires Marked(s, pos, k, gi, gc, gb, m)
    ensures gi.Gen? && gc.Gen? && gb.Gen?
  {
  }

  /** All declarations of a program, wherever they are nested and whether or not their block is
      still open: their slots are 0, 1, 2, ... up to the final count, so no two share one and all
      lie below the count. */
  lemma SlotsDistinct(b: Block, c: Ctx, pos: nat, k: nat, lp: Loop)
    requires GenStmts(b, c, pos, k, lp).Gen?
    ensures var slots, final := SlotsB(b, c, pos, k, lp), GenStmts(b, c, pos, k, lp).ctx.next;
      && |slots| == final - c.next
      && (forall i :: 0 <= i < |slots| ==> slots[i] == c.next + i)
      && (forall i, j :: 0 <= i < j < |slots| ==> slots[i] != slots[j])
      && (forall i :: 0 <= i < |slots| ==> slots[i] < final)
  {
    OrderB(b, c, pos, k, lp);
  }

  // ---------- how many there are ----------

  /** Declarations in a construct. */
  function DeclsE(e: Expr): nat
  {
    match e
    case Prefix(_, r) => DeclsE(r)
    case Infix(_, l, r) => DeclsE(l) + DeclsE(r)
    case If(c, a, b, _) => DeclsE(c) + DeclsB(a) + (match b case None => 0 case Some(blk) => DeclsB(blk))
    case _ => 0
  }

  function DeclsB(b: Block): nat { match b case Empty => 0 case Seq(h, t) => DeclsS(h) + DeclsB(t) }

  function DeclsO(s: Option<Stmt>): nat { match s case None => 0 case Some(st) => DeclsS(st) }

  function DeclsS(s: Stmt): nat
  {
    match s
    case ExprStmt(e) => DeclsE(e)
    case VarDecl(_, _, _, i) => 1 + (match i case None => 0 case Some(e) => DeclsE(e))
    case Assign(_, e) => DeclsE(e)
    case For(f, c, p, b) => DeclsO(f) + DeclsE(c) + DeclsB(b) + DeclsO(p)
    case _ => 0
  }

  /** The slot counter grows by exactly the number of declarations. */
  lemma {:induction false} CountE(e: Expr, c: Ctx, pos: nat, k: nat, lp: Loop)
    ensures var g := GenE(e, c, pos, k, lp); g.Gen? ==> g.ctx.next == c.next + DeclsE(e)
    decreases e, 1
  {
    match e
    case Prefix(_, r) => CountE(r, c, pos, k, lp);
    case Infix(_, _, _) => CountInfix(e, c, pos, k, lp);
    case If(_, _, _, _) =>
      assert GenE(e, c, pos, k, lp) == GenIf(e, c, pos, k, lp);
      CountIf(e, c, pos, k, lp);
    case _ =>
  }

  lemma {:induction false} CountInfix(e: Expr, c: Ctx, pos: nat, k: nat, lp: Loop)
    requires e.Infix?
    ensures var g := GenE(e, c, pos, k, lp); g.Gen? ==> g.ctx.next == c.next + DeclsE(e)
    decreases e, 0
  {
    if GenE(e, c, pos, k, lp).Bad? { return; }
    hide GenE, SlotsE;
    var x, y, g, h, p1, k1 := InfixPieces(e, c, pos, k, lp);
    CountE(x, c, pos, k, lp);
    CountE(y, g.ctx, p1, k1, lp);
  }

  lemma {:induction false} CountIf(e: Expr, c: Ctx, pos: nat, k: nat, lp: Loop)
    requires e.If?
    ensures var g := GenIf(e, c, pos, k, lp); g.Gen? ==> g.ctx.next == c.next + DeclsE(e)
    decreases e, 0
  {
    if GenIf(e, c, pos, k, lp).Bad? { return; }
    hide GenIf, GenE, GenStmts, BranchSize;
    var g, ga, gb, p1, k1, p2, k2 := IfPieces(e, c, pos, k, lp);
    CountE(e.cond, c, pos, k, lp);
    CountBlock(e.cons, g.ctx, p1, k1, lp);
    if e.alt.Some? { CountBlock(e.alt.value, ga.ctx, p2, k2, lp); }
  }

  lemma {:induction false} CountB(b: Block, c: Ctx, pos: nat, k: nat, lp: Loop)
    ensures var g := GenStmts(b, c, pos, k, lp); g.Gen? ==> g.ctx.next == c.next + DeclsB(b)
    decreases b, 0
  {
    if b.Seq? {
      CountS(b.head, c, pos, k, lp);
      var g := GenS(b.head, c, pos, k, lp);
      if g.Gen? { CountB(b.tail, g.ctx, pos + g.size, k + |g.consts|, lp); }
    }
  }

  lemma {:induction false} CountO(s: Option<Stmt>, c: Ctx, pos: nat, k: nat, lp: Loop)
    ensures var g := GenOpt(s, c, pos, k, lp); g.Gen? ==> g.ctx.next == c.next + DeclsO(s)
    decreases s, 2
  {
    if s.Some? { CountS(s.value, c, pos, k, lp); }
  }

  lemma {:induction false} CountS(s: Stmt, c: Ctx, pos: nat, k: nat, lp: Loop)
    ensures var g := GenS(s, c, pos, k, lp); g.Gen? ==> g.ctx.next == c.next + DeclsS(s)
    decreases s, 1
  {
    match s
    case ExprStmt(e) => CountE(e, c, pos, k, lp);
    case VarDecl(_, _, _, i) => if i.Some? { CountE(i.value, c, pos, k, lp); }
    case Assign(_, e) => CountE(e, c, pos, k, lp);
    case For(_, _, _, _) =>
      assert GenS(s, c, pos, k, lp) == GenFor(s, c, pos, k, lp);
      CountFor(s, c, pos, k, lp);
    case _ =>
  }

  lemma {:induction false} CountFor(s: Stmt, c: Ctx, pos: nat, k: nat, lp: Loop)
    requires s.For?
    ensures var g := GenFor(s, c, pos, k, lp); g.Gen? ==> g.ctx.next == c.next + DeclsS(s)
    decreases s, 0
  {
    if GenFor(s, c, pos, k, lp).Bad? { return; }
    hide GenFor, GenE, GenStmts, GenS, GenBlock, GenOpt, JoinFor, Marked;
    var gi, gc, gb, gp, m := Pieces(s, c, pos, k, lp);
    AllGen(s, pos, k, gi, gc, gb, m);
    CountO(s.first, Push(c), pos, k, lp);
    CountE(s.test, gi.ctx, m.p1, m.k1, m.inner);
    CountBlock(s.body, gc.ctx, m.p2, m.k2, m.inner);
    CountO(s.post, gb.ctx, m.p3, m.k3, m.inner);
  }

  lemma {:induction false} CountBlock(b: Block, c: Ctx, pos: nat, k: nat, lp: Loop)
    ensures var g := GenBlock(b, c, pos, k, lp); g.Gen? ==> g.ctx.next == c.next + DeclsB(b)
    decreases b, 1
  {
    CountB(b, Push(c), pos, k, lp);
  }
}
