/** Slots given to variables by the compiler, and how they hold the source-level store. */
module Scoping {
  import opened Language
  import opened Typing
  import opened Bytecode
  import opened Codegen

  ghost predicate Below(sc: Scopes, n: nat)
  {
    forall i, x :: 0 <= i < |sc| && x in sc[i] ==> sc[i][x].index < n
  }

  ghost predicate Apart(sc: Scopes, i: nat, x: string, j: nat, y: string)
    requires i < |sc| && j < |sc| && x in sc[i] && y in sc[j]
  {
    sc[i][x].index == sc[j][y].index ==> i == j && x == y
  }

  ghost predicate Distinct(sc: Scopes)
  {
    forall i, j, x, y | 0 <= i < |sc| && 0 <= j < |sc| && x in sc[i] && y in sc[j] :: Apart(sc, i, x, j, y)
  }

  /** Slots of visible variables lie below `next`, and no two variables share one. */
  ghost predicate CtxOk(c: Ctx) { Below(c.scopes, c.next) && Distinct(c.scopes) }

  ghost predicate RelScope(a: map<string, Symbol>, b: map<string, Value>, slots: seq<Value>)
  {
    a.Keys == b.Keys && forall x :: x in a ==> a[x].index < |slots| && slots[a[x].index] == b[x]
  }

  /** Every visible variable's slot holds its value in the store. */
  ghost predicate Rel(sc: Scopes, s: Store, slots: seq<Value>)
  {
    |sc| == |s| && forall i :: 0 <= i < |sc| ==> RelScope(sc[i], s[i], slots)
  }

  lemma {:induction false} RelLookup(sc: Scopes, s: Store, slots: seq<Value>, x: string)
    requires Rel(sc, s, slots) && Resolve(sc, x).Some?
    ensures Resolve(sc, x).value.index < |slots|
    ensures Lookup(s, x) == Some(slots[Resolve(sc, x).value.index])
  {
    assert RelScope(sc[0], s[0], slots);
    if x !in sc[0] { RelLookup(sc[1..], s[1..], slots, x); }
  }

  /** Where a resolved name was found. */
  lemma {:induction false} Found(sc: Scopes, x: string) returns (i: nat)
    requires Resolve(sc, x).Some?
    ensures i < |sc| && x in sc[i] && sc[i][x] == Resolve(sc, x).value
    ensures forall j :: 0 <= j < i ==> x !in sc[j]
  {
    if x in sc[0] { i := 0; }
    else { var k := Found(sc[1..], x); i := k + 1; }
  }

  lemma {:induction false} UpdateAt(s: Store, x: string, v: Value, i: nat)
    requires i < |s| && x in s[i] && forall j :: 0 <= j < i ==> x !in s[j]
    ensures Update(s, x, v) == s[i := s[i][x := v]]
  {
    if i > 0 { UpdateAt(s[1..], x, v, i - 1); }
  }

  lemma RelAssign(c: Ctx, s: Store, slots: seq<Value>, x: string, v: Value)
    requires CtxOk(c) && Rel(c.scopes, s, slots) && Resolve(c.scopes, x).Some?
    ensures Resolve(c.scopes, x).value.index < |slots|
    ensures Rel(c.scopes, Update(s, x, v), slots[Resolve(c.scopes, x).value.index := v])
  {
    var i := Found(c.scopes, x);
    forall j | 0 <= j < |s| ensures c.scopes[j].Keys == s[j].Keys {
      assert RelScope(c.scopes[j], s[j], slots);
    }
    UpdateAt(s, x, v, i);
    var idx := c.scopes[i][x].index;
    assert RelScope(c.scopes[i], s[i], slots);
    forall j | 0 <= j < |s| ensures RelScope(c.scopes[j], Update(s, x, v)[j], slots[idx := v]) {
      assert RelScope(c.scopes[j], s[j], slots);
      forall y | y in c.scopes[j]
        ensures c.scopes[j][y].index == idx ==> j == i && y == x
      {
        assert Apart(c.scopes, i, x, j, y);
      }
    }
  }

  lemma RelDeclare(c: Ctx, s: Store, slots: seq<Value>, x: string, v: Value, constant: bool)
    requires Below(c.scopes, c.next) && c.scopes != [] && Rel(c.scopes, s, slots) && c.next < |slots|
    ensures Rel(Define(c, x, constant).scopes, Declare(s, x, v), slots[c.next := v])
  {
    var sc := Define(c, x, constant).scopes;
    forall j | 0 <= j < |sc| ensures RelScope(sc[j], Declare(s, x, v)[j], slots[c.next := v]) {
      assert RelScope(c.scopes[j], s[j], slots);
    }
  }

  lemma RelPush(sc: Scopes, s: Store, slots: seq<Value>)
    requires Rel(sc, s, slots)
    ensures Rel([map[]] + sc, [map[]] + s, slots)
  {
  }

  lemma RelTail(sc: Scopes, s: Store, slots: seq<Value>)
    requires Rel(sc, s, slots) && sc != []
    ensures Rel(sc[1..], s[1..], slots)
  {
  }

  // ---------- compiling keeps the scopes and only adds slots ----------

  /** An expression or block leaves the open scopes as they were. */
  predicate Keeps(c: Ctx, g: Gen)
  {
    g.Gen? ==> g.ctx.scopes == c.scopes && g.ctx.next >= c.next && g.ctx.global == c.global
  }

  /** A statement may add to the innermost scope only. */
  predicate KeepsOuter(c: Ctx, g: Gen)
  {
    g.Gen? ==>
      && c.scopes != [] && g.ctx.scopes != [] && g.ctx.scopes[1..] == c.scopes[1..]
      && g.ctx.next >= c.next && g.ctx.global == c.global
  }

  lemma {:induction false} KeepsE(e: Expr, c: Ctx, pos: nat, k: nat, lp: Loop)
    ensures Keeps(c, GenE(e, c, pos, k, lp))
    decreases e, 1
  {
    match e
    case IntLit(_) =>
    case BoolLit(_) =>
    case Ident(_) =>
    case Prefix(_, r) => KeepsE(r, c, pos, k, lp);
    case Infix(op, l, r) =>
      var (fst, snd) := if Swapped(op) then (r, l) else (l, r);
      KeepsE(fst, c, pos, k, lp);
      var g := GenE(fst, c, pos, k, lp);
      if g.Gen? { KeepsE(snd, g.ctx, pos + g.size, k + |g.consts|, lp); }
    case If(_, _, _, _) => KeepsIf(e, c, pos, k, lp);
  }

  lemma {:induction false} KeepsIf(e: Expr, c: Ctx, pos: nat, k: nat, lp: Loop)
    requires e.If?
    ensures Keeps(c, GenIf(e, c, pos, k, lp))
    decreases e, 0
  {
    KeepsE(e.cond, c, pos, k, lp);
    var g := GenE(e.cond, c, pos, k, lp);
    if g.Bad? { return; }
    var p1 := pos + g.size + 3;
    KeepsBlock(e.cons, g.ctx, p1, k + |g.consts|, lp);
    var ga := GenBlock(e.cons, g.ctx, p1, k + |g.consts|, lp);
    if ga.Gen? && e.alt.Some? {
      KeepsBlock(e.alt.value, ga.ctx, p1 + BranchSize(e.unit, ga) + 3, k + |g.consts| + |ga.consts|, lp);
    }
  }

  lemma {:induction false} KeepsBlock(b: Block, c: Ctx, pos: nat, k: nat, lp: Loop)
    ensures Keeps(c, GenBlock(b, c, pos, k, lp))
    decreases b, 1
  {
    KeepsStmts(b, Push(c), pos, k, lp);
    assert Push(c).scopes[1..] == c.scopes;
  }

  lemma {:induction false} KeepsStmts(b: Block, c: Ctx, pos: nat, k: nat, lp: Loop)
    requires c.scopes != []
    ensures KeepsOuter(c, GenStmts(b, c, pos, k, lp))
    decreases b, 0
  {
    match b
    case Empty =>
    case Seq(h, t) =>
      KeepsS(h, c, pos, k, lp);
      var g := GenS(h, c, pos, k, lp);
      if g.Gen? { KeepsStmts(t, g.ctx, pos + g.size, k + |g.consts|, lp); }
  }

  lemma {:induction false} KeepsOpt(s: Option<Stmt>, c: Ctx, pos: nat, k: nat, lp: Loop)
    requires c.scopes != []
    ensures KeepsOuter(c, GenOpt(s, c, pos, k, lp))
    decreases s, 2
  {
    if s.Some? { KeepsS(s.value, c, pos, k, lp); }
  }

  lemma {:induction false} KeepsS(s: Stmt, c: Ctx, pos: nat, k: nat, lp: Loop)
    requires c.scopes != []
    ensures KeepsOuter(c, GenS(s, c, pos, k, lp))
    ensures s.For? || s.ExprStmt? || s.Assign? ==> Keeps(c, GenS(s, c, pos, k, lp))
    decreases s, 1
  {
    match s
    case ExprStmt(e) => KeepsE(e, c, pos, k, lp);
    case VarDecl(_, _, _, init) => if init.Some? { KeepsE(init.value, c, pos, k, lp); }
    case Assign(_, e) => KeepsE(e, c, pos, k, lp);
    case For(_, _, _, _) => KeepsFor(s, c, pos, k, lp);
    case Break =>
    case Continue =>
  }

  lemma {:induction false} KeepsFor(s: Stmt, c: Ctx, pos: nat, k: nat, lp: Loop)
    requires s.For?
    ensures Keeps(c, GenFor(s, c, pos, k, lp))
    decreases s, 0
  {
    assert Push(c).scopes[1..] == c.scopes;
    KeepsOpt(s.first, Push(c), pos, k, lp);
    var gi := GenOpt(s.first, Push(c), pos, k, lp);
    if gi.Bad? { return; }
    var condPos := pos + gi.size;
    var inner := InLoop(s.post.Some?, condPos);
    KeepsE(s.test, gi.ctx, condPos, k + |gi.consts|, inner);
    var gc := GenE(s.test, gi.ctx, condPos, k + |gi.consts|, inner);
    if gc.Bad? { return; }
    var bodyPos := condPos + gc.size + 3;
    var kb := k + |gi.consts| + |gc.consts|;
    KeepsBlock(s.body, gc.ctx, bodyPos, kb, inner);
    var gb := GenBlock(s.body, gc.ctx, bodyPos, kb, inner);
    if gb.Bad? { return; }
    KeepsOpt(s.post, gb.ctx, bodyPos + gb.size, kb + |gb.consts|, inner);
  }

  // ---------- slots stay distinct ----------

  lemma CtxPush(c: Ctx)
    requires CtxOk(c)
    ensures CtxOk(Push(c))
  {
    var sc := Push(c).scopes;
    forall i, j, x, y | 0 <= i < |sc| && 0 <= j < |sc| && x in sc[i] && y in sc[j]
      ensures Apart(sc, i, x, j, y)
    {
      assert Apart(c.scopes, i - 1, x, j - 1, y);
    }
  }

  lemma CtxDefine(c: Ctx, x: string, constant: bool)
    requires CtxOk(c) && c.scopes != []
    ensures CtxOk(Define(c, x, constant))
  {
    var sc := Define(c, x, constant).scopes;
    forall i, j, y, z | 0 <= i < |sc| && 0 <= j < |sc| && y in sc[i] && z in sc[j]
      ensures Apart(sc, i, y, j, z)
    {
      if (i == 0 && y == x) || (j == 0 && z == x) {
      } else {
        assert Apart(c.scopes, i, y, j, z);
      }
    }
  }

  /** More slots handed out, same visible variables. */
  lemma CtxGrow(c: Ctx, g: Gen)
    requires CtxOk(c) && Keeps(c, g)
    ensures g.Gen? ==> CtxOk(g.ctx)
  {
  }

  /** After a statement the visible variables still have slots of their own, below the count. */
  lemma VisibleApart(s: Stmt, c: Ctx, pos: nat, k: nat, lp: Loop)
    requires CtxOk(c) && c.scopes != []
    ensures var g := GenS(s, c, pos, k, lp); g.Gen? ==> CtxOk(g.ctx)
  {
    if s.VarDecl? {
      if s.init.Some? { KeepsE(s.init.value, c, pos, k, lp); }
      var g := match s.init case None => ZeroGen(s.ty, c, k) case Some(e) => GenE(e, c, pos, k, lp);
      CtxGrow(c, g);
      if g.Gen? { CtxDefine(g.ctx, s.x, s.constant); }
    } else if s.For? || s.ExprStmt? || s.Assign? {
      KeepsS(s, c, pos, k, lp);
      CtxGrow(c, GenS(s, c, pos, k, lp));
    }
  }

  // ---------- recorded sizes are the sizes of the code ----------

  predicate Sized(g: Gen) { g.Gen? ==> g.size == Size(g.code) }

  lemma SizedThen(g: Gen, i: Ins)
    requires Sized(g)
    ensures Sized(Then(g, i))
  {
    if g.Gen? { SizeAppend(g.code, [i]); }
  }

  lemma SizedJoin(a: Gen, b: Gen)
    requires Sized(a) && Sized(b)
    ensures Sized(Join(a, b))
  {
    if a.Gen? && b.Gen? { SizeAppend(a.code, b.code); }
  }

  lemma SizedBranch(unit: bool, g: Gen)
    requires g.Gen? && Sized(g)
    ensures Size(BranchCode(unit, g.code)) == BranchSize(unit, g)
  {
    if unit { SizeAppend(g.code, [Plain(OP_NULL)]); }
    else if g.code != [] && g.code[|g.code| - 1] == Plain(OP_POP) {
      assert g.code == g.code[..|g.code| - 1] + [Plain(OP_POP)];
      SizeAppend(g.code[..|g.code| - 1], [Plain(OP_POP)]);
    }
  }

  lemma SizedIf(unit: bool, hasAlt: bool, pos: nat, g: Gen, ga: Gen, gb: Gen)
    requires Sized(g) && Sized(ga) && Sized(gb)
    ensures Sized(JoinIf(unit, hasAlt, pos, g, ga, gb))
  {
    if g.Bad? || ga.Bad? || gb.Bad? { return; }
    SizedBranch(unit, ga);
    SizedBranch(unit, gb);
    var codeB := if hasAlt then BranchCode(unit, gb.code) else gb.code;
    var sizeB := if hasAlt then BranchSize(unit, gb) else gb.size;
    var p2 := pos + g.size + 3 + BranchSize(unit, ga) + 3;
    var t1 := [Wide(OP_JUMP, p2 + sizeB)];
    var a := BranchCode(unit, ga.code);
    SizeAppend(t1, codeB);
    SizeAppend(a, t1 + codeB);
    var t2 := [Wide(OP_JUMP_NOT_TRUTHY, p2)];
    SizeAppend(t2, a + (t1 + codeB));
    SizeAppend(g.code, t2 + (a + (t1 + codeB)));
    assert Size(t1) == 3 && Size(t2) == 3;
  }

  lemma Size1(i: Ins)
    ensures Size([i]) == SizeOf(i)
  {
    assert [i][1..] == [];
  }

  lemma SizeTail(condPos: nat)
    ensures Size([Wide(OP_JUMP, condPos), Plain(OP_NULL), Plain(OP_POP)]) == 5
  {
    var (a, b, c) := ([Wide(OP_JUMP, condPos)], [Plain(OP_NULL)], [Plain(OP_POP)]);
    Size1(a[0]); Size1(b[0]); Size1(c[0]);
    SizeAppend(b, c);
    SizeAppend(a, b + c);
    assert a + (b + c) == [a[0], b[0], c[0]];
  }

  lemma SizedFor(pos: nat, hasPost: bool, gi: Gen, gc: Gen, gb: Gen, gp: Gen)
    requires Sized(gi) && Sized(gc) && Sized(gb) && Sized(gp)
    ensures Sized(JoinFor(pos, hasPost, gi, gc, gb, gp))
  {
    if gi.Bad? || gc.Bad? || gb.Bad? || gp.Bad? || gp.ctx.scopes == [] { return; }
    var condPos := pos + gi.size;
    var postPos := condPos + gc.size + 3 + gb.size;
    var escape := postPos + gp.size + 3;
    var cont := if hasPost then postPos else condPos;
    var tail := [Wide(OP_JUMP, condPos), Plain(OP_NULL), Plain(OP_POP)];
    var (fc, fb, fp) := (Fill(gc.code, escape, cont), Fill(gb.code, escape, cont), Fill(gp.code, escape, PLACEHOLDER));
    FillSize(gc.code, escape, cont);
    FillSize(gb.code, escape, cont);
    FillSize(gp.code, escape, PLACEHOLDER);
    SizeTail(condPos);
    SizeAppend(fp, tail);
    SizeAppend(fb, fp + tail);
    var j := [Wide(OP_JUMP_NOT_TRUTHY, escape)];
    assert Size(j) == 3;
    SizeAppend(j, fb + (fp + tail));
    SizeAppend(fc, j + (fb + (fp + tail)));
    SizeAppend(gi.code, fc + (j + (fb + (fp + tail))));
  }

  lemma {:induction false} SizedE(e: Expr, c: Ctx, pos: nat, k: nat, lp: Loop)
    ensures Sized(GenE(e, c, pos, k, lp))
    decreases e, 1
  {
    match e
    case IntLit(_) =>
    case BoolLit(_) =>
    case Ident(_) =>
    case Prefix(op, r) =>
      SizedE(r, c, pos, k, lp);
      SizedThen(GenE(r, c, pos, k, lp), PrefixIns(op));
    case Infix(op, l, r) =>
      var (fst, snd) := if Swapped(op) then (r, l) else (l, r);
      SizedE(fst, c, pos, k, lp);
      var g := GenE(fst, c, pos, k, lp);
      if g.Gen? {
        SizedE(snd, g.ctx, pos + g.size, k + |g.consts|, lp);
        var g2 := GenE(snd, g.ctx, pos + g.size, k + |g.consts|, lp);
        SizedJoin(g, g2);
        SizedThen(Join(g, g2), InfixIns(op));
      }
    case If(_, _, _, _) => SizedIfE(e, c, pos, k, lp);
  }

  lemma {:induction false} SizedIfE(e: Expr, c: Ctx, pos: nat, k: nat, lp: Loop)
    requires e.If?
    ensures Sized(GenIf(e, c, pos, k, lp))
    decreases e, 0
  {
    SizedE(e.cond, c, pos, k, lp);
    var g := GenE(e.cond, c, pos, k, lp);
    if g.Bad? { return; }
    var p1 := pos + g.size + 3;
    SizedBlock(e.cons, g.ctx, p1, k + |g.consts|, lp);
    var ga := GenBlock(e.cons, g.ctx, p1, k + |g.consts|, lp);
    if ga.Bad? { return; }
    var p2, k2 := p1 + BranchSize(e.unit, ga) + 3, k + |g.consts| + |ga.consts|;
    if e.alt.Some? { SizedBlock(e.alt.value, ga.ctx, p2, k2, lp); }
    SizedIf(e.unit, e.alt.Some?, pos, g, ga, GenAlt(e.alt, ga.ctx, p2, k2, lp));
  }

  lemma {:induction false} SizedBlock(b: Block, c: Ctx, pos: nat, k: nat, lp: Loop)
    ensures Sized(GenBlock(b, c, pos, k, lp))
    decreases b, 1
  {
    SizedStmts(b, Push(c), pos, k, lp);
  }

  lemma {:induction false} SizedStmts(b: Block, c: Ctx, pos: nat, k: nat, lp: Loop)
    ensures Sized(GenStmts(b, c, pos, k, lp))
    decreases b, 0
  {
    if b.Seq? {
      SizedS(b.head, c, pos, k, lp);
      var g := GenS(b.head, c, pos, k, lp);
      if g.Gen? {
        SizedStmts(b.tail, g.ctx, pos + g.size, k + |g.consts|, lp);
        SizedJoin(g, GenStmts(b.tail, g.ctx, pos + g.size, k + |g.consts|, lp));
      }
    }
  }

  lemma {:induction false} SizedOpt(s: Option<Stmt>, c: Ctx, pos: nat, k: nat, lp: Loop)
    ensures Sized(GenOpt(s, c, pos, k, lp))
    decreases s, 2
  {
    if s.Some? { SizedS(s.value, c, pos, k, lp); }
  }

  lemma {:induction false} SizedS(s: Stmt, c: Ctx, pos: nat, k: nat, lp: Loop)
    ensures Sized(GenS(s, c, pos, k, lp))
    decreases s, 1
  {
    match s
    case ExprStmt(e) =>
      SizedE(e, c, pos, k, lp);
      SizedThen(GenE(e, c, pos, k, lp), Plain(OP_POP));
    case VarDecl(constant, x, ty, init) =>
      if init.Some? { SizedE(init.value, c, pos, k, lp); }
      var g := GenInit(init, ty, c, pos, k, lp);
      if g.Gen? { SizedThen(g, SetIns(g.ctx, g.ctx.next, constant)); }
    case Assign(x, e) =>
      SizedE(e, c, pos, k, lp);
      var g := GenE(e, c, pos, k, lp);
      if g.Gen? && Resolve(g.ctx.scopes, x).Some? {
        SizedThen(g, SetIns(g.ctx, Resolve(g.ctx.scopes, x).value.index, false));
      }
    case For(_, _, _, _) => SizedForS(s, c, pos, k, lp);
    case Break =>
    case Continue =>
  }

  lemma {:induction false} SizedForS(s: Stmt, c: Ctx, pos: nat, k: nat, lp: Loop)
    requires s.For?
    ensures Sized(GenFor(s, c, pos, k, lp))
    decreases s, 0
  {
    hide GenStmts, GenS, GenIf, JoinIf, Size, Fill, Encode, GenBlock;
    SizedOpt(s.first, Push(c), pos, k, lp);
    var gi := GenOpt(s.first, Push(c), pos, k, lp);
    if gi.Bad? { return; }
    var condPos := pos + gi.size;
    var inner := InLoop(s.post.Some?, condPos);
    SizedE(s.test, gi.ctx, condPos, k + |gi.consts|, inner);
    var gc := GenE(s.test, gi.ctx, condPos, k + |gi.consts|, inner);
    if gc.Bad? { return; }
    var bodyPos := condPos + gc.size + 3;
    var kb := k + |gi.consts| + |gc.consts|;
    SizedBlock(s.body, gc.ctx, bodyPos, kb, inner);
    var gb := GenBlock(s.body, gc.ctx, bodyPos, kb, inner);
    if gb.Bad? { return; }
    SizedOpt(s.post, gb.ctx, bodyPos + gb.size, kb + |gb.consts|, inner);
    var gp := GenOpt(s.post, gb.ctx, bodyPos + gb.size, kb + |gb.consts|, inner);
    SizedFor(pos, s.post.Some?, gi, gc, gb, gp);
    assert GenFor(s, c, pos, k, lp) == JoinFor(pos, s.post.Some?, gi, gc, gb, gp);
  }
}
