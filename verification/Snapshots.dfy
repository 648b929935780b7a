/** What each step of the imperative compiler does to its code, as relations on snapshots
    of the compiler's state. */
module Snapshots {
  import opened Language
  import opened Typing
  import opened Bytecode
  import opened Codegen
  import opened Scoping
  import opened Patching

  datatype LoopContext = LoopContext(conditionPos: nat, hasPost: bool, breakPositions: seq<nat>,
    continuePositions: seq<nat>)

  datatype EmittedInstruction = EmittedInstruction(op: byte, pos: nat)

  function LoopOf(loops: seq<LoopContext>): Loop
  {
    if loops == [] then NoLoop
    else var l := loops[|loops| - 1]; InLoop(l.hasPost, l.conditionPos)
  }

  function Outer(loops: seq<LoopContext>): seq<LoopContext> { if loops == [] then [] else loops[..|loops| - 1] }

  /** What a compilation step changes: the instructions so far and their size in bytes, the
      constants and the scopes; and what it keeps: the loops around. */
  datatype Snapshot = Snapshot(list: seq<Ins>, size: nat, consts: seq<Value>, ctx: Ctx,
                               from: nat, done: seq<nat>, outer: seq<LoopContext>, lp: Loop)

  predicate NoContinues(c: seq<Ins>) { forall i :: 0 <= i < |c| ==> !c[i].ContinueHole? }

  /** In a loop without post statement, continue needs no patching. */
  predicate Direct(lp: Loop, c: seq<Ins>) { lp.InLoop? && !lp.hasPost ==> NoContinues(c) }

  /** The step from `a` to `b` emitted exactly `g`. */
  predicate Adds(a: Snapshot, b: Snapshot, g: Gen)
  {
    && g.Gen? && Direct(a.lp, g.code)
    && b == a.(list := a.list + g.code, size := a.size + g.size, consts := a.consts + g.consts, ctx := g.ctx)
  }

  function More(a: Snapshot, i: Ins): Snapshot
  {
    a.(list := a.list + [i], size := a.size + SizeOf(i))
  }

  // What is to be emitted from `s` on.
  function OfE(e: Expr, s: Snapshot): Gen { GenE(e, s.ctx, s.size, |s.consts|, s.lp) }
  function OfBlock(b: Block, s: Snapshot): Gen { GenBlock(b, s.ctx, s.size, |s.consts|, s.lp) }
  function OfIf(e: Expr, s: Snapshot): Gen requires e.If? { GenIf(e, s.ctx, s.size, |s.consts|, s.lp) }
  function OfAlt(b: Option<Block>, s: Snapshot): Gen { GenAlt(b, s.ctx, s.size, |s.consts|, s.lp) }
  function OfStmts(b: Block, s: Snapshot): Gen { GenStmts(b, s.ctx, s.size, |s.consts|, s.lp) }
  function OfS(st: Stmt, s: Snapshot): Gen { GenS(st, s.ctx, s.size, |s.consts|, s.lp) }
  function OfInit(init: Option<Expr>, ty: Option<Ty>, s: Snapshot): Gen
  {
    GenInit(init, ty, s.ctx, s.size, |s.consts|, s.lp)
  }
  function OfOpt(st: Option<Stmt>, s: Snapshot): Gen { GenOpt(st, s.ctx, s.size, |s.consts|, s.lp) }

  lemma AddsJoin(a: Snapshot, b: Snapshot, c: Snapshot, g1: Gen, g2: Gen)
    requires Adds(a, b, g1) && Adds(b, c, g2)
    ensures Adds(a, c, Join(g1, g2))
  {
    assert a.list + g1.code + g2.code == a.list + (g1.code + g2.code);
    assert a.consts + g1.consts + g2.consts == a.consts + (g1.consts + g2.consts);
  }

  lemma AddsThen(a: Snapshot, b: Snapshot, c: Snapshot, g: Gen, i: Ins)
    requires Adds(a, b, g) && c == More(b, i) && !i.ContinueHole?
    ensures Adds(a, c, Then(g, i))
  {
    assert a.list + g.code + [i] == a.list + (g.code + [i]);
  }

  /** The instruction `emit(op, operands...)` stands for. */
  function InsOf(op: byte, operands: seq<nat>): Ins
    requires |operands| <= 1
  {
    if operands == [] then Plain(op)
    else if OperandWidths(op) == Some([1]) then Short(op, operands[0])
    else Wide(op, operands[0])
  }

  function OpOf(i: Ins): byte
  {
    match i
    case Plain(op) => op
    case Short(op, _) => op
    case Wide(op, _) => op
    case _ => OP_JUMP
  }

  /** The recorded positions are those of the open exits from instruction `from` on, besides
      the continues that are `done`, that is, already patched. */
  predicate Recorded(l: LoopContext, list: seq<Ins>, from: nat, done: seq<nat>)
    requires from <= |list|
  {
    && l.breakPositions == HolePos(list[from..], true, Size(list[..from]))
    && l.continuePositions == done + HolePos(list[from..], false, Size(list[..from]))
  }

  lemma RecordedMore(l: LoopContext, list: seq<Ins>, from: nat, done: seq<nat>, c: seq<Ins>, l': LoopContext)
    requires from <= |list| && Recorded(l, list, from, done)
    requires l'.breakPositions == l.breakPositions + HolePos(c, true, Size(list))
    requires l'.continuePositions == l.continuePositions + HolePos(c, false, Size(list))
    ensures Recorded(l', list + c, from, done)
  {
    hide Size, Encode, HolePos;
    assert (list + c)[from..] == list[from..] + c && (list + c)[..from] == list[..from];
    assert list == list[..from] + list[from..];
    SizeAppend(list[..from], list[from..]);
    HolesAppend(list[from..], c, true, Size(list[..from]), Size(list));
    HolesAppend(list[from..], c, false, Size(list[..from]), Size(list));
  }

  /** One emitted instruction. */
  lemma EncodeMore(list: seq<Ins>, i: Ins)
    ensures Encode(list + [i]) == Encode(list) + Encode1(i)
  {
    EncodeAppend(list, [i]);
    assert [i][1..] == [];
  }

  lemma HolesOne(i: Ins, brk: bool, base: nat)
    ensures HolePos([i], brk, base) == if IsHole(i, brk) then [base] else []
  {
    assert [i][1..] == [];
  }

  /** The bytes stand for the instructions of `list`, and the innermost loop, whose code
      begins at instruction `from`, knows its open exits. */
  predicate Coded(bytes: seq<byte>, list: seq<Ins>, from: nat, done: seq<nat>, loops: seq<LoopContext>)
  {
    && bytes == Encode(list) && from <= |list|
    && (loops != [] ==> Recorded(loops[|loops| - 1], list, from, done))
  }

  lemma CodedMore(bytes: seq<byte>, list: seq<Ins>, from: nat, done: seq<nat>, loops: seq<LoopContext>, i: Ins)
    requires Coded(bytes, list, from, done, loops) && !i.BreakHole? && !i.ContinueHole?
    ensures Coded(bytes + Encode1(i), list + [i], from, done, loops)
  {
    EncodeMore(list, i);
    if loops != [] { RecordedPlain(loops[|loops| - 1], list, from, done, i); }
  }

  lemma RecordedPlain(l: LoopContext, list: seq<Ins>, from: nat, done: seq<nat>, i: Ins)
    requires from <= |list| && Recorded(l, list, from, done) && !i.BreakHole? && !i.ContinueHole?
    ensures Recorded(l, list + [i], from, done)
  {
    HolesOne(i, true, Size(list));
    HolesOne(i, false, Size(list));
    assert l.breakPositions + [] == l.breakPositions && l.continuePositions + [] == l.continuePositions;
    RecordedMore(l, list, from, done, [i], l);
  }

  function Record(l: LoopContext, brk: bool, pos: nat): LoopContext
  {
    if brk then l.(breakPositions := l.breakPositions + [pos]) else l.(continuePositions := l.continuePositions + [pos])
  }

  lemma CodedExit(bytes: seq<byte>, list: seq<Ins>, from: nat, done: seq<nat>, loops: seq<LoopContext>, brk: bool,
          l: LoopContext, i: Ins, loops': seq<LoopContext>)
    requires Coded(bytes, list, from, done, loops) && loops != [] && i == (if brk then BreakHole else ContinueHole)
    requires l == Record(loops[|loops| - 1], brk, |bytes|) && loops' == loops[|loops| - 1 := l]
    ensures Coded(bytes + Encode1(i), list + [i], from, done, loops')
    ensures LoopOf(loops') == LoopOf(loops) && Outer(loops') == Outer(loops)
    ensures Encode1(i) == Encode1(Wide(OP_JUMP, PLACEHOLDER))
  {
    EncodeMore(list, i);
    HolesOne(i, true, Size(list));
    HolesOne(i, false, Size(list));
    RecordedMore(loops[|loops| - 1], list, from, done, [i], l);
  }

  lemma CodedPop(bytes: seq<byte>, list: seq<Ins>, from: nat, done: seq<nat>, loops: seq<LoopContext>)
    requires Coded(bytes, list, from, done, loops) && from < |list| && list[|list| - 1] == Plain(OP_POP)
    ensures |bytes| > 0 && Coded(bytes[..|bytes| - 1], list[..|list| - 1], from, done, loops)
  {
    var rest := list[..|list| - 1];
    assert list == rest + [Plain(OP_POP)];
    EncodeMore(rest, Plain(OP_POP));
    assert bytes[..|bytes| - 1] == Encode(rest);
    if loops != [] { RecordedLess(loops[|loops| - 1], list, rest, from, done); }
  }

  lemma RecordedLess(l: LoopContext, list: seq<Ins>, rest: seq<Ins>, from: nat, done: seq<nat>)
    requires list == rest + [Plain(OP_POP)] && from <= |rest| && Recorded(l, list, from, done)
    ensures Recorded(l, rest, from, done)
  {
    assert list[from..] == rest[from..] + [Plain(OP_POP)] && rest[..from] == list[..from];
    var p1 := Size(rest[..from]) + Size(rest[from..]);
    HolesAppend(rest[from..], [Plain(OP_POP)], true, Size(rest[..from]), p1);
    HolesAppend(rest[from..], [Plain(OP_POP)], false, Size(rest[..from]), p1);
    HolesOne(Plain(OP_POP), true, p1);
    HolesOne(Plain(OP_POP), false, p1);
  }

  lemma {:induction false} HolesUpdate(c: seq<Ins>, idx: nat, i: Ins, brk: bool, base: nat)
    requires idx < |c| && !IsHole(c[idx], brk) && !IsHole(i, brk) && SizeOf(c[idx]) == SizeOf(i)
    ensures HolePos(c[idx := i], brk, base) == HolePos(c, brk, base) && Size(c[idx := i]) == Size(c)
    decreases |c|
  {
    if idx > 0 {
      assert c[idx := i][1..] == c[1..][idx - 1 := i];
      HolesUpdate(c[1..], idx - 1, i, brk, base + SizeOf(c[0]));
    } else {
      assert c[idx := i][1..] == c[1..];
    }
  }

  /** Patching one jump of the innermost loop. */
  lemma CodedPatch(bytes: seq<byte>, list: seq<Ins>, from: nat, done: seq<nat>, loops: seq<LoopContext>, idx: nat,
          pos: nat, t: nat)
    requires Coded(bytes, list, from, done, loops) && from <= idx < |list| && list[idx].Wide?
      && pos == Size(list[..idx])
    ensures pos + 3 <= |bytes| && bytes[pos] == list[idx].op
    ensures Coded(Patch1(bytes, pos, t), list[idx := Wide(list[idx].op, t)], from, done, loops)
  {
    var (pre, i, post) := (list[..idx], list[idx], list[idx + 1..]);
    var i' := Wide(i.op, t);
    assert list == pre + [i] + post && list[idx := i'] == pre + [i'] + post;
    EncodeThree(pre, i, post);
    EncodeThree(pre, i', post);
    PatchJump(Encode(pre), i, Encode(post), t);
    assert Encode1(i)[0] == i.op;
    if loops != [] {
      assert list[idx := i'][from..] == list[from..][idx - from := i'] && list[idx := i'][..from] == list[..from];
      HolesUpdate(list[from..], idx - from, i', true, Size(list[..from]));
      HolesUpdate(list[from..], idx - from, i', false, Size(list[..from]));
    }
  }

  lemma EncodeThree(pre: seq<Ins>, i: Ins, post: seq<Ins>)
    ensures Encode(pre + [i] + post) == Encode(pre) + Encode1(i) + Encode(post)
  {
    EncodeAppend(pre + [i], post);
    EncodeMore(pre, i);
  }

  /** What `Make` builds is the encoding of the instruction. */
  lemma MakeIs(op: byte, operands: seq<nat>)
    requires OperandWidths(op).Some? && |operands| == |OperandWidths(op).value| <= 1
    ensures [op] + OperandsBytes(OperandWidths(op).value, operands) == Encode1(InsOf(op, operands))
  {
    hide Size, Encode, OperandsBytes;
    if operands != [] {
      assert operands == [operands[0]];
      assert OperandWidths(op).value == [1] || OperandWidths(op).value == [2];
    } else {
      assert [op] + [] == [op];
    }
  }

  /** The bytes of code whose recorded exits are all patched. */
  lemma ExitsFilled(bytes: seq<byte>, list: seq<Ins>, from: nat, done: seq<nat>, l: LoopContext, brk: bool, t: nat)
    returns (goal: seq<byte>)
    requires bytes == Encode(list) && from <= |list| && Recorded(l, list, from, done) && (brk || done == [])
    ensures goal == Encode(list[..from] + FillKind(list[from..], brk, t))
    ensures Patched(bytes, Encode(list[..from]), list[from..], brk, t,
      if brk then l.breakPositions else l.continuePositions, goal)
  {
    assert list == list[..from] + list[from..];
    EncodeAppend(list[..from], list[from..]);
    EncodeAppend(list[..from], FillKind(list[from..], brk, t));
    goal := Encode(list[..from]) + Encode(FillKind(list[from..], brk, t));
  }

  // ---------- assembling an if-expression ----------

  /** `b` after the end of a branch that began at `a`: its value stays on the stack. */
  function BranchEnd(a: Snapshot, b: Snapshot, unit: bool, g: Gen): Snapshot
    requires g.Gen?
  {
    b.(list := a.list + BranchCode(unit, g.code), size := a.size + BranchSize(unit, g))
  }

  function SetAt(a: Snapshot, idx: nat, i: Ins): Snapshot
    requires idx < |a.list|
  {
    a.(list := a.list[idx := i])
  }

  lemma AddsSet(a: Snapshot, b: Snapshot, g: Gen, k: nat, i: Ins)
    requires Adds(a, b, g) && k < |g.code| && !i.ContinueHole?
    ensures Adds(a, SetAt(b, |a.list| + k, i), g.(code := g.code[k := i]))
  {
    assert (a.list + g.code)[|a.list| + k := i] == a.list + g.code[k := i];
  }

  lemma AddsBranch(a: Snapshot, b: Snapshot, unit: bool, g: Gen)
    requires Adds(a, b, g)
    ensures Adds(a, BranchEnd(a, b, unit, g), Gen(BranchCode(unit, g.code), BranchSize(unit, g), g.consts, g.ctx))
  {
  }

  /** The last instruction of a branch is a pop exactly when the branch ends with one. */
  lemma BranchLast(a: Snapshot, b: Snapshot, g: Gen)
    requires Adds(a, b, g) && a.size == Size(a.list) && b.size == Size(b.list)
    requires a.list != [] && a.list[|a.list| - 1] != Plain(OP_POP)
    ensures b.list[|b.list| - 1] == Plain(OP_POP) <==> g.code != [] && g.code[|g.code| - 1] == Plain(OP_POP)
    ensures b.list[|b.list| - 1] == Plain(OP_POP) ==>
      g.size > 0 && b.list[..|b.list| - 1] == a.list + g.code[..|g.code| - 1]
  {
    SizeAppend(a.list, g.code);
    if g.code != [] && g.code[|g.code| - 1] == Plain(OP_POP) {
      assert g.code == g.code[..|g.code| - 1] + [Plain(OP_POP)];
      SizeAppend(g.code[..|g.code| - 1], [Plain(OP_POP)]);
      Size1(Plain(OP_POP));
    }
  }

  lemma AddsNothing(a: Snapshot)
    ensures Adds(a, a, Gen([], 0, [], a.ctx))
  {
    assert a.list + [] == a.list && a.consts + [] == a.consts;
  }

  lemma JoinNothing(g: Gen, s: Snapshot)
    requires g.Gen?
    ensures Join(g, OfStmts(Empty, s)) == g.(ctx := s.ctx)
  {
    assert g.code + [] == g.code && g.consts + [] == g.consts;
  }

  /** One more statement of a block. */
  lemma JoinStmts(b: Block, a: Snapshot, rest: Block, s: Snapshot, s': Snapshot, g: Gen)
    requires rest.Seq? && g.Gen? && OfStmts(b, a) == Join(g, OfStmts(rest, s)) && Adds(s, s', OfS(rest.head, s))
    ensures OfStmts(b, a) == Join(Join(g, OfS(rest.head, s)), OfStmts(rest.tail, s'))
  {
    var x, y := OfS(rest.head, s), OfStmts(rest.tail, s');
    assert |s'.consts| == |s.consts| + |x.consts|;
    assert OfStmts(rest, s) == Join(x, y);
    if y.Gen? {
      assert g.code + (x.code + y.code) == g.code + x.code + y.code;
      assert g.consts + (x.consts + y.consts) == g.consts + x.consts + y.consts;
    }
  }

  lemma OperatorPlain(op: InfixOp)
    ensures InfixIns(op).Plain? && OperandWidths(InfixIns(op).op) == Some([])
  {
  }

  lemma AddsExit(a: Snapshot, i: Ins)
    requires i.BreakHole? || (i.Wide? && i.op == OP_JUMP) || (i.ContinueHole? && a.lp.InLoop? && a.lp.hasPost)
    ensures Adds(a, More(a, i), Gen([i], 3, [], a.ctx))
  {
    assert a.consts + [] == a.consts;
  }

  lemma ResolveHere(sc: Scopes, x: string)
    requires sc != []
    ensures x in sc[0] ==> Resolve(sc, x).Some?
  {
  }

  lemma DeclGen(a: Snapshot, s: Stmt)
    requires s.VarDecl? && (a.ctx.scopes == [] || s.x in a.ctx.scopes[0] || OfInit(s.init, s.ty, a).Bad?)
    ensures OfS(s, a).Bad?
  {
  }

  lemma AddsDecl(a: Snapshot, b: Snapshot, c: Snapshot, s: Stmt, g: Gen)
    requires s.VarDecl? && a.ctx.scopes != [] && s.x !in a.ctx.scopes[0] && g == OfInit(s.init, s.ty, a)
    requires Adds(a, b, g) && g.ctx.scopes != [] && g.ctx.global
    requires c == More(b, SetIns(g.ctx, g.ctx.next, s.constant)).(ctx := Define(g.ctx, s.x, s.constant))
    ensures Adds(a, c, OfS(s, a))
  {
    var i := SetIns(g.ctx, g.ctx.next, s.constant);
    AddsThen(a, b, More(b, i), g, i);
  }

  lemma AddsMore(a: Snapshot, i: Ins)
    requires !i.ContinueHole?
    ensures Adds(a, More(a, i), Gen([i], SizeOf(i), [], a.ctx))
  {
    assert a.consts + [] == a.consts;
  }

  lemma AddsIfHead(a: Snapshot, s1: Snapshot, s2: Snapshot, s3: Snapshot, s4: Snapshot, s5: Snapshot, unit: bool,
          g: Gen, ga: Gen, i: Ins, j: Ins, j': Ins)
    requires Adds(a, s1, g) && s2 == More(s1, j) && Adds(s2, s3, ga) && s4 == BranchEnd(s2, s3, unit, ga)
      && s5 == More(s4, i)
    requires i.Wide? && j.Wide? && j'.Wide?
    ensures |s1.list| < |s5.list| && s5.list[|s1.list|] == j
    ensures Adds(a, SetAt(s5, |s1.list|, j'),
      Gen(g.code + ([j'] + (BranchCode(unit, ga.code) + [i])), g.size + 3 + BranchSize(unit, ga) + 3,
        g.consts + ga.consts, ga.ctx))
  {
    var b := Gen(BranchCode(unit, ga.code), BranchSize(unit, ga), ga.consts, ga.ctx);
    AddsThen(a, s1, s2, g, j);
    AddsBranch(s2, s3, unit, ga);
    AddsJoin(a, s2, s4, Then(g, j), b);
    AddsThen(a, s4, s5, Join(Then(g, j), b), i);
    var c := g.code + [j] + b.code + [i];
    AddsSet(a, s5, Then(Join(Then(g, j), b), i), |g.code|, j');
    assert c[|g.code| := j'] == g.code + ([j'] + (b.code + [i]));
    assert s5.list == a.list + c;
  }

  /** Condition and consequence. */
  predicate IfThen(e: Expr, a: Snapshot, s1: Snapshot, s2: Snapshot, s3: Snapshot, s4: Snapshot)
    requires e.If?
  {
    && Adds(a, s1, OfE(e.cond, a)) && s2 == More(s1, Wide(OP_JUMP_NOT_TRUTHY, PLACEHOLDER))
    && Adds(s2, s3, OfBlock(e.cons, s2))
    && s4 == BranchEnd(s2, s3, e.unit, OfBlock(e.cons, s2))
  }

  /** Up to the jump over the alternative. */
  predicate IfHead(e: Expr, a: Snapshot, s1: Snapshot, s2: Snapshot, s3: Snapshot, s4: Snapshot, s5: Snapshot)
    requires e.If?
  {
    && IfThen(e, a, s1, s2, s3, s4) && |s1.list| < |s4.list|
    && s5 == SetAt(More(s4, Wide(OP_JUMP, PLACEHOLDER)), |s1.list|, Wide(OP_JUMP_NOT_TRUTHY, s4.size + 3))
  }

  lemma TestPlace(e: Expr, a: Snapshot, s1: Snapshot, s2: Snapshot, s3: Snapshot, s4: Snapshot)
    requires e.If? && IfThen(e, a, s1, s2, s3, s4)
    ensures |s1.list| < |s4.list| && s1.list == s4.list[..|s1.list|] && s4.list[|s1.list|] == OVER
    ensures s4.from == a.from && (a.from <= |a.list| ==> a.from <= |s1.list|)
  {
  }

  /** The code of an if-expression fails to compile when a part of it does. */
  lemma IfGen(e: Expr, a: Snapshot, s1: Snapshot, s2: Snapshot, s3: Snapshot, s4: Snapshot, s5: Snapshot)
    requires e.If? && IfHead(e, a, s1, s2, s3, s4, s5)
    ensures OfIf(e, a) == JoinIf(e.unit, e.alt.Some?, a.size, OfE(e.cond, a), OfBlock(e.cons, s2), OfAlt(e.alt, s5))
  {
    var g, ga := OfE(e.cond, a), OfBlock(e.cons, s2);
    assert s2.size == a.size + g.size + 3 && |s2.consts| == |a.consts| + |g.consts|;
    assert s5.size == s2.size + BranchSize(e.unit, ga) + 3 && |s5.consts| == |a.consts| + |g.consts| + |ga.consts|;
    assert s5.ctx == ga.ctx && s2.ctx == g.ctx && s5.lp == a.lp;
  }

  lemma IfHeadBad(e: Expr, a: Snapshot, s1: Snapshot, s2: Snapshot)
    requires e.If?
    requires OfE(e.cond, a).Bad?
      || (Adds(a, s1, OfE(e.cond, a)) && s2 == More(s1, Wide(OP_JUMP_NOT_TRUTHY, PLACEHOLDER))
        && OfBlock(e.cons, s2).Bad?)
    ensures OfIf(e, a).Bad?
  {
    if OfE(e.cond, a).Gen? {
      var g := OfE(e.cond, a);
      assert s2.size == a.size + g.size + 3 && |s2.consts| == |a.consts| + |g.consts| && s2.ctx == g.ctx;
    }
  }

  /** The jump over the alternative is where it was emitted. */
  lemma OverPlace(e: Expr, a: Snapshot, s1: Snapshot, s2: Snapshot, s3: Snapshot, s4: Snapshot, s5: Snapshot,
          s7: Snapshot, c: seq<Ins>)
    requires e.If? && IfHead(e, a, s1, s2, s3, s4, s5) && s7.list == s5.list + c
    ensures |s4.list| < |s7.list| && Size(s7.list[..|s4.list|]) == Size(s4.list)
    ensures a.from <= |a.list| ==> a.from <= |s4.list|
  {
    var j := Wide(OP_JUMP_NOT_TRUTHY, s4.size + 3);
    assert s7.list[..|s4.list|] == s4.list[|s1.list| := j];
    assert s4.list[|s1.list|] == Wide(OP_JUMP_NOT_TRUTHY, PLACEHOLDER);
    HolesUpdate(s4.list, |s1.list|, j, true, 0);
  }

  lemma AddsIf(a: Snapshot, s1: Snapshot, s2: Snapshot, s3: Snapshot, s4: Snapshot, s5: Snapshot, s6: Snapshot,
          s7: Snapshot, unit: bool, hasAlt: bool, g: Gen, ga: Gen, gb: Gen)
    requires Adds(a, s1, g) && s2 == More(s1, Wide(OP_JUMP_NOT_TRUTHY, PLACEHOLDER)) && Adds(s2, s3, ga)
    requires s4 == BranchEnd(s2, s3, unit, ga) && |s1.list| < |s4.list|
    requires s5 == SetAt(More(s4, Wide(OP_JUMP, PLACEHOLDER)), |s1.list|, Wide(OP_JUMP_NOT_TRUTHY, s4.size + 3))
    requires Adds(s5, s6, gb) && s7 == if hasAlt then BranchEnd(s5, s6, unit, gb) else s6
    ensures |s4.list| < |s7.list| && s7.list[|s4.list|] == Wide(OP_JUMP, PLACEHOLDER)
    ensures Adds(a, SetAt(s7, |s4.list|, Wide(OP_JUMP, s7.size)), JoinIf(unit, hasAlt, a.size, g, ga, gb))
  {
    hide GenE, GenBlock, GenIf, Size, Encode, HolePos, Direct, NoContinues;
    var j, i, i' := Wide(OP_JUMP_NOT_TRUTHY, s4.size + 3), Wide(OP_JUMP, PLACEHOLDER), Wide(OP_JUMP, s7.size);
    AddsIfHead(a, s1, s2, s3, s4, More(s4, i), unit, g, ga, i, Wide(OP_JUMP_NOT_TRUTHY, PLACEHOLDER), j);
    var front := g.code + ([j] + (BranchCode(unit, ga.code) + [i]));
    var h := Gen(front, g.size + 3 + BranchSize(unit, ga) + 3, g.consts + ga.consts, ga.ctx);
    var b := if hasAlt then Gen(BranchCode(unit, gb.code), BranchSize(unit, gb), gb.consts, gb.ctx) else gb;
    if hasAlt { AddsBranch(s5, s6, unit, gb); }
    AddsJoin(a, s5, s7, h, b);
    assert |front| - 1 == |s4.list| - |a.list|;
    AddsSet(a, s7, Join(h, b), |front| - 1, i');
    assert (front + b.code)[|front| - 1 := i'] == g.code + ([j] + (BranchCode(unit, ga.code) + ([i'] + b.code)));
    assert (g.consts + ga.consts) + gb.consts == g.consts + (ga.consts + gb.consts);
  }

  // ---------- assembling a loop ----------

  lemma FillTwice(c: seq<Ins>, brk: nat, cont: nat)
    ensures Fill(FillKind(c, false, cont), brk, PLACEHOLDER) == Fill(c, brk, cont)
  {
    forall i | 0 <= i < |c| ensures Fill(FillKind(c, false, cont), brk, PLACEHOLDER)[i] == Fill(c, brk, cont)[i] {
      FillNth(c, brk, cont, i);
      FillNth(FillKind(c, false, cont), brk, PLACEHOLDER, i);
    }
  }

  lemma FillKindAppend(a: seq<Ins>, b: seq<Ins>, brk: bool, t: nat)
    ensures FillKind(a + b, brk, t) == FillKind(a, brk, t) + FillKind(b, brk, t)
  {
  }

  lemma FillOne(i: Ins, brk: nat, cont: nat)
    requires !i.BreakHole? && !i.ContinueHole?
    ensures Fill([i], brk, cont) == [i]
  {
    FillNth([i], brk, cont, 0);
  }

  /** The code of a loop after all its jumps are patched. */
  lemma LoopCode(c: seq<Ins>, j: Ins, b: seq<Ins>, p: seq<Ins>, back: Ins, j': Ins, brk: nat, cont: nat)
    requires j.Wide? && j'.Wide? && back.Wide?
    ensures Fill((FillKind(c + [j] + b, false, cont) + p + [back])[|c| := j'], brk, PLACEHOLDER)
         == Fill(c, brk, cont) + ([j'] + (Fill(b, brk, cont) + (Fill(p, brk, PLACEHOLDER) + [back])))
  {
    var fc, fb := FillKind(c, false, cont), FillKind(b, false, cont);
    FillKindAppend(c + [j], b, false, cont);
    FillKindAppend(c, [j], false, cont);
    assert FillKind([j], false, cont) == [j];
    assert (fc + [j] + fb + p + [back])[|c| := j'] == fc + ([j'] + (fb + (p + [back])));
    FillAppend(fc, [j'] + (fb + (p + [back])), brk, PLACEHOLDER);
    FillAppend([j'], fb + (p + [back]), brk, PLACEHOLDER);
    FillAppend(fb, p + [back], brk, PLACEHOLDER);
    FillAppend(p, [back], brk, PLACEHOLDER);
    FillOne(j', brk, PLACEHOLDER);
    FillOne(back, brk, PLACEHOLDER);
    FillTwice(c, brk, cont);
    FillTwice(b, brk, cont);
  }

  lemma FilledDirect(c: seq<Ins>, brk: nat, cont: nat)
    ensures NoContinues(Fill(c, brk, cont))
  {
    forall i | 0 <= i < |c| ensures !Fill(c, brk, cont)[i].ContinueHole? { FillNth(c, brk, cont, i); }
  }

  /** The code of a loop's condition, body and post statement. */
  datatype LoopParts = LoopParts(gc: Gen, gb: Gen, gp: Gen)

  function LoopGens(s: Stmt, a: Snapshot): Option<LoopParts>
    requires s.For?
  {
    var gc := OfE(s.test, a);
    if gc.Bad? then None else
    var gb := GenBlock(s.body, gc.ctx, a.size + gc.size + 3, |a.consts| + |gc.consts|, a.lp);
    if gb.Bad? then None else
    var gp := GenOpt(s.post, gb.ctx, a.size + gc.size + 3 + gb.size, |a.consts| + |gc.consts| + |gb.consts|, a.lp);
    if gp.Bad? then None else Some(LoopParts(gc, gb, gp))
  }

  const OVER: Ins := Wide(OP_JUMP_NOT_TRUTHY, PLACEHOLDER)

  /** Where continue leads to. */
  function ContinueTo(hasPost: bool, pos: nat, x: LoopParts): nat
    requires x.gc.Gen? && x.gb.Gen?
  {
    if hasPost then pos + x.gc.size + 3 + x.gb.size else pos
  }

  /** From `a`, where the loop begins, to `b`, before the exits are patched. */
  predicate LoopDone(a: Snapshot, b: Snapshot, hasPost: bool, x: LoopParts, done: seq<nat>)
  {
    && x.gc.Gen? && x.gb.Gen? && x.gp.Gen?
    && b == a.(list := a.list + (FillKind(x.gc.code + [OVER] + x.gb.code, false, ContinueTo(hasPost, a.size, x))
                                  + x.gp.code + [Wide(OP_JUMP, a.size)]),
               size := a.size + x.gc.size + 3 + x.gb.size + x.gp.size + 3,
               consts := a.consts + (x.gc.consts + (x.gb.consts + x.gp.consts)),
               ctx := x.gp.ctx, done := done)
  }

  /** Condition `gc`, exit jump and body `gb` compiled, from `a` to `b`. */
  predicate LoopHead(s: Stmt, a: Snapshot, b: Snapshot, gc: Gen, gb: Gen)
    requires s.For?
  {
    && gc.Gen? && gb.Gen? && Direct(a.lp, gc.code + [OVER] + gb.code)
    && LoopGens(s, a) == (if OfOpt(s.post, b).Bad? then None else Some(LoopParts(gc, gb, OfOpt(s.post, b))))
    && b == a.(list := a.list + (gc.code + [OVER] + gb.code), size := a.size + gc.size + 3 + gb.size,
               consts := a.consts + (gc.consts + gb.consts), ctx := gb.ctx)
  }

  lemma LoopHeadAdds(s: Stmt, a: Snapshot, s1: Snapshot, s2: Snapshot, s3: Snapshot, gc: Gen, gb: Gen)
    requires s.For? && Adds(a, s1, gc) && s2 == More(s1, OVER) && Adds(s2, s3, gb) && gc == OfE(s.test, a)
      && gb == OfBlock(s.body, s2)
    ensures LoopHead(s, a, s3, gc, gb) && s1.list == a.list + gc.code
  {
    assert s2.size == a.size + gc.size + 3 && |s2.consts| == |a.consts| + |gc.consts| && s2.ctx == gc.ctx
      && s2.lp == a.lp;
    assert s3.size == s2.size + gb.size && |s3.consts| == |s2.consts| + |gb.consts| && s3.ctx == gb.ctx
      && s3.lp == a.lp;
    assert s3.list == a.list + (gc.code + [OVER] + gb.code);
    assert s3.consts == a.consts + (gc.consts + gb.consts);
  }

  lemma LoopHeadBad(s: Stmt, a: Snapshot, s1: Snapshot, s2: Snapshot)
    requires s.For?
    requires OfE(s.test, a).Bad? || (Adds(a, s1, OfE(s.test, a)) && s2 == More(s1, OVER) && OfBlock(s.body, s2).Bad?)
    ensures LoopGens(s, a).None?
  {
    if OfE(s.test, a).Gen? {
      var g := OfE(s.test, a);
      assert s2.size == a.size + g.size + 3 && |s2.consts| == |a.consts| + |g.consts| && s2.ctx == g.ctx;
    }
  }

  /** From `a`, with the loop's code `c`: continues patched, post statement `g`, jump back. */
  predicate LoopBack(a: Snapshot, pre: seq<Ins>, c: seq<Ins>, b: Snapshot, g: Gen, cont: nat, condPos: nat,
          done: seq<nat>)
  {
    g.Gen? && b == a.(list := pre + FillKind(c, false, cont) + g.code + [Wide(OP_JUMP, condPos)],
      size := a.size + g.size + 3,
                      consts := a.consts + g.consts, ctx := g.ctx, done := done)
  }

  lemma LoopBackAdds(a: Snapshot, pre: seq<Ins>, c: seq<Ins>, s4: Snapshot, s5: Snapshot, g: Gen, cont: nat,
          condPos: nat)
    requires s4 == a.(done := s4.done, list := pre + FillKind(c, false, cont)) && Adds(s4, s5, g)
    ensures LoopBack(a, pre, c, More(s5, Wide(OP_JUMP, condPos)), g, cont, condPos, s4.done)
  {
  }

  /** Inside the loop: condition, exit jump, body, post statement and jump back. */
  lemma LoopInner(s: Stmt, a: Snapshot, b: Snapshot, c: Snapshot, x: LoopParts)
    requires s.For? && LoopHead(s, a, b, x.gc, x.gb)
    requires LoopBack(b, a.list, x.gc.code + [OVER] + x.gb.code, c, x.gp, ContinueTo(s.post.Some?, a.size, x),
      a.size, c.done)
    ensures LoopDone(a, c, s.post.Some?, x, c.done)
  {
    var f := FillKind(x.gc.code + [OVER] + x.gb.code, false, ContinueTo(s.post.Some?, a.size, x));
    assert a.list + f + x.gp.code + [Wide(OP_JUMP, a.size)] == a.list + (f + x.gp.code + [Wide(OP_JUMP, a.size)]);
    assert c.consts == a.consts + (x.gc.consts + (x.gb.consts + x.gp.consts));
  }

  lemma {:induction false} FillKindSize(c: seq<Ins>, brk: bool, t: nat)
    ensures Size(FillKind(c, brk, t)) == Size(c)
    decreases |c|
  {
    if c != [] {
      assert FillKind(c, brk, t)[1..] == FillKind(c[1..], brk, t);
      FillKindSize(c[1..], brk, t);
    }
  }

  /** The exit jump of the loop is where it was emitted. */
  lemma LoopPlace(a: Snapshot, b: Snapshot, hasPost: bool, x: LoopParts, done: seq<nat>)
    requires LoopDone(a, b, hasPost, x, done)
    ensures |a.list| + |x.gc.code| < |b.list| && b.list[|a.list| + |x.gc.code|] == OVER
    ensures Size(b.list[..|a.list| + |x.gc.code|]) == Size(a.list + x.gc.code)
  {
    var f := FillKind(x.gc.code, false, ContinueTo(hasPost, a.size, x));
    assert b.list[..|a.list| + |x.gc.code|] == a.list + f;
    SizeAppend(a.list, f);
    SizeAppend(a.list, x.gc.code);
    FillKindSize(x.gc.code, false, ContinueTo(hasPost, a.size, x));
  }

  /** After the loop that began at `a` all its jumps are patched. */
  function LoopClosed(a: Snapshot, b: Snapshot, x: LoopParts): Snapshot
    requires x.gc.Gen? && |a.list| + |x.gc.code| < |b.list|
  {
    a.(list := a.list + Fill(b.list[|a.list| + |x.gc.code| := Wide(OP_JUMP_NOT_TRUTHY, b.size)][|a.list|..], b.size,
      PLACEHOLDER),
       size := b.size, consts := b.consts, ctx := b.ctx)
  }

  /** The whole statement. `s1` is the state before the loop proper, `s2` inside it, and `s6`
      before its jumps are patched. */
  lemma ForFirstBad(s: Stmt, a: Snapshot)
    requires s.For? && OfOpt(s.first, a.(ctx := Push(a.ctx))).Bad?
    ensures OfS(s, a).Bad?
  {
    assert OfS(s, a) == GenFor(s, a.ctx, a.size, |a.consts|, a.lp);
  }

  lemma ForGen(s: Stmt, a: Snapshot, s1: Snapshot, s2: Snapshot)
    requires s.For?
    requires Adds(a.(ctx := Push(a.ctx)), s1, OfOpt(s.first, a.(ctx := Push(a.ctx))))
    requires s2 == s1.(from := s2.from, done := s2.done, outer := s2.outer, lp := InLoop(s.post.Some?, s1.size))
    ensures LoopGens(s, s2).None? ==> OfS(s, a).Bad?
    ensures LoopGens(s, s2).Some? ==> var x := LoopGens(s, s2).value;
      OfS(s, a) == JoinFor(a.size, s.post.Some?, OfOpt(s.first, a.(ctx := Push(a.ctx))), x.gc, x.gb, x.gp)
  {
    var gi := OfOpt(s.first, a.(ctx := Push(a.ctx)));
    assert OfS(s, a) == GenFor(s, a.ctx, a.size, |a.consts|, a.lp);
    assert s2.size == a.size + gi.size && |s2.consts| == |a.consts| + |gi.consts| && s2.ctx == gi.ctx;
  }

  lemma AddsFor(a: Snapshot, s1: Snapshot, s2: Snapshot, s6: Snapshot, s7: Snapshot, hasPost: bool, gi: Gen,
          x: LoopParts)
    requires Adds(a.(ctx := Push(a.ctx)), s1, gi)
    requires s2.list == s1.list && s2.size == s1.size && s2.consts == s1.consts && LoopDone(s2, s6, hasPost, x, s6.done)
    requires x.gp.ctx.scopes != [] && |s1.list| + |x.gc.code| < |s6.list|
    requires s7 == LoopClosed(s1, s6, x).(ctx := PopScope(s6.ctx))
    ensures Adds(a, More(More(s7, Plain(OP_NULL)), Plain(OP_POP)), JoinFor(a.size, hasPost, gi, x.gc, x.gb, x.gp))
  {
    var (gc, gb, gp, cont) := (x.gc, x.gb, x.gp, ContinueTo(hasPost, s1.size, x));
    var j', back := Wide(OP_JUMP_NOT_TRUTHY, s6.size), Wide(OP_JUMP, s1.size);
    var inner := FillKind(gc.code + [OVER] + gb.code, false, cont) + gp.code + [back];
    LoopCode(gc.code, OVER, gb.code, gp.code, back, j', s6.size, cont);
    assert s6.list[|s1.list| + |gc.code| := j'][|s1.list|..] == inner[|gc.code| := j'];
    var filled := Fill(inner[|gc.code| := j'], s6.size, PLACEHOLDER);
    FilledDirect(inner[|gc.code| := j'], s6.size, PLACEHOLDER);
    var g := Gen(filled, s6.size - s1.size, gc.consts + (gb.consts + gp.consts), PopScope(gp.ctx));
    assert Adds(s1, s7, g);
    AddsThen(s1, s7, More(s7, Plain(OP_NULL)), g, Plain(OP_NULL));
    AddsThen(s1, More(s7, Plain(OP_NULL)), More(More(s7, Plain(OP_NULL)), Plain(OP_POP)), Then(g, Plain(OP_NULL)),
      Plain(OP_POP));
    var h := Then(Then(g, Plain(OP_NULL)), Plain(OP_POP));
    AddsJoin(a.(ctx := Push(a.ctx)), s1, More(More(s7, Plain(OP_NULL)), Plain(OP_POP)), gi, h);
    LoopTail(Fill(gc.code, s6.size, cont), j', Fill(gb.code, s6.size, cont), Fill(gp.code, s6.size, PLACEHOLDER), back);
  }

  lemma LoopTail(c: seq<Ins>, j: Ins, b: seq<Ins>, p: seq<Ins>, back: Ins)
    ensures (c + ([j] + (b + (p + [back])))) + [Plain(OP_NULL)] + [Plain(OP_POP)]
      == c + ([j] + (b + (p + [back, Plain(OP_NULL), Plain(OP_POP)])))
  {
  }

  // ---------- entering and leaving a loop ----------

  lemma EnterCoded(bytes: seq<byte>, list: seq<Ins>, loops: seq<LoopContext>, l: LoopContext)
    requires bytes == Encode(list) && l.breakPositions == [] && l.continuePositions == []
    ensures Coded(bytes, list, |list|, [], loops + [l])
  {
    assert list[|list|..] == [];
  }

  lemma {:induction false} HolesOther(c: seq<Ins>, t: nat, base: nat)
    ensures HolePos(FillKind(c, false, t), true, base) == HolePos(c, true, base)
    decreases |c|
  {
    if c != [] {
      assert FillKind(c, false, t)[1..] == FillKind(c[1..], false, t);
      HolesOther(c[1..], t, base + SizeOf(c[0]));
    }
  }

  /** After the continues are patched, the loop still knows its breaks. */
  lemma ContinuesCoded(bytes: seq<byte>, list: seq<Ins>, from: nat, loops: seq<LoopContext>, list': seq<Ins>, t: nat)
    requires from <= |list| && loops != [] && Recorded(loops[|loops| - 1], list, from, [])
    requires list' == list[..from] + FillKind(list[from..], false, t) && bytes == Encode(list')
    ensures Coded(bytes, list', from, loops[|loops| - 1].continuePositions, loops)
  {
    var c := FillKind(list[from..], false, t);
    assert list'[..from] == list[..from] && list'[from..] == c;
    HolesOther(list[from..], t, Size(list[..from]));
    NoHolePos(c, false, Size(list[..from]));
  }

  /** Code without open exits leaves the positions recorded for the loop around as they are. */
  lemma LeaveCoded(bytes: seq<byte>, before: seq<Ins>, c: seq<Ins>, from: nat, done: seq<nat>, loops: seq<LoopContext>,
          brk: nat)
    requires Coded(Encode(before), before, from, done, loops)
    requires bytes == Encode(before + Fill(c, brk, PLACEHOLDER))
    ensures Coded(bytes, before + Fill(c, brk, PLACEHOLDER), from, done, loops)
  {
    if loops != [] {
      var f := Fill(c, brk, PLACEHOLDER);
      forall i | 0 <= i < |f| ensures !f[i].BreakHole? && !f[i].ContinueHole? { FillNth(c, brk, PLACEHOLDER, i); }
      NoHolePos(f, true, Size(before));
      NoHolePos(f, false, Size(before));
      var l := loops[|loops| - 1];
      assert l.breakPositions + [] == l.breakPositions && l.continuePositions + [] == l.continuePositions;
      RecordedMore(l, before, from, done, f, l);
    }
  }

  /** A continue that was never patched encodes like a jump to the placeholder. */
  lemma {:induction false} EncodeRelabelled(c: seq<Ins>)
    ensures Encode(FillKind(c, false, PLACEHOLDER)) == Encode(c)
    decreases |c|
  {
    if c != [] {
      assert FillKind(c, false, PLACEHOLDER)[1..] == FillKind(c[1..], false, PLACEHOLDER);
      EncodeRelabelled(c[1..]);
    } else {
      assert FillKind(c, false, PLACEHOLDER) == [];
    }
  }

  /** The breaks patched and leftover continues seen as jumps to the placeholder. */
  lemma BreaksEncoded(before: seq<Ins>, c: seq<Ins>, t: nat)
    ensures Encode(before + FillKind(c, true, t)) == Encode(before + Fill(c, t, PLACEHOLDER))
  {
    FillByKind(c, t, PLACEHOLDER);
    var x := FillKind(c, true, t);
    assert FillKind(x, false, PLACEHOLDER) == FillKind(FillKind(c, false, PLACEHOLDER), true, t);
    EncodeRelabelled(x);
    EncodeAppend(before, x);
    EncodeAppend(before, Fill(c, t, PLACEHOLDER));
  }
}
