/** A continue in the post clause of a loop is compiled after the continues of the loop were
    patched, and keeps its placeholder. In finished code every other jump leads to an
    instruction: which programs are left with such a jump, and which are not. */
module Unpatched {
  import opened Language
  import opened Typing
  import opened Bytecode
  import opened Codegen
  import opened Scoping
  import opened Patching
  import opened PostClause
  import opened Slots
  import opened Preservation

  // ---------- the programs ----------

  /** Some loop, at any depth, has a post clause with a continue of that loop. */
  predicate LostE(e: Expr)
  {
    match e
    case Prefix(_, r) => LostE(r)
    case Infix(_, l, r) => LostE(l) || LostE(r)
    case If(c, a, b, _) => LostE(c) || LostB(a) || (b.Some? && LostB(b.value))
    case _ => false
  }

  predicate LostB(b: Block) { b.Seq? && (LostS(b.head) || LostB(b.tail)) }

  predicate LostO(s: Option<Stmt>) { s.Some? && LostS(s.value) }

  predicate LostS(s: Stmt)
  {
    match s
    case ExprStmt(e) => LostE(e)
    case VarDecl(_, _, _, i) => i.Some? && LostE(i.value)
    case Assign(_, e) => LostE(e)
    case For(f, c, p, b) => LostO(f) || LostE(c) || LostB(b) || LostO(p) || (p.Some? && ContinuesS(p.value))
    case _ => false
  }

  // ---------- jumps and instruction boundaries ----------

  predicate IsJump(i: Ins) { i.Wide? && (i.op == OP_JUMP || i.op == OP_JUMP_NOT_TRUTHY) }

  /** Where the instructions of `c`, placed at `pos`, begin and end. */
  function Bounds(c: seq<Ins>, pos: nat): set<nat>
    decreases |c|
  {
    if c == [] then {pos} else {pos} + Bounds(c[1..], pos + SizeOf(c[0]))
  }

  /** Every jump leads to one of `ts`. */
  ghost predicate Leads(c: seq<Ins>, ts: set<nat>) { forall i :: 0 <= i < |c| && IsJump(c[i]) ==> c[i].n in ts }

  lemma {:induction false} BoundsAppend(a: seq<Ins>, b: seq<Ins>, pos: nat, p1: nat)
    requires p1 == pos + Size(a)
    ensures Bounds(a + b, pos) == Bounds(a, pos) + Bounds(b, p1)
    decreases |a|
  {
    if a == [] {
      assert a + b == b;
      BoundsEnds(b, pos);
    } else {
      assert (a + b)[0] == a[0] && (a + b)[1..] == a[1..] + b;
      BoundsAppend(a[1..], b, pos + SizeOf(a[0]), p1);
    }
  }

  lemma {:induction false} BoundsEnds(c: seq<Ins>, pos: nat)
    ensures pos in Bounds(c, pos) && pos + Size(c) in Bounds(c, pos)
    decreases |c|
  {
    if c != [] { BoundsEnds(c[1..], pos + SizeOf(c[0])); }
  }

  lemma {:induction false} BoundsInside(c: seq<Ins>, pos: nat)
    ensures forall t :: t in Bounds(c, pos) ==> pos <= t <= pos + Size(c)
    decreases |c|
  {
    if c != [] { BoundsInside(c[1..], pos + SizeOf(c[0])); }
  }

  lemma {:induction false} BoundsFill(c: seq<Ins>, pos: nat, brk: nat, cont: nat)
    ensures Bounds(Fill(c, brk, cont), pos) == Bounds(c, pos)
    decreases |c|
  {
    if c != [] {
      assert Fill(c, brk, cont)[1..] == Fill(c[1..], brk, cont) && Fill(c, brk, cont)[0] == Fill1(c[0], brk, cont);
      BoundsFill(c[1..], pos + SizeOf(c[0]), brk, cont);
    } else {
      assert Fill(c, brk, cont) == [];
    }
  }

  lemma Within(a: seq<Ins>, b: seq<Ins>, pos: nat, p1: nat, ts: set<nat>)
    requires p1 == pos + Size(a) && ts >= Bounds(a + b, pos)
    ensures ts >= Bounds(a, pos) && ts >= Bounds(b, p1)
  {
    BoundsAppend(a, b, pos, p1);
  }

  lemma LeadsAppend(a: seq<Ins>, b: seq<Ins>, ts: set<nat>)
    requires Leads(a, ts) && Leads(b, ts)
    ensures Leads(a + b, ts)
  {
  }

  lemma LeadsMore(c: seq<Ins>, ts: set<nat>, ts': set<nat>)
    requires Leads(c, ts) && ts <= ts'
    ensures Leads(c, ts')
  {
  }

  lemma LeadsOne(i: Ins, ts: set<nat>)
    requires IsJump(i) ==> i.n in ts
    ensures Leads([i], ts)
  {
  }

  lemma LeadsFill(c: seq<Ins>, brk: nat, cont: nat, ts: set<nat>)
    requires Leads(c, ts) && brk in ts && (Open(c) ==> cont in ts)
    ensures Leads(Fill(c, brk, cont), ts)
  {
    forall i | 0 <= i < |c| && IsJump(Fill(c, brk, cont)[i]) ensures Fill(c, brk, cont)[i].n in ts {
      FillNth(c, brk, cont, i);
    }
  }

  lemma DropBounds(c: seq<Ins>, pos: nat)
    ensures Bounds(DropPop(c), pos) <= Bounds(c, pos)
  {
    if DropPop(c) != c {
      var a := DropPop(c);
      assert c == a + [Plain(OP_POP)];
      BoundsAppend(a, [Plain(OP_POP)], pos, pos + Size(a));
    }
  }

  lemma DropLeads(c: seq<Ins>, ts: set<nat>)
    requires Leads(c, ts)
    ensures Leads(DropPop(c), ts)
  {
  }

  // ---------- fragments ----------

  /** A continue of a loop without post clause leads straight to its condition. */
  function Around(lp: Loop): set<nat> { if lp.InLoop? && !lp.hasPost then {lp.condPos} else {} }

  /** The jumps of the fragment lead to its own boundaries, or to the condition of the loop
      around. */
  ghost predicate Inside(g: Gen, pos: nat, lp: Loop) { g.Gen? ==> Leads(g.code, Bounds(g.code, pos) + Around(lp)) }

  /** As above, and no jump leads behind a last pop, which may be cut off. */
  ghost predicate InsideS(g: Gen, pos: nat, lp: Loop)
  {
    g.Gen? ==> Leads(g.code, Bounds(DropPop(g.code), pos) + Around(lp))
  }

  lemma InsideBoth(g: Gen, pos: nat, lp: Loop)
    requires InsideS(g, pos, lp)
    ensures Inside(g, pos, lp)
  {
    if g.Gen? {
      DropBounds(g.code, pos);
      LeadsMore(g.code, Bounds(DropPop(g.code), pos) + Around(lp), Bounds(g.code, pos) + Around(lp));
    }
  }

  lemma InsideJoin(g: Gen, h: Gen, pos: nat, p1: nat, lp: Loop)
    requires g.Gen? && h.Gen? && Inside(g, pos, lp) && Inside(h, p1, lp) && p1 == pos + Size(g.code)
    ensures Inside(Join(g, h), pos, lp)
  {
    hide Bounds, Leads;
    BoundsAppend(g.code, h.code, pos, p1);
    var ts := Bounds(g.code + h.code, pos) + Around(lp);
    LeadsMore(g.code, Bounds(g.code, pos) + Around(lp), ts);
    LeadsMore(h.code, Bounds(h.code, p1) + Around(lp), ts);
    LeadsAppend(g.code, h.code, ts);
  }

  lemma InsideJoinS(g: Gen, h: Gen, pos: nat, p1: nat, lp: Loop)
    requires g.Gen? && h.Gen? && InsideS(g, pos, lp) && InsideS(h, p1, lp) && p1 == pos + Size(g.code)
    ensures InsideS(Join(g, h), pos, lp)
  {
    hide Bounds, Leads, Size;
    if h.code == [] {
      assert g.code + h.code == g.code;
    } else {
      InsideBoth(g, pos, lp);
      var d := DropPop(h.code);
      assert DropPop(g.code + h.code) == g.code + d;
      BoundsAppend(g.code, d, pos, p1);
      var ts := Bounds(g.code + d, pos) + Around(lp);
      LeadsMore(g.code, Bounds(g.code, pos) + Around(lp), ts);
      LeadsMore(h.code, Bounds(d, p1) + Around(lp), ts);
      LeadsAppend(g.code, h.code, ts);
    }
  }

  /** One more instruction that is no jump. */
  lemma InsideThen(g: Gen, i: Ins, pos: nat, lp: Loop)
    requires g.Gen? && Inside(g, pos, lp) && !IsJump(i)
    ensures Inside(Then(g, i), pos, lp) && InsideS(Then(g, i), pos, lp)
  {
    hide Bounds, Leads, Size;
    var c := g.code + [i];
    BoundsAppend(g.code, [i], pos, pos + Size(g.code));
    LeadsMore(g.code, Bounds(g.code, pos) + Around(lp), Bounds(c, pos) + Around(lp));
    LeadsOne(i, Bounds(c, pos) + Around(lp));
    LeadsAppend(g.code, [i], Bounds(c, pos) + Around(lp));
    if i == Plain(OP_POP) {
      assert DropPop(c) == g.code;
      LeadsOne(i, Bounds(g.code, pos) + Around(lp));
      LeadsAppend(g.code, [i], Bounds(g.code, pos) + Around(lp));
    } else {
      assert DropPop(c) == c;
    }
  }

  lemma Single(i: Ins, pos: nat, lp: Loop)
    requires IsJump(i) ==> i.n in Around(lp)
    requires i != Plain(OP_POP)
    ensures Leads([i], Bounds([i], pos) + Around(lp)) && DropPop([i]) == [i]
  {
  }

  // ---------- every jump of a program that is not lost leads to an instruction ----------

  lemma {:induction false} InsideE(e: Expr, c: Ctx, pos: nat, k: nat, lp: Loop)
    requires !LostE(e)
    ensures Inside(GenE(e, c, pos, k, lp), pos, lp)
    decreases e, 1
  {
    match e
    case IntLit(_) => Single(Wide(OP_CONSTANT, k), pos, lp);
    case BoolLit(b) => Single(Plain(if b then OP_TRUE else OP_FALSE), pos, lp);
    case Ident(x) => if Resolve(c.scopes, x).Some? { Single(GetIns(c, Resolve(c.scopes, x).value.index), pos, lp); }
    case Prefix(op, r) =>
      InsideE(r, c, pos, k, lp);
      var g := GenE(r, c, pos, k, lp);
      if g.Gen? { InsideThen(g, PrefixIns(op), pos, lp); }
    case Infix(_, _, _) => InsideInfix(e, c, pos, k, lp);
    case If(_, _, _, _) =>
      assert GenE(e, c, pos, k, lp) == GenIf(e, c, pos, k, lp);
      InsideIf(e, c, pos, k, lp);
  }

  lemma {:induction false} InsideInfix(e: Expr, c: Ctx, pos: nat, k: nat, lp: Loop)
    requires e.Infix? && !LostE(e)
    ensures Inside(GenE(e, c, pos, k, lp), pos, lp)
    decreases e, 0
  {
    if GenE(e, c, pos, k, lp).Bad? { return; }
    hide GenE, SlotsE, Inside;
    var x, y, g, h, p1, k1 := InfixPieces(e, c, pos, k, lp);
    InsideE(x, c, pos, k, lp);
    InsideE(y, g.ctx, p1, k1, lp);
    SizedE(x, c, pos, k, lp);
    InsideJoin(g, h, pos, p1, lp);
    InsideThen(Join(g, h), InfixIns(e.op), pos, lp);
  }

  lemma BranchLeads(unit: bool, g: Gen, pos: nat, lp: Loop)
    requires g.Gen? && InsideS(g, pos, lp)
    ensures var c := BranchCode(unit, g.code); Leads(c, Bounds(c, pos) + Around(lp))
  {
    if unit {
      InsideBoth(g, pos, lp);
      InsideThen(g, Plain(OP_NULL), pos, lp);
    } else {
      DropLeads(g.code, Bounds(DropPop(g.code), pos) + Around(lp));
    }
  }

  /** Four pieces, two jumps between them. */
  lemma IfBounds(g: seq<Ins>, i: Ins, a: seq<Ins>, j: Ins, b: seq<Ins>, pos: nat, p1: nat, p2: nat, ts: set<nat>)
    requires SizeOf(i) == 3 && SizeOf(j) == 3 && p1 == pos + Size(g) + 3 && p2 == p1 + Size(a) + 3
    requires ts >= Bounds(g + ([i] + (a + ([j] + b))), pos)
    ensures Bounds(g, pos) <= ts && Bounds(a, p1) <= ts && Bounds(b, p2) <= ts && p2 in ts && p2 + Size(b) in ts
  {
    hide Bounds, Size;
    Size1(i);
    Size1(j);
    Within(g, [i] + (a + ([j] + b)), pos, p1 - 3, ts);
    Within([i], a + ([j] + b), p1 - 3, p1, ts);
    Within(a, [j] + b, p1, p2 - 3, ts);
    Within([j], b, p2 - 3, p2, ts);
    BoundsEnds(b, p2);
  }

  lemma InsideJoinIf(unit: bool, hasAlt: bool, pos: nat, g: Gen, ga: Gen, gb: Gen, lp: Loop)
    requires g.Gen? && ga.Gen? && gb.Gen? && Sized(g) && Sized(ga) && Sized(gb) && Inside(g, pos, lp)
    requires InsideS(ga, pos + g.size + 3, lp)
    requires var p2 := pos + g.size + 3 + BranchSize(unit, ga) + 3;
      if hasAlt then InsideS(gb, p2, lp) else Inside(gb, p2, lp)
    ensures Inside(JoinIf(unit, hasAlt, pos, g, ga, gb), pos, lp)
  {
    hide Bounds, Leads, Size;
    var a, b := BranchCode(unit, ga.code), if hasAlt then BranchCode(unit, gb.code) else gb.code;
    var sizeB := if hasAlt then BranchSize(unit, gb) else gb.size;
    var p1 := pos + g.size + 3;
    var p2 := p1 + BranchSize(unit, ga) + 3;
    var i, j := Wide(OP_JUMP_NOT_TRUTHY, p2), Wide(OP_JUMP, p2 + sizeB);
    var all := g.code + ([i] + (a + ([j] + b)));
    var ts := Bounds(all, pos) + Around(lp);
    SizedBranch(unit, ga);
    SizedBranch(unit, gb);
    IfBounds(g.code, i, a, j, b, pos, p1, p2, ts);
    BranchLeads(unit, ga, p1, lp);
    if hasAlt { BranchLeads(unit, gb, p2, lp); }
    LeadsMore(g.code, Bounds(g.code, pos) + Around(lp), ts);
    LeadsMore(a, Bounds(a, p1) + Around(lp), ts);
    LeadsMore(b, Bounds(b, p2) + Around(lp), ts);
    LeadsOne(i, ts);
    LeadsOne(j, ts);
    LeadsAppend([j], b, ts);
    LeadsAppend(a, [j] + b, ts);
    LeadsAppend([i], a + ([j] + b), ts);
    LeadsAppend(g.code, [i] + (a + ([j] + b)), ts);
  }

  lemma {:induction false} InsideIf(e: Expr, c: Ctx, pos: nat, k: nat, lp: Loop)
    requires e.If? && !LostE(e)
    ensures Inside(GenIf(e, c, pos, k, lp), pos, lp)
    decreases e, 0
  {
    if GenIf(e, c, pos, k, lp).Bad? { return; }
    hide GenIf, GenE, GenStmts, GenBlock, BranchSize, JoinIf, Inside, InsideS, Sized, Around;
    var g, ga, gb, p1, k1, p2, k2 := IfPieces(e, c, pos, k, lp);
    InsideE(e.cond, c, pos, k, lp);
    InsideBlock(e.cons, g.ctx, p1, k1, lp);
    if e.alt.Some? { InsideBlock(e.alt.value, ga.ctx, p2, k2, lp); } else { NullAlone(gb, p2, lp); }
    hide LostE, LostB;
    InsideArms(e, c, pos, k, lp, g, ga, gb, p1, k1, p2, k2);
  }

  /** An `if` is made of its parts. */
  lemma InsideArms(e: Expr, c: Ctx, pos: nat, k: nat, lp: Loop, g: Gen, ga: Gen, gb: Gen, p1: nat, k1: nat, p2: nat,
          k2: nat)
    requires e.If? && g == GenE(e.cond, c, pos, k, lp) && g.Gen? && p1 == pos + g.size + 3
      && ga == GenBlock(e.cons, g.ctx, p1, k1, lp) && ga.Gen?
    requires p2 == p1 + BranchSize(e.unit, ga) + 3 && gb.Gen?
    requires gb == match e.alt case None => Gen([Plain(OP_NULL)], 1, [], ga.ctx)
      case Some(b) => GenBlock(b, ga.ctx, p2, k2, lp)
    requires Inside(g, pos, lp) && InsideS(ga, p1, lp)
      && if e.alt.Some? then InsideS(gb, p2, lp) else Inside(gb, p2, lp)
    ensures Inside(JoinIf(e.unit, e.alt.Some?, pos, g, ga, gb), pos, lp)
  {
    hide GenE, GenStmts, GenBlock, BranchSize, JoinIf, Inside, InsideS, Sized, Around;
    SizedE(e.cond, c, pos, k, lp);
    SizedBlock(e.cons, g.ctx, p1, k1, lp);
    if e.alt.Some? { SizedBlock(e.alt.value, ga.ctx, p2, k2, lp); } else { NullAlone(gb, p2, lp); }
    InsideJoinIf(e.unit, e.alt.Some?, pos, g, ga, gb, lp);
  }

  lemma NullAlone(g: Gen, pos: nat, lp: Loop)
    requires g.Gen? && g.code == [Plain(OP_NULL)] && g.size == 1
    ensures Inside(g, pos, lp) && Sized(g)
  {
    Single(Plain(OP_NULL), pos, lp);
    Size1(Plain(OP_NULL));
  }

  lemma {:induction false} InsideBlock(b: Block, c: Ctx, pos: nat, k: nat, lp: Loop)
    requires !LostB(b)
    ensures InsideS(GenBlock(b, c, pos, k, lp), pos, lp)
    decreases b, 1
  {
    InsideB(b, Push(c), pos, k, lp);
  }

  lemma {:induction false} InsideB(b: Block, c: Ctx, pos: nat, k: nat, lp: Loop)
    requires !LostB(b)
    ensures InsideS(GenStmts(b, c, pos, k, lp), pos, lp)
    decreases b, 0
  {
    hide GenE, GenS, GenIf, GenFor, GenBlock, Size, Bounds, Leads, Sized, Around, LostS, InsideS;
    if b.Empty? {
      NoCode(Gen([], 0, [], c), pos, lp);
    } else {
      InsideSt(b.head, c, pos, k, lp);
      SizedS(b.head, c, pos, k, lp);
      var g := GenS(b.head, c, pos, k, lp);
      if g.Gen? {
        InsideB(b.tail, g.ctx, pos + g.size, k + |g.consts|, lp);
        var h := GenStmts(b.tail, g.ctx, pos + g.size, k + |g.consts|, lp);
        if h.Gen? { InsideJoinS(g, h, pos, pos + g.size, lp); } else { BadInside(pos, lp); }
      } else {
        BadInside(pos, lp);
      }
    }
  }

  lemma NoCode(g: Gen, pos: nat, lp: Loop)
    requires g.Gen? && g.code == []
    ensures InsideS(g, pos, lp)
  {
  }

  lemma BadInside(pos: nat, lp: Loop)
    ensures InsideS(Bad, pos, lp)
  {
  }

  lemma {:induction false} InsideO(s: Option<Stmt>, c: Ctx, pos: nat, k: nat, lp: Loop)
    requires !LostO(s)
    ensures InsideS(GenOpt(s, c, pos, k, lp), pos, lp)
    decreases s, 2
  {
    if s.Some? { InsideSt(s.value, c, pos, k, lp); } else { NoCode(Gen([], 0, [], c), pos, lp); }
  }

  lemma {:induction false} InsideSt(s: Stmt, c: Ctx, pos: nat, k: nat, lp: Loop)
    requires !LostS(s)
    ensures InsideS(GenS(s, c, pos, k, lp), pos, lp)
    decreases s, 1
  {
    match s
    case ExprStmt(e) =>
      InsideE(e, c, pos, k, lp);
      if GenE(e, c, pos, k, lp).Gen? { InsideThen(GenE(e, c, pos, k, lp), Plain(OP_POP), pos, lp); }
    case VarDecl(constant, _, ty, init) => InsideDecl(s, c, pos, k, lp);
    case Assign(x, e) =>
      InsideE(e, c, pos, k, lp);
      var g := GenE(e, c, pos, k, lp);
      if GenS(s, c, pos, k, lp).Gen? {
        InsideThen(g, SetIns(g.ctx, Resolve(g.ctx.scopes, x).value.index, false), pos, lp);
      }
    case For(_, _, _, _) =>
      assert GenS(s, c, pos, k, lp) == GenFor(s, c, pos, k, lp);
      InsideFor(s, c, pos, k, lp);
    case Break => Single(BreakHole, pos, lp);
    case Continue => if lp.InLoop? { Single(if lp.hasPost then ContinueHole else Wide(OP_JUMP, lp.condPos), pos, lp); }
  }

  lemma {:induction false} InsideDecl(s: Stmt, c: Ctx, pos: nat, k: nat, lp: Loop)
    requires s.VarDecl? && !LostS(s)
    ensures InsideS(GenS(s, c, pos, k, lp), pos, lp)
    decreases s, 0
  {
    if GenS(s, c, pos, k, lp).Bad? { return; }
    var g := GenInit(s.init, s.ty, c, pos, k, lp);
    if s.init.Some? { InsideE(s.init.value, c, pos, k, lp); } else { Single(g.code[0], pos, lp); }
    assert Inside(g, pos, lp);
    InsideThen(g, SetIns(g.ctx, g.ctx.next, s.constant), pos, lp);
  }

  // ---------- loops ----------

  /** The boundaries of a loop's code contain those of its parts and its own targets. */
  lemma ForBounds(i: seq<Ins>, c: seq<Ins>, j: Ins, b: seq<Ins>, p: seq<Ins>, back: Ins, pos: nat, p1: nat, q: nat,
          p2: nat, p3: nat, p4: nat, ts: set<nat>)
    requires SizeOf(j) == 3 && SizeOf(back) == 3 && p1 == pos + Size(i) && q == p1 + Size(c) && p2 == q + 3
      && p3 == p2 + Size(b) && p4 == p3 + Size(p)
    requires ts >= Bounds(i + (c + ([j] + (b + (p + [back, Plain(OP_NULL)])))), pos)
    ensures Bounds(i, pos) <= ts && Bounds(c, p1) <= ts && Bounds(b, p2) <= ts && Bounds(p, p3) <= ts && p1 in ts
      && p3 in ts && p4 + 3 in ts
  {
    hide Bounds, Size;
    var rest := b + (p + [back, Plain(OP_NULL)]);
    HeadBounds(i, c, j, rest, pos, p1, q, p2, ts);
    EndBounds(b, p, back, p2, p3, p4, ts);
  }

  lemma HeadBounds(i: seq<Ins>, c: seq<Ins>, j: Ins, rest: seq<Ins>, pos: nat, p1: nat, q: nat, p2: nat, ts: set<nat>)
    requires SizeOf(j) == 3 && p1 == pos + Size(i) && q == p1 + Size(c) && p2 == q + 3
      && ts >= Bounds(i + (c + ([j] + rest)), pos)
    ensures Bounds(i, pos) <= ts && Bounds(c, p1) <= ts && Bounds(rest, p2) <= ts && p1 in ts
  {
    hide Bounds, Size;
    Size1(j);
    Within(i, c + ([j] + rest), pos, p1, ts);
    Within(c, [j] + rest, p1, q, ts);
    Within([j], rest, q, p2, ts);
    BoundsEnds(c, p1);
  }

  lemma EndBounds(b: seq<Ins>, p: seq<Ins>, back: Ins, p2: nat, p3: nat, p4: nat, ts: set<nat>)
    requires SizeOf(back) == 3 && p3 == p2 + Size(b) && p4 == p3 + Size(p)
      && ts >= Bounds(b + (p + [back, Plain(OP_NULL)]), p2)
    ensures Bounds(b, p2) <= ts && Bounds(p, p3) <= ts && p3 in ts && p4 + 3 in ts
  {
    hide Bounds, Size;
    var tail := [back, Plain(OP_NULL)];
    Within(b, p + tail, p2, p3, ts);
    Within(p, tail, p3, p4, ts);
    TailBounds(back, p4);
    BoundsEnds(p, p3);
  }

  lemma TailBounds(back: Ins, pos: nat)
    requires SizeOf(back) == 3
    ensures pos + 3 in Bounds([back, Plain(OP_NULL)], pos)
  {
    assert [back, Plain(OP_NULL)][1..] == [Plain(OP_NULL)];
  }

  /** Patching a part of the loop. */
  lemma PartLeads(c: seq<Ins>, pos: nat, near: set<nat>, brk: nat, cont: nat, ts: set<nat>)
    requires Leads(c, Bounds(c, pos) + near) && Bounds(Fill(c, brk, cont), pos) <= ts && near <= ts && brk in ts
      && (Open(c) ==> cont in ts)
    ensures Leads(Fill(c, brk, cont), ts)
  {
    hide Bounds, Leads, Fill, Open;
    BoundsFill(c, pos, brk, cont);
    LeadsMore(c, Bounds(c, pos) + near, ts);
    LeadsFill(c, brk, cont, ts);
  }

  lemma InsideJoinFor(pos: nat, hasPost: bool, gi: Gen, gc: Gen, gb: Gen, gp: Gen, p1: nat, p2: nat, p3: nat, lp: Loop)
    requires gi.Gen? && gc.Gen? && gb.Gen? && gp.Gen? && gp.ctx.scopes != [] && Sized(gi) && Sized(gc) && Sized(gb)
      && Sized(gp)
    requires p1 == pos + gi.size && p2 == p1 + gc.size + 3 && p3 == p2 + gb.size && Inside(gi, pos, lp)
    requires var inner := InLoop(hasPost, p1); Inside(gc, p1, inner) && Inside(gb, p2, inner) && Inside(gp, p3, inner)
    requires !Open(gp.code)
    ensures InsideS(JoinFor(pos, hasPost, gi, gc, gb, gp), pos, lp)
  {
    hide Bounds, Leads, Size, Fill, Open;
    var p4 := p3 + gp.size;
    var escape, cont := p4 + 3, if hasPost then p3 else p1;
    var (c, b, p) := (Fill(gc.code, escape, cont), Fill(gb.code, escape, cont), Fill(gp.code, escape, PLACEHOLDER));
    var j, back := Wide(OP_JUMP_NOT_TRUTHY, escape), Wide(OP_JUMP, p1);
    var most := gi.code + (c + ([j] + (b + (p + [back, Plain(OP_NULL)]))));
    FillSize(gc.code, escape, cont);
    FillSize(gb.code, escape, cont);
    FillSize(gp.code, escape, PLACEHOLDER);
    LoopInside(gi.code, gc.code, gb.code, gp.code, c, b, p, j, back, pos, p1, p1 + gc.size, p2, p3, p4, cont,
      Around(InLoop(hasPost, p1)), Around(lp), Bounds(most, pos) + Around(lp));
    LoopCode(gi.code, c, j, b, p, back);
  }

  /** The pop at the end of a loop can be cut off. */
  lemma LoopCode(i: seq<Ins>, c: seq<Ins>, j: Ins, b: seq<Ins>, p: seq<Ins>, back: Ins)
    ensures var most := i + (c + ([j] + (b + (p + [back, Plain(OP_NULL)]))));
      DropPop(i + (c + ([j] + (b + (p + [back, Plain(OP_NULL), Plain(OP_POP)]))))) == most
  {
    var most := i + (c + ([j] + (b + (p + [back, Plain(OP_NULL)]))));
    assert i + (c + ([j] + (b + (p + [back, Plain(OP_NULL), Plain(OP_POP)])))) == most + [Plain(OP_POP)];
  }

  lemma LoopInside(i: seq<Ins>, cc: seq<Ins>, cb: seq<Ins>, cp: seq<Ins>, c: seq<Ins>, b: seq<Ins>, p: seq<Ins>, j: Ins,
          back: Ins, pos: nat, p1: nat, q: nat, p2: nat, p3: nat, p4: nat, cont: nat, near: set<nat>,
          around: set<nat>, ts: set<nat>)
    requires p1 == pos + Size(i) && q == p1 + Size(c) && p2 == q + 3 && p3 == p2 + Size(b) && p4 == p3 + Size(p)
      && near <= {p1} && cont in {p1, p3}
    requires c == Fill(cc, p4 + 3, cont) && b == Fill(cb, p4 + 3, cont) && p == Fill(cp, p4 + 3, PLACEHOLDER)
    requires j == Wide(OP_JUMP_NOT_TRUTHY, p4 + 3) && back == Wide(OP_JUMP, p1) && !Open(cp) && around <= ts
    requires Leads(i, Bounds(i, pos) + around) && Leads(cc, Bounds(cc, p1) + near) && Leads(cb, Bounds(cb, p2) + near)
      && Leads(cp, Bounds(cp, p3) + near)
    requires ts >= Bounds(i + (c + ([j] + (b + (p + [back, Plain(OP_NULL)])))), pos)
    ensures Leads(i + (c + ([j] + (b + (p + [back, Plain(OP_NULL), Plain(OP_POP)])))), ts)
  {
    hide Bounds, Leads, Size, Fill, Open;
    ForBounds(i, c, j, b, p, back, pos, p1, q, p2, p3, p4, ts);
    LeadsMore(i, Bounds(i, pos) + around, ts);
    PartLeads(cc, p1, near, p4 + 3, cont, ts);
    PartLeads(cb, p2, near, p4 + 3, cont, ts);
    PartLeads(cp, p3, near, p4 + 3, PLACEHOLDER, ts);
    LoopLeads(i, c, j, b, p, back, ts);
  }

  lemma LoopLeads(i: seq<Ins>, c: seq<Ins>, j: Ins, b: seq<Ins>, p: seq<Ins>, back: Ins, ts: set<nat>)
    requires Leads(i, ts) && Leads(c, ts) && Leads(b, ts) && Leads(p, ts) && IsJump(j) && j.n in ts && IsJump(back)
      && back.n in ts
    ensures Leads(i + (c + ([j] + (b + (p + [back, Plain(OP_NULL), Plain(OP_POP)])))), ts)
  {
    var tail := [back, Plain(OP_NULL), Plain(OP_POP)];
    LeadsAppend(p, tail, ts);
    LeadsAppend(b, p + tail, ts);
    LeadsAppend([j], b + (p + tail), ts);
    LeadsAppend(c, [j] + (b + (p + tail)), ts);
    LeadsAppend(i, c + ([j] + (b + (p + tail))), ts);
  }

  lemma {:induction false} InsideFor(s: Stmt, c: Ctx, pos: nat, k: nat, lp: Loop)
    requires s.For? && !LostS(s)
    ensures InsideS(GenFor(s, c, pos, k, lp), pos, lp)
    decreases s, 0
  {
    if GenFor(s, c, pos, k, lp).Bad? { return; }
    hide GenFor, GenE, GenStmts, GenS, GenBlock, GenOpt, JoinFor, Inside, InsideS, Sized, Open, LostE, LostB,
      Around, Marked;
    var gi, gc, gb, gp, m := Pieces(s, c, pos, k, lp);
    InsideO(s.first, Push(c), pos, k, lp);
    InsideE(s.test, gi.ctx, m.p1, m.k1, m.inner);
    InsideBlock(s.body, gc.ctx, m.p2, m.k2, m.inner);
    InsideO(s.post, gb.ctx, m.p3, m.k3, m.inner);
    InsideParts(s, c, pos, k, lp, gi, gc, gb, gp, m);
  }

  /** A loop is made of its parts. */
  lemma InsideParts(s: Stmt, c: Ctx, pos: nat, k: nat, lp: Loop, gi: Gen, gc: Gen, gb: Gen, gp: Gen, m: Marks)
    requires s.For? && (s.post.Some? ==> !ContinuesS(s.post.value)) && Marked(s, pos, k, gi, gc, gb, m)
      && gi == GenOpt(s.first, Push(c), pos, k, lp)
    requires gc == GenE(s.test, gi.ctx, m.p1, m.k1, m.inner) && gb == GenBlock(s.body, gc.ctx, m.p2, m.k2, m.inner)
    requires gp == GenOpt(s.post, gb.ctx, m.p3, m.k3, m.inner) && gp.Gen? && gp.ctx.scopes != []
    requires InsideS(gi, pos, lp) && Inside(gc, m.p1, m.inner) && InsideS(gb, m.p2, m.inner)
      && InsideS(gp, m.p3, m.inner)
    ensures InsideS(JoinFor(pos, s.post.Some?, gi, gc, gb, gp), pos, lp)
  {
    hide GenE, GenStmts, GenS, GenBlock, JoinFor, Inside, InsideS, Sized, Open, Around;
    InsideBoth(gi, pos, lp);
    InsideBoth(gb, m.p2, m.inner);
    InsideBoth(gp, m.p3, m.inner);
    SizedOpt(s.first, Push(c), pos, k, lp);
    SizedE(s.test, gi.ctx, m.p1, m.k1, m.inner);
    SizedBlock(s.body, gc.ctx, m.p2, m.k2, m.inner);
    SizedOpt(s.post, gb.ctx, m.p3, m.k3, m.inner);
    if s.post.Some? { OpenS(s.post.value, gb.ctx, m.p3, m.k3, m.inner); } else { NotOpen(gp.code); }
    InsideJoinFor(pos, s.post.Some?, gi, gc, gb, gp, m.p1, m.p2, m.p3, lp);
  }

  lemma NotOpen(c: seq<Ins>)
    requires c == []
    ensures !Open(c)
  {
  }

  // ---------- a lost program has a jump to the placeholder ----------

  ghost predicate HasLost(c: seq<Ins>) { exists i :: 0 <= i < |c| && c[i] == Wide(OP_JUMP, PLACEHOLDER) }

  lemma HasAppend(a: seq<Ins>, b: seq<Ins>)
    requires HasLost(a) || HasLost(b)
    ensures HasLost(a + b)
  {
    if HasLost(a) {
      var i :| 0 <= i < |a| && a[i] == Wide(OP_JUMP, PLACEHOLDER);
      assert (a + b)[i] == a[i];
    } else {
      var i :| 0 <= i < |b| && b[i] == Wide(OP_JUMP, PLACEHOLDER);
      assert (a + b)[|a| + i] == b[i];
    }
  }

  lemma HasBranch(unit: bool, c: seq<Ins>)
    requires HasLost(c)
    ensures HasLost(BranchCode(unit, c))
  {
    var i :| 0 <= i < |c| && c[i] == Wide(OP_JUMP, PLACEHOLDER);
    assert BranchCode(unit, c)[i] == c[i];
  }

  lemma HasFill(c: seq<Ins>, brk: nat, cont: nat)
    requires HasLost(c) || (Open(c) && cont == PLACEHOLDER)
    ensures HasLost(Fill(c, brk, cont))
  {
    if HasLost(c) {
      var i :| 0 <= i < |c| && c[i] == Wide(OP_JUMP, PLACEHOLDER);
      FillNth(c, brk, cont, i);
    } else {
      var i :| 0 <= i < |c| && c[i].ContinueHole?;
      FillNth(c, brk, cont, i);
    }
  }

  lemma {:induction false} KeptE(e: Expr, c: Ctx, pos: nat, k: nat, lp: Loop)
    requires LostE(e) && GenE(e, c, pos, k, lp).Gen?
    ensures HasLost(GenE(e, c, pos, k, lp).code)
    decreases e, 1
  {
    match e
    case Prefix(op, r) =>
      KeptE(r, c, pos, k, lp);
      HasAppend(GenE(r, c, pos, k, lp).code, [PrefixIns(op)]);
    case Infix(_, _, _) => KeptInfix(e, c, pos, k, lp);
    case If(_, _, _, _) =>
      assert GenE(e, c, pos, k, lp) == GenIf(e, c, pos, k, lp);
      KeptIf(e, c, pos, k, lp);
  }

  lemma {:induction false} KeptInfix(e: Expr, c: Ctx, pos: nat, k: nat, lp: Loop)
    requires e.Infix? && LostE(e) && GenE(e, c, pos, k, lp).Gen?
    ensures HasLost(GenE(e, c, pos, k, lp).code)
    decreases e, 0
  {
    hide GenE, SlotsE, HasLost;
    var x, y, g, h, p1, k1 := InfixPieces(e, c, pos, k, lp);
    if LostE(x) { KeptE(x, c, pos, k, lp); } else { KeptE(y, g.ctx, p1, k1, lp); }
    HasAppend(g.code, h.code);
    HasAppend(g.code + h.code, [InfixIns(e.op)]);
  }

  lemma HasIf(unit: bool, hasAlt: bool, pos: nat, g: Gen, ga: Gen, gb: Gen)
    requires g.Gen? && ga.Gen? && gb.Gen? && (HasLost(g.code) || HasLost(ga.code) || HasLost(gb.code))
    ensures HasLost(JoinIf(unit, hasAlt, pos, g, ga, gb).code)
  {
    hide HasLost;
    var a, b := BranchCode(unit, ga.code), if hasAlt then BranchCode(unit, gb.code) else gb.code;
    var sizeB := if hasAlt then BranchSize(unit, gb) else gb.size;
    var p2 := pos + g.size + 3 + BranchSize(unit, ga) + 3;
    var i, j := Wide(OP_JUMP_NOT_TRUTHY, p2), Wide(OP_JUMP, p2 + sizeB);
    if !HasLost(g.code) {
      if HasLost(ga.code) {
        HasBranch(unit, ga.code);
      } else {
        if hasAlt { HasBranch(unit, gb.code); }
        HasAppend([j], b);
      }
      HasAppend(a, [j] + b);
      HasAppend([i], a + ([j] + b));
    }
    HasAppend(g.code, [i] + (a + ([j] + b)));
  }

  lemma {:induction false} KeptIf(e: Expr, c: Ctx, pos: nat, k: nat, lp: Loop)
    requires e.If? && LostE(e) && GenIf(e, c, pos, k, lp).Gen?
    ensures HasLost(GenIf(e, c, pos, k, lp).code)
    decreases e, 0
  {
    hide GenIf, GenE, GenStmts, GenBlock, BranchSize, JoinIf, HasLost;
    var g, ga, gb, p1, k1, p2, k2 := IfPieces(e, c, pos, k, lp);
    if LostE(e.cond) { KeptE(e.cond, c, pos, k, lp); }
    else if LostB(e.cons) { KeptBlock(e.cons, g.ctx, p1, k1, lp); }
    else { KeptBlock(e.alt.value, ga.ctx, p2, k2, lp); }
    HasIf(e.unit, e.alt.Some?, pos, g, ga, gb);
  }

  lemma {:induction false} KeptBlock(b: Block, c: Ctx, pos: nat, k: nat, lp: Loop)
    requires LostB(b) && GenBlock(b, c, pos, k, lp).Gen?
    ensures HasLost(GenBlock(b, c, pos, k, lp).code)
    decreases b, 1
  {
    KeptB(b, Push(c), pos, k, lp);
  }

  lemma {:induction false} KeptB(b: Block, c: Ctx, pos: nat, k: nat, lp: Loop)
    requires LostB(b) && GenStmts(b, c, pos, k, lp).Gen?
    ensures HasLost(GenStmts(b, c, pos, k, lp).code)
    decreases b, 0
  {
    hide HasLost;
    var g := GenS(b.head, c, pos, k, lp);
    var h := GenStmts(b.tail, g.ctx, pos + g.size, k + |g.consts|, lp);
    if LostS(b.head) { KeptS(b.head, c, pos, k, lp); } else { KeptB(b.tail, g.ctx, pos + g.size, k + |g.consts|, lp); }
    HasAppend(g.code, h.code);
  }

  lemma {:induction false} KeptS(s: Stmt, c: Ctx, pos: nat, k: nat, lp: Loop)
    requires LostS(s) && GenS(s, c, pos, k, lp).Gen?
    ensures HasLost(GenS(s, c, pos, k, lp).code)
    decreases s, 1
  {
    match s
    case ExprStmt(e) =>
      KeptE(e, c, pos, k, lp);
      HasAppend(GenE(e, c, pos, k, lp).code, [Plain(OP_POP)]);
    case VarDecl(constant, _, _, init) =>
      KeptE(init.value, c, pos, k, lp);
      var g := GenE(init.value, c, pos, k, lp);
      HasAppend(g.code, [SetIns(g.ctx, g.ctx.next, constant)]);
    case Assign(x, e) =>
      KeptE(e, c, pos, k, lp);
      var g := GenE(e, c, pos, k, lp);
      HasAppend(g.code, [SetIns(g.ctx, Resolve(g.ctx.scopes, x).value.index, false)]);
    case For(_, _, _, _) =>
      assert GenS(s, c, pos, k, lp) == GenFor(s, c, pos, k, lp);
      KeptFor(s, c, pos, k, lp);
  }

  lemma HasFor(pos: nat, hasPost: bool, gi: Gen, gc: Gen, gb: Gen, gp: Gen)
    requires JoinFor(pos, hasPost, gi, gc, gb, gp).Gen?
    requires HasLost(gi.code) || HasLost(gc.code) || HasLost(gb.code) || HasLost(gp.code) || Open(gp.code)
    ensures HasLost(JoinFor(pos, hasPost, gi, gc, gb, gp).code)
  {
    hide HasLost, Open, Fill;
    var p1 := pos + gi.size;
    var p3 := p1 + gc.size + 3 + gb.size;
    var escape, cont := p3 + gp.size + 3, if hasPost then p3 else p1;
    var (c, b, p) := (Fill(gc.code, escape, cont), Fill(gb.code, escape, cont), Fill(gp.code, escape, PLACEHOLDER));
    var j, tail := Wide(OP_JUMP_NOT_TRUTHY, escape), [Wide(OP_JUMP, p1), Plain(OP_NULL), Plain(OP_POP)];
    if !HasLost(gi.code) {
      if HasLost(gc.code) {
        HasFill(gc.code, escape, cont);
      } else {
        if HasLost(gb.code) {
          HasFill(gb.code, escape, cont);
        } else {
          HasFill(gp.code, escape, PLACEHOLDER);
          HasAppend(p, tail);
        }
        HasAppend(b, p + tail);
        HasAppend([j], b + (p + tail));
      }
      HasAppend(c, [j] + (b + (p + tail)));
    }
    HasAppend(gi.code, c + ([j] + (b + (p + tail))));
  }

  lemma {:induction false} KeptO(s: Option<Stmt>, c: Ctx, pos: nat, k: nat, lp: Loop)
    requires LostO(s) && GenOpt(s, c, pos, k, lp).Gen?
    ensures HasLost(GenOpt(s, c, pos, k, lp).code)
    decreases s, 2
  {
    KeptS(s.value, c, pos, k, lp);
  }

  lemma {:induction false} KeptFor(s: Stmt, c: Ctx, pos: nat, k: nat, lp: Loop)
    requires s.For? && LostS(s) && GenFor(s, c, pos, k, lp).Gen?
    ensures HasLost(GenFor(s, c, pos, k, lp).code)
    decreases s, 0
  {
    hide GenFor, GenE, GenStmts, GenS, GenBlock, JoinFor, HasLost, Open;
    var gi, gc, gb, gp, m := Pieces(s, c, pos, k, lp);
    if LostO(s.first) { KeptO(s.first, Push(c), pos, k, lp); }
    else if LostE(s.test) { KeptE(s.test, gi.ctx, m.p1, m.k1, m.inner); }
    else if LostB(s.body) { KeptBlock(s.body, gc.ctx, m.p2, m.k2, m.inner); }
    else if LostO(s.post) { KeptO(s.post, gb.ctx, m.p3, m.k3, m.inner); }
    else { OpenS(s.post.value, gb.ctx, m.p3, m.k3, m.inner); }
    HasFor(pos, s.post.Some?, gi, gc, gb, gp);
  }

  // ---------- whole programs ----------

  /** Some jump of the finished code leads to no instruction. */
  ghost predicate Dangling(c: seq<Ins>) { exists i :: 0 <= i < |c| && IsJump(c[i]) && c[i].n !in Bounds(c, 0) }

  /** For every program that compiles. If it is not lost, all jumps lead to instructions. If it
      is, some jump leads to the placeholder; and unless an instruction happens to begin at that
      very byte, as it cannot in code shorter than that, a jump is left dangling if and only if
      the program is lost. */
  lemma LostExact(prog: Block)
    requires GenProgram(prog).Gen?
    ensures !LostB(prog) ==>
      Leads(GenProgram(prog).code, Bounds(GenProgram(prog).code, 0)) && !Dangling(GenProgram(prog).code)
    ensures LostB(prog) ==> HasLost(GenProgram(prog).code)
    ensures PLACEHOLDER !in Bounds(GenProgram(prog).code, 0) ==> (Dangling(GenProgram(prog).code) <==> LostB(prog))
    ensures |Encode(GenProgram(prog).code)| < PLACEHOLDER ==> PLACEHOLDER !in Bounds(GenProgram(prog).code, 0)
  {
    var c := GenProgram(prog).code;
    BoundsInside(c, 0);
    if LostB(prog) {
      KeptB(prog, TOP, 0, 0, NoLoop);
    } else {
      InsideB(prog, TOP, 0, 0, NoLoop);
      InsideBoth(GenProgram(prog), 0, NoLoop);
      assert Bounds(c, 0) + Around(NoLoop) == Bounds(c, 0);
    }
  }

  // ---------- programs of the shape considered are not lost ----------

  lemma {:induction false} ContinuesEscape(e: Expr)
    requires ContinuesE(e)
    ensures EscapesE(e)
    decreases e
  {
    match e
    case Prefix(_, r) => ContinuesEscape(r);
    case Infix(_, l, r) => if ContinuesE(l) { ContinuesEscape(l); } else { ContinuesEscape(r); }
    case If(c, a, b, _) =>
      if ContinuesE(c) { ContinuesEscape(c); }
      else if ContinuesB(a) { ContinuesEscapeB(a); }
      else { ContinuesEscapeB(b.value); }
  }

  lemma {:induction false} ContinuesEscapeB(b: Block)
    requires ContinuesB(b)
    ensures EscapesB(b)
    decreases b
  {
    if ContinuesS(b.head) { ContinuesEscapeS(b.head); } else { ContinuesEscapeB(b.tail); }
  }

  lemma {:induction false} ContinuesEscapeS(s: Stmt)
    requires ContinuesS(s)
    ensures EscapesS(s)
    decreases s
  {
    match s
    case ExprStmt(e) => ContinuesEscape(e);
    case VarDecl(_, _, _, i) => ContinuesEscape(i.value);
    case Assign(_, e) => ContinuesEscape(e);
    case For(f, _, _, _) => ContinuesEscapeS(f.value);
    case Continue =>
  }

  lemma {:induction false} ShapedNotLostE(e: Expr)
    requires ShapedE(e)
    ensures !LostE(e)
    decreases e
  {
    match e
    case Prefix(_, r) => ShapedNotLostE(r);
    case Infix(_, l, r) =>
      ShapedNotLostE(l);
      ShapedNotLostE(r);
    case If(c, a, b, _) =>
      ShapedNotLostE(c);
      ShapedNotLostB(a);
      if b.Some? { ShapedNotLostB(b.value); }
    case _ =>
  }

  lemma {:induction false} ShapedNotLostB(b: Block)
    requires ShapedB(b)
    ensures !LostB(b)
    decreases b
  {
    if b.Seq? {
      ShapedNotLostS(b.head);
      ShapedNotLostB(b.tail);
    }
  }

  lemma {:induction false} ShapedNotLostS(s: Stmt)
    requires ShapedS(s)
    ensures !LostS(s)
    decreases s
  {
    match s
    case ExprStmt(e) => ShapedNotLostE(e);
    case VarDecl(_, _, _, i) => if i.Some? { ShapedNotLostE(i.value); }
    case Assign(_, e) => ShapedNotLostE(e);
    case For(f, c, p, b) =>
      if f.Some? { ShapedNotLostS(f.value); }
      ShapedNotLostE(c);
      ShapedNotLostB(b);
      if p.Some? {
        ShapedNotLostS(p.value);
        if ContinuesS(p.value) { ContinuesEscapeS(p.value); }
      }
    case _ =>
  }

  /** No placeholder survives in a program of the shape considered. */
  lemma NoneLeft(prog: Block)
    requires GenProgram(prog).Gen? && ShapedB(prog)
    ensures !Dangling(GenProgram(prog).code)
  {
    ShapedNotLostB(prog);
    LostExact(prog);
  }

  // ---------- for (mut i = 0; true; if (true) { continue }) { } ----------

  const COUNTER: Stmt := VarDecl(false, "i", Some(TInt), Some(IntLit(0)))
  const AGAIN: Expr := If(BoolLit(true), Seq(Continue, Empty), None, true)
  const SPIN: Stmt := For(Some(COUNTER), BoolLit(true), Some(ExprStmt(AGAIN)), Empty)

  lemma AgainCompiles(c: Ctx, pos: nat, k: nat, cp: nat)
    ensures var g := GenE(AGAIN, c, pos, k, InLoop(true, cp)); g.Gen? && g.size < 20 && g.ctx.scopes == c.scopes
  {
    hide GenFor;
    var lp := InLoop(true, cp);
    assert GenS(Continue, Push(c), pos + 4, k, lp) == Gen([ContinueHole], 3, [], Push(c));
    assert GenStmts(Empty, Push(c), pos + 7, k, lp) == Gen([], 0, [], Push(c));
    assert GenStmts(Seq(Continue, Empty), Push(c), pos + 4, k, lp) == Gen([ContinueHole], 3, [], Push(c));
    assert GenE(AGAIN, c, pos, k, lp) == GenIf(AGAIN, c, pos, k, lp);
  }

  lemma CounterCompiles(c: Ctx)
    requires c.scopes != [] && "i" !in c.scopes[0] && c.global
    ensures var g := GenS(COUNTER, c, 0, 0, NoLoop); g.Gen? && g.size == 6 && |g.consts| == 1 && g.ctx.scopes != []
  {
    hide GenFor, GenIf;
    assert GenE(IntLit(0), c, 0, 0, NoLoop) == Gen([Wide(OP_CONSTANT, 0)], 3, [IntV(0)], c);
  }

  lemma PostCompiles(c: Ctx, pos: nat, k: nat, cp: nat)
    ensures var g := GenOpt(Some(ExprStmt(AGAIN)), c, pos, k, InLoop(true, cp));
      g.Gen? && g.size < 21 && g.ctx.scopes == c.scopes
  {
    AgainCompiles(c, pos, k, cp);
    hide GenE, GenFor, AGAIN;
    assert GenS(ExprStmt(AGAIN), c, pos, k, InLoop(true, cp)) == Then(GenE(AGAIN, c, pos, k, InLoop(true, cp)),
      Plain(OP_POP));
  }

  /** What loops compile to, from their parts. */
  lemma SpinFrom(s: Stmt, gi: Gen, gc: Gen, gb: Gen, gp: Gen)
    requires s.For? && s.post.Some? && gi == GenOpt(s.first, Push(TOP), 0, 0, NoLoop) && gi.Gen?
    requires gc == GenE(s.test, gi.ctx, gi.size, |gi.consts|, InLoop(true, gi.size)) && gc.Gen?
    requires gb == GenBlock(s.body, gc.ctx, gi.size + gc.size + 3, |gi.consts| + |gc.consts|, InLoop(true, gi.size))
      && gb.Gen?
    requires gp == GenOpt(s.post, gb.ctx, gi.size + gc.size + 3 + gb.size, |gi.consts| + |gc.consts| + |gb.consts|,
      InLoop(true, gi.size)) && gp.Gen? && gp.ctx.scopes != []
    ensures var g := GenS(s, TOP, 0, 0, NoLoop); g.Gen? && g.size == gi.size + gc.size + 3 + gb.size + gp.size + 5
  {
    hide GenE, GenBlock, GenOpt, Fill;
    assert GenS(s, TOP, 0, 0, NoLoop) == GenFor(s, TOP, 0, 0, NoLoop);
  }

  lemma NoBody(c: Ctx, pos: nat, k: nat, lp: Loop)
    requires c.scopes != []
    ensures var g := GenBlock(Empty, c, pos, k, lp); g.Gen? && g.size == 0 && g.consts == [] && g.ctx.scopes == c.scopes
  {
    hide GenS;
    assert GenStmts(Empty, Push(c), pos, k, lp) == Gen([], 0, [], Push(c));
  }

  lemma SpinCompiles()
    ensures var g := GenS(SPIN, TOP, 0, 0, NoLoop); g.Gen? && g.size < 60
  {
    hide GenIf, GenS, GenFor, GenStmts, GenBlock, AGAIN, COUNTER;
    CounterCompiles(Push(TOP));
    var gi := GenS(COUNTER, Push(TOP), 0, 0, NoLoop);
    assert GenOpt(Some(COUNTER), Push(TOP), 0, 0, NoLoop) == gi;
    var gc := GenE(BoolLit(true), gi.ctx, gi.size, |gi.consts|, InLoop(true, gi.size));
    NoBody(gc.ctx, gi.size + gc.size + 3, |gi.consts| + |gc.consts|, InLoop(true, gi.size));
    var gb := GenBlock(Empty, gc.ctx, gi.size + gc.size + 3, |gi.consts| + |gc.consts|, InLoop(true, gi.size));
    PostCompiles(gb.ctx, gi.size + gc.size + 3 + gb.size, |gi.consts| + |gc.consts| + |gb.consts|, gi.size);
    SpinFrom(SPIN, gi, gc, gb,
      GenOpt(Some(ExprStmt(AGAIN)), gb.ctx, gi.size + gc.size + 3 + gb.size, |gi.consts| + |gc.consts| + |gb.consts|,
      InLoop(true, gi.size)));
  }

  lemma SpinLost()
    ensures LostB(Seq(SPIN, Empty))
  {
    assert ContinuesB(Seq(Continue, Empty));
    assert ContinuesE(AGAIN);
    assert ContinuesS(ExprStmt(AGAIN));
  }

  /** A program of one statement. */
  lemma AloneCompiles(s: Stmt)
    requires GenS(s, TOP, 0, 0, NoLoop).Gen?
    ensures var g := GenProgram(Seq(s, Empty)); g.Gen? && g.size == GenS(s, TOP, 0, 0, NoLoop).size
  {
    hide GenS;
    var g := GenS(s, TOP, 0, 0, NoLoop);
    assert GenStmts(Empty, g.ctx, g.size, |g.consts|, NoLoop) == Gen([], 0, [], g.ctx);
  }

  /** The loop that continues in its post clause compiles, and a jump of its code leads nowhere. */
  lemma SpinDangles()
    ensures GenProgram(Seq(SPIN, Empty)).Gen? && Dangling(GenProgram(Seq(SPIN, Empty)).code)
  {
    SpinCompiles();
    SpinLost();
    hide GenStmts, GenS, SPIN, LostB, Dangling, Encode, Bounds;
    var prog := Seq(SPIN, Empty);
    AloneCompiles(SPIN);
    SizedStmts(prog, TOP, 0, 0, NoLoop);
    LostExact(prog);
  }
}
