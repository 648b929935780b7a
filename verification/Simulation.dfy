/** The machine mirrors the big-step semantics on code placed as in `Placement`. */
module Simulation {
  import opened Language
  import opened Typing
  import opened Bytecode
  import opened Codegen
  import opened Scoping
  import opened Machine
  import opened FrameView
  import opened Placement

  /** The slots hold the store `s`, and as many operands are pending as `p` says. */
  ghost predicate Ready(m: Setup, p: Place, s: Store, w: View)
  {
    Rel(p.c.scopes, s, w.slots) && |w.slots| == Limit(m) && |w.ops| == p.h && p.c.global == m.global
  }

  /** How the machine mirrors an outcome: `drop` scopes at the front of the store do not
      matter after break or continue. */
  ghost predicate Mirrors(m: Setup, p: Place, q: Place, w: View, n: nat, c: Config, o: Out, fuel: nat, keep: bool,
          drop: nat)
  {
    && Reaches(m.step, Config(p.pos, w), n, c)
    && match o
       case Val(v, s) => c.ip == q.pos && Ready(m, q, s, c.w) && c.w.ops == w.ops + (if keep then [v] else [])
       case Brk(s) => c.ip == p.tg.brk && Left(m, p, s, w, c, drop)
       case Cnt(s) => c.ip == p.tg.cont && Left(m, p, s, w, c, drop)
       case Fail => m.step(c).Fault?
       case Stuck => true
       case Timeout => n >= fuel
  }

  ghost predicate Left(m: Setup, p: Place, s: Store, w: View, c: Config, drop: nat)
  {
    && |p.c.scopes| >= drop && |s| >= drop && Rel(p.c.scopes[drop..], s[drop..], c.w.slots)
    && |c.w.slots| == Limit(m) && c.w.ops == w.ops
  }

  // ---------- single instructions ----------

  lemma One(m: Setup, c: Config, i: Ins)
    requires Drives(m) && Is(m, c.ip, i)
    ensures m.step(c) == VExec(m, i, c.ip + SizeOf(i), c.w)
    ensures m.step(c).Next? ==> Reaches(m.step, c, 1, m.step(c).st)
  {
    assert m.step(c) == VStep(m, c);
    assert m.step(c).Next? ==> Reaches(m.step, m.step(c).st, 0, m.step(c).st);
  }

  /** A run of `n` steps to `c` and one more instruction. */
  lemma More(m: Setup, a: Config, n: nat, c: Config, i: Ins)
    requires Drives(m) && Reaches(m.step, a, n, c) && Is(m, c.ip, i)
    ensures m.step(c) == VExec(m, i, c.ip + SizeOf(i), c.w)
    ensures m.step(c).Next? ==> Reaches(m.step, a, n + 1, m.step(c).st)
  {
    One(m, c, i);
    if m.step(c).Next? { ReachesTrans(m.step, a, n, c, 1, m.step(c).st); }
  }

  lemma DoPush(m: Setup, a: Config, n: nat, c: Config, op: byte, v: Value)
    requires Drives(m) && Reaches(m.step, a, n, c) && Is(m, c.ip, Plain(op)) && Room(m, |c.w.ops|)
    requires (op, v) in {(OP_TRUE, BoolV(true)), (OP_FALSE, BoolV(false)), (OP_NULL, NullV)}
    ensures Reaches(m.step, a, n + 1, Config(c.ip + 1, View(c.w.slots, c.w.ops + [v])))
  {
    More(m, a, n, c, Plain(op));
  }

  lemma DoConst(m: Setup, a: Config, n: nat, c: Config, k: nat)
    requires Drives(m) && Reaches(m.step, a, n, c) && Is(m, c.ip, Wide(OP_CONSTANT, k)) && Room(m, |c.w.ops|)
      && k < |m.f.consts|
    ensures Reaches(m.step, a, n + 1, Config(c.ip + 3, View(c.w.slots, c.w.ops + [m.f.consts[k]])))
  {
    More(m, a, n, c, Wide(OP_CONSTANT, k));
  }

  lemma DoGet(m: Setup, a: Config, n: nat, c: Config, ctx: Ctx, idx: nat)
    requires Drives(m) && Reaches(m.step, a, n, c) && ctx.global == m.global && Is(m, c.ip, GetIns(ctx, idx))
    requires Room(m, |c.w.ops|) && idx < |c.w.slots|
    ensures Reaches(m.step, a, n + 1,
      Config(c.ip + SizeOf(GetIns(ctx, idx)), View(c.w.slots, c.w.ops + [c.w.slots[idx]])))
  {
    More(m, a, n, c, GetIns(ctx, idx));
  }

  lemma DoSet(m: Setup, a: Config, n: nat, c: Config, ctx: Ctx, idx: nat, constant: bool, ops: seq<Value>, v: Value)
    requires Drives(m) && Reaches(m.step, a, n, c) && ctx.global == m.global && Is(m, c.ip, SetIns(ctx, idx, constant))
    requires c.w.ops == ops + [v] && idx < |c.w.slots|
    ensures Reaches(m.step, a, n + 1, Config(c.ip + SizeOf(SetIns(ctx, idx, constant)), View(c.w.slots[idx := v], ops)))
  {
    More(m, a, n, c, SetIns(ctx, idx, constant));
    assert Front(c.w.ops) == ops && Last(c.w.ops) == v;
  }

  lemma DoPop(m: Setup, a: Config, n: nat, c: Config, ops: seq<Value>, v: Value)
    requires Drives(m) && Reaches(m.step, a, n, c) && Is(m, c.ip, Plain(OP_POP)) && c.w.ops == ops + [v]
    ensures Reaches(m.step, a, n + 1, Config(c.ip + 1, View(c.w.slots, ops)))
  {
    More(m, a, n, c, Plain(OP_POP));
    assert Front(c.w.ops) == ops;
  }

  lemma DoJump(m: Setup, a: Config, n: nat, c: Config, t: nat)
    requires Drives(m) && Reaches(m.step, a, n, c) && Is(m, c.ip, Wide(OP_JUMP, t))
    ensures Reaches(m.step, a, n + 1, Config(t, c.w))
  {
    More(m, a, n, c, Wide(OP_JUMP, t));
  }

  lemma DoBranch(m: Setup, a: Config, n: nat, c: Config, t: nat, ops: seq<Value>, v: Value)
    requires Drives(m) && Reaches(m.step, a, n, c) && Is(m, c.ip, Wide(OP_JUMP_NOT_TRUTHY, t)) && c.w.ops == ops + [v]
    ensures Reaches(m.step, a, n + 1, Config(if VmTruthy(v) then c.ip + 3 else t, View(c.w.slots, ops)))
  {
    More(m, a, n, c, Wide(OP_JUMP_NOT_TRUTHY, t));
    assert Front(c.w.ops) == ops && Last(c.w.ops) == v;
  }

  lemma DoPrefix(m: Setup, a: Config, n: nat, c: Config, op: PrefixOp, ops: seq<Value>, v: Value)
    requires Drives(m) && Reaches(m.step, a, n, c) && Is(m, c.ip, PrefixIns(op)) && c.w.ops == ops + [v]
      && Room(m, |ops|)
    ensures VmPrefix(op, v).Err? ==> m.step(c).Fault?
    ensures VmPrefix(op, v).Ok? ==>
      Reaches(m.step, a, n + 1, Config(c.ip + 1, View(c.w.slots, ops + [VmPrefix(op, v).value])))
  {
    More(m, a, n, c, PrefixIns(op));
    assert Front(c.w.ops) == ops && Last(c.w.ops) == v;
  }

  /** The operator instruction, with the operands in the order the compiler pushed them. */
  lemma DoInfix(m: Setup, a: Config, n: nat, c: Config, op: InfixOp, ops: seq<Value>, l: Value, r: Value)
    requires Drives(m) && Reaches(m.step, a, n, c) && Is(m, c.ip, InfixIns(op))
    requires c.w.ops == (ops + [if Swapped(op) then r else l]) + [if Swapped(op) then l else r]
    requires Room(m, |ops|)
    ensures VmInfix(op, l, r).Err? ==> m.step(c).Fault?
    ensures VmInfix(op, l, r).Ok? ==>
      Reaches(m.step, a, n + 1, Config(c.ip + 1, View(c.w.slots, ops + [VmInfix(op, l, r).value])))
  {
    hide Wrap, VmCompare, VmBinary, Reaches;
    More(m, a, n, c, InfixIns(op));
    var (x, y) := if Swapped(op) then (r, l) else (l, r);
    assert Front(c.w.ops) == ops + [x] && Last(c.w.ops) == y;
    assert Front(ops + [x]) == ops && Last(ops + [x]) == x;
  }

  // ---------- expressions ----------

  ghost predicate PostE(m: Setup, e: Expr, p: Place, q: Place, s: Store, fuel: nat, w: View, n: nat, c: Config)
  {
    Mirrors(m, p, q, w, n, c, EvalE(e, s, fuel), fuel, true, 0)
  }

  lemma SimLeaf(m: Setup, e: Expr, p: Place, q: Place, s: Store, fuel: nat, w: View) returns (n: nat, c: Config)
    requires Drives(m) && PlacedE(m, e, p, q) && Ready(m, p, s, w) && (e.IntLit? || e.BoolLit? || e.Ident?)
    ensures PostE(m, e, p, q, s, fuel, w, n, c)
  {
    var a := Config(p.pos, w);
    n := 1;
    match e
    case IntLit(_) =>
      DoConst(m, a, 0, a, p.k);
      c := Config(q.pos, View(w.slots, w.ops + [m.f.consts[p.k]]));
    case BoolLit(b) =>
      DoPush(m, a, 0, a, if b then OP_TRUE else OP_FALSE, BoolV(b));
      c := Config(q.pos, View(w.slots, w.ops + [BoolV(b)]));
    case Ident(x) =>
      RelLookup(p.c.scopes, s, w.slots, x);
      var idx := Resolve(p.c.scopes, x).value.index;
      DoGet(m, a, 0, a, p.c, idx);
      c := Config(q.pos, View(w.slots, w.ops + [w.slots[idx]]));
  }

  lemma {:induction false} RoomE(m: Setup, e: Expr, p: Place, q: Place)
    requires PlacedE(m, e, p, q) && ShapedE(e)
    ensures Room(m, p.h)
    decreases e
  {
    match e
    case Prefix(_, r) => var p1 :| PlacedE(m, r, p, p1); RoomE(m, r, p, p1);
    case Infix(op, l, r) =>
      if Swapped(op) { var p1 :| PlacedE(m, r, p, p1); RoomE(m, r, p, p1); }
      else { var p1 :| PlacedE(m, l, p, p1); RoomE(m, l, p, p1); }
    case If(_, _, _, _) =>
      var p1, p2 :| PlacedIf(m, e, p, p1, p2, q);
      RoomE(m, e.cond, p, p1);
    case _ =>
  }

  lemma {:induction false} SimPrefix(m: Setup, e: Expr, p: Place, q: Place, s: Store, fuel: nat, w: View)
    returns (n: nat, c: Config)
    requires Drives(m) && PlacedE(m, e, p, q) && Ready(m, p, s, w) && ShapedE(e) && e.Prefix?
    ensures PostE(m, e, p, q, s, fuel, w, n, c)
    decreases fuel, e, 1
  {
    var p1 :| PlacedE(m, e.right, p, p1) && Is(m, p1.pos, PrefixIns(e.pop)) && q.pos == p1.pos + 1;
    RoomE(m, e.right, p, p1);
    n, c := SimE(m, e.right, p, p1, s, fuel, w);
    var o := EvalE(e.right, s, fuel);
    if o.Val? {
      PrefixAgrees(e.pop, o.v);
      DoPrefix(m, Config(p.pos, w), n, c, e.pop, w.ops, o.v);
      var r := VmPrefix(e.pop, o.v);
      if r.Ok? { n, c := n + 1, Config(c.ip + 1, View(c.w.slots, w.ops + [r.value])); }
    }
  }

  lemma {:induction false} SimInfix(m: Setup, e: Expr, p: Place, q: Place, s: Store, fuel: nat, w: View)
    returns (n: nat, c: Config)
    requires Drives(m) && PlacedE(m, e, p, q) && Ready(m, p, s, w) && ShapedE(e) && e.Infix? && !Swapped(e.op)
    ensures PostE(m, e, p, q, s, fuel, w, n, c)
    decreases fuel, e, 1
  {
    hide Reaches, ExecStmts, ExecS, ExecLoop, ExecOpt, PlacedStmts, PlacedS, PlacedBlock, Rel, Resolve, Lookup, Update;
    var (l, r) := (e.left, e.rhs);
    var p1, p2 :| PlacedE(m, l, p, p1) && PlacedE(m, r, p1, p2) && Is(m, p2.pos, InfixIns(e.op)) && q.pos == p2.pos + 1;
    RoomE(m, l, p, p1);
    n, c := SimE(m, l, p, p1, s, fuel, w);
    var o1 := EvalE(l, s, fuel);
    if !o1.Val? { return; }
    ContainedE(r, o1.s, fuel);
    var n2, c2 := SimE(m, r, p1, p2, o1.s, fuel, c.w);
    ReachesTrans(m.step, Config(p.pos, w), n, c, n2, c2);
    n, c := n + n2, c2;
    var o2 := EvalE(r, o1.s, fuel);
    if o2.Val? {
      OperatorsAgree(e.op, o1.v, o2.v);
      DoInfix(m, Config(p.pos, w), n, c, e.op, w.ops, o1.v, o2.v);
      var x := VmInfix(e.op, o1.v, o2.v);
      if x.Ok? { n, c := n + 1, Config(c.ip + 1, View(c.w.slots, w.ops + [x.value])); }
    }
  }

  /** For < and <= the right operand runs first; both operands are effect-free. */
  lemma {:induction false} SimSwapped(m: Setup, e: Expr, p: Place, q: Place, s: Store, fuel: nat, w: View)
    returns (n: nat, c: Config)
    requires Drives(m) && PlacedE(m, e, p, q) && Ready(m, p, s, w) && ShapedE(e) && e.Infix? && Swapped(e.op)
    ensures PostE(m, e, p, q, s, fuel, w, n, c)
    decreases fuel, e, 1
  {
    hide Reaches, ExecStmts, ExecS, ExecLoop, ExecOpt, PlacedStmts, PlacedS, PlacedBlock, Rel, Resolve, Lookup, Update;
    var (l, r) := (e.left, e.rhs);
    var p1, p2 :| PlacedE(m, r, p, p1) && PlacedE(m, l, p1, p2) && Is(m, p2.pos, InfixIns(e.op)) && q.pos == p2.pos + 1;
    RoomE(m, r, p, p1);
    EffectFree(l, s, fuel);
    EffectFree(r, s, fuel);
    n, c := SimE(m, r, p, p1, s, fuel, w);
    var o1 := EvalE(r, s, fuel);
    if !o1.Val? { return; }
    var n2, c2 := SimE(m, l, p1, p2, s, fuel, c.w);
    ReachesTrans(m.step, Config(p.pos, w), n, c, n2, c2);
    n, c := n + n2, c2;
    var o2 := EvalE(l, s, fuel);
    if o2.Val? {
      OperatorsAgree(e.op, o2.v, o1.v);
      DoInfix(m, Config(p.pos, w), n, c, e.op, w.ops, o2.v, o1.v);
      var x := VmInfix(e.op, o2.v, o1.v);
      if x.Ok? { n, c := n + 1, Config(c.ip + 1, View(c.w.slots, w.ops + [x.value])); }
    }
  }

  lemma {:induction false} SimE(m: Setup, e: Expr, p: Place, q: Place, s: Store, fuel: nat, w: View)
    returns (n: nat, c: Config)
    requires Drives(m) && PlacedE(m, e, p, q) && Ready(m, p, s, w) && ShapedE(e)
    ensures PostE(m, e, p, q, s, fuel, w, n, c)
    decreases fuel, e, 2
  {
    match e
    case IntLit(_) => n, c := SimLeaf(m, e, p, q, s, fuel, w);
    case BoolLit(_) => n, c := SimLeaf(m, e, p, q, s, fuel, w);
    case Ident(_) => n, c := SimLeaf(m, e, p, q, s, fuel, w);
    case Prefix(_, _) => n, c := SimPrefix(m, e, p, q, s, fuel, w);
    case Infix(_, _, _) =>
      if Swapped(e.op) { n, c := SimSwapped(m, e, p, q, s, fuel, w); }
      else { n, c := SimInfix(m, e, p, q, s, fuel, w); }
    case If(_, _, _, _) => n, c := SimIf(m, e, p, q, s, fuel, w);
  }

  /** A first part ending normally at `c` and what follows it. */
  lemma Chain(m: Setup, p: Place, w: View, n: nat, c: Config, p1: Place, q: Place, w1: View, n1: nat, c1: Config,
              o: Out, fuel: nat, keep: bool, drop: nat)
    requires Reaches(m.step, Config(p.pos, w), n, c) && c == Config(p1.pos, w1) && w1.ops == w.ops
    requires p1.tg == p.tg && p1.c.scopes == p.c.scopes
    requires Mirrors(m, p1, q, w1, n1, c1, o, fuel, keep, drop)
    ensures Mirrors(m, p, q, w, n + n1, c1, o, fuel, keep, drop)
  {
    ReachesTrans(m.step, Config(p.pos, w), n, c, n1, c1);
  }

  lemma {:induction false} SimIf(m: Setup, e: Expr, p: Place, q: Place, s: Store, fuel: nat, w: View)
    returns (n: nat, c: Config)
    requires Drives(m) && PlacedE(m, e, p, q) && Ready(m, p, s, w) && ShapedE(e) && e.If?
    ensures PostE(m, e, p, q, s, fuel, w, n, c)
    decreases fuel, e, 1
  {
    var p1, p2 :| PlacedIf(m, e, p, p1, p2, q);
    n, c := SimE(m, e.cond, p, p1, s, fuel, w);
    var o := EvalE(e.cond, s, fuel);
    if !o.Val? || o.v == NullV { return; }
    var w1 := View(c.w.slots, w.ops);
    DoBranch(m, Config(p.pos, w), n, c, p2.pos + 3, w.ops, o.v);
    PrefixAgrees(Not, o.v);
    if EvalTruthy(o.v) {
      var n1, c1 := SimThen(m, e, p, p1, p2, q, o.s, fuel, w1);
      Chain(m, p, w, n + 1, Config(p1.pos + 3, w1), Skip(p1, 3, p.h), q, w1, n1, c1,
        Valued(e.unit, ExecBlock(e.cons, o.s, fuel)), fuel, true, 0);
      n, c := n + 1 + n1, c1;
    } else if e.alt.None? {
      DoPush(m, Config(p.pos, w), n + 1, Config(p2.pos + 3, w1), OP_NULL, NullV);
      n, c := n + 2, Config(q.pos, View(w1.slots, w1.ops + [NullV]));
    } else {
      BranchKeeps(m, e.cons, e.unit, Skip(p1, 3, p.h), p2);
      var n1, c1 := SimBranch(m, e.alt.value, e.unit, Skip(p2, 3, p.h), q, o.s, fuel, w1);
      Chain(m, p, w, n + 1, Config(p2.pos + 3, w1), Skip(p2, 3, p.h), q, w1, n1, c1,
        Valued(e.unit, ExecBlock(e.alt.value, o.s, fuel)), fuel, true, 0);
      n, c := n + 1 + n1, c1;
    }
  }

  /** Consequence and the jump over the alternative. */
  lemma {:induction false} SimThen(m: Setup, e: Expr, p: Place, p1: Place, p2: Place, q: Place, s: Store, fuel: nat,
          w: View) returns (n: nat, c: Config)
    requires Drives(m) && e.If? && PlacedIf(m, e, p, p1, p2, q) && q.c.scopes == p.c.scopes && q.h == p.h + 1
      && q.c.global == p.c.global
    requires Ready(m, Skip(p1, 3, p.h), s, w) && ShapedE(e)
    ensures Mirrors(m, Skip(p1, 3, p.h), q, w, n, c, Valued(e.unit, ExecBlock(e.cons, s, fuel)), fuel, true, 0)
    decreases fuel, e, 0
  {
    n, c := SimBranch(m, e.cons, e.unit, Skip(p1, 3, p.h), p2, s, fuel, w);
    var o := Valued(e.unit, ExecBlock(e.cons, s, fuel));
    if o.Val? {
      BranchKeeps(m, e.cons, e.unit, Skip(p1, 3, p.h), p2);
      DoJump(m, Config(p1.pos + 3, w), n, c, q.pos);
      n, c := n + 1, Config(q.pos, c.w);
    }
  }

  lemma Skipped(p: Place, n: nat, h: nat, q: Place)
    requires q == Skip(p, n, h)
    ensures q.c == p.c && q.tg == p.tg && q.h == h
  {
  }

  lemma BranchKeeps(m: Setup, b: Block, unit: bool, p: Place, q: Place)
    requires PlacedBranch(m, b, unit, p, q)
    ensures q.c.scopes == p.c.scopes && q.tg == p.tg && q.c.global == p.c.global && q.h == p.h + 1
  {
    if unit {
      var p1 :| PlacedBlock(m, b, p, p1, false) && q == Skip(p1, 1, p.h + 1);
      BlockKeeps(m, b, p, p1, false);
      Skipped(p1, 1, p.h + 1, q);
    } else {
      BlockKeeps(m, b, p, q, true);
    }
  }

  lemma BlockKeeps(m: Setup, b: Block, p: Place, q: Place, keep: bool)
    requires PlacedBlock(m, b, p, q, keep)
    ensures q.c.scopes == p.c.scopes && q.tg == p.tg && q.c.global == p.c.global
      && q.h == (if keep then p.h + 1 else p.h)
  {
  }

  lemma {:induction false} SimBranch(m: Setup, b: Block, unit: bool, p: Place, q: Place, s: Store, fuel: nat, w: View)
    returns (n: nat, c: Config)
    requires Drives(m) && PlacedBranch(m, b, unit, p, q) && Ready(m, p, s, w) && ShapedB(b) && (!unit ==> Yields(b))
    ensures Mirrors(m, p, q, w, n, c, Valued(unit, ExecBlock(b, s, fuel)), fuel, true, 0)
    decreases fuel, b, 2
  {
    if !unit {
      n, c := SimBlock(m, b, p, q, s, fuel, w, true);
      return;
    }
    var p1 :| PlacedBlock(m, b, p, p1, false) && Is(m, p1.pos, Plain(OP_NULL)) && Room(m, p.h)
      && q == Skip(p1, 1, p.h + 1);
    n, c := SimBlock(m, b, p, p1, s, fuel, w, false);
    if ExecBlock(b, s, fuel).Val? {
      DoPush(m, Config(p.pos, w), n, c, OP_NULL, NullV);
      n, c := n + 1, Config(q.pos, View(c.w.slots, c.w.ops + [NullV]));
    }
  }

  // ---------- blocks and statements ----------

  lemma {:induction false} SimBlock(m: Setup, b: Block, p: Place, q: Place, s: Store, fuel: nat, w: View, keep: bool)
    returns (n: nat, c: Config)
    requires Drives(m) && PlacedBlock(m, b, p, q, keep) && Ready(m, p, s, w) && ShapedB(b) && (keep ==> Yields(b))
    ensures Mirrors(m, p, q, w, n, c, ExecBlock(b, s, fuel), fuel, keep, 0)
    decreases fuel, b, 1
  {
    var p0 := p.(c := Push(p.c));
    var q1 :| PlacedStmts(m, b, p0, q1, keep) && q1.c.scopes != [] && q == q1.(c := PopScope(q1.c))
      && q.c.scopes == p.c.scopes;
    RelPush(p.c.scopes, s, w.slots);
    n, c := SimStmts(m, b, p0, q1, [map[]] + s, fuel, w, keep);
    var o := ExecStmts(b, [map[]] + s, fuel);
    assert p0.c.scopes[1..] == p.c.scopes;
    if o.Val? { RelTail(q1.c.scopes, o.s, c.w.slots); }
    if o.Brk? || o.Cnt? { assert o.s[1..][0..] == o.s[1..] && p.c.scopes[0..] == p.c.scopes; }
  }

  lemma {:induction false} SimStmts(m: Setup, b: Block, p: Place, q: Place, s: Store, fuel: nat, w: View, keep: bool)
    returns (n: nat, c: Config)
    requires Drives(m) && PlacedStmts(m, b, p, q, keep) && Ready(m, p, s, w) && ShapedB(b) && (keep ==> Yields(b))
    ensures Mirrors(m, p, q, w, n, c, ExecStmts(b, s, fuel), fuel, keep, 1)
    decreases fuel, b, 0
  {
    if b.Empty? {
      n, c := 0, Config(p.pos, w);
    } else if keep && b.tail.Empty? {
      n, c := SimLast(m, b.head, p, q, s, fuel, w);
    } else {
      var p1 :| PlacedS(m, b.head, p, p1) && PlacedStmts(m, b.tail, p1, q, keep);
      n, c := SimS(m, b.head, p, p1, s, fuel, w);
      var o := ExecS(b.head, s, fuel);
      if o.Val? && !b.tail.Empty? {
        var n1, c1 := SimStmts(m, b.tail, p1, q, o.s, fuel, c.w, keep);
        ReachesTrans(m.step, Config(p.pos, w), n, c, n1, c1);
        n, c := n + n1, c1;
      }
    }
  }

  /** Leaving an expression by break or continue, seen from the statement around it. */
  lemma Outwards(m: Setup, p: Place, q: Place, w: View, n: nat, c: Config, o: Out, fuel: nat, keep: bool)
    requires Mirrors(m, p, q, w, n, c, o, fuel, keep, 0) && p.c.scopes != [] && !o.Val?
    ensures forall q', keep' :: Mirrors(m, p, q', w, n, c, o, fuel, keep', 1)
  {
    if o.Brk? || o.Cnt? {
      assert o.s[0..] == o.s && p.c.scopes[0..] == p.c.scopes;
      RelTail(p.c.scopes, o.s, c.w.slots);
    }
  }

  /** The last statement of a block whose value is kept. */
  lemma {:induction false} SimLast(m: Setup, st: Stmt, p: Place, q: Place, s: Store, fuel: nat, w: View)
    returns (n: nat, c: Config)
    requires Drives(m) && Ready(m, p, s, w) && ShapedS(st) && p.c.scopes != [] && Same(p, q)
    requires match st
      case ExprStmt(e) => PlacedE(m, e, p, q)
      case Break => PlacedS(m, st, p, q.(h := p.h))
      case Continue => PlacedS(m, st, p, q.(h := p.h))
      case _ => false
    ensures Mirrors(m, p, q, w, n, c, ExecS(st, s, fuel), fuel, true, 1)
    decreases fuel, st, 3
  {
    if st.ExprStmt? {
      n, c := SimE(m, st.e, p, q, s, fuel, w);
      if !EvalE(st.e, s, fuel).Val? { Outwards(m, p, q, w, n, c, EvalE(st.e, s, fuel), fuel, true); }
    } else {
      n, c := SimExit(m, st, p, s, fuel, w);
    }
  }

  lemma SimExit(m: Setup, st: Stmt, p: Place, s: Store, fuel: nat, w: View) returns (n: nat, c: Config)
    requires Drives(m) && Ready(m, p, s, w) && p.c.scopes != []
    requires (st.Break? && Is(m, p.pos, Wide(OP_JUMP, p.tg.brk)))
      || (st.Continue? && Is(m, p.pos, Wide(OP_JUMP, p.tg.cont)))
    ensures forall q, keep :: Mirrors(m, p, q, w, n, c, ExecS(st, s, fuel), fuel, keep, 1)
  {
    var t := if st.Break? then p.tg.brk else p.tg.cont;
    DoJump(m, Config(p.pos, w), 0, Config(p.pos, w), t);
    RelTail(p.c.scopes, s, w.slots);
    n, c := 1, Config(t, w);
  }

  lemma {:induction false} SimExprStmt(m: Setup, st: Stmt, p: Place, q: Place, s: Store, fuel: nat, w: View)
    returns (n: nat, c: Config)
    requires Drives(m) && PlacedS(m, st, p, q) && Ready(m, p, s, w) && ShapedS(st) && st.ExprStmt?
    ensures Mirrors(m, p, q, w, n, c, ExecS(st, s, fuel), fuel, false, 1)
    decreases fuel, st, 2
  {
    var p1 :| PlacedE(m, st.e, p, p1) && Is(m, p1.pos, Plain(OP_POP)) && q.pos == p1.pos + 1;
    n, c := SimE(m, st.e, p, p1, s, fuel, w);
    var o := EvalE(st.e, s, fuel);
    if !o.Val? { Outwards(m, p, p1, w, n, c, o, fuel, true); return; }
    DoPop(m, Config(p.pos, w), n, c, w.ops, o.v);
    n, c := n + 1, Config(q.pos, View(c.w.slots, w.ops));
  }

  lemma Stored(m: Setup, p: Place, a: Config, n: nat, c: Config, x: string, s: Store, ops: seq<Value>, v: Value)
    returns (n': nat, c': Config)
    requires Drives(m) && Reaches(m.step, a, n, c) && p.c.global == m.global
    requires CtxOk(p.c) && Rel(p.c.scopes, s, c.w.slots) && Resolve(p.c.scopes, x).Some?
    requires Is(m, c.ip, SetIns(p.c, Resolve(p.c.scopes, x).value.index, false)) && c.w.ops == ops + [v]
    ensures Reaches(m.step, a, n', c') && c'.ip == c.ip + SizeOf(SetIns(p.c, Resolve(p.c.scopes, x).value.index, false))
    ensures c'.w.ops == ops && |c'.w.slots| == |c.w.slots| && Rel(p.c.scopes, Update(s, x, v), c'.w.slots)
  {
    var idx := Resolve(p.c.scopes, x).value.index;
    RelAssign(p.c, s, c.w.slots, x, v);
    DoSet(m, a, n, c, p.c, idx, false, ops, v);
    n', c' := n + 1, Config(c.ip + SizeOf(SetIns(p.c, idx, false)), View(c.w.slots[idx := v], ops));
  }

  lemma {:induction false} SimAssign(m: Setup, st: Stmt, p: Place, q: Place, s: Store, fuel: nat, w: View)
    returns (n: nat, c: Config)
    requires Drives(m) && PlacedS(m, st, p, q) && Ready(m, p, s, w) && ShapedS(st) && st.Assign?
    ensures Mirrors(m, p, q, w, n, c, ExecS(st, s, fuel), fuel, false, 1)
    decreases fuel, st, 2
  {
    var idx := Resolve(p.c.scopes, st.x).value.index;
    var i := SetIns(p.c, idx, false);
    var p1 :| PlacedE(m, st.e, p, p1) && Is(m, p1.pos, i) && q.pos == p1.pos + SizeOf(i);
    n, c := SimE(m, st.e, p, p1, s, fuel, w);
    var o := EvalE(st.e, s, fuel);
    if !o.Val? { Outwards(m, p, p1, w, n, c, o, fuel, true); return; }
    n, c := Stored(m, p, Config(p.pos, w), n, c, st.x, o.s, w.ops, o.v);
  }

  lemma {:induction false} SimDecl(m: Setup, st: Stmt, p: Place, q: Place, s: Store, fuel: nat, w: View)
    returns (n: nat, c: Config)
    requires Drives(m) && PlacedS(m, st, p, q) && Ready(m, p, s, w) && ShapedS(st) && st.VarDecl?
    ensures Mirrors(m, p, q, w, n, c, ExecS(st, s, fuel), fuel, false, 1)
    decreases fuel, st, 2
  {
    var p1 :| PlacedInit(m, st.init, st.ty, p, p1)
      && Is(m, p1.pos, SetIns(p.c, p1.c.next, st.constant))
      && q.pos == p1.pos + SizeOf(SetIns(p.c, p1.c.next, st.constant))
      && p1.c.scopes != [] && p1.c.next < Limit(m) && Below(p1.c.scopes, p1.c.next)
      && q.c == Define(p1.c, st.x, st.constant);
    var a := Config(p.pos, w);
    var o: Out;
    if st.init.Some? {
      n, c := SimE(m, st.init.value, p, p1, s, fuel, w);
      o := EvalE(st.init.value, s, fuel);
      if !o.Val? { Outwards(m, p, p1, w, n, c, o, fuel, true); return; }
    } else {
      o := Val(Zero(st.ty), s);
      n, c := 1, Config(p1.pos, View(w.slots, w.ops + [Zero(st.ty)]));
      match st.ty
      case Some(TInt) => DoConst(m, a, 0, a, p.k);
      case Some(TBool) => DoPush(m, a, 0, a, OP_FALSE, BoolV(false));
      case _ => DoPush(m, a, 0, a, OP_NULL, NullV);
    }
    DoSet(m, a, n, c, p.c, p1.c.next, st.constant, w.ops, o.v);
    RelDeclare(p1.c, o.s, c.w.slots, st.x, o.v, st.constant);
    n, c := n + 1, Config(q.pos, View(c.w.slots[p1.c.next := o.v], w.ops));
  }

  lemma {:induction false} SimS(m: Setup, st: Stmt, p: Place, q: Place, s: Store, fuel: nat, w: View)
    returns (n: nat, c: Config)
    requires Drives(m) && PlacedS(m, st, p, q) && Ready(m, p, s, w) && ShapedS(st)
    ensures Mirrors(m, p, q, w, n, c, ExecS(st, s, fuel), fuel, false, 1)
    decreases fuel, st, 3
  {
    match st
    case ExprStmt(_) => n, c := SimExprStmt(m, st, p, q, s, fuel, w);
    case VarDecl(_, _, _, _) => n, c := SimDecl(m, st, p, q, s, fuel, w);
    case Assign(_, _) => n, c := SimAssign(m, st, p, q, s, fuel, w);
    case For(_, _, _, _) => n, c := SimFor(m, st, p, q, s, fuel, w);
    case Break => n, c := SimExit(m, st, p, s, fuel, w);
    case Continue => n, c := SimExit(m, st, p, s, fuel, w);
  }

  // ---------- loops ----------

  lemma {:induction false} SimFor(m: Setup, st: Stmt, p: Place, q: Place, s: Store, fuel: nat, w: View)
    returns (n: nat, c: Config)
    requires Drives(m) && PlacedS(m, st, p, q) && Ready(m, p, s, w) && ShapedS(st) && st.For?
    ensures Mirrors(m, p, q, w, n, c, ExecS(st, s, fuel), fuel, false, 1)
    decreases fuel, st, 2
  {
    hide Reaches, EvalE, ExecStmts, PlacedE, PlacedStmts, PlacedBlock, Rel, Resolve, Lookup, Update;
    var p0, p1, p2, p3 :| PlacedFor(m, st, p, p0, p1, p2, p3, q);
    var pp := p.(c := Push(p.c));
    var s0 := [map[]] + s;
    RelPush(p.c.scopes, s, w.slots);
    var o := ExecOpt(st.first, s0, fuel);
    n, c := SimOpt(m, st.first, pp, p0, s0, fuel, w);
    if st.first.Some? { ContainedS(st.first.value, s0, fuel); }
    if !o.Val? { return; }
    var head := p0.(tg := Target(p3.pos + 3, if st.post.Some? then p2.pos else p0.pos));
    var n1, c1 := SimLoop(m, st, head, p1, p2, p3, o.s, fuel, c.w);
    ContainedLoop(st, o.s, fuel);
    ReachesTrans(m.step, Config(p.pos, w), n, c, n1, c1);
    n, c := n + n1, c1;
    var o1 := ExecLoop(st, o.s, fuel);
    if o1.Val? {
      n, c := Close(m, p, q, Config(p.pos, w), n, c, w);
      RelTail(p0.c.scopes, o1.s, c.w.slots);
    }
  }

  /** The null pushed and popped after the loop. */
  lemma Close(m: Setup, p: Place, q: Place, a: Config, n: nat, c: Config, w: View) returns (n': nat, c': Config)
    requires Drives(m) && Reaches(m.step, a, n, c) && c.w.ops == w.ops && |w.ops| == p.h && Room(m, p.h)
    requires Is(m, c.ip, Plain(OP_NULL)) && Is(m, c.ip + 1, Plain(OP_POP))
    ensures n' == n + 2 && c' == Config(c.ip + 2, c.w) && Reaches(m.step, a, n', c')
  {
    DoPush(m, a, n, c, OP_NULL, NullV);
    var c1 := Config(c.ip + 1, View(c.w.slots, c.w.ops + [NullV]));
    DoPop(m, a, n + 1, c1, c.w.ops, NullV);
    n', c' := n + 2, Config(c.ip + 2, c.w);
  }

  lemma {:induction false} SimOpt(m: Setup, st: Option<Stmt>, p: Place, q: Place, s: Store, fuel: nat, w: View)
    returns (n: nat, c: Config)
    requires Drives(m) && PlacedOpt(m, st, p, q) && Ready(m, p, s, w) && (st.Some? ==> ShapedS(st.value))
    ensures Mirrors(m, p, q, w, n, c, ExecOpt(st, s, fuel), fuel, false, 1)
    decreases fuel, st, 4
  {
    if st.Some? { n, c := SimS(m, st.value, p, q, s, fuel, w); }
    else { n, c := 0, Config(p.pos, w); }
  }

  /** From the condition to the exit, over all iterations. */
  lemma {:induction false} SimLoop(m: Setup, f: Stmt, p0: Place, p1: Place, p2: Place, p3: Place, s: Store, fuel: nat,
          w: View)
    returns (n: nat, c: Config)
    requires Drives(m) && f.For? && PlacedLoop(m, f, p0, p1, p2, p3) && Ready(m, p0, s, w) && ShapedS(f)
    ensures Mirrors(m, p0, p0.(pos := p0.tg.brk), w, n, c, ExecLoop(f, s, fuel), fuel, false, 0)
    decreases fuel, f, 1
  {
    if fuel == 0 { n, c := 0, Config(p0.pos, w); return; }
    n, c := SimE(m, f.test, p0, p1, s, fuel, w);
    var o := EvalE(f.test, s, fuel);
    ContainedE(f.test, s, fuel);
    if !o.Val? || !o.v.BoolV? { return; }
    var w1 := View(c.w.slots, w.ops);
    DoBranch(m, Config(p0.pos, w), n, c, p0.tg.brk, w.ops, o.v);
    n, c := n + 1, Config(if o.v.b then p1.pos + 3 else p0.tg.brk, w1);
    if !o.v.b { return; }
    var n1, c1, done := SimBody(m, f, p0, p1, p2, p3, o.s, fuel, w1);
    ReachesTrans(m.step, Config(p0.pos, w), n, c, n1, c1);
    n, c := n + n1, c1;
    if done { return; }
    var ob := ExecBlock(f.body, o.s, fuel);
    var op := ExecOpt(f.post, ob.s, fuel);
    var n2, c2 := SimLoop(m, f, p0, p1, p2, p3, op.s, fuel - 1, c.w);
    ReachesTrans(m.step, Config(p0.pos, w), n, c, n2, c2);
    n, c := n + n2, c2;
  }

  /** One pass through body, post and the jump back; `done` when the loop ends there. */
  lemma {:induction false} SimBody(m: Setup, f: Stmt, p0: Place, p1: Place, p2: Place, p3: Place, s: Store, fuel: nat,
          w: View)
    returns (n: nat, c: Config, done: bool)
    requires Drives(m) && f.For? && PlacedLoop(m, f, p0, p1, p2, p3) && ShapedS(f)
    requires Ready(m, Skip(p1, 3, p0.h), s, w)
    ensures Reaches(m.step, Config(p1.pos + 3, w), n, c)
    ensures var ob := ExecBlock(f.body, s, fuel);
      var op := if ob.Val? || ob.Cnt? then ExecOpt(f.post, ob.s, fuel) else ob;
      if op.Val? then
        !done && c.ip == p0.pos && Ready(m, p0, op.s, c.w) && c.w.ops == w.ops
      else
        done && Mirrors(m, Skip(p1, 3, p0.h), p0.(pos := p0.tg.brk), w, n, c,
          if ob.Brk? then Val(NullV, ob.s) else op, fuel, false, 0)
    decreases fuel, f, 0
  {
    var pb := Skip(p1, 3, p0.h);
    n, c := SimBlock(m, f.body, pb, p2, s, fuel, w, false);
    var ob := ExecBlock(f.body, s, fuel);
    done := true;
    if ob.Brk? || ob.Cnt? { assert ob.s[0..] == ob.s && pb.c.scopes[0..] == pb.c.scopes; }
    if !ob.Val? && !ob.Cnt? { return; }
    BlockKeeps(m, f.body, pb, p2, false);
    if ob.Cnt? && f.post.None? { done := false; return; }
    var n1, c1 := SimOpt(m, f.post, p2.(tg := Target(p0.tg.brk, PLACEHOLDER)), p3, ob.s, fuel, c.w);
    if f.post.Some? { ContainedS(f.post.value, ob.s, fuel); }
    ReachesTrans(m.step, Config(pb.pos, w), n, c, n1, c1);
    n, c := n + n1, c1;
    var op := ExecOpt(f.post, ob.s, fuel);
    if op.Val? {
      DoJump(m, Config(pb.pos, w), n, c, p0.pos);
      n, c, done := n + 1, Config(p0.pos, c.w), false;
    }
  }
}
