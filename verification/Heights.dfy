/** Compiled code is well formed: every jump leads to an instruction, no placeholder is left,
    and every instruction has one operand height on all paths that lead to it. */
module Heights {
  import opened Language
  import opened Typing
  import opened Bytecode
  import opened Codegen
  import opened Scoping
  import opened Machine
  import opened FrameView
  import opened Placement
  import opened Preservation

  /** A byte position and the number of operands pending there. */
  datatype Mark = Mark(pos: nat, h: nat)

  predicate Pushes(i: Ins)
  {
    match i
    case Plain(op) => op == OP_TRUE || op == OP_FALSE || op == OP_NULL
    case Wide(op, _) => op == OP_CONSTANT || op == OP_GET_GLOBAL
    case _ => false
  }

  predicate Pops(i: Ins)
  {
    match i
    case Plain(op) => op == OP_POP || BinaryOp(op).Some? || CompareOp(op).Some?
    case Wide(op, _) => op == OP_SET_MUTABLE_GLOBAL || op == OP_SET_IMMUTABLE_GLOBAL
    case _ => false
  }

  /** How many operands an instruction needs. */
  function Needs(i: Ins): nat
  {
    match i
    case Plain(op) => if BinaryOp(op).Some? || CompareOp(op).Some? then 2 else if Pushes(i) then 0 else 1
    case Wide(op, _) => if op == OP_JUMP || Pushes(i) then 0 else 1
    case _ => 0
  }

  /** Where control goes from instruction `i` at `a`. */
  function Successors(i: Ins, a: Mark): set<Mark>
  {
    var next := a.pos + SizeOf(i);
    var less := if a.h == 0 then 0 else a.h - 1;
    if i.Wide? && i.op == OP_JUMP then {Mark(i.n, a.h)}
    else if i.Wide? && i.op == OP_JUMP_NOT_TRUTHY then {Mark(i.n, less), Mark(next, less)}
    else if Pushes(i) then {Mark(next, a.h + 1)}
    else if Pops(i) then {Mark(next, less)}
    else {Mark(next, a.h)}
  }

  predicate AtSome(marks: set<Mark>, pos: nat) { exists b :: b in marks && b.pos == pos }

  /** There is an instruction at `a` that finds its operands, and it leads into `marks` or
      `exits`; the next instruction begins at a mark. */
  ghost predicate Flows(m: Setup, a: Mark, marks: set<Mark>, exits: set<Mark>)
  {
    exists i :: Is(m, a.pos, i) && !i.Short? && Needs(i) <= a.h && AtSome(marks, a.pos + SizeOf(i))
      && Successors(i, a) <= marks + exits
  }

  /** The code from `a` to `b`: `marks` gives one height to each of its instructions. */
  ghost predicate Segment(m: Setup, marks: set<Mark>, a: Mark, b: Mark, exits: set<Mark>)
  {
    && a in marks && b in marks
    && (forall x :: x in marks ==> a.pos <= x.pos <= b.pos)
    && (forall x, y :: x in marks && y in marks && x.pos == y.pos ==> x == y)
    && (forall x :: x in marks && x.pos != b.pos ==> Flows(m, x, marks, exits))
  }

  // ---------- putting code together ----------

  lemma FlowsMore(m: Setup, a: Mark, marks: set<Mark>, exits: set<Mark>, marks': set<Mark>, exits': set<Mark>)
    requires Flows(m, a, marks, exits) && marks <= marks' && marks + exits <= marks' + exits'
    ensures Flows(m, a, marks', exits')
  {
    var i :| Is(m, a.pos, i) && !i.Short? && Needs(i) <= a.h && AtSome(marks, a.pos + SizeOf(i))
      && Successors(i, a) <= marks + exits;
    var b :| b in marks && b.pos == a.pos + SizeOf(i);
    assert b in marks';
  }

  lemma Nothing(m: Setup, a: Mark, exits: set<Mark>)
    ensures Segment(m, {a}, a, a, exits)
  {
  }

  /** One instruction. */
  lemma One(m: Setup, a: Mark, b: Mark, i: Ins, exits: set<Mark>)
    requires Is(m, a.pos, i) && !i.Short? && Needs(i) <= a.h && b.pos == a.pos + SizeOf(i)
      && Successors(i, a) <= {b} + exits
    ensures Segment(m, {a, b}, a, b, exits)
  {
    assert SizeOf(i) > 0;
    assert b in {a, b};
    assert AtSome({a, b}, a.pos + SizeOf(i));
    assert Flows(m, a, {a, b}, exits);
  }

  lemma Joined(m: Setup, m1: set<Mark>, m2: set<Mark>, a: Mark, b: Mark, c: Mark, exits: set<Mark>)
    requires Segment(m, m1, a, b, exits) && Segment(m, m2, b, c, exits)
    ensures Segment(m, m1 + m2, a, c, exits)
  {
    forall x | x in m1 + m2 && x.pos != c.pos ensures Flows(m, x, m1 + m2, exits) {
      if x in m1 && x.pos != b.pos { FlowsMore(m, x, m1, exits, m1 + m2, exits); }
      else { FlowsMore(m, x, m2, exits, m1 + m2, exits); }
    }
  }

  lemma Wider(m: Setup, marks: set<Mark>, a: Mark, b: Mark, exits: set<Mark>, exits': set<Mark>)
    requires Segment(m, marks, a, b, exits) && exits <= marks + exits'
    ensures Segment(m, marks, a, b, exits')
  {
    forall x | x in marks && x.pos != b.pos
      ensures Flows(m, x, marks, exits')
    {
      FlowsMore(m, x, marks, exits, marks, exits');
    }
  }

  lemma Then(m: Setup, marks: set<Mark>, a: Mark, b: Mark, c: Mark, i: Ins, exits: set<Mark>) returns (all: set<Mark>)
    ensures marks <= all
    requires Segment(m, marks, a, b, exits) && Is(m, b.pos, i) && !i.Short? && Needs(i) <= b.h
      && c.pos == b.pos + SizeOf(i) && Successors(i, b) <= {c} + exits
    ensures Segment(m, all, a, c, exits)
  {
    One(m, b, c, i, exits);
    Joined(m, marks, {b, c}, a, b, c, exits);
    all := marks + {b, c};
  }

  // ---------- the code of the fragment ----------

  function At(p: Place): Mark { Mark(p.pos, p.h) }

  /** Break and continue at `p` lead to marks of `exits`. */
  predicate Leads(p: Place, exits: set<Mark>) { Mark(p.tg.brk, p.h) in exits && Mark(p.tg.cont, p.h) in exits }

  lemma {:induction false} HeightsE(m: Setup, e: Expr, p: Place, q: Place, x: set<Mark>) returns (marks: set<Mark>)
    requires PlacedE(m, e, p, q) && ShapedE(e) && p.c.global && (EscapesE(e) ==> Leads(p, x))
    ensures Segment(m, marks, At(p), At(q), x)
    decreases e, 1
  {
    hide Segment;
    match e
    case IntLit(_) =>
      One(m, At(p), At(q), Wide(OP_CONSTANT, p.k), x);
      marks := {At(p), At(q)};
    case BoolLit(b) =>
      One(m, At(p), At(q), Plain(if b then OP_TRUE else OP_FALSE), x);
      marks := {At(p), At(q)};
    case Ident(y) =>
      One(m, At(p), At(q), GetIns(p.c, Resolve(p.c.scopes, y).value.index), x);
      marks := {At(p), At(q)};
    case Prefix(op, r) =>
      var p1 :| PlacedE(m, r, p, p1) && Is(m, p1.pos, PrefixIns(op)) && q.pos == p1.pos + 1;
      marks := HeightsE(m, r, p, p1, x);
      marks := Then(m, marks, At(p), At(p1), At(q), PrefixIns(op), x);
    case Infix(_, _, _) => marks := HeightsInfix(m, e, p, q, x);
    case If(_, _, _, _) =>
      var p1, p2 :| PlacedIf(m, e, p, p1, p2, q);
      marks := HeightsIf(m, e, p, p1, p2, q, x);
  }

  lemma {:induction false} HeightsInfix(m: Setup, e: Expr, p: Place, q: Place, x: set<Mark>) returns (marks: set<Mark>)
    requires e.Infix? && PlacedE(m, e, p, q) && ShapedE(e) && p.c.global && (EscapesE(e) ==> Leads(p, x))
    ensures Segment(m, marks, At(p), At(q), x)
    decreases e, 0
  {
    hide Leads, EffectFreeE, ShapedB, Is, Segment;
    var op := e.op;
    var (first, second) := if Swapped(op) then (e.rhs, e.left) else (e.left, e.rhs);
    var p1, p2 :| PlacedE(m, first, p, p1) && PlacedE(m, second, p1, p2) && Is(m, p2.pos, InfixIns(op))
      && q.pos == p2.pos + 1;
    if Swapped(op) { EffectFreeStays(e.left); }
    var a := HeightsE(m, first, p, p1, x);
    var b := HeightsE(m, second, p1, p2, x);
    Joined(m, a, b, At(p), At(p1), At(p2), x);
    InfixPops(op);
    marks := Then(m, a + b, At(p), At(p2), At(q), InfixIns(op), x);
  }

  lemma {:induction false} EffectFreeStays(e: Expr)
    requires EffectFreeE(e)
    ensures !EscapesE(e)
    decreases e
  {
    match e
    case Prefix(_, r) => EffectFreeStays(r);
    case Infix(_, l, r) =>
      EffectFreeStays(l);
      EffectFreeStays(r);
    case If(c, a, b, _) =>
      EffectFreeStays(c);
      EffectFreeBlockStays(a);
      if b.Some? { EffectFreeBlockStays(b.value); }
    case _ =>
  }

  lemma {:induction false} EffectFreeBlockStays(b: Block)
    requires EffectFreeB(b)
    ensures !EscapesB(b)
    decreases b
  {
    if b.Seq? {
      match b.head {
        case ExprStmt(e) => EffectFreeStays(e);
        case VarDecl(_, _, _, i) => if i.Some? { EffectFreeStays(i.value); }
      }
      EffectFreeBlockStays(b.tail);
    }
  }

  lemma InfixPops(op: InfixOp)
    ensures Pops(InfixIns(op)) && Needs(InfixIns(op)) == 2 && !Pushes(InfixIns(op)) && SizeOf(InfixIns(op)) == 1
      && InfixIns(op).Plain?
  {
  }

  lemma {:induction false} HeightsIf(m: Setup, e: Expr, p: Place, p1: Place, p2: Place, q: Place, x: set<Mark>)
    returns (marks: set<Mark>)
    requires e.If? && PlacedE(m, e, p, q) && PlacedIf(m, e, p, p1, p2, q) && ShapedE(e) && p.c.global
      && (EscapesE(e) ==> Leads(p, x))
    ensures Segment(m, marks, At(p), At(q), x)
    decreases e, 0
  {
    hide Segment;
    var pa, pb := Skip(p1, 3, p.h), Skip(p2, 3, p.h);
    var y := x + {At(pb), At(q)};
    var c := HeightsE(m, e.cond, p, p1, y);
    c := Then(m, c, At(p), At(p1), At(pa), Wide(OP_JUMP_NOT_TRUTHY, p2.pos + 3), y);
    var a := HeightsBranch(m, e.cons, e.unit, pa, p2, y);
    Joined(m, c, a, At(p), At(pa), At(p2), y);
    a := Then(m, c + a, At(p), At(p2), At(pb), Wide(OP_JUMP, q.pos), y);
    var b;
    if e.alt.None? {
      One(m, At(pb), At(q), Plain(OP_NULL), y);
      b := {At(pb), At(q)};
    } else {
      b := HeightsBranch(m, e.alt.value, e.unit, pb, q, y);
    }
    Joined(m, a, b, At(p), At(pb), At(q), y);
    marks := a + b;
    Ends(m, b, At(pb), At(q), y);
    Wider(m, marks, At(p), At(q), y, x);
  }

  lemma Ends(m: Setup, marks: set<Mark>, a: Mark, b: Mark, exits: set<Mark>)
    requires Segment(m, marks, a, b, exits)
    ensures a in marks && b in marks
  {
  }

  lemma {:induction false} HeightsBranch(m: Setup, b: Block, unit: bool, p: Place, q: Place, x: set<Mark>)
    returns (marks: set<Mark>)
    requires PlacedBranch(m, b, unit, p, q) && ShapedB(b) && p.c.global && (EscapesB(b) ==> Leads(p, x))
    ensures Segment(m, marks, At(p), At(q), x) && q.h == p.h + 1 && q.tg == p.tg && q.c.global
    decreases b, 4
  {
    hide Segment;
    if unit {
      var p1 :| PlacedBlock(m, b, p, p1, false) && Is(m, p1.pos, Plain(OP_NULL)) && Room(m, p.h)
        && q == Skip(p1, 1, p.h + 1);
      marks := HeightsBlock(m, b, p, p1, false, x);
      marks := Then(m, marks, At(p), At(p1), At(q), Plain(OP_NULL), x);
    } else {
      marks := HeightsBlock(m, b, p, q, true, x);
    }
  }

  lemma {:induction false} HeightsBlock(m: Setup, b: Block, p: Place, q: Place, keep: bool, x: set<Mark>)
    returns (marks: set<Mark>)
    requires PlacedBlock(m, b, p, q, keep) && ShapedB(b) && p.c.global && (EscapesB(b) ==> Leads(p, x))
    ensures Segment(m, marks, At(p), At(q), x) && q.h == (if keep then p.h + 1 else p.h) && q.tg == p.tg && q.c.global
    decreases b, 3
  {
    hide Segment;
    var q1 :| PlacedStmts(m, b, p.(c := Push(p.c)), q1, keep) && q1.c.scopes != [] && q == q1.(c := PopScope(q1.c))
      && q.c.scopes == p.c.scopes;
    marks := HeightsStmts(m, b, p.(c := Push(p.c)), q1, keep, x);
  }

  lemma {:induction false} HeightsStmts(m: Setup, b: Block, p: Place, q: Place, keep: bool, x: set<Mark>)
    returns (marks: set<Mark>)
    requires PlacedStmts(m, b, p, q, keep) && ShapedB(b) && p.c.global && (EscapesB(b) ==> Leads(p, x))
    ensures Segment(m, marks, At(p), At(q), x)
    decreases b, 2
  {
    hide Segment;
    match b
    case Empty =>
      Nothing(m, At(p), x);
      marks := {At(p)};
    case Seq(h, t) =>
      if keep && t.Empty? {
        match h {
          case ExprStmt(e) =>
            assert EscapesE(e) ==> EscapesS(h);
            marks := HeightsE(m, e, p, q, x);
          case Break =>
            One(m, At(p), At(q), Wide(OP_JUMP, p.tg.brk), x);
            marks := {At(p), At(q)};
          case Continue =>
            One(m, At(p), At(q), Wide(OP_JUMP, p.tg.cont), x);
            marks := {At(p), At(q)};
          case _ => assert false;
        }
      } else {
        var p1 :| PlacedS(m, h, p, p1) && PlacedStmts(m, t, p1, q, keep);
        var a := HeightsS(m, h, p, p1, x);
        var c := HeightsStmts(m, t, p1, q, keep, x);
        Joined(m, a, c, At(p), At(p1), At(q), x);
        marks := a + c;
      }
  }

  lemma {:induction false} HeightsOpt(m: Setup, s: Option<Stmt>, p: Place, q: Place, x: set<Mark>)
    returns (marks: set<Mark>)
    requires PlacedOpt(m, s, p, q) && (s.Some? ==> ShapedS(s.value) && (EscapesS(s.value) ==> Leads(p, x)))
      && p.c.global
    ensures Segment(m, marks, At(p), At(q), x) && q.h == p.h && q.c.global
    decreases s, 5
  {
    hide Segment;
    if s.None? {
      Nothing(m, At(p), x);
      marks := {At(p)};
    } else {
      marks := HeightsS(m, s.value, p, q, x);
    }
  }

  lemma {:induction false} HeightsS(m: Setup, s: Stmt, p: Place, q: Place, x: set<Mark>) returns (marks: set<Mark>)
    requires PlacedS(m, s, p, q) && ShapedS(s) && p.c.global && (EscapesS(s) ==> Leads(p, x))
    ensures Segment(m, marks, At(p), At(q), x)
    decreases s, 3
  {
    hide Segment;
    match s
    case ExprStmt(e) =>
      var p1 :| PlacedE(m, e, p, p1) && Is(m, p1.pos, Plain(OP_POP)) && q.pos == p1.pos + 1;
      marks := HeightsE(m, e, p, p1, x);
      marks := Then(m, marks, At(p), At(p1), At(q), Plain(OP_POP), x);
    case VarDecl(constant, _, ty, init) =>
      var p1 :| PlacedInit(m, init, ty, p, p1)
           && Is(m, p1.pos, SetIns(p.c, p1.c.next, constant))
           && q.pos == p1.pos + SizeOf(SetIns(p.c, p1.c.next, constant));
      marks := HeightsInit(m, init, ty, p, p1, x);
      marks := Then(m, marks, At(p), At(p1), At(q), SetIns(p.c, p1.c.next, constant), x);
    case Assign(y, e) =>
      var i := SetIns(p.c, Resolve(p.c.scopes, y).value.index, false);
      var p1 :| PlacedE(m, e, p, p1) && Is(m, p1.pos, i) && q.pos == p1.pos + SizeOf(i);
      marks := HeightsE(m, e, p, p1, x);
      marks := Then(m, marks, At(p), At(p1), At(q), i, x);
    case For(_, _, _, _) =>
      var p0, p1, p2, p3 :| PlacedFor(m, s, p, p0, p1, p2, p3, q);
      marks := HeightsFor(m, s, p, p0, p1, p2, p3, q, x);
    case _ =>
      One(m, At(p), At(q), Wide(OP_JUMP, if s.Break? then p.tg.brk else p.tg.cont), x);
      marks := {At(p), At(q)};
  }

  lemma {:induction false} HeightsInit(m: Setup, init: Option<Expr>, ty: Option<Ty>, p: Place, q: Place, x: set<Mark>)
    returns (marks: set<Mark>)
    requires PlacedInit(m, init, ty, p, q)
      && (init.Some? ==> ShapedE(init.value) && (EscapesE(init.value) ==> Leads(p, x))) && p.c.global
    ensures Segment(m, marks, At(p), At(q), x) && q.h == p.h + 1
    decreases init, 2
  {
    hide Segment;
    if init.Some? {
      marks := HeightsE(m, init.value, p, q, x);
    } else {
      One(m, At(p), At(q), match ty case Some(TInt) => Wide(OP_CONSTANT, p.k) case Some(TBool) => Plain(OP_FALSE)
        case _ => Plain(OP_NULL), x);
      marks := {At(p), At(q)};
    }
  }

  /** In a loop, break and continue lead to places of the loop itself. */
  lemma {:induction false} HeightsFor(m: Setup, s: Stmt, p: Place, p0: Place, p1: Place, p2: Place, p3: Place, q: Place,
          x: set<Mark>) returns (marks: set<Mark>)
    requires s.For? && PlacedS(m, s, p, q) && PlacedFor(m, s, p, p0, p1, p2, p3, q) && ShapedS(s) && p.c.global
    ensures Segment(m, marks, At(p), At(q), x)
    decreases s, 2
  {
    hide Segment;
    var l := p0.(tg := Target(p3.pos + 3, if s.post.Some? then p2.pos else p0.pos));
    var out, popped := Mark(p3.pos + 3, p.h), Mark(p3.pos + 4, p.h + 1);
    var first := HeightsOpt(m, s.first, p.(c := Push(p.c)), p0, x);
    var loop := HeightsLoop(m, s, l, p1, p2, p3, x);
    Joined(m, first, loop, At(p), At(p0), out, x);
    marks := Then(m, first + loop, At(p), out, popped, Plain(OP_NULL), x);
    marks := Then(m, marks, At(p), popped, At(q), Plain(OP_POP), x);
  }

  lemma {:induction false} HeightsLoop(m: Setup, s: Stmt, l: Place, p1: Place, p2: Place, p3: Place, x: set<Mark>)
    returns (marks: set<Mark>)
    requires s.For? && PlacedLoop(m, s, l, p1, p2, p3) && ShapedS(s) && l.c.global && l.tg.brk == p3.pos + 3
    ensures Segment(m, marks, At(l), Mark(p3.pos + 3, l.h), x)
    decreases s, 1
  {
    hide Segment;
    var out, back := Mark(p3.pos + 3, l.h), Mark(l.tg.cont, l.h);
    var y := x + {out, back, At(l)};
    var pa := Skip(p1, 3, l.h);
    var c := HeightsE(m, s.test, l, p1, y);
    c := Then(m, c, At(l), At(p1), At(pa), Wide(OP_JUMP_NOT_TRUTHY, l.tg.brk), y);
    var b := HeightsBlock(m, s.body, pa, p2, false, y);
    Ends(m, b, At(pa), At(p2), y);
    Joined(m, c, b, At(l), At(pa), At(p2), y);
    var t := p2.(tg := Target(l.tg.brk, PLACEHOLDER));
    var post := HeightsOpt(m, s.post, t, p3, y);
    Joined(m, c + b, post, At(l), At(p2), At(p3), y);
    marks := Then(m, c + b + post, At(l), At(p3), out, Wide(OP_JUMP, l.pos), y);
    Ends(m, marks, At(l), out, y);
    Wider(m, marks, At(l), out, y, x);
  }

  // ---------- whole programs ----------

  /** For every program that compiles and fits: the bytes decode to one sequence of
      instructions; each has one height; jumps lead to instructions; the program begins and
      ends with no operand. */
  lemma WellFormed(prog: Block) returns (marks: set<Mark>)
    requires Fitting(prog) && ShapedB(prog)
    ensures Segment(Running(MainFrame(prog), true, 0), marks, Mark(0, 0), Mark(|MainFrame(prog).code|, 0), {})
  {
    var m := Running(MainFrame(prog), true, 0);
    var q := ProgramPlaced(prog, m);
    ClosedB(prog, TOP, 0, 0);
    marks := HeightsStmts(m, prog, Place(TOP, 0, 0, 0, Target(PLACEHOLDER, PLACEHOLDER)), q, false, {});
  }

  /** One step of the machine follows the marks. */
  lemma StepMarked(f: Frame, st: State, i: Ins, a: Mark)
    requires a == Mark(st.ip, |st.stack|) && Decode(f.code, st.ip) == Some(i) && Needs(i) <= a.h && Step(f, st).Next?
    requires !i.Short?
    ensures Mark(Step(f, st).st.ip, |Step(f, st).st.stack|) in Successors(i, a)
  {
  }

  lemma FollowsMarks(f: Frame, m: Setup, marks: set<Mark>, b: Mark, st: State)
    requires m == Running(f, true, 0) && Segment(m, marks, Mark(0, 0), b, {}) && b.pos == |f.code|
    requires Mark(st.ip, |st.stack|) in marks && Step(f, st).Next?
    ensures Mark(Step(f, st).st.ip, |Step(f, st).st.stack|) in marks
  {
    hide Decode, Exec;
    var a := Mark(st.ip, |st.stack|);
    assert Flows(m, a, marks, {});
    var i :| Is(m, a.pos, i) && !i.Short? && Needs(i) <= a.h && AtSome(marks, a.pos + SizeOf(i))
      && Successors(i, a) <= marks + {};
    StepMarked(f, st, i, a);
  }

  /** In every reachable state of the machine the stack has the height of the instruction it is
      at, so that the machine never misses an operand and never leaves the code. */
  lemma {:induction false} RunMarked(f: Frame, m: Setup, marks: set<Mark>, b: Mark, st: State, n: nat, st': State)
    requires m == Running(f, true, 0) && Segment(m, marks, Mark(0, 0), b, {}) && b.pos == |f.code|
    requires Mark(st.ip, |st.stack|) in marks && Reaches(Stepper(f), st, n, st')
    ensures Mark(st'.ip, |st'.stack|) in marks
    decreases n
  {
    hide Segment, Step;
    if n > 0 {
      FollowsMarks(f, m, marks, b, st);
      RunMarked(f, m, marks, b, Step(f, st).st, n - 1, st');
    }
  }

  /** The stack height of a running program depends on the position in the code alone. */
  lemma OneHeight(prog: Block, globals: seq<Value>, n1: nat, st1: State, n2: nat, st2: State)
    requires Fitting(prog) && ShapedB(prog)
    requires Reaches(Stepper(MainFrame(prog)), State(0, [], globals), n1, st1)
      && Reaches(Stepper(MainFrame(prog)), State(0, [], globals), n2, st2)
    ensures st1.ip == st2.ip ==> |st1.stack| == |st2.stack|
    ensures st1.ip <= |MainFrame(prog).code|
  {
    var f, m := MainFrame(prog), Running(MainFrame(prog), true, 0);
    var marks := WellFormed(prog);
    RunMarked(f, m, marks, Mark(|f.code|, 0), State(0, [], globals), n1, st1);
    RunMarked(f, m, marks, Mark(|f.code|, 0), State(0, [], globals), n2, st2);
  }
}
