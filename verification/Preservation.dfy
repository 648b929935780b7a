/** Compiler correctness: what a compiled program does on the machine is what the source
    semantics says, including errors and non-termination. */
module Preservation {
  import opened Language
  import opened Typing
  import opened Bytecode
  import opened Codegen
  import opened Scoping
  import opened Machine
  import opened FrameView
  import opened Placement
  import opened Emission
  import opened Simulation

  // ---------- a compiled program has no open exits ----------

  lemma {:induction false} ClosedE(e: Expr, c: Ctx, pos: nat, k: nat)
    requires GenE(e, c, pos, k, NoLoop).Gen?
    ensures !EscapesE(e)
    decreases e, 1
  {
    match e
    case IntLit(_) =>
    case BoolLit(_) =>
    case Ident(_) =>
    case Prefix(_, r) => ClosedE(r, c, pos, k);
    case Infix(op, l, r) =>
      var (a, b) := if Swapped(op) then (r, l) else (l, r);
      ClosedE(a, c, pos, k);
      var g := GenE(a, c, pos, k, NoLoop);
      ClosedE(b, g.ctx, pos + g.size, k + |g.consts|);
    case If(_, _, _, _) => ClosedIf(e, c, pos, k);
  }

  lemma {:induction false} ClosedIf(e: Expr, c: Ctx, pos: nat, k: nat)
    requires e.If? && GenE(e, c, pos, k, NoLoop).Gen?
    ensures !EscapesE(e)
    decreases e, 0
  {
    var x := TakeApart(e, Place(c, pos, k, 0, Target(0, 0)), NoLoop);
    ClosedE(e.cond, c, pos, k);
    ClosedB(e.cons, Push(x.pa.c), x.pa.pos, x.pa.k);
    if e.alt.Some? {
      assert GB(e.alt.value, x.pb, NoLoop).Gen?;
      ClosedB(e.alt.value, Push(x.pb.c), x.pb.pos, x.pb.k);
    }
  }

  lemma {:induction false} ClosedB(b: Block, c: Ctx, pos: nat, k: nat)
    requires GenStmts(b, c, pos, k, NoLoop).Gen?
    ensures !EscapesB(b)
    decreases b, 0
  {
    if b.Seq? {
      ClosedS(b.head, c, pos, k);
      var g := GenS(b.head, c, pos, k, NoLoop);
      ClosedB(b.tail, g.ctx, pos + g.size, k + |g.consts|);
    }
  }

  lemma {:induction false} ClosedS(s: Stmt, c: Ctx, pos: nat, k: nat)
    requires GenS(s, c, pos, k, NoLoop).Gen?
    ensures !EscapesS(s)
    decreases s, 1
  {
    match s
    case ExprStmt(e) => ClosedE(e, c, pos, k);
    case VarDecl(_, _, _, i) => if i.Some? { ClosedE(i.value, c, pos, k); }
    case Assign(_, e) => ClosedE(e, c, pos, k);
    case For(f, _, _, _) =>
      assert GenFor(s, c, pos, k, NoLoop).Gen?;
      assert GenOpt(f, Push(c), pos, k, NoLoop).Gen?;
      if f.Some? { ClosedS(f.value, Push(c), pos, k); }
    case Break =>
    case Continue =>
  }

  // ---------- whole programs ----------

  const TOP: Ctx := Ctx([map[]], 0, true)

  /** What `Compile` yields for the statements of a program. */
  function GenProgram(prog: Block): Gen { GenStmts(prog, TOP, 0, 0, NoLoop) }

  /** Jump targets, constant indices and slots fit the encoding, variables fit the globals,
      and operands fit the stack. */
  predicate Fitting(prog: Block)
  {
    var g := GenProgram(prog);
    && g.Gen? && AllFit(Fill(g.code, PLACEHOLDER, PLACEHOLDER))
    && g.ctx.next <= GLOBALS_SIZE && DepthB(prog) <= STACK_SIZE
  }

  function MainFrame(prog: Block): Frame
    requires GenProgram(prog).Gen?
  {
    Frame(Encode(GenProgram(prog).code), GenProgram(prog).consts, 0)
  }

  /** How a run of `n` steps to `st` mirrors the outcome `o` of a program whose variables
      have the slots `sc`. */
  ghost predicate Agrees(step: State -> Outcome<State>, sc: Scopes, o: Out, fuel: nat, n: nat, st: State)
  {
    match o
    case Val(_, s) => step(st).Halt? && st.stack == [] && Rel(sc, s, st.globals)
    case Fail => step(st).Fault?
    case Timeout => n >= fuel
    case Stuck => true
    case _ => false
  }

  lemma {:induction false} EncodeFilled(c: seq<Ins>)
    ensures Encode(Fill(c, PLACEHOLDER, PLACEHOLDER)) == Encode(c)
  {
    if c != [] {
      EncodeFilled(c[1..]);
      assert Fill(c, PLACEHOLDER, PLACEHOLDER)[1..] == Fill(c[1..], PLACEHOLDER, PLACEHOLDER);
    }
  }

  lemma ProgramPlaced(prog: Block, m: Setup) returns (q: Place)
    requires Fitting(prog) && ShapedB(prog) && m == Running(MainFrame(prog), true, 0)
    ensures PlacedStmts(m, prog, Place(TOP, 0, 0, 0, Target(PLACEHOLDER, PLACEHOLDER)), q, false)
    ensures Drives(m) && q.pos == |m.f.code| && q.c == GenProgram(prog).ctx && q.h == 0
  {
    hide GenE, GenStmts, GenS, GenIf, GenFor, GenBlock, JoinIf, JoinFor, Size, Fill, Encode, CodeAt, DepthB,
      PlacedStmts;
    var g := GenProgram(prog);
    var p := Place(TOP, 0, 0, 0, Target(PLACEHOLDER, PLACEHOLDER));
    RunningDrives(m.f, true, 0);
    var filled := Fill(g.code, PLACEHOLDER, PLACEHOLDER);
    EncodeFilled(g.code);
    EncodeDecode([], filled, []);
    assert [] + Encode(filled) + [] == m.f.code;
    assert FilledAt(m, 0, g.code, PLACEHOLDER, PLACEHOLDER);
    assert g.consts[0..|g.consts|] == g.consts;
    SizedStmts(prog, TOP, 0, 0, NoLoop);
    q := AfterB(p, g, false);
    PlaceStmts(m, prog, p, NoLoop, false);
  }

  /** Every run of every program that compiles: the final globals are the final store and the
      stack is empty again; an error stops the machine with an error; and if the source needs
      more than `fuel` iterations, the machine takes at least `fuel` steps. */
  lemma Preserved(prog: Block, fuel: nat, globals: seq<Value>) returns (n: nat, st: State)
    requires Fitting(prog) && ShapedB(prog) && |globals| == GLOBALS_SIZE
    ensures Reaches(Stepper(MainFrame(prog)), State(0, [], globals), n, st)
    ensures Agrees(Stepper(MainFrame(prog)), GenProgram(prog).ctx.scopes, ExecStmts(prog, [map[]], fuel), fuel, n, st)
  {
    var f := MainFrame(prog);
    var m := Running(f, true, 0);
    var q := ProgramPlaced(prog, m);
    var p := Place(TOP, 0, 0, 0, Target(PLACEHOLDER, PLACEHOLDER));
    var w := View(globals, []);
    var c;
    n, c := SimStmts(m, prog, p, q, [map[]], fuel, w, false);
    ClosedB(prog, TOP, 0, 0);
    ContainedB(prog, [map[]], fuel);
    st := FollowsRun(m, State(0, [], globals), Config(0, w), ([], []), n, c);
  }

  // ---------- consequences ----------

  /** The machine stops normally after exactly `n` steps in `st`. */
  predicate StopsAt(step: State -> Outcome<State>, a: State, n: nat, st: State)
  {
    Reaches(step, a, n, st) && step(st).Halt?
  }

  /** A run that stopped, normally or with an error, cannot be extended. */
  lemma NothingAfter(step: State -> Outcome<State>, a: State, n: nat, b: State, m: nat, c: State)
    requires Reaches(step, a, n, b) && !step(b).Next? && Reaches(step, a, m, c)
    ensures m <= n
    ensures !step(c).Next? ==> m == n && b == c
  {
    if m >= n {
      ReachesDeterministic(step, a, n, b, m, c);
    } else {
      ReachesDeterministic(step, a, m, c, n, b);
    }
  }

  /** A machine that stopped after `n` steps stopped because the program ended. */
  lemma EndedNormally(step: State -> Outcome<State>, a: State, sc: Scopes, n: nat, st: State, o: Out, m: nat, c: State)
    requires StopsAt(step, a, n, st) && Reaches(step, a, m, c) && Agrees(step, sc, o, n + 1, m, c) && !o.Stuck?
    ensures o.Val? && st == c
  {
    NothingAfter(step, a, n, st, m, c);
  }

  predicate WellTyped(prog: Block) { TypeB(prog, [map[]]).Some? }

  /** A well-typed program never reaches an operator on which evaluator and VM disagree. */
  lemma TypedNotStuck(prog: Block, fuel: nat)
    requires WellTyped(prog) && ShapedB(prog)
    ensures !ExecStmts(prog, [map[]], fuel).Stuck?
  {
    SoundB(prog, [map[]], [map[]], fuel);
  }

  lemma StopsThenTerminates(prog: Block, globals: seq<Value>, n: nat, st: State)
    requires Fitting(prog) && ShapedB(prog) && WellTyped(prog) && |globals| == GLOBALS_SIZE
    requires StopsAt(Stepper(MainFrame(prog)), State(0, [], globals), n, st)
    ensures ExecStmts(prog, [map[]], n + 1).Val?
  {
    var m, c := Preserved(prog, n + 1, globals);
    TypedNotStuck(prog, n + 1);
    EndedNormally(Stepper(MainFrame(prog)), State(0, [], globals), GenProgram(prog).ctx.scopes, n, st,
      ExecStmts(prog, [map[]], n + 1), m, c);
  }

  lemma TerminatesThenStops(prog: Block, globals: seq<Value>, fuel: nat) returns (n: nat, st: State)
    requires Fitting(prog) && ShapedB(prog) && |globals| == GLOBALS_SIZE && ExecStmts(prog, [map[]], fuel).Val?
    ensures StopsAt(Stepper(MainFrame(prog)), State(0, [], globals), n, st)
    ensures st.stack == [] && Rel(GenProgram(prog).ctx.scopes, ExecStmts(prog, [map[]], fuel).s, st.globals)
  {
    n, st := Preserved(prog, fuel, globals);
  }

  /** For well-typed programs the machine stops normally exactly when the source program
      terminates normally, and then with the source program's store. */
  lemma StopsIffTerminates(prog: Block, globals: seq<Value>)
    requires Fitting(prog) && ShapedB(prog) && WellTyped(prog) && |globals| == GLOBALS_SIZE
    ensures (exists n: nat, st: State :: StopsAt(Stepper(MainFrame(prog)), State(0, [], globals), n, st))
       <==> (exists fuel: nat :: ExecStmts(prog, [map[]], fuel).Val?)
    ensures forall n: nat, st: State, fuel: nat ::
      StopsAt(Stepper(MainFrame(prog)), State(0, [], globals), n, st) && ExecStmts(prog, [map[]], fuel).Val? ==>
        st.stack == [] && Rel(GenProgram(prog).ctx.scopes, ExecStmts(prog, [map[]], fuel).s, st.globals)
  {
    var step, st0 := Stepper(MainFrame(prog)), State(0, [], globals);
    if n: nat, st: State :| StopsAt(step, st0, n, st) {
      StopsThenTerminates(prog, globals, n, st);
    }
    if fuel: nat :| ExecStmts(prog, [map[]], fuel).Val? {
      var n, st := TerminatesThenStops(prog, globals, fuel);
    }
    forall n: nat, st: State, fuel: nat | StopsAt(step, st0, n, st) && ExecStmts(prog, [map[]], fuel).Val?
      ensures st.stack == [] && Rel(GenProgram(prog).ctx.scopes, ExecStmts(prog, [map[]], fuel).s, st.globals)
    {
      var n', st' := TerminatesThenStops(prog, globals, fuel);
      NothingAfter(step, st0, n, st, n', st');
    }
  }
}
