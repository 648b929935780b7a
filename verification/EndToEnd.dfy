/** From source text tree to result: the imperative compiler and the imperative VM together
    do what the source semantics says. */
module EndToEnd {
  import opened Language
  import opened Typing
  import opened Bytecode
  import opened Codegen
  import opened Scoping
  import opened Machine
  import opened Preservation
  import opened FiberRun
  import Compilers

  /** The program ended normally and the globals hold its variables. */
  ghost predicate AgreesWith(prog: Block, o: Out, globals: seq<Value>)
    requires GenProgram(prog).Gen?
  {
    o.Val? && Rel(GenProgram(prog).ctx.scopes, o.s, globals)
  }

  lemma FinishedAgrees(prog: Block, globals: seq<Value>, n: nat, st: State)
    requires Fitting(prog) && ShapedB(prog) && WellTyped(prog) && |globals| == GLOBALS_SIZE
    requires Reaches(Stepper(MainFrame(prog)), State(0, [], globals), n, st) && Step(MainFrame(prog), st).Halt?
    ensures st.stack == [] && AgreesWith(prog, ExecStmts(prog, [map[]], n + 1), st.globals)
  {
    StopsThenTerminates(prog, globals, n, st);
    assert StopsAt(Stepper(MainFrame(prog)), State(0, [], globals), n, st);
    StopsIffTerminates(prog, globals);
  }

  /** A machine that failed after `n` steps failed because the program does. */
  lemma FailedAgrees(prog: Block, globals: seq<Value>, n: nat, st: State)
    requires Fitting(prog) && ShapedB(prog) && WellTyped(prog) && |globals| == GLOBALS_SIZE
    requires Reaches(Stepper(MainFrame(prog)), State(0, [], globals), n, st) && Step(MainFrame(prog), st).Fault?
    ensures ExecStmts(prog, [map[]], n + 1).Fail?
  {
    hide Reaches, ExecStmts, Step, Decode, Rel, GenStmts, Encode;
    var m, c := Preserved(prog, n + 1, globals);
    TypedNotStuck(prog, n + 1);
    NothingAfter(Stepper(MainFrame(prog)), State(0, [], globals), n, st, m, c);
  }

  /** The globals of a new VM. */
  function NewGlobals(): seq<Value> { seq(GLOBALS_SIZE, _ => NullV) }

  /** The machine comes to an end in less than so many time slices of 1023 instructions. */
  ghost predicate Enough(prog: Block, dispatches: nat)
    requires GenProgram(prog).Gen?
  {
    exists n: nat, st: State :: Reaches(Stepper(MainFrame(prog)), State(0, [], NewGlobals()), n, st)
      && n < dispatches * 1023
      && !Step(MainFrame(prog), st).Next?
  }

  /** Every program that terminates, normally or with an error, is finished after enough dispatches. */
  lemma EnoughDispatches(prog: Block, fuel: nat) returns (n: nat)
    requires Fitting(prog) && ShapedB(prog)
    requires var o := ExecStmts(prog, [map[]], fuel); o.Val? || o.Fail?
    ensures forall d: nat :: n <= d ==> Enough(prog, d)
  {
    var m, st := Preserved(prog, fuel, NewGlobals());
    n := m + 1;
    forall d: nat | n <= d ensures Enough(prog, d) {
      assert m < d * 1023;
    }
  }

  lemma NotPreempted(prog: Block, dispatches: nat, n: nat, st: State)
    requires GenProgram(prog).Gen? && Enough(prog, dispatches)
    requires Reaches(Stepper(MainFrame(prog)), State(0, [], NewGlobals()), n, st)
    ensures n < dispatches * 1023
  {
    hide Step, Reaches;
    var m: nat, end: State :| Reaches(Stepper(MainFrame(prog)), State(0, [], NewGlobals()), m, end)
      && m < dispatches * 1023
      && !Step(MainFrame(prog), end).Next?;
    NothingAfter(Stepper(MainFrame(prog)), State(0, [], NewGlobals()), m, end, n, st);
  }

  /** Compile a program and dispatch its main fiber at most `dispatches` times. If it ends,
      the globals hold the final store of the source program and the stack is empty; if it
      fails, so does the source program; otherwise every dispatch used up its time slice of 1023
      instructions, which does not happen if the dispatches are enough. */
  method CompileAndRun(prog: Block, dispatches: nat) returns (r: Verdict, globals: seq<Value>, sp: nat, ghost n: nat)
    requires Fitting(prog) && ShapedB(prog) && WellTyped(prog)
    ensures r == Finished ==> sp == 0
    ensures r == Finished ==> AgreesWith(prog, ExecStmts(prog, [map[]], n + 1), globals)
    ensures r == Failed ==> ExecStmts(prog, [map[]], n + 1).Fail?
    ensures r == Preempted ==> n == dispatches * 1023
    ensures Enough(prog, dispatches) ==> r != Preempted
  {
    var ok, bytes, constants := Compilers.CompileProgram(prog);
    var f := new Fiber(Frame(bytes, constants, 0));
    ghost var start := f.Now();
    ghost var st;
    r, n, st := f.Dispatch(dispatches);
    if r == Finished { FinishedAgrees(prog, start.globals, n, st); }
    if r == Failed { FailedAgrees(prog, start.globals, n, st); }
    if Enough(prog, dispatches) { NotPreempted(prog, dispatches, n, st); }
    globals, sp := f.globals[..], f.sp;
  }
}
