/** Programs with functions, from the source to the bytes the VM executes. */
module Programs {
  import opened Language
  import opened Bytecode
  import M = Machine
  import opened Closures
  import opened Conversion
  import opened LexicalScoping
  import opened CallMachine
  import opened Assembly
  import opened CallRuns

  /** The code of a program and its constants. */
  function Built(t: Term): Asm
    requires Compile(t, [GLOBAL]).Compiled?
  {
    Assemble(Compile(t, [GLOBAL]).code, 0)
  }

  /** A VM about to run it: whatever lies in the stack cells, `n` globals. */
  function Loaded(t: Term, mem: seq<MVal>, n: nat): Vm
    requires Compile(t, [GLOBAL]).Compiled?
  {
    Vm([Act(Fun(EncodeOps(Built(t).ops), 0, 0), [], 0, 0)], mem, 0, seq(n, _ => MNum(0)))
  }

  /** A value of the source and one of the VM. */
  ghost predicate Same(pool: seq<Const>, v: Val, m: MVal) { exists c: CVal :: RelV(v, c) && V(pool, c, m) }

  lemma SameNumbers(pool: seq<Const>, v: Val, m: MVal)
    requires Same(pool, v, m)
    ensures forall i :: v == VNum(i) <==> m == MNum(i)
  {
    var c: CVal :| RelV(v, c) && V(pool, c, m);
  }

  /** The VM stopped with the value and the globals of the source, or with an error where the source
      has one, or is as deep in calls as the source. */
  ghost predicate Matches(s: Setting, r: Result<Val>, fuel: nat, w: Vm)
  {
    match r
    case Gave(v, sc) =>
      && StepVm(s, w).Halt? && |w.frames| == 1 && w.sp == 1 && |w.mem| > 0 && Same(s.pool, v, w.mem[0])
      && |w.globals| == |sc.cells| && forall i :: 0 <= i < |w.globals| ==> Same(s.pool, sc.cells[i], w.globals[i])
    case Wrong => StepVm(s, w).Fault?
    case TooDeep => |w.frames| > fuel
  }

  /** For every program, any contents of the stack cells, any number of globals and of frames: the
      VM runs out of cells or frames, or it does what the source means. */
  lemma BytesCorrect(t: Term, s: Setting, mem: seq<MVal>, n: nat, fuel: nat) returns (steps: nat, w: Vm)
    requires Compile(t, [GLOBAL]).Compiled? && Clean(t, [GLOBAL]) && FitsCode(Compile(t, [GLOBAL]).code, 0)
    requires s.pool == Built(t).consts
    ensures M.Reaches(Stepper(s), Loaded(t, mem, n), steps, w)
    ensures Full(s, w) || Matches(s, Eval(t, Initially(n), fuel), fuel, w)
    ensures var r := Eval(t, Initially(n), fuel);
      !Full(s, w) && r.Gave? ==> forall i :: r.v == VNum(i) <==> w.mem[0] == MNum(i)
  {
    hide FitsCode, Assemble, OpsAt, EncodeOps, Exec, RelV;
    var c, vm := Compile(t, [GLOBAL]).code, Loaded(t, mem, n);
    OpsFit(c, 0);
    EncodedOpsAt([], Built(t).ops, []);
    assert [] + EncodeOps(Built(t).ops) + [] == EncodeOps(Built(t).ops);
    assert s.pool[0..|s.pool|] == s.pool;
    assert Ready(s, c, Booted(n), vm, 0);
    steps, w := Runs(s, c, Booted(n), fuel, vm, 0);
    ConversionCorrect(t, n, fuel);
    if !Full(s, w) {
      var r, q := Eval(t, Initially(n), fuel), Exec(c, Booted(n), fuel);
      if q.Left? {
        Ended(s, r.v, r.s.cells, q.v, Booted(n), q.fr, vm, w, Built(t).ops);
        SameNumbers(s.pool, r.v, w.mem[0]);
      }
    }
  }

  lemma Ended(s: Setting, v: Val, cells: seq<Val>, cv: CVal, fr: Frame, fr': Frame, vm: Vm, w: Vm, ops: seq<Op>)
    requires Done(s.pool, cv, fr, fr', vm, w, OpsSize(ops)) && RelV(v, cv) && CellsRel(cells, fr'.globals) && vm.sp == 0
    requires |vm.frames| == 1 && vm.frames[0].ip == 0 && vm.frames[0].fun.code == EncodeOps(ops) && AllOpsFit(ops)
    ensures StepVm(s, w).Halt? && |w.frames| == 1 && w.sp == 1 && |w.mem| > 0 && Same(s.pool, v, w.mem[0])
    ensures |w.globals| == |cells| && forall i :: 0 <= i < |w.globals| ==> Same(s.pool, cells[i], w.globals[i])
  {
    hide V, RelV, OpsSize, EncodeOps;
    assert |EncodeOps(ops)| == OpsSize(ops) by { Encoded(ops); }
  }

  lemma Encoded(ops: seq<Op>)
    requires AllOpsFit(ops)
    ensures |EncodeOps(ops)| == OpsSize(ops)
  {
  }

  // ---------- every run ends ----------

  lemma FewFrames(s: Setting, vm: Vm)
    requires |vm.frames| <= s.maxFrames && StepVm(s, vm).Next?
    ensures |StepVm(s, vm).st.frames| <= s.maxFrames
  {
    hide DecodeOp, OpSize;
  }

  lemma {:induction false} FewFramesRun(s: Setting, vm: Vm, n: nat, w: Vm)
    requires |vm.frames| <= s.maxFrames && M.Reaches(Stepper(s), vm, n, w)
    ensures |w.frames| <= s.maxFrames
    decreases n
  {
    hide StepVm;
    if n > 0 {
      FewFrames(s, vm);
      FewFramesRun(s, StepVm(s, vm).st, n - 1, w);
    }
  }

  /** So with `maxFrames` as bound on the depth of calls, every program ends on the VM: with its
      value, with an error, or for lack of room. */
  lemma EveryRunEnds(t: Term, s: Setting, mem: seq<MVal>, n: nat) returns (steps: nat, w: Vm)
    requires Compile(t, [GLOBAL]).Compiled? && Clean(t, [GLOBAL]) && FitsCode(Compile(t, [GLOBAL]).code, 0)
    requires s.pool == Built(t).consts && s.maxFrames > 0
    ensures M.Reaches(Stepper(s), Loaded(t, mem, n), steps, w) && !StepVm(s, w).Next?
    ensures Full(s, w) || (!Eval(t, Initially(n), s.maxFrames).TooDeep?
      && Matches(s, Eval(t, Initially(n), s.maxFrames), s.maxFrames, w))
  {
    steps, w := BytesCorrect(t, s, mem, n, s.maxFrames);
    FewFramesRun(s, Loaded(t, mem, n), steps, w);
  }
}
