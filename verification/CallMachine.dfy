/** The VM with frames: calls, returns, closures and their captured values, on one array of stack
    cells (vm/vm.go, vm/frame.go). */
module CallMachine {
  import opened Language
  import opened Bytecode
  import M = Machine

  // ---------- instructions ----------

  datatype Op = Op(op: byte, os: seq<nat>)

  predicate OpFits(i: Op) { OperandWidths(i.op).Some? && OperandsFit(OperandWidths(i.op).value, i.os) }

  predicate AllOpsFit(c: seq<Op>) { forall i :: 0 <= i < |c| ==> OpFits(c[i]) }

  function OpSize(i: Op): nat
  {
    match OperandWidths(i.op) case Some(ws) => 1 + SumWidths(ws) case None => 1
  }

  function OpsSize(c: seq<Op>): nat { if c == [] then 0 else OpSize(c[0]) + OpsSize(c[1..]) }

  function EncodeOp(i: Op): (r: seq<byte>)
    ensures OpFits(i) ==> |r| == OpSize(i)
  {
    if OpFits(i) then [i.op] + OperandsBytes(OperandWidths(i.op).value, i.os) else [i.op]
  }

  function EncodeOps(c: seq<Op>): (r: seq<byte>)
    ensures AllOpsFit(c) ==> |r| == OpsSize(c)
  {
    if c == [] then [] else EncodeOp(c[0]) + EncodeOps(c[1..])
  }

  /** Fetch and decode the instruction at byte `p`. */
  function DecodeOp(code: seq<byte>, p: nat): Option<Op>
  {
    if p >= |code| then None
    else match OperandWidths(code[p])
      case None => None
      case Some(ws) =>
        if p + 1 + SumWidths(ws) > |code| then None else Some(Op(code[p], ReadOperands(ws, code[p + 1..])))
  }

  /** From byte `p` on, `code` has the instructions `c`. */
  predicate OpsAt(code: seq<byte>, p: nat, c: seq<Op>)
    decreases |c|
  {
    c == [] || (DecodeOp(code, p) == Some(c[0]) && OpsAt(code, p + OpSize(c[0]), c[1..]))
  }

  lemma DecodeEncodedOp(pre: seq<byte>, i: Op, post: seq<byte>)
    requires OpFits(i)
    ensures DecodeOp(pre + EncodeOp(i) + post, |pre|) == Some(i)
  {
    var ws, code := OperandWidths(i.op).value, pre + EncodeOp(i) + post;
    assert code[|pre|] == i.op;
    assert code[|pre| + 1..] == OperandsBytes(ws, i.os) + post;
    ReadBack(ws, i.os, post);
  }

  /** Decoding inverts encoding, wherever the code stands. */
  lemma {:induction false} EncodedOpsAt(pre: seq<byte>, c: seq<Op>, post: seq<byte>)
    requires AllOpsFit(c)
    ensures OpsAt(pre + EncodeOps(c) + post, |pre|, c)
    decreases |c|
  {
    hide DecodeOp, OpFits, EncodeOp;
    if c != [] {
      var first, rest := EncodeOp(c[0]), EncodeOps(c[1..]);
      assert OpFits(c[0]) && AllOpsFit(c[1..]);
      assert pre + EncodeOps(c) + post == pre + first + (rest + post) == (pre + first) + rest + post;
      DecodeEncodedOp(pre, c[0], rest + post);
      EncodedOpsAt(pre + first, c[1..], post);
      FirstSize(c[0]);
    }
  }

  lemma FirstSize(i: Op)
    requires OpFits(i)
    ensures |EncodeOp(i)| == OpSize(i)
  {
  }

  lemma {:induction false} OpsAtSplit(code: seq<byte>, p: nat, a: seq<Op>, b: seq<Op>, q: nat)
    requires OpsAt(code, p, a + b) && q == p + OpsSize(a)
    ensures OpsAt(code, p, a) && OpsAt(code, q, b)
    decreases |a|
  {
    if a == [] {
      assert a + b == b;
    } else {
      assert (a + b)[0] == a[0] && (a + b)[1..] == a[1..] + b;
      OpsAtSplit(code, p + OpSize(a[0]), a[1..], b, q);
    }
  }

  lemma {:induction false} OpsSizeAppend(a: seq<Op>, b: seq<Op>)
    ensures OpsSize(a + b) == OpsSize(a) + OpsSize(b)
    decreases |a|
  {
    if a == [] {
      assert a + b == b;
    } else {
      assert (a + b)[0] == a[0] && (a + b)[1..] == a[1..] + b;
      OpsSizeAppend(a[1..], b);
    }
  }

  // ---------- state ----------

  /** object.CompiledFunction */
  datatype Fun = Fun(code: seq<byte>, numLocals: nat, numParams: nat)

  datatype MVal = MNum(n: int) | MClos(fun: Fun, free: seq<MVal>)

  /** The constant pool, shared by all functions. */
  datatype Const = Number(n: int) | Function(fun: Fun)

  /** A frame: the closure, the next byte to execute, and where its cells begin. */
  datatype Act = Act(fun: Fun, free: seq<MVal>, ip: nat, base: nat)

  /** The frames, innermost first; all stack cells, also those above `sp`, where values of
      earlier calls are still lying; the globals. */
  datatype Vm = Vm(frames: seq<Act>, mem: seq<MVal>, sp: nat, globals: seq<MVal>)

  /** The constants, and how many frames there can be. */
  datatype Setting = Setting(pool: seq<Const>, maxFrames: nat)

  type Step = M.Outcome<Vm>

  function Push(vm: Vm, v: MVal): Step
  {
    if vm.sp >= |vm.mem| then M.Fault else M.Next(vm.(mem := vm.mem[vm.sp := v], sp := vm.sp + 1))
  }

  // ---------- steps ----------

  function DoConstant(s: Setting, vm: Vm, k: nat): Step
  {
    if k < |s.pool| && s.pool[k].Number? then Push(vm, MNum(s.pool[k].n)) else M.Fault
  }

  function DoAdd(vm: Vm): Step
  {
    if vm.sp < 2 || vm.sp > |vm.mem| then M.Fault else
    var l, r := vm.mem[vm.sp - 2], vm.mem[vm.sp - 1];
    if l.MNum? && r.MNum? then Push(vm.(sp := vm.sp - 2), MNum(Wrap(l.n + r.n))) else M.Fault
  }

  function DoGetLocal(vm: Vm, i: nat): Step
    requires vm.frames != []
  {
    var a := vm.frames[0].base + i;
    if a < |vm.mem| then Push(vm, vm.mem[a]) else M.Fault
  }

  function DoSetLocal(vm: Vm, i: nat): Step
    requires vm.frames != []
  {
    var a := vm.frames[0].base + i;
    if 0 < vm.sp <= |vm.mem| && a < |vm.mem| then M.Next(vm.(mem := vm.mem[a := vm.mem[vm.sp - 1]], sp := vm.sp - 1))
      else M.Fault
  }

  function DoGetGlobal(vm: Vm, i: nat): Step { if i < |vm.globals| then Push(vm, vm.globals[i]) else M.Fault }

  function DoSetGlobal(vm: Vm, i: nat): Step
  {
    if 0 < vm.sp <= |vm.mem| && i < |vm.globals|
      then M.Next(vm.(globals := vm.globals[i := vm.mem[vm.sp - 1]], sp := vm.sp - 1))
    else M.Fault
  }

  function DoGetFree(vm: Vm, i: nat): Step
    requires vm.frames != []
  {
    if i < |vm.frames[0].free| then Push(vm, vm.frames[0].free[i]) else M.Fault
  }

  /** pushClosure: the captured values are the topmost ones. */
  function DoClosure(s: Setting, vm: Vm, k: nat, n: nat): Step
  {
    if k < |s.pool| && s.pool[k].Function? && n <= vm.sp <= |vm.mem|
    then Push(vm.(sp := vm.sp - n), MClos(s.pool[k].fun, vm.mem[vm.sp - n..vm.sp]))
    else M.Fault
  }

  /** callClosure: the arguments are the first cells of the new frame. Where there is no room for
      the others the VM fails at the first push of the function instead. */
  function DoCall(s: Setting, vm: Vm, n: nat): Step
  {
    if vm.sp < n + 1 || vm.sp > |vm.mem| then M.Fault else
    var callee, base := vm.mem[vm.sp - 1 - n], vm.sp - n;
    if !callee.MClos? || callee.fun.numParams != n || !CallRoom(s, vm, callee.fun, base) then M.Fault
    else M.Next(vm.(frames := [Act(callee.fun, callee.free, 0, base)] + vm.frames, sp := base + callee.fun.numLocals))
  }

  predicate CallRoom(s: Setting, vm: Vm, fun: Fun, base: nat)
  {
    |vm.frames| < s.maxFrames && base + fun.numLocals <= |vm.mem|
  }

  /** The frame goes, with the closure below it, and the value takes their place. */
  function DoReturn(vm: Vm): Step
    requires vm.frames != []
  {
    if 0 < vm.sp <= |vm.mem| && vm.frames[0].base > 0
    then Push(vm.(frames := vm.frames[1..], sp := vm.frames[0].base - 1), vm.mem[vm.sp - 1])
    else M.Fault
  }

  /** One instruction; the ip has already moved past it. */
  function Do(s: Setting, i: Op, vm: Vm): Step
    requires vm.frames != []
  {
    var a, b := if |i.os| > 0 then i.os[0] else 0, if |i.os| > 1 then i.os[1] else 0;
    if i.op == OP_CONSTANT then DoConstant(s, vm, a)
    else if i.op == OP_ADD then DoAdd(vm)
    else if i.op == OP_GET_LOCAL then DoGetLocal(vm, a)
    else if i.op == OP_SET_MUTABLE_LOCAL then DoSetLocal(vm, a)
    else if i.op == OP_GET_GLOBAL then DoGetGlobal(vm, a)
    else if i.op == OP_SET_MUTABLE_GLOBAL then DoSetGlobal(vm, a)
    else if i.op == OP_GET_FREE then DoGetFree(vm, a)
    else if i.op == OP_CURRENT_CLOSURE then Push(vm, MClos(vm.frames[0].fun, vm.frames[0].free))
    else if i.op == OP_CLOSURE then DoClosure(s, vm, a, b)
    else if i.op == OP_CALL then DoCall(s, vm, a)
    else if i.op == OP_RETURN_VALUE then DoReturn(vm)
    else M.Fault
  }

  function Advanced(vm: Vm, ip: nat): Vm
    requires vm.frames != []
  {
    vm.(frames := [vm.frames[0].(ip := ip)] + vm.frames[1..])
  }

  function StepVm(s: Setting, vm: Vm): Step
  {
    if vm.frames == [] || vm.frames[0].ip >= |vm.frames[0].fun.code| then M.Halt
    else match DecodeOp(vm.frames[0].fun.code, vm.frames[0].ip)
      case None => M.Fault
      case Some(i) => Do(s, i, Advanced(vm, vm.frames[0].ip + OpSize(i)))
  }

  function Stepper(s: Setting): Vm -> Step { (vm: Vm) => StepVm(s, vm) }

  /** The instruction needs one more cell. */
  predicate Pushes(i: Op)
  {
    || i.op in {OP_CONSTANT, OP_GET_LOCAL, OP_GET_GLOBAL, OP_GET_FREE, OP_CURRENT_CLOSURE}
    || (i.op == OP_CLOSURE && |i.os| == 2 && i.os[1] == 0)
  }

  /** The next instruction needs a cell or a frame there is no room for. */
  predicate Full(s: Setting, vm: Vm)
  {
    && vm.frames != [] && StepVm(s, vm).Fault?
    && match DecodeOp(vm.frames[0].fun.code, vm.frames[0].ip)
       case None => false
       case Some(i) =>
         if i.op == OP_CALL then
           i.os != [] && i.os[0] < vm.sp <= |vm.mem| && vm.mem[vm.sp - 1 - i.os[0]].MClos?
             && !CallRoom(s, vm, vm.mem[vm.sp - 1 - i.os[0]].fun, vm.sp - i.os[0])
         else vm.sp == |vm.mem| && Pushes(i)
  }
}
