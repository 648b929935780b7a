/** One fiber executing one frame, as the VM does it: an operand stack in an array below
    `sp`, and a loop that gives the fiber back after its time slice (vm/vm.go). */
module FiberRun {
  import opened Language
  import opened Bytecode
  import opened Machine

  const FIBER_QUANTUM: nat := 1024

  datatype Verdict = Preempted | Finished | Failed

  class Fiber {
    const frame: Frame
    const stack: array<Value>
    const globals: array<Value>
    var sp: nat
    /** The last byte executed; -1 at the start. */
    var ip: int

    ghost predicate Valid()
      reads this
    {
      && stack != globals && stack.Length == STACK_SIZE && sp <= STACK_SIZE && ip >= -1 && frame.base == 0
    }

    ghost function Now(): State
      reads this, stack, globals
      requires Valid()
    {
      State(ip + 1, stack[..sp], globals[..])
    }

    constructor (f: Frame)
      requires f.base == 0
      ensures Valid() && frame == f && Now() == State(0, [], seq(GLOBALS_SIZE, _ => NullV))
      ensures fresh(stack) && fresh(globals)
    {
      frame, sp, ip := f, 0, -1;
      stack := new Value[STACK_SIZE](_ => NullV);
      globals := new Value[GLOBALS_SIZE](_ => NullV);
    }

    method Push(v: Value) returns (ok: bool)
      requires Valid()
      modifies this`sp, stack
      ensures Valid() && globals[..] == old(globals[..])
      ensures if ok then PushV(old(Now()), v) == Next(Now()) else PushV(old(Now()), v).Fault?
    {
      if sp >= STACK_SIZE { return false; }
      stack[sp] := v;
      sp := sp + 1;
      assert stack[..sp] == old(stack[..sp]) + [v];
      ok := true;
    }

    method Pop() returns (v: Value)
      requires Valid() && sp > 0
      modifies this`sp
      ensures Valid() && v == Top(old(Now())) && Now() == PopV(old(Now()))
    {
      v := stack[sp - 1];
      sp := sp - 1;
    }

    method PushResult(r: Res) returns (ok: bool)
      requires Valid()
      modifies this`sp, stack
      ensures Valid() && globals[..] == old(globals[..])
      ensures if ok then PushRes(old(Now()), r) == Next(Now()) else PushRes(old(Now()), r).Fault?
    {
      if r.Err? { return false; }
      ok := Push(r.value);
    }

    /** executeBinaryOperation and executeComparison. */
    method ExecuteBinary(op: byte) returns (ok: bool)
      requires Valid() && (BinaryOp(op).Some? || CompareOp(op).Some?)
      modifies this`sp, stack
      ensures Valid() && globals[..] == old(globals[..])
      ensures if ok then ExecPlain(op, old(Now())) == Next(Now()) else ExecPlain(op, old(Now())).Fault?
    {
      if sp < 2 { return false; }
      var right := Pop();
      var left := Pop();
      ok := PushResult(if BinaryOp(op).Some? then VmBinary(BinaryOp(op).value, left, right)
                       else VmCompare(CompareOp(op).value, left, right));
    }

    method ExecutePrefix(op: PrefixOp) returns (ok: bool)
      requires Valid()
      modifies this`sp, stack
      ensures Valid() && globals[..] == old(globals[..])
      ensures var code := if op.Not? then OP_BANG else OP_MINUS;
        if ok then ExecPlain(code, old(Now())) == Next(Now()) else ExecPlain(code, old(Now())).Fault?
    {
      if sp == 0 { return false; }
      var v := Pop();
      ok := PushResult(VmPrefix(op, v));
    }

    method ExecutePlain(op: byte) returns (ok: bool)
      requires Valid()
      modifies this`sp, stack
      ensures Valid() && globals[..] == old(globals[..])
      ensures if ok then ExecPlain(op, old(Now())) == Next(Now()) else ExecPlain(op, old(Now())).Fault?
    {
      if op == OP_TRUE || op == OP_FALSE {
        ok := Push(BoolV(op == OP_TRUE));
      } else if op == OP_NULL {
        ok := Push(NullV);
      } else if op == OP_POP {
        if sp == 0 { return false; }
        var _ := Pop();
        ok := true;
      } else if op == OP_BANG || op == OP_MINUS {
        ok := ExecutePrefix(if op == OP_BANG then Not else Neg);
      } else if BinaryOp(op).Some? || CompareOp(op).Some? {
        ok := ExecuteBinary(op);
      } else {
        ok := false;
      }
    }

    method ExecuteShort(op: byte, n: nat) returns (ok: bool)
      requires Valid()
      modifies this`sp, stack
      ensures Valid() && globals[..] == old(globals[..])
      ensures if ok then ExecShort(op, n, frame, old(Now())) == Next(Now())
        else ExecShort(op, n, frame, old(Now())).Fault?
    {
      if op == OP_GET_LOCAL {
        if n >= sp { return false; }
        ok := Push(stack[n]);
      } else if op == OP_SET_MUTABLE_LOCAL || op == OP_SET_IMMUTABLE_LOCAL {
        if n + 1 >= sp { return false; }
        var v := Pop();
        stack[n] := v;
        ok := true;
      } else {
        ok := false;
      }
    }

    method ExecuteWide(op: byte, n: nat) returns (ok: bool)
      requires Valid()
      modifies this`sp, this`ip, stack, globals
      ensures Valid()
      ensures if ok then ExecWide(op, n, frame, old(Now())) == Next(Now())
        else ExecWide(op, n, frame, old(Now())).Fault?
    {
      ok := false;
      if op == OP_CONSTANT {
        if n < |frame.consts| { ok := Push(frame.consts[n]); }
      } else if op == OP_JUMP {
        ip := n - 1;
        ok := true;
      } else if op == OP_JUMP_NOT_TRUTHY {
        if sp > 0 {
          var condition := Pop();
          if !VmTruthy(condition) { ip := n - 1; }
          ok := true;
        }
      } else if op == OP_GET_GLOBAL {
        if n < globals.Length { ok := Push(globals[n]); }
      } else if op == OP_SET_MUTABLE_GLOBAL || op == OP_SET_IMMUTABLE_GLOBAL {
        if sp > 0 && n < globals.Length {
          var v := Pop();
          globals[n] := v;
          ok := true;
        }
      }
    }

    /** Fetch and execute the next instruction. */
    method Execute() returns (ok: bool)
      requires Valid() && ip + 1 < |frame.code|
      modifies this`sp, this`ip, stack, globals
      ensures Valid()
      ensures if ok then Step(frame, old(Now())) == Next(Now()) else Step(frame, old(Now())).Fault?
    {
      match Decode(frame.code, ip + 1)
      case None => ok := false;
      case Some(i) =>
        ip := ip + SizeOf(i);
        assert Now() == old(Now()).(ip := old(ip) + 1 + SizeOf(i));
        match i
        case Plain(op) => ok := ExecutePlain(op);
        case Short(op, n) => ok := ExecuteShort(op, n);
        case Wide(op, n) => ok := ExecuteWide(op, n);
        case _ => ok := false;
    }

    /** runFiber without debugger: a dispatch executes at most 1023 instructions, and 1023 if the
        fiber is preempted; `n` of them lead to `st`, where the fiber has ended, is preempted, or
        fails. */
    method RunFiber() returns (r: Verdict, ghost n: nat, ghost st: State)
      requires Valid()
      modifies this`sp, this`ip, stack, globals
      ensures Valid() && n < 1024 && Reaches(Stepper(frame), old(Now()), n, st)
      ensures r == Finished <==> Step(frame, st).Halt?
      ensures r == Failed ==> Step(frame, st).Fault?
      ensures r == Preempted ==> n == 1023
      ensures r != Failed ==> st == Now()
    {
      var budget := FIBER_QUANTUM as int;
      n, st := 0, Now();
      while ip + 1 < |frame.code|
        invariant Valid() && 0 < budget && n + budget == FIBER_QUANTUM
        invariant st == Now() && Reaches(Stepper(frame), old(Now()), n, st)
        decreases budget
      {
        budget := budget - 1;
        if budget <= 0 { return Preempted, n, st; }
        ghost var was := st;
        var ok := Execute();
        if !ok { return Failed, n, st; }
        st := Now();
        ReachesOne(Stepper(frame), old(Now()), n, was, st);
        n := n + 1;
      }
      r := Finished;
    }

    /** Run with this fiber alone: it is dispatched again as long as it is preempted. */
    method Dispatch(dispatches: nat) returns (r: Verdict, ghost n: nat, ghost st: State)
      requires Valid()
      modifies this`sp, this`ip, stack, globals
      ensures Valid() && Reaches(Stepper(frame), old(Now()), n, st)
      ensures r == Finished ==> Step(frame, st).Halt? && st == Now()
      ensures r == Failed ==> Step(frame, st).Fault?
      ensures r == Preempted ==> n == dispatches * 1023
    {
      hide Decode, Step;
      r, n, st := Preempted, 0, Now();
      var i := 0;
      while i < dispatches && r == Preempted
        invariant i <= dispatches && Valid() && Reaches(Stepper(frame), old(Now()), n, st)
        invariant r != Failed ==> st == Now()
        invariant r == Finished ==> Step(frame, st).Halt?
        invariant r == Failed ==> Step(frame, st).Fault?
        invariant r == Preempted ==> n == i * 1023
      {
        ghost var k, st';
        r, k, st' := RunFiber();
        ReachesTrans(Stepper(frame), old(Now()), n, st, k, st');
        n, st, i := n + k, st', i + 1;
      }
    }
  }

  lemma ReachesOne(step: State -> Outcome<State>, a: State, n: nat, b: State, c: State)
    requires Reaches(step, a, n, b) && step(b) == Next(c)
    ensures Reaches(step, a, n + 1, c)
  {
    assert Reaches(step, b, 1, c);
    ReachesTrans(step, a, n, b, 1, c);
  }
}
