/** The fetch-decode-execute step of the VM for the opcodes of the fragment (vm/vm.go), and
    the dispatch loop of one fiber. */
module Machine {
  import opened Language
  import opened Bytecode

  const STACK_SIZE: nat := 2048
  const GLOBALS_SIZE: nat := 65536

  /** One frame: its code, the constant pool and the base pointer of its locals. */
  datatype Frame = Frame(code: seq<byte>, consts: seq<Value>, base: nat)

  /** The stack holds the elements below sp. */
  datatype State = State(ip: nat, stack: seq<Value>, globals: seq<Value>)

  datatype Outcome<S> = Next(st: S) | Halt | Fault

  function PushV(st: State, v: Value): Outcome<State>
  {
    if |st.stack| >= STACK_SIZE then Fault else Next(st.(stack := st.stack + [v]))
  }

  function Top(st: State): Value
    requires st.stack != []
  {
    st.stack[|st.stack| - 1]
  }

  function PopV(st: State): State
    requires st.stack != []
  {
    st.(stack := st.stack[..|st.stack| - 1])
  }

  function PushRes(st: State, r: Res): Outcome<State>
  {
    match r case Ok(v) => PushV(st, v) case Err => Fault
  }

  function BinaryOp(op: byte): Option<InfixOp>
  {
    if op == OP_ADD then Some(Add)
    else if op == OP_SUB then Some(Sub)
    else if op == OP_MUL then Some(Mul)
    else if op == OP_DIV then Some(Div)
    else if op == OP_MODULO then Some(Mod)
    else None
  }

  function CompareOp(op: byte): Option<InfixOp>
  {
    if op == OP_EQUAL then Some(Eq)
    else if op == OP_NOT_EQUAL then Some(Ne)
    else if op == OP_GT then Some(Gt)
    else if op == OP_GTE then Some(Ge)
    else if op == OP_AND then Some(And)
    else if op == OP_OR then Some(Or)
    else None
  }

  function ExecPlain(op: byte, st: State): Outcome<State>
  {
    if op == OP_TRUE then PushV(st, BoolV(true))
    else if op == OP_FALSE then PushV(st, BoolV(false))
    else if op == OP_NULL then PushV(st, NullV)
    else if op == OP_POP then if st.stack == [] then Fault else Next(PopV(st))
    else if op == OP_BANG || op == OP_MINUS then
      if st.stack == [] then Fault
      else PushRes(PopV(st), VmPrefix(if op == OP_BANG then Not else Neg, Top(st)))
    else if BinaryOp(op).Some? || CompareOp(op).Some? then
      if |st.stack| < 2 then Fault else
      var st1 := PopV(st);
      PushRes(PopV(st1),
        if BinaryOp(op).Some? then VmBinary(BinaryOp(op).value, Top(st1), Top(st))
        else VmCompare(CompareOp(op).value, Top(st1), Top(st)))
    else Fault
  }

  function ExecShort(op: byte, n: nat, f: Frame, st: State): Outcome<State>
  {
    if op == OP_GET_LOCAL then
      if f.base + n >= |st.stack| then Fault else PushV(st, st.stack[f.base + n])
    else if op == OP_SET_MUTABLE_LOCAL || op == OP_SET_IMMUTABLE_LOCAL then
      if f.base + n + 1 >= |st.stack| then Fault
      else var st1 := PopV(st); Next(st1.(stack := st1.stack[f.base + n := Top(st)]))
    else Fault
  }

  function ExecWide(op: byte, n: nat, f: Frame, st: State): Outcome<State>
  {
    if op == OP_CONSTANT then
      if n >= |f.consts| then Fault else PushV(st, f.consts[n])
    else if op == OP_JUMP then Next(st.(ip := n))
    else if op == OP_JUMP_NOT_TRUTHY then
      if st.stack == [] then Fault
      else if VmTruthy(Top(st)) then Next(PopV(st)) else Next(PopV(st).(ip := n))
    else if op == OP_GET_GLOBAL then
      if n >= |st.globals| then Fault else PushV(st, st.globals[n])
    else if op == OP_SET_MUTABLE_GLOBAL || op == OP_SET_IMMUTABLE_GLOBAL then
      if st.stack == [] || n >= |st.globals| then Fault
      else Next(PopV(st).(globals := st.globals[n := Top(st)]))
    else Fault
  }

  /** Execute one decoded instruction; `ip` has already moved past it. */
  function Exec(i: Ins, f: Frame, st: State): Outcome<State>
  {
    match i
    case Plain(op) => ExecPlain(op, st)
    case Short(op, n) => ExecShort(op, n, f, st)
    case Wide(op, n) => ExecWide(op, n, f, st)
    case _ => Fault
  }

  function Step(f: Frame, st: State): Outcome<State>
  {
    if st.ip >= |f.code| then Halt
    else match Decode(f.code, st.ip)
      case None => Fault
      case Some(i) => Exec(i, f, st.(ip := st.ip + SizeOf(i)))
  }

  /** Runs are stated over the step function of a frame, as a value. */
  function Stepper(f: Frame): State -> Outcome<State> { (st: State) => Step(f, st) }

  /** `n` steps lead from `a` to `b`. */
  predicate Reaches<S(==)>(step: S -> Outcome<S>, a: S, n: nat, b: S)
    decreases n
  {
    if n == 0 then a == b
    else step(a).Next? && Reaches(step, step(a).st, n - 1, b)
  }

  lemma {:induction false} ReachesTrans<S>(step: S -> Outcome<S>, a: S, n: nat, b: S, m: nat, c: S)
    requires Reaches(step, a, n, b) && Reaches(step, b, m, c)
    ensures Reaches(step, a, n + m, c)
    decreases n
  {
    if n > 0 { ReachesTrans(step, step(a).st, n - 1, b, m, c); }
  }

  /** A run is determined by its start: of two runs from one state, one continues the other. */
  lemma {:induction false} ReachesDeterministic<S>(step: S -> Outcome<S>, a: S, n: nat, b: S, m: nat, c: S)
    requires Reaches(step, a, n, b) && Reaches(step, a, m, c) && n <= m
    ensures Reaches(step, b, m - n, c)
    decreases n
  {
    if n > 0 { ReachesDeterministic(step, step(a).st, n - 1, b, m - 1, c); }
  }
}
