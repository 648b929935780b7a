/** The stack of one frame seen as variable slots and pending operands, with the effect of
    each instruction on that view. */
module FrameView {
  import opened Language
  import opened Bytecode
  import opened Machine

  datatype View = View(slots: seq<Value>, ops: seq<Value>)

  datatype Config = Config(ip: nat, w: View)

  /** Where the variables of the running code live: in the globals, or in `room` stack cells
      from the base pointer on; with the decoding of its code, the placing of instructions whose loop
      exits are given, and its step function as values. */
  datatype Setup = Setup(f: Frame, global: bool, room: nat, decode: nat -> Option<Ins>,
                         placed: (nat, seq<Ins>, nat, nat) -> bool, step: Config -> Outcome<Config>)

  function Used(m: Setup, w: View): nat { m.f.base + m.room + |w.ops| }

  /** `st` shows `c`; what lies below the frame and, for a function, the globals, is `out`. */
  predicate Shows(m: Setup, st: State, c: Config, out: (seq<Value>, seq<Value>))
  {
    && st.ip == c.ip
    && |out.0| == m.f.base
    && (m.global ==> m.room == 0 && out.1 == [])
    && (!m.global ==> |c.w.slots| == m.room)
    && st.stack == out.0 + (if m.global then [] else c.w.slots) + c.w.ops
    && st.globals == (if m.global then c.w.slots else out.1)
  }

  function VPush(m: Setup, ip: nat, w: View, v: Value): Outcome<Config>
  {
    if Used(m, w) >= STACK_SIZE then Fault else Next(Config(ip, w.(ops := w.ops + [v])))
  }

  function Last(s: seq<Value>): Value
    requires s != []
  {
    s[|s| - 1]
  }

  function Front(s: seq<Value>): seq<Value>
    requires s != []
  {
    s[..|s| - 1]
  }

  function VPushRes(m: Setup, ip: nat, w: View, r: Res): Outcome<Config>
  {
    match r case Ok(v) => VPush(m, ip, w, v) case Err => Fault
  }

  /** Halt stands for whatever the view cannot explain. */
  function VPlain(m: Setup, op: byte, ip: nat, w: View): Outcome<Config>
  {
    if op == OP_TRUE then VPush(m, ip, w, BoolV(true))
    else if op == OP_FALSE then VPush(m, ip, w, BoolV(false))
    else if op == OP_NULL then VPush(m, ip, w, NullV)
    else if w.ops == [] then Halt
    else
      var w1 := w.(ops := Front(w.ops));
      if op == OP_POP then Next(Config(ip, w1))
      else if op == OP_BANG || op == OP_MINUS then
        VPushRes(m, ip, w1, VmPrefix(if op == OP_BANG then Not else Neg, Last(w.ops)))
      else if w1.ops == [] then Halt
      else
        var w2 := w.(ops := Front(w1.ops));
        if BinaryOp(op).Some? then VPushRes(m, ip, w2, VmBinary(BinaryOp(op).value, Last(w1.ops), Last(w.ops)))
        else if CompareOp(op).Some? then VPushRes(m, ip, w2, VmCompare(CompareOp(op).value, Last(w1.ops), Last(w.ops)))
        else Halt
  }

  function VSet(ip: nat, w: View, n: nat): Outcome<Config>
  {
    if w.ops == [] || n >= |w.slots| then Halt
    else Next(Config(ip, View(w.slots[n := Last(w.ops)], Front(w.ops))))
  }

  function VGet(m: Setup, ip: nat, w: View, n: nat): Outcome<Config>
  {
    if n >= |w.slots| then Halt else VPush(m, ip, w, w.slots[n])
  }

  function VShort(m: Setup, op: byte, n: nat, ip: nat, w: View): Outcome<Config>
  {
    if m.global then Halt
    else if op == OP_GET_LOCAL then VGet(m, ip, w, n)
    else if op == OP_SET_MUTABLE_LOCAL || op == OP_SET_IMMUTABLE_LOCAL then VSet(ip, w, n)
    else Halt
  }

  function VWide(m: Setup, op: byte, n: nat, ip: nat, w: View): Outcome<Config>
  {
    if op == OP_CONSTANT then if n >= |m.f.consts| then Halt else VPush(m, ip, w, m.f.consts[n])
    else if op == OP_JUMP then Next(Config(n, w))
    else if op == OP_JUMP_NOT_TRUTHY then
      if w.ops == [] then Halt
      else Next(Config(if VmTruthy(Last(w.ops)) then ip else n, w.(ops := Front(w.ops))))
    else if !m.global then Halt
    else if op == OP_GET_GLOBAL then VGet(m, ip, w, n)
    else if op == OP_SET_MUTABLE_GLOBAL || op == OP_SET_IMMUTABLE_GLOBAL then VSet(ip, w, n)
    else Halt
  }

  function VExec(m: Setup, i: Ins, ip: nat, w: View): Outcome<Config>
  {
    match i
    case Plain(op) => VPlain(m, op, ip, w)
    case Short(op, n) => VShort(m, op, n, ip, w)
    case Wide(op, n) => VWide(m, op, n, ip, w)
    case _ => Halt
  }

  function VStep(m: Setup, c: Config): Outcome<Config>
  {
    match m.decode(c.ip)
    case None => Halt
    case Some(i) => VExec(m, i, c.ip + SizeOf(i), c.w)
  }

  /** Instructions `c` are in place at `pos` once their holes lead to `brk` and `cont`. */
  predicate FilledAt(m: Setup, pos: nat, c: seq<Ins>, brk: nat, cont: nat)
  {
    CodeAt(m.decode, pos, Fill(c, brk, cont))
  }

  ghost predicate Drives(m: Setup)
  {
    && (forall p {:trigger Decode(m.f.code, p)} :: m.decode(p) == Decode(m.f.code, p))
    && (forall pos, c, brk, cont {:trigger FilledAt(m, pos, c, brk, cont)} ::
          m.placed(pos, c, brk, cont) == FilledAt(m, pos, c, brk, cont))
    && (forall c {:trigger VStep(m, c)} :: m.step(c) == VStep(m, c))
  }

  /** A frame with its own decoding and stepping. */
  function Running(f: Frame, global: bool, room: nat): Setup
  {
    var idle := Setup(f, global, room, Decoder(f.code),
      (pos: nat, c: seq<Ins>, brk: nat, cont: nat) => CodeAt(Decoder(f.code), pos, Fill(c, brk, cont)),
        (c: Config) => Halt);
    idle.(step := (c: Config) => VStep(idle, c))
  }

  lemma RunningDrives(f: Frame, global: bool, room: nat)
    ensures Drives(Running(f, global, room))
  {
    var m := Running(f, global, room);
    forall c ensures m.step(c) == VStep(m, c) {
      assert VStep(m, c) == m.step(c);
    }
  }

  /** The machine does what its view says. */
  predicate Follows(m: Setup, o: Outcome<State>, v: Outcome<Config>, out: (seq<Value>, seq<Value>))
  {
    match v
    case Next(c) => o.Next? && Shows(m, o.st, c, out)
    case Fault => o.Fault?
    case Halt => true
  }

  lemma ShowsTop(m: Setup, st: State, c: Config, out: (seq<Value>, seq<Value>))
    requires Shows(m, st, c, out) && c.w.ops != []
    ensures st.stack != [] && Top(st) == Last(c.w.ops)
    ensures Shows(m, PopV(st), c.(w := c.w.(ops := Front(c.w.ops))), out)
  {
    var base := out.0 + (if m.global then [] else c.w.slots);
    assert c.w.ops == Front(c.w.ops) + [Last(c.w.ops)];
    assert st.stack == (base + Front(c.w.ops)) + [Last(c.w.ops)];
  }

  lemma ShowsPush(m: Setup, st: State, c: Config, v: Value, out: (seq<Value>, seq<Value>))
    requires Shows(m, st, c, out)
    ensures Follows(m, PushV(st, v), VPush(m, c.ip, c.w, v), out)
  {
    var base := out.0 + (if m.global then [] else c.w.slots);
    assert st.stack + [v] == base + (c.w.ops + [v]);
  }

  lemma FollowsPlain(m: Setup, op: byte, st: State, c: Config, out: (seq<Value>, seq<Value>))
    requires Shows(m, st, c, out)
    ensures Follows(m, ExecPlain(op, st), VPlain(m, op, c.ip, c.w), out)
  {
    if op == OP_TRUE || op == OP_FALSE || op == OP_NULL {
      ShowsPush(m, st, c, if op == OP_TRUE then BoolV(true) else if op == OP_FALSE then BoolV(false) else NullV, out);
    } else if c.w.ops != [] {
      ShowsTop(m, st, c, out);
      var st1, c1 := PopV(st), c.(w := c.w.(ops := Front(c.w.ops)));
      if op == OP_BANG || op == OP_MINUS {
        var r := VmPrefix(if op == OP_BANG then Not else Neg, Top(st));
        if r.Ok? { ShowsPush(m, st1, c1, r.value, out); }
      } else if c1.w.ops != [] && op != OP_POP {
        ShowsTop(m, st1, c1, out);
        FollowsBinary(m, op, st, st1, c, c1, out);
      }
    }
  }

  lemma FollowsBinary(m: Setup, op: byte, st: State, st1: State, c: Config, c1: Config, out: (seq<Value>, seq<Value>))
    requires st.stack != [] && st1 == PopV(st) && c.w.ops != [] && c1 == c.(w := c.w.(ops := Front(c.w.ops)))
    requires c1.w.ops != [] && st1.stack != [] && Top(st) == Last(c.w.ops) && Top(st1) == Last(c1.w.ops)
    requires Shows(m, PopV(st1), c1.(w := c1.w.(ops := Front(c1.w.ops))), out)
    requires op !in {OP_TRUE, OP_FALSE, OP_NULL, OP_POP, OP_BANG, OP_MINUS}
    ensures Follows(m, ExecPlain(op, st), VPlain(m, op, c.ip, c.w), out)
  {
    if BinaryOp(op).Some? || CompareOp(op).Some? {
      var r := if BinaryOp(op).Some? then VmBinary(BinaryOp(op).value, Top(st1), Top(st))
               else VmCompare(CompareOp(op).value, Top(st1), Top(st));
      if r.Ok? { ShowsPush(m, PopV(st1), c1.(w := c1.w.(ops := Front(c1.w.ops))), r.value, out); }
    }
  }

  lemma FollowsShort(m: Setup, op: byte, n: nat, st: State, c: Config, out: (seq<Value>, seq<Value>))
    requires Shows(m, st, c, out)
    ensures Follows(m, ExecShort(op, n, m.f, st), VShort(m, op, n, c.ip, c.w), out)
  {
    if m.global || n >= |c.w.slots| { return; }
    assert st.stack[m.f.base + n] == c.w.slots[n];
    if op == OP_GET_LOCAL {
      ShowsPush(m, st, c, c.w.slots[n], out);
    } else if c.w.ops != [] {
      ShowsTop(m, st, c, out);
      var st1 := PopV(st);
      assert st1.stack == out.0 + c.w.slots + Front(c.w.ops);
      assert st1.stack[m.f.base + n := Top(st)] == out.0 + c.w.slots[n := Top(st)] + Front(c.w.ops);
    }
  }

  lemma FollowsWide(m: Setup, op: byte, n: nat, st: State, c: Config, out: (seq<Value>, seq<Value>))
    requires Shows(m, st, c, out)
    ensures Follows(m, ExecWide(op, n, m.f, st), VWide(m, op, n, c.ip, c.w), out)
  {
    if op == OP_CONSTANT {
      if n < |m.f.consts| { ShowsPush(m, st, c, m.f.consts[n], out); }
    } else if op == OP_GET_GLOBAL {
      if m.global && n < |c.w.slots| { ShowsPush(m, st, c, c.w.slots[n], out); }
    } else if op != OP_JUMP && c.w.ops != [] {
      ShowsTop(m, st, c, out);
    }
  }

  lemma FollowsExec(m: Setup, i: Ins, st: State, c: Config, out: (seq<Value>, seq<Value>))
    requires Shows(m, st, c, out)
    ensures Follows(m, Exec(i, m.f, st), VExec(m, i, c.ip, c.w), out)
  {
    match i
    case Plain(op) => FollowsPlain(m, op, st, c, out);
    case Short(op, n) => FollowsShort(m, op, n, st, c, out);
    case Wide(op, n) => FollowsWide(m, op, n, st, c, out);
    case BreakHole =>
    case ContinueHole =>
  }

  lemma FollowsStep(m: Setup, st: State, c: Config, out: (seq<Value>, seq<Value>))
    requires Drives(m) && Shows(m, st, c, out)
    ensures Follows(m, Step(m.f, st), VStep(m, c), out)
  {
    hide Wrap, VmCompare, VmBinary, VmPrefix, ExecPlain, ExecWide, ExecShort;
    var d := Decode(m.f.code, c.ip);
    if d.Some? {
      FollowsExec(m, d.value, st.(ip := st.ip + SizeOf(d.value)), c.(ip := c.ip + SizeOf(d.value)), out);
    }
  }

  /** Runs of the view are runs of the machine. */
  lemma {:induction false} FollowsRun(m: Setup, st: State, c: Config, out: (seq<Value>, seq<Value>), n: nat, c': Config)
    returns (st': State)
    requires Drives(m) && Shows(m, st, c, out) && Reaches(m.step, c, n, c')
    ensures Reaches(Stepper(m.f), st, n, st') && Shows(m, st', c', out)
    ensures m.step(c').Fault? ==> Stepper(m.f)(st').Fault?
    decreases n
  {
    FollowsStep(m, st, c, out);
    assert m.step(c) == VStep(m, c);
    if n == 0 { st' := st; }
    else {
      st' := FollowsRun(m, Step(m.f, st).st, VStep(m, c).st, out, n - 1, c');
    }
  }
}
