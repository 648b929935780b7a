/** Running assembled code on the VM with frames does what the closure-converted code means. */
module CallRuns {
  import opened Language
  import opened Bytecode
  import M = Machine
  import opened Closures
  import opened Conversion
  import opened CallMachine
  import opened Assembly

  ghost predicate Placed(vm: Vm, ops: seq<Op>) { vm.frames != [] && OpsAt(vm.frames[0].fun.code, vm.frames[0].ip, ops) }

  /** From `vm` to `w` the frames around and the innermost closure stay, and so do all cells below
      `sp` but the `room` cells of the innermost frame's locals. */
  ghost predicate Kept(vm: Vm, w: Vm, room: nat)
  {
    && vm.frames != [] && w.frames != [] && |w.mem| == |vm.mem| && w.frames[1..] == vm.frames[1..]
    && w.frames[0] == vm.frames[0].(ip := w.frames[0].ip)
    && forall i :: 0 <= i < vm.sp && i < |vm.mem| && !(vm.frames[0].base <= i < vm.frames[0].base + room) ==>
      w.mem[i] == vm.mem[i]
  }

  /** The innermost frame went on by `size` bytes, and is now `fr'`. */
  ghost predicate Went(pool: seq<Const>, fr: Frame, fr': Frame, vm: Vm, w: Vm, size: nat)
  {
    && Kept(vm, w, |fr.locals|) && w.frames[0].ip == vm.frames[0].ip + size
    && On(pool, fr', w) && |fr'.locals| == |fr.locals|
  }

  ghost predicate Done(pool: seq<Const>, v: CVal, fr: Frame, fr': Frame, vm: Vm, w: Vm, size: nat)
  {
    Went(pool, fr, fr', vm, w, size) && w.sp == vm.sp + 1 && w.sp <= |w.mem| && V(pool, v, w.mem[vm.sp])
  }

  ghost predicate DoneAll(pool: seq<Const>, vs: seq<CVal>, fr: Frame, fr': Frame, vm: Vm, w: Vm, size: nat)
  {
    && Went(pool, fr, fr', vm, w, size) && w.sp == vm.sp + |vs| && w.sp <= |w.mem|
    && Vs(pool, vs, w.mem[vm.sp..w.sp])
  }

  /** The VM has run out of cells or frames, or did what the code means. */
  ghost predicate Mirrors(s: Setting, r: Ran<CVal>, fr: Frame, fuel: nat, vm: Vm, w: Vm, size: nat)
  {
    || Full(s, w)
    || match r
       case Left(v, fr') => Done(s.pool, v, fr, fr', vm, w, size)
       case Broke => StepVm(s, w).Fault?
       case RanTooDeep => |w.frames| >= |vm.frames| + fuel
       case Lost => true
  }

  ghost predicate MirrorsAll(s: Setting, r: Ran<seq<CVal>>, fr: Frame, fuel: nat, vm: Vm, w: Vm, size: nat)
  {
    || Full(s, w)
    || match r
       case Left(vs, fr') => DoneAll(s.pool, vs, fr, fr', vm, w, size)
       case Broke => StepVm(s, w).Fault?
       case RanTooDeep => |w.frames| >= |vm.frames| + fuel
       case Lost => true
  }

  // ---------- one instruction ----------

  function After(vm: Vm, i: Op): Vm
    requires vm.frames != []
  {
    Advanced(vm, vm.frames[0].ip + OpSize(i))
  }

  lemma OneStep(s: Setting, vm: Vm, i: Op)
    requires Placed(vm, [i])
    ensures StepVm(s, vm) == Do(s, i, After(vm, i)) && Stepper(s)(vm) == StepVm(s, vm)
    ensures DecodeOp(vm.frames[0].fun.code, vm.frames[0].ip) == Some(i)
  {
    hide Do, OpSize;
    assert [i][0] == i;
  }

  lemma Step1(s: Setting, vm: Vm, w: Vm)
    requires StepVm(s, vm) == M.Next(w)
    ensures M.Reaches(Stepper(s), vm, 1, w)
  {
    hide StepVm;
    assert M.Reaches(Stepper(s), w, 0, w);
  }

  lemma SplitPlaced(vm: Vm, a: seq<Op>, b: seq<Op>, w: Vm, room: nat)
    requires Placed(vm, a + b) && Kept(vm, w, room) && w.frames[0].ip == vm.frames[0].ip + OpsSize(a)
    ensures Placed(w, b)
  {
    OpsAtSplit(vm.frames[0].fun.code, vm.frames[0].ip, a, b, w.frames[0].ip);
  }

  lemma FirstPlaced(vm: Vm, a: seq<Op>, b: seq<Op>)
    requires Placed(vm, a + b)
    ensures Placed(vm, a)
  {
    OpsAtSplit(vm.frames[0].fun.code, vm.frames[0].ip, a, b, vm.frames[0].ip + OpsSize(a));
  }

  lemma WentTrans(pool: seq<Const>, fr0: Frame, fr1: Frame, fr2: Frame, vm: Vm, w1: Vm, w2: Vm, size1: nat, size2: nat)
    requires Went(pool, fr0, fr1, vm, w1, size1) && Went(pool, fr1, fr2, w1, w2, size2) && vm.sp <= w1.sp
    ensures Went(pool, fr0, fr2, vm, w2, size1 + size2)
  {
    hide On;
  }

  lemma WentSame(pool: seq<Const>, fr: Frame, vm: Vm)
    requires On(pool, fr, vm)
    ensures Went(pool, fr, fr, vm, vm, 0)
  {
  }

  /** A value pushed above everything the frame has. */
  lemma PushWent(pool: seq<Const>, v: CVal, m: MVal, fr: Frame, vm: Vm, i: Op)
    requires On(pool, fr, vm) && V(pool, v, m) && vm.sp < |vm.mem|
    ensures Done(pool, v, fr, fr, vm, Push(After(vm, i), m).st, OpSize(i))
  {
    hide V, OpSize;
  }

  lemma PushRuns(s: Setting, v: CVal, m: MVal, fr: Frame, vm: Vm, i: Op) returns (n: nat, w: Vm)
    requires On(s.pool, fr, vm) && Placed(vm, [i]) && V(s.pool, v, m) && Pushes(i)
      && Do(s, i, After(vm, i)) == Push(After(vm, i), m)
    ensures M.Reaches(Stepper(s), vm, n, w) && (Full(s, w) || Done(s.pool, v, fr, fr, vm, w, OpSize(i)))
  {
    hide V, OpSize, Do, On, Done, DecodeOp;
    OneStep(s, vm, i);
    hide StepVm;
    if vm.sp >= |vm.mem| {
      OnFull(s.pool, fr, vm);
      n, w := 0, vm;
    } else {
      PushWent(s.pool, v, m, fr, vm, i);
      n, w := 1, Push(After(vm, i), m).st;
      Step1(s, vm, w);
    }
  }

  lemma OnFull(pool: seq<Const>, fr: Frame, vm: Vm)
    requires On(pool, fr, vm)
    ensures vm.sp <= |vm.mem|
  {
  }

  // ---------- loads ----------

  lemma LoadRuns(s: Setting, sym: Sym, fr: Frame, vm: Vm) returns (n: nat, w: Vm)
    requires On(s.pool, fr, vm) && Placed(vm, [LoadOp(sym)]) && Get(fr, sym).Some?
    ensures M.Reaches(Stepper(s), vm, n, w)
      && (Full(s, w) || Done(s.pool, Get(fr, sym).value, fr, fr, vm, w, OpSize(LoadOp(sym))))
  {
    hide V, OpSize, Placed, Done, Full;
    var m := match sym
      case Local(i) => vm.mem[vm.frames[0].base + i]
      case Free(i) => vm.frames[0].free[i]
      case Self => MClos(vm.frames[0].fun, vm.frames[0].free)
      case Global(i) => vm.globals[i];
    assert V(s.pool, Get(fr, sym).value, m);
    n, w := PushRuns(s, Get(fr, sym).value, m, fr, vm, LoadOp(sym));
  }

  /** A global that the program has too few cells for. */
  lemma LoadFaults(s: Setting, i: nat, fr: Frame, vm: Vm)
    requires On(s.pool, fr, vm) && Placed(vm, [LoadOp(Global(i))]) && Get(fr, Global(i)).None?
    ensures StepVm(s, vm).Fault?
  {
    hide V, OpSize;
    OneStep(s, vm, LoadOp(Global(i)));
  }

  lemma {:induction false} LoadsRun(s: Setting, syms: seq<Sym>, fr: Frame, vm: Vm) returns (n: nat, w: Vm)
    requires On(s.pool, fr, vm) && Placed(vm, LoadOps(syms)) && GetAll(fr, syms).Some?
    ensures M.Reaches(Stepper(s), vm, n, w)
    ensures Full(s, w) || DoneAll(s.pool, GetAll(fr, syms).value, fr, fr, vm, w, OpsSize(LoadOps(syms)))
    decreases |syms|
  {
    hide V, On, Full, Placed, OpSize, Get, Kept;
    if syms == [] {
      n, w := 0, vm;
      WentSame(s.pool, fr, vm);
      OnFull(s.pool, fr, vm);
      assert Vs(s.pool, [], vm.mem[vm.sp..vm.sp]);
    } else {
      var first, rest := [LoadOp(syms[0])], LoadOps(syms[1..]);
      FirstPlaced(vm, first, rest);
      var n1, w1 := LoadRuns(s, syms[0], fr, vm);
      if Full(s, w1) { return n1, w1; }
      OneSize(LoadOp(syms[0]));
      SplitPlaced(vm, first, rest, w1, |fr.locals|);
      var n2, w2 := LoadsRun(s, syms[1..], fr, w1);
      n, w := n1 + n2, w2;
      M.ReachesTrans(Stepper(s), vm, n1, w1, n2, w2);
      if !Full(s, w2) {
        OpsSizeAppend(first, rest);
        ConsDone(s.pool, Get(fr, syms[0]).value, GetAll(fr, syms[1..]).value, fr, fr, fr, vm, w1, w2,
          OpSize(LoadOp(syms[0])), OpsSize(rest));
      }
    }
  }

  lemma OneSize(i: Op)
    ensures OpsSize([i]) == OpSize(i)
  {
    assert [i][1..] == [];
  }

  /** One value and then more. */
  lemma ConsDone(pool: seq<Const>, v: CVal, vs: seq<CVal>, fr0: Frame, fr1: Frame, fr2: Frame, vm: Vm, w1: Vm, w2: Vm,
          size1: nat, size2: nat)
    requires Done(pool, v, fr0, fr1, vm, w1, size1) && DoneAll(pool, vs, fr1, fr2, w1, w2, size2) && On(pool, fr0, vm)
    ensures DoneAll(pool, [v] + vs, fr0, fr2, vm, w2, size1 + size2)
  {
    hide V;
    WentTrans(pool, fr0, fr1, fr2, vm, w1, w2, size1, size2);
    assert w2.mem[vm.sp] == w1.mem[vm.sp];
    var cells := w2.mem[vm.sp..w2.sp];
    assert cells[1..] == w2.mem[w1.sp..w2.sp];
    forall i | 0 <= i < |[v] + vs| ensures V(pool, ([v] + vs)[i], cells[i]) {
      if i > 0 { assert cells[i] == cells[1..][i - 1]; }
    }
  }

  // ---------- the simulation ----------

  /** What is needed to run the code of `c`. */
  ghost predicate Ready(s: Setting, c: Code, fr: Frame, vm: Vm, k: nat)
  {
    On(s.pool, fr, vm) && FitsCode(c, k) && ConstsAt(s.pool, k, Assemble(c, k).consts) && Placed(vm, Assemble(c, k).ops)
  }

  ghost predicate ReadyAll(s: Setting, cs: Codes, fr: Frame, vm: Vm, k: nat)
  {
    On(s.pool, fr, vm) && FitsAll(cs, k) && ConstsAt(s.pool, k, AssembleAll(cs, k).consts)
      && Placed(vm, AssembleAll(cs, k).ops)
  }

  function CodeSize(c: Code, k: nat): nat { OpsSize(Assemble(c, k).ops) }

  /** Running the code of `c` does what `c` means, or the VM runs out of cells or frames. */
  lemma {:induction false} Runs(s: Setting, c: Code, fr: Frame, fuel: nat, vm: Vm, k: nat) returns (n: nat, w: Vm)
    requires Ready(s, c, fr, vm, k)
    ensures M.Reaches(Stepper(s), vm, n, w) && Mirrors(s, Exec(c, fr, fuel), fr, fuel, vm, w, CodeSize(c, k))
    decreases fuel, c, 1
  {
    hide V, On, Placed, Full, Done, OpsSize, OpSize, Get;
    match c
    case Constant(i) =>
      ConstantAt(s, i, vm, k);
      n, w := PushRuns(s, CNum(i), MNum(i), fr, vm, Op(OP_CONSTANT, [k]));
      OneSize(Op(OP_CONSTANT, [k]));
    case Load(sym) =>
      OneSize(LoadOp(sym));
      if Get(fr, sym).Some? {
        n, w := LoadRuns(s, sym, fr, vm);
      } else {
        n, w := 0, vm;
        if sym.Global? { LoadFaults(s, sym.i, fr, vm); }
      }
    case Add2(_, _) => n, w := AddRuns(s, c, fr, fuel, vm, k);
    case StoreThen(_, _, _) => n, w := StoreRuns(s, c, fr, fuel, vm, k);
    case MakeClosure(_, _) => n, w := ClosureRuns(s, c, fr, fuel, vm, k);
    case CallCode(_, _) => n, w := CallCodeRuns(s, c, fr, fuel, vm, k);
  }

  lemma ConstantAt(s: Setting, i: int, vm: Vm, k: nat)
    requires Placed(vm, [Op(OP_CONSTANT, [k])]) && ConstsAt(s.pool, k, [Number(i)])
    ensures var op := Op(OP_CONSTANT, [k]); Do(s, op, After(vm, op)) == Push(After(vm, op), MNum(i))
    ensures V(s.pool, CNum(i), MNum(i))
  {
    assert s.pool[k] == s.pool[k..k + 1][0];
  }

  // ---------- addition ----------

  /** Two values on top of each other. */
  lemma AddStep(s: Setting, a: CVal, b: CVal, fr0: Frame, fr1: Frame, fr2: Frame, vm: Vm, w1: Vm, w2: Vm, size1: nat,
          size2: nat) returns (n: nat, w: Vm)
    requires On(s.pool, fr0, vm) && Done(s.pool, a, fr0, fr1, vm, w1, size1) && Done(s.pool, b, fr1, fr2, w1, w2, size2)
    requires Placed(w2, [Op(OP_ADD, [])])
    ensures M.Reaches(Stepper(s), w2, n, w)
    ensures a.CNum? && b.CNum? ==>
      Done(s.pool, CNum(Wrap(a.n + b.n)), fr0, fr2, vm, w, size1 + size2 + OpSize(Op(OP_ADD, [])))
    ensures !(a.CNum? && b.CNum?) ==> StepVm(s, w).Fault?
  {
    hide OpSize, Wrap, On, Placed, Done, DoAdd;
    var i := Op(OP_ADD, []);
    OneStep(s, w2, i);
    hide StepVm;
    TwoOnTop(s.pool, a, b, fr0, fr1, fr2, vm, w1, w2, size1, size2, i);
    n, w := 0, w2;
    if a.CNum? && b.CNum? {
      n, w := 1, StepVm(s, w2).st;
      Step1(s, w2, w);
    }
  }

  lemma TwoOnTop(pool: seq<Const>, a: CVal, b: CVal, fr0: Frame, fr1: Frame, fr2: Frame, vm: Vm, w1: Vm, w2: Vm,
          size1: nat, size2: nat, i: Op)
    requires On(pool, fr0, vm) && Done(pool, a, fr0, fr1, vm, w1, size1) && Done(pool, b, fr1, fr2, w1, w2, size2)
    ensures w2.frames != []
    ensures var r := DoAdd(After(w2, i));
      if a.CNum? && b.CNum? then
        r.Next? && Done(pool, CNum(Wrap(a.n + b.n)), fr0, fr2, vm, r.st, size1 + size2 + OpSize(i))
      else r.Fault?
  {
    hide OpSize, Wrap;
    WentTrans(pool, fr0, fr1, fr2, vm, w1, w2, size1, size2);
    assert w2.mem[vm.sp] == w1.mem[vm.sp];
  }

  lemma SplitReady(s: Setting, c1: Code, c2: Code, fr0: Frame, fr: Frame, v: CVal, vm: Vm, w: Vm, k: nat, k1: nat,
          rest: seq<Op>)
    requires Placed(vm, Assemble(c1, k).ops + (Assemble(c2, k1).ops + rest)) && k1 == k + |Assemble(c1, k).consts|
    requires ConstsAt(s.pool, k, Assemble(c1, k).consts + Assemble(c2, k1).consts) && FitsCode(c2, k1)
    requires Done(s.pool, v, fr0, fr, vm, w, CodeSize(c1, k))
    ensures Ready(s, c2, fr, w, k1) && Placed(w, Assemble(c2, k1).ops + rest)
  {
    hide On, V, Assemble, FitsCode, OpsSize, OpsAt;
    ConstsSplit(s.pool, k, Assemble(c1, k).consts, Assemble(c2, k1).consts, k1);
    SplitPlaced(vm, Assemble(c1, k).ops, Assemble(c2, k1).ops + rest, w, |fr0.locals|);
    FirstPlaced(w, Assemble(c2, k1).ops, rest);
  }

  lemma {:induction false} AddRuns(s: Setting, c: Code, fr: Frame, fuel: nat, vm: Vm, k: nat) returns (n: nat, w: Vm)
    requires c.Add2? && Ready(s, c, fr, vm, k)
    ensures M.Reaches(Stepper(s), vm, n, w) && Mirrors(s, Exec(c, fr, fuel), fr, fuel, vm, w, CodeSize(c, k))
    decreases fuel, c, 0
  {
    hide V, On, Placed, Full, Done, OpsSize, OpSize, StepVm, ConstsAt;
    var a, k1 := Assemble(c.l, k), k + |Assemble(c.l, k).consts|;
    var b, i := Assemble(c.r, k1), Op(OP_ADD, []);
    assert Assemble(c, k).ops == a.ops + (b.ops + [i]);
    FirstPlaced(vm, a.ops, b.ops + [i]);
    ConstsSplit(s.pool, k, a.consts, b.consts, k1);
    var n1, w1 := Runs(s, c.l, fr, fuel, vm, k);
    n, w := n1, w1;
    var x := Exec(c.l, fr, fuel);
    if Full(s, w1) || !x.Left? { return; }
    SplitReady(s, c.l, c.r, fr, x.fr, x.v, vm, w1, k, k1, [i]);
    var n2, w2 := Runs(s, c.r, x.fr, fuel, w1, k1);
    M.ReachesTrans(Stepper(s), vm, n1, w1, n2, w2);
    n, w := n1 + n2, w2;
    var y := Exec(c.r, x.fr, fuel);
    if Full(s, w2) { return; }
    if !y.Left? { FramesSame(s.pool, x.v, fr, x.fr, vm, w1, CodeSize(c.l, k)); return; }
    LastPlaced(s.pool, y.v, x.fr, y.fr, w1, w2, b.ops, i);
    var n3, w3 := AddStep(s, x.v, y.v, fr, x.fr, y.fr, vm, w1, w2, CodeSize(c.l, k), CodeSize(c.r, k1));
    M.ReachesTrans(Stepper(s), vm, n, w, n3, w3);
    n, w := n + n3, w3;
    Sizes3(a.ops, b.ops, i);
  }

  lemma FramesSame(pool: seq<Const>, v: CVal, fr: Frame, fr': Frame, vm: Vm, w: Vm, size: nat)
    requires Done(pool, v, fr, fr', vm, w, size)
    ensures |w.frames| == |vm.frames|
  {
  }

  lemma LastPlaced(pool: seq<Const>, v: CVal, fr: Frame, fr': Frame, vm: Vm, w: Vm, a: seq<Op>, i: Op)
    requires Placed(vm, a + [i]) && Done(pool, v, fr, fr', vm, w, OpsSize(a))
    ensures Placed(w, [i])
  {
    hide OpsSize, On, V, OpsAt;
    SplitPlaced(vm, a, [i], w, |fr.locals|);
  }

  lemma Sizes3(a: seq<Op>, b: seq<Op>, i: Op)
    ensures OpsSize(a + (b + [i])) == OpsSize(a) + OpsSize(b) + OpSize(i)
  {
    OpsSizeAppend(a, b + [i]);
    OpsSizeAppend(b, [i]);
    OneSize(i);
  }

  // ---------- stores ----------

  lemma StoreStep(s: Setting, sym: Sym, v: CVal, fr0: Frame, fr1: Frame, vm: Vm, w1: Vm, size1: nat)
    returns (n: nat, w: Vm)
    requires On(s.pool, fr0, vm) && Done(s.pool, v, fr0, fr1, vm, w1, size1) && Placed(w1, [StoreOp(sym)])
    ensures M.Reaches(Stepper(s), w1, n, w)
    ensures Put(fr1, sym, v).Some? ==>
      Went(s.pool, fr0, Put(fr1, sym, v).value, vm, w, size1 + OpSize(StoreOp(sym))) && w.sp == vm.sp
    ensures Put(fr1, sym, v).None? && sym.Global? ==> StepVm(s, w).Fault?
  {
    hide OpSize, V;
    OneStep(s, w1, StoreOp(sym));
    if Put(fr1, sym, v).Some? {
      n, w := 1, StepVm(s, w1).st;
      Step1(s, w1, w);
    } else {
      n, w := 0, w1;
    }
  }

  /** What comes after a store. */
  lemma WentDone(pool: seq<Const>, v: CVal, fr0: Frame, fr1: Frame, fr2: Frame, vm: Vm, w1: Vm, w2: Vm, size1: nat,
          size2: nat)
    requires Went(pool, fr0, fr1, vm, w1, size1) && w1.sp == vm.sp && Done(pool, v, fr1, fr2, w1, w2, size2)
    ensures Done(pool, v, fr0, fr2, vm, w2, size1 + size2)
  {
    hide On, V;
    WentTrans(pool, fr0, fr1, fr2, vm, w1, w2, size1, size2);
  }

  lemma {:induction false} StoreRuns(s: Setting, c: Code, fr: Frame, fuel: nat, vm: Vm, k: nat) returns (n: nat, w: Vm)
    requires c.StoreThen? && Ready(s, c, fr, vm, k)
    ensures M.Reaches(Stepper(s), vm, n, w) && Mirrors(s, Exec(c, fr, fuel), fr, fuel, vm, w, CodeSize(c, k))
    decreases fuel, c, 0
  {
    hide V, On, Placed, Full, Done, Went, OpsSize, OpSize, StepVm, ConstsAt, Put, StoreOp;
    var a, k1 := Assemble(c.e, k), k + |Assemble(c.e, k).consts|;
    var b, i := Assemble(c.body, k1), StoreOp(c.sym);
    assert Assemble(c, k).ops == a.ops + ([i] + b.ops) == (a.ops + [i]) + b.ops;
    FirstPlaced(vm, a.ops, [i] + b.ops);
    ConstsSplit(s.pool, k, a.consts, b.consts, k1);
    var n1, w1 := Runs(s, c.e, fr, fuel, vm, k);
    n, w := n1, w1;
    var x := Exec(c.e, fr, fuel);
    if Full(s, w1) || !x.Left? { return; }
    DonePlaced(s.pool, x.v, fr, x.fr, vm, w1, a.ops, [i] + b.ops);
    FirstPlaced(w1, [i], b.ops);
    var n2, w2 := StoreStep(s, c.sym, x.v, fr, x.fr, vm, w1, CodeSize(c.e, k));
    M.ReachesTrans(Stepper(s), vm, n1, w1, n2, w2);
    n, w := n1 + n2, w2;
    var p := Put(x.fr, c.sym, x.v);
    if p.None? { return; }
    Sizes2(a.ops, i);
    WentPlaced(s.pool, fr, p.value, vm, w2, a.ops + [i], b.ops);
    assert Ready(s, c.body, p.value, w2, k1);
    var n3, w3 := Runs(s, c.body, p.value, fuel, w2, k1);
    M.ReachesTrans(Stepper(s), vm, n, w, n3, w3);
    n, w := n + n3, w3;
    var y := Exec(c.body, p.value, fuel);
    if Full(s, w3) { return; }
    OpsSizeAppend(a.ops + [i], b.ops);
    if y.Left? { WentDone(s.pool, y.v, fr, p.value, y.fr, vm, w2, w3, OpsSize(a.ops + [i]), CodeSize(c.body, k1)); }
    else { WentFrames(s.pool, fr, p.value, vm, w2, OpsSize(a.ops + [i])); }
  }

  lemma Sizes2(a: seq<Op>, i: Op)
    ensures OpsSize(a + [i]) == OpsSize(a) + OpSize(i)
  {
    OpsSizeAppend(a, [i]);
    OneSize(i);
  }

  lemma DonePlaced(pool: seq<Const>, v: CVal, fr: Frame, fr': Frame, vm: Vm, w: Vm, a: seq<Op>, b: seq<Op>)
    requires Placed(vm, a + b) && Done(pool, v, fr, fr', vm, w, OpsSize(a))
    ensures Placed(w, b)
  {
    hide OpsSize, On, V, OpsAt;
    SplitPlaced(vm, a, b, w, |fr.locals|);
  }

  lemma WentPlaced(pool: seq<Const>, fr: Frame, fr': Frame, vm: Vm, w: Vm, a: seq<Op>, b: seq<Op>)
    requires Placed(vm, a + b) && Went(pool, fr, fr', vm, w, OpsSize(a))
    ensures Placed(w, b) && On(pool, fr', w)
  {
    hide OpsSize, On, V, OpsAt;
    SplitPlaced(vm, a, b, w, |fr.locals|);
  }

  lemma WentFrames(pool: seq<Const>, fr: Frame, fr': Frame, vm: Vm, w: Vm, size: nat)
    requires Went(pool, fr, fr', vm, w, size)
    ensures |w.frames| == |vm.frames|
  {
  }

  // ---------- closures ----------

  /** The captured values are on top; the closure takes their place. */
  lemma ClosureStep(s: Setting, fn: FnCode, vs: seq<CVal>, fr: Frame, vm: Vm, w1: Vm, size1: nat, k: nat, i: Op)
    returns (n: nat, w: Vm)
    requires On(s.pool, fr, vm) && DoneAll(s.pool, vs, fr, fr, vm, w1, size1) && Placed(w1, [i])
    requires i == Op(OP_CLOSURE, [k + |Assemble(fn.code, k).consts|, |vs|]) && FitsCode(fn.code, k)
      && fn.numParams <= fn.numLocals
    requires ConstsAt(s.pool, k, Assemble(fn.code, k).consts + [Function(FunOf(fn, Assemble(fn.code, k)))])
    ensures M.Reaches(Stepper(s), w1, n, w)
      && (Full(s, w) || Done(s.pool, CClos(fn, vs), fr, fr, vm, w, size1 + OpSize(i)))
  {
    hide OpSize, FitsCode, Assemble, FunOf;
    var a := Assemble(fn.code, k);
    var fun := FunOf(fn, a);
    ConstsSplit(s.pool, k, a.consts, [Function(fun)], k + |a.consts|);
    assert s.pool[k + |a.consts|] == s.pool[k + |a.consts|..k + |a.consts| + 1][0] == Function(fun);
    OneStep(s, w1, i);
    var free := w1.mem[vm.sp..w1.sp];
    assert MadeAt(s.pool, fn, fun, k);
    assert V(s.pool, CClos(fn, vs), MClos(fun, free));
    hide V;
    if vm.sp >= |vm.mem| {
      n, w := 0, w1;
    } else {
      n, w := 1, StepVm(s, w1).st;
      Step1(s, w1, w);
    }
  }

  lemma {:induction false} ClosureRuns(s: Setting, c: Code, fr: Frame, fuel: nat, vm: Vm, k: nat)
    returns (n: nat, w: Vm)
    requires c.MakeClosure? && Ready(s, c, fr, vm, k)
    ensures M.Reaches(Stepper(s), vm, n, w) && Mirrors(s, Exec(c, fr, fuel), fr, fuel, vm, w, CodeSize(c, k))
    decreases fuel, c, 0
  {
    hide V, On, Full, Went, OpSize, StepVm, ConstsAt, Placed, Done, DoneAll, OpsSize;
    if GetAll(fr, c.captures).None? { return 0, vm; }
    var loads := LoadOps(c.captures);
    var i := Op(OP_CLOSURE, [k + |Assemble(c.fn.code, k).consts|, |c.captures|]);
    FirstPlaced(vm, loads, [i]);
    var n1, w1 := LoadsRun(s, c.captures, fr, vm);
    n, w := n1, w1;
    if Full(s, w1) { return; }
    var vs := GetAll(fr, c.captures).value;
    AllLoaded(fr, c.captures);
    AllPlaced(s.pool, vs, fr, fr, vm, w1, loads, [i]);
    var n2, w2 := ClosureStep(s, c.fn, vs, fr, vm, w1, OpsSize(loads), k, i);
    M.ReachesTrans(Stepper(s), vm, n1, w1, n2, w2);
    n, w := n1 + n2, w2;
    Sizes2(loads, i);
  }

  lemma {:induction false} AllLoaded(fr: Frame, syms: seq<Sym>)
    requires GetAll(fr, syms).Some?
    ensures |GetAll(fr, syms).value| == |syms|
    decreases |syms|
  {
    if syms != [] { AllLoaded(fr, syms[1..]); }
  }

  lemma AllPlaced(pool: seq<Const>, vs: seq<CVal>, fr: Frame, fr': Frame, vm: Vm, w: Vm, a: seq<Op>, b: seq<Op>)
    requires Placed(vm, a + b) && DoneAll(pool, vs, fr, fr', vm, w, OpsSize(a))
    ensures Placed(w, b)
  {
    hide OpsSize, On, V, OpsAt, Vs;
    SplitPlaced(vm, a, b, w, |fr.locals|);
  }

  // ---------- calls ----------

  lemma {:induction false} ArgsRun(s: Setting, cs: Codes, fr: Frame, fuel: nat, vm: Vm, k: nat) returns (n: nat, w: Vm)
    requires ReadyAll(s, cs, fr, vm, k)
    ensures M.Reaches(Stepper(s), vm, n, w)
      && MirrorsAll(s, ExecArgs(cs, fr, fuel), fr, fuel, vm, w, OpsSize(AssembleAll(cs, k).ops))
    ensures ExecArgs(cs, fr, fuel).Left? ==> |ExecArgs(cs, fr, fuel).v| == Count(cs)
    decreases fuel, cs, 2
  {
    hide V, Cells, Assemble, Exec, FitsCode, On, Placed, Full, Done, OpSize, StepVm, ConstsAt, Kept;
    if cs.CNil? {
      n, w := 0, vm;
      WentSame(s.pool, fr, vm);
      OnFull(s.pool, fr, vm);
      assert Vs(s.pool, [], vm.mem[vm.sp..vm.sp]);
      return;
    }
    hide OpsSize, Went, DoneAll;
    var a, k1 := Assemble(cs.head, k), k + |Assemble(cs.head, k).consts|;
    var b := AssembleAll(cs.tail, k1);
    FirstPlaced(vm, a.ops, b.ops);
    ConstsSplit(s.pool, k, a.consts, b.consts, k1);
    var n1, w1 := Runs(s, cs.head, fr, fuel, vm, k);
    n, w := n1, w1;
    var x := Exec(cs.head, fr, fuel);
    CountTail(cs, fr, fuel);
    if Full(s, w1) || !x.Left? { return; }
    DonePlaced(s.pool, x.v, fr, x.fr, vm, w1, a.ops, b.ops);
    DoneOn(s.pool, x.v, fr, x.fr, vm, w1, CodeSize(cs.head, k));
    var n2, w2 := ArgsRun(s, cs.tail, x.fr, fuel, w1, k1);
    M.ReachesTrans(Stepper(s), vm, n1, w1, n2, w2);
    n, w := n1 + n2, w2;
    var y := ExecArgs(cs.tail, x.fr, fuel);
    if Full(s, w2) { return; }
    OpsSizeAppend(a.ops, b.ops);
    if y.Left? { ConsDone(s.pool, x.v, y.v, fr, x.fr, y.fr, vm, w1, w2, OpsSize(a.ops), OpsSize(b.ops)); }
  }

  lemma DoneOn(pool: seq<Const>, v: CVal, fr: Frame, fr': Frame, vm: Vm, w: Vm, size: nat)
    requires Done(pool, v, fr, fr', vm, w, size)
    ensures On(pool, fr', w) && |w.frames| == |vm.frames|
  {
  }

  lemma {:induction false} CountTail(cs: Codes, fr: Frame, fuel: nat)
    requires cs.CCons?
    ensures ExecArgs(cs, fr, fuel).Left? ==> |ExecArgs(cs, fr, fuel).v| == Count(cs)
    decreases cs
  {
    var x := Exec(cs.head, fr, fuel);
    if x.Left? && cs.tail.CCons? { CountTail(cs.tail, x.fr, fuel); }
  }

  /** The VM in the function that was called. */
  function InCallee(w: Vm, fun: Fun, free: seq<MVal>, base: nat, i: Op): Vm
    requires w.frames != []
  {
    After(w, i).(frames := [Act(fun, free, 0, base)] + After(w, i).frames, sp := base + fun.numLocals)
  }

  /** A call that is none, or for which there is no room. */
  lemma NoCall(s: Setting, f: CVal, vs: seq<CVal>, fr0: Frame, fr1: Frame, fr2: Frame, vm: Vm, w1: Vm, w2: Vm,
          size1: nat, size2: nat, i: Op)
    requires On(s.pool, fr0, vm) && Done(s.pool, f, fr0, fr1, vm, w1, size1)
      && DoneAll(s.pool, vs, fr1, fr2, w1, w2, size2)
    requires i == Op(OP_CALL, [|vs|]) && Placed(w2, [i])
    ensures w2.frames != [] && w2.mem[vm.sp] == w1.mem[vm.sp] && w2.sp == w1.sp + |vs| == vm.sp + 1 + |vs| <= |w2.mem|
    ensures |w2.frames| == |vm.frames|
    ensures !f.CClos? || |vs| != f.fn.numParams ==> StepVm(s, w2).Fault?
    ensures f.CClos? && |vs| == f.fn.numParams ==> var callee := w2.mem[vm.sp];
      && V(s.pool, f, callee) && callee.MClos? && Made(s.pool, f.fn, callee.fun)
      && if CallRoom(s, w2, callee.fun, w1.sp)
        then StepVm(s, w2) == M.Next(InCallee(w2, callee.fun, callee.free, w1.sp, i)) else Full(s, w2)
  {
    hide OpSize, FitsCode, Assemble;
    OneStep(s, w2, i);
    assert w2.mem[vm.sp] == w1.mem[vm.sp];
    if f.CClos? {
      var k: nat :| MadeAt(s.pool, f.fn, w2.mem[vm.sp].fun, k);
    }
  }

  /** The arguments are the first locals of the function. */
  lemma CalleeOn(s: Setting, f: CVal, vs: seq<CVal>, fr1: Frame, fr2: Frame, w1: Vm, w2: Vm, size2: nat, i: Op,
          callee: MVal)
    requires DoneAll(s.pool, vs, fr1, fr2, w1, w2, size2) && f.CClos? && callee.MClos? && V(s.pool, f, callee)
    requires |vs| == f.fn.numParams && CallRoom(s, w2, callee.fun, w1.sp)
    ensures On(s.pool, Called(f, vs, fr2.globals), InCallee(w2, callee.fun, callee.free, w1.sp, i))
    ensures |Called(f, vs, fr2.globals).locals| == callee.fun.numLocals
  {
    hide OpSize, FitsCode, Assemble;
    var k: nat :| MadeAt(s.pool, f.fn, callee.fun, k);
    var w, fr := InCallee(w2, callee.fun, callee.free, w1.sp, i), Called(f, vs, fr2.globals);
    forall j | 0 <= j < |fr.locals| && fr.locals[j].Some? ensures V(s.pool, fr.locals[j].value, w.mem[w1.sp + j]) {
      assert w2.mem[w1.sp..w2.sp][j] == w.mem[w1.sp + j];
    }
  }

  const RETURN: Op := Op(OP_RETURN_VALUE, [])

  lemma BodyPlaced(s: Setting, fn: FnCode, w: Vm) returns (k: nat)
    requires w.frames != [] && w.frames[0].ip == 0 && Made(s.pool, fn, w.frames[0].fun)
    ensures FitsCode(fn.code, k) && ConstsAt(s.pool, k, Assemble(fn.code, k).consts)
      && Placed(w, Assemble(fn.code, k).ops + [RETURN])
  {
    k :| MadeAt(s.pool, fn, w.frames[0].fun, k);
    hide Assemble, FitsCode, OpsAt, EncodeOps;
    var ops := Assemble(fn.code, k).ops + [RETURN];
    OpsFit(fn.code, k);
    FitOne(RETURN);
    FitJoin(Assemble(fn.code, k).ops, [RETURN]);
    EncodedOpsAt([], ops, []);
    assert [] + EncodeOps(ops) + [] == w.frames[0].fun.code;
  }

  /** The return of a value: the caller goes on with it in place of the closure. */
  lemma Returns(s: Setting, v: CVal, fr: Frame, fr': Frame, fr0: Frame, fr2: Frame, vm: Vm, w2: Vm, w4: Vm, size: nat,
          sizeBody: nat, i: Op, fun: Fun, free: seq<MVal>, base: nat)
    returns (n: nat, w: Vm)
    requires Went(s.pool, fr0, fr2, vm, w2, size) && On(s.pool, fr0, vm) && base == vm.sp + 1
      && base <= w2.sp <= |w2.mem|
    requires |fr.locals| == fun.numLocals && Done(s.pool, v, fr, fr', InCallee(w2, fun, free, base, i), w4, sizeBody)
      && Placed(w4, [RETURN])
    ensures M.Reaches(Stepper(s), w4, n, w)
      && Done(s.pool, v, fr0, fr2.(globals := fr'.globals), vm, w, size + OpSize(i))
  {
    hide OpSize, V;
    OneStep(s, w4, RETURN);
    n, w := 1, StepVm(s, w4).st;
    Step1(s, w4, w);
    var w3 := InCallee(w2, fun, free, base, i);
    assert w4.frames[1..] == w3.frames[1..] == After(w2, i).frames;
    assert forall j :: 0 <= j < base ==> w4.mem[j] == w2.mem[j];
    assert forall j :: 0 <= j < vm.sp ==> w.mem[j] == w2.mem[j];
  }

  lemma {:induction false} CallCodeRuns(s: Setting, c: Code, fr: Frame, fuel: nat, vm: Vm, k: nat)
    returns (n: nat, w: Vm)
    requires c.CallCode? && Ready(s, c, fr, vm, k)
    ensures M.Reaches(Stepper(s), vm, n, w) && Mirrors(s, Exec(c, fr, fuel), fr, fuel, vm, w, CodeSize(c, k))
    decreases fuel, c, 0
  {
    hide V, On, Placed, Full, Done, DoneAll, Went, OpsSize, OpSize, StepVm, ConstsAt, Called;
    var a, k1 := Assemble(c.f, k), k + |Assemble(c.f, k).consts|;
    var b, i := AssembleAll(c.args, k1), Op(OP_CALL, [Count(c.args)]);
    assert Assemble(c, k).ops == a.ops + (b.ops + [i]);
    FirstPlaced(vm, a.ops, b.ops + [i]);
    ConstsSplit(s.pool, k, a.consts, b.consts, k1);
    var n1, w1 := Runs(s, c.f, fr, fuel, vm, k);
    n, w := n1, w1;
    var x := Exec(c.f, fr, fuel);
    if Full(s, w1) || !x.Left? { return; }
    DonePlaced(s.pool, x.v, fr, x.fr, vm, w1, a.ops, b.ops + [i]);
    FirstPlaced(w1, b.ops, [i]);
    DoneOn(s.pool, x.v, fr, x.fr, vm, w1, OpsSize(a.ops));
    var n2, w2 := ArgsRun(s, c.args, x.fr, fuel, w1, k1);
    M.ReachesTrans(Stepper(s), vm, n1, w1, n2, w2);
    n, w := n1 + n2, w2;
    var y := ExecArgs(c.args, x.fr, fuel);
    if Full(s, w2) || !y.Left? { return; }
    AllPlaced(s.pool, y.v, x.fr, y.fr, w1, w2, b.ops, [i]);
    Sizes3(a.ops, b.ops, i);
    var n3, w3 := CallRuns1(s, x.v, y.v, fr, x.fr, y.fr, vm, w1, w2, OpsSize(a.ops), OpsSize(b.ops), i, fuel, c.f);
    M.ReachesTrans(Stepper(s), vm, n, w, n3, w3);
    n, w := n + n3, w3;
  }

  /** The call itself, from the OpCall to behind it; `from` is the code of the function called. */
  lemma {:induction false} CallRuns1(s: Setting, f: CVal, vs: seq<CVal>, fr0: Frame, fr1: Frame, fr2: Frame, vm: Vm,
          w1: Vm, w2: Vm, size1: nat, size2: nat, i: Op, fuel: nat, from: Code)
    returns (n: nat, w: Vm)
    requires On(s.pool, fr0, vm) && Done(s.pool, f, fr0, fr1, vm, w1, size1)
      && DoneAll(s.pool, vs, fr1, fr2, w1, w2, size2)
    requires i == Op(OP_CALL, [|vs|]) && Placed(w2, [i])
    ensures M.Reaches(Stepper(s), w2, n, w)
    ensures var r := if !f.CClos? || |vs| != f.fn.numParams then Broke else if fuel == 0 then RanTooDeep
      else Back(Exec(f.fn.code, Called(f, vs, fr2.globals), fuel - 1), fr2);
      Mirrors(s, r, fr0, fuel, vm, w, size1 + size2 + OpSize(i))
    decreases fuel, from, 3
  {
    hide V, Made, MadeAt, On, Placed, Full, OpsSize, OpSize, StepVm, ConstsAt, Called, Kept, Vs, Done, DoneAll,
      CallRoom, Assemble, FitsCode;
    NoCall(s, f, vs, fr0, fr1, fr2, vm, w1, w2, size1, size2, i);
    n, w := 0, w2;
    if !f.CClos? || |vs| != f.fn.numParams { return; }
    var callee := w2.mem[vm.sp];
    if !CallRoom(s, w2, callee.fun, w1.sp) || fuel == 0 { return; }
    CalleeOn(s, f, vs, fr1, fr2, w1, w2, size2, i, callee);
    var w3 := InCallee(w2, callee.fun, callee.free, w1.sp, i);
    var k := BodyPlaced(s, f.fn, w3);
    hide Went, InCallee;
    FirstPlaced(w3, Assemble(f.fn.code, k).ops, [RETURN]);
    Step1(s, w2, w3);
    var fr := Called(f, vs, fr2.globals);
    var n4, w4 := Runs(s, f.fn.code, fr, fuel - 1, w3, k);
    M.ReachesTrans(Stepper(s), w2, 1, w3, n4, w4);
    n, w := 1 + n4, w4;
    var r := Exec(f.fn.code, fr, fuel - 1);
    if Full(s, w4) || !r.Left? { return; }
    LastPlaced(s.pool, r.v, fr, r.fr, w3, w4, Assemble(f.fn.code, k).ops, RETURN);
    WentBoth(s, f, vs, fr0, fr1, fr2, vm, w1, w2, size1, size2);
    var n5, w5 := Returns(s, r.v, fr, r.fr, fr0, fr2, vm, w2, w4, size1 + size2, CodeSize(f.fn.code, k), i, callee.fun,
      callee.free, w1.sp);
    M.ReachesTrans(Stepper(s), w2, n, w, n5, w5);
    n, w := n + n5, w5;
  }

  lemma WentBoth(s: Setting, f: CVal, vs: seq<CVal>, fr0: Frame, fr1: Frame, fr2: Frame, vm: Vm, w1: Vm, w2: Vm,
          size1: nat, size2: nat)
    requires Done(s.pool, f, fr0, fr1, vm, w1, size1) && DoneAll(s.pool, vs, fr1, fr2, w1, w2, size2)
    ensures Went(s.pool, fr0, fr2, vm, w2, size1 + size2) && w1.sp == vm.sp + 1 && w1.sp <= w2.sp <= |w2.mem|
  {
    hide On, V, Vs;
    WentTrans(s.pool, fr0, fr1, fr2, vm, w1, w2, size1, size2);
  }
}
