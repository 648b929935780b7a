/** Closure-converted code as the compiler writes it: instructions of one function after the
    other, with one pool of constants (compiler/compiler.go). */
module Assembly {
  import opened Language
  import opened Bytecode
  import opened Closures
  import opened Conversion
  import opened CallMachine

  /** Instructions, and the constants they add to the pool. */
  datatype Asm = Asm(ops: seq<Op>, consts: seq<Const>)

  function LoadOp(sym: Sym): Op
  {
    match sym
    case Local(i) => Op(OP_GET_LOCAL, [i])
    case Free(i) => Op(OP_GET_FREE, [i])
    case Self => Op(OP_CURRENT_CLOSURE, [])
    case Global(i) => Op(OP_GET_GLOBAL, [i])
  }

  function StoreOp(sym: Sym): Op
  {
    match sym case Global(i) => Op(OP_SET_MUTABLE_GLOBAL, [i]) case Local(i) => Op(OP_SET_MUTABLE_LOCAL, [i])
      case _ => Op(OP_SET_MUTABLE_LOCAL, [0])
  }

  function LoadOps(syms: seq<Sym>): (r: seq<Op>)
    ensures |r| == |syms|
  {
    if syms == [] then [] else [LoadOp(syms[0])] + LoadOps(syms[1..])
  }

  function Join(a: Asm, b: Asm): Asm { Asm(a.ops + b.ops, a.consts + b.consts) }

  function Then(a: Asm, i: Op): Asm { a.(ops := a.ops + [i]) }

  /** The code of a term with `k` constants in the pool already. A function's constants come
      first, then the function. */
  function Assemble(c: Code, k: nat): Asm
    decreases c
  {
    match c
    case Constant(n) => Asm([Op(OP_CONSTANT, [k])], [Number(n)])
    case Load(sym) => Asm([LoadOp(sym)], [])
    case Add2(l, r) =>
      var a := Assemble(l, k);
      Then(Join(a, Assemble(r, k + |a.consts|)), Op(OP_ADD, []))
    case StoreThen(sym, e, body) =>
      var a := Assemble(e, k);
      Join(Then(a, StoreOp(sym)), Assemble(body, k + |a.consts|))
    case MakeClosure(fn, captures) =>
      var a := Assemble(fn.code, k);
      Asm(LoadOps(captures) + [Op(OP_CLOSURE, [k + |a.consts|, |captures|])], a.consts + [Function(FunOf(fn, a))])
    case CallCode(f, args) =>
      var a := Assemble(f, k);
      Then(Join(a, AssembleAll(args, k + |a.consts|)), Op(OP_CALL, [Count(args)]))
  }

  function AssembleAll(cs: Codes, k: nat): Asm
    decreases cs
  {
    match cs
    case CNil => Asm([], [])
    case CCons(c, rest) =>
      var a := Assemble(c, k);
      Join(a, AssembleAll(rest, k + |a.consts|))
  }

  function Count(cs: Codes): nat { match cs case CNil => 0 case CCons(_, rest) => 1 + Count(rest) }

  /** A function ends with the return of its value. */
  function FunOf(fn: FnCode, a: Asm): Fun
  {
    Fun(EncodeOps(a.ops + [Op(OP_RETURN_VALUE, [])]), fn.numLocals, fn.numParams)
  }

  // ---------- operands fit ----------

  predicate SymsFit(syms: seq<Sym>) { forall i :: 0 <= i < |syms| ==> OpFits(LoadOp(syms[i])) }

  /** Indices fit their operands, in all functions, and parameters the frame. */
  predicate FitsCode(c: Code, k: nat)
    decreases c
  {
    match c
    case Constant(_) => k < 65536
    case Load(sym) => OpFits(LoadOp(sym))
    case Add2(l, r) => FitsCode(l, k) && FitsCode(r, k + |Assemble(l, k).consts|)
    case StoreThen(sym, e, body) => OpFits(StoreOp(sym)) && FitsCode(e, k)
      && FitsCode(body, k + |Assemble(e, k).consts|)
    case MakeClosure(fn, captures) =>
      && FitsCode(fn.code, k) && k + |Assemble(fn.code, k).consts| < 65536 && |captures| < 256 && SymsFit(captures)
      && fn.numParams <= fn.numLocals
    case CallCode(f, args) => FitsCode(f, k) && FitsAll(args, k + |Assemble(f, k).consts|) && Count(args) < 256
  }

  predicate FitsAll(cs: Codes, k: nat)
    decreases cs
  {
    cs.CCons? ==> FitsCode(cs.head, k) && FitsAll(cs.tail, k + |Assemble(cs.head, k).consts|)
  }

  lemma FitOne(i: Op)
    requires OpFits(i)
    ensures AllOpsFit([i])
  {
  }

  lemma FitJoin(a: seq<Op>, b: seq<Op>)
    requires AllOpsFit(a) && AllOpsFit(b)
    ensures AllOpsFit(a + b)
  {
  }

  lemma {:induction false} LoadsFit(syms: seq<Sym>)
    requires SymsFit(syms)
    ensures AllOpsFit(LoadOps(syms))
    decreases |syms|
  {
    if syms != [] {
      assert SymsFit(syms[1..]);
      LoadsFit(syms[1..]);
      FitJoin([LoadOp(syms[0])], LoadOps(syms[1..]));
    }
  }

  lemma {:induction false} OpsFit(c: Code, k: nat)
    requires FitsCode(c, k)
    ensures AllOpsFit(Assemble(c, k).ops)
    decreases c
  {
    hide LoadOp, StoreOp, AllOpsFit;
    match c
    case Constant(_) => FitOne(Op(OP_CONSTANT, [k]));
    case Load(sym) => FitOne(LoadOp(sym));
    case Add2(l, r) =>
      var a := Assemble(l, k);
      OpsFit(l, k);
      OpsFit(r, k + |a.consts|);
      FitOne(Op(OP_ADD, []));
      FitJoin(a.ops, Assemble(r, k + |a.consts|).ops);
      FitJoin(a.ops + Assemble(r, k + |a.consts|).ops, [Op(OP_ADD, [])]);
    case StoreThen(sym, e, body) =>
      var a := Assemble(e, k);
      OpsFit(e, k);
      OpsFit(body, k + |a.consts|);
      FitOne(StoreOp(sym));
      FitJoin(a.ops, [StoreOp(sym)]);
      FitJoin(a.ops + [StoreOp(sym)], Assemble(body, k + |a.consts|).ops);
    case MakeClosure(fn, captures) =>
      var i := Op(OP_CLOSURE, [k + |Assemble(fn.code, k).consts|, |captures|]);
      LoadsFit(captures);
      FitOne(i);
      FitJoin(LoadOps(captures), [i]);
    case CallCode(f, args) =>
      var a := Assemble(f, k);
      var b := AssembleAll(args, k + |a.consts|);
      OpsFit(f, k);
      OpsFitAll(args, k + |a.consts|);
      FitOne(Op(OP_CALL, [Count(args)]));
      FitJoin(a.ops, b.ops);
      FitJoin(a.ops + b.ops, [Op(OP_CALL, [Count(args)])]);
  }

  lemma {:induction false} OpsFitAll(cs: Codes, k: nat)
    requires FitsAll(cs, k)
    ensures AllOpsFit(AssembleAll(cs, k).ops)
    decreases cs
  {
    if cs.CCons? {
      var a := Assemble(cs.head, k);
      OpsFit(cs.head, k);
      OpsFitAll(cs.tail, k + |a.consts|);
      FitJoin(a.ops, AssembleAll(cs.tail, k + |a.consts|).ops);
    }
  }

  // ---------- values and frames that correspond ----------

  ghost predicate ConstsAt(pool: seq<Const>, k: nat, cs: seq<Const>) { k + |cs| <= |pool| && pool[k..k + |cs|] == cs }

  lemma ConstsSplit(pool: seq<Const>, k: nat, a: seq<Const>, b: seq<Const>, k1: nat)
    requires ConstsAt(pool, k, a + b) && k1 == k + |a|
    ensures ConstsAt(pool, k, a) && ConstsAt(pool, k1, b)
  {
    assert pool[k..k1] == (a + b)[..|a|];
    assert pool[k1..k1 + |b|] == (a + b)[|a|..];
  }

  /** `fun` is what `fn` was compiled to, and the pool has its constants. */
  ghost predicate MadeAt(pool: seq<Const>, fn: FnCode, fun: Fun, k: nat)
  {
    && FitsCode(fn.code, k) && fn.numParams <= fn.numLocals
    && ConstsAt(pool, k, Assemble(fn.code, k).consts) && fun == FunOf(fn, Assemble(fn.code, k))
  }

  ghost predicate Made(pool: seq<Const>, fn: FnCode, fun: Fun) { exists k: nat :: MadeAt(pool, fn, fun, k) }

  ghost predicate V(pool: seq<Const>, v: CVal, m: MVal)
    decreases v
  {
    match v
    case CNum(n) => m == MNum(n)
    case CClos(fn, free) =>
      m.MClos? && Made(pool, fn, m.fun) && |free| == |m.free|
        && forall i :: 0 <= i < |free| ==> V(pool, free[i], m.free[i])
  }

  ghost predicate Vs(pool: seq<Const>, vs: seq<CVal>, ms: seq<MVal>)
  {
    |vs| == |ms| && forall i :: 0 <= i < |vs| ==> V(pool, vs[i], ms[i])
  }

  /** The cells from `base` on hold the locals to which something was stored. */
  ghost predicate Cells(pool: seq<Const>, locals: seq<Option<CVal>>, mem: seq<MVal>, base: nat)
  {
    base + |locals| <= |mem| && forall i :: 0 <= i < |locals| && locals[i].Some? ==>
      V(pool, locals[i].value, mem[base + i])
  }

  ghost predicate SelfOf(pool: seq<Const>, self: Option<CVal>, a: Act)
  {
    self.Some? ==> V(pool, self.value, MClos(a.fun, a.free))
  }

  /** The innermost frame of the VM is `fr`. */
  ghost predicate On(pool: seq<Const>, fr: Frame, vm: Vm)
  {
    && vm.frames != [] && vm.frames[0].base + |fr.locals| <= vm.sp <= |vm.mem|
    && Cells(pool, fr.locals, vm.mem, vm.frames[0].base)
    && Vs(pool, fr.free, vm.frames[0].free) && SelfOf(pool, fr.self, vm.frames[0]) && Vs(pool, fr.globals, vm.globals)
  }
}
