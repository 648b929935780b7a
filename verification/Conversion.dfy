/** Closure conversion preserves lexical scoping: running the converted code with its slots,
    captured values and current closure gives what the source semantics gives. */
module Conversion {
  import opened Language
  import opened Closures

  // ---------- the machine ----------

  datatype CVal = CNum(n: int) | CClos(fn: FnCode, free: seq<CVal>)

  /** Local slots, empty until something is stored, the captured values, the closure that runs,
      except at top level, and the globals all share. */
  datatype Frame = Frame(locals: seq<Option<CVal>>, free: seq<CVal>, self: Option<CVal>, globals: seq<CVal>)

  /** `Lost` stands for code that reads or writes what the frame does not have. */
  datatype Ran<T> = Left(v: T, fr: Frame) | Broke | RanTooDeep | Lost

  function Get(fr: Frame, sym: Sym): Option<CVal>
  {
    match sym
    case Local(i) => if i < |fr.locals| then fr.locals[i] else None
    case Free(i) => if i < |fr.free| then Some(fr.free[i]) else None
    case Self => fr.self
    case Global(i) => if i < |fr.globals| then Some(fr.globals[i]) else None
  }

  /** OpSetMutableLocal, OpSetMutableGlobal and their immutable kin. */
  function Put(fr: Frame, sym: Sym, v: CVal): Option<Frame>
  {
    match sym
    case Local(i) => if i < |fr.locals| then Some(fr.(locals := fr.locals[i := Some(v)])) else None
    case Global(i) => if i < |fr.globals| then Some(fr.(globals := fr.globals[i := v])) else None
    case _ => None
  }

  /** The captures loaded for a new closure. */
  function GetAll(fr: Frame, syms: seq<Sym>): Option<seq<CVal>>
  {
    if syms == [] then Some([])
    else if Get(fr, syms[0]).Some? && GetAll(fr, syms[1..]).Some?
      then Some([Get(fr, syms[0]).value] + GetAll(fr, syms[1..]).value)
    else None
  }

  function Exec(c: Code, fr: Frame, fuel: nat): Ran<CVal>
    decreases fuel, c, 1
  {
    match c
    case Constant(n) => Left(CNum(n), fr)
    case Load(sym) => if Get(fr, sym).Some? then Left(Get(fr, sym).value, fr) else Missing(sym)
    case Add2(l, r) =>
      (match Exec(l, fr, fuel)
       case Left(a, fr1) => AddCVals(a, Exec(r, fr1, fuel))
       case Broke => Broke
       case RanTooDeep => RanTooDeep
       case Lost => Lost)
    case StoreThen(sym, e, body) =>
      (match Exec(e, fr, fuel)
       case Left(v, fr1) => if Put(fr1, sym, v).None? then Missing(sym) else Exec(body, Put(fr1, sym, v).value, fuel)
       case Broke => Broke
       case RanTooDeep => RanTooDeep
       case Lost => Lost)
    case MakeClosure(fn, captures) =>
      if GetAll(fr, captures).Some? then Left(CClos(fn, GetAll(fr, captures).value), fr) else Lost
    case CallCode(f, args) =>
      (match Exec(f, fr, fuel)
       case Left(k, fr1) =>
         (match ExecArgs(args, fr1, fuel)
          case Left(vs, fr2) =>
            if !k.CClos? || |vs| != k.fn.numParams then Broke
            else if fuel == 0 then RanTooDeep
            else Back(Exec(k.fn.code, Called(k, vs, fr2.globals), fuel - 1), fr2)
          case Broke => Broke
          case RanTooDeep => RanTooDeep
          case Lost => Lost)
       case Broke => Broke
       case RanTooDeep => RanTooDeep
       case Lost => Lost)
  }

  function ExecArgs(cs: Codes, fr: Frame, fuel: nat): Ran<seq<CVal>>
    decreases fuel, cs, 0
  {
    match cs
    case CNil => Left([], fr)
    case CCons(c, rest) =>
      (match Exec(c, fr, fuel)
       case Left(v, fr1) => Ahead(v, ExecArgs(rest, fr1, fuel))
       case Broke => Broke
       case RanTooDeep => RanTooDeep
       case Lost => Lost)
  }

  /** There are fewer globals than the program has variables. */
  function Missing(sym: Sym): Ran<CVal> { if sym.Global? then Broke else Lost }

  function AddCVals(a: CVal, r: Ran<CVal>): Ran<CVal>
  {
    if !r.Left? then r else if a.CNum? && r.v.CNum? then Left(CNum(Wrap(a.n + r.v.n)), r.fr) else Broke
  }

  function Back(r: Ran<CVal>, fr: Frame): Ran<CVal> { if r.Left? then r.(fr := fr.(globals := r.fr.globals)) else r }

  function Ahead(v: CVal, r: Ran<seq<CVal>>): Ran<seq<CVal>> { if r.Left? then r.(v := [v] + r.v) else r }

  function Filled(vs: seq<CVal>): (r: seq<Option<CVal>>)
    ensures |r| == |vs| && forall i :: 0 <= i < |vs| ==> r[i] == Some(vs[i])
  {
    seq(|vs|, i requires 0 <= i < |vs| => Some(vs[i]))
  }

  /** The frame of a call: the arguments are the first locals. */
  function Called(k: CVal, vs: seq<CVal>, globals: seq<CVal>): Frame
    requires k.CClos?
  {
    Frame(Filled(vs) + seq(if k.fn.numLocals < |vs| then 0 else k.fn.numLocals - |vs|, _ => None), k.free, Some(k),
      globals)
  }

  // ---------- values and frames that correspond ----------

  /** Every captured name is known to the enclosing function under the recorded symbol, and is
      not global. */
  ghost predicate CapturesKnown(inner: Level, outer: Level)
  {
    forall i :: 0 <= i < |inner.free| ==>
      Known(outer, inner.free[i].0) == Some(inner.free[i].1) && !inner.free[i].1.Global?
  }

  ghost predicate FreeNamed(lv: Level)
  {
    forall x :: x in lv.store && lv.store[x].Free? ==> lv.store[x].i < |lv.free| && lv.free[lv.store[x].i].0 == x
  }

  /** The outermost level has global variables and nothing else. */
  ghost predicate OnlyGlobal(lv: Level)
  {
    lv.store == map[] && lv.free == []
      && forall k, x :: 0 <= k < |lv.blocks| && x in lv.blocks[k] ==> lv.blocks[k][x].Global?
  }

  ghost predicate StackOk(st: seq<Level>)
  {
    && (forall k :: 0 <= k < |st| ==> FreeNamed(st[k]))
    && (forall k :: 0 <= k < |st| - 1 ==> CapturesKnown(st[k], st[k + 1]))
    && (st != [] ==> OnlyGlobal(st[|st| - 1]))
  }

  /** `fn` is what the compiler makes of this function literal somewhere in a program. */
  ghost predicate Origin(st: seq<Level>, name: string, params: seq<string>, body: Term, fn: FnCode)
  {
    var b := Compile(body, [FnLevel(name, params)] + st);
    st != [] && StackOk(st) && b.Compiled? && Clean(body, [FnLevel(name, params)] + st) && fn == FnOf(params, b)
  }

  /** Names that are global there are bound to their cells. */
  ghost predicate Sees(st: seq<Level>, env: Env)
  {
    forall x :: Resolve(st, x).sym.Some? && Resolve(st, x).sym.value.Global? ==>
      Find(env, x) == Some(Cell(Resolve(st, x).sym.value.i))
  }

  ghost predicate MadeFrom(name: string, params: seq<string>, body: Term, env: Env, fn: FnCode)
  {
    exists st :: Origin(st, name, params, body, fn) && Sees(st, env)
  }

  ghost predicate RelB(b: Option<Binding>, c: CVal)
    decreases c, 1
  {
    b.Some? && b.value.Held? && RelV(b.value.v, c)
  }

  /** A closure corresponds to a function value if it was made from it, where it was made, and
      holds, for each captured name, the value the function value has for that name. */
  ghost predicate RelV(v: Val, c: CVal)
    decreases c, 0
  {
    match c
    case CNum(n) => v == VNum(n)
    case CClos(fn, free) =>
      && v.VFn? && MadeFrom(v.name, v.params, v.body, v.env, fn) && |free| == |fn.names|
      && forall i :: 0 <= i < |free| ==> RelB(Find(v.env, fn.names[i]), free[i])
  }

  /** The captured values of a frame are those of the closure's environment. */
  ghost predicate Captures(captured: Env, free: seq<CVal>, names: seq<string>)
  {
    |free| == |names| && forall i :: 0 <= i < |free| ==> RelB(Find(captured, names[i]), free[i])
  }

  /** Name and parameters of the function. */
  ghost predicate BaseRel(store: map<string, Sym>, own: Env, locals: seq<Option<CVal>>, self: Option<CVal>, lo: nat)
  {
    && (forall x :: Find(own, x).Some? <==> x in store && !store[x].Free?)
    && (forall x :: x in store && !store[x].Free? && Find(own, x).Some? ==> match store[x]
         case Local(i) => i < lo && i < |locals| && locals[i].Some? && RelB(Find(own, x), locals[i].value)
         case Self => self.Some? && RelB(Find(own, x), self.value)
         case Free(_) => true
         case Global(_) => false)
  }

  /** Each open block has one variable; inner ones have higher slots. */
  ghost predicate OwnRel(blocks: seq<map<string, Sym>>, store: map<string, Sym>, own: Env, locals: seq<Option<CVal>>,
          self: Option<CVal>, lo: nat, hi: nat)
    decreases |blocks|
  {
    if blocks == [] then lo <= hi && BaseRel(store, own, locals, self, lo)
    else
      && own.Bind? && own.x in blocks[0] && blocks[0][own.x].Local?
      && var i := blocks[0][own.x].i;
         && blocks[0] == map[own.x := Local(i)] && lo <= i < hi && i < |locals| && locals[i].Some?
         && RelB(Some(own.b), locals[i].value)
         && OwnRel(blocks[1..], store, own.rest, locals, self, lo, i)
  }

  /** Code of a function: its variables are in the slots. */
  ghost predicate Matches(lv: Level, s: Scope, fr: Frame, names: seq<string>, lo: nat)
  {
    && OwnRel(lv.blocks, lv.store, s.own, fr.locals, fr.self, lo, lv.next)
    && Captures(s.captured, fr.free, names) && Names(lv.free) <= names && FreeNamed(lv)
  }

  /** Code at top level: the variable of each open block has the cell of its number. */
  ghost predicate TopRel(blocks: seq<map<string, Sym>>, own: Env)
    decreases |blocks|
  {
    if blocks == [] then own == Nothing
    else own.Bind? && own.b.Cell? && blocks[0] == map[own.x := Global(own.b.i)] && TopRel(blocks[1..], own.rest)
  }

  ghost predicate CellsRel(cells: seq<Val>, globals: seq<CVal>)
  {
    |cells| == |globals| && forall i :: 0 <= i < |cells| ==> RelV(cells[i], globals[i])
  }

  /** The machine is where the source is, in code that is compiled with these tables. */
  ghost predicate At(st: seq<Level>, s: Scope, fr: Frame, names: seq<string>, lo: nat)
  {
    && st != [] && CellsRel(s.cells, fr.globals) && s.top == IsGlobalScope(st)
    && if s.top then TopRel(st[0].blocks, s.own) && s.captured == Nothing && s.used == st[0].next
       else Matches(st[0], s, fr, names, lo) && Sees(st[1..], s.captured)
  }

  // ---------- how tables grow ----------

  ghost predicate Grows(a: Level, b: Level)
  {
    && a.blocks == b.blocks && a.free <= b.free && a.next <= b.next
    && (forall x :: x in a.store ==> x in b.store && b.store[x] == a.store[x])
    && (forall x :: x in b.store && x !in a.store ==> b.store[x].Free?)
  }

  /** Compiling in a function leaves the slots of the levels around alone. */
  ghost predicate AllGrow(st: seq<Level>, st': seq<Level>)
  {
    |st'| == |st| && (forall k :: 0 <= k < |st| ==> Grows(st[k], st'[k]))
      && forall k :: 1 <= k < |st| ==> st'[k].next == st[k].next
  }

  lemma GrowsTrans(a: Level, b: Level, c: Level)
    requires Grows(a, b) && Grows(b, c)
    ensures Grows(a, c)
  {
  }

  lemma AllGrowTrans(a: seq<Level>, b: seq<Level>, c: seq<Level>)
    requires AllGrow(a, b) && AllGrow(b, c)
    ensures AllGrow(a, c)
  {
    forall k | 0 <= k < |a| ensures Grows(a[k], c[k]) { GrowsTrans(a[k], b[k], c[k]); }
  }

  lemma KnownKept(a: Level, b: Level, x: string)
    requires Grows(a, b) && Known(a, x).Some?
    ensures Known(b, x) == Known(a, x)
  {
  }

  lemma CapturesKept(inner: Level, a: Level, b: Level)
    requires Grows(a, b) && CapturesKnown(inner, a)
    ensures CapturesKnown(inner, b)
  {
    forall i | 0 <= i < |inner.free|
      ensures Known(b, inner.free[i].0) == Some(inner.free[i].1)
    {
      KnownKept(a, b, inner.free[i].0);
    }
  }

  lemma {:induction false} ResolveGrows(st: seq<Level>, x: string)
    requires StackOk(st)
    ensures var r := Resolve(st, x);
      AllGrow(st, r.st) && StackOk(r.st)
        && (r.sym.Some? ==> st != [] && (r.sym.value.Global? || Known(r.st[0], x) == r.sym))
    decreases |st|
  {
    if st != [] && Known(st[0], x).None? {
      var rest := st[1..];
      TailOk(st);
      ResolveGrows(rest, x);
      ResolveStep(st, x, Resolve(rest, x));
    }
  }

  lemma TailOk(st: seq<Level>)
    requires StackOk(st) && st != []
    ensures StackOk(st[1..])
  {
    var rest := st[1..];
    forall k | 0 <= k < |rest| - 1
      ensures CapturesKnown(rest[k], rest[k + 1])
    {
      assert CapturesKnown(st[k + 1], st[k + 2]);
    }
  }

  lemma ResolveStep(st: seq<Level>, x: string, r: Resolved)
    requires StackOk(st) && st != [] && Known(st[0], x).None? && r == Resolve(st[1..], x)
    requires AllGrow(st[1..], r.st) && StackOk(r.st)
      && (r.sym.Some? ==> r.st != [] && (r.sym.value.Global? || Known(r.st[0], x) == r.sym))
    ensures var q := Resolve(st, x);
      AllGrow(st, q.st) && StackOk(q.st) && (q.sym.Some? ==> q.sym.value.Global? || Known(q.st[0], x) == q.sym)
  {
    var lv := if r.sym.None? || r.sym.value.Global? then st[0] else DefineFree(st[0], x, r.sym.value);
    HeadGrows(st[0], x, r.sym);
    if |st| > 1 {
      assert CapturesKnown(st[0], st[0 + 1]) && Grows(st[1..][0], r.st[0]);
      CapturesKept(st[0], st[1], r.st[0]);
    }
    ConsOk(st, lv, r.st);
  }

  lemma HeadGrows(lv: Level, x: string, sym: Option<Sym>)
    requires Known(lv, x).None? && FreeNamed(lv)
    ensures sym.Some? ==> var lv' := DefineFree(lv, x, sym.value);
      Grows(lv, lv') && FreeNamed(lv') && Known(lv', x) == Some(Free(|lv.free|))
  {
  }

  lemma ConsOk(st: seq<Level>, lv: Level, rest: seq<Level>)
    requires st != [] && Grows(st[0], lv) && FreeNamed(lv) && AllGrow(st[1..], rest) && StackOk(rest)
    requires if rest == [] then OnlyGlobal(lv) else CapturesKnown(lv, rest[0]) && rest[0].next == st[1].next
    ensures AllGrow(st, [lv] + rest) && StackOk([lv] + rest)
  {
    var q := [lv] + rest;
    forall k | 1 <= k < |st| ensures q[k].next == st[k].next {
      if k > 1 { assert st[1..][k - 1].next == rest[k - 1].next; }
    }
    forall k | 0 <= k < |st| ensures Grows(st[k], q[k]) {
      if k > 0 { assert Grows(st[1..][k - 1], rest[k - 1]); }
    }
    forall k | 0 <= k < |q| - 1 ensures CapturesKnown(q[k], q[k + 1]) {
      if k > 0 { assert CapturesKnown(rest[k - 1], rest[k - 1 + 1]); }
    }
  }

  lemma PushOk(st: seq<Level>, x: string)
    requires st != [] && StackOk(st)
    ensures StackOk(PushBlock(st, x))
  {
    var q := PushBlock(st, x);
    forall k | 0 <= k < |q| - 1 ensures CapturesKnown(q[k], q[k + 1]) { assert CapturesKnown(st[k], st[k + 1]); }
  }

  lemma PopOk(st: seq<Level>, x: string, st': seq<Level>)
    requires st != [] && AllGrow(PushBlock(st, x), st') && StackOk(st')
    ensures st'[0].blocks != [] && AllGrow(st, PopBlock(st')) && StackOk(PopBlock(st'))
  {
    var q, p := PopBlock(st'), PushBlock(st, x);
    assert Grows(p[0], st'[0]);
    forall k | 0 <= k < |st| ensures Grows(st[k], q[k]) { assert Grows(p[k], st'[k]); }
    forall k | 0 <= k < |q| - 1 ensures CapturesKnown(q[k], q[k + 1]) { assert CapturesKnown(st'[k], st'[k + 1]); }
  }

  lemma EnterOk(st: seq<Level>, lv: Level)
    requires st != [] && StackOk(st) && lv.free == [] && FreeNamed(lv)
    ensures StackOk([lv] + st) && !IsGlobalScope([lv] + st)
  {
    var q := [lv] + st;
    forall k | 0 <= k < |q| - 1 ensures CapturesKnown(q[k], q[k + 1]) {
      if k > 0 { assert CapturesKnown(st[k - 1], st[k]); }
    }
  }

  lemma LeaveOk(st: seq<Level>, lv: Level, st': seq<Level>)
    requires st != [] && AllGrow([lv] + st, st') && StackOk(st')
    ensures AllGrow(st, st'[1..]) && StackOk(st'[1..]) && CapturesKnown(st'[0], st'[1]) && st'[1].next == st[0].next
  {
    var q := st'[1..];
    forall k | 0 <= k < |st| ensures Grows(st[k], q[k]) { assert Grows(([lv] + st)[k + 1], st'[k + 1]); }
    forall k | 0 <= k < |q| - 1 ensures CapturesKnown(q[k], q[k + 1]) { assert CapturesKnown(st'[k + 1], st'[k + 2]); }
    assert CapturesKnown(st'[0], st'[0 + 1]);
  }

  lemma {:induction false} ParamsNamed(params: seq<string>, from: nat, store: map<string, Sym>)
    requires forall x :: x in store ==> !store[x].Free?
    ensures forall x :: x in ParamStore(params, from, store) ==> !ParamStore(params, from, store)[x].Free?
    decreases |params|
  {
    if params != [] { ParamsNamed(params[1..], from + 1, store[params[0] := Local(from)]); }
  }

  lemma LevelNamed(name: string, params: seq<string>)
    ensures FreeNamed(FnLevel(name, params)) && FnLevel(name, params).free == []
  {
    ParamsNamed(params, 0, if name == "" then map[] else map[name := Self]);
  }

  /** Compiling only ever adds captured names and slots, and keeps the tables in order. */
  lemma {:induction false} CompileGrows(t: Term, st: seq<Level>)
    requires st != [] && StackOk(st) && Compile(t, st).Compiled?
    ensures AllGrow(st, Compile(t, st).st) && StackOk(Compile(t, st).st)
    decreases t
  {
    hide StackOk, AllGrow, Resolve;
    match t
    case Num(_) => Unchanged(st);
    case Var(x) => ResolveGrows(st, x);
    case Plus(l, r) =>
      CompileGrows(l, st);
      CompileGrows(r, Compile(l, st).st);
      AllGrowTrans(st, Compile(l, st).st, Compile(t, st).st);
    case Let(x, e, body) =>
      CompileGrows(e, st);
      var a := Compile(e, st).st;
      PushOk(a, x);
      CompileGrows(body, PushBlock(a, x));
      PopOk(a, x, Compile(body, PushBlock(a, x)).st);
      AllGrowTrans(st, a, Compile(t, st).st);
    case Set(x, e, body) =>
      CompileGrows(e, st);
      var a := Compile(e, st).st;
      ResolveGrows(a, x);
      CompileGrows(body, Resolve(a, x).st);
      AllGrowTrans(st, a, Resolve(a, x).st);
      AllGrowTrans(st, Resolve(a, x).st, Compile(t, st).st);
    case Fn(name, params, body) =>
      var lv := FnLevel(name, params);
      LevelNamed(name, params);
      EnterOk(st, lv);
      CompileGrows(body, [lv] + st);
      LeaveOk(st, lv, Compile(body, [lv] + st).st);
    case App(f, args) =>
      CompileGrows(f, st);
      ArgsGrow(args, Compile(f, st).st);
      AllGrowTrans(st, Compile(f, st).st, Compile(t, st).st);
  }

  lemma Unchanged(st: seq<Level>)
    ensures AllGrow(st, st)
  {
  }

  lemma {:induction false} ArgsGrow(ts: Terms, st: seq<Level>)
    requires st != [] && StackOk(st) && CompileArgs(ts, st).Compiled?
    ensures AllGrow(st, CompileArgs(ts, st).st) && StackOk(CompileArgs(ts, st).st)
    decreases ts
  {
    hide StackOk, AllGrow;
    if ts.TNil? {
      Unchanged(st);
    } else {
      CompileGrows(ts.head, st);
      ArgsGrow(ts.tail, Compile(ts.head, st).st);
      AllGrowTrans(st, Compile(ts.head, st).st, CompileArgs(ts, st).st);
    }
  }

  // ---------- reading and writing variables ----------

  /** What the tables know of a name the function itself binds, and of any other. */
  lemma {:induction false} OwnLookup(blocks: seq<map<string, Sym>>, store: map<string, Sym>, own: Env, fr: Frame,
          lo: nat, hi: nat, x: string)
    requires OwnRel(blocks, store, own, fr.locals, fr.self, lo, hi)
    ensures var sym := if InBlocks(blocks, x).Some? then InBlocks(blocks, x) else if x in store then Some(store[x])
      else None;
      && (Find(own, x).Some? <==> sym.Some? && !sym.value.Free?)
      && (Find(own, x).Some? ==>
        !sym.value.Global? && Get(fr, sym.value).Some? && RelB(Find(own, x), Get(fr, sym.value).value))
    decreases |blocks|
  {
    if blocks != [] && own.x != x { OwnLookup(blocks[1..], store, own.rest, fr, lo, blocks[0][own.x].i, x); }
  }

  /** A name resolves to where its value is. */
  lemma Loads(lv: Level, s: Scope, fr: Frame, names: seq<string>, lo: nat, x: string)
    requires Matches(lv, s, fr, names, lo) && Known(lv, x).Some?
    ensures Get(fr, Known(lv, x).value).Some? && RelB(Visible(s, x), Get(fr, Known(lv, x).value).value)
      && !Known(lv, x).value.Global?
  {
    OwnLookup(lv.blocks, lv.store, s.own, fr, lo, lv.next, x);
    if InBlocks(lv.blocks, x).Some? { BlocksLocal(lv.blocks, lv.store, s.own, fr, lo, lv.next, x); }
    var sym := Known(lv, x).value;
    if sym.Free? {
      assert lv.free[sym.i].0 == x && Names(lv.free)[sym.i] == x;
      assert names[sym.i] == x;
    }
  }

  lemma {:induction false} BlocksLocal(blocks: seq<map<string, Sym>>, store: map<string, Sym>, own: Env, fr: Frame,
          lo: nat, hi: nat, x: string)
    requires OwnRel(blocks, store, own, fr.locals, fr.self, lo, hi) && InBlocks(blocks, x).Some?
    ensures InBlocks(blocks, x).value.Local? && lo <= InBlocks(blocks, x).value.i < hi
      && InBlocks(blocks, x).value.i < |fr.locals|
    decreases |blocks|
  {
    if own.x != x { BlocksLocal(blocks[1..], store, own.rest, fr, lo, blocks[0][own.x].i, x); }
  }

  /** More captured names and slots do not disturb a frame. */
  lemma MatchesGrow(lv: Level, lv': Level, s: Scope, fr: Frame, names: seq<string>, lo: nat)
    requires Matches(lv, s, fr, names, lo) && Grows(lv, lv') && Names(lv'.free) <= names && FreeNamed(lv')
    ensures Matches(lv', s, fr, names, lo)
  {
    OwnGrow(lv.blocks, lv.store, lv'.store, s.own, fr, lo, lv.next, lv'.next);
  }

  lemma {:induction false} OwnGrow(blocks: seq<map<string, Sym>>, store: map<string, Sym>, store': map<string, Sym>,
          own: Env, fr: Frame, lo: nat, hi: nat, hi': nat)
    requires OwnRel(blocks, store, own, fr.locals, fr.self, lo, hi) && hi <= hi'
    requires forall x :: x in store ==> x in store' && store'[x] == store[x]
    requires forall x :: x in store' && x !in store ==> store'[x].Free?
    ensures OwnRel(blocks, store', own, fr.locals, fr.self, lo, hi')
    decreases |blocks|
  {
    if blocks != [] {
      var i := blocks[0][own.x].i;
      OwnGrow(blocks[1..], store, store', own.rest, fr, lo, i, i);
    }
  }

  /** Writing a slot above all of the function's variables leaves them as they are. */
  lemma {:induction false} OwnAbove(blocks: seq<map<string, Sym>>, store: map<string, Sym>, own: Env, fr: Frame,
          lo: nat, hi: nat, j: nat, v: CVal)
    requires OwnRel(blocks, store, own, fr.locals, fr.self, lo, hi) && hi <= j < |fr.locals|
    ensures OwnRel(blocks, store, own, fr.locals[j := Some(v)], fr.self, lo, hi)
    decreases |blocks|
  {
    if blocks != [] { OwnAbove(blocks[1..], store, own.rest, fr, lo, blocks[0][own.x].i, j, v); }
  }

  /** Assigning to a variable writes its slot and no other's. */
  lemma {:induction false} OwnSet(blocks: seq<map<string, Sym>>, store: map<string, Sym>, own: Env, fr: Frame, lo: nat,
          hi: nat, x: string, v: Val, c: CVal)
    requires OwnRel(blocks, store, own, fr.locals, fr.self, lo, hi) && InBlocks(blocks, x).Some?
      && InBlocks(blocks, x).value.Local? && RelV(v, c)
    requires InBlocks(blocks, x).value.i < |fr.locals|
    ensures OwnRel(blocks, store, Replace(own, x, Held(v)), fr.locals[InBlocks(blocks, x).value.i := Some(c)],
      fr.self, lo, hi)
    decreases |blocks|
  {
    var i := blocks[0][own.x].i;
    if own.x == x {
      OwnAbove(blocks[1..], store, own.rest, fr, lo, i, i, c);
    } else {
      BlocksLocal(blocks[1..], store, own.rest, fr, lo, i, x);
      OwnSet(blocks[1..], store, own.rest, fr, lo, i, x, v, c);
    }
  }

  // ---------- the simulation ----------

  /** Source and machine did the same. */
  ghost predicate Agree(r: Result<Val>, q: Ran<CVal>, st: seq<Level>, fr: Frame, names: seq<string>, lo: nat)
  {
    match r
    case Gave(v, s) => q.Left? && RelV(v, q.v) && |q.fr.locals| == |fr.locals| && At(st, s, q.fr, names, lo)
    case Wrong => q.Broke?
    case TooDeep => q.RanTooDeep?
  }

  ghost predicate AllRel(vs: seq<Val>, cs: seq<CVal>)
  {
    |vs| == |cs| && forall i :: 0 <= i < |vs| ==> RelV(vs[i], cs[i])
  }

  ghost predicate ArgsAgree(r: Result<seq<Val>>, q: Ran<seq<CVal>>, st: seq<Level>, fr: Frame, names: seq<string>,
          lo: nat)
  {
    match r
    case Gave(vs, s) => q.Left? && AllRel(vs, q.v) && |q.fr.locals| == |fr.locals| && At(st, s, q.fr, names, lo)
    case Wrong => q.Broke?
    case TooDeep => q.RanTooDeep?
  }

  /** The frame has room for, and the captures of, everything compiled up to `lv`. */
  ghost predicate Roomy(lv: Level, fr: Frame, names: seq<string>) { Names(lv.free) <= names && lv.next <= |fr.locals| }

  lemma RoomyBefore(a: Level, b: Level, fr: Frame, names: seq<string>)
    requires Grows(a, b) && Roomy(b, fr, names)
    ensures Roomy(a, fr, names)
  {
    assert forall i :: 0 <= i < |a.free| ==> a.free[i] == b.free[i];
    assert Names(a.free) == Names(b.free)[..|a.free|];
  }

  lemma GrowHead(st: seq<Level>, st': seq<Level>)
    requires st != [] && AllGrow(st, st') && StackOk(st')
    ensures Grows(st[0], st'[0]) && FreeNamed(st'[0])
  {
  }

  lemma {:induction false} LowBelowHigh(blocks: seq<map<string, Sym>>, store: map<string, Sym>, own: Env, fr: Frame,
          lo: nat, hi: nat)
    requires OwnRel(blocks, store, own, fr.locals, fr.self, lo, hi)
    ensures lo <= hi
    decreases |blocks|
  {
    if blocks != [] { LowBelowHigh(blocks[1..], store, own.rest, fr, lo, blocks[0][own.x].i); }
  }

  /** A declaration: the new variable has the next slot. */
  lemma Declared(lv: Level, s: Scope, fr: Frame, names: seq<string>, lo: nat, x: string, v: Val, c: CVal)
    requires Matches(lv, s, fr, names, lo) && RelV(v, c) && lv.next < |fr.locals|
    ensures Matches(lv.(blocks := [map[x := Local(lv.next)]] + lv.blocks, next := lv.next + 1),
      s.(own := Bind(x, Held(v), s.own)), fr.(locals := fr.locals[lv.next := Some(c)]), names, lo)
  {
    LowBelowHigh(lv.blocks, lv.store, s.own, fr, lo, lv.next);
    OwnAbove(lv.blocks, lv.store, s.own, fr, lo, lv.next, lv.next, c);
    assert ([map[x := Local(lv.next)]] + lv.blocks)[1..] == lv.blocks;
  }

  /** The end of a block: its variable is forgotten. */
  lemma Forgotten(lv: Level, s: Scope, fr: Frame, names: seq<string>, lo: nat)
    requires Matches(lv, s, fr, names, lo) && lv.blocks != []
    ensures s.own.Bind? && Matches(lv.(blocks := lv.blocks[1..]), s.(own := s.own.rest), fr, names, lo)
  {
    OwnGrow(lv.blocks[1..], lv.store, lv.store, s.own.rest, fr, lo, lv.blocks[0][s.own.x].i, lv.next);
  }

  lemma Assigned(lv: Level, s: Scope, fr: Frame, names: seq<string>, lo: nat, x: string, v: Val, c: CVal)
    requires Matches(lv, s, fr, names, lo) && RelV(v, c) && InBlocks(lv.blocks, x).Some?
      && InBlocks(lv.blocks, x).value.Local?
    ensures var i := InBlocks(lv.blocks, x).value.i;
      i < |fr.locals| && Matches(lv, s.(own := Replace(s.own, x, Held(v))), fr.(locals := fr.locals[i := Some(c)]),
        names, lo)
  {
    BlocksLocal(lv.blocks, lv.store, s.own, fr, lo, lv.next, x);
    OwnSet(lv.blocks, lv.store, s.own, fr, lo, lv.next, x, v, c);
  }

  /** The captures of a new closure are the values of their names right now. */
  lemma {:induction false} CapturesLoaded(inner: seq<(string, Sym)>, lv: Level, s: Scope, fr: Frame, names: seq<string>,
          lo: nat)
    requires Matches(lv, s, fr, names, lo) && forall i :: 0 <= i < |inner| ==> Known(lv, inner[i].0) == Some(inner[i].1)
    ensures var vs := GetAll(fr, Syms(inner)); vs.Some? && Captures(Append(s.own, s.captured), vs.value, Names(inner))
    decreases |inner|
  {
    if inner != [] {
      assert Syms(inner)[1..] == Syms(inner[1..]) && Names(inner)[1..] == Names(inner[1..]);
      CapturesLoaded(inner[1..], lv, s, fr, names, lo);
      Loads(lv, s, fr, names, lo, inner[0].0);
      FindAppend(s.own, s.captured, inner[0].0);
      CapturesCons(Append(s.own, s.captured), Get(fr, inner[0].1).value, GetAll(fr, Syms(inner[1..])).value, inner[0].0,
        Names(inner[1..]));
      assert Names(inner) == [inner[0].0] + Names(inner[1..]);
    }
  }

  lemma CapturesCons(env: Env, c: CVal, cs: seq<CVal>, x: string, xs: seq<string>)
    requires RelB(Find(env, x), c) && Captures(env, cs, xs)
    ensures Captures(env, [c] + cs, [x] + xs)
  {
    forall i | 0 <= i < |[c] + cs| ensures RelB(Find(env, ([x] + xs)[i]), ([c] + cs)[i]) {
      if i > 0 { assert ([x] + xs)[i] == xs[i - 1] && ([c] + cs)[i] == cs[i - 1]; }
    }
  }

  // ---------- top-level variables ----------

  /** A global name resolves to its cell. */
  lemma {:induction false} TopLookup(blocks: seq<map<string, Sym>>, own: Env, x: string)
    requires TopRel(blocks, own)
    ensures match InBlocks(blocks, x)
      case None => Find(own, x) == None
      case Some(sym) => sym.Global? && Find(own, x) == Some(Cell(sym.i))
    decreases |blocks|
  {
    if blocks != [] { TopLookup(blocks[1..], own.rest, x); }
  }

  /** Tables that have grown give no name a global meaning it did not have. */
  lemma {:induction false} GlobalStable(st: seq<Level>, st': seq<Level>, x: string)
    requires AllGrow(st, st') && Resolve(st', x).sym.Some? && Resolve(st', x).sym.value.Global?
    ensures Resolve(st, x).sym == Resolve(st', x).sym
    decreases |st|
  {
    if st != [] {
      assert Grows(st[0], st'[0]);
      if Known(st[0], x).Some? {
        KnownKept(st[0], st'[0], x);
      } else if Known(st'[0], x).None? {
        assert AllGrow(st[1..], st'[1..]) by {
          forall k | 0 <= k < |st| - 1 ensures Grows(st[1..][k], st'[1..][k]) { assert Grows(st[k + 1], st'[k + 1]); }
        }
        GlobalStable(st[1..], st'[1..], x);
      }
    }
  }

  lemma SeesGrow(st: seq<Level>, st': seq<Level>, env: Env)
    requires AllGrow(st, st') && Sees(st, env)
    ensures Sees(st', env)
  {
    forall x | Resolve(st', x).sym.Some? && Resolve(st', x).sym.value.Global?
      ensures Find(env, x) == Some(Cell(Resolve(st', x).sym.value.i)) {
      GlobalStable(st, st', x);
    }
  }

  lemma TailGrows(st: seq<Level>, st': seq<Level>)
    requires AllGrow(st, st') && st != []
    ensures AllGrow(st[1..], st'[1..])
  {
    forall k | 0 <= k < |st| - 1 ensures Grows(st[1..][k], st'[1..][k]) { assert Grows(st[k + 1], st'[k + 1]); }
  }

  /** More captured names do not disturb the machine. */
  lemma AtGrow(st: seq<Level>, st': seq<Level>, s: Scope, fr: Frame, names: seq<string>, lo: nat)
    requires At(st, s, fr, names, lo) && AllGrow(st, st') && StackOk(st') && st'[0].next == st[0].next
    requires !s.top ==> Names(st'[0].free) <= names
    ensures At(st', s, fr, names, lo)
  {
    hide OwnRel, Captures, Resolve, CellsRel, TopRel, Sees;
    GrowHead(st, st');
    if !s.top {
      MatchesGrow(st[0], st'[0], s, fr, names, lo);
      TailGrows(st, st');
      SeesGrow(st[1..], st'[1..], s.captured);
    }
  }

  /** A name that resolves to a global one is bound to its cell. */
  lemma SeesCell(st: seq<Level>, s: Scope, fr: Frame, names: seq<string>, lo: nat, x: string)
    requires At(st, s, fr, names, lo) && Resolve(st, x).sym.Some? && Resolve(st, x).sym.value.Global?
      && (s.top ==> st[0].store == map[])
    ensures Visible(s, x) == Some(Cell(Resolve(st, x).sym.value.i))
    ensures Find(Append(s.own, s.captured), x) == Visible(s, x)
  {
    hide CellsRel, Captures;
    FindAppend(s.own, s.captured, x);
    if s.top {
      TopLookup(st[0].blocks, s.own, x);
    } else {
      OwnLookup(st[0].blocks, st[0].store, s.own, fr, lo, st[0].next, x);
      if Known(st[0], x).Some? { Loads(st[0], s, fr, names, lo, x); }
    }
  }

  /** A function literal sees the cells of all global names. */
  lemma SeesAll(st: seq<Level>, s: Scope, fr: Frame, names: seq<string>, lo: nat)
    requires At(st, s, fr, names, lo) && StackOk(st)
    ensures Sees(st, Append(s.own, s.captured))
  {
    hide CellsRel, Captures, OwnRel, TopRel;
    forall x | Resolve(st, x).sym.Some? && Resolve(st, x).sym.value.Global?
      ensures Find(Append(s.own, s.captured), x) == Some(Cell(Resolve(st, x).sym.value.i)) {
      SeesCell(st, s, fr, names, lo, x);
    }
  }

  /** A function at top level captures nothing. */
  lemma NothingCaptured(inner: Level, outer: Level)
    requires CapturesKnown(inner, outer) && OnlyGlobal(outer)
    ensures inner.free == []
  {
    if inner.free != [] {
      BlocksGlobal(outer.blocks, inner.free[0].0);
    }
  }

  lemma {:induction false} BlocksGlobal(blocks: seq<map<string, Sym>>, x: string)
    requires forall k, y :: 0 <= k < |blocks| && y in blocks[k] ==> blocks[k][y].Global?
    ensures InBlocks(blocks, x).Some? ==> InBlocks(blocks, x).value.Global?
    decreases |blocks|
  {
    if blocks != [] {
      forall k, y | 0 <= k < |blocks[1..]| && y in blocks[1..][k]
        ensures blocks[1..][k][y].Global?
      {
        assert blocks[1..][k] == blocks[k + 1];
      }
      BlocksGlobal(blocks[1..], x);
    }
  }
}
