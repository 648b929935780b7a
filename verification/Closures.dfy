/** Functions as values: what they mean in the source, how the symbol tables turn captured
    names into free variables (compiler/symbol_table.go, compiler/compiler.go), and what the
    VM does with the closures it builds (vm/vm.go). */
module Closures {
  import opened Language

  // ---------- the source ----------

  /** `Let` is a block with one declaration, `Set` an assignment and what follows it. A
      function literal without name has the empty name. */
  datatype Term =
    | Num(n: int)
    | Var(x: string)
    | Plus(l: Term, r: Term)
    | Let(x: string, e: Term, body: Term)
    | Set(x: string, e: Term, body: Term)
    | Fn(name: string, params: seq<string>, body: Term)
    | App(f: Term, args: Terms)

  datatype Terms = TNil | TCons(head: Term, tail: Terms)

  datatype Val = VNum(n: int) | VFn(name: string, params: seq<string>, body: Term, env: Env)

  /** A variable of a function holds its value; a top-level variable is a cell that all
      functions share. */
  datatype Binding = Held(v: Val) | Cell(i: nat)

  /** Bindings, innermost first. */
  datatype Env = Nothing | Bind(x: string, b: Binding, rest: Env)

  function Find(env: Env, x: string): Option<Binding>
  {
    match env case Nothing => None case Bind(y, b, rest) => if x == y then Some(b) else Find(rest, x)
  }

  function Replace(env: Env, x: string, b: Binding): Env
  {
    match env
    case Nothing => Nothing
    case Bind(y, c, rest) => if x == y then Bind(y, b, rest) else Bind(y, c, Replace(rest, x, b))
  }

  function Append(a: Env, b: Env): Env
  {
    match a case Nothing => b case Bind(x, v, rest) => Bind(x, v, Append(rest, b))
  }

  lemma {:induction false} FindAppend(a: Env, b: Env, x: string)
    ensures Find(Append(a, b), x) == if Find(a, x).Some? then Find(a, x) else Find(b, x)
  {
    if a.Bind? { FindAppend(a.rest, b, x); }
  }

  /** The bindings of the running code and those its closure was created with; whether it runs
      at top level; and the cells, of which `used` have been given to variables. */
  datatype Scope = Scope(own: Env, captured: Env, top: bool, cells: seq<Val>, used: nat)

  function Visible(s: Scope, x: string): Option<Binding>
  {
    if Find(s.own, x).Some? then Find(s.own, x) else Find(s.captured, x)
  }

  /** The value of a variable right now. */
  function Content(s: Scope, x: string): Option<Val>
  {
    match Visible(s, x)
    case None => None
    case Some(Held(v)) => Some(v)
    case Some(Cell(i)) => if i < |s.cells| then Some(s.cells[i]) else None
  }

  /** A new variable: at top level it gets a cell of its own. */
  function NewVar(s: Scope, x: string, v: Val): Option<Scope>
  {
    if !s.top then Some(s.(own := Bind(x, Held(v), s.own)))
    else if s.used < |s.cells|
      then Some(s.(own := Bind(x, Cell(s.used), s.own), cells := s.cells[s.used := v], used := s.used + 1))
    else None
  }

  /** An assignment: to a cell wherever it is, to a variable of a function only in that function. */
  function Rebind(s: Scope, x: string, v: Val): Option<Scope>
  {
    match Visible(s, x)
    case None => None
    case Some(Held(_)) => if Find(s.own, x).Some? then Some(s.(own := Replace(s.own, x, Held(v)))) else None
    case Some(Cell(i)) => if i < |s.cells| then Some(s.(cells := s.cells[i := v])) else None
  }

  datatype Result<T> = Gave(v: T, s: Scope) | Wrong | TooDeep

  /** A function literal captures the values its names have now, and the cells of top-level
      names; calling it sees these, its own name and its parameters. `fuel` bounds the depth of
      calls. */
  function Eval(t: Term, s: Scope, fuel: nat): Result<Val>
    decreases fuel, t, 1
  {
    match t
    case Num(n) => Gave(VNum(n), s)
    case Var(x) => if Content(s, x).Some? then Gave(Content(s, x).value, s) else Wrong
    case Plus(l, r) =>
      (match Eval(l, s, fuel)
       case Gave(a, s1) => AddVals(a, Eval(r, s1, fuel))
       case Wrong => Wrong
       case TooDeep => TooDeep)
    case Let(x, e, body) =>
      (match Eval(e, s, fuel)
       case Gave(v, s1) => if NewVar(s1, x, v).None? then Wrong
         else PopBinding(Eval(body, NewVar(s1, x, v).value, fuel))
       case Wrong => Wrong
       case TooDeep => TooDeep)
    case Set(x, e, body) =>
      (match Eval(e, s, fuel)
       case Gave(v, s1) => if Rebind(s1, x, v).None? then Wrong else Eval(body, Rebind(s1, x, v).value, fuel)
       case Wrong => Wrong
       case TooDeep => TooDeep)
    case Fn(name, params, body) => Gave(VFn(name, params, body, Append(s.own, s.captured)), s)
    case App(f, args) =>
      (match Eval(f, s, fuel)
       case Gave(c, s1) =>
         (match EvalArgs(args, s1, fuel)
          case Gave(vs, s2) =>
            if !c.VFn? || |vs| != |c.params| then Wrong
            else if fuel == 0 then TooDeep
            else Returned(Eval(c.body, Inside(c, vs, s2), fuel - 1), s2)
          case Wrong => Wrong
          case TooDeep => TooDeep)
       case Wrong => Wrong
       case TooDeep => TooDeep)
  }

  function EvalArgs(ts: Terms, s: Scope, fuel: nat): Result<seq<Val>>
    decreases fuel, ts, 0
  {
    match ts
    case TNil => Gave([], s)
    case TCons(t, rest) =>
      (match Eval(t, s, fuel)
       case Gave(v, s1) => Before(v, EvalArgs(rest, s1, fuel))
       case Wrong => Wrong
       case TooDeep => TooDeep)
  }

  function AddVals(a: Val, r: Result<Val>): Result<Val>
  {
    if !r.Gave? then r else if a.VNum? && r.v.VNum? then Gave(VNum(Wrap(a.n + r.v.n)), r.s) else Wrong
  }

  function PopBinding(r: Result<Val>): Result<Val>
  {
    if r.Gave? && r.s.own.Bind? then r.(s := r.s.(own := r.s.own.rest)) else r
  }

  /** Back in the caller: what the callee did to the cells remains. */
  function Returned(r: Result<Val>, s: Scope): Result<Val> { if r.Gave? then r.(s := s.(cells := r.s.cells)) else r }

  function Before(v: Val, r: Result<seq<Val>>): Result<seq<Val>> { if r.Gave? then r.(v := [v] + r.v) else r }

  /** The scope in which the body of a called function runs. */
  function Inside(c: Val, vs: seq<Val>, s: Scope): Scope
    requires c.VFn? && |vs| == |c.params|
  {
    Scope(Entered(c, vs), c.env, false, s.cells, s.used)
  }

  /** The bindings a function starts with: its name, then its parameters. */
  function Entered(c: Val, vs: seq<Val>): Env
    requires c.VFn? && |vs| == |c.params|
  {
    BindAll(c.params, vs, if c.name == "" then Nothing else Bind(c.name, Held(c), Nothing))
  }

  function BindAll(xs: seq<string>, vs: seq<Val>, env: Env): Env
    requires |xs| == |vs|
  {
    if xs == [] then env else BindAll(xs[1..], vs[1..], Bind(xs[0], Held(vs[0]), env))
  }

  // ---------- symbol tables ----------

  datatype Sym = Local(i: nat) | Free(i: nat) | Self | Global(i: nat)

  /** The tables of one function: those of its open blocks, innermost first; its own, with
      its name, parameters and the captured names; the captured names with the symbols they
      have in the enclosing function; and the number of slots. The last level of a stack of
      tables is that of the program, not of a function. */
  datatype Level = Level(blocks: seq<map<string, Sym>>, store: map<string, Sym>, free: seq<(string, Sym)>, next: nat)

  function InBlocks(blocks: seq<map<string, Sym>>, x: string): Option<Sym>
  {
    if blocks == [] then None else if x in blocks[0] then Some(blocks[0][x]) else InBlocks(blocks[1..], x)
  }

  function Known(lv: Level, x: string): Option<Sym>
  {
    if InBlocks(lv.blocks, x).Some? then InBlocks(lv.blocks, x) else if x in lv.store then Some(lv.store[x]) else None
  }

  datatype Resolved = Resolved(sym: Option<Sym>, st: seq<Level>)

  function DefineFree(lv: Level, x: string, original: Sym): Level
  {
    lv.(free := lv.free + [(x, original)], store := lv.store[x := Free(|lv.free|)])
  }

  /** A name found in an enclosing function becomes a free variable of this one; a global one
      stays what it is. */
  function Resolve(st: seq<Level>, x: string): (r: Resolved)
    ensures |r.st| == |st| && forall k :: 0 <= k < |st| ==> r.st[k].blocks == st[k].blocks && r.st[k].next == st[k].next
  {
    if st == [] then Resolved(None, st)
    else if Known(st[0], x).Some? then Resolved(Known(st[0], x), st)
    else
      var r := Resolve(st[1..], x);
      if r.sym.None? || r.sym.value.Global? then Resolved(r.sym, [st[0]] + r.st)
      else Resolved(Some(Free(|st[0].free|)), [DefineFree(st[0], x, r.sym.value)] + r.st)
  }

  // ---------- closure-converted code ----------

  /** A compiled function; `names` are the names of its captures, kept for reading only. */
  datatype FnCode = FnCode(code: Code, numParams: nat, numLocals: nat, names: seq<string>)

  datatype Code =
    | Constant(n: int)
    | Load(sym: Sym)
    | Add2(l: Code, r: Code)
    | StoreThen(sym: Sym, e: Code, body: Code)
    | MakeClosure(fn: FnCode, captures: seq<Sym>)
    | CallCode(f: Code, args: Codes)

  datatype Codes = CNil | CCons(head: Code, tail: Codes)

  datatype Compiled<T> = Compiled(code: T, st: seq<Level>) | Rejected

  function ParamStore(params: seq<string>, from: nat, store: map<string, Sym>): map<string, Sym>
  {
    if params == [] then store else ParamStore(params[1..], from + 1, store[params[0] := Local(from)])
  }

  function FnLevel(name: string, params: seq<string>): Level
  {
    Level([], ParamStore(params, 0, if name == "" then map[] else map[name := Self]), [], |params|)
  }

  /** The table of the program itself. */
  const GLOBAL: Level := Level([], map[], [], 0)

  /** isGlobalScope: outside all functions, also inside blocks. */
  predicate IsGlobalScope(st: seq<Level>) { |st| == 1 }

  function VarSym(st: seq<Level>): Sym
    requires st != []
  {
    if IsGlobalScope(st) then Global(st[0].next) else Local(st[0].next)
  }

  function PushBlock(st: seq<Level>, x: string): seq<Level>
    requires st != []
  {
    [st[0].(blocks := [map[x := VarSym(st)]] + st[0].blocks, next := st[0].next + 1)] + st[1..]
  }

  function PopBlock(st: seq<Level>): seq<Level>
    requires st != [] && st[0].blocks != []
  {
    [st[0].(blocks := st[0].blocks[1..])] + st[1..]
  }

  function Names(free: seq<(string, Sym)>): (r: seq<string>)
    ensures |r| == |free| && forall i :: 0 <= i < |free| ==> r[i] == free[i].0
  {
    seq(|free|, i requires 0 <= i < |free| => free[i].0)
  }

  function Syms(free: seq<(string, Sym)>): (r: seq<Sym>)
    ensures |r| == |free| && forall i :: 0 <= i < |free| ==> r[i] == free[i].1
  {
    seq(|free|, i requires 0 <= i < |free| => free[i].1)
  }

  /** Where an assignment stores: what is not global is taken for a local slot of that number,
      also a captured variable and the function itself. */
  function Target(sym: Sym): Sym
  {
    match sym case Global(_) => sym case Local(_) => sym case Free(i) => Local(i) case Self => Local(0)
  }

  /** Parameters are constants, also where they are captured. */
  predicate Parameter(st: seq<Level>, x: string)
  {
    st != [] && InBlocks(st[0].blocks, x).None?
    && if x in st[0].store && !st[0].store[x].Free? then st[0].store[x].Local? else Parameter(st[1..], x)
  }

  /** The assigned name is global or a variable the code declares itself. */
  predicate OwnOrGlobal(st: seq<Level>, x: string)
    requires st != []
  {
    InBlocks(st[0].blocks, x).Some? || (Resolve(st, x).sym.Some? && Resolve(st, x).sym.value.Global?)
  }

  /** The code of a term. */
  function Compile(t: Term, st: seq<Level>): (r: Compiled<Code>)
    requires st != []
    ensures r.Compiled? ==> |r.st| == |st| && forall k :: 0 <= k < |st| ==> |r.st[k].blocks| == |st[k].blocks|
    decreases t
  {
    match t
    case Num(n) => Compiled(Constant(n), st)
    case Var(x) =>
      var r := Resolve(st, x);
      if r.sym.None? then Rejected else Compiled(Load(r.sym.value), r.st)
    case Plus(l, r) =>
      var a := Compile(l, st);
      if a.Rejected? then Rejected else
      var b := Compile(r, a.st);
      if b.Rejected? then Rejected else Compiled(Add2(a.code, b.code), b.st)
    case Let(x, e, body) =>
      var a := Compile(e, st);
      if a.Rejected? then Rejected else
      var b := Compile(body, PushBlock(a.st, x));
      if b.Rejected? then Rejected else Compiled(StoreThen(VarSym(a.st), a.code, b.code), PopBlock(b.st))
    case Set(x, e, body) =>
      var a := Compile(e, st);
      if a.Rejected? then Rejected else
      var r := Resolve(a.st, x);
      if r.sym.None? || Parameter(a.st, x) then Rejected else
      var b := Compile(body, r.st);
      if b.Rejected? then Rejected else Compiled(StoreThen(Target(r.sym.value), a.code, b.code), b.st)
    case Fn(name, params, body) =>
      var b := Compile(body, [FnLevel(name, params)] + st);
      if b.Rejected? then Rejected
      else Compiled(MakeClosure(FnOf(params, b), Syms(b.st[0].free)), b.st[1..])
    case App(f, args) =>
      var a := Compile(f, st);
      if a.Rejected? then Rejected else
      var b := CompileArgs(args, a.st);
      if b.Rejected? then Rejected else Compiled(CallCode(a.code, b.code), b.st)
  }

  function CompileArgs(ts: Terms, st: seq<Level>): (r: Compiled<Codes>)
    requires st != []
    ensures r.Compiled? ==> |r.st| == |st| && forall k :: 0 <= k < |st| ==> |r.st[k].blocks| == |st[k].blocks|
    decreases ts
  {
    match ts
    case TNil => Compiled(CNil, st)
    case TCons(t, rest) =>
      var a := Compile(t, st);
      if a.Rejected? then Rejected else
      var b := CompileArgs(rest, a.st);
      if b.Rejected? then Rejected else Compiled(CCons(a.code, b.code), b.st)
  }

  function FnOf(params: seq<string>, b: Compiled<Code>): FnCode
    requires b.Compiled? && b.st != []
  {
    FnCode(b.code, |params|, b.st[0].next, Names(b.st[0].free))
  }

  // ---------- assignments that are no trouble ----------

  /** No captured variable is assigned to, nor a function's own name. */
  predicate Clean(t: Term, st: seq<Level>)
    requires st != []
    decreases t
  {
    match t
    case Num(_) => true
    case Var(_) => true
    case Plus(l, r) => Clean(l, st) && (Compile(l, st).Compiled? ==> Clean(r, Compile(l, st).st))
    case Let(x, e, body) => Clean(e, st) && (Compile(e, st).Compiled? ==> Clean(body, PushBlock(Compile(e, st).st, x)))
    case Set(x, e, body) =>
      Clean(e, st) && (Compile(e, st).Compiled? ==>
        OwnOrGlobal(Compile(e, st).st, x) && Clean(body, Resolve(Compile(e, st).st, x).st))
    case Fn(name, params, body) => Clean(body, [FnLevel(name, params)] + st)
    case App(f, args) => Clean(f, st) && (Compile(f, st).Compiled? ==> CleanArgs(args, Compile(f, st).st))
  }

  predicate CleanArgs(ts: Terms, st: seq<Level>)
    requires st != []
    decreases ts
  {
    ts.TCons? ==> Clean(ts.head, st) && (Compile(ts.head, st).Compiled? ==> CleanArgs(ts.tail, Compile(ts.head, st).st))
  }
}
