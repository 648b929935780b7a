/** The simulation of the source by converted code, and what it says about captured names and
    global ones. */
module LexicalScoping {
  import opened Language
  import opened Closures
  import opened Conversion

  ghost predicate Pre(t: Term, st: seq<Level>, s: Scope, fr: Frame, names: seq<string>, lo: nat)
  {
    && st != [] && StackOk(st) && Compile(t, st).Compiled? && Clean(t, st) && At(st, s, fr, names, lo)
    && (!s.top ==> Roomy(Compile(t, st).st[0], fr, names))
  }

  ghost predicate Post(t: Term, st: seq<Level>, s: Scope, fr: Frame, names: seq<string>, lo: nat, fuel: nat)
    requires st != [] && Compile(t, st).Compiled?
  {
    Agree(Eval(t, s, fuel), Exec(Compile(t, st).code, fr, fuel), Compile(t, st).st, fr, names, lo)
  }

  /** Running the code of a term gives what the term means. */
  lemma {:induction false} Simulates(t: Term, st: seq<Level>, s: Scope, fr: Frame, names: seq<string>, lo: nat,
          fuel: nat)
    requires Pre(t, st, s, fr, names, lo)
    ensures Post(t, st, s, fr, names, lo, fuel)
    decreases fuel, t, 1
  {
    hide RelV, At, StackOk, AllGrow, Resolve, Find, FreeNamed, Captures;
    match t
    case Num(_) => RelNum(t.n);
    case Var(x) => VarSim(t, st, s, fr, names, lo, fuel);
    case Plus(_, _) => PlusSim(t, st, s, fr, names, lo, fuel);
    case Let(_, _, _) => LetSim(t, st, s, fr, names, lo, fuel);
    case Set(_, _, _) => SetSim(t, st, s, fr, names, lo, fuel);
    case Fn(_, _, _) => FnSim(t, st, s, fr, names, lo, fuel);
    case App(_, _) => AppSim(t, st, s, fr, names, lo, fuel);
  }

  lemma RelNum(n: int)
    ensures RelV(VNum(n), CNum(n))
  {
  }

  // ---------- variables ----------

  /** What a name resolves to holds the value the name has now. */
  lemma Reads(st: seq<Level>, s: Scope, fr: Frame, names: seq<string>, lo: nat, x: string)
    requires StackOk(st) && At(st, s, fr, names, lo) && Resolve(st, x).sym.Some?
    requires !s.top ==> Names(Resolve(st, x).st[0].free) <= names
    ensures var sym, r := Resolve(st, x).sym.value, Resolve(st, x).st;
      && At(r, s, fr, names, lo) && (Get(fr, sym).Some? <==> Content(s, x).Some?)
      && (Content(s, x).Some? ==> RelV(Content(s, x).value, Get(fr, sym).value))
      && (sym.Global? ==> Visible(s, x) == Some(Cell(sym.i))) && (Get(fr, sym).None? ==> sym.Global?)
  {
    hide RelV, OwnRel, AllGrow, StackOk, Captures, TopRel, Sees, FreeNamed;
    var r := Resolve(st, x);
    ResolveGrows(st, x);
    AtGrow(st, r.st, s, fr, names, lo);
    if r.sym.value.Global? {
      TopStore(st, s);
      SeesCell(st, s, fr, names, lo, x);
    } else {
      NotTop(st, s, fr, names, lo, x);
      Loads(r.st[0], s, fr, names, lo, x);
    }
  }

  lemma TopStore(st: seq<Level>, s: Scope)
    requires StackOk(st) && st != [] && s.top == IsGlobalScope(st)
    ensures s.top ==> st[0].store == map[]
  {
  }

  /** At top level every name is global. */
  lemma NotTop(st: seq<Level>, s: Scope, fr: Frame, names: seq<string>, lo: nat, x: string)
    requires StackOk(st) && At(st, s, fr, names, lo) && Resolve(st, x).sym.Some? && !Resolve(st, x).sym.value.Global?
    ensures !s.top
  {
    hide OwnRel, Captures, Sees, CellsRel;
    if s.top { TopLookup(st[0].blocks, s.own, x); }
  }

  lemma VarSim(t: Term, st: seq<Level>, s: Scope, fr: Frame, names: seq<string>, lo: nat, fuel: nat)
    requires t.Var? && Pre(t, st, s, fr, names, lo)
    ensures Post(t, st, s, fr, names, lo, fuel)
  {
    hide RelV, At, AllGrow, StackOk, Captures, Content, Get, Names;
    Reads(st, s, fr, names, lo, t.x);
  }

  /** The first part of a compound term. */
  lemma FirstPart(e: Term, t: Term, st: seq<Level>, st': seq<Level>, s: Scope, fr: Frame, names: seq<string>, lo: nat)
    requires Pre(t, st, s, fr, names, lo) && Compile(e, st).Compiled? && Clean(e, st) && st' != []
    requires AllGrow(Compile(e, st).st, st') && StackOk(st') && (!s.top ==> Roomy(st'[0], fr, names))
    ensures Pre(e, st, s, fr, names, lo)
  {
    hide At, Roomy;
    GrowHead(Compile(e, st).st, st');
    if !s.top { RoomyBefore(Compile(e, st).st[0], st'[0], fr, names); }
  }

  /** Later parts run in a frame as large, with the same captures to come. */
  lemma Roomier(lv: Level, fr: Frame, fr1: Frame, names: seq<string>)
    requires Roomy(lv, fr, names) && |fr1.locals| == |fr.locals|
    ensures Roomy(lv, fr1, names)
  {
  }

  lemma SameTop(st: seq<Level>, s: Scope, fr: Frame, names: seq<string>, lo: nat)
    requires At(st, s, fr, names, lo)
    ensures s.top == (|st| == 1)
  {
  }

  lemma {:induction false} PlusSim(t: Term, st: seq<Level>, s: Scope, fr: Frame, names: seq<string>, lo: nat, fuel: nat)
    requires t.Plus? && Pre(t, st, s, fr, names, lo)
    ensures Post(t, st, s, fr, names, lo, fuel)
    decreases fuel, t, 0
  {
    hide RelV, At, StackOk, AllGrow, FreeNamed, Captures, Roomy;
    var a := Compile(t.l, st);
    CompileGrows(t.l, st);
    CompileGrows(t.r, a.st);
    FirstPart(t.l, t, st, Compile(t, st).st, s, fr, names, lo);
    Simulates(t.l, st, s, fr, names, lo, fuel);
    var x, y := Eval(t.l, s, fuel), Exec(a.code, fr, fuel);
    if x.Gave? {
      SameTop(st, s, fr, names, lo);
      SameTop(a.st, x.s, y.fr, names, lo);
      if !s.top { Roomier(Compile(t, st).st[0], fr, y.fr, names); }
      Simulates(t.r, a.st, x.s, y.fr, names, lo, fuel);
      Numbers(x.v, y.v);
      var x', y' := Eval(t.r, x.s, fuel), Exec(Compile(t.r, a.st).code, y.fr, fuel);
      if x'.Gave? { Numbers(x'.v, y'.v); }
      if x'.Gave? && x.v.VNum? && x'.v.VNum? { RelNum(Wrap(x.v.n + x'.v.n)); }
    }
  }

  lemma Numbers(v: Val, c: CVal)
    requires RelV(v, c)
    ensures v.VNum? <==> c.CNum?
    ensures v.VNum? ==> v.n == c.n
  {
  }

  // ---------- declarations and assignments ----------

  /** A declaration, in a function or at top level. */
  lemma Declares(st: seq<Level>, s: Scope, fr: Frame, names: seq<string>, lo: nat, x: string, v: Val, c: CVal)
    requires At(st, s, fr, names, lo) && RelV(v, c) && (!s.top ==> st[0].next < |fr.locals|)
    ensures var d, p := NewVar(s, x, v), Put(fr, VarSym(st), c);
      && (d.Some? <==> p.Some?) && (p.None? ==> VarSym(st).Global?)
      && (d.Some? ==> At(PushBlock(st, x), d.value, p.value, names, lo) && |p.value.locals| == |fr.locals|)
  {
    hide RelV, OwnRel, Captures, Resolve, Sees;
    if s.top {
      assert ([map[x := VarSym(st)]] + st[0].blocks)[1..] == st[0].blocks;
    } else {
      Declared(st[0], s, fr, names, lo, x, v, c);
      assert PushBlock(st, x)[1..] == st[1..];
    }
  }

  /** The end of the block. */
  lemma Pops(st: seq<Level>, s: Scope, fr: Frame, names: seq<string>, lo: nat)
    requires At(st, s, fr, names, lo) && st[0].blocks != []
    ensures s.own.Bind? && At(PopBlock(st), s.(own := s.own.rest), fr, names, lo)
  {
    hide RelV, OwnRel, Captures, Resolve, CellsRel, Sees;
    assert PopBlock(st)[1..] == st[1..];
    if !s.top { Forgotten(st[0], s, fr, names, lo); }
  }

  lemma {:induction false} LetSim(t: Term, st: seq<Level>, s: Scope, fr: Frame, names: seq<string>, lo: nat, fuel: nat)
    requires t.Let? && Pre(t, st, s, fr, names, lo)
    ensures Post(t, st, s, fr, names, lo, fuel)
    decreases fuel, t, 0
  {
    hide RelV, At, StackOk, AllGrow, FreeNamed, Captures, NewVar, Put;
    var a := Compile(t.e, st);
    var p := PushBlock(a.st, t.x);
    var b := Compile(t.body, p);
    CompileGrows(t.e, st);
    PushOk(a.st, t.x);
    CompileGrows(t.body, p);
    PopOk(a.st, t.x, b.st);
    FirstPart(t.e, t, st, Compile(t, st).st, s, fr, names, lo);
    Simulates(t.e, st, s, fr, names, lo, fuel);
    var x, y := Eval(t.e, s, fuel), Exec(a.code, fr, fuel);
    if x.Gave? {
      GrowHead(p, b.st);
      SameTop(st, s, fr, names, lo);
      SameTop(a.st, x.s, y.fr, names, lo);
      Declares(a.st, x.s, y.fr, names, lo, t.x, x.v, y.v);
      var d, q := NewVar(x.s, t.x, x.v), Put(y.fr, VarSym(a.st), y.v);
      if d.Some? {
        SameTop(p, d.value, q.value, names, lo);
        Simulates(t.body, p, d.value, q.value, names, lo, fuel);
        var x', y' := Eval(t.body, d.value, fuel), Exec(b.code, q.value, fuel);
        if x'.Gave? { Pops(b.st, x'.s, y'.fr, names, lo); }
      }
    }
  }

  /** An assignment, to a variable of the function or to a cell. */
  lemma Assigns(st: seq<Level>, s: Scope, fr: Frame, names: seq<string>, lo: nat, x: string, v: Val, c: CVal)
    requires StackOk(st) && At(st, s, fr, names, lo) && RelV(v, c) && Resolve(st, x).sym.Some?
    requires OwnOrGlobal(st, x)
    ensures var d, p := Rebind(s, x, v), Put(fr, Target(Resolve(st, x).sym.value), c);
      && (d.Some? <==> p.Some?) && (p.None? ==> Target(Resolve(st, x).sym.value).Global?)
      && (d.Some? ==> At(st, d.value, p.value, names, lo) && |p.value.locals| == |fr.locals|)
  {
    hide RelV, OwnRel, Captures, TopRel, Sees, StackOk;
    if Resolve(st, x).sym.value.Global? {
      TopStore(st, s);
      SeesCell(st, s, fr, names, lo, x);
    } else {
      NotTop(st, s, fr, names, lo, x);
      AssignsOwn(st, s, fr, names, lo, x, v, c);
    }
  }

  lemma AssignsOwn(st: seq<Level>, s: Scope, fr: Frame, names: seq<string>, lo: nat, x: string, v: Val, c: CVal)
    requires At(st, s, fr, names, lo) && RelV(v, c) && !s.top && InBlocks(st[0].blocks, x).Some?
    ensures var d, p := Rebind(s, x, v), Put(fr, Target(Resolve(st, x).sym.value), c);
      d.Some? && p.Some? && At(st, d.value, p.value, names, lo) && |p.value.locals| == |fr.locals|
  {
    hide RelV, OwnRel, Captures, TopRel, Sees, CellsRel;
    var lv := st[0];
    BlocksLocal(lv.blocks, lv.store, s.own, fr, lo, lv.next, x);
    OwnLookup(lv.blocks, lv.store, s.own, fr, lo, lv.next, x);
    Assigned(lv, s, fr, names, lo, x, v, c);
  }

  /** Resolving the target of an assignment leaves the tables as they are. */
  lemma {:induction false} ResolvedSame(st: seq<Level>, x: string)
    requires st != [] && Resolve(st, x).sym.Some? && (Resolve(st, x).sym.value.Global? || Known(st[0], x).Some?)
    ensures Resolve(st, x).st == st
    decreases |st|
  {
    if Known(st[0], x).None? {
      ResolvedSame(st[1..], x);
      assert [st[0]] + st[1..] == st;
    }
  }

  lemma {:induction false} SetSim(t: Term, st: seq<Level>, s: Scope, fr: Frame, names: seq<string>, lo: nat, fuel: nat)
    requires t.Set? && Pre(t, st, s, fr, names, lo)
    ensures Post(t, st, s, fr, names, lo, fuel)
    decreases fuel, t, 0
  {
    hide RelV, At, StackOk, AllGrow, FreeNamed, Captures, Rebind, Put, Roomy;
    var a := Compile(t.e, st);
    CompileGrows(t.e, st);
    ResolvedSame(a.st, t.x);
    CompileGrows(t.body, a.st);
    FirstPart(t.e, t, st, Compile(t, st).st, s, fr, names, lo);
    Simulates(t.e, st, s, fr, names, lo, fuel);
    var x, y := Eval(t.e, s, fuel), Exec(a.code, fr, fuel);
    if x.Gave? {
      SameTop(st, s, fr, names, lo);
      Assigns(a.st, x.s, y.fr, names, lo, t.x, x.v, y.v);
      var d, q := Rebind(x.s, t.x, x.v), Put(y.fr, Target(Resolve(a.st, t.x).sym.value), y.v);
      if d.Some? {
        SameTop(a.st, d.value, q.value, names, lo);
        if !s.top { Roomier(Compile(t, st).st[0], fr, q.value, names); }
        Simulates(t.body, a.st, d.value, q.value, names, lo, fuel);
      }
    }
  }

  // ---------- functions ----------

  /** The captures of a new closure, in a function or at top level. */
  lemma CapturesHere(inner: Level, st: seq<Level>, s: Scope, fr: Frame, names: seq<string>, lo: nat)
    requires StackOk(st) && At(st, s, fr, names, lo) && CapturesKnown(inner, st[0])
    ensures var vs := GetAll(fr, Syms(inner.free));
      vs.Some? && Captures(Append(s.own, s.captured), vs.value, Names(inner.free))
  {
    hide RelV, OwnRel, Captures, TopRel, Sees, CellsRel, Resolve;
    if s.top {
      NothingCaptured(inner, st[0]);
      NoCaptures(Append(s.own, s.captured), fr);
    } else {
      CapturesLoaded(inner.free, st[0], s, fr, names, lo);
    }
  }

  lemma NoCaptures(env: Env, fr: Frame)
    ensures var vs := GetAll(fr, Syms([])); vs.Some? && Captures(env, vs.value, Names([]))
  {
  }

  /** A function literal: the closure holds the present value of every name captured, and is
      made where the global names have their cells. */
  lemma FnSim(t: Term, st: seq<Level>, s: Scope, fr: Frame, names: seq<string>, lo: nat, fuel: nat)
    requires t.Fn? && Pre(t, st, s, fr, names, lo)
    ensures Post(t, st, s, fr, names, lo, fuel)
  {
    hide At, StackOk, AllGrow, FreeNamed, Known, GetAll, Resolve, Sees, Append;
    var lv := FnLevel(t.name, t.params);
    var b := Compile(t.body, [lv] + st);
    LevelNamed(t.name, t.params);
    EnterOk(st, lv);
    CompileGrows(t.body, [lv] + st);
    LeaveOk(st, lv, b.st);
    SeesAll(st, s, fr, names, lo);
    AtGrow(st, b.st[1..], s, fr, names, lo);
    CapturesHere(b.st[0], b.st[1..], s, fr, names, lo);
    assert Origin(st, t.name, t.params, t.body, FnOf(t.params, b));
    assert MadeFrom(t.name, t.params, t.body, Append(s.own, s.captured), FnOf(t.params, b));
  }

  lemma {:induction false} AppSim(t: Term, st: seq<Level>, s: Scope, fr: Frame, names: seq<string>, lo: nat, fuel: nat)
    requires t.App? && Pre(t, st, s, fr, names, lo)
    ensures Post(t, st, s, fr, names, lo, fuel)
    decreases fuel, t, 0
  {
    hide RelV, At, StackOk, AllGrow, FreeNamed, Captures, CellsRel, Called, Inside, Roomy;
    var a := Compile(t.f, st);
    CompileGrows(t.f, st);
    ArgsGrow(t.args, a.st);
    FirstPart(t.f, t, st, Compile(t, st).st, s, fr, names, lo);
    Simulates(t.f, st, s, fr, names, lo, fuel);
    var x, y := Eval(t.f, s, fuel), Exec(a.code, fr, fuel);
    if x.Gave? {
      SameTop(st, s, fr, names, lo);
      SameTop(a.st, x.s, y.fr, names, lo);
      if !s.top { Roomier(Compile(t, st).st[0], fr, y.fr, names); }
      ArgsSim(t.args, a.st, x.s, y.fr, names, lo, fuel);
      var vs, cs := EvalArgs(t.args, x.s, fuel), ExecArgs(CompileArgs(t.args, a.st).code, y.fr, fuel);
      if vs.Gave? {
        Arity(x.v, y.v);
        AtCells(Compile(t, st).st, vs.s, cs.fr, names, lo);
        if x.v.VFn? && |vs.v| == |x.v.params| && fuel > 0 {
          CallSim(x.v, y.v, vs.v, cs.v, vs.s, cs.fr.globals, fuel - 1);
          var r, q := Eval(x.v.body, Inside(x.v, vs.v, vs.s), fuel - 1),
            Exec(y.v.fn.code, Called(y.v, cs.v, cs.fr.globals), fuel - 1);
          if r.Gave? { CellsSet(Compile(t, st).st, vs.s, cs.fr, names, lo, r.s.cells, q.fr.globals); }
        }
      }
    }
  }

  lemma AtCells(st: seq<Level>, s: Scope, fr: Frame, names: seq<string>, lo: nat)
    requires At(st, s, fr, names, lo)
    ensures CellsRel(s.cells, fr.globals)
  {
  }

  /** What a call did to the cells. */
  lemma CellsSet(st: seq<Level>, s: Scope, fr: Frame, names: seq<string>, lo: nat, cells: seq<Val>, globals: seq<CVal>)
    requires At(st, s, fr, names, lo) && CellsRel(cells, globals)
    ensures At(st, s.(cells := cells), fr.(globals := globals), names, lo)
  {
    hide OwnRel, Captures, CellsRel, TopRel, Sees;
  }

  lemma Arity(v: Val, c: CVal)
    requires RelV(v, c)
    ensures v.VFn? <==> c.CClos?
    ensures v.VFn? ==> c.fn.numParams == |v.params|
  {
  }

  lemma {:induction false} ArgsSim(ts: Terms, st: seq<Level>, s: Scope, fr: Frame, names: seq<string>, lo: nat,
          fuel: nat)
    requires st != [] && StackOk(st) && CompileArgs(ts, st).Compiled? && CleanArgs(ts, st) && At(st, s, fr, names, lo)
    requires !s.top ==> Roomy(CompileArgs(ts, st).st[0], fr, names)
    ensures ArgsAgree(EvalArgs(ts, s, fuel), ExecArgs(CompileArgs(ts, st).code, fr, fuel), CompileArgs(ts, st).st, fr,
      names, lo)
    decreases fuel, ts, 2
  {
    hide RelV, At, StackOk, AllGrow, FreeNamed, Captures, Roomy;
    if ts.TCons? {
      var a := Compile(ts.head, st);
      var all := CompileArgs(ts, st).st;
      CompileGrows(ts.head, st);
      ArgsGrow(ts.tail, a.st);
      GrowHead(a.st, all);
      if !s.top { RoomyBefore(a.st[0], all[0], fr, names); }
      Simulates(ts.head, st, s, fr, names, lo, fuel);
      var x, y := Eval(ts.head, s, fuel), Exec(a.code, fr, fuel);
      if x.Gave? {
        SameTop(st, s, fr, names, lo);
        SameTop(a.st, x.s, y.fr, names, lo);
        if !s.top { Roomier(all[0], fr, y.fr, names); }
        ArgsSim(ts.tail, a.st, x.s, y.fr, names, lo, fuel);
      }
    }
  }

  // ---------- calls ----------

  /** Parameters in their slots, the function's own name as the running closure. */
  lemma {:induction false} ParamsRel(xs: seq<string>, vs: seq<Val>, cs: seq<CVal>, from: nat, store: map<string, Sym>,
          env: Env, locals: seq<Option<CVal>>, self: Option<CVal>, lo: nat)
    requires AllRel(vs, cs) && |xs| == |vs| && from + |xs| == lo && lo <= |locals| && locals[from..lo] == Filled(cs)
    requires BaseRel(store, env, locals, self, lo) && forall x :: x in store ==> !store[x].Free?
    ensures BaseRel(ParamStore(xs, from, store), BindAll(xs, vs, env), locals, self, lo)
    decreases |xs|
  {
    if xs != [] {
      assert locals[from] == Filled(cs)[0] && locals[from + 1..lo] == Filled(cs[1..]);
      var store', env' := store[xs[0] := Local(from)], Bind(xs[0], Held(vs[0]), env);
      forall x ensures Find(env', x).Some? <==> x in store' && !store'[x].Free? { }
      ParamsRel(xs[1..], vs[1..], cs[1..], from + 1, store', env', locals, self, lo);
    }
  }

  lemma EnteredMatches(v: Val, k: CVal, vs: seq<Val>, cs: seq<CVal>, s: Scope, globals: seq<CVal>)
    requires RelV(v, k) && v.VFn? && k.CClos? && AllRel(vs, cs)
      && |vs| == |v.params| == k.fn.numParams <= k.fn.numLocals
    ensures Matches(FnLevel(v.name, v.params), Inside(v, vs, s), Called(k, cs, globals), k.fn.names, |v.params|)
  {
    var fr, n := Called(k, cs, globals), |v.params|;
    var store: map<string, Sym> := if v.name == "" then map[] else map[v.name := Self];
    var env := if v.name == "" then Nothing else Bind(v.name, Held(v), Nothing);
    assert v.name != "" ==> RelB(Find(env, v.name), k);
    assert BaseRel(store, env, fr.locals, Some(k), n);
    assert fr.locals[0..n] == Filled(cs);
    ParamsRel(v.params, vs, cs, 0, store, env, fr.locals, Some(k), n);
    LevelNamed(v.name, v.params);
  }

  /** Calling a closure gives what calling the function value gives, and does the same to the
      cells. */
  lemma {:induction false} CallSim(v: Val, k: CVal, vs: seq<Val>, cs: seq<CVal>, s: Scope, globals: seq<CVal>,
          fuel: nat)
    requires RelV(v, k) && v.VFn? && k.CClos? && AllRel(vs, cs) && |vs| == |v.params| == k.fn.numParams
      && CellsRel(s.cells, globals)
    ensures var r, q := Eval(v.body, Inside(v, vs, s), fuel), Exec(k.fn.code, Called(k, cs, globals), fuel);
      match r
      case Gave(w, s') => q.Left? && RelV(w, q.v) && CellsRel(s'.cells, q.fr.globals)
      case Wrong => q.Broke?
      case TooDeep => q.RanTooDeep?
    decreases fuel, v.body, 2
  {
    hide OwnRel, Captures, CellsRel, Resolve;
    assert MadeFrom(v.name, v.params, v.body, v.env, k.fn);
    var st :| Origin(st, v.name, v.params, v.body, k.fn) && Sees(st, v.env);
    hide Sees;
    var lv := FnLevel(v.name, v.params);
    var b := Compile(v.body, [lv] + st);
    LevelNamed(v.name, v.params);
    EnterOk(st, lv);
    CompileGrows(v.body, [lv] + st);
    GrowHead([lv] + st, b.st);
    EnteredMatches(v, k, vs, cs, s, globals);
    assert ([lv] + st)[1..] == st;
    Simulates(v.body, [lv] + st, Inside(v, vs, s), Called(k, cs, globals), k.fn.names, |v.params|, fuel);
  }

  // ---------- what it says ----------

  /** A closure holds, for each name it captures, the value the name has when the closure is
      created, and captures no global name; a captured name of the enclosing function itself is
      the enclosing closure. That is what its body reads, whenever it is called, with whatever
      globals, and whatever was assigned since. */
  lemma CapturedAtCreation(t: Term, st: seq<Level>, s: Scope, fr: Frame, names: seq<string>, lo: nat, fuel: nat,
          cs: seq<CVal>, globals: seq<CVal>, i: nat)
    requires t.Fn? && Pre(t, st, s, fr, names, lo) && i < |Compile(t, st).code.captures|
    ensures var c := Compile(t, st).code; var k := Exec(c, fr, fuel);
      && k.Left? && k.v.CClos? && |k.v.free| == |c.captures| == |c.fn.names| && !c.captures[i].Global?
      && RelB(Visible(s, c.fn.names[i]), k.v.free[i])
      && Get(Called(k.v, cs, globals), Free(i)) == Some(k.v.free[i])
      && (c.captures[i] == Self ==> Some(k.v.free[i]) == fr.self)
  {
    FnSim(t, st, s, fr, names, lo, fuel);
    CapturesLocal(t, st);
    var c := Compile(t, st).code;
    FindAppend(s.own, s.captured, c.fn.names[i]);
    Loaded(fr, c.captures, i);
  }

  lemma CapturesLocal(t: Term, st: seq<Level>)
    requires t.Fn? && st != [] && StackOk(st) && Compile(t, st).Compiled?
    ensures forall i :: 0 <= i < |Compile(t, st).code.captures| ==> !Compile(t, st).code.captures[i].Global?
  {
    var lv := FnLevel(t.name, t.params);
    LevelNamed(t.name, t.params);
    EnterOk(st, lv);
    CompileGrows(t.body, [lv] + st);
    LeaveOk(st, lv, Compile(t.body, [lv] + st).st);
  }

  lemma {:induction false} Loaded(fr: Frame, syms: seq<Sym>, i: nat)
    requires GetAll(fr, syms).Some? && i < |syms|
    ensures |GetAll(fr, syms).value| == |syms| && Some(GetAll(fr, syms).value[i]) == Get(fr, syms[i])
    decreases |syms|
  {
    if i > 0 { Loaded(fr, syms[1..], i - 1); }
    else if |syms| > 1 { Loaded(fr, syms[1..], 0); }
  }

  /** A global name, in however many functions: it is not captured, resolving it changes no
      table, and the code reads the global itself, so at every call the value it has then. */
  lemma GlobalsAreLive(levels: seq<Level>, top: Level, x: string, fr: Frame, fuel: nat)
    requires Known(top, x).Some? && Known(top, x).value.Global?
      && forall k :: 0 <= k < |levels| ==> Known(levels[k], x).None?
    ensures var c := Compile(Var(x), levels + [top]); var i := Known(top, x).value.i;
      && c == Compiled(Load(Global(i)), levels + [top])
      && Exec(c.code, fr, fuel) == if i < |fr.globals| then Left(fr.globals[i], fr) else Broke
  {
    GlobalResolved(levels, top, x);
  }

  lemma {:induction false} GlobalResolved(levels: seq<Level>, top: Level, x: string)
    requires Known(top, x).Some? && Known(top, x).value.Global?
      && forall k :: 0 <= k < |levels| ==> Known(levels[k], x).None?
    ensures Resolve(levels + [top], x) == Resolved(Known(top, x), levels + [top])
    decreases |levels|
  {
    if levels == [] {
      assert levels + [top] == [top];
    } else {
      assert (levels + [top])[1..] == levels[1..] + [top];
      GlobalResolved(levels[1..], top, x);
      assert [levels[0]] + (levels[1..] + [top]) == levels + [top];
    }
  }

  /** Before a program runs: `n` globals, all empty. */
  function Initially(n: nat): Scope { Scope(Nothing, Nothing, true, seq(n, _ => VNum(0)), 0) }

  function Booted(n: nat): Frame { Frame([], [], None, seq(n, _ => CNum(0))) }

  /** Whole programs, with however many globals: same numbers, same errors, same depth of
      calls. */
  lemma ConversionCorrect(t: Term, n: nat, fuel: nat)
    requires Compile(t, [GLOBAL]).Compiled? && Clean(t, [GLOBAL])
    ensures var r, q := Eval(t, Initially(n), fuel), Exec(Compile(t, [GLOBAL]).code, Booted(n), fuel);
      && (r.Gave? <==> q.Left?) && (r.Wrong? <==> q.Broke?) && (r.TooDeep? <==> q.RanTooDeep?)
      && (r.Gave? ==>
        RelV(r.v, q.v) && CellsRel(r.s.cells, q.fr.globals) && (forall m :: r.v == VNum(m) <==> q.v == CNum(m)))
  {
    assert StackOk([GLOBAL]);
    var s, fr := Initially(n), Booted(n);
    assert TopRel(GLOBAL.blocks, s.own);
    assert CellsRel(s.cells, fr.globals);
    Simulates(t, [GLOBAL], s, fr, [], 0, fuel);
  }

  // ---------- mut x = a; const f = func() { x }; x = b; f() ----------

  function Reassigned(x: string, f: string, a: int, b: int): Term
  {
    Let(x, Num(a), Let(f, Fn("", [], Var(x)), Set(x, Num(b), App(Var(f), TNil))))
  }

  /** It compiles, at top level and in a function. */
  lemma ReassignedCompiles(x: string, f: string, a: int, b: int, st: seq<Level>)
    requires x != f && st != []
    ensures Compile(Reassigned(x, f, a, b), st).Compiled? && Clean(Reassigned(x, f, a, b), st)
  {
    var p := PushBlock(st, x);
    assert InBlocks(p[0].blocks, x) == Some(VarSym(st));
    assert Known(FnLevel("", []), x) == None;
    var inner := [FnLevel("", [])] + p;
    assert inner[1..] == p;
    assert Resolve(p, x) == Resolved(Some(VarSym(st)), p);
    assert Resolve(inner, x).sym.Some? && Resolve(inner, x).st[1..] == p;
    assert Compile(Var(x), inner) == Compiled(Load(Resolve(inner, x).sym.value), Resolve(inner, x).st);
    var c := Compile(Fn("", [], Var(x)), p);
    assert c.Compiled? && c.st == p;
    var q := PushBlock(p, f);
    assert q[0].blocks[0] == map[f := VarSym(p)] && q[0].blocks[1..] == p[0].blocks;
    assert InBlocks(q[0].blocks, x) == Some(VarSym(st)) && InBlocks(q[0].blocks, f) == Some(VarSym(p));
    assert Resolve(q, x) == Resolved(Some(VarSym(st)), q) && Resolve(q, f) == Resolved(Some(VarSym(p)), q);
    assert Compile(App(Var(f), TNil), q).Compiled?;
    assert Compile(Num(b), q) == Compiled(Constant(b), q);
    assert Compile(Set(x, Num(b), App(Var(f), TNil)), q).Compiled?;
    assert Compile(Let(f, Fn("", [], Var(x)), Set(x, Num(b), App(Var(f), TNil))), p).Compiled?;
    assert Compile(Num(a), st) == Compiled(Constant(a), st);
    assert Compile(Var(f), q).Compiled? && CleanArgs(TNil, Compile(Var(f), q).st) && Clean(App(Var(f), TNil), q);
    assert OwnOrGlobal(q, x) && Clean(Num(b), q) && Clean(Set(x, Num(b), App(Var(f), TNil)), q);
    assert Clean(Var(x), inner) && Clean(Fn("", [], Var(x)), p);
    assert Clean(Let(f, Fn("", [], Var(x)), Set(x, Num(b), App(Var(f), TNil))), p);
  }

  /** At top level the function sees the new value: names are bound to cells. */
  lemma NewValueMeant(x: string, f: string, a: int, b: int, n: nat, fuel: nat)
    requires x != f && n >= 2 && fuel > 0
    ensures var r := Eval(Reassigned(x, f, a, b), Initially(n), fuel); r.Gave? && r.v == VNum(b)
  {
    var s0 := Initially(n);
    var s1 := NewVar(s0, x, VNum(a)).value;
    assert s1.own == Bind(x, Cell(0), Nothing);
    var g := VFn("", [], Var(x), Append(s1.own, Nothing));
    assert Append(Nothing, Nothing) == Nothing && g.env == Bind(x, Cell(0), Nothing);
    var s2 := NewVar(s1, f, g).value;
    assert s2.own == Bind(f, Cell(1), Bind(x, Cell(0), Nothing));
    assert Find(s1.own, x) == Some(Cell(0)) && Find(s2.own, x) == Some(Cell(0)) && Find(s2.own, f) == Some(Cell(1));
    var s3 := Rebind(s2, x, VNum(b)).value;
    assert s3 == s2.(cells := s2.cells[0 := VNum(b)]);
    assert Eval(Var(f), s3, fuel) == Gave(g, s3);
    var s4 := Inside(g, [], s3);
    assert Find(Nothing, x) == None && Find(g.env, x) == Some(Cell(0)) && s4.own == Nothing;
    assert Eval(Var(x), s4, fuel - 1) == Gave(VNum(b), s4);
    assert Eval(App(Var(f), TNil), s3, fuel) == Gave(VNum(b), s3.(cells := s4.cells));
    assert Eval(Num(b), s2, fuel) == Gave(VNum(b), s2);
    assert Eval(Set(x, Num(b), App(Var(f), TNil)), s2, fuel) == Gave(VNum(b), s3.(cells := s4.cells));
    assert Eval(Fn("", [], Var(x)), s1, fuel) == Gave(g, s1);
    var rest := Eval(Let(f, Fn("", [], Var(x)), Set(x, Num(b), App(Var(f), TNil))), s1, fuel);
    assert rest.Gave? && rest.v == VNum(b);
    assert Eval(Num(a), s0, fuel) == Gave(VNum(a), s0);
  }

  lemma NewValueSeen(x: string, f: string, a: int, b: int, n: nat, fuel: nat)
    requires x != f && n >= 2 && fuel > 0
    ensures var c := Compile(Reassigned(x, f, a, b), [GLOBAL]);
      c.Compiled? && Exec(c.code, Booted(n), fuel).Left? && Exec(c.code, Booted(n), fuel).v == CNum(b)
  {
    ReassignedCompiles(x, f, a, b, [GLOBAL]);
    NewValueMeant(x, f, a, b, n, fuel);
    ConversionCorrect(Reassigned(x, f, a, b), n, fuel);
  }

  /** In a function it sees the old one. */
  lemma OldValueMeant(x: string, f: string, a: int, b: int, s0: Scope, fuel: nat)
    requires x != f && fuel > 0 && !s0.top
    ensures var r := Eval(Reassigned(x, f, a, b), s0, fuel); r.Gave? && r.v == VNum(a)
  {
    var s1 := NewVar(s0, x, VNum(a)).value;
    var g := VFn("", [], Var(x), Append(s1.own, s1.captured));
    assert g.env == Bind(x, Held(VNum(a)), Append(s0.own, s0.captured));
    var s2 := NewVar(s1, f, g).value;
    assert Find(s2.own, x) == Some(Held(VNum(a)));
    var s3 := Rebind(s2, x, VNum(b)).value;
    assert Replace(s1.own, x, Held(VNum(b))) == Bind(x, Held(VNum(b)), s0.own);
    assert s3.own == Bind(f, Held(g), Bind(x, Held(VNum(b)), s0.own));
    assert Eval(Var(f), s3, fuel) == Gave(g, s3);
    var s4 := Inside(g, [], s3);
    assert Find(Nothing, x) == None && Find(g.env, x) == Some(Held(VNum(a))) && s4.own == Nothing;
    assert Eval(Var(x), s4, fuel - 1) == Gave(VNum(a), s4);
    assert Eval(App(Var(f), TNil), s3, fuel) == Gave(VNum(a), s3.(cells := s4.cells));
    assert Eval(Num(b), s2, fuel) == Gave(VNum(b), s2);
    assert Eval(Set(x, Num(b), App(Var(f), TNil)), s2, fuel) == Gave(VNum(a), s3.(cells := s4.cells));
    assert Eval(Fn("", [], Var(x)), s1, fuel) == Gave(g, s1);
    var rest := Eval(Let(f, Fn("", [], Var(x)), Set(x, Num(b), App(Var(f), TNil))), s1, fuel);
    assert rest.Gave? && rest.v == VNum(a);
    assert Eval(Num(a), s0, fuel) == Gave(VNum(a), s0);
  }

  /** The same in the body of a function that the program calls. */
  function InFunction(t: Term): Term { App(Fn("", [], t), TNil) }

  lemma OldValueSeen(x: string, f: string, a: int, b: int, n: nat, fuel: nat)
    requires x != f && fuel > 1
    ensures var c := Compile(InFunction(Reassigned(x, f, a, b)), [GLOBAL]);
      c.Compiled? && Exec(c.code, Booted(n), fuel).Left? && Exec(c.code, Booted(n), fuel).v == CNum(a)
  {
    var t, s := Reassigned(x, f, a, b), Initially(n);
    ReassignedCompiles(x, f, a, b, [FnLevel("", [])] + [GLOBAL]);
    var g := VFn("", [], t, Append(s.own, s.captured));
    OldValueMeant(x, f, a, b, Inside(g, [], s), fuel - 1);
    hide Reassigned;
    assert Compile(Fn("", [], t), [GLOBAL]).Compiled?;
    assert Compile(InFunction(t), [GLOBAL]).Compiled?;
    assert Eval(Fn("", [], t), s, fuel) == Gave(g, s);
    assert EvalArgs(TNil, s, fuel) == Gave([], s);
    assert Eval(InFunction(t), s, fuel).Gave? && Eval(InFunction(t), s, fuel).v == VNum(a);
    ConversionCorrect(InFunction(t), n, fuel);
  }

  // ---------- assignments to captured variables ----------

  lemma ResolveAgain(st: seq<Level>, x: string)
    requires st != [] && Resolve(st, x).sym.Some?
    ensures Resolve(Resolve(st, x).st, x) == Resolve(st, x)
  {
    var r := Resolve(st, x);
    if r.sym.value.Global? || Known(st[0], x).Some? { ResolvedSame(st, x); } else { assert Known(r.st[0], x) == r.sym; }
  }

  /** An assignment and a read right behind it: the value assigned is read, except if the name
      is captured or the function's own. Then the old value is read, and the value assigned is in
      a local slot that has nothing to do with the name. */
  lemma AssignThenRead(st: seq<Level>, x: string, n: int, fr: Frame, fuel: nat)
    requires st != [] && Resolve(st, x).sym.Some? && !Parameter(st, x)
    requires var sym := Resolve(st, x).sym.value; Get(fr, sym).Some? && Put(fr, Target(sym), CNum(n)).Some?
    ensures var sym := Resolve(st, x).sym.value; var c := Compile(Set(x, Num(n), Var(x)), st);
      && c.Compiled? && Exec(c.code, fr, fuel).Left?
      && Exec(c.code, fr, fuel).v == (if sym.Free? || sym.Self? then Get(fr, sym).value else CNum(n))
      && Get(Exec(c.code, fr, fuel).fr, Target(sym)) == Some(CNum(n))
  {
    hide Resolve;
    ResolveAgain(st, x);
    var sym := Resolve(st, x).sym.value;
    assert Compile(Num(n), st) == Compiled(Constant(n), st);
    assert Compile(Var(x), Resolve(st, x).st) == Compiled(Load(sym), Resolve(st, x).st);
    assert Exec(Constant(n), fr, fuel) == Left(CNum(n), fr);
  }

  /** `func() { mut y = c; x = b; y }` with a captured `x` returns `b`, whatever `c` is, unless `x`
      is a parameter: then it does not compile. */
  lemma CapturedAssignmentHits(x: string, y: string, b: int, c: int, st: seq<Level>, fr: Frame, fuel: nat)
    requires x != y && Resolve(st, x).sym.Some? && !Resolve(st, x).sym.value.Global? && |fr.locals| > 0
    ensures var k := Compile(Let(y, Num(c), Set(x, Num(b), Var(y))), [FnLevel("", [])] + st);
      if Parameter(st, x) then k.Rejected?
      else k.Compiled? && Exec(k.code, fr, fuel).Left? && Exec(k.code, fr, fuel).v == CNum(b)
  {
    var all := [FnLevel("", [])] + st;
    var p := PushBlock(all, y);
    assert p[1..] == st && p[0].blocks[0] == map[y := VarSym(all)] && p[0].blocks[1..] == [] && p[0].free == []
      && p[0].store == map[];
    assert |all| > 1 && VarSym(all) == Local(0);
    assert InBlocks(p[0].blocks, x) == None && InBlocks(p[0].blocks, y) == Some(Local(0));
    assert Parameter(p, x) == Parameter(st, x) && Compile(Num(b), p) == Compiled(Constant(b), p);
    if Parameter(st, x) { return; }
    var r := Resolve(p, x);
    assert r.sym == Some(Free(0)) && r.st[0].blocks == p[0].blocks;
    assert Resolve(r.st, y) == Resolved(Some(Local(0)), r.st);
    var set1 := Compile(Set(x, Num(b), Var(y)), p);
    assert Compile(Num(b), p) == Compiled(Constant(b), p) && Compile(Num(c), all) == Compiled(Constant(c), all);
    assert Compile(Var(y), r.st) == Compiled(Load(Local(0)), r.st);
    assert set1.Compiled? && set1.code == StoreThen(Local(0), Constant(b), Load(Local(0)));
    assert Compile(Let(y, Num(c), Set(x, Num(b), Var(y))), all).code == StoreThen(Local(0), Constant(c), set1.code);
    var fr1 := fr.(locals := fr.locals[0 := Some(CNum(c))]);
    assert Exec(Constant(c), fr, fuel) == Left(CNum(c), fr) && Exec(Constant(b), fr1, fuel) == Left(CNum(b), fr1);
    var fr2 := fr1.(locals := fr1.locals[0 := Some(CNum(b))]);
    assert Exec(Load(Local(0)), fr2, fuel) == Left(CNum(b), fr2);
    assert Exec(set1.code, fr1, fuel) == Left(CNum(b), fr2);
  }
}
