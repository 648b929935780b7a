/** Which programs of the fragment are considered: the shape the compiler relies on, and
    the type checker's rules for int and bool, with their soundness. */
module Typing {
  import opened Language

  // ---------- shape ----------

  /** A break or continue occurs that refers to a loop outside the construct. */
  predicate EscapesE(e: Expr)
  {
    match e
    case IntLit(_) => false
    case BoolLit(_) => false
    case Ident(_) => false
    case Prefix(_, r) => EscapesE(r)
    case Infix(_, l, r) => EscapesE(l) || EscapesE(r)
    case If(c, a, b, _) => EscapesE(c) || EscapesB(a) || (b.Some? && EscapesB(b.value))
  }

  predicate EscapesB(b: Block)
  {
    match b
    case Empty => false
    case Seq(h, t) => EscapesS(h) || EscapesB(t)
  }

  predicate EscapesS(s: Stmt)
  {
    match s
    case ExprStmt(e) => EscapesE(e)
    case VarDecl(_, _, _, i) => i.Some? && EscapesE(i.value)
    case Assign(_, e) => EscapesE(e)
    case For(f, _, _, _) => f.Some? && EscapesS(f.value)
    case Break => true
    case Continue => true
  }

  /** Evaluation changes no variable that exists outside the expression. */
  predicate EffectFreeE(e: Expr)
  {
    match e
    case IntLit(_) => true
    case BoolLit(_) => true
    case Ident(_) => true
    case Prefix(_, r) => EffectFreeE(r)
    case Infix(_, l, r) => EffectFreeE(l) && EffectFreeE(r)
    case If(c, a, b, _) => EffectFreeE(c) && EffectFreeB(a) && (b.Some? ==> EffectFreeB(b.value))
  }

  predicate EffectFreeB(b: Block)
  {
    match b
    case Empty => true
    case Seq(h, t) => EffectFreeS(h) && EffectFreeB(t)
  }

  predicate EffectFreeS(s: Stmt)
  {
    match s
    case ExprStmt(e) => EffectFreeE(e)
    case VarDecl(_, _, _, i) => i.Some? ==> EffectFreeE(i.value)
    case _ => false
  }

  /** The last statement leaves a value behind, or control never gets past it. */
  predicate Yields(b: Block)
  {
    match b
    case Empty => false
    case Seq(h, t) => if t.Empty? then h.ExprStmt? || h.Break? || h.Continue? else Yields(t)
  }

  /** No operand is pending at a break or continue, reordered operands are effect-free, and
      both branches of a valued if-expression leave a value. */
  predicate ShapedE(e: Expr)
  {
    match e
    case IntLit(_) => true
    case BoolLit(_) => true
    case Ident(_) => true
    case Prefix(_, r) => ShapedE(r)
    case Infix(op, l, r) =>
      ShapedE(l) && ShapedE(r) && !EscapesE(r) && (Swapped(op) ==> EffectFreeE(l) && EffectFreeE(r))
    case If(c, a, b, unit) =>
      && ShapedE(c) && ShapedB(a) && (b.Some? ==> ShapedB(b.value))
      && (!unit ==> Yields(a) && (b.Some? ==> Yields(b.value)))
  }

  predicate ShapedB(b: Block)
  {
    match b
    case Empty => true
    case Seq(h, t) => ShapedS(h) && ShapedB(t)
  }

  predicate ShapedS(s: Stmt)
  {
    match s
    case ExprStmt(e) => ShapedE(e)
    case VarDecl(_, _, _, i) => i.Some? ==> ShapedE(i.value)
    case Assign(_, e) => ShapedE(e)
    case For(f, c, p, b) =>
      && (f.Some? ==> (f.value.VarDecl? || f.value.Assign?) && ShapedS(f.value) && !EscapesS(f.value))
      && ShapedE(c) && !EscapesE(c)
      && (p.Some? ==> (p.value.Assign? || p.value.ExprStmt?) && ShapedS(p.value) && !EscapesS(p.value))
      && ShapedB(b)
    case Break => true
    case Continue => true
  }

  // ---------- typing ----------

  type Env = seq<map<string, Ty>>

  function LookupTy(g: Env, x: string): Option<Ty>
  {
    if g == [] then None
    else if x in g[0] then Some(g[0][x])
    else LookupTy(g[1..], x)
  }

  function InfixTy(op: InfixOp, l: Ty, r: Ty): Option<Ty>
  {
    if l != r || l == TUnit then None
    else match op
      case Add => if l == TInt then Some(TInt) else None
      case Sub => if l == TInt then Some(TInt) else None
      case Mul => if l == TInt then Some(TInt) else None
      case Div => if l == TInt then Some(TInt) else None
      case Mod => if l == TInt then Some(TInt) else None
      case Eq => Some(TBool)
      case Ne => Some(TBool)
      case And => if l == TBool then Some(TBool) else None
      case Or => if l == TBool then Some(TBool) else None
      case _ => if l == TInt then Some(TBool) else None
  }

  /** TUnit is the type of whatever cannot be used as an operand, in particular of an
      if-expression with one branch only or with branches of different types. */
  function TypeE(e: Expr, g: Env): Option<Ty>
  {
    match e
    case IntLit(_) => Some(TInt)
    case BoolLit(_) => Some(TBool)
    case Ident(x) => LookupTy(g, x)
    case Prefix(op, r) =>
      var t := TypeE(r, g);
      if op == Not && t == Some(TBool) then t
      else if op == Neg && t == Some(TInt) then t
      else None
    case Infix(op, l, r) =>
      var tl, tr := TypeE(l, g), TypeE(r, g);
      if tl.None? || tr.None? then None else InfixTy(op, tl.value, tr.value)
    case If(c, a, b, unit) =>
      var ta := TypeB(a, [map[]] + g);
      if TypeE(c, g) != Some(TBool) || ta.None? then None
      else match b
        case None => Some(TUnit)
        case Some(blk) =>
          var tb := TypeB(blk, [map[]] + g);
          if tb.None? then None
          else Some(if unit || ta != tb then TUnit else ta.value)
  }

  function TypeB(b: Block, g: Env): Option<Ty>
    requires g != []
  {
    match b
    case Empty => Some(TUnit)
    case Seq(h, t) =>
      var th := TypeS(h, g);
      if th.None? then None
      else if t.Empty? then Some(th.value.0)
      else TypeB(t, th.value.1)
  }

  function TypeS(s: Stmt, g: Env): (r: Option<(Ty, Env)>)
    requires g != []
    ensures r.Some? ==> r.value.1 != [] && r.value.1[1..] == g[1..]
  {
    match s
    case ExprStmt(e) =>
      (match TypeE(e, g) case Some(t) => Some((t, g)) case None => None)
    case VarDecl(_, x, ty, i) =>
      var t := match i case None => ty case Some(e) => TypeE(e, g);
      if t.None? || t == Some(TUnit) then None else Some((TUnit, [g[0][x := t.value]] + g[1..]))
    case Assign(x, e) =>
      if LookupTy(g, x).Some? && TypeE(e, g) == LookupTy(g, x) then Some((TUnit, g)) else None
    case For(f, c, p, b) =>
      var g0 := [map[]] + g;
      var tf := match f case None => Some((TUnit, g0)) case Some(i) => TypeS(i, g0);
      if tf.None? then None else
      var g1 := tf.value.1;
      if TypeE(c, g1) != Some(TBool) || TypeB(b, [map[]] + g1).None? then None
      else if p.Some? && (TypeS(p.value, g1).None? || TypeS(p.value, g1).value.1 != g1) then None
      else Some((TUnit, g))
    case Break => Some((TUnit, g))
    case Continue => Some((TUnit, g))
  }

  // ---------- soundness ----------

  predicate Has(v: Value, t: Ty)
  {
    match t
    case TInt => v.IntV?
    case TBool => v.BoolV?
    case TUnit => true
  }

  predicate ScopeFits(m: map<string, Value>, g: map<string, Ty>)
  {
    m.Keys == g.Keys && forall x :: x in g ==> Has(m[x], g[x])
  }

  predicate Fits(s: Store, g: Env)
  {
    |s| == |g| && forall i :: 0 <= i < |s| ==> ScopeFits(s[i], g[i])
  }

  lemma FitsTail(s: Store, g: Env)
    requires Fits(s, g) && s != []
    ensures Fits(s[1..], g[1..])
  {
  }

  lemma FitsPush(s: Store, g: Env)
    requires Fits(s, g)
    ensures Fits([map[]] + s, [map[]] + g)
  {
  }

  lemma {:induction false} LookupFits(s: Store, g: Env, x: string)
    requires Fits(s, g) && LookupTy(g, x).Some?
    ensures Lookup(s, x).Some? && Has(Lookup(s, x).value, LookupTy(g, x).value)
  {
    assert ScopeFits(s[0], g[0]);
    if x !in g[0] { LookupFits(s[1..], g[1..], x); }
  }

  lemma {:induction false} UpdateFits(s: Store, g: Env, x: string, v: Value)
    requires Fits(s, g) && LookupTy(g, x).Some? && Has(v, LookupTy(g, x).value)
    ensures Fits(Update(s, x, v), g)
  {
    assert ScopeFits(s[0], g[0]);
    if x !in g[0] {
      UpdateFits(s[1..], g[1..], x, v);
      var u := Update(s[1..], x, v);
      forall i | 0 <= i < |s| ensures ScopeFits(([s[0]] + u)[i], g[i]) {
        if i > 0 { assert ScopeFits(u[i - 1], g[1..][i - 1]); }
      }
    }
  }

  /** What a run of a well-typed construct keeps: it is never stuck, a value has its type,
      and the store keeps fitting the environment. */
  predicate Sound(o: Out, t: Ty, g: Env)
  {
    && !o.Stuck?
    && (o.Val? ==> Has(o.v, t) && Fits(o.s, g))
    && (o.Brk? || o.Cnt? ==> Fits(o.s, g))
  }

  /** For statements, an abrupt end may come from below a declaration of the same scope. */
  predicate SoundS(o: Out, t: Ty, g: Env, g': Env)
    requires g != []
  {
    && !o.Stuck?
    && (o.Val? ==> Has(o.v, t) && Fits(o.s, g'))
    && (o.Brk? || o.Cnt? ==> o.s != [] && Fits(o.s[1..], g[1..]))
  }

  lemma {:induction false} SoundE(e: Expr, g: Env, s: Store, fuel: nat)
    requires TypeE(e, g).Some? && Fits(s, g) && ShapedE(e)
    ensures Sound(EvalE(e, s, fuel), TypeE(e, g).value, g)
    decreases fuel, e, 0
  {
    match e
    case IntLit(_) =>
    case BoolLit(_) =>
    case Ident(x) => LookupFits(s, g, x);
    case Prefix(op, r) => SoundE(r, g, s, fuel);
    case Infix(op, l, r) =>
      SoundE(l, g, s, fuel);
      SoundE(r, g, s, fuel);
      var o := EvalE(l, s, fuel);
      if o.Val? { SoundE(r, g, o.s, fuel); }
    case If(c, a, b, unit) =>
      SoundE(c, g, s, fuel);
      var o := EvalE(c, s, fuel);
      if o.Val? {
        SoundBlock(a, g, o.s, fuel);
        if b.Some? { SoundBlock(b.value, g, o.s, fuel); }
      }
  }

  lemma {:induction false} SoundBlock(b: Block, g: Env, s: Store, fuel: nat)
    requires TypeB(b, [map[]] + g).Some? && Fits(s, g) && ShapedB(b)
    ensures Sound(ExecBlock(b, s, fuel), TypeB(b, [map[]] + g).value, g)
    decreases fuel, b, 1
  {
    FitsPush(s, g);
    assert ([map[]] + g)[1..] == g;
    SoundB(b, [map[]] + g, [map[]] + s, fuel);
  }

  lemma {:induction false} SoundB(b: Block, g: Env, s: Store, fuel: nat)
    requires g != [] && TypeB(b, g).Some? && Fits(s, g) && ShapedB(b)
    ensures var o := ExecStmts(b, s, fuel);
      && !o.Stuck?
      && (o.Val? ==> Has(o.v, TypeB(b, g).value))
      && (o.Val? || o.Brk? || o.Cnt? ==> o.s != [] && Fits(o.s[1..], g[1..]))
    decreases fuel, b, 0
  {
    match b
    case Empty => FitsTail(s, g);
    case Seq(h, t) =>
      SoundSt(h, g, s, fuel);
      var o := ExecS(h, s, fuel);
      if o.Val? {
        FitsTail(o.s, TypeS(h, g).value.1);
        if !t.Empty? { SoundB(t, TypeS(h, g).value.1, o.s, fuel); }
      }
  }

  lemma {:induction false} SoundSt(st: Stmt, g: Env, s: Store, fuel: nat)
    requires g != [] && TypeS(st, g).Some? && Fits(s, g) && ShapedS(st)
    ensures SoundS(ExecS(st, s, fuel), TypeS(st, g).value.0, g, TypeS(st, g).value.1)
    decreases fuel, st, 2
  {
    match st
    case ExprStmt(e) =>
      SoundE(e, g, s, fuel);
    case VarDecl(_, x, ty, i) =>
      if i.Some? { SoundE(i.value, g, s, fuel); }
    case Assign(x, e) =>
      SoundE(e, g, s, fuel);
      var o := EvalE(e, s, fuel);
      if o.Val? { UpdateFits(o.s, g, x, o.v); }
    case For(_, _, _, _) =>
      SoundFor(st, g, s, fuel);
      var o := ExecS(st, s, fuel);
      if o.Brk? || o.Cnt? { FitsTail(o.s, g); }
    case Break =>
    case Continue =>
  }

  lemma {:induction false} SoundFor(st: Stmt, g: Env, s: Store, fuel: nat)
    requires st.For? && g != [] && TypeS(st, g).Some? && Fits(s, g) && ShapedS(st)
    ensures Sound(ExecS(st, s, fuel), TUnit, g)
    decreases fuel, st, 1
  {
    FitsPush(s, g);
    var g0, s0 := [map[]] + g, [map[]] + s;
    assert g0[1..] == g;
    if st.first.Some? { SoundSt(st.first.value, g0, s0, fuel); }
    var o := ExecOpt(st.first, s0, fuel);
    var g1 := if st.first.Some? then TypeS(st.first.value, g0).value.1 else g0;
    assert g1[1..] == g;
    if o.Val? { SoundLoop(st, g1, o.s, fuel); }
  }

  lemma {:induction false} SoundLoop(f: Stmt, g: Env, s: Store, fuel: nat)
    requires f.For? && g != [] && Fits(s, g) && ShapedS(f)
    requires TypeE(f.test, g) == Some(TBool) && TypeB(f.body, [map[]] + g).Some?
    requires f.post.Some? ==> TypeS(f.post.value, g).Some? && TypeS(f.post.value, g).value.1 == g
    ensures var o := ExecLoop(f, s, fuel);
      && !o.Stuck?
      && (o.Val? || o.Brk? || o.Cnt? ==> o.s != [] && Fits(o.s[1..], g[1..]))
    decreases fuel, f, 0
  {
    if fuel == 0 { return; }
    SoundE(f.test, g, s, fuel);
    var o := EvalE(f.test, s, fuel);
    if !o.Val? { return; }
    FitsTail(o.s, g);
    if !o.v.b { return; }
    SoundBlock(f.body, g, o.s, fuel);
    var ob := ExecBlock(f.body, o.s, fuel);
    if !ob.Val? && !ob.Cnt? { return; }
    if f.post.Some? { SoundSt(f.post.value, g, ob.s, fuel); }
    var op := ExecOpt(f.post, ob.s, fuel);
    if op.Val? { SoundLoop(f, g, op.s, fuel - 1); }
  }

  // ---------- what the shape conditions mean for runs ----------

  predicate Contained(o: Out) { !o.Brk? && !o.Cnt? }

  lemma {:induction false} ContainedE(e: Expr, s: Store, fuel: nat)
    requires ShapedE(e) && !EscapesE(e)
    ensures Contained(EvalE(e, s, fuel))
    decreases fuel, e, 0
  {
    match e
    case IntLit(_) =>
    case BoolLit(_) =>
    case Ident(_) =>
    case Prefix(_, r) => ContainedE(r, s, fuel);
    case Infix(_, l, r) =>
      ContainedE(l, s, fuel);
      var o := EvalE(l, s, fuel);
      if o.Val? { ContainedE(r, o.s, fuel); }
    case If(c, a, b, _) =>
      ContainedE(c, s, fuel);
      var o := EvalE(c, s, fuel);
      if o.Val? {
        ContainedB(a, [map[]] + o.s, fuel);
        if b.Some? { ContainedB(b.value, [map[]] + o.s, fuel); }
      }
  }

  lemma {:induction false} ContainedB(b: Block, s: Store, fuel: nat)
    requires ShapedB(b) && !EscapesB(b)
    ensures Contained(ExecStmts(b, s, fuel))
    decreases fuel, b, 0
  {
    if b.Seq? {
      ContainedS(b.head, s, fuel);
      var o := ExecS(b.head, s, fuel);
      if o.Val? && !b.tail.Empty? { ContainedB(b.tail, o.s, fuel); }
    }
  }

  lemma {:induction false} ContainedS(st: Stmt, s: Store, fuel: nat)
    requires ShapedS(st) && !EscapesS(st)
    ensures Contained(ExecS(st, s, fuel))
    decreases fuel, st, 1
  {
    match st
    case ExprStmt(e) => ContainedE(e, s, fuel);
    case VarDecl(_, _, _, i) => if i.Some? { ContainedE(i.value, s, fuel); }
    case Assign(_, e) => ContainedE(e, s, fuel);
    case For(f, _, _, _) =>
      if f.Some? { ContainedS(f.value, [map[]] + s, fuel); }
      var o := ExecOpt(f, [map[]] + s, fuel);
      if o.Val? { ContainedLoop(st, o.s, fuel); }
  }

  lemma {:induction false} ContainedLoop(f: Stmt, s: Store, fuel: nat)
    requires f.For? && ShapedS(f)
    ensures Contained(ExecLoop(f, s, fuel))
    decreases fuel, f, 0
  {
    if fuel == 0 { return; }
    ContainedE(f.test, s, fuel);
    var o := EvalE(f.test, s, fuel);
    if !o.Val? || !o.v.BoolV? || !o.v.b { return; }
    var ob := ExecBlock(f.body, o.s, fuel);
    if !ob.Val? && !ob.Cnt? { return; }
    if f.post.Some? { ContainedS(f.post.value, ob.s, fuel); }
    var op := ExecOpt(f.post, ob.s, fuel);
    if op.Val? { ContainedLoop(f, op.s, fuel - 1); }
  }

  /** An effect-free expression leaves the store alone, and always finishes. */
  lemma {:induction false} EffectFree(e: Expr, s: Store, fuel: nat)
    requires EffectFreeE(e)
    ensures var o := EvalE(e, s, fuel); Contained(o) && !o.Timeout? && (o.Val? ==> o.s == s)
    decreases e, 0
  {
    match e
    case IntLit(_) =>
    case BoolLit(_) =>
    case Ident(_) =>
    case Prefix(_, r) => EffectFree(r, s, fuel);
    case Infix(_, l, r) => EffectFree(l, s, fuel); EffectFree(r, s, fuel);
    case If(c, a, b, _) =>
      EffectFree(c, s, fuel);
      assert ([map[]] + s)[1..] == s;
      EffectFreeStmts(a, [map[]] + s, fuel);
      if b.Some? { EffectFreeStmts(b.value, [map[]] + s, fuel); }
  }

  lemma {:induction false} EffectFreeStmts(b: Block, s: Store, fuel: nat)
    requires EffectFreeB(b) && s != []
    ensures var o := ExecStmts(b, s, fuel);
      Contained(o) && !o.Timeout? && (o.Val? ==> o.s != [] && o.s[1..] == s[1..])
    decreases b, 0
  {
    if b.Seq? {
      match b.head
      case ExprStmt(e) =>
        EffectFree(e, s, fuel);
        if !b.tail.Empty? { EffectFreeStmts(b.tail, s, fuel); }
      case VarDecl(_, x, ty, i) =>
        if i.Some? { EffectFree(i.value, s, fuel); }
        var o := ExecS(b.head, s, fuel);
        if o.Val? && !b.tail.Empty? { EffectFreeStmts(b.tail, o.s, fuel); }
    }
  }
}
