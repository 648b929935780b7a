/** When the type checker accepts a program that is well typed in the strict sense. */
module Acceptance {
  import opened Language
  import opened Typing
  import opened Scoping
  import opened Codegen
  import opened BoundNames
  import opened Preservation
  import opened Checking

  // ---------- what the checker records and demands besides ----------

  /** The unit marks are what the checker records, and a declaration in a scope that knows its name
      has the type known. */
  predicate MarkedE(e: Expr, g: Env)
  {
    match e
    case Prefix(_, r) => MarkedE(r, g)
    case Infix(_, l, r) => MarkedE(l, g) && MarkedE(r, g)
    case If(c, a, b, unit) =>
      && MarkedE(c, g) && MarkedB(a, [map[]] + g) && (b.Some? ==> MarkedB(b.value, [map[]] + g))
      && (unit <==> CheckB(a, [map[]] + g) == Some(TUnit))
    case _ => true
  }

  predicate MarkedB(b: Block, g: Env)
    requires g != []
  {
    b.Seq? ==> MarkedS(b.head, g) && (CheckS(b.head, g).Some? ==> MarkedB(b.tail, CheckS(b.head, g).value.1))
  }

  predicate MarkedS(s: Stmt, g: Env)
    requires g != []
  {
    match s
    case ExprStmt(e) => MarkedE(e, g)
    case VarDecl(_, x, _, i) =>
      i.Some? ==> MarkedE(i.value, g) && (x in g[0] ==> CheckE(i.value, g, false) == Some(g[0][x]))
    case Assign(_, e) => MarkedE(e, g)
    case For(f, c, p, b) =>
      var g0 := [map[]] + g;
      && (f.Some? ==> MarkedS(f.value, g0))
      && var tf := match f case None => Some((TUnit, g0)) case Some(i) => CheckS(i, g0);
      && (tf.Some? ==>
        && var g1 := tf.value.1;
        && MarkedE(c, g1) && (p.Some? ==> MarkedS(p.value, g1)) && MarkedB(b, g1))
    case _ => true
  }

  predicate Marked(prog: Block) { Hoisted(prog, map[]).Some? && MarkedB(prog, Globals(prog)) }

  // ---------- it is necessary ----------

  lemma {:induction false} AcceptedMarkedE(e: Expr, g: Env, discard: bool)
    requires CheckE(e, g, discard).Some? && ShapedE(e)
    ensures MarkedE(e, g)
    decreases e, 0
  {
    match e
    case Prefix(_, r) => AcceptedMarkedE(r, g, discard);
    case Infix(_, l, r) =>
      AcceptedMarkedE(l, g, discard);
      AcceptedMarkedE(r, g, discard);
    case If(c, a, b, _) =>
      AcceptedMarkedE(c, g, discard);
      AcceptedMarkedB(a, [map[]] + g);
      if b.Some? { AcceptedMarkedB(b.value, [map[]] + g); }
    case _ =>
  }

  lemma {:induction false} AcceptedMarkedB(b: Block, g: Env)
    requires g != [] && CheckB(b, g).Some? && ShapedB(b)
    ensures MarkedB(b, g)
    decreases b, 1
  {
    if b.Seq? {
      AcceptedMarkedS(b.head, g);
      if b.tail.Seq? { AcceptedMarkedB(b.tail, CheckS(b.head, g).value.1); }
    }
  }

  lemma {:induction false} AcceptedMarkedS(s: Stmt, g: Env)
    requires g != [] && CheckS(s, g).Some? && ShapedS(s)
    ensures MarkedS(s, g)
    decreases s, 2
  {
    match s
    case ExprStmt(e) => AcceptedMarkedE(e, g, true);
    case VarDecl(_, _, _, i) => if i.Some? { AcceptedMarkedE(i.value, g, false); }
    case Assign(_, e) => AcceptedMarkedE(e, g, false);
    case For(f, c, p, b) =>
      var g0 := [map[]] + g;
      if f.Some? { AcceptedMarkedS(f.value, g0); }
      var g1 := if f.Some? then CheckS(f.value, g0).value.1 else g0;
      AcceptedMarkedE(c, g1, false);
      if p.Some? { AcceptedMarkedS(p.value, g1); }
      AcceptedMarkedB(b, g1);
    case Break =>
    case Continue =>
  }

  // ---------- and it is enough ----------

  /** No variable has the type Unit. */
  ghost predicate Unitless(h: Env) { forall x :: LookupTy(h, x) != Some(TUnit) }

  lemma UnitlessPush(h: Env)
    requires Unitless(h)
    ensures Unitless([map[]] + h)
  {
    assert ([map[]] + h)[1..] == h;
  }

  lemma UnitlessDeclare(h: Env, x: string, t: Ty)
    requires Unitless(h) && h != [] && t != TUnit
    ensures Unitless([h[0][x := t]] + h[1..])
  {
    var h' := [h[0][x := t]] + h[1..];
    assert h'[1..] == h[1..];
    forall y ensures LookupTy(h', y) != Some(TUnit) { assert LookupTy(h, y) != Some(TUnit); }
  }

  lemma {:induction false} TypedCheckedE(e: Expr, g: Env, h: Env, discard: bool, used: bool, names: set<string>)
    requires TypeE(e, h).Some? && SettledE(e, g, used) && MarkedE(e, g) && ShapedE(e)
    requires BoundE(e, names) && Known(h, names) && Covers(g, h) && Unitless(h)
    requires discard || (used && TypeE(e, h) != Some(TUnit))
    ensures CheckE(e, g, discard).Some?
    decreases e, 0
  {
    match e
    case IntLit(_) =>
    case BoolLit(_) =>
    case Ident(x) =>
    case Prefix(op, r) =>
      TypedCheckedE(r, g, h, discard, true, names);
      SettledTypedE(r, g, h, discard, true, names);
    case Infix(op, l, r) =>
      TypedCheckedE(l, g, h, discard, true, names);
      TypedCheckedE(r, g, h, discard, true, names);
      SettledTypedE(l, g, h, discard, true, names);
      SettledTypedE(r, g, h, discard, true, names);
    case If(c, a, b, unit) =>
      TypedCheckedE(c, g, h, discard, true, names);
      SettledTypedE(c, g, h, discard, true, names);
      CoversPush(g, h, names);
      UnitlessPush(h);
      TypedCheckedB(a, [map[]] + g, [map[]] + h, used, names);
      if b.Some? { TypedCheckedB(b.value, [map[]] + g, [map[]] + h, used, names); }
  }

  lemma {:induction false} TypedCheckedB(b: Block, g: Env, h: Env, used: bool, names: set<string>)
    requires g != [] && h != [] && TypeB(b, h).Some? && SettledB(b, g, used) && MarkedB(b, g) && ShapedB(b)
    requires BoundB(b, names) && Known(h, names) && Covers(g, h) && Unitless(h)
    ensures CheckB(b, g).Some?
    decreases b, 1
  {
    if b.Seq? {
      TypedCheckedS(b.head, g, h, used && b.tail.Empty?, names);
      SettledTypedS(b.head, g, h, used && b.tail.Empty?, names);
      if !b.tail.Empty? {
        TypedCheckedB(b.tail, CheckS(b.head, g).value.1, TypeS(b.head, h).value.1, used,
          names + Declared(Some(b.head)));
      }
    }
  }

  lemma {:induction false} TypedCheckedS(s: Stmt, g: Env, h: Env, used: bool, names: set<string>)
    requires g != [] && h != [] && TypeS(s, h).Some? && SettledS(s, g, used) && MarkedS(s, g) && ShapedS(s)
    requires BoundS(s, names) && Known(h, names) && Covers(g, h) && Unitless(h)
    ensures CheckS(s, g).Some? && Unitless(TypeS(s, h).value.1)
    decreases s, 2
  {
    match s
    case ExprStmt(e) => TypedCheckedE(e, g, h, true, used, names);
    case VarDecl(_, x, ty, i) =>
      if i.Some? {
        TypedCheckedE(i.value, g, h, false, true, names);
        SettledTypedE(i.value, g, h, false, true, names);
      }
      UnitlessDeclare(h, x, if i.Some? then TypeE(i.value, h).value else ty.value);
    case Assign(x, e) =>
      TypedCheckedE(e, g, h, false, true, names);
      SettledTypedE(e, g, h, false, true, names);
    case For(_, _, _, _) => TypedCheckedFor(s, g, h, names);
    case Break =>
    case Continue =>
  }

  lemma {:induction false} TypedCheckedFor(s: Stmt, g: Env, h: Env, names: set<string>)
    requires s.For? && g != [] && h != [] && TypeS(s, h).Some? && SettledS(s, g, false) && MarkedS(s, g) && ShapedS(s)
    requires BoundS(s, names) && Known(h, names) && Covers(g, h) && Unitless(h)
    ensures CheckS(s, g).Some?
    decreases s, 1
  {
    var g0, h0 := [map[]] + g, [map[]] + h;
    CoversPush(g, h, names);
    UnitlessPush(h);
    if s.first.Some? {
      TypedCheckedS(s.first.value, g0, h0, false, names);
      SettledTypedS(s.first.value, g0, h0, false, names);
    }
    var inner := names + Declared(s.first);
    var g1 := if s.first.Some? then CheckS(s.first.value, g0).value.1 else g0;
    var h1 := if s.first.Some? then TypeS(s.first.value, h0).value.1 else h0;
    TypedCheckedE(s.test, g1, h1, false, true, inner);
    SettledTypedE(s.test, g1, h1, false, true, inner);
    if s.post.Some? { TypedCheckedS(s.post.value, g1, h1, false, inner); }
    CoversPush(g1, h1, inner);
    UnitlessPush(h1);
    TypedCheckedB(s.body, g1, [map[]] + h1, false, inner);
  }

  /** Of the programs that compile and are settled, the checker accepts exactly those that are well
      typed in the strict sense, carry the marks it records, and declare no name twice where it
      knows it with another type. */
  lemma AcceptedExact(prog: Block)
    requires GenProgram(prog).Gen? && Settled(prog) && ShapedB(prog)
    ensures Accepted(prog) <==> WellTyped(prog) && Marked(prog)
  {
    if Accepted(prog) {
      AcceptedSettled(prog);
      AcceptedMarkedB(prog, Globals(prog));
    }
    if WellTyped(prog) && Marked(prog) {
      assert Within(TOP.scopes, {});
      GenBoundB(prog, TOP, 0, 0, NoLoop, {});
      TypedCheckedB(prog, Globals(prog), [map[]], false, {});
    }
  }

  /** The checker accepts an operator on two operands of one type exactly if the evaluator computes a
      value for them, and that value has the type the checker says. */
  lemma OperatorTypes(op: InfixOp, t: Ty, v: Value, w: Value)
    requires t != TUnit && Has(v, t) && Has(w, t) && (op == Div || op == Mod ==> w != IntV(0))
    ensures var r := EvalInfix(op, v, w);
      (CheckInfix(op, t, t).Some? <==> r.Ok?) && (r.Ok? ==> Has(r.value, CheckInfix(op, t, t).value))
  {
  }
}
