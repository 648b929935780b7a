/** The type checker's own rules for the fragment (typechecker/typechecker.go), which accept
    more than `Typing`: an if-expression without alternative has the type of its consequence, a
    discarded expression may contain ifs whose branches differ, and a declaration without value
    has the type its name had before. Where this lets evaluator and VM disagree, and the condition
    under which it does not. */
module Checking {
  import opened Language
  import opened Typing
  import opened Scoping
  import opened Machine
  import opened Codegen
  import opened BoundNames
  import opened Preservation

  // ---------- the checker ----------

  function CheckInfix(op: InfixOp, l: Ty, r: Ty): Option<Ty>
  {
    if l != r then None
    else match op
      case Eq => Some(TBool)
      case Ne => Some(TBool)
      case And => if l == TBool then Some(TBool) else None
      case Or => if l == TBool then Some(TBool) else None
      case Gt => if l == TInt then Some(TBool) else None
      case Ge => if l == TInt then Some(TBool) else None
      case Lt => if l == TInt then Some(TBool) else None
      case Le => if l == TInt then Some(TBool) else None
      case _ => if l == TInt then Some(TInt) else None
  }

  /** `discard` is set within an expression statement: then the branches of an if are not
      compared. The `unit` mark of an if records that its type is Unit. */
  function CheckE(e: Expr, g: Env, discard: bool): Option<Ty>
  {
    match e
    case IntLit(_) => Some(TInt)
    case BoolLit(_) => Some(TBool)
    case Ident(x) => LookupTy(g, x)
    case Prefix(op, r) =>
      var t := CheckE(r, g, discard);
      if (op == Not && t == Some(TBool)) || (op == Neg && t == Some(TInt)) then t else None
    case Infix(op, l, r) =>
      var tl, tr := CheckE(l, g, discard), CheckE(r, g, discard);
      if tl.None? || tr.None? then None else CheckInfix(op, tl.value, tr.value)
    case If(c, a, b, unit) =>
      var ta := CheckB(a, [map[]] + g);
      if CheckE(c, g, discard) != Some(TBool) || ta.None? || unit != (ta.value == TUnit) then None
      else match b
        case None => ta
        case Some(blk) =>
          var tb := CheckB(blk, [map[]] + g);
          if tb.None? || (!discard && tb != ta) then None else ta
  }

  /** The type a declaration starts from: that of the variable its name refers to so far, in
      whatever scope, and only for an unknown name that of its annotation. */
  function KnownAs(g: Env, x: string, ty: Option<Ty>): Option<Ty>
  {
    if LookupTy(g, x).Some? then LookupTy(g, x) else ty
  }

  /** The statements of a block in its own scope; the type is that of the last one. */
  function CheckB(b: Block, g: Env): Option<Ty>
    requires g != []
  {
    match b
    case Empty => Some(TUnit)
    case Seq(h, t) =>
      var th := CheckS(h, g);
      if th.None? then None else if t.Empty? then Some(th.value.0) else CheckB(t, th.value.1)
  }

  /** The body of a for loop is checked in the scope of its initialisation. */
  function CheckS(s: Stmt, g: Env): (r: Option<(Ty, Env)>)
    requires g != []
    ensures r.Some? ==> r.value.1 != []
  {
    match s
    case ExprStmt(e) =>
      (match CheckE(e, g, true) case Some(t) => Some((t, g)) case None => None)
    case VarDecl(_, x, ty, i) =>
      var before := KnownAs(g, x, ty);
      var t := match i case None => before case Some(e) => CheckE(e, g, false);
      if t.None? || t == Some(TUnit) then None
      else if x in g[0] then if t == before then Some((TUnit, g)) else None
      else Some((TUnit, [g[0][x := t.value]] + g[1..]))
    case Assign(x, e) =>
      if LookupTy(g, x).Some? && CheckE(e, g, false) == LookupTy(g, x) then Some((TUnit, g)) else None
    case For(f, c, p, b) =>
      var g0 := [map[]] + g;
      var tf := match f case None => Some((TUnit, g0)) case Some(i) => CheckS(i, g0);
      if tf.None? then None else
      var g1 := tf.value.1;
      if CheckE(c, g1, false) != Some(TBool) then None else
      var tp := match p case None => Some((TUnit, g1)) case Some(i) => CheckS(i, g1);
      if tp.None? || CheckB(b, tp.value.1).None? then None else Some((TUnit, g))
    case Break => Some((TUnit, g))
    case Continue => Some((TUnit, g))
  }

  /** hoistBase: annotated declarations of the program itself are known from the beginning; it is
      an error if two have the same name. */
  function Hoisted(prog: Block, m: map<string, Ty>): Option<map<string, Ty>>
  {
    match prog
    case Empty => Some(m)
    case Seq(VarDecl(_, x, Some(ty), _), t) => if x in m then None else Hoisted(t, m[x := ty])
    case Seq(_, t) => Hoisted(t, m)
  }

  function Globals(prog: Block): Env { match Hoisted(prog, map[]) case Some(m) => [m] case None => [map[]] }

  predicate Accepted(prog: Block) { Hoisted(prog, map[]).Some? && CheckB(prog, Globals(prog)).Some? }

  // ---------- the condition ----------

  /** Whoever uses the value of an if-expression can rely on its type: it has an alternative,
      of the same type. Values of type Unit are not compared. And a declaration without value does
      not hide a variable of another type. */
  predicate SettledE(e: Expr, g: Env, used: bool)
  {
    match e
    case Prefix(_, r) => SettledE(r, g, true)
    case Infix(op, l, r) =>
      SettledE(l, g, true) && SettledE(r, g, true) && (op == Eq || op == Ne ==> CheckE(l, g, true) != Some(TUnit))
    case If(c, a, b, unit) =>
      && SettledE(c, g, true) && SettledB(a, [map[]] + g, used) && (b.Some? ==> SettledB(b.value, [map[]] + g, used))
      && (used && !unit ==> b.Some? && CheckB(b.value, [map[]] + g) == CheckB(a, [map[]] + g))
    case _ => true
  }

  /** With `used`, the value of the last statement is used. */
  predicate SettledB(b: Block, g: Env, used: bool)
    requires g != []
  {
    b.Seq? ==>
      && SettledS(b.head, g, used && b.tail.Empty?)
      && (CheckS(b.head, g).Some? ==> SettledB(b.tail, CheckS(b.head, g).value.1, used))
  }

  predicate SettledS(s: Stmt, g: Env, used: bool)
    requires g != []
  {
    match s
    case ExprStmt(e) => SettledE(e, g, used)
    case VarDecl(_, x, ty, i) => if i.Some? then SettledE(i.value, g, true) else KnownAs(g, x, ty) == ty
    case Assign(_, e) => SettledE(e, g, true)
    case For(f, c, p, b) =>
      var g0 := [map[]] + g;
      && (f.Some? ==> SettledS(f.value, g0, false))
      && var tf := match f case None => Some((TUnit, g0)) case Some(i) => CheckS(i, g0);
      && (tf.Some? ==>
        && var g1 := tf.value.1;
        && SettledE(c, g1, true) && (p.Some? ==> SettledS(p.value, g1, false)) && SettledB(b, g1, false))
    case _ => true
  }

  predicate Settled(prog: Block) { SettledB(prog, Globals(prog), false) }

  // ---------- accepted and settled programs are well typed ----------

  /** What `h` knows of a name, `g` knows too; `g` may know names that are declared later. */
  ghost predicate Covers(g: Env, h: Env) { forall x :: LookupTy(h, x).Some? ==> LookupTy(g, x) == LookupTy(h, x) }

  ghost predicate Known(h: Env, names: set<string>) { forall x :: x in names ==> LookupTy(h, x).Some? }

  lemma CoversPush(g: Env, h: Env, names: set<string>)
    requires Covers(g, h) && Known(h, names)
    ensures Covers([map[]] + g, [map[]] + h) && Covers(g, [map[]] + h) && Known([map[]] + h, names)
  {
    assert ([map[]] + g)[1..] == g && ([map[]] + h)[1..] == h;
  }

  lemma CoversDeclare(g: Env, h: Env, x: string, ty: Ty, names: set<string>)
    requires Covers(g, h) && Known(h, names) && g != [] && h != []
    ensures var h' := [h[0][x := ty]] + h[1..];
      && Covers([g[0][x := ty]] + g[1..], h') && Known(h', names + {x})
      && (x in g[0] && g[0][x] == ty ==> Covers(g, h'))
  {
    var g', h' := [g[0][x := ty]] + g[1..], [h[0][x := ty]] + h[1..];
    assert g'[1..] == g[1..] && h'[1..] == h[1..];
    forall y ensures y != x ==> LookupTy(g', y) == LookupTy(g, y) && LookupTy(h', y) == LookupTy(h, y) { }
  }

  lemma {:induction false} SettledTypedE(e: Expr, g: Env, h: Env, discard: bool, used: bool, names: set<string>)
    requires CheckE(e, g, discard).Some? && SettledE(e, g, used) && ShapedE(e)
    requires BoundE(e, names) && Known(h, names) && Covers(g, h)
    ensures TypeE(e, h).Some? && (used ==> TypeE(e, h) == CheckE(e, g, discard))
    decreases e, 0
  {
    match e
    case IntLit(_) =>
    case BoolLit(_) =>
    case Ident(x) =>
    case Prefix(op, r) => SettledTypedE(r, g, h, discard, true, names);
    case Infix(op, l, r) =>
      SettledTypedE(l, g, h, discard, true, names);
      SettledTypedE(r, g, h, discard, true, names);
      CheckAnyway(l, g, discard);
    case If(c, a, b, unit) =>
      SettledTypedE(c, g, h, discard, true, names);
      CoversPush(g, h, names);
      SettledTypedB(a, [map[]] + g, [map[]] + h, used, names);
      if b.Some? { SettledTypedB(b.value, [map[]] + g, [map[]] + h, used, names); }
  }

  /** In discarded position more is accepted, with the same type. */
  lemma {:induction false} CheckAnyway(e: Expr, g: Env, discard: bool)
    requires CheckE(e, g, discard).Some?
    ensures CheckE(e, g, true) == CheckE(e, g, discard)
    decreases e
  {
    match e
    case Prefix(_, r) => CheckAnyway(r, g, discard);
    case Infix(_, l, r) =>
      CheckAnyway(l, g, discard);
      CheckAnyway(r, g, discard);
    case If(c, _, _, _) => CheckAnyway(c, g, discard);
    case _ =>
  }

  lemma {:induction false} SettledTypedB(b: Block, g: Env, h: Env, used: bool, names: set<string>)
    requires g != [] && h != [] && CheckB(b, g).Some? && SettledB(b, g, used) && ShapedB(b)
    requires BoundB(b, names) && Known(h, names) && Covers(g, h)
    ensures TypeB(b, h).Some? && (used ==> TypeB(b, h) == CheckB(b, g))
    decreases b, 1
  {
    if b.Seq? {
      SettledTypedS(b.head, g, h, used && b.tail.Empty?, names);
      if !b.tail.Empty? {
        SettledTypedB(b.tail, CheckS(b.head, g).value.1, TypeS(b.head, h).value.1, used,
          names + Declared(Some(b.head)));
      }
    }
  }

  lemma {:induction false} SettledTypedS(s: Stmt, g: Env, h: Env, used: bool, names: set<string>)
    requires g != [] && h != [] && CheckS(s, g).Some? && SettledS(s, g, used) && ShapedS(s)
    requires BoundS(s, names) && Known(h, names) && Covers(g, h)
    ensures TypeS(s, h).Some? && (used ==> TypeS(s, h).value.0 == CheckS(s, g).value.0)
    ensures Covers(CheckS(s, g).value.1, TypeS(s, h).value.1) && Known(TypeS(s, h).value.1, names + Declared(Some(s)))
    decreases s, 2
  {
    match s
    case ExprStmt(e) => SettledTypedE(e, g, h, true, used, names);
    case VarDecl(_, x, ty, i) =>
      if i.Some? { SettledTypedE(i.value, g, h, false, true, names); }
      CoversDeclare(g, h, x, if i.Some? then TypeE(i.value, h).value else ty.value, names);
    case Assign(x, e) => SettledTypedE(e, g, h, false, true, names);
    case For(_, _, _, _) => SettledTypedFor(s, g, h, names);
    case Break =>
    case Continue =>
  }

  lemma {:induction false} SettledTypedFor(s: Stmt, g: Env, h: Env, names: set<string>)
    requires s.For? && g != [] && h != [] && CheckS(s, g).Some? && SettledS(s, g, false) && ShapedS(s)
    requires BoundS(s, names) && Known(h, names) && Covers(g, h)
    ensures TypeS(s, h).Some?
    decreases s, 1
  {
    var g0, h0 := [map[]] + g, [map[]] + h;
    CoversPush(g, h, names);
    if s.first.Some? { SettledTypedS(s.first.value, g0, h0, false, names); }
    var inner := names + Declared(s.first);
    var g1 := if s.first.Some? then CheckS(s.first.value, g0).value.1 else g0;
    var h1 := if s.first.Some? then TypeS(s.first.value, h0).value.1 else h0;
    SettledTypedE(s.test, g1, h1, false, true, inner);
    if s.post.Some? { SettledTypedS(s.post.value, g1, h1, false, inner); }
    CoversPush(g1, h1, inner);
    SettledTypedB(s.body, g1, [map[]] + h1, false, inner);
  }

  /** Every program that the checker accepts, that compiles and that is settled is well typed in
      the strict sense. */
  lemma AcceptedSettled(prog: Block)
    requires Accepted(prog) && GenProgram(prog).Gen? && Settled(prog) && ShapedB(prog)
    ensures WellTyped(prog)
  {
    assert Within(TOP.scopes, {});
    GenBoundB(prog, TOP, 0, 0, NoLoop, {});
    SettledTypedB(prog, Globals(prog), [map[]], false, {});
  }

  /** So it never meets an operator or condition on which evaluator and VM disagree, and the
      machine stops exactly when the program does. */
  lemma AcceptedRuns(prog: Block, globals: seq<Value>, fuel: nat)
    requires Accepted(prog) && Settled(prog) && ShapedB(prog) && Fitting(prog) && |globals| == GLOBALS_SIZE
    ensures !ExecStmts(prog, [map[]], fuel).Stuck?
    ensures (exists n: nat, st: State :: StopsAt(Stepper(MainFrame(prog)), State(0, [], globals), n, st))
       <==> (exists fuel: nat :: ExecStmts(prog, [map[]], fuel).Val?)
  {
    AcceptedSettled(prog);
    TypedNotStuck(prog, fuel);
    StopsIffTerminates(prog, globals);
  }

  // ---------- without the condition ----------

  /** An if without alternative as operand of `&&` or `||`: evaluator and VM part exactly when its
      condition is false; then the evaluator has an error and the VM a result. */
  lemma OneArmedOperand(op: InfixOp, c: Expr, a: Block, r: Expr, s: Store, fuel: nat)
    requires (op == And || op == Or)
    requires var o := EvalE(c, s, fuel); o.Val? && o.v.BoolV?
    requires var o := EvalE(If(c, a, None, false), s, fuel); o.Val? && (EvalE(c, s, fuel).v.b ==> o.v.BoolV?)
    requires var o := EvalE(r, EvalE(If(c, a, None, false), s, fuel).s, fuel); o.Val? && o.v.BoolV?
    ensures var l := If(c, a, None, false); var v := EvalE(l, s, fuel).v;
      var w := EvalE(r, EvalE(l, s, fuel).s, fuel).v;
      && (VmInfix(op, v, w) != EvalInfix(op, v, w) <==> !EvalE(c, s, fuel).v.b)
      && (!EvalE(c, s, fuel).v.b ==> v == NullV && EvalInfix(op, v, w) == Err && VmInfix(op, v, w).Ok?)
      && (EvalE(Infix(op, l, r), s, fuel).Stuck? <==> !EvalE(c, s, fuel).v.b)
  {
  }

  /** The same on the right. */
  lemma OneArmedRight(op: InfixOp, l: Expr, c: Expr, a: Block, s: Store, fuel: nat)
    requires (op == And || op == Or)
    requires var o := EvalE(l, s, fuel); o.Val? && o.v.BoolV?
    requires var s1 := EvalE(l, s, fuel).s; var o := EvalE(c, s1, fuel);
      var i := EvalE(If(c, a, None, false), s1, fuel);
      o.Val? && o.v.BoolV? && i.Val? && (o.v.b ==> i.v.BoolV?)
    ensures var s1 := EvalE(l, s, fuel).s; var i := If(c, a, None, false);
      var v, w, b := EvalE(l, s, fuel).v, EvalE(i, s1, fuel).v, EvalE(c, s1, fuel).v.b;
      && (VmInfix(op, v, w) != EvalInfix(op, v, w) <==> !b)
      && (!b ==> w == NullV && EvalInfix(op, v, w) == Err && VmInfix(op, v, w).Ok?)
      && (EvalE(Infix(op, l, i), s, fuel).Stuck? <==> !b)
  {
  }

  /** The same as condition: the two take different branches exactly when it is false. */
  lemma OneArmedCondition(c: Expr, a: Block, s: Store, fuel: nat)
    requires var o := EvalE(c, s, fuel); o.Val? && o.v.BoolV?
    requires var o := EvalE(If(c, a, None, false), s, fuel); o.Val? && (EvalE(c, s, fuel).v.b ==> o.v.BoolV?)
    ensures var v := EvalE(If(c, a, None, false), s, fuel).v;
      (VmTruthy(v) != EvalTruthy(v) <==> !EvalE(c, s, fuel).v.b)
        && (VmPrefix(Not, v) != EvalPrefix(Not, v) <==> !EvalE(c, s, fuel).v.b)
  {
  }

  /** An if whose branches have types bool and int, accepted where its value is discarded although
      the block around it is used: as either operand of `&&` or `||`, evaluator and VM part exactly
      when its condition is false. */
  lemma MixedArmsOperand(op: InfixOp, c: Expr, a: Block, b: Block, other: Value, s: Store, fuel: nat)
    requires (op == And || op == Or) && other.BoolV?
    requires var o := EvalE(c, s, fuel); o.Val? && o.v.BoolV?
    requires var o := EvalE(If(c, a, Some(b), false), s, fuel);
      o.Val? && if EvalE(c, s, fuel).v.b then o.v.BoolV? else o.v.IntV?
    ensures var v, yes := EvalE(If(c, a, Some(b), false), s, fuel).v, EvalE(c, s, fuel).v.b;
      && (VmInfix(op, v, other) != EvalInfix(op, v, other) <==> !yes)
      && (VmInfix(op, other, v) != EvalInfix(op, other, v) <==> !yes)
      && (!yes ==> EvalInfix(op, v, other) == Err && VmInfix(op, v, other).Ok?)
  {
    OperatorsAgree(op, EvalE(If(c, a, Some(b), false), s, fuel).v, other);
    OperatorsAgree(op, other, EvalE(If(c, a, Some(b), false), s, fuel).v);
  }

  /** A declaration without value that hides a variable of type `before`: the checker goes on with
      that type, evaluator and VM with the zero value of the annotated type `ty`. In whatever
      operation the checker then accepts, the two part exactly for `&&` and `||` of a variable
      annotated with another type. */
  lemma HiddenOperand(x: string, ty: Ty, before: Ty, g: Env, op: InfixOp, w: Value, s: Store, fuel: nat)
    requires g != [] && s != [] && x !in g[0] && LookupTy(g, x) == Some(before) && before != TUnit && ty != TUnit
    requires CheckInfix(op, before, before).Some? && Has(w, before)
    ensures var d := VarDecl(false, x, Some(ty), None); var z := Zero(Some(ty));
      && CheckS(d, g).Some? && CheckE(Ident(x), CheckS(d, g).value.1, true) == Some(before)
      && ExecS(d, s, fuel).Val? && EvalE(Ident(x), ExecS(d, s, fuel).s, fuel) == Val(z, ExecS(d, s, fuel).s)
      && (VmInfix(op, z, w) != EvalInfix(op, z, w) <==> op in {And, Or} && ty != before)
      && (VmInfix(op, w, z) != EvalInfix(op, w, z) <==> op in {And, Or} && ty != before)
      && (SettledS(d, g, false) <==> ty == before)
  {
    OperatorsAgree(op, Zero(Some(ty)), w);
    OperatorsAgree(op, w, Zero(Some(ty)));
  }

  const TRUE_BLOCK: Block := Seq(ExprStmt(BoolLit(true)), Empty)

  /** `(if (false) { true }) && true` is accepted; the evaluator reports a type mismatch and the
      VM computes true. */
  lemma AcceptedButDisputed()
    ensures var l := If(BoolLit(false), TRUE_BLOCK, None, false); var e := Infix(And, l, BoolLit(true));
      && Accepted(Seq(ExprStmt(e), Empty)) && !Settled(Seq(ExprStmt(e), Empty))
      && EvalE(l, [map[]], 0) == Val(NullV, [map[]])
      && EvalInfix(And, NullV, BoolV(true)) == Err && VmInfix(And, NullV, BoolV(true)) == Ok(BoolV(true))
  {
    var g: Env := [map[]];
    assert CheckS(ExprStmt(BoolLit(true)), [map[]] + g) == Some((TBool, [map[]] + g));
    assert CheckB(TRUE_BLOCK, [map[]] + g) == Some(TBool);
    var l := If(BoolLit(false), TRUE_BLOCK, None, false);
    assert CheckE(l, g, true) == Some(TBool);
    assert !SettledE(l, g, true);
  }

  function Just(e: Expr): Block { Seq(ExprStmt(e), Empty) }

  function AndTrue(x: string): Expr { Infix(And, Ident(x), BoolLit(true)) }

  lemma JustOne(e: Expr, g: Env, s: Store, fuel: nat)
    requires g != []
    ensures CheckB(Just(e), g) == CheckE(e, g, true) && ExecStmts(Just(e), s, fuel) == EvalE(e, s, fuel)
    ensures SettledB(Just(e), g, true) == SettledE(e, g, true)
  {
    assert Just(e).tail == Empty && SettledB(Empty, g, true);
  }

  /** `x && true` where the checker takes `x` for a bool and it is an int. */
  lemma LogicOnInt(x: string, n: int, g: Env, s: Store, fuel: nat)
    requires g != [] && LookupTy(g, x) == Some(TBool) && Lookup(s, x) == Some(IntV(n))
    ensures CheckB(Just(AndTrue(x)), g) == Some(TBool) && ExecStmts(Just(AndTrue(x)), s, fuel).Stuck?
    ensures EvalInfix(And, IntV(n), BoolV(true)) == Err && VmInfix(And, IntV(n), BoolV(true)) == Ok(BoolV(true))
  {
    JustOne(AndTrue(x), g, s, fuel);
    assert CheckE(Ident(x), g, true) == Some(TBool) && CheckE(BoolLit(true), g, true) == Some(TBool);
    assert EvalE(Ident(x), s, fuel) == Val(IntV(n), s) && EvalE(BoolLit(true), s, fuel) == Val(BoolV(true), s);
  }

  function Hiding(x: string): Block { Seq(VarDecl(false, x, Some(TInt), None), Just(AndTrue(x))) }

  /** Where `x` is known as bool, a block that hides it with an int is accepted but not settled,
      and it comes to `0 && true`. */
  lemma HidingBlock(x: string, g: Env, s: Store, fuel: nat)
    requires g != [] && LookupTy(g, x) == Some(TBool)
    ensures CheckB(Hiding(x), [map[]] + g) == Some(TBool) && !SettledB(Hiding(x), [map[]] + g, false)
    ensures ExecBlock(Hiding(x), s, fuel).Stuck?
  {
    var d, g1: Env := Hiding(x).head, [map[]] + g;
    assert g1[1..] == g;
    var g2: Env := [map[x := TBool]] + g;
    assert CheckS(d, g1) == Some((TUnit, g2));
    var s1 := Declare([map[]] + s, x, IntV(0));
    assert ExecS(d, [map[]] + s, fuel) == Val(NullV, s1);
    LogicOnInt(x, 0, g2, s1, fuel);
  }

  function Outer(x: string): Stmt { VarDecl(false, x, Some(TBool), Some(BoolLit(true))) }

  function Inner(x: string): Stmt { ExprStmt(If(BoolLit(true), Hiding(x), None, false)) }

  lemma InnerStuck(x: string, g: Env, s: Store, fuel: nat)
    requires g != [] && LookupTy(g, x) == Some(TBool)
    ensures CheckS(Inner(x), g) == Some((TBool, g)) && !SettledS(Inner(x), g, false) && ExecS(Inner(x), s, fuel).Stuck?
  {
    HidingBlock(x, g, s, fuel);
    assert CheckE(BoolLit(true), g, true) == Some(TBool) && EvalE(BoolLit(true), s, fuel) == Val(BoolV(true), s);
  }

  /** `mut bool x = true; if (true) { mut int x; x && true }` is accepted, not settled, and comes
      to `0 && true`, an error in the evaluator and true on the VM. */
  lemma HiddenButAccepted(x: string, fuel: nat)
    ensures var prog := Seq(Outer(x), Seq(Inner(x), Empty));
      Accepted(prog) && !Settled(prog) && ExecStmts(prog, [map[]], fuel).Stuck?
  {
    var g: Env := [map[x := TBool]];
    assert Hoisted(Seq(Inner(x), Empty), map[x := TBool]) == Some(map[x := TBool]);
    assert Globals(Seq(Outer(x), Seq(Inner(x), Empty))) == g;
    var s: Store := [map[x := BoolV(true)]];
    assert ExecS(Outer(x), [map[]], fuel) == Val(NullV, s);
    InnerStuck(x, g, s, fuel);
    assert CheckS(Outer(x), g) == Some((TUnit, g));
    assert CheckB(Seq(Inner(x), Empty), g) == Some(TBool) && !SettledB(Seq(Inner(x), Empty), g, false);
    assert ExecStmts(Seq(Inner(x), Empty), s, fuel).Stuck?;
  }

  /** So is the program with the two statements exchanged, since annotated declarations are known
      from the beginning. */
  lemma HoistedButAccepted(x: string, fuel: nat)
    ensures var prog := Seq(Inner(x), Seq(Outer(x), Empty));
      Accepted(prog) && !Settled(prog) && ExecStmts(prog, [map[]], fuel).Stuck?
  {
    var g: Env := [map[x := TBool]];
    assert Hoisted(Seq(Outer(x), Empty), map[]) == Some(map[x := TBool]);
    assert Globals(Seq(Inner(x), Seq(Outer(x), Empty))) == g;
    InnerStuck(x, g, [map[]], fuel);
    assert CheckE(BoolLit(true), g, false) == Some(TBool) && KnownAs(g, x, Some(TBool)) == Some(TBool);
    assert CheckS(Outer(x), g) == Some((TUnit, g));
    assert Seq(Outer(x), Empty).tail == Empty && CheckB(Seq(Outer(x), Empty), g) == Some(TUnit);
  }

  function Spinning(x: string): Stmt { For(Some(Outer(x)), Ident(x), Some(Assign(x, BoolLit(false))), Hiding(x)) }

  /** `for (mut bool i = true; i; i = false) { mut int i; i && true }`: the body is checked in the
      scope of the loop variable, which its declaration therefore does not change. */
  lemma LoopVariableHidden(x: string, fuel: nat)
    requires fuel > 0
    ensures var prog := Seq(Spinning(x), Empty);
      Accepted(prog) && !Settled(prog) && ExecStmts(prog, [map[]], fuel).Stuck?
  {
    var g: Env := [map[]];
    LoopChecked(x, g);
    assert CheckB(Seq(Spinning(x), Empty), g) == Some(TUnit) && !SettledB(Seq(Spinning(x), Empty), g, false);
    assert Hoisted(Seq(Spinning(x), Empty), map[]) == Some(map[]);
    var s0: Store := [map[]];
    var s1: Store := [map[x := BoolV(true)]] + s0;
    assert ExecS(Outer(x), [map[]] + s0, fuel) == Val(NullV, s1);
    HidingBlock(x, [map[x := TBool]], s1, fuel);
    assert EvalE(Ident(x), s1, fuel) == Val(BoolV(true), s1);
    assert ExecLoop(Spinning(x), s1, fuel).Stuck?;
    assert ExecS(Spinning(x), s0, fuel).Stuck?;
  }

  lemma LoopChecked(x: string, g: Env)
    requires g == [map[]]
    ensures CheckS(Spinning(x), g) == Some((TUnit, g)) && !SettledS(Spinning(x), g, false)
  {
    var g0, g1: Env := [map[]] + g, [map[x := TBool]] + g;
    assert g0[1..] == g && g[1..] == [] && LookupTy(g, x) == None && LookupTy(g0, x) == None;
    assert CheckE(BoolLit(true), g0, false) == Some(TBool);
    assert CheckS(Outer(x), g0) == Some((TUnit, g1));
    assert CheckE(Ident(x), g1, false) == Some(TBool) && CheckE(BoolLit(false), g1, false) == Some(TBool);
    assert CheckS(Assign(x, BoolLit(false)), g1) == Some((TUnit, g1));
    assert CheckS(Hiding(x).head, g1) == Some((TUnit, g1)) && !SettledS(Hiding(x).head, g1, false);
    LogicOnInt(x, 0, g1, [map[x := IntV(0)]], 0);
    assert CheckB(Hiding(x), g1) == Some(TBool) && !SettledB(Hiding(x), g1, false);
  }

  const MIXED: Expr := If(BoolLit(false), Just(BoolLit(true)), Some(Just(IntLit(1))), false)
  const USED: Expr := If(BoolLit(true), Just(MIXED), Some(Just(BoolLit(false))), false)

  lemma MixedChecked(g: Env, s: Store, fuel: nat)
    requires g != []
    ensures CheckE(MIXED, g, true) == Some(TBool) && !SettledE(MIXED, g, true)
      && EvalE(MIXED, s, fuel) == Val(IntV(1), s)
  {
    var g1, s1 := [map[]] + g, [map[]] + s;
    assert s1[1..] == s;
    JustOne(BoolLit(true), g1, s1, fuel);
    JustOne(IntLit(1), g1, s1, fuel);
    assert EvalE(BoolLit(false), s, fuel) == Val(BoolV(false), s);
  }

  lemma UsedChecked(g: Env, s: Store, fuel: nat)
    requires g != []
    ensures CheckE(USED, g, false) == Some(TBool) && !SettledE(USED, g, true) && EvalE(USED, s, fuel) == Val(IntV(1), s)
  {
    var g1, s1 := [map[]] + g, [map[]] + s;
    assert s1[1..] == s;
    MixedChecked(g1, s1, fuel);
    hide MIXED;
    JustOne(MIXED, g1, s1, fuel);
    JustOne(BoolLit(false), g1, s1, fuel);
    assert CheckE(BoolLit(false), g1, true) == Some(TBool) && CheckE(BoolLit(true), g, false) == Some(TBool);
    assert EvalE(BoolLit(true), s, fuel) == Val(BoolV(true), s);
  }

  /** `const x = if (true) { if (false) { true } else { 1 } } else { false }; x && true` is accepted,
      not settled, and comes to `1 && true`. */
  lemma MixedButAccepted(x: string, fuel: nat)
    ensures var prog := Seq(VarDecl(true, x, None, Some(USED)), Just(AndTrue(x)));
      Accepted(prog) && !Settled(prog) && ExecStmts(prog, [map[]], fuel).Stuck?
  {
    var d := VarDecl(true, x, None, Some(USED));
    var g, g1: Env := [map[]], [map[x := TBool]];
    var s, s1: Store := [map[]], [map[x := IntV(1)]];
    UsedChecked(g, s, fuel);
    hide USED;
    assert g1 == [g[0][x := TBool]] + g[1..];
    assert g[1..] == [] && LookupTy(g[1..], x) == None && KnownAs(g, x, None) == None;
    assert CheckS(d, g) == Some((TUnit, g1)) && !SettledS(d, g, false);
    assert Hoisted(Just(AndTrue(x)), map[]) == Some(map[]) && Hoisted(Seq(d, Just(AndTrue(x))), map[]) == Some(map[]);
    assert ExecS(d, s, fuel) == Val(NullV, s1);
    LogicOnInt(x, 1, g1, s1, fuel);
  }
}
