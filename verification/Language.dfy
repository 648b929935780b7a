/** The int/bool fragment of Sydney: syntax, values, the operators of the tree-walking
    evaluator and of the VM, a big-step semantics with block scoping, and typing. */
module Language {

  datatype Option<+T> = None | Some(value: T)

  // ---------- values and 64-bit arithmetic ----------

  datatype Value = IntV(n: int) | BoolV(b: bool) | NullV

  const TWO_63: int := 0x8000_0000_0000_0000
  const TWO_64: int := 0x1_0000_0000_0000_0000

  /** Go's int64 arithmetic wraps around. */
  function Wrap(n: int): (r: int)
    ensures -TWO_63 <= r < TWO_63
  {
    (n + TWO_63) % TWO_64 - TWO_63
  }

  /** Go's integer division truncates toward zero. */
  function TruncDiv(a: int, b: int): int
    requires b != 0
  {
    if a >= 0 then a / b else -((-a) / b)
  }

  function TruncMod(a: int, b: int): int
    requires b != 0
  {
    a - b * TruncDiv(a, b)
  }

  // ---------- syntax ----------

  datatype PrefixOp = Not | Neg

  datatype InfixOp = Add | Sub | Mul | Div | Mod | Eq | Ne | Gt | Ge | Lt | Le | And | Or

  datatype Ty = TInt | TBool | TUnit

  /** `unit` on an if-expression is the type checker's verdict that it has type Unit. */
  datatype Expr =
    | IntLit(n: int)
    | BoolLit(b: bool)
    | Ident(x: string)
    | Prefix(pop: PrefixOp, right: Expr)
    | Infix(op: InfixOp, left: Expr, rhs: Expr)
    | If(cond: Expr, cons: Block, alt: Option<Block>, unit: bool)

  datatype Stmt =
    | ExprStmt(e: Expr)
    | VarDecl(constant: bool, x: string, ty: Option<Ty>, init: Option<Expr>)
    | Assign(x: string, e: Expr)
    | For(first: Option<Stmt>, test: Expr, post: Option<Stmt>, body: Block)
    | Break
    | Continue

  datatype Block = Empty | Seq(head: Stmt, tail: Block)

  // ---------- operators: the evaluator's and the VM's ----------

  datatype Res = Ok(value: Value) | Err

  function EvalArith(op: InfixOp, a: int, b: int): Res
  {
    match op
    case Add => Ok(IntV(Wrap(a + b)))
    case Sub => Ok(IntV(Wrap(a - b)))
    case Mul => Ok(IntV(Wrap(a * b)))
    case Div => if b == 0 then Err else Ok(IntV(Wrap(TruncDiv(a, b))))
    case Mod => if b == 0 then Err else Ok(IntV(Wrap(TruncMod(a, b))))
    case Eq => Ok(BoolV(a == b))
    case Ne => Ok(BoolV(a != b))
    case Gt => Ok(BoolV(a > b))
    case Ge => Ok(BoolV(a >= b))
    case Lt => Ok(BoolV(a < b))
    case Le => Ok(BoolV(a <= b))
    case And => Err
    case Or => Err
  }

  /** The evaluator's infix operators. */
  function EvalInfix(op: InfixOp, l: Value, r: Value): Res
  {
    if l.IntV? && r.IntV? then EvalArith(op, l.n, r.n)
    else if op == Eq then Ok(BoolV(l == r))
    else if op == Ne then Ok(BoolV(l != r))
    else if op == And && l.BoolV? && r.BoolV? then Ok(BoolV(l.b && r.b))
    else if op == Or && l.BoolV? && r.BoolV? then Ok(BoolV(l.b || r.b))
    else Err
  }

  function EvalPrefix(op: PrefixOp, v: Value): Res
  {
    match op
    case Not => Ok(BoolV(v == BoolV(false) || v == NullV || v == IntV(0)))
    case Neg => if v.IntV? then Ok(IntV(Wrap(-v.n))) else Err
  }

  /** The evaluator treats null and false as false. */
  predicate EvalTruthy(v: Value) { v != NullV && v != BoolV(false) }

  /** The VM treats only false as false. */
  predicate VmTruthy(v: Value) { v != BoolV(false) }

  /** executeBinaryIntegerOperation */
  function VmIntegers(op: InfixOp, l: int, r: int): Res
    requires op in {Add, Sub, Mul, Div, Mod}
  {
    if op == Add then Ok(IntV(Wrap(l + r)))
    else if op == Sub then Ok(IntV(Wrap(l - r)))
    else if op == Mul then Ok(IntV(Wrap(l * r)))
    else if r == 0 then Err
    else Ok(IntV(Wrap(if op == Div then TruncDiv(l, r) else TruncMod(l, r))))
  }

  /** executeIntegerComparison */
  function VmOrders(op: InfixOp, l: int, r: int): Res
  {
    if op == Eq then Ok(BoolV(l == r))
    else if op == Ne then Ok(BoolV(l != r))
    else if op == Gt then Ok(BoolV(l > r))
    else if op == Ge then Ok(BoolV(l >= r))
    else Err
  }

  /** executeBinaryOperation on the operands `l` (below) and `r` (on top). */
  function VmBinary(op: InfixOp, l: Value, r: Value): Res
    requires op in {Add, Sub, Mul, Div, Mod}
  {
    if l.IntV? && r.IntV? then VmIntegers(op, l.n, r.n) else Err
  }

  /** executeComparison. */
  function VmCompare(op: InfixOp, l: Value, r: Value): Res
    requires op in {Eq, Ne, Gt, Ge, And, Or}
  {
    if l.IntV? && r.IntV? then VmOrders(op, l.n, r.n)
    else if l == r == NullV then Err
    else match op
      case Eq => Ok(BoolV(l == r))
      case Ne => Ok(BoolV(l != r))
      case And => Ok(BoolV(VmTruthy(l) && VmTruthy(r)))
      case Or => Ok(BoolV(VmTruthy(l) || VmTruthy(r)))
      case _ => Err
  }

  function VmPrefix(op: PrefixOp, v: Value): Res
  {
    match op
    case Not => Ok(BoolV(v == BoolV(false) || v == IntV(0)))
    case Neg => if v.IntV? then Ok(IntV(Wrap(-v.n))) else Err
  }

  /** What the compiled code of `l op r` computes: < and <= become > and >= on swapped operands. */
  function VmInfix(op: InfixOp, l: Value, r: Value): Res
  {
    match op
    case Lt => VmCompare(Gt, r, l)
    case Le => VmCompare(Ge, r, l)
    case Eq => VmCompare(op, l, r)
    case Ne => VmCompare(op, l, r)
    case Gt => VmCompare(op, l, r)
    case Ge => VmCompare(op, l, r)
    case And => VmCompare(op, l, r)
    case Or => VmCompare(op, l, r)
    case _ => VmBinary(op, l, r)
  }

  predicate SameKind(l: Value, r: Value)
  {
    (l.IntV? && r.IntV?) || (l.BoolV? && r.BoolV?) || (l.NullV? && r.NullV?)
  }

  /** The two implementations give an infix operator different meanings exactly here. */
  predicate Disputed(op: InfixOp, l: Value, r: Value)
  {
    || (op in {Eq, Ne} && l.NullV? && r.NullV?)
    || (op in {And, Or} && !SameKind(l, r))
  }

  lemma OperatorsAgree(op: InfixOp, l: Value, r: Value)
    ensures VmInfix(op, l, r) == EvalInfix(op, l, r) <==> !Disputed(op, l, r)
  {
  }

  lemma PrefixAgrees(op: PrefixOp, v: Value)
    ensures VmPrefix(op, v) == EvalPrefix(op, v) <==> !(op == Not && v == NullV)
    ensures VmTruthy(v) == EvalTruthy(v) <==> v != NullV
  {
  }

  // ---------- the store: one map per open scope, innermost first ----------

  type Store = seq<map<string, Value>>

  function Lookup(s: Store, x: string): Option<Value>
  {
    if s == [] then None
    else if x in s[0] then Some(s[0][x])
    else Lookup(s[1..], x)
  }

  function Update(s: Store, x: string, v: Value): (r: Store)
    ensures |r| == |s|
  {
    if s == [] then s
    else if x in s[0] then [s[0][x := v]] + s[1..]
    else [s[0]] + Update(s[1..], x, v)
  }

  function Declare(s: Store, x: string, v: Value): (r: Store)
    requires s != []
    ensures |r| == |s|
  {
    [s[0][x := v]] + s[1..]
  }

  // ---------- big-step semantics ----------

  /** Stuck marks an operator applied where evaluator and VM disagree; well-typed programs
      never reach it. Timeout means that `fuel` loop iterations were not enough. */
  datatype Out =
    | Val(v: Value, s: Store)
    | Brk(s: Store)
    | Cnt(s: Store)
    | Fail
    | Stuck
    | Timeout

  function FromRes(r: Res, s: Store): Out
  {
    match r case Ok(v) => Val(v, s) case Err => Fail
  }

  function Pop(o: Out): Out
  {
    match o
    case Val(v, s) => if s == [] then Stuck else Val(v, s[1..])
    case Brk(s) => if s == [] then Stuck else Brk(s[1..])
    case Cnt(s) => if s == [] then Stuck else Cnt(s[1..])
    case _ => o
  }

  predicate Swapped(op: InfixOp) { op == Lt || op == Le }

  /** The zero value of an annotated type, null for all others. */
  function Zero(t: Option<Ty>): Value
  {
    match t
    case Some(TInt) => IntV(0)
    case Some(TBool) => BoolV(false)
    case _ => NullV
  }

  function EvalE(e: Expr, s: Store, fuel: nat): Out
    decreases fuel, e, 0
  {
    match e
    case IntLit(n) => Val(IntV(n), s)
    case BoolLit(b) => Val(BoolV(b), s)
    case Ident(x) => (match Lookup(s, x) case Some(v) => Val(v, s) case None => Stuck)
    case Prefix(op, r) =>
      var o := EvalE(r, s, fuel);
      if !o.Val? then o
      else if op == Not && o.v == NullV then Stuck
      else FromRes(EvalPrefix(op, o.v), o.s)
    case Infix(op, l, r) =>
      var o1 := EvalE(l, s, fuel);
      if Swapped(op) && EvalE(r, s, fuel).Stuck? then Stuck
      else if !o1.Val? then o1
      else
        var o2 := EvalE(r, o1.s, fuel);
        if !o2.Val? then o2
        else if Disputed(op, o1.v, o2.v) then Stuck
        else FromRes(EvalInfix(op, o1.v, o2.v), o2.s)
    case If(c, a, b, unit) =>
      var o := EvalE(c, s, fuel);
      if !o.Val? then o
      else if o.v == NullV then Stuck
      else if EvalTruthy(o.v) then Valued(unit, ExecBlock(a, o.s, fuel))
      else match b
        case None => Val(NullV, o.s)
        case Some(blk) => Valued(unit, ExecBlock(blk, o.s, fuel))
  }

  /** An if-expression of type Unit has the value null. */
  function Valued(unit: bool, o: Out): Out
  {
    if unit && o.Val? then Val(NullV, o.s) else o
  }

  function ExecBlock(b: Block, s: Store, fuel: nat): Out
    decreases fuel, b, 1
  {
    Pop(ExecStmts(b, [map[]] + s, fuel))
  }

  /** The value of a statement list is the value of its last statement. */
  function ExecStmts(b: Block, s: Store, fuel: nat): Out
    decreases fuel, b, 0
  {
    match b
    case Empty => Val(NullV, s)
    case Seq(h, t) =>
      var o := ExecS(h, s, fuel);
      if !o.Val? || t.Empty? then o else ExecStmts(t, o.s, fuel)
  }

  function ExecS(st: Stmt, s: Store, fuel: nat): Out
    decreases fuel, st, 1
  {
    match st
    case ExprStmt(e) => EvalE(e, s, fuel)
    case VarDecl(_, x, ty, init) =>
      var o := match init case None => Val(Zero(ty), s) case Some(e) => EvalE(e, s, fuel);
      if !o.Val? then o
      else if o.s == [] then Stuck
      else Val(NullV, Declare(o.s, x, o.v))
    case Assign(x, e) =>
      var o := EvalE(e, s, fuel);
      if !o.Val? then o
      else Val(NullV, Update(o.s, x, o.v))
    case For(first, _, _, _) =>
      var o := ExecOpt(first, [map[]] + s, fuel);
      Pop(if o.Val? then ExecLoop(st, o.s, fuel) else o)
    case Break => Brk(s)
    case Continue => Cnt(s)
  }

  function ExecOpt(st: Option<Stmt>, s: Store, fuel: nat): Out
    decreases fuel, st, 1
  {
    match st case None => Val(NullV, s) case Some(p) => ExecS(p, s, fuel)
  }

  /** `for`: test, body, post; break leaves the loop, continue goes to post. */
  function ExecLoop(f: Stmt, s: Store, fuel: nat): Out
    requires f.For?
    decreases fuel, f, 0
  {
    if fuel == 0 then Timeout else
    var o := EvalE(f.test, s, fuel);
    if !o.Val? then o
    else if !o.v.BoolV? then Stuck
    else if !o.v.b then Val(NullV, o.s)
    else
      var ob := ExecBlock(f.body, o.s, fuel);
      if ob.Brk? then Val(NullV, ob.s)
      else if !ob.Val? && !ob.Cnt? then ob
      else
        var op := ExecOpt(f.post, ob.s, fuel);
        if !op.Val? then op else ExecLoop(f, op.s, fuel - 1)
  }
}
