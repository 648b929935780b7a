/** What the operators compute, said without saying how: 64-bit integers up to multiples of 2^64,
    division that truncates, one order, two truth values. */
module Arithmetic {
  import opened Language

  predicate InRange(n: int) { -TWO_63 <= n < TWO_63 }

  /** Equal up to a multiple of 2^64. */
  ghost predicate Congruent(a: int, b: int) { exists k: int :: a == b + k * TWO_64 }

  /** A number of the range and one congruent to it are the same if both are in the range. */
  lemma OnlyOneInRange(a: int, b: int)
    requires InRange(a) && InRange(b) && Congruent(a, b)
    ensures a == b
  {
    var k: int :| a == b + k * TWO_64;
  }

  lemma CongruentBack(a: int, b: int)
    requires Congruent(a, b)
    ensures Congruent(b, a)
  {
    var k: int :| a == b + k * TWO_64;
    assert b == a + (-k) * TWO_64;
  }

  lemma CongruentTrans(a: int, b: int, c: int)
    requires Congruent(a, b) && Congruent(b, c)
    ensures Congruent(a, c)
  {
    var k: int :| a == b + k * TWO_64;
    var j: int :| b == c + j * TWO_64;
    assert a == c + (k + j) * TWO_64;
  }

  lemma CongruentAdd(a: int, b: int, c: int, d: int)
    requires Congruent(a, b) && Congruent(c, d)
    ensures Congruent(a + c, b + d) && Congruent(a - c, b - d)
  {
    var k: int :| a == b + k * TWO_64;
    var j: int :| c == d + j * TWO_64;
    assert a + c == b + d + (k + j) * TWO_64;
    assert a - c == b - d + (k - j) * TWO_64;
  }

  /** Wrapping gives the number of the 64-bit range that is congruent, and there is only one. */
  lemma WrapExact(n: int, m: int)
    ensures InRange(Wrap(n)) && Congruent(Wrap(n), n)
    ensures m == Wrap(n) <==> InRange(m) && Congruent(m, n)
  {
    assert Wrap(n) == n + (-((n + TWO_63) / TWO_64)) * TWO_64;
    if InRange(m) && Congruent(m, n) {
      CongruentBack(Wrap(n), n);
      CongruentTrans(m, n, Wrap(n));
      OnlyOneInRange(m, Wrap(n));
    }
  }

  /** The number an operator of the evaluator computes. */
  function Number(op: InfixOp, a: int, b: int): int
    requires EvalInfix(op, IntV(a), IntV(b)).Ok? && EvalInfix(op, IntV(a), IntV(b)).value.IntV?
  {
    EvalInfix(op, IntV(a), IntV(b)).value.n
  }

  predicate Computes(op: InfixOp, a: int, b: int)
  {
    EvalInfix(op, IntV(a), IntV(b)).Ok? && EvalInfix(op, IntV(a), IntV(b)).value.IntV?
  }

  /** Sums, differences and products are those of the integers, taken into the range. */
  lemma SumsExact(a: int, b: int)
    ensures Computes(Add, a, b) && InRange(Number(Add, a, b)) && Congruent(Number(Add, a, b), a + b)
    ensures Computes(Sub, a, b) && InRange(Number(Sub, a, b)) && Congruent(Number(Sub, a, b), a - b)
    ensures Computes(Mul, a, b) && InRange(Number(Mul, a, b)) && Congruent(Number(Mul, a, b), a * b)
  {
    WrapExact(a + b, 0);
    WrapExact(a - b, 0);
    WrapExact(a * b, 0);
  }

  /** A number of the range is what an operator computes if it is congruent to the exact result. */
  lemma Result(a: int, n: int)
    requires InRange(a) && Congruent(a, n)
    ensures Wrap(n) == a
  {
    WrapExact(n, a);
  }

  /** Subtraction and addition undo each other. */
  lemma AddSubUndo(a: int, b: int)
    requires InRange(a) && InRange(b)
    ensures Number(Sub, Number(Add, a, b), b) == a && Number(Add, Number(Sub, a, b), b) == a
    ensures Number(Add, a, b) == Number(Add, b, a) && Number(Sub, a, b) == Number(Add, a, Number(Sub, 0, b))
  {
    var s, d, z := Wrap(a + b), Wrap(a - b), Wrap(0 - b);
    UndoAdd(a, b, s);
    UndoSub(a, b, d);
    WrapExact(0 - b, z);
    WrapExact(a - b, d);
    hide Wrap, Congruent;
    Itself(a);
    CongruentAdd(a, a, z, 0 - b);
    assert a + (0 - b) == a - b;
    CongruentBack(a + z, a - b);
    CongruentTrans(d, a - b, a + z);
    Result(d, a + z);
  }

  lemma UndoAdd(a: int, b: int, s: int)
    requires InRange(a) && InRange(b) && s == Wrap(a + b)
    ensures Wrap(s - b) == a
  {
    WrapExact(a + b, s);
    hide Wrap, Congruent;
    Itself(b);
    CongruentAdd(s, a + b, b, b);
    assert a + b - b == a;
    CongruentBack(s - b, a);
    Result(a, s - b);
  }

  lemma UndoSub(a: int, b: int, d: int)
    requires InRange(a) && InRange(b) && d == Wrap(a - b)
    ensures Wrap(d + b) == a
  {
    WrapExact(a - b, d);
    hide Wrap, Congruent;
    Itself(b);
    CongruentAdd(d, a - b, b, b);
    assert a - b + b == a;
    CongruentBack(d + b, a);
    Result(a, d + b);
  }

  lemma Itself(a: int)
    ensures Congruent(a, a)
  {
    assert a == a + 0 * TWO_64;
  }

  /** Multiplication is repeated addition. */
  lemma MulRepeats(a: int, b: int)
    requires InRange(a) && InRange(b)
    ensures Number(Mul, a, 0) == 0 && Number(Mul, a, b) == Number(Mul, b, a)
    ensures Number(Mul, a, b + 1) == Number(Add, Number(Mul, a, b), a)
  {
    hide Wrap;
    SumsExact(a, 0);
    SumsExact(a, b);
    SumsExact(a, b + 1);
    SumsExact(Wrap(a * b), a);
    Itself(a);
    assert a * 0 == 0;
    OnlyOneInRange(Wrap(a * 0), 0);
    assert a * b == b * a;
    var p := Wrap(a * b);
    CongruentAdd(p, a * b, a, a);
    CongruentTrans(Wrap(p + a), p + a, a * b + a);
    assert a * b + a == a * (b + 1);
    CongruentBack(Wrap(a * (b + 1)), a * (b + 1));
    CongruentTrans(Wrap(p + a), a * (b + 1), Wrap(a * (b + 1)));
    OnlyOneInRange(Wrap(p + a), Wrap(a * (b + 1)));
  }

  /** Quotient and remainder: the remainder is smaller than the divisor and has the sign of the
      dividend, and together they give the dividend back, but for the one quotient that is not in
      the range. Division by zero is an error. */
  lemma DivisionExact(a: int, b: int)
    requires InRange(a) && InRange(b)
    ensures Computes(Div, a, b) == Computes(Mod, a, b) == (b != 0)
    ensures b == 0 ==> EvalInfix(Div, IntV(a), IntV(b)) == Err && EvalInfix(Mod, IntV(a), IntV(b)) == Err
    ensures b != 0 ==> var q, r := Number(Div, a, b), Number(Mod, a, b);
      && (if b > 0 then -b < r < b else b < r < -b) && (a >= 0 ==> r >= 0) && (a <= 0 ==> r <= 0)
      && InRange(q) && Congruent(a, q * b + r)
      && (a == q * b + r <==> !(a == -TWO_63 && b == -1))
  {
    if b != 0 {
      var q, r := TruncDiv(a, b), TruncMod(a, b);
      TruncExact(a, b);
      if a == -TWO_63 && b == -1 {
        assert q == TWO_63 && Wrap(q) == -TWO_63 && r == 0;
        assert a == Wrap(q) * b + r + (-1) * TWO_64;
      } else {
        QuotientInRange(a, b, q, r);
        assert Wrap(q) == q && Wrap(r) == r;
        Itself(a);
      }
    }
  }

  lemma TruncExact(a: int, b: int)
    requires b != 0
    ensures var q, r := TruncDiv(a, b), TruncMod(a, b);
      && a == q * b + r && (if b > 0 then -b < r < b else b < r < -b) && (a >= 0 ==> r >= 0) && (a <= 0 ==> r <= 0)
  {
    var m := if a >= 0 then a else -a;
    Euclid(m, b);
    var q := m / b;
    Opposite(b, q);
  }

  lemma Euclid(m: int, b: int)
    requires m >= 0 && b != 0
    ensures var r := m - b * (m / b); 0 <= r && (if b > 0 then r < b else r < -b) && m == (m / b) * b + r
  {
    assert m == b * (m / b) + m % b;
  }

  lemma Opposite(b: int, q: int)
    ensures b * -q == -(b * q) && -q * b == -(b * q) && q * b == b * q
  {
  }

  lemma QuotientInRange(a: int, b: int, q: int, r: int)
    requires InRange(a) && InRange(b) && b != 0 && a == q * b + r && (if b > 0 then -b < r < b else b < r < -b)
    requires (a >= 0 ==> r >= 0) && (a <= 0 ==> r <= 0) && !(a == -TWO_63 && b == -1)
    ensures InRange(q) && InRange(r)
  {
    if b == 1 { assert q == a; }
    else if b == -1 { assert q == -a; }
    else {
      var p := q * b;
      assert -TWO_63 <= p <= TWO_63;
      if q >= TWO_63 { Bigger(q, b); }
      if q < -TWO_63 { Bigger(q, b); }
    }
  }

  lemma Bigger(q: int, b: int)
    requires (q >= TWO_63 || q <= -TWO_63) && (b >= 2 || b <= -2)
    ensures q * b >= 2 * TWO_63 || q * b <= -2 * TWO_63
  {
    if q > 0 && b > 0 { assert q * b >= q * 2; }
    else if q > 0 { assert q * (-b) >= q * 2; assert q * (-b) == -(q * b); }
    else if b > 0 { assert (-q) * b >= (-q) * 2; assert (-q) * b == -(q * b); }
    else { assert (-q) * (-b) >= (-q) * 2; assert (-q) * (-b) == q * b; }
  }

  /** Whether a comparison or a logical operator says yes. */
  predicate Says(op: InfixOp, l: Value, r: Value) { EvalInfix(op, l, r) == Ok(BoolV(true)) }

  predicate Denies(op: InfixOp, l: Value, r: Value) { EvalInfix(op, l, r) == Ok(BoolV(false)) }

  /** One of less, equal and greater holds, and only one; the others are their negations. */
  lemma OrderExact(a: int, b: int)
    ensures var l, r := IntV(a), IntV(b);
      && (forall op :: op in {Eq, Ne, Lt, Le, Gt, Ge} ==> Says(op, l, r) != Denies(op, l, r))
      && (Says(Lt, l, r) <==> a < b) && (Says(Eq, l, r) <==> a == b) && (Says(Gt, l, r) <==> Says(Lt, r, l))
      && (Says(Ne, l, r) <==> Denies(Eq, l, r)) && (Says(Ge, l, r) <==> Denies(Lt, l, r))
      && (Says(Le, l, r) <==> Denies(Gt, l, r))
  {
  }

  /** Truth values: conjunction, disjunction and equality; everything else is an error. */
  lemma LogicExact(a: bool, b: bool, op: InfixOp)
    ensures var l, r := BoolV(a), BoolV(b);
      && (Says(And, l, r) <==> a && b) && (Denies(And, l, r) <==> !(a && b))
      && (Says(Or, l, r) <==> a || b) && (Denies(Or, l, r) <==> !(a || b))
      && (Says(Eq, l, r) <==> a == b) && (Says(Ne, l, r) <==> a != b) && Denies(Ne, l, r) == Says(Eq, l, r)
      && (op !in {And, Or, Eq, Ne} ==> EvalInfix(op, l, r) == Err)
  {
  }

  /** Operands of different kinds are unequal, and no other operator takes them. */
  lemma MixedExact(l: Value, r: Value, op: InfixOp)
    requires !SameKind(l, r)
    ensures Denies(Eq, l, r) && Says(Ne, l, r) && (op !in {Eq, Ne} ==> EvalInfix(op, l, r) == Err)
  {
  }

  /** The prefix operators: what is negated is undone by addition, and by itself. */
  lemma PrefixExact(a: int, b: bool)
    requires InRange(a)
    ensures EvalPrefix(Neg, IntV(a)).Ok? && EvalPrefix(Neg, IntV(a)).value.IntV?
    ensures var m := EvalPrefix(Neg, IntV(a)).value.n; Number(Add, a, m) == 0 && Number(Sub, 0, a) == m
    ensures EvalPrefix(Neg, BoolV(b)) == Err && EvalPrefix(Not, BoolV(b)) == Ok(BoolV(!b))
    ensures EvalPrefix(Not, IntV(a)) == Ok(BoolV(a == 0)) && EvalTruthy(BoolV(b)) == b && VmTruthy(BoolV(b)) == b
  {
    var m := Wrap(-a);
    AddSubUndo(0, a);
    hide Wrap;
    SumsExact(0, a);
    assert 0 - a == -a;
    AddSubUndo(a, Wrap(0 - a));
  }
}
