/** What a call computes, without saying how: arguments are bound in order, and sums are sums. */
module CallLaws {
  import opened Language
  import opened Arithmetic
  import opened Closures

  /** `fn(x, y) { x + (x + y) }(a, b)` */
  function Weighted(x: string, y: string, a: int, b: int): Term
  {
    App(Fn("", [x, y], Plus(Var(x), Plus(Var(x), Var(y)))), TCons(Num(a), TCons(Num(b), TNil)))
  }

  /** It is the one number in the 64-bit range congruent to a + a + b. */
  lemma CallMeans(x: string, y: string, a: int, b: int, s: Scope, fuel: nat)
    requires x != y && fuel > 0
    ensures var r := Eval(Weighted(x, y, a, b), s, fuel);
      r.Gave? && r.v.VNum? && InRange(r.v.n) && Congruent(r.v.n, a + a + b)
  {
    var body := Plus(Var(x), Plus(Var(x), Var(y)));
    var c, vs := VFn("", [x, y], body, Append(s.own, s.captured)), [VNum(a), VNum(b)];
    var s1 := Inside(c, vs, s);
    assert vs[1..] == [VNum(b)] && [x, y][1..] == [y];
    assert s1.own == BindAll([y], [VNum(b)], Bind(x, Held(VNum(a)), Nothing));
    BindOne(y, VNum(b), Bind(x, Held(VNum(a)), Nothing));
    assert s1.own == Bind(y, Held(VNum(b)), Bind(x, Held(VNum(a)), Nothing));
    assert Find(Bind(x, Held(VNum(a)), Nothing), x) == Some(Held(VNum(a)));
    assert Content(s1, x) == Some(VNum(a)) && Content(s1, y) == Some(VNum(b));
    SumMeans(x, y, a, b, s1, fuel - 1);
    assert Eval(Num(a), s, fuel) == Gave(VNum(a), s) && Eval(Num(b), s, fuel) == Gave(VNum(b), s);
    assert EvalArgs(TNil, s, fuel) == Gave([], s) && [VNum(b)] + [] == [VNum(b)];
    assert EvalArgs(TCons(Num(b), TNil), s, fuel) == Gave([VNum(b)], s);
    assert EvalArgs(TCons(Num(a), TCons(Num(b), TNil)), s, fuel) == Gave([VNum(a)] + [VNum(b)], s);
    assert [VNum(a)] + [VNum(b)] == vs;
    assert Eval(Fn("", [x, y], body), s, fuel) == Gave(c, s);
  }

  lemma BindOne(x: string, v: Val, env: Env)
    ensures BindAll([x], [v], env) == Bind(x, Held(v), env)
  {
    assert [x][1..] == [] && [v][1..] == [];
    assert BindAll([x][1..], [v][1..], Bind(x, Held(v), env)) == Bind(x, Held(v), env);
  }

  lemma SumMeans(x: string, y: string, a: int, b: int, s: Scope, fuel: nat)
    requires Content(s, x) == Some(VNum(a)) && Content(s, y) == Some(VNum(b))
    ensures var r := Eval(Plus(Var(x), Plus(Var(x), Var(y))), s, fuel);
      r.Gave? && r.v.VNum? && InRange(r.v.n) && Congruent(r.v.n, a + a + b)
  {
    hide Wrap;
    var i := Eval(Plus(Var(x), Var(y)), s, fuel);
    assert Eval(Var(x), s, fuel) == Gave(VNum(a), s) && Eval(Var(y), s, fuel) == Gave(VNum(b), s);
    assert i == Gave(VNum(Wrap(a + b)), s);
    WrapExact(a + b, Wrap(a + b));
    WrapExact(a + Wrap(a + b), Wrap(a + Wrap(a + b)));
    assert Congruent(a, a) by { assert a == a + 0 * TWO_64; }
    CongruentAdd(a, a, Wrap(a + b), a + b);
    CongruentTrans(Wrap(a + Wrap(a + b)), a + Wrap(a + b), a + (a + b));
  }
}
