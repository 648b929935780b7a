/** What the emitted lines of the usual constructs execute, for straight-line parts: which arm a
    branch leads to, how often a loop turns, and where break and continue lead. */
module IrLaws {
  import opened Language
  import opened IrBlocks
  import opened IrCode
  import opened IrRuns
  import opened IrSimulation
  import M = Machine

  /** With these outcomes, all of them taken, the function gets to a return having executed `trace`. */
  ghost predicate Executes(b: Body, outs: seq<bool>, trace: seq<Instr>)
  {
    exists n, r :: M.Reaches(Stepper(GenFunction(b)), Ip(0, Log(outs, [])), n, r) && r.s == Log([], trace)
      && r.pc < |GenFunction(b)| && GenFunction(b)[r.pc] == Ret
  }

  lemma Executed(b: Body, outs: seq<bool>, trace: seq<Instr>, f: nat)
    requires InLoopsB(b, false) && DoB(b, Log(outs, []), f) == Did(Goes, Log([], trace))
    ensures Executes(b, outs, trace)
  {
    var n, r := FunctionMeans(b, outs, f);
  }

  function Plain(work: seq<Instr>): Node { Op(NoNodes, work) }

  function Just(c: Command): Body { Then(c, End) }

  function Line(work: seq<Instr>): Body { Just(Eval(Plain(work))) }

  lemma PlainDoes(work: seq<Instr>, s: Log, f: nat)
    ensures DoN(Plain(work), s, f) == Doing(s, work) && DoB(Line(work), s, f) == Doing(s, work)
      && DoC(Eval(Plain(work)), s, f) == Doing(s, work)
  { }

  lemma PlainIn(work: seq<Instr>, loop: bool)
    ensures InLoopsE(Plain(work), loop) && InLoopsB(Line(work), loop) && InLoopsC(Eval(Plain(work)), loop)
  { }

  lemma ThenDoes(c: Command, b: Body, s: Log, f: nat)
    ensures DoB(Then(c, b), s, f) == var d := DoC(c, s, f); if d.how.Goes? then DoB(b, d.s, f) else d
  {
    hide DoC;
  }

  lemma ThenIn(c: Command, b: Body, loop: bool)
    ensures InLoopsB(Then(c, b), loop) == (InLoopsC(c, loop) && InLoopsB(b, loop))
  {
    hide InLoopsC;
  }

  lemma EvalIn(e: Node, loop: bool)
    ensures InLoopsC(Eval(e), loop) == InLoopsE(e, loop)
  {
    hide InLoopsE;
  }

  lemma EvalDoes(e: Node, s: Log, f: nat)
    ensures DoB(Just(Eval(e)), s, f) == DoN(e, s, f)
    ensures InLoopsE(e, false) ==> InLoopsB(Just(Eval(e)), false)
  {
    hide DoN, InLoopsE;
  }

  /** The body of a branch with straight-line condition. */
  lemma IfDoes(c: seq<Instr>, x: Body, y: Option<Body>, s: Log, f: nat)
    requires s.outs != []
    ensures var s1 := Log(s.outs[1..], s.trace + c);
      DoN(Node.If(Plain(c), x, y, false), s, f)
        == if s.outs[0] then DoB(x, s1, f) else if y.Some? then DoB(y.value, s1, f) else Did(Goes, s1)
  {
    hide DoB;
    var s1 := Log(s.outs[1..], s.trace + c);
    PlainDoes(c, s, f);
    AlsoNothing(DoB(x, s1, f));
    AlsoNothing(Did(Goes, s1));
    if y.Some? { AlsoNothing(DoB(y.value, s1, f)); }
  }

  /** The first arm on true, the second on false. */
  lemma IfLaw(c: seq<Instr>, a: seq<Instr>, b: seq<Instr>, v: bool)
    ensures Executes(Just(Eval(Node.If(Plain(c), Line(a), Some(Line(b)), false))), [v], c + if v then a else b)
    ensures Executes(Just(Eval(Node.If(Plain(c), Line(a), None, false))), [v], c + if v then a else [])
  {
    hide Executes, DoN, DoB;
    var two, one := Node.If(Plain(c), Line(a), Some(Line(b)), false), Node.If(Plain(c), Line(a), None, false);
    var s, s1 := Log([v], []), Log([], c);
    PlainIn(a, false);
    PlainIn(b, false);
    PlainIn(c, false);
    PlainDoes(a, s1, 0);
    PlainDoes(b, s1, 0);
    assert [] + c == c && c + [] == c && s.outs[1..] == [];
    IfDoes(c, Line(a), Some(Line(b)), s, 0);
    IfDoes(c, Line(a), None, s, 0);
    EvalDoes(two, s, 0);
    EvalDoes(one, s, 0);
    Executed(Just(Eval(two)), [v], c + if v then a else b, 0);
    Executed(Just(Eval(one)), [v], c + if v then a else [], 0);
  }

  lemma ArmDoes(pre: seq<Instr>, a: seq<Instr>, valued: bool, s: Log, f: nat)
    ensures DoArm(pre, Line(a), valued, s, f) == Did(Goes, Log(s.outs, s.trace + pre + a + Kept(valued, Store)))
  {
    hide DoB;
    PlainDoes(a, Doing(s, pre).s, f);
  }

  /** The first arm of a match when the tag says ok or some, and the result stored and fetched. */
  lemma MatchLaw(x: seq<Instr>, a: seq<Instr>, b: seq<Instr>, v: bool)
    ensures Executes(Just(Eval(ResultMatch(Plain(x), Line(a), Line(b), true))), [v],
      x + [Tag, Tag] + [Bind, Bind, Bind] + (if v then a else b) + [Store] + [Fetch])
    ensures Executes(Just(Eval(OptionMatch(Plain(x), Line(a), Line(b), true))), [v],
      x + [Tag, Tag] + (if v then [Bind, Bind, Bind] + a else b) + [Store] + [Fetch])
  {
    hide Executes, DoC, DoB, DoArm, Doing;
    var m1, m2 := ResultMatch(Plain(x), Line(a), Line(b), true), OptionMatch(Plain(x), Line(a), Line(b), true);
    var s, t, pre := Log([v], []), Log([], x + [Tag, Tag]), [Bind, Bind, Bind];
    PlainIn(x, false);
    PlainIn(a, false);
    PlainIn(b, false);
    SubjectDoes(x, v);
    ArmDoes(pre, a, true, t, 0);
    ArmDoes(pre, b, true, t, 0);
    ArmDoes([], b, true, t, 0);
    FetchDoes(Log([], t.trace + pre + a + [Store]));
    FetchDoes(Log([], t.trace + pre + b + [Store]));
    FetchDoes(Log([], t.trace + [] + b + [Store]));
    EvalDoes(m1, s, 0);
    EvalDoes(m2, s, 0);
    assert t.trace + pre + a == t.trace + (pre + a) && t.trace + [] == t.trace;
    Executed(Just(Eval(m1)), [v], t.trace + pre + (if v then a else b) + [Store] + [Fetch], 0);
    Executed(Just(Eval(m2)), [v], t.trace + (if v then pre + a else b) + [Store] + [Fetch], 0);
  }

  lemma SubjectDoes(x: seq<Instr>, v: bool)
    ensures var d := Also(DoN(Plain(x), Log([v], []), 0), [Tag, Tag]);
      Ready(d) && Answer(d) == v && Rest(d) == Log([], x + [Tag, Tag])
  {
    PlainDoes(x, Log([v], []), 0);
    assert [] + x == x;
  }

  lemma FetchDoes(s: Log)
    ensures Also(Did(Goes, s), [Fetch]) == Did(Goes, Log(s.outs, s.trace + [Fetch]))
  { }

  /** Two types tested in order, and the default. */
  lemma TypesLaw(x: seq<Instr>, a: seq<Instr>, b: seq<Instr>, c: seq<Instr>, outs: seq<bool>)
    requires outs == [true] || outs == [false, true] || outs == [false, false]
    ensures var t := x + [Tag, Tag] + [Tag];
      Executes(Just(Eval(TypeMatch(Plain(x), Bodies(Line(a), Bodies(Line(b), NoBodies)), Some(Line(c)), false))), outs,
        if outs[0] then t + [Bind, Bind] + a else if outs[1] then t + [Tag] + [Bind, Bind] + b else t + [Tag] + c)
  {
    hide Executes, DoC, DoB, DoArm, InLoopsE, InLoopsB;
    var m := TypeMatch(Plain(x), Bodies(Line(a), Bodies(Line(b), NoBodies)), Some(Line(c)), false);
    var t, s := x + [Tag, Tag] + [Tag], Log(outs, []);
    var t1 := Log(outs[1..], t);
    PlainIn(x, false);
    PlainIn(a, false);
    PlainIn(b, false);
    PlainIn(c, false);
    TypesIn(Plain(x), Line(a), Line(b), Line(c));
    PlainDoes(x, s, 0);
    assert [] + x == x;
    forall s: seq<Instr> ensures s + [] == s { }
    EvalDoes(m, s, 0);
    ArmDoes([Bind, Bind], a, false, t1, 0);
    if !outs[0] {
      var t2 := Log(outs[2..], t + [Tag]);
      assert outs[1..][1..] == outs[2..] == [];
      ArmDoes([Bind, Bind], b, false, t2, 0);
      ArmDoes([], c, false, t2, 0);
      SecondDoes(Line(b), t1);
    } else {
      assert outs[1..] == [];
    }
    Executed(Just(Eval(m)), outs,
      if outs[0] then t + [Bind, Bind] + a else if outs[1] then t + [Tag] + [Bind, Bind] + b else t + [Tag] + c, 0);
  }

  lemma TypesIn(x: Node, a: Body, b: Body, c: Body)
    requires InLoopsE(x, false) && InLoopsB(a, false) && InLoopsB(b, false) && InLoopsB(c, false)
    ensures InLoopsE(TypeMatch(x, Bodies(a, Bodies(b, NoBodies)), Some(c), false), false)
  {
    hide InLoopsB;
    var rest := Bodies(b, NoBodies);
    assert InLoopsA(rest, false);
    assert InLoopsA(Bodies(a, rest), false);
  }

  lemma SecondDoes(b: Body, s: Log)
    requires s.outs != []
    ensures var s' := Log(s.outs[1..], s.trace + [Tag]);
      DoArms(Bodies(b, NoBodies), false, s, 0)
        == if s.outs[0] then (DoArm([Bind, Bind], b, false, s', 0), true) else (Did(Goes, s'), false)
  {
    hide DoArm;
  }

  // ---------- loops ----------

  function Trues(k: nat): seq<bool> { if k == 0 then [] else [true] + Trues(k - 1) }

  function Times(work: seq<Instr>, k: nat): seq<Instr> { if k == 0 then [] else work + Times(work, k - 1) }

  function While(c: seq<Instr>, post: Option<seq<Instr>>, body: Body): Command
  {
    Command.For(None, Plain(c), if post.Some? then Some(Eval(Plain(post.value))) else None, body)
  }

  /** A loop turns as long as its condition is true: body, post clause, condition. */
  lemma LoopLaw(c: seq<Instr>, a: seq<Instr>, post: Option<seq<Instr>>, k: nat)
    ensures var p := if post.Some? then post.value else [];
      Executes(Just(While(c, post, Line(a))), Trues(k) + [false], c + Times(a + p + c, k))
  {
    hide Executes, DoB, Around, DoN, InLoopsB;
    var p := if post.Some? then post.value else [];
    var s, f := Log(Trues(k) + [false], []), 2 * k + 2;
    Turns(c, post, a, s, k, f - 1);
    assert [] + c + Times(a + p + c, k) == c + Times(a + p + c, k);
    LoopDoes(While(c, post, Line(a)), End, s, f);
    assert DoB(End, Log([], c + Times(a + p + c, k)), f) == Did(Goes,
      Log([], c + Times(a + p + c, k))) by { NoBody(f); }
    PlainIn(a, true);
    EndIn();
    WhileIn(c, post, Line(a), End);
    Executed(Just(While(c, post, Line(a))), s.outs, c + Times(a + p + c, k), f);
  }

  lemma NoBody(f: nat)
    ensures forall s :: DoB(End, s, f) == Did(Goes, s)
  { }

  lemma WhileIn(c: seq<Instr>, post: Option<seq<Instr>>, body: Body, rest: Body)
    requires InLoopsB(body, true) && InLoopsB(rest, false)
    ensures InLoopsB(Then(While(c, post, body), rest), false)
  {
    hide InLoopsE, InLoopsB;
    PlainIn(c, true);
    if post.Some? {
      EvalIn(Plain(post.value), true);
      PlainIn(post.value, true);
    }
    ThenIn(While(c, post, body), rest, false);
  }

  lemma LoopDoes(c: Command, rest: Body, s: Log, f: nat)
    requires c.For? && c.first.None? && f > 0
    ensures var d := Around(c, true, s, f - 1); DoB(Then(c, rest), s, f) == if d.how.Goes? then DoB(rest, d.s, f) else d
  {
    hide Around, DoB, DoLoop;
    ThenDoes(c, rest, s, f);
    StartsAround(c, s, f);
  }

  lemma StartsAround(c: Command, s: Log, f: nat)
    requires c.For? && c.first.None? && f > 0
    ensures DoLoop(c, s, f) == Around(c, true, s, f - 1)
  {
    hide Around;
  }

  /** One turn of the loop that has come to its body. */
  lemma {:induction false} Turns(c: seq<Instr>, post: Option<seq<Instr>>, a: seq<Instr>, s: Log, k: nat, f: nat)
    requires s.outs == Trues(k) + [false] && f > 2 * k
    ensures var p := if post.Some? then post.value else [];
      Around(While(c, post, Line(a)), true, s, f) == Did(Goes, Log([], s.trace + c + Times(a + p + c, k)))
    decreases k
  {
    hide DoB, DoN, DoOptC;
    var p := if post.Some? then post.value else [];
    var s1 := Log(s.outs[1..], s.trace + c);
    if k == 0 {
      assert s.outs == [false] && s1.outs == [];
      assert s.trace + c + [] == s.trace + c;
      Tested(c, post, Line(a), s, f);
    } else {
      assert s.outs[0] && s1.outs == Trues(k - 1) + [false];
      PlainDoes(a, s1, f);
      Tested(c, post, Line(a), s, f);
      var s2 := Doing(s1, a).s;
      var s3 := Log(s1.outs, s2.trace + p);
      if post.Some? {
        PostDone(c, p, Line(a), s2, f - 1);
        Turns(c, post, a, s3, k - 1, f - 2);
      } else {
        assert s3 == s2;
        Turns(c, post, a, s3, k - 1, f - 1);
      }
      assert s3.trace + c + Times(a + p + c, k - 1) == s.trace + c + ((a + p + c) + Times(a + p + c, k - 1));
    }
  }

  /** The condition, and the body or the end. */
  lemma Tested(c: seq<Instr>, post: Option<seq<Instr>>, body: Body, s: Log, f: nat)
    requires s.outs != [] && f > 0
    ensures var w, s1 := While(c, post, body), Log(s.outs[1..], s.trace + c);
      Around(w, true, s, f) == if s.outs[0] then After(w, DoB(body, s1, f), post.None?, f) else Did(Goes, s1)
  {
    hide DoB, After;
    PlainDoes(c, s, f);
    AlsoNothing(Did(Goes, Log(s.outs[1..], s.trace + c)));
  }

  lemma PostDone(c: seq<Instr>, p: seq<Instr>, body: Body, s: Log, f: nat)
    requires f > 0
    ensures var w := While(c, Some(p), body); Around(w, false, s, f) == Around(w, true, Doing(s, p).s, f - 1)
  {
    PlainDoes(p, s, f);
  }

  /** A body that leaves its loop on true, before it does `a`. */
  function Leaving(t: seq<Instr>, how: Command, a: seq<Instr>): Body
  {
    Then(Eval(Node.If(Plain(t), Just(how), None, false)), Line(a))
  }

  lemma LeavingDoes(t: seq<Instr>, how: Command, a: seq<Instr>, s: Log, f: nat)
    requires (how == Command.Break || how == Command.Continue) && s.outs != [] && s.outs[0]
    ensures DoB(Leaving(t, how, a), s, f)
      == Did(if how == Command.Break then Breaks else Continues, Log(s.outs[1..], s.trace + t))
  {
    hide DoB, DoN;
    var e := Node.If(Plain(t), Just(how), None, false);
    IfDoes(t, Just(how), None, s, f);
    ThenDoes(Eval(e), Line(a), s, f);
    ThenDoes(how, End, Log(s.outs[1..], s.trace + t), f);
  }

  lemma LeavingIn(t: seq<Instr>, how: Command, a: seq<Instr>)
    requires how == Command.Break || how == Command.Continue
    ensures InLoopsB(Leaving(t, how, a), true)
  {
    hide InLoopsB;
    var e := Node.If(Plain(t), Just(how), None, false);
    PlainIn(a, true);
    PlainIn(t, true);
    ThenIn(how, End, true);
    EndIn();
    EvalIn(e, true);
    IfIn(Plain(t), Just(how));
    ThenIn(Eval(e), Line(a), true);
  }

  lemma EndIn()
    ensures InLoopsB(End, true) && InLoopsB(End, false)
  { }

  lemma IfIn(c: Node, b: Body)
    requires InLoopsE(c, true) && InLoopsB(b, true)
    ensures InLoopsE(Node.If(c, b, None, false), true)
  {
    hide InLoopsB;
  }

  /** Break leads behind the loop. */
  lemma BreakLaw(c: seq<Instr>, post: Option<seq<Instr>>, t: seq<Instr>, a: seq<Instr>, z: seq<Instr>)
    ensures Executes(Then(While(c, post, Leaving(t, Command.Break, a)), Line(z)), [true, true], c + t + z)
  {
    hide Executes, DoB, DoN, InLoopsB, Around;
    var body := Leaving(t, Command.Break, a);
    var w, s, s1 := While(c, post, body), Log([true, true], []), Log([true], c);
    assert [] + c == c && s.outs[1..] == [true] && [true][1..] == [];
    Tested(c, post, body, s, 1);
    LeavingIn(t, Command.Break, a);
    LeavingDoes(t, Command.Break, a, s1, 1);
    LoopDoes(w, Line(z), s, 2);
    PlainDoes(z, Log([], c + t), 2);
    PlainIn(z, false);
    WhileIn(c, post, body, Line(z));
    Executed(Then(w, Line(z)), s.outs, c + t + z, 2);
  }

  /** Continue leads to the post clause, or to the condition if there is none. */
  lemma ContinueLaw(c: seq<Instr>, post: Option<seq<Instr>>, t: seq<Instr>, a: seq<Instr>, z: seq<Instr>)
    ensures var p := if post.Some? then post.value else [];
      Executes(Then(While(c, post, Leaving(t, Command.Continue, a)), Line(z)), [true, true, false], c + t + p + c + z)
  {
    hide Executes, DoB, DoN, InLoopsB, Around;
    var body, p := Leaving(t, Command.Continue, a), if post.Some? then post.value else [];
    var w, s, s1 := While(c, post, body), Log([true, true, false], []), Log([true, false], c);
    assert [] + c == c && s.outs[1..] == [true, false] && [true, false][1..] == [false] && [false][1..] == [];
    Tested(c, post, body, s, 3);
    LeavingIn(t, Command.Continue, a);
    LeavingDoes(t, Command.Continue, a, s1, 3);
    if post.Some? { PostDone(c, p, body, Log([false], c + t), 2); }
    assert c + t + p == if post.Some? then c + t + p else c + t;
    Tested(c, post, body, Log([false], c + t + p), 1);
    Tested(c, post, body, Log([false], c + t + p), 2);
    LoopDoes(w, Line(z), s, 4);
    PlainDoes(z, Log([], c + t + p + c), 4);
    PlainIn(z, false);
    WhileIn(c, post, body, Line(z));
    Executed(Then(w, Line(z)), s.outs, c + t + p + c + z, 4);
  }
}
