/** The emitted lines execute what the body they come from means, for every sequence of branch
    outcomes. */
module IrSimulation {
  import opened Language
  import opened IrBlocks
  import opened IrCode
  import opened IrShape
  import opened IrRuns
  import M = Machine

  /** A piece at `p` does `d`, and ends behind its last line if it goes on. */
  ghost predicate Sim(w: seq<Line>, loop: Option<LoopLabels>, f: nat, p: nat, s: Log, d: Did, g: Piece)
  {
    Runs(w, loop, f, Ip(p, s), d, p + |g.code|, g.t)
  }

  lemma SimCat(w: seq<Line>, loop: Option<LoopLabels>, f: nat, p: nat, s: Log, d1: Did, a: Piece, d2: Did, b: Piece)
    requires Sim(w, loop, f, p, s, d1, a)
    requires d1.how.Goes? && !a.t ==> Sim(w, loop, f, p + |a.code|, d1.s, d2, b)
    ensures Sim(w, loop, f, p, s, if d1.how.Goes? then d2 else d1, Cat(a, b))
  {
    hide Runs;
    RunsSeq(w, loop, f, Ip(p, s), d1, p + |a.code|, a.t, d2, p + |Cat(a, b).code|, b.t);
  }

  lemma SimThen(w: seq<Line>, loop: Option<LoopLabels>, f: nat, p: nat, s: Log, d: Did, g: Piece, work: seq<Instr>)
    requires Sim(w, loop, f, p, s, d, g) && At(w, p, Cat(g, Work(work, g.l, g.t)).code)
    ensures Sim(w, loop, f, p, s, Also(d, work), Cat(g, Work(work, g.l, g.t)))
  {
    hide Runs, At, Cat;
    RunsThen(w, loop, f, Ip(p, s), d, p, g, work);
  }

  lemma SimWork(w: seq<Line>, loop: Option<LoopLabels>, f: nat, p: nat, s: Log, work: seq<Instr>, l: nat)
    requires At(w, p, Work(work, l, false).code)
    ensures Sim(w, loop, f, p, s, Doing(s, work), Work(work, l, false))
  {
    hide Runs, At;
    RunsLines(w, loop, f, p, s, work);
  }

  /** What goes on has not been closed; what does not go on ends anywhere. */
  lemma RunsOpen(w: seq<Line>, loop: Option<LoopLabels>, f: nat, a: Ip, d: Did, at: nat, t: bool)
    requires Runs(w, loop, f, a, d, at, t)
    ensures d.how.Goes? ==> !t
    ensures !d.how.Goes? ==> forall at', t' :: Runs(w, loop, f, a, d, at', t')
  {
    var n: nat, r :| M.Reaches(Stepper(w), a, n, r) && Ends(w, loop, f, n, r, d, at, t);
    if !d.how.Goes? {
      forall at', t' ensures Runs(w, loop, f, a, d, at', t') {
        assert Ends(w, loop, f, n, r, d, at', t');
      }
    }
  }

  /** What does not leave the innermost loop does the same in any other. */
  lemma RunsElsewhere(w: seq<Line>, loop: Option<LoopLabels>, loop': Option<LoopLabels>, f: nat, a: Ip, d: Did, at: nat,
          t: bool)
    requires Runs(w, loop, f, a, d, at, t) && !d.how.Breaks? && !d.how.Continues?
    ensures Runs(w, loop', f, a, d, at, t)
  {
    var n: nat, r :| M.Reaches(Stepper(w), a, n, r) && Ends(w, loop, f, n, r, d, at, t);
    assert Ends(w, loop', f, n, r, d, at, t);
  }

  /** A branch, and what comes after it on either side. */
  lemma RunsChoice(w: seq<Line>, loop: Option<LoopLabels>, f: nat, p: nat, d: Did, yes: nat, no: nat, q1: nat, q2: nat,
          x: Did, at: nat, t: bool)
    requires Once(w) && p < |w| && w[p] == Br(yes, no) && Behind(w, q1, yes) && Behind(w, q2, no) && d.how.Goes?
    requires Ready(d) ==> Runs(w, loop, f, Ip(if Answer(d) then q1 else q2, Rest(d)), x, at, t)
    ensures Runs(w, loop, f, Ip(p, d.s), if Ready(d) then x else Unready(d), at, t)
  {
    hide Runs, Behind, Once;
    RunsBr(w, loop, f, p, d, yes, no, q1, q2);
    if Ready(d) {
      RunsSeq(w, loop, f, Ip(p, d.s), Did(Goes, Rest(d)), if Answer(d) then q1 else q2, false, x, at, t);
    }
  }

  // ---------- expressions ----------

  lemma {:induction false} SimN(w: seq<Line>, e: Node, l: nat, loop: Option<LoopLabels>, p: nat, s: Log, f: nat)
    requires Sound(w, loop) && At(w, p, GenN(e, l, false, loop).code) && InLoopsE(e, loop.Some?)
    ensures Sim(w, loop, f, p, s, DoN(e, s, f), GenN(e, l, false, loop))
    decreases f, e, 2
  {
    hide Sound, At, Sim, GenOp, GenUse, GenIf, GenResultMatch, GenOptionMatch, GenTypeMatch, GenCheck, GenWrap,
      Cat, Work,
      Doing, DoAll, DoB, DoArm, DoArms, InLoopsN, InLoopsB, InLoopsA;
    match e
    case Op(args, work) => SimOp(w, args, work, l, loop, p, s, f);
    case Checked(args, test, work) => SimChecked(w, e, l, loop, p, s, f);
    case Wrapped(args, test, work) => SimWrapped(w, e, l, loop, p, s, f);
    case Panic(a) => SimPanic(w, a, l, loop, p, s, f);
    case If(_, _, _, _) => SimIf(w, e, l, loop, p, s, f);
    case ResultMatch(_, _, _, _) => SimResultMatch(w, e, l, loop, p, s, f);
    case OptionMatch(_, _, _, _) => SimOptionMatch(w, e, l, loop, p, s, f);
    case TypeMatch(_, _, _, _) => SimTypeMatch(w, e, l, loop, p, s, f);
  }

  lemma {:induction false} SimAll(w: seq<Line>, es: Nodes, l: nat, loop: Option<LoopLabels>, p: nat, s: Log, f: nat)
    requires Sound(w, loop) && At(w, p, GenAll(es, l, false, loop).code) && InLoopsN(es, loop.Some?)
    ensures Sim(w, loop, f, p, s, DoAll(es, s, f), GenAll(es, l, false, loop))
    decreases f, es, 3
  {
    hide Sound, At, Sim, GenN, DoN, InLoopsE, Runs;
    match es
    case NoNodes => SimNothing(w, loop, f, p, s, l);
    case Nodes(e, rest) =>
      var g := GenN(e, l, false, loop);
      var d := DoN(e, s, f);
      var h := GenAll(rest, g.l, g.t, loop);
      AtCat(w, p, g.code, h.code);
      SimN(w, e, l, loop, p, s, f);
      if d.how.Goes? && !g.t { SimAll(w, rest, g.l, loop, p + |g.code|, d.s, f); }
      SimCat(w, loop, f, p, s, d, g, DoAll(rest, d.s, f), h);
  }

  lemma SimNothing(w: seq<Line>, loop: Option<LoopLabels>, f: nat, p: nat, s: Log, l: nat)
    ensures Sim(w, loop, f, p, s, Did(Goes, s), Piece([], l, false))
  {
    RunsHere(w, loop, f, Ip(p, s), Did(Goes, s), p, false);
  }

  lemma {:induction false} SimOp(w: seq<Line>, args: Nodes, work: seq<Instr>, l: nat, loop: Option<LoopLabels>, p: nat,
          s: Log, f: nat)
    requires Sound(w, loop) && At(w, p, GenOp(args, work, l, false, loop).code) && InLoopsN(args, loop.Some?)
    ensures Sim(w, loop, f, p, s, Also(DoAll(args, s, f), work), GenOp(args, work, l, false, loop))
    decreases f, args, 4
  {
    hide Sound, At, Sim, GenAll, DoAll, InLoopsN, Work, Also;
    var g := GenAll(args, l, false, loop);
    AtCat(w, p, g.code, Work(work, g.l, g.t).code);
    SimAll(w, args, l, loop, p, s, f);
    SimThen(w, loop, f, p, s, DoAll(args, s, f), g, work);
  }

  lemma {:induction false} SimUse(w: seq<Line>, e: Node, work: seq<Instr>, l: nat, loop: Option<LoopLabels>, p: nat,
          s: Log, f: nat)
    requires Sound(w, loop) && At(w, p, GenUse(e, work, l, false, loop).code) && InLoopsE(e, loop.Some?)
    ensures Sim(w, loop, f, p, s, Also(DoN(e, s, f), work), GenUse(e, work, l, false, loop))
    decreases f, e, 3
  {
    hide Sound, At, Sim, GenN, DoN, InLoopsE, Work, Also;
    var g := GenN(e, l, false, loop);
    AtCat(w, p, g.code, Work(work, g.l, g.t).code);
    SimN(w, e, l, loop, p, s, f);
    SimThen(w, loop, f, p, s, DoN(e, s, f), g, work);
  }

  lemma {:induction false} SimPanic(w: seq<Line>, a: Node, l: nat, loop: Option<LoopLabels>, p: nat, s: Log, f: nat)
    requires Sound(w, loop) && At(w, p, GenN(Panic(a), l, false, loop).code) && InLoopsE(a, loop.Some?)
    ensures Sim(w, loop, f, p, s, DoN(Panic(a), s, f), GenN(Panic(a), l, false, loop))
    decreases f, a, 4
  {
    hide Sound, At, GenUse, InLoopsE, Runs;
    var g, d := GenUse(a, [Panics], l, false, loop), Also(DoN(a, s, f), [Panics]);
    var z := Close(Unreachable, g.l, g.t);
    AtCat(w, p, g.code, z.code);
    SimUse(w, a, [Panics], l, loop, p, s, f);
    RunsOpen(w, loop, f, Ip(p, s), d, p + |g.code|, g.t);
    if d.how.Goes? {
      var q := p + |g.code|;
      AtClose(w, q, Unreachable, g.l, g.t);
      RunsHere(w, loop, f, Ip(q, d.s), Did(Dies, d.s), q + |z.code|, z.t);
    }
    SimCat(w, loop, f, p, s, d, g, Did(Dies, d.s), z);
  }

  /** The lines of a check and what comes after them. */
  lemma SimCheck(w: seq<Line>, l: nat, work: seq<Instr>, loop: Option<LoopLabels>, p: nat, d: Did, f: nat)
    requires Once(w) && At(w, p, Cat(GenCheck(l, false), Work(work, l + 2, false)).code) && d.how.Goes?
    ensures Sim(w, loop, f, p, d.s, if !Ready(d) then Unready(d) else if Answer(d) then Doing(Rest(d), work)
      else Did(Dies, Doing(Rest(d), [Panics]).s), Cat(GenCheck(l, false), Work(work, l + 2, false)))
  {
    hide At, Runs, Once;
    var g := Cat(GenCheck(l, false), Work(work, l + 2, false));
    var fail := Lines([Panics]);
    assert GenCheck(l, false).code == [Br(l, l + 1), Label(l + 1)] + fail + [Unreachable, Label(l)];
    AtCat(w, p, GenCheck(l, false).code, Lines(work));
    AtCat(w, p, [Br(l, l + 1), Label(l + 1)] + fail, [Unreachable, Label(l)]);
    AtCat(w, p, [Br(l, l + 1), Label(l + 1)], fail);
    AtTwo(w, p, Br(l, l + 1), Label(l + 1));
    AtTwo(w, p + 3, Unreachable, Label(l));
    var x := if !Ready(d) then d else if Answer(d) then Doing(Rest(d), work) else Did(Dies, Doing(Rest(d), [Panics]).s);
    if Ready(d) {
      RunsLines(w, loop, f, p + 5, Rest(d), work);
      RunsLines(w, loop, f, p + 2, Rest(d), [Panics]);
      RunsHere(w, loop, f, Ip(p + 3, Doing(Rest(d), [Panics]).s), Did(Dies, Doing(Rest(d), [Panics]).s),
        p + |g.code|, g.t);
      RunsSeq(w, loop, f, Ip(p + 2, Rest(d)), Doing(Rest(d), [Panics]), p + 3, false,
        Did(Dies, Doing(Rest(d), [Panics]).s), p + |g.code|, g.t);
    }
    RunsChoice(w, loop, f, p, d, l, l + 1, p + 5, p + 2, x, p + |g.code|, g.t);
  }

  lemma AtTwo(w: seq<Line>, p: nat, a: Line, b: Line)
    requires At(w, p, [a, b])
    ensures p + 2 <= |w| && w[p] == a && w[p + 1] == b
    ensures b.Label? ==> Behind(w, p + 2, b.name)
  {
    assert w[p..p + 2][0] == w[p] && w[p..p + 2][1] == w[p + 1];
  }

  lemma {:induction false} SimChecked(w: seq<Line>, e: Node, l: nat, loop: Option<LoopLabels>, p: nat, s: Log, f: nat)
    requires e.Checked? && Sound(w, loop) && At(w, p, GenN(e, l, false, loop).code) && InLoopsE(e, loop.Some?)
    ensures Sim(w, loop, f, p, s, DoN(e, s, f), GenN(e, l, false, loop))
    decreases f, e, 1
  {
    hide At, Sim, GenOp, InLoopsN, Runs, DoAll, Doing, GenCheck, Work, Cat, Also;
    var g, d := GenOp(e.args, e.test, l, false, loop), Also(DoAll(e.args, s, f), e.test);
    var c := GenCheck(g.l, g.t);
    var h := Cat(c, Work(e.work, c.l, c.t));
    CatAssoc(g, c, Work(e.work, c.l, c.t));
    CatCode(g, h);
    AtCat(w, p, g.code, h.code);
    SimOp(w, e.args, e.test, l, loop, p, s, f);
    SimOpen(w, loop, f, p, s, d, g);
    if d.how.Goes? {
      CheckEnds(g.l);
      SimCheck(w, g.l, e.work, loop, p + |g.code|, d, f);
    }
    SimCat(w, loop, f, p, s, d, g, if !Ready(d) then Unready(d) else if Answer(d) then Doing(Rest(d), e.work)
      else Did(Dies, Doing(Rest(d), [Panics]).s), h);
  }

  lemma CatCode(a: Piece, b: Piece)
    ensures Cat(a, b).code == a.code + b.code && Cat(a, b).l == b.l && Cat(a, b).t == b.t
  { }

  lemma CheckEnds(l: nat)
    ensures GenCheck(l, false).l == l + 2 && !GenCheck(l, false).t
    ensures GenWrap(l, false).l == l + 3 && !GenWrap(l, false).t
  { }

  lemma SimOpen(w: seq<Line>, loop: Option<LoopLabels>, f: nat, p: nat, s: Log, d: Did, g: Piece)
    requires Sim(w, loop, f, p, s, d, g)
    ensures d.how.Goes? ==> !g.t
    ensures !d.how.Goes? ==> forall at, t :: Runs(w, loop, f, Ip(p, s), d, at, t)
  {
    hide Runs;
    RunsOpen(w, loop, f, Ip(p, s), d, p + |g.code|, g.t);
  }

  /** The lines that wrap a result: true leads to the block that fetches the error. */
  lemma SimWrap(w: seq<Line>, l: nat, loop: Option<LoopLabels>, p: nat, d: Did, f: nat)
    requires Once(w) && At(w, p, GenWrap(l, false).code) && d.how.Goes?
    ensures Sim(w, loop, f, p, d.s, if !Ready(d) then Unready(d) else if Answer(d) then Doing(Rest(d), [LastError])
      else Did(Goes, Rest(d)), GenWrap(l, false))
  {
    hide At, Runs, Once;
    var g, work := GenWrap(l, false), Lines([LastError]);
    assert g.code == [Br(l, l + 1), Label(l)] + work + [Jmp(l + 2), Label(l + 1)] + [Jmp(l + 2), Label(l + 2)];
    AtCat(w, p, [Br(l, l + 1), Label(l)] + work + [Jmp(l + 2), Label(l + 1)], [Jmp(l + 2), Label(l + 2)]);
    AtCat(w, p, [Br(l, l + 1), Label(l)] + work, [Jmp(l + 2), Label(l + 1)]);
    AtCat(w, p, [Br(l, l + 1), Label(l)], work);
    AtTwo(w, p, Br(l, l + 1), Label(l));
    AtTwo(w, p + 3, Jmp(l + 2), Label(l + 1));
    AtTwo(w, p + 5, Jmp(l + 2), Label(l + 2));
    var x := if !Ready(d) then d else if Answer(d) then Doing(Rest(d), [LastError]) else Did(Goes, Rest(d));
    if Ready(d) {
      RunsLines(w, loop, f, p + 2, Rest(d), [LastError]);
      RunsJmp(w, loop, f, p + 3, Doing(Rest(d), [LastError]).s, l + 2, p + 7);
      RunsSeq(w, loop, f, Ip(p + 2, Rest(d)), Doing(Rest(d), [LastError]), p + 3, false, Doing(Rest(d), [LastError]),
        p + 7, false);
      RunsJmp(w, loop, f, p + 5, Rest(d), l + 2, p + 7);
    }
    RunsChoice(w, loop, f, p, d, l, l + 1, p + 2, p + 5, x, p + 7, false);
  }

  lemma {:induction false} SimWrapped(w: seq<Line>, e: Node, l: nat, loop: Option<LoopLabels>, p: nat, s: Log, f: nat)
    requires e.Wrapped? && Sound(w, loop) && At(w, p, GenN(e, l, false, loop).code) && InLoopsE(e, loop.Some?)
    ensures Sim(w, loop, f, p, s, DoN(e, s, f), GenN(e, l, false, loop))
    decreases f, e, 1
  {
    hide At, Sim, GenOp, InLoopsN, Runs, DoAll, GenWrap, Work, Cat;
    var g, d := GenOp(e.args, e.test, l, false, loop), Also(DoAll(e.args, s, f), e.test);
    var c := GenWrap(g.l, g.t);
    var x := if !Ready(d) then Unready(d) else if Answer(d) then Doing(Rest(d), [LastError]) else Did(Goes, Rest(d));
    CatCode(g, c);
    CatCode(Cat(g, c), Work(e.work, c.l, c.t));
    AtCat(w, p, Cat(g, c).code, Work(e.work, c.l, c.t).code);
    AtCat(w, p, g.code, c.code);
    SimOp(w, e.args, e.test, l, loop, p, s, f);
    SimOpen(w, loop, f, p, s, d, g);
    if d.how.Goes? { SimWrap(w, g.l, loop, p + |g.code|, d, f); }
    SimCat(w, loop, f, p, s, d, g, x, c);
    SimThen(w, loop, f, p, s, if d.how.Goes? then x else d, Cat(g, c), e.work);
  }

  /** One arm ends where its label `merge` is, at `m`, unless it does not get there. */
  lemma {:induction false} SimArm(w: seq<Line>, pre: seq<Instr>, b: Body, post: seq<Instr>, merge: nat,
          next: nat, l: nat,
          loop: Option<LoopLabels>, p: nat, s: Log, f: nat, m: nat)
    requires Sound(w, loop) && At(w, p, GenArm(pre, b, post, merge, next, l, false, loop).code)
      && InLoopsB(b, loop.Some?)
    requires Closes(b, l, loop) || Behind(w, m, merge)
    ensures Runs(w, loop, f, Ip(p, s), Also(DoB(b, Doing(s, pre).s, f), post), m, false)
    ensures Closes(b, l, loop) ==> !DoB(b, Doing(s, pre).s, f).how.Goes?
    decreases f, b, 4
  {
    hide At, Sim, InLoopsB, Runs, Work, Cat, GenB, Also, Next, DoB, Behind, Doing;
    var g := Work(pre, l, false);
    WorkIs(pre, l, false);
    var h := GenB(b, l, false, loop);
    var k := Work(post, h.l, h.t);
    var z := Next(Jmp(merge), next, h.l, h.t);
    var d0, d := Doing(s, pre), DoB(b, Doing(s, pre).s, f);
    assert d0.how.Goes? by { DoingGoes(s, pre); }
    var r := Cat(Cat(g, h), k);
    CatCode(g, h);
    CatCode(Cat(g, h), k);
    CatCode(r, z);
    WorkIs(post, h.l, h.t);
    AtCat(w, p, r.code, z.code);
    AtCat(w, p, Cat(g, h).code, k.code);
    AtCat(w, p, g.code, h.code);
    SimWork(w, loop, f, p, s, pre, l);
    SimB(w, b, l, loop, p + |g.code|, d0.s, f);
    SimOpen(w, loop, f, p + |g.code|, d0.s, d, h);
    SimCat(w, loop, f, p, s, d0, g, d, h);
    SimThen(w, loop, f, p, s, d, Cat(g, h), post);
    ArmLeaves(w, merge, next, loop, p, s, f, m, Also(d, post), r);
    AlsoHow(d, post);
  }

  lemma AlsoHow(d: Did, work: seq<Instr>)
    ensures Also(d, work).how == d.how
  { }

  lemma DoingGoes(s: Log, work: seq<Instr>)
    ensures Doing(s, work).how.Goes?
  { }

  lemma ArmLeaves(w: seq<Line>, merge: nat, next: nat, loop: Option<LoopLabels>, p: nat, s: Log, f: nat, m: nat, d: Did,
          r: Piece)
    requires Once(w) && Sim(w, loop, f, p, s, d, r)
    requires At(w, p + |r.code|, Next(Jmp(merge), next, r.l, r.t).code) && (r.t || Behind(w, m, merge))
    ensures Runs(w, loop, f, Ip(p, s), d, m, false)
  {
    hide At, Runs, Next, Once;
    SimOpen(w, loop, f, p, s, d, r);
    if d.how.Goes? {
      AtNext(w, p + |r.code|, Jmp(merge), next, r.l, r.t);
      RunsJmp(w, loop, f, p + |r.code|, d.s, merge, m);
      RunsSeq(w, loop, f, Ip(p, s), d, p + |r.code|, r.t, d, m, false);
    }
  }

  /** What a branch with two arms does after the outcome. */
  function DoTwo(e: Node, pre1: seq<Instr>, pre2: seq<Instr>, post: seq<Instr>, d: Did, f: nat): Did
    requires TwoArms(e) && Ready(d)
  {
    if Answer(d) then Also(DoB(FirstArm(e), Doing(Rest(d), pre1).s, f), post)
    else Also(DoB(SecondArm(e), Doing(Rest(d), pre2).s, f), post)
  }

  lemma {:induction false} SimTwo(w: seq<Line>, e: Node, yes: nat, no: nat, end: nat, pre1: seq<Instr>,
          pre2: seq<Instr>,
          post: seq<Instr>, l: nat, loop: Option<LoopLabels>, p: nat, d: Did, f: nat)
    requires TwoArms(e) && InLoopsE(e, loop.Some?) && Sound(w, loop) && d.how.Goes?
    requires At(w, p, GenTwo(e, yes, no, end, pre1, pre2, post, l, false, loop).code)
    ensures var g := GenTwo(e, yes, no, end, pre1, pre2, post, l, false, loop);
      Sim(w, loop, f, p, d.s, if Ready(d) then DoTwo(e, pre1, pre2, post, d, f) else Unready(d), g)
    ensures var l1 := GenB(FirstArm(e), l, false, loop).l;
      Ready(d) && Closes(FirstArm(e), l, loop) && Closes(SecondArm(e), l1, loop) ==>
        !DoTwo(e, pre1, pre2, post, d, f).how.Goes?
    decreases f, e, 0
  {
    hide At, InLoopsB, InLoopsE, Runs, Cat, GenB, Also, Next, DoB, Behind, Doing, GenArm, Closes;
    var a := Next(Br(yes, no), yes, l, false);
    NextIs(Br(yes, no), yes, l, false);
    var b := GenArm(pre1, FirstArm(e), post, end, no, l, false, loop);
    ArmIs(pre1, FirstArm(e), post, end, no, l, loop);
    var c := GenArm(pre2, SecondArm(e), post, end, end, b.l, false, loop);
    ArmIs(pre2, SecondArm(e), post, end, end, b.l, loop);
    CatCode(a, b);
    CatCode(Cat(a, b), c);
    AtCat(w, p, Cat(a, b).code, c.code);
    AtCat(w, p, a.code, b.code);
    AtNext(w, p, Br(yes, no), yes, l, false);
    var q1, q2 := p + |a.code|, p + |Cat(a, b).code|;
    var m := q2 + |c.code|;
    ArmEnds(w, pre1, FirstArm(e), post, end, no, l, loop, q1);
    ArmEnds(w, pre2, SecondArm(e), post, end, end, b.l, loop, q2);
    if Ready(d) {
      ArmsInLoops(e, loop.Some?);
      if Answer(d) { SimArm(w, pre1, FirstArm(e), post, end, no, l, loop, q1, Rest(d), f, m); }
      else { SimArm(w, pre2, SecondArm(e), post, end, end, b.l, loop, q2, Rest(d), f, m); }
      AlsoHow(DoB(FirstArm(e), Doing(Rest(d), pre1).s, f), post);
      AlsoHow(DoB(SecondArm(e), Doing(Rest(d), pre2).s, f), post);
    }
    var x := if Ready(d) then DoTwo(e, pre1, pre2, post, d, f) else d;
    RunsChoice(w, loop, f, p, d, yes, no, q1, q2, x, m, false);
  }

  lemma ArmsInLoops(e: Node, loop: bool)
    requires TwoArms(e) && InLoopsE(e, loop)
    ensures InLoopsB(FirstArm(e), loop) && InLoopsB(SecondArm(e), loop)
  { }

  lemma ArmIs(pre: seq<Instr>, b: Body, post: seq<Instr>, merge: nat, next: nat, l: nat, loop: Option<LoopLabels>)
    ensures GenArm(pre, b, post, merge, next, l, false, loop).l == GenB(b, l, false, loop).l
    ensures !GenArm(pre, b, post, merge, next, l, false, loop).t
  {
    hide GenB;
  }

  lemma ArmEnds(w: seq<Line>, pre: seq<Instr>, b: Body, post: seq<Instr>, merge: nat, next: nat, l: nat,
          loop: Option<LoopLabels>, p: nat)
    requires At(w, p, GenArm(pre, b, post, merge, next, l, false, loop).code)
    ensures Behind(w, p + |GenArm(pre, b, post, merge, next, l, false, loop).code|, next)
  {
    hide At, GenB, Work, Next, Behind;
    var g := GenArm(pre, b, post, merge, next, l, false, loop);
    var h := GenB(b, l, false, loop);
    var z := Next(Jmp(merge), next, h.l, h.t);
    var r := Cat(Cat(Work(pre, l, false), h), Work(post, h.l, h.t));
    WorkIs(pre, l, false);
    AtCat(w, p, r.code, z.code);
    AtNext(w, p + |r.code|, Jmp(merge), next, h.l, h.t);
  }

  lemma {:induction false} SimIf(w: seq<Line>, e: Node, l: nat, loop: Option<LoopLabels>, p: nat, s: Log, f: nat)
    requires e.If? && Sound(w, loop) && At(w, p, GenIf(e, l, false, loop).code) && InLoopsE(e, loop.Some?)
    ensures Sim(w, loop, f, p, s, DoN(e, s, f), GenIf(e, l, false, loop))
    decreases f, e, 1
  {
    hide Sound, At, Sim, InLoopsB, Runs, Cat, GenB, DoB, GenTwo, Next, GenArm, GenN, Work;
    var g, d := GenN(e.cond, l, false, loop), DoN(e.cond, s, f);
    var h := if e.alt.Some? then GenTwo(e, g.l, g.l + 1, g.l + 2, [], [], [], g.l + 3, g.t, loop)
      else Cat(Next(Br(g.l, g.l + 1), g.l, g.l + 2, g.t),
        GenArm([], e.cons, [], g.l + 1, g.l + 1, g.l + 2, false, loop));
    NextIs(Br(g.l, g.l + 1), g.l, g.l + 2, g.t);
    var x := if !Ready(d) then d
      else if Answer(d) then DoB(e.cons, Rest(d), f)
      else if e.alt.Some? then DoB(e.alt.value, Rest(d), f) else Did(Goes, Rest(d));
    CatCode(g, h);
    CatCode(Cat(g, h), Work(Kept(e.valued, Fetch), h.l, h.t));
    AtCat(w, p, Cat(g, h).code, Work(Kept(e.valued, Fetch), h.l, h.t).code);
    AtCat(w, p, g.code, h.code);
    SimN(w, e.cond, l, loop, p, s, f);
    SimOpen(w, loop, f, p, s, d, g);
    var q := p + |g.code|;
    if d.how.Goes? {
      if e.alt.Some? {
        SimTwo(w, e, g.l, g.l + 1, g.l + 2, [], [], [], g.l + 3, loop, q, d, f);
        if Ready(d) { DoTwoIf(e, d, f); }
      } else {
        SimOne(w, e.cons, g.l, g.l + 1, g.l + 2, loop, q, d, f);
      }
    }
    SimCat(w, loop, f, p, s, d, g, if Ready(d) then x else Unready(d), h);
    SimThen(w, loop, f, p, s, if Ready(d) then x else Unready(d), Cat(g, h), Kept(e.valued, Fetch));
  }

  lemma DoTwoIf(e: Node, d: Did, f: nat)
    requires e.If? && e.alt.Some? && Ready(d)
    ensures DoTwo(e, [], [], [], d, f) == if Answer(d) then DoB(e.cons, Rest(d), f) else DoB(e.alt.value, Rest(d), f)
  {
    hide DoB;
    AlsoNothing(DoB(e.cons, Rest(d), f));
    AlsoNothing(DoB(e.alt.value, Rest(d), f));
    AlsoNothing(Did(Goes, Rest(d)));
  }

  lemma AlsoNothing(d: Did)
    ensures Also(d, []) == d && Doing(d.s, []).s == d.s
  {
    assert d.s.trace + [] == d.s.trace;
  }

  /** A branch with one arm, which false leads around. */
  lemma {:induction false} SimOne(w: seq<Line>, b: Body, yes: nat, end: nat, l: nat, loop: Option<LoopLabels>, p: nat,
          d: Did, f: nat)
    requires InLoopsB(b, loop.Some?) && Sound(w, loop) && d.how.Goes?
    requires At(w, p, Cat(Next(Br(yes, end), yes, l, false), GenArm([], b, [], end, end, l, false, loop)).code)
    ensures Sim(w, loop, f, p, d.s,
      if !Ready(d) then Unready(d) else if Answer(d) then DoB(b, Rest(d), f) else Did(Goes, Rest(d)),
      Cat(Next(Br(yes, end), yes, l, false), GenArm([], b, [], end, end, l, false, loop)))
    decreases f, b, 5
  {
    hide At, InLoopsB, Runs, Cat, GenB, Next, DoB, Behind, GenArm;
    var a, c := Next(Br(yes, end), yes, l, false), GenArm([], b, [], end, end, l, false, loop);
    NextIs(Br(yes, end), yes, l, false);
    ArmIs([], b, [], end, end, l, loop);
    CatCode(a, c);
    AtCat(w, p, a.code, c.code);
    AtNext(w, p, Br(yes, end), yes, l, false);
    var q := p + |a.code|;
    var m := q + |c.code|;
    ArmEnds(w, [], b, [], end, end, l, loop, q);
    var x := if !Ready(d) then d else if Answer(d) then DoB(b, Rest(d), f) else Did(Goes, Rest(d));
    if Ready(d) {
      SimArm(w, [], b, [], end, end, l, loop, q, Rest(d), f, m);
      AlsoNothing(DoB(b, Rest(d), f));
      AlsoNothing(Did(Goes, Rest(d)));
      RunsHere(w, loop, f, Ip(m, Rest(d)), Did(Goes, Rest(d)), m, false);
    }
    RunsChoice(w, loop, f, p, d, yes, end, q, m, x, m, false);
  }

  lemma {:induction false} SimResultMatch(w: seq<Line>, e: Node, l: nat, loop: Option<LoopLabels>, p: nat,
          s: Log, f: nat)
    requires e.ResultMatch? && Sound(w, loop) && At(w, p, GenResultMatch(e, l, false, loop).code)
      && InLoopsE(e, loop.Some?)
    ensures Sim(w, loop, f, p, s, DoN(e, s, f), GenResultMatch(e, l, false, loop))
    decreases f, e, 1
  {
    hide Sound, At, Sim, InLoopsB, Runs, Cat, GenB, DoB, GenTwo, GenUse, Work, Doing, Close, Closes;
    var work, pre, kept := [Tag, Tag], [Bind, Bind, Bind], Kept(e.valued, Store);
    var g, d := GenUse(e.subject, work, l, false, loop), Also(DoN(e.subject, s, f), work);
    var h := GenTwo(e, g.l, g.l + 1, g.l + 2, pre, pre, kept, g.l + 3, g.t, loop);
    var l1 := GenB(e.ok, g.l + 3, false, loop).l;
    var closed := Closes(e.ok, g.l + 3, loop) && Closes(e.err, l1, loop);
    var z := if closed then Close(Unreachable, h.l, h.t) else Work(Kept(e.valued, Fetch), h.l, h.t);
    var x := if Ready(d) then DoTwo(e, pre, pre, kept, d, f) else Unready(d);
    CatCode(g, h);
    CatCode(Cat(g, h), z);
    AtCat(w, p, Cat(g, h).code, z.code);
    AtCat(w, p, g.code, h.code);
    SimUse(w, e.subject, work, l, loop, p, s, f);
    SimOpen(w, loop, f, p, s, d, g);
    if d.how.Goes? { SimTwo(w, e, g.l, g.l + 1, g.l + 2, pre, pre, kept, g.l + 3, loop, p + |g.code|, d, f); }
    SimCat(w, loop, f, p, s, d, g, x, h);
    if closed {
      SimCat(w, loop, f, p, s, x, Cat(g, h), x, z);
    } else {
      SimThen(w, loop, f, p, s, x, Cat(g, h), Kept(e.valued, Fetch));
    }
  }

  lemma {:induction false} SimOptionMatch(w: seq<Line>, e: Node, l: nat, loop: Option<LoopLabels>, p: nat,
          s: Log, f: nat)
    requires e.OptionMatch? && Sound(w, loop) && At(w, p, GenOptionMatch(e, l, false, loop).code)
      && InLoopsE(e, loop.Some?)
    ensures Sim(w, loop, f, p, s, DoN(e, s, f), GenOptionMatch(e, l, false, loop))
    decreases f, e, 1
  {
    hide Sound, At, Sim, InLoopsB, Runs, Cat, GenB, DoB, GenTwo, GenUse, Work, Doing, Closes;
    var work, pre, kept := [Tag, Tag], [Bind, Bind, Bind], Kept(e.valued, Store);
    var g, d := GenUse(e.subject, work, l, false, loop), Also(DoN(e.subject, s, f), work);
    var h := GenTwo(e, g.l, g.l + 1, g.l + 2, pre, [], kept, g.l + 3, g.t, loop);
    var z := Work(Kept(e.valued, Fetch), h.l, h.t);
    var x := if Ready(d) then DoTwo(e, pre, [], kept, d, f) else Unready(d);
    CatCode(g, h);
    CatCode(Cat(g, h), z);
    AtCat(w, p, Cat(g, h).code, z.code);
    AtCat(w, p, g.code, h.code);
    SimUse(w, e.subject, work, l, loop, p, s, f);
    SimOpen(w, loop, f, p, s, d, g);
    if d.how.Goes? { SimTwo(w, e, g.l, g.l + 1, g.l + 2, pre, [], kept, g.l + 3, loop, p + |g.code|, d, f); }
    SimCat(w, loop, f, p, s, d, g, x, h);
    SimThen(w, loop, f, p, s, x, Cat(g, h), Kept(e.valued, Fetch));
  }

  // ---------- type matches ----------

  /** An arm ends at `m`, where `end` is, unless all arms are closed; if no test comes out true
      control is behind the last one. */
  lemma {:induction false} SimArms(w: seq<Line>, arms: Bodies, end: nat, valued: bool, l: nat, loop: Option<LoopLabels>,
          p: nat, s: Log, f: nat, m: nat)
    requires Sound(w, loop) && InLoopsA(arms, loop.Some?)
    requires At(w, p, GenArms(arms, end, valued, l, false, loop).0.code)
    requires GenArms(arms, end, valued, l, false, loop).1 || Behind(w, m, end)
    ensures var (g, all) := GenArms(arms, end, valued, l, false, loop); var (d, found) := DoArms(arms, valued, s, f);
      Runs(w, loop, f, Ip(p, s), d, if found then m else p + |g.code|, false) && !g.t
      && (found && all ==> !d.how.Goes?) && (!found ==> d.how.Goes?)
    decreases f, arms, 5
  {
    hide At, InLoopsB, Runs, Cat, GenTypeArm, DoArm, Behind, Closes;
    match arms
    case NoBodies => RunsHere(w, loop, f, Ip(p, s), Did(Goes, s), p, false);
    case Bodies(b, rest) =>
      var g := GenTypeArm(b, end, valued, l, false, loop);
      var h := GenArms(rest, end, valued, g.l, g.t, loop).0;
      TypeArmIs(b, end, valued, l, loop);
      ArmsOpen(rest, end, valued, g.l, loop);
      CatCode(g, h);
      AtCat(w, p, g.code, h.code);
      var q, d := p + |g.code|, Doing(s, [Tag]);
      if Ready(d) && !Answer(d) {
        SimArms(w, rest, end, valued, g.l, loop, q, Rest(d), f, m);
      }
      var (x, found) := DoArms(arms, valued, s, f);
      SimTypeArm(w, b, end, valued, l, loop, p, s, f, m, x, if found then m else q + |h.code|);
  }

  lemma {:induction false} ArmsOpen(arms: Bodies, end: nat, valued: bool, l: nat, loop: Option<LoopLabels>)
    ensures !GenArms(arms, end, valued, l, false, loop).0.t
    decreases arms
  {
    hide GenTypeArm, Closes;
    if arms.Bodies? {
      TypeArmIs(arms.head, end, valued, l, loop);
      ArmsOpen(arms.tail, end, valued, GenTypeArm(arms.head, end, valued, l, false, loop).l, loop);
    }
  }

  lemma TypeArmIs(b: Body, end: nat, valued: bool, l: nat, loop: Option<LoopLabels>)
    ensures !GenTypeArm(b, end, valued, l, false, loop).t
    ensures GenTypeArm(b, end, valued, l, false, loop) == Cat(Cat(Work([Tag], l + 2, false),
      Next(Br(l, l + 1), l, l + 2, false)),
        GenArm([Bind, Bind], b, Kept(valued, Store), end, l + 1, l + 2, false, loop))
  {
    hide GenB;
    ArmIs([Bind, Bind], b, Kept(valued, Store), end, l + 1, l + 2, loop);
  }

  /** The test of one arm; on true its body, on false the rest `x`. */
  lemma {:induction false} SimTypeArm(w: seq<Line>, b: Body, end: nat, valued: bool, l: nat, loop: Option<LoopLabels>,
          p: nat, s: Log, f: nat, m: nat, x: Did, at: nat)
    requires Sound(w, loop) && At(w, p, GenTypeArm(b, end, valued, l, false, loop).code) && InLoopsB(b, loop.Some?)
    requires Closes(b, l + 2, loop) || Behind(w, m, end)
    requires var d := Doing(s, [Tag]); if !Ready(d) then x == Unready(d)
      else if Answer(d) then x == DoArm([Bind, Bind], b, valued, Rest(d), f) && at == m
      else Runs(w, loop, f, Ip(p + |GenTypeArm(b, end, valued, l, false, loop).code|, Rest(d)), x, at, false)
    ensures Runs(w, loop, f, Ip(p, s), x, at, false)
    ensures Closes(b, l + 2, loop) && Ready(Doing(s, [Tag])) && Answer(Doing(s, [Tag])) ==> !x.how.Goes?
    decreases f, b, 5
  {
    hide At, InLoopsB, Runs, Cat, GenTypeArm, DoB, Behind, Closes, GenArm, Next, Once;
    var g, d := GenTypeArm(b, end, valued, l, false, loop), Doing(s, [Tag]);
    var t, n := Work([Tag], l + 2, false), Next(Br(l, l + 1), l, l + 2, false);
    var a := GenArm([Bind, Bind], b, Kept(valued, Store), end, l + 1, l + 2, false, loop);
    TypeArmIs(b, end, valued, l, loop);
    CatCode(t, n);
    CatCode(Cat(t, n), a);
    AtCat(w, p, Cat(t, n).code, a.code);
    AtCat(w, p, t.code, n.code);
    RunsLines(w, loop, f, p, s, [Tag]);
    AtNext(w, p + 1, Br(l, l + 1), l, l + 2, false);
    var q1 := p + 1 + |n.code|;
    ArmEnds(w, [Bind, Bind], b, Kept(valued, Store), end, l + 1, l + 2, loop, q1);
    if Ready(d) && Answer(d) {
      SimArm(w, [Bind, Bind], b, Kept(valued, Store), end, l + 1, l + 2, loop, q1, Rest(d), f, m);
    }
    RunsChoice(w, loop, f, p + 1, d, l, l + 1, q1, p + |g.code|, x, at, false);
    RunsSeq(w, loop, f, Ip(p, s), d, p + 1, false, if Ready(d) then x else Unready(d), at, false);
  }

  /** What happens if no arm fits. */
  function DoDefault(default: Option<Body>, valued: bool, s: Log, f: nat): Did
  {
    if default.None? then Did(Goes, s) else DoArm([], default.value, valued, s, f)
  }

  lemma {:induction false} SimDefault(w: seq<Line>, default: Option<Body>, end: nat, valued: bool, l: nat,
          loop: Option<LoopLabels>, p: nat, s: Log, f: nat, m: nat)
    requires Sound(w, loop) && (default.Some? ==> InLoopsB(default.value, loop.Some?))
    requires At(w, p, GenDefault(default, end, valued, l, false, loop).code)
    requires DefaultCloses(default, l, false, loop) || Behind(w, m, end)
    ensures Runs(w, loop, f, Ip(p, s), DoDefault(default, valued, s, f), m, false)
    ensures DefaultCloses(default, l, false, loop) ==> !DoDefault(default, valued, s, f).how.Goes?
    decreases f, default, 5
  {
    hide At, InLoopsB, Runs, Cat, GenB, DoB, Behind, Work, Close, Also, Once;
    match default
    case None =>
      AtClose(w, p, Jmp(end), l, false);
      RunsJmp(w, loop, f, p, s, end, m);
    case Some(b) =>
      var g, d := GenB(b, l, false, loop), DoB(b, s, f);
      var h := Cat(g, Work(Kept(valued, Store), g.l, g.t));
      var z := Close(Jmp(end), h.l, h.t);
      WorkIs(Kept(valued, Store), g.l, g.t);
      CatCode(g, Work(Kept(valued, Store), g.l, g.t));
      CatCode(h, z);
      AtCat(w, p, h.code, z.code);
      AtCat(w, p, g.code, Work(Kept(valued, Store), g.l, g.t).code);
      SimB(w, b, l, loop, p, s, f);
      SimThen(w, loop, f, p, s, d, g, Kept(valued, Store));
      var x := Also(d, Kept(valued, Store));
      AlsoHow(d, Kept(valued, Store));
      SimOpen(w, loop, f, p, s, x, h);
      if d.how.Goes? {
        AtClose(w, p + |h.code|, Jmp(end), h.l, h.t);
        RunsJmp(w, loop, f, p + |h.code|, x.s, end, m);
        RunsSeq(w, loop, f, Ip(p, s), x, p + |h.code|, h.t, x, m, false);
      }
      AlsoNothing(Did(Goes, s));
  }

  /** The arms and the default arm. */
  function DoCases(e: Node, s: Log, f: nat): Did
    requires e.TypeMatch?
  {
    var (d, found) := DoArms(e.arms, e.valued, s, f);
    if found || e.default.None? then d else DoArm([], e.default.value, e.valued, d.s, f)
  }

  lemma {:induction false} SimCases(w: seq<Line>, e: Node, end: nat, l: nat, loop: Option<LoopLabels>, p: nat, s: Log,
          f: nat, m: nat)
    requires e.TypeMatch? && Sound(w, loop) && InLoopsE(e, loop.Some?)
    requires var (h, all) := GenArms(e.arms, end, e.valued, l, false, loop);
      At(w, p, h.code) && At(w, p + |h.code|, GenDefault(e.default, end, e.valued, h.l, h.t, loop).code)
      && ((all && DefaultCloses(e.default, h.l, h.t, loop)) || Behind(w, m, end))
    ensures Runs(w, loop, f, Ip(p, s), DoCases(e, s, f), m, false)
    ensures var (h, all) := GenArms(e.arms, end, e.valued, l, false, loop);
      all && DefaultCloses(e.default, h.l, h.t, loop) ==> !DoCases(e, s, f).how.Goes?
    decreases f, e, 0
  {
    hide At, InLoopsB, InLoopsA, Runs, DoB, Closes, GenArms, GenDefault, DoArms, DoArm, Once, DefaultCloses, Behind;
    var (h, all) := GenArms(e.arms, end, e.valued, l, false, loop);
    var (d, found) := DoArms(e.arms, e.valued, s, f);
    SimArms(w, e.arms, end, e.valued, l, loop, p, s, f, m);
    if !found {
      SimDefault(w, e.default, end, e.valued, h.l, loop, p + |h.code|, d.s, f, m);
      RunsSeq(w, loop, f, Ip(p, s), d, p + |h.code|, false, DoDefault(e.default, e.valued, d.s, f), m, false);
    }
  }

  lemma AtEnd(w: seq<Line>, p: nat, end: nat, work: seq<Instr>)
    requires At(w, p, [Label(end)] + Lines(work))
    ensures Behind(w, p + 1, end) && At(w, p + 1, Lines(work))
  {
    AtCat(w, p, [Label(end)], Lines(work));
    assert w[p..p + 1][0] == w[p];
  }

  lemma TypeMatchMeans(e: Node, s: Log, f: nat)
    requires e.TypeMatch?
    ensures var d := Also(DoN(e.subject, s, f), [Tag, Tag]);
      DoN(e, s, f) == if d.how.Goes? then Also(DoCases(e, d.s, f), Kept(e.valued, Fetch)) else d
  {
    hide DoArms, DoArm;
  }

  lemma {:induction false} SimTypeMatch(w: seq<Line>, e: Node, l: nat, loop: Option<LoopLabels>, p: nat, s: Log, f: nat)
    requires e.TypeMatch? && Sound(w, loop) && At(w, p, GenTypeMatch(e, l, false, loop).code)
      && InLoopsE(e, loop.Some?)
    ensures Sim(w, loop, f, p, s, DoN(e, s, f), GenTypeMatch(e, l, false, loop))
    decreases f, e, 1
  {
    hide At, InLoopsB, InLoopsA, Runs, Cat, DoB, GenUse, Closes, GenArms, GenDefault, DoArms, DoArm, Once,
      DefaultCloses, Behind, Lines, DoN, DoCases, Kept;
    var work, kept := [Tag, Tag], Kept(e.valued, Fetch);
    var g, d := GenUse(e.subject, work, l, false, loop), Also(DoN(e.subject, s, f), work);
    var (h, all) := GenArms(e.arms, g.l, e.valued, g.l + 1, g.t, loop);
    var k := GenDefault(e.default, g.l, e.valued, h.l, h.t, loop);
    var done := all && DefaultCloses(e.default, h.l, h.t, loop);
    var r, z := Cat(Cat(g, h), k), Piece([Label(g.l)] + Lines(kept), k.l, false);
    CatCode(g, h);
    CatCode(Cat(g, h), k);
    CatCode(r, z);
    var whole := GenTypeMatch(e, l, false, loop);
    assert whole == if done then r else Cat(r, z);
    if !done { AtCat(w, p, r.code, z.code); }
    AtCat(w, p, Cat(g, h).code, k.code);
    AtCat(w, p, g.code, h.code);
    SimUse(w, e.subject, work, l, loop, p, s, f);
    SimOpen(w, loop, f, p, s, d, g);
    TypeMatchMeans(e, s, f);
    var q, m, at := p + |g.code|, p + |r.code| + 1, p + |whole.code|;
    var x := DoCases(e, d.s, f);
    if d.how.Goes? {
      if !done { AtEnd(w, p + |r.code|, g.l, kept); }
      SimCases(w, e, g.l, g.l + 1, loop, q, d.s, f, m);
      RunsOpen(w, loop, f, Ip(q, d.s), x, m, false);
      if !done {
        RunsLines(w, loop, f, m, x.s, kept);
        RunsSeq(w, loop, f, Ip(q, d.s), x, m, false, Doing(x.s, kept), at, whole.t);
      }
      AlsoHow(x, kept);
    }
    RunsSeq(w, loop, f, Ip(p, s), d, q, g.t, Also(x, kept), at, whole.t);
  }

  // ---------- statements ----------

  lemma {:induction false} SimB(w: seq<Line>, b: Body, l: nat, loop: Option<LoopLabels>, p: nat, s: Log, f: nat)
    requires Sound(w, loop) && At(w, p, GenB(b, l, false, loop).code) && InLoopsB(b, loop.Some?)
    ensures Sim(w, loop, f, p, s, DoB(b, s, f), GenB(b, l, false, loop))
    decreases f, b, 3
  {
    hide Sound, At, Sim, GenC, DoC, InLoopsC, Runs;
    match b
    case End => SimNothing(w, loop, f, p, s, l);
    case Then(c, rest) =>
      var g := GenC(c, l, false, loop);
      var d := DoC(c, s, f);
      var h := GenB(rest, g.l, g.t, loop);
      AtCat(w, p, g.code, h.code);
      SimC(w, c, l, loop, p, s, f);
      if d.how.Goes? && !g.t { SimB(w, rest, g.l, loop, p + |g.code|, d.s, f); }
      SimCat(w, loop, f, p, s, d, g, DoB(rest, d.s, f), h);
  }

  lemma {:induction false} SimC(w: seq<Line>, c: Command, l: nat, loop: Option<LoopLabels>, p: nat, s: Log, f: nat)
    requires Sound(w, loop) && At(w, p, GenC(c, l, false, loop).code) && InLoopsC(c, loop.Some?)
    ensures Sim(w, loop, f, p, s, DoC(c, s, f), GenC(c, l, false, loop))
    decreases f, c, 6
  {
    hide At, Sim, GenN, DoN, InLoopsE, InLoopsB, Runs, DoLoop, GenLoop, Close, Once;
    match c
    case Eval(e) => SimN(w, e, l, loop, p, s, f);
    case Return(v) => SimReturn(w, v, l, loop, p, s, f);
    case For(_, _, _, _) => SimLoop(w, c, l, loop, p, s, f);
    case ForIn(_, _) => SimLoop(w, c, l, loop, p, s, f);
    case Break => SimLeave(w, loop.value.escape, Breaks, l, loop, p, s, f);
    case Continue => SimLeave(w, ContinueTo(loop.value), Continues, l, loop, p, s, f);
  }

  lemma SimLeave(w: seq<Line>, target: nat, how: How, l: nat, loop: Option<LoopLabels>, p: nat, s: Log, f: nat)
    requires Sound(w, loop) && At(w, p, Close(Jmp(target), l, false).code) && loop.Some?
    requires (how.Breaks? && target == loop.value.escape) || (how.Continues? && target == ContinueTo(loop.value))
    ensures Sim(w, loop, f, p, s, Did(how, s), Close(Jmp(target), l, false))
  {
    hide At, Once;
    var q :| Behind(w, q, target);
    AtClose(w, p, Jmp(target), l, false);
    EnterAt(w, q, target, s);
    assert Stepper(w)(Ip(p, s)) == M.Next(Ip(q, s));
    assert M.Reaches(Stepper(w), Ip(q, s), 0, Ip(q, s));
    assert M.Reaches(Stepper(w), Ip(p, s), 1, Ip(q, s));
    assert Ends(w, loop, f, 1, Ip(q, s), Did(how, s), p + 1, true);
  }

  lemma {:induction false} SimReturn(w: seq<Line>, v: Option<Node>, l: nat, loop: Option<LoopLabels>, p: nat, s: Log,
          f: nat)
    requires Sound(w, loop) && At(w, p, GenC(Return(v), l, false, loop).code)
      && (v.Some? ==> InLoopsE(v.value, loop.Some?))
    ensures Sim(w, loop, f, p, s, DoC(Return(v), s, f), GenC(Return(v), l, false, loop))
    decreases f, v, 3
  {
    hide Sound, At, Sim, GenN, DoN, InLoopsE, Runs, Close;
    var g := if v.Some? then GenN(v.value, l, false, loop) else Piece([], l, false);
    var d := if v.Some? then DoN(v.value, s, f) else Did(Goes, s);
    var z := Close(Ret, g.l, g.t);
    AtCat(w, p, g.code, z.code);
    if v.Some? { SimN(w, v.value, l, loop, p, s, f); } else { SimNothing(w, loop, f, p, s, l); }
    SimOpen(w, loop, f, p, s, d, g);
    if d.how.Goes? { SimRet(w, loop, p + |g.code|, d.s, f, g.l); }
    SimCat(w, loop, f, p, s, d, g, Did(Returns, d.s), z);
  }

  lemma SimRet(w: seq<Line>, loop: Option<LoopLabels>, p: nat, s: Log, f: nat, l: nat)
    requires At(w, p, Close(Ret, l, false).code)
    ensures Sim(w, loop, f, p, s, Did(Returns, s), Close(Ret, l, false))
  {
    hide At;
    AtClose(w, p, Ret, l, false);
    RunsHere(w, loop, f, Ip(p, s), Did(Returns, s), p + 1, true);
  }

  lemma {:induction false} SimOptC(w: seq<Line>, c: Option<Command>, l: nat, loop: Option<LoopLabels>, p: nat, s: Log,
          f: nat)
    requires Sound(w, loop) && At(w, p, GenOptC(c, l, false, loop).code) && (c.Some? ==> InLoopsC(c.value, loop.Some?))
    ensures Sim(w, loop, f, p, s, DoOptC(c, s, f), GenOptC(c, l, false, loop))
    decreases f, c, 7
  {
    hide Sound, At, Sim, GenC, DoC, InLoopsC;
    if c.Some? { SimC(w, c.value, l, loop, p, s, f); } else { SimNothing(w, loop, f, p, s, l); }
  }

  // ---------- loops ----------

  /** Where the parts of a loop are, and the labels their code begins with. */
  datatype Places = Places(x: LoopLabels, loop: nat, test: nat, lt: nat, body: nat, lb: nat, post: nat, lp: nat,
    out: nat)

  /** A piece at `p` with the terminator `x` behind it. */
  ghost predicate Ended(w: seq<Line>, p: nat, g: Piece, x: Line)
  {
    At(w, p, g.code) && (!g.t ==> p + |g.code| < |w| && w[p + |g.code|] == x)
  }

  function StartPiece(c: Command, l: nat, x: LoopLabels): Piece
    requires IsLoop(c)
  {
    GenStart(c, l, false, Some(x))
  }

  function TestPiece(c: Command, l: nat, x: LoopLabels): Piece
    requires IsLoop(c)
  {
    GenTest(c, l, false, Some(x))
  }

  function BodyPiece(c: Command, l: nat, x: LoopLabels): Piece
    requires IsLoop(c)
  {
    Cat(Work(Binding(c), l, false), GenB(c.body, l, false, Some(x)))
  }

  function PostPiece(c: Command, l: nat, x: LoopLabels): Piece
    requires IsLoop(c)
  {
    if c.ForIn? then Work([Advance, Advance, Advance], l, false) else GenOptC(c.post, l, false, Some(x))
  }

  ghost predicate Laid(w: seq<Line>, c: Command, m: Places)
  {
    && IsLoop(c) && Once(w) && (HasPost(c) <==> m.x.post.Some?)
    && Behind(w, m.test, m.x.cond) && Behind(w, m.body, m.loop) && Behind(w, m.out, m.x.escape)
    && (HasPost(c) ==> Behind(w, m.post, m.x.post.value))
    && Ended(w, m.test, TestPiece(c, m.lt, m.x), Br(m.loop, m.x.escape))
    && Ended(w, m.body, BodyPiece(c, m.lb, m.x), Jmp(ContinueTo(m.x)))
    && (HasPost(c) ==> Ended(w, m.post, PostPiece(c, m.lp, m.x), Jmp(m.x.cond)))
  }

  /** A piece, its terminator and the next label, in front of other code. */
  lemma EndedNext(w: seq<Line>, p: nat, g: Piece, x: Line, label_: nat) returns (q: nat)
    requires At(w, p, Cat(g, Next(x, label_, g.l, g.t)).code)
    ensures q == p + |Cat(g, Next(x, label_, g.l, g.t)).code| && Ended(w, p, g, x) && Behind(w, q, label_)
  {
    hide At, Next;
    var z := Next(x, label_, g.l, g.t);
    AtCat(w, p, g.code, z.code);
    AtNext(w, p + |g.code|, x, label_, g.l, g.t);
    q := p + |g.code| + |z.code|;
  }

  lemma LoopLaid(w: seq<Line>, c: Command, l: nat, p: nat) returns (m: Places)
    requires IsLoop(c) && Once(w) && At(w, p, GenLoop(c, l, false).code)
    ensures Laid(w, c, m) && m.out == p + |GenLoop(c, l, false).code| && !GenLoop(c, l, false).t
    ensures Ended(w, p, StartPiece(c, m.x.escape + 1, m.x), Jmp(m.x.cond))
  {
    hide At, Next, Behind, GenStart, GenTest, GenB, GenOptC, Once, Ended, Cat, Work, GenTail;
    var x := LabelsFrom(c, l);
    var a := GenStart(c, x.escape + 1, false, Some(x));
    var a' := Cat(a, Next(Jmp(x.cond), x.cond, a.l, a.t));
    NextIs(Jmp(x.cond), x.cond, a.l, a.t);
    CatCode(a, Next(Jmp(x.cond), x.cond, a.l, a.t));
    var b := GenTest(c, a.l, false, Some(x));
    var b' := Cat(b, Next(Br(l + 1, x.escape), l + 1, b.l, b.t));
    NextIs(Br(l + 1, x.escape), l + 1, b.l, b.t);
    CatCode(b, Next(Br(l + 1, x.escape), l + 1, b.l, b.t));
    var z := GenTail(c, x, b.l, false);
    CatCode(a', b');
    CatCode(Cat(a', b'), z);
    assert GenLoop(c, l, false) == Cat(Cat(a', b'), z);
    AtCat(w, p, Cat(a', b').code, z.code);
    AtCat(w, p, a'.code, b'.code);
    var test := EndedNext(w, p, a, Jmp(x.cond), x.cond);
    var body := EndedNext(w, test, b, Br(l + 1, x.escape), l + 1);
    var post, lp, out := TailLaid(w, c, x, b.l, body);
    m := Places(x, l + 1, test, a.l, body, b.l, post, lp, out);
  }

  lemma TailLaid(w: seq<Line>, c: Command, x: LoopLabels, l: nat, p: nat) returns (post: nat, lp: nat, out: nat)
    requires IsLoop(c) && At(w, p, GenTail(c, x, l, false).code) && (HasPost(c) <==> x.post.Some?)
    ensures Ended(w, p, BodyPiece(c, l, x), Jmp(ContinueTo(x)))
    ensures HasPost(c) ==> Behind(w, post, x.post.value) && Ended(w, post, PostPiece(c, lp, x), Jmp(x.cond))
    ensures Behind(w, out, x.escape) && out == p + |GenTail(c, x, l, false).code| && !GenTail(c, x, l, false).t
  {
    hide At, Next, Behind, GenB, GenOptC, Ended, Cat, Work;
    var b := BodyPiece(c, l, x);
    CatCode(Work(Binding(c), l, false), GenB(c.body, l, false, Some(x)));
    WorkIs(Binding(c), l, false);
    lp := b.l;
    if x.post.None? {
      post := 0;
      var z := Piece([], b.l, b.t);
      assert Cat(b, z) == b by { CatEmpty(b); }
      NextIs(Jmp(x.cond), x.escape, b.l, b.t);
      CatCode(b, Next(Jmp(x.cond), x.escape, b.l, b.t));
      out := EndedNext(w, p, b, Jmp(x.cond), x.escape);
    } else {
      var n := Next(Jmp(x.post.value), x.post.value, b.l, b.t);
      NextIs(Jmp(x.post.value), x.post.value, b.l, b.t);
      var k := PostPiece(c, b.l, x);
      var e := Next(Jmp(x.cond), x.escape, k.l, k.t);
      NextIs(Jmp(x.cond), x.escape, k.l, k.t);
      CatCode(n, k);
      CatCode(k, e);
      CatCode(b, n);
      CatCode(Cat(b, n), Cat(k, e));
      assert GenPost(c, x, b.l, b.t) == Cat(n, k);
      CatCode(b, Cat(n, k));
      assert GenTail(c, x, l, false) == Cat(Cat(b, Cat(n, k)), e);
      assert GenTail(c, x, l, false) == Cat(Cat(b, n), Cat(k, e)) by {
        CatAssoc(b, n, k);
        CatAssoc(Cat(b, n), k, e);
      }
      AtCat(w, p, Cat(b, n).code, Cat(k, e).code);
      post := EndedNext(w, p, b, Jmp(x.post.value), x.post.value);
      out := EndedNext(w, post, k, Jmp(x.cond), x.escape);
    }
  }

  lemma CatEmpty(g: Piece)
    ensures Cat(g, Piece([], g.l, g.t)) == g
  {
    assert g.code + [] == g.code;
  }

  lemma LaidSound(w: seq<Line>, c: Command, m: Places)
    requires Laid(w, c, m)
    ensures Sound(w, Some(m.x))
  {
    hide Ended, Behind, Once;
  }

  lemma {:induction false} SimStart(w: seq<Line>, c: Command, m: Places, p: nat, s: Log, f: nat)
    requires Laid(w, c, m) && InLoopsC(c, true) && At(w, p, StartPiece(c, m.x.escape + 1, m.x).code)
    ensures Sim(w, Some(m.x), f, p, s, if c.For? then DoOptC(c.first, s, f)
      else Also(DoN(c.iterable, s, f), [Setup, Setup, Setup, Setup, Setup]), StartPiece(c, m.x.escape + 1, m.x))
    decreases f, c, 1
  {
    assert IsLoop(c);
    hide At, Sim, Laid, GenOptC, GenUse, DoOptC, DoN, InLoopsE, InLoopsB, Once;
    LaidSound(w, c, m);
    if c.For? {
      SimOptC(w, c.first, m.x.escape + 1, Some(m.x), p, s, f);
    } else {
      SimUse(w, c.iterable, [Setup, Setup, Setup, Setup, Setup], m.x.escape + 1, Some(m.x), p, s, f);
    }
  }

  lemma {:induction false} SimTest(w: seq<Line>, c: Command, m: Places, s: Log, f: nat)
    requires Laid(w, c, m) && InLoopsC(c, true)
    ensures Sim(w, Some(m.x), f, m.test, s, if c.For? then DoN(c.cond, s, f) else Doing(s, [Test, Test, Test]),
      TestPiece(c, m.lt, m.x))
    decreases f, c, 1
  {
    hide At, Sim, GenN, DoN, InLoopsE, InLoopsB, InLoopsC, Once, Behind, PostPiece, BodyPiece;
    LaidSound(w, c, m);
    if c.For? {
      CondInLoop(c);
      SimN(w, c.cond, m.lt, Some(m.x), m.test, s, f);
    } else {
      SimWork(w, Some(m.x), f, m.test, s, [Test, Test, Test], m.lt);
    }
  }

  lemma CondInLoop(c: Command)
    requires IsLoop(c) && InLoopsC(c, true)
    ensures InLoopsB(c.body, true)
      && (c.For? ==> InLoopsE(c.cond, true) && (c.post.Some? ==> InLoopsC(c.post.value, true)))
  { }

  lemma {:induction false} SimBody(w: seq<Line>, c: Command, m: Places, s: Log, f: nat)
    requires Laid(w, c, m) && InLoopsC(c, true)
    ensures Sim(w, Some(m.x), f, m.body, s, DoB(c.body, Doing(s, Binding(c)).s, f), BodyPiece(c, m.lb, m.x))
    decreases f, c, 1
  {
    hide At, Sim, GenB, DoB, InLoopsE, InLoopsB, InLoopsC, Once, Behind, PostPiece, TestPiece, Work, Binding, Cat;
    LaidSound(w, c, m);
    CondInLoop(c);
    var a, b := Work(Binding(c), m.lb, false), GenB(c.body, m.lb, false, Some(m.x));
    var d := Doing(s, Binding(c));
    CatCode(a, b);
    WorkIs(Binding(c), m.lb, false);
    AtCat(w, m.body, a.code, b.code);
    SimWork(w, Some(m.x), f, m.body, s, Binding(c), m.lb);
    SimB(w, c.body, m.lb, Some(m.x), m.body + |a.code|, d.s, f);
    SimCat(w, Some(m.x), f, m.body, s, d, a, DoB(c.body, d.s, f), b);
  }

  lemma {:induction false} SimPost(w: seq<Line>, c: Command, m: Places, s: Log, f: nat)
    requires Laid(w, c, m) && InLoopsC(c, true) && HasPost(c)
    ensures Sim(w, Some(m.x), f, m.post, s, if c.For? then DoOptC(c.post, s, f)
      else Doing(s, [Advance, Advance, Advance]),
      PostPiece(c, m.lp, m.x))
    decreases f, c, 1
  {
    hide At, Sim, GenOptC, DoOptC, InLoopsE, InLoopsB, InLoopsC, Once, Behind, TestPiece, BodyPiece;
    LaidSound(w, c, m);
    if c.For? {
      CondInLoop(c);
      SimOptC(w, c.post, m.lp, Some(m.x), m.post, s, f);
    } else {
      SimWork(w, Some(m.x), f, m.post, s, [Advance, Advance, Advance], m.lp);
    }
  }

  lemma BehindOnce(w: seq<Line>, q: nat, q': nat, l: nat)
    requires Once(w) && Behind(w, q, l) && Behind(w, q', l)
    ensures q == q'
  { }

  /** From the end of a part of the loop to where it goes on, or out of the loop. */
  lemma RunsTurn(w: seq<Line>, c: Command, m: Places, loop: Option<LoopLabels>, f: nat, a: Ip, d: Did, at: nat, t: bool,
          top: bool)
    requires Laid(w, c, m) && f > 0 && (top || HasPost(c)) && Runs(w, Some(m.x), f, a, d, at, t)
    requires d.how.Goes? ==>
      at < |w| && w[at] == Jmp(if top then m.x.cond else m.x.post.value)
      && Runs(w, loop, f - 1, Ip(if top then m.test else m.post, d.s), Around(c, top, d.s, f - 1), m.out, false)
    requires d.how.Continues? ==> Runs(w, loop, f - 1, Ip(if HasPost(c) then m.post else m.test, d.s),
      Around(c, !HasPost(c), d.s, f - 1), m.out, false)
    ensures Runs(w, loop, f, a, After(c, d, top, f), m.out, false)
  {
    hide Ended, Around, Once, Behind, Runs, Ends;
    var x := After(c, d, top, f);
    match d.how
    case Goes =>
      var l, q := if top then m.x.cond else m.x.post.value, if top then m.test else m.post;
      RunsElsewhere(w, Some(m.x), loop, f, a, d, at, t);
      EnterAt(w, q, l, d.s);
      RunsStep(w, loop, f, Ip(at, d.s), Ip(q, d.s), x, m.out, false);
      RunsSeq(w, loop, f, a, d, at, t, x, m.out, false);
    case Breaks => RunsOut(w, c, m, loop, f, a, d, at, t);
    case Continues => RunsOn(w, c, m, loop, f, a, d, at, t, x);
    case _ =>
      RunsElsewhere(w, Some(m.x), loop, f, a, d, at, t);
      RunsOpen(w, loop, f, a, d, at, t);
  }

  lemma RunsOut(w: seq<Line>, c: Command, m: Places, loop: Option<LoopLabels>, f: nat, a: Ip, d: Did, at: nat, t: bool)
    requires Laid(w, c, m) && Runs(w, Some(m.x), f, a, d, at, t) && d.how.Breaks?
    ensures Runs(w, loop, f, a, Did(Goes, d.s), m.out, false)
  {
    hide Ended, Once, Behind;
    var n: nat, r :| M.Reaches(Stepper(w), a, n, r) && Ends(w, Some(m.x), f, n, r, d, at, t);
    BehindOnce(w, r.pc, m.out, m.x.escape);
    assert Ends(w, loop, f, n, r, Did(Goes, d.s), m.out, false);
  }

  lemma RunsOn(w: seq<Line>, c: Command, m: Places, loop: Option<LoopLabels>, f: nat, a: Ip, d: Did, at: nat, t: bool,
          x: Did)
    requires Laid(w, c, m) && Runs(w, Some(m.x), f, a, d, at, t) && d.how.Continues? && f > 0
    requires Runs(w, loop, f - 1, Ip(if HasPost(c) then m.post else m.test, d.s), x, m.out, false)
    ensures Runs(w, loop, f, a, x, m.out, false)
  {
    hide Ended, Once, Behind;
    var n: nat, r :| M.Reaches(Stepper(w), a, n, r) && Ends(w, Some(m.x), f, n, r, d, at, t);
    var q := if HasPost(c) then m.post else m.test;
    BehindOnce(w, r.pc, q, ContinueTo(m.x));
    assert r == Ip(q, d.s);
    var n2: nat, r2 :| M.Reaches(Stepper(w), r, n2, r2) && Ends(w, loop, f - 1, n2, r2, x, m.out, false);
    M.ReachesTrans(Stepper(w), a, n, r, n2, r2);
    assert Ends(w, loop, f, n + n2, r2, x, m.out, false);
  }

  lemma {:induction false} SimAround(w: seq<Line>, c: Command, m: Places, loop: Option<LoopLabels>, top: bool, s: Log,
          f: nat)
    requires Laid(w, c, m) && InLoopsC(c, true) && (top || HasPost(c))
    ensures Runs(w, loop, f, Ip(if top then m.test else m.post, s), Around(c, top, s, f), m.out, false)
    decreases f, c, 4
  {
    hide Ended, Once, Behind, Runs, InLoopsC, DoB, DoN, DoOptC, PostPiece, Doing, After;
    if f == 0 {
      var a := Ip(if top then m.test else m.post, s);
      RunsHere(w, loop, f, a, Did(TooLong, s), m.out, false);
    } else if top {
      SimTop(w, c, m, loop, s, f);
    } else {
      var d := if c.For? then DoOptC(c.post, s, f) else Doing(s, [Advance, Advance, Advance]);
      SimPost(w, c, m, s, f);
      EndedSim(w, Some(m.x), f, m.post, s, d, PostPiece(c, m.lp, m.x), Jmp(m.x.cond));
      if d.how.Goes? { SimAround(w, c, m, loop, true, d.s, f - 1); }
      if d.how.Continues? { SimAround(w, c, m, loop, !HasPost(c), d.s, f - 1); }
      RunsTurn(w, c, m, loop, f, Ip(m.post, s), d, m.post + |PostPiece(c, m.lp, m.x).code|,
        PostPiece(c, m.lp, m.x).t, true);
    }
  }

  lemma EndedSim(w: seq<Line>, loop: Option<LoopLabels>, f: nat, p: nat, s: Log, d: Did, g: Piece, x: Line)
    requires Sim(w, loop, f, p, s, d, g) && Ended(w, p, g, x)
    ensures Runs(w, loop, f, Ip(p, s), d, p + |g.code|, g.t)
    ensures d.how.Goes? ==> p + |g.code| < |w| && w[p + |g.code|] == x
  {
    hide Runs, At;
    SimOpen(w, loop, f, p, s, d, g);
  }

  lemma {:induction false} SimTop(w: seq<Line>, c: Command, m: Places, loop: Option<LoopLabels>, s: Log, f: nat)
    requires Laid(w, c, m) && InLoopsC(c, true) && f > 0
    ensures Runs(w, loop, f, Ip(m.test, s), Around(c, true, s, f), m.out, false)
    decreases f, c, 3
  {
    hide Ended, Once, Behind, Runs, InLoopsC, DoB, DoN, Doing, After, TestPiece, PostPiece, BodyPiece, Binding;
    var d := if c.For? then DoN(c.cond, s, f) else Doing(s, [Test, Test, Test]);
    var g := TestPiece(c, m.lt, m.x);
    SimTest(w, c, m, s, f);
    EndedSim(w, Some(m.x), f, m.test, s, d, g, Br(m.loop, m.x.escape));
    var at := m.test + |g.code|;
    if d.how.Goes? {
      var x := if !Ready(d) then d else if !Answer(d) then Did(Goes, Rest(d))
        else After(c, DoB(c.body, Doing(Rest(d), Binding(c)).s, f), !HasPost(c), f);
      if Ready(d) {
        if Answer(d) { SimRound(w, c, m, loop, Rest(d), f); }
        else { RunsOutHere(w, loop, f, m.out, Rest(d)); }
      }
      RunsChoice(w, loop, f, at, d, m.loop, m.x.escape, m.body, m.out, x, m.out, false);
      RunsElsewhere(w, Some(m.x), loop, f, Ip(m.test, s), d, at, g.t);
      RunsSeq(w, loop, f, Ip(m.test, s), d, at, g.t, if Ready(d) then x else Unready(d), m.out, false);
    } else {
      if d.how.Continues? { SimAround(w, c, m, loop, !HasPost(c), d.s, f - 1); }
      RunsTurn(w, c, m, loop, f, Ip(m.test, s), d, at, g.t, true);
    }
  }

  lemma RunsOutHere(w: seq<Line>, loop: Option<LoopLabels>, f: nat, p: nat, s: Log)
    ensures Runs(w, loop, f, Ip(p, s), Did(Goes, s), p, false)
  {
    RunsHere(w, loop, f, Ip(p, s), Did(Goes, s), p, false);
  }

  lemma {:induction false} SimRound(w: seq<Line>, c: Command, m: Places, loop: Option<LoopLabels>, s: Log, f: nat)
    requires Laid(w, c, m) && InLoopsC(c, true) && f > 0
    ensures Runs(w, loop, f, Ip(m.body, s), After(c, DoB(c.body, Doing(s, Binding(c)).s, f), !HasPost(c), f),
      m.out, false)
    decreases f, c, 2
  {
    hide Ended, Once, Behind, Runs, InLoopsC, DoB, Doing, After, TestPiece, PostPiece, BodyPiece, Binding;
    var d := DoB(c.body, Doing(s, Binding(c)).s, f);
    var g := BodyPiece(c, m.lb, m.x);
    SimBody(w, c, m, s, f);
    EndedSim(w, Some(m.x), f, m.body, s, d, g, Jmp(ContinueTo(m.x)));
    if d.how.Goes? || d.how.Continues? { SimAround(w, c, m, loop, !HasPost(c), d.s, f - 1); }
    RunsTurn(w, c, m, loop, f, Ip(m.body, s), d, m.body + |g.code|, g.t, !HasPost(c));
  }

  lemma {:induction false} SimLoop(w: seq<Line>, c: Command, l: nat, loop: Option<LoopLabels>, p: nat, s: Log, f: nat)
    requires IsLoop(c) && Once(w) && At(w, p, GenLoop(c, l, false).code) && InLoopsC(c, true)
    ensures Sim(w, loop, f, p, s, DoLoop(c, s, f), GenLoop(c, l, false))
    decreases f, c, 5
  {
    hide Ended, Once, At, Runs, InLoopsC, DoOptC, DoN, Also, After, StartPiece, GenLoop, Laid;
    var m := LoopLaid(w, c, l, p);
    if f == 0 {
      RunsHere(w, loop, f, Ip(p, s), Did(TooLong, s), m.out, false);
    } else {
      var d := if c.For? then DoOptC(c.first, s, f)
        else Also(DoN(c.iterable, s, f), [Setup, Setup, Setup, Setup, Setup]);
      var g := StartPiece(c, m.x.escape + 1, m.x);
      EndedAt(w, p, g, Jmp(m.x.cond));
      SimStart(w, c, m, p, s, f);
      EndedSim(w, Some(m.x), f, p, s, d, g, Jmp(m.x.cond));
      if d.how.Goes? { SimAround(w, c, m, loop, true, d.s, f - 1); }
      if d.how.Continues? { SimAround(w, c, m, loop, !HasPost(c), d.s, f - 1); }
      RunsTurn(w, c, m, loop, f, Ip(p, s), d, p + |g.code|, g.t, true);
    }
  }

  lemma EndedAt(w: seq<Line>, p: nat, g: Piece, x: Line)
    requires Ended(w, p, g, x)
    ensures At(w, p, g.code)
  { }

  // ---------- functions ----------

  /** Every emitted function executes what its body means: for all outcomes of its branches the
      lines get, having executed the same, to a return where the body ends or returns, to an
      `unreachable` where it dies, and to a branch where outcomes run out. */
  lemma FunctionMeans(b: Body, outs: seq<bool>, f: nat) returns (n: nat, r: Ip)
    requires InLoopsB(b, false)
    ensures M.Reaches(Stepper(GenFunction(b)), Ip(0, Log(outs, [])), n, r)
    ensures var d, w := DoB(b, Log(outs, []), f), GenFunction(b);
      && !d.how.Breaks? && !d.how.Continues?
      && (if d.how.TooLong? then n >= f else r.s == d.s && r.pc < |w|)
      && (d.how.Goes? || d.how.Returns? ==> w[r.pc] == Ret)
      && (d.how.Dies? ==> w[r.pc] == Unreachable)
      && (d.how.Waits? ==> w[r.pc].Br? && r.s.outs == [])
  {
    hide InLoopsB, GenB, DoB, Once;
    var w, s := GenFunction(b), Log(outs, []);
    var g, d := GenB(b, 0, false, None), DoB(b, s, f);
    FunctionWellFormed(b);
    assert w[0..|g.code|] == g.code;
    SimB(w, b, 0, None, 0, s, f);
    SimOpen(w, None, f, 0, s, d, g);
    n, r :| M.Reaches(Stepper(w), Ip(0, s), n, r) && Ends(w, None, f, n, r, d, |g.code|, g.t);
  }
}
