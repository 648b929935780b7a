/** The emitted IR is made of blocks: every piece of it leads from an open or closed block to one,
    and defines each of its labels once. */
module IrShape {
  import opened Language
  import opened IrBlocks
  import opened IrCode

  /** A piece that begins with the next label `l` and the flag `t`: it defines the labels `d`, given
      out before, and new ones, and refers to its own labels and to `o`. */
  ghost predicate Fine(p: Piece, l: nat, t: bool, d: set<nat>, o: set<nat>)
  {
    l <= p.l && Emits(p.code, t, p.t, Range(l, p.l) + d, o) && d <= LabelsOf(p.code)
  }

  lemma FineCat(a: Piece, b: Piece, l: nat, t: bool, d1: set<nat>, d2: set<nat>, o: set<nat>)
    requires Fine(a, l, t, d1, o) && Fine(b, a.l, a.t, d2, o) && d1 !! d2 && forall n :: n in d1 + d2 ==> n < l
    ensures Fine(Cat(a, b), l, t, d1 + d2, o)
  {
    hide Emits, LabelsOf;
    Joined(a.code, b.code, t, a.t, b.t, Range(l, a.l) + d1, Range(a.l, b.l) + d2, o, o, Range(l, b.l) + (d1 + d2), o);
    LabelsAppend(a.code, b.code);
  }

  lemma FineSeq(a: Piece, b: Piece, l: nat, t: bool, o: set<nat>)
    requires Fine(a, l, t, {}, o) && Fine(b, a.l, a.t, {}, o)
    ensures Fine(Cat(a, b), l, t, {}, o)
  {
    var none: set<nat> := {};
    FineCat(a, b, l, t, none, none, o);
    assert none + none == none;
  }

  /** References to labels the piece defines itself are no longer open ones. */
  lemma Fewer(p: Piece, l: nat, t: bool, d: set<nat>, o: set<nat>, o': set<nat>)
    requires Fine(p, l, t, d, o) && o <= o' + d
    ensures Fine(p, l, t, d, o')
  {
    hide Scan, LabelsOf, TargetsOf, Once;
  }

  /** All labels given out for the piece are defined in it. */
  lemma Settled(p: Piece, l0: nat, l: nat, t: bool, d: set<nat>, o: set<nat>, o': set<nat>)
    requires Fine(p, l, t, d, o) && l0 <= l && o <= o' + d && forall n :: n in d ==> l0 <= n < l
    ensures Fine(p, l0, t, {}, o')
  {
    hide Scan, LabelsOf, TargetsOf, Once;
    assert Range(l, p.l) + d <= Range(l0, p.l) + {};
  }

  // ---------- instructions and terminators ----------

  lemma FineEmpty(l: nat, t: bool, o: set<nat>)
    ensures Fine(Piece([], l, t), l, t, {}, o)
  {
  }

  lemma FineWork(work: seq<Instr>, l: nat, t: bool, o: set<nat>)
    ensures Fine(Work(work, l, t), l, t, {}, o)
  {
    if !t { LinesEmit(work, o); }
  }

  lemma {:induction false} LinesEmit(work: seq<Instr>, o: set<nat>)
    ensures Emits(Lines(work), false, false, {}, o)
    decreases |work|
  {
    hide Emits;
    if work == [] {
      assert Lines(work) == [];
      None0(false, {}, o);
    } else {
      var a := Inst(work[0]);
      assert Lines(work) == [a] + Lines(work[1..]);
      assert TargetsOf([a]) == {};
      One(a, {}, o);
      LinesEmit(work[1..], o);
      Joined([a], Lines(work[1..]), false, false, false, {}, {}, o, o, {}, o);
    }
  }

  lemma FineClose(x: Line, l: nat, t: bool, o: set<nat>)
    requires Terminator(x) && TargetsOf([x]) <= o
    ensures Fine(Close(x, l, t), l, t, {}, o)
  {
    hide Emits;
    if t { None0(true, Range(l, l) + {}, o); } else { One(x, Range(l, l) + {}, o); }
  }

  lemma FineNext(x: Line, label_: nat, l: nat, t: bool, o: set<nat>)
    requires Terminator(x) && (!t ==> TargetsOf([x]) <= o) && label_ < l
    ensures Fine(Next(x, label_, l, t), l, t, {label_}, o)
  {
    hide Emits, LabelsOf, TargetsOf;
    var a, b, d := if t then [] else [x], [Label(label_)], Range(l, l) + {label_};
    if t { None0(true, {}, o); } else { One(x, {}, o); }
    OneLabel(label_, d, {});
    Joined(a, b, t, true, false, {}, d, o, {}, d, o);
    LabelsAppend(a, b);
  }

  lemma NoTargets(x: Line)
    requires !x.Jmp? && !x.Br?
    ensures TargetsOf([x]) == {}
  {
  }

  lemma JmpTargets(n: nat)
    ensures TargetsOf([Jmp(n)]) == {n}
  {
    assert Jmp(n) in [Jmp(n)];
  }

  lemma BrTargets(a: nat, b: nat)
    ensures TargetsOf([Br(a, b)]) == {a, b}
  {
    assert Br(a, b) in [Br(a, b)];
  }

  // ---------- expressions ----------

  lemma {:induction false} FineN(e: Node, l: nat, t: bool, loop: Option<LoopLabels>)
    requires InLoopsE(e, loop.Some?)
    ensures Fine(GenN(e, l, t, loop), l, t, {}, LoopTargets(loop))
    decreases e, 2
  {
    hide Fine, LoopTargets, Cat, Work, GenOp, GenUse, GenIf, GenResultMatch, GenOptionMatch, GenTypeMatch;
    var o := LoopTargets(loop);
    match e
    case Op(args, work) => FineOp(args, work, l, t, loop);
    case Checked(args, test, work) =>
      var p := GenOp(args, test, l, t, loop);
      FineOp(args, test, l, t, loop);
      FineCheck(p.l, p.t, o);
      FineSeq(p, GenCheck(p.l, p.t), l, t, o);
      CatIs(p, GenCheck(p.l, p.t));
      FineThen(Cat(p, GenCheck(p.l, p.t)), work, l, t, {}, o);
    case Wrapped(args, test, work) =>
      var p := GenOp(args, test, l, t, loop);
      FineOp(args, test, l, t, loop);
      FineWrap(p.l, p.t, o);
      FineSeq(p, GenWrap(p.l, p.t), l, t, o);
      CatIs(p, GenWrap(p.l, p.t));
      FineThen(Cat(p, GenWrap(p.l, p.t)), work, l, t, {}, o);
    case Panic(a) =>
      var p := GenUse(a, [Panics], l, t, loop);
      FineUse(a, [Panics], l, t, loop);
      NoTargets(Unreachable);
      FineClose(Unreachable, p.l, p.t, o);
      FineSeq(p, Close(Unreachable, p.l, p.t), l, t, o);
    case If(_, _, _, _) => FineIf(e, l, t, loop);
    case ResultMatch(_, _, _, _) => FineResultMatch(e, l, t, loop);
    case OptionMatch(_, _, _, _) => FineOptionMatch(e, l, t, loop);
    case TypeMatch(_, _, _, _) => FineTypeMatch(e, l, t, loop);
  }

  /** A piece and instructions behind it. */
  lemma FineThen(p: Piece, work: seq<Instr>, l: nat, t: bool, d: set<nat>, o: set<nat>)
    requires Fine(p, l, t, d, o) && forall n :: n in d ==> n < l
    ensures Fine(Cat(p, Work(work, p.l, p.t)), l, t, d, o)
  {
    hide Fine;
    FineWork(work, p.l, p.t, o);
    FineCat(p, Work(work, p.l, p.t), l, t, d, {}, o);
    assert d + {} == d;
  }

  lemma {:induction false} FineAll(es: Nodes, l: nat, t: bool, loop: Option<LoopLabels>)
    requires InLoopsN(es, loop.Some?)
    ensures Fine(GenAll(es, l, t, loop), l, t, {}, LoopTargets(loop))
    decreases es, 3
  {
    hide Fine, LoopTargets, Cat, GenN;
    match es
    case NoNodes => FineEmpty(l, t, LoopTargets(loop));
    case Nodes(e, rest) =>
      var p := GenN(e, l, t, loop);
      FineN(e, l, t, loop);
      FineAll(rest, p.l, p.t, loop);
      FineSeq(p, GenAll(rest, p.l, p.t, loop), l, t, LoopTargets(loop));
  }

  lemma {:induction false} FineOp(args: Nodes, work: seq<Instr>, l: nat, t: bool, loop: Option<LoopLabels>)
    requires InLoopsN(args, loop.Some?)
    ensures Fine(GenOp(args, work, l, t, loop), l, t, {}, LoopTargets(loop))
    decreases args, 4
  {
    hide Fine, LoopTargets, Cat, GenAll, Work;
    FineAll(args, l, t, loop);
    FineThen(GenAll(args, l, t, loop), work, l, t, {}, LoopTargets(loop));
  }

  lemma {:induction false} FineUse(e: Node, work: seq<Instr>, l: nat, t: bool, loop: Option<LoopLabels>)
    requires InLoopsE(e, loop.Some?)
    ensures Fine(GenUse(e, work, l, t, loop), l, t, {}, LoopTargets(loop))
    decreases e, 3
  {
    hide Fine, LoopTargets, Cat, GenN, Work;
    FineN(e, l, t, loop);
    FineThen(GenN(e, l, t, loop), work, l, t, {}, LoopTargets(loop));
  }

  lemma FineCheck(l: nat, t: bool, o: set<nat>)
    ensures Fine(GenCheck(l, t), l, t, {}, o)
  {
    hide Fine, Cat, Work, Next;
    var o' := {l, l + 1};
    var a := Next(Br(l, l + 1), l + 1, l + 2, t);
    var b := Cat(a, Work([Panics], l + 2, false));
    var c := Next(Unreachable, l, l + 2, false);
    BrTargets(l, l + 1);
    NoTargets(Unreachable);
    FineNext(Br(l, l + 1), l + 1, l + 2, t, o');
    NextIs(Br(l, l + 1), l + 1, l + 2, t);
    FineThen(a, [Panics], l + 2, t, {l + 1}, o');
    FineNext(Unreachable, l, l + 2, false, o');
    WorkIs([Panics], l + 2, false);
    FineCat(b, c, l + 2, t, {l + 1}, {l}, o');
    Settled(Cat(b, c), l, l + 2, t, {l + 1} + {l}, o', o);
  }

  lemma NextIs(x: Line, label_: nat, l: nat, t: bool)
    ensures Next(x, label_, l, t).l == l && !Next(x, label_, l, t).t
  { }

  /** The label counter and flag of a piece of instructions, and of what it is added to. */
  lemma WorkIs(work: seq<Instr>, l: nat, t: bool)
    ensures Work(work, l, t).l == l && Work(work, l, t).t == t
    ensures forall p :: Cat(p, Work(work, l, t)).l == l && Cat(p, Work(work, l, t)).t == t
  { }

  lemma FineWrap(l: nat, t: bool, o: set<nat>)
    ensures Fine(GenWrap(l, t), l, t, {}, o)
  {
    hide Fine, Cat, Work, Next;
    var o' := {l, l + 1, l + 2};
    var a := Next(Br(l, l + 1), l, l + 3, t);
    var b := Cat(a, Work([LastError], l + 3, false));
    var c := Next(Jmp(l + 2), l + 1, l + 3, false);
    var d := Next(Jmp(l + 2), l + 2, l + 3, false);
    BrTargets(l, l + 1);
    JmpTargets(l + 2);
    FineNext(Br(l, l + 1), l, l + 3, t, o');
    NextIs(Br(l, l + 1), l, l + 3, t);
    FineThen(a, [LastError], l + 3, t, {l}, o');
    WorkIs([LastError], l + 3, false);
    FineNext(Jmp(l + 2), l + 1, l + 3, false, o');
    FineCat(b, c, l + 3, t, {l}, {l + 1}, o');
    NextIs(Jmp(l + 2), l + 1, l + 3, false);
    CatIs(b, c);
    FineNext(Jmp(l + 2), l + 2, l + 3, false, o');
    FineCat(Cat(b, c), d, l + 3, t, {l} + {l + 1}, {l + 2}, o');
    Settled(Cat(Cat(b, c), d), l, l + 3, t, {l} + {l + 1} + {l + 2}, o', o);
  }

  lemma CatIs(a: Piece, b: Piece)
    ensures Cat(a, b).l == b.l && Cat(a, b).t == b.t
  { }

  lemma {:induction false} FineArm(pre: seq<Instr>, b: Body, post: seq<Instr>, merge: nat, next: nat, l: nat, t: bool,
          loop: Option<LoopLabels>, o: set<nat>)
    requires InLoopsB(b, loop.Some?) && next < l && LoopTargets(loop) <= o
    requires !GenB(b, l, t, loop).t ==> merge in o
    ensures Fine(GenArm(pre, b, post, merge, next, l, t, loop), l, t, {next}, o)
      && GenArm(pre, b, post, merge, next, l, t, loop).t == false
    decreases b, 4
  {
    hide Fine, LoopTargets, GenB, Lines, InLoopsB;
    var p := Work(pre, l, t);
    var q := GenB(b, p.l, p.t, loop);
    var r := Cat(p, q);
    var s := Cat(r, Work(post, q.l, q.t));
    FineWork(pre, l, t, o);
    FineB(b, l, t, loop);
    Fewer(q, l, t, {}, LoopTargets(loop), o);
    FineSeq(p, q, l, t, o);
    FineThen(r, post, l, t, {}, o);
    LAtLeast(r, l, t, {}, o);
    JmpTargets(merge);
    FineNext(Jmp(merge), next, q.l, q.t, o);
    FineCat(s, Next(Jmp(merge), next, q.l, q.t), l, t, {}, {next}, o);
    assert {} + {next} == {next};
  }

  lemma LAtLeast(p: Piece, l: nat, t: bool, d: set<nat>, o: set<nat>)
    requires Fine(p, l, t, d, o)
    ensures l <= p.l
  { }

  lemma {:induction false} FineTwo(e: Node, yes: nat, no: nat, end: nat, pre1: seq<Instr>, pre2: seq<Instr>,
          post: seq<Instr>,
          l0: nat, l: nat, t: bool, loop: Option<LoopLabels>)
    requires TwoArms(e) && InLoopsE(e, loop.Some?) && yes == l0 && no == l0 + 1 && end == l0 + 2 && l == l0 + 3
    ensures Fine(GenTwo(e, yes, no, end, pre1, pre2, post, l, t, loop), l0, t, {}, LoopTargets(loop))
    ensures !GenTwo(e, yes, no, end, pre1, pre2, post, l, t, loop).t
    decreases e, 0
  {
    hide Fine, LoopTargets, GenArm, Next, Cat, GenB;
    var o := LoopTargets(loop) + {yes, no, end};
    var p := Next(Br(yes, no), yes, l, t);
    var q := GenArm(pre1, FirstArm(e), post, end, no, p.l, p.t, loop);
    var r := GenArm(pre2, SecondArm(e), post, end, end, q.l, q.t, loop);
    NextIs(Br(yes, no), yes, l, t);
    BrTargets(yes, no);
    FineNext(Br(yes, no), yes, l, t, o);
    FineArm(pre1, FirstArm(e), post, end, no, l, false, loop, o);
    LAtLeast(q, l, false, {no}, o);
    FineCat(p, q, l, t, {yes}, {no}, o);
    FineArm(pre2, SecondArm(e), post, end, end, q.l, false, loop, o);
    CatIs(p, q);
    CatIs(Cat(p, q), r);
    FineCat(Cat(p, q), r, l, t, {yes} + {no}, {end}, o);
    Settled(Cat(Cat(p, q), r), l0, l, t, {yes} + {no} + {end}, o, LoopTargets(loop));
  }

  lemma {:induction false} FineIf(e: Node, l: nat, t: bool, loop: Option<LoopLabels>)
    requires e.If? && InLoopsE(e, loop.Some?)
    ensures Fine(GenIf(e, l, t, loop), l, t, {}, LoopTargets(loop))
    decreases e, 1
  {
    hide Fine, LoopTargets, Cat, Work, Next, GenN, GenArm, GenTwo, InLoopsB, GenB;
    var lt := LoopTargets(loop);
    var p := GenN(e.cond, l, t, loop);
    FineN(e.cond, l, t, loop);
    LAtLeast(p, l, t, {}, lt);
    if e.alt.Some? {
      var q := GenTwo(e, p.l, p.l + 1, p.l + 2, [], [], [], p.l + 3, p.t, loop);
      FineTwo(e, p.l, p.l + 1, p.l + 2, [], [], [], p.l, p.l + 3, p.t, loop);
      FineSeq(p, q, l, t, lt);
      CatIs(p, q);
      FineThen(Cat(p, q), Kept(e.valued, Fetch), l, t, {}, lt);
    } else {
      var yes, end, l1 := p.l, p.l + 1, p.l + 2;
      var o := lt + {yes, end};
      var b := Next(Br(yes, end), yes, l1, p.t);
      NextIs(Br(yes, end), yes, l1, p.t);
      var a := GenArm([], e.cons, [], end, end, b.l, b.t, loop);
      BrTargets(yes, end);
      FineNext(Br(yes, end), yes, l1, p.t, o);
      FineArm([], e.cons, [], end, end, l1, false, loop, o);
      FineCat(b, a, l1, p.t, {yes}, {end}, o);
      Settled(Cat(b, a), yes, l1, p.t, {yes} + {end}, o, lt);
      FineSeq(p, Cat(b, a), l, t, lt);
      CatIs(p, Cat(b, a));
      FineThen(Cat(p, Cat(b, a)), Kept(e.valued, Fetch), l, t, {}, lt);
    }
  }

  lemma {:induction false} FineResultMatch(e: Node, l: nat, t: bool, loop: Option<LoopLabels>)
    requires e.ResultMatch? && InLoopsE(e, loop.Some?)
    ensures Fine(GenResultMatch(e, l, t, loop), l, t, {}, LoopTargets(loop))
    decreases e, 1
  {
    hide Fine, LoopTargets, Cat, Work, GenUse, GenTwo, InLoopsB, GenB, Closes;
    var lt := LoopTargets(loop);
    var p := GenUse(e.subject, [Tag, Tag], l, t, loop);
    FineUse(e.subject, [Tag, Tag], l, t, loop);
    LAtLeast(p, l, t, {}, lt);
    var q := GenTwo(e, p.l, p.l + 1, p.l + 2, [Bind, Bind, Bind], [Bind, Bind, Bind], Kept(e.valued, Store),
      p.l + 3, p.t,
      loop);
    FineTwo(e, p.l, p.l + 1, p.l + 2, [Bind, Bind, Bind], [Bind, Bind, Bind], Kept(e.valued, Store), p.l, p.l + 3, p.t,
      loop);
    FineSeq(p, q, l, t, lt);
    CatIs(p, q);
    NoTargets(Unreachable);
    FineClose(Unreachable, q.l, q.t, lt);
    FineSeq(Cat(p, q), Close(Unreachable, q.l, q.t), l, t, lt);
    FineThen(Cat(p, q), Kept(e.valued, Fetch), l, t, {}, lt);
  }

  lemma {:induction false} FineOptionMatch(e: Node, l: nat, t: bool, loop: Option<LoopLabels>)
    requires e.OptionMatch? && InLoopsE(e, loop.Some?)
    ensures Fine(GenOptionMatch(e, l, t, loop), l, t, {}, LoopTargets(loop))
    decreases e, 1
  {
    hide Fine, LoopTargets, Cat, Work, GenUse, GenTwo, InLoopsB, GenB;
    var lt := LoopTargets(loop);
    var p := GenUse(e.subject, [Tag, Tag], l, t, loop);
    FineUse(e.subject, [Tag, Tag], l, t, loop);
    LAtLeast(p, l, t, {}, lt);
    var q := GenTwo(e, p.l, p.l + 1, p.l + 2, [Bind, Bind, Bind], [], Kept(e.valued, Store), p.l + 3, p.t, loop);
    FineTwo(e, p.l, p.l + 1, p.l + 2, [Bind, Bind, Bind], [], Kept(e.valued, Store), p.l, p.l + 3, p.t, loop);
    FineSeq(p, q, l, t, lt);
    CatIs(p, q);
    FineThen(Cat(p, q), Kept(e.valued, Fetch), l, t, {}, lt);
  }

  lemma {:induction false} FineTypeArm(b: Body, end: nat, valued: bool, l: nat, t: bool, loop: Option<LoopLabels>,
          o: set<nat>)
    requires InLoopsB(b, loop.Some?) && LoopTargets(loop) <= o && (Closes(b, l + 2, loop) || end in o)
    ensures Fine(GenTypeArm(b, end, valued, l, t, loop), l, t, {}, o)
    decreases b, 5
  {
    hide Fine, LoopTargets, Cat, Work, Next, GenArm, GenB, InLoopsB;
    var o' := o + {l, l + 1};
    var w := Work([Tag], l + 2, t);
    var n := Next(Br(l, l + 1), l, l + 2, t);
    var p := Cat(w, n);
    var a := GenArm([Bind, Bind], b, Kept(valued, Store), end, l + 1, p.l, p.t, loop);
    FineWork([Tag], l + 2, t, o');
    WorkIs([Tag], l + 2, t);
    BrTargets(l, l + 1);
    FineNext(Br(l, l + 1), l, l + 2, t, o');
    NextIs(Br(l, l + 1), l, l + 2, t);
    CatIs(w, n);
    FineCat(w, n, l + 2, t, {}, {l}, o');
    FineArm([Bind, Bind], b, Kept(valued, Store), end, l + 1, l + 2, false, loop, o');
    FineCat(p, a, l + 2, t, {} + {l}, {l + 1}, o');
    Settled(Cat(p, a), l, l + 2, t, {} + {l} + {l + 1}, o', o);
  }

  lemma {:induction false} FineArms(arms: Bodies, end: nat, valued: bool, l: nat, t: bool, loop: Option<LoopLabels>,
          o: set<nat>)
    requires InLoopsA(arms, loop.Some?) && LoopTargets(loop) <= o
      && (GenArms(arms, end, valued, l, t, loop).1 || end in o)
    ensures Fine(GenArms(arms, end, valued, l, t, loop).0, l, t, {}, o)
    decreases arms, 5
  {
    hide Fine, LoopTargets, Cat, GenTypeArm, Closes, InLoopsB;
    match arms
    case NoBodies => FineEmpty(l, t, o);
    case Bodies(b, rest) =>
      var p := GenTypeArm(b, end, valued, l, t, loop);
      FineTypeArm(b, end, valued, l, t, loop, o);
      FineArms(rest, end, valued, p.l, p.t, loop, o);
      FineSeq(p, GenArms(rest, end, valued, p.l, p.t, loop).0, l, t, o);
  }

  lemma {:induction false} FineDefault(default: Option<Body>, end: nat, valued: bool, l: nat, t: bool,
          loop: Option<LoopLabels>,
          o: set<nat>)
    requires default.Some? ==> InLoopsB(default.value, loop.Some?)
    requires LoopTargets(loop) <= o && (DefaultCloses(default, l, t, loop) || end in o)
    ensures Fine(GenDefault(default, end, valued, l, t, loop), l, t, {}, o)
    ensures GenDefault(default, end, valued, l, t, loop).t
    decreases default, 5
  {
    hide Fine, LoopTargets, GenB, InLoopsB, Lines;
    JmpTargets(end);
    match default
    case None => FineClose(Jmp(end), l, t, o);
    case Some(b) =>
      var p := GenB(b, l, t, loop);
      var q := Cat(p, Work(Kept(valued, Store), p.l, p.t));
      FineB(b, l, t, loop);
      Fewer(p, l, t, {}, LoopTargets(loop), o);
      FineThen(p, Kept(valued, Store), l, t, {}, o);
      if q.t { FineEmpty(q.l, q.t, o); } else { FineClose(Jmp(end), q.l, q.t, o); }
      FineSeq(q, Close(Jmp(end), q.l, q.t), l, t, o);
  }

  lemma {:induction false} FineTypeMatch(e: Node, l: nat, t: bool, loop: Option<LoopLabels>)
    requires e.TypeMatch? && InLoopsE(e, loop.Some?)
    ensures Fine(GenTypeMatch(e, l, t, loop), l, t, {}, LoopTargets(loop))
    decreases e, 1
  {
    hide Fine, LoopTargets, Cat, GenUse, GenArms, GenDefault, InLoopsB, InLoopsA, DefaultCloses, Lines, LabelsOf, Emits;
    var lt := LoopTargets(loop);
    var p := GenUse(e.subject, [Tag, Tag], l, t, loop);
    var end := p.l;
    FineUse(e.subject, [Tag, Tag], l, t, loop);
    LAtLeast(p, l, t, {}, lt);
    var (q, all) := GenArms(e.arms, end, e.valued, end + 1, p.t, loop);
    var r := GenDefault(e.default, end, e.valued, q.l, q.t, loop);
    var done := all && DefaultCloses(e.default, q.l, q.t, loop);
    var o := lt + if done then {} else {end};
    FineArms(e.arms, end, e.valued, end + 1, p.t, loop, o);
    LAtLeast(q, end + 1, p.t, {}, o);
    Settled(q, end + 1, end + 1, p.t, {}, o, o);
    FineDefault(e.default, end, e.valued, q.l, q.t, loop, o);
    FineSeq(q, r, end + 1, p.t, o);
    CatIs(q, r);
    LAtLeast(r, q.l, q.t, {}, o);
    CatAssoc(p, q, r);
    if done {
      assert lt + {} == lt;
      Settled(Cat(q, r), end, end + 1, p.t, {}, o, lt);
      FineSeq(p, Cat(q, r), l, t, lt);
    } else {
      var z := Piece([Label(end)] + Lines(Kept(e.valued, Fetch)), r.l, false);
      FineEnd(end, Kept(e.valued, Fetch), r.l, o);
      FineCat(Cat(q, r), z, end + 1, p.t, {}, {end}, o);
      Settled(Cat(Cat(q, r), z), end, end + 1, p.t, {} + {end}, o, lt);
      CatAssoc(p, Cat(q, r), z);
      FineSeq(p, Cat(Cat(q, r), z), l, t, lt);
    }
  }

  lemma CatAssoc(a: Piece, b: Piece, c: Piece)
    ensures Cat(Cat(a, b), c) == Cat(a, Cat(b, c))
  {
    assert a.code + b.code + c.code == a.code + (b.code + c.code);
  }

  lemma FineEnd(end: nat, work: seq<Instr>, l: nat, o: set<nat>)
    ensures Fine(Piece([Label(end)] + Lines(work), l, false), l, true, {end}, o)
  {
    hide LabelsOf, Emits;
    var d := Range(l, l) + {end};
    OneLabel(end, d, {});
    LinesEmit(work, o);
    Joined([Label(end)], Lines(work), true, false, false, d, {}, {}, o, d, o);
    LabelsAppend([Label(end)], Lines(work));
  }

  // ---------- statements ----------

  lemma {:induction false} FineB(b: Body, l: nat, t: bool, loop: Option<LoopLabels>)
    requires InLoopsB(b, loop.Some?)
    ensures Fine(GenB(b, l, t, loop), l, t, {}, LoopTargets(loop))
    decreases b, 3
  {
    hide Fine, LoopTargets, Cat, GenC, InLoopsC;
    match b
    case End => FineEmpty(l, t, LoopTargets(loop));
    case Then(c, rest) =>
      var p := GenC(c, l, t, loop);
      FineC(c, l, t, loop);
      FineB(rest, p.l, p.t, loop);
      FineSeq(p, GenB(rest, p.l, p.t, loop), l, t, LoopTargets(loop));
  }

  lemma {:induction false} FineC(c: Command, l: nat, t: bool, loop: Option<LoopLabels>)
    requires InLoopsC(c, loop.Some?)
    ensures Fine(GenC(c, l, t, loop), l, t, {}, LoopTargets(loop))
    decreases c, 2
  {
    hide Fine, LoopTargets, GenN, GenLoop, InLoopsE, InLoopsB, Close;
    var o := LoopTargets(loop);
    match c
    case Eval(e) => FineN(e, l, t, loop);
    case Return(v) => FineReturn(v, l, t, loop);
    case For(_, _, _, _) => FineLoop(c, l, t, o);
    case ForIn(_, _) => FineLoop(c, l, t, o);
    case Break =>
      JumpTargets(loop);
      FineJump(loop.value.escape, l, t, loop);
    case Continue =>
      JumpTargets(loop);
      FineJump(ContinueTo(loop.value), l, t, loop);
  }

  lemma FineJump(n: nat, l: nat, t: bool, loop: Option<LoopLabels>)
    requires n in LoopTargets(loop)
    ensures Fine(Close(Jmp(n), l, t), l, t, {}, LoopTargets(loop))
  {
    JmpTargets(n);
    FineClose(Jmp(n), l, t, LoopTargets(loop));
  }

  lemma {:induction false} FineReturn(v: Option<Node>, l: nat, t: bool, loop: Option<LoopLabels>)
    requires v.Some? ==> InLoopsE(v.value, loop.Some?)
    ensures Fine(GenC(Return(v), l, t, loop), l, t, {}, LoopTargets(loop))
    decreases v, 2
  {
    hide Fine, LoopTargets, Cat, GenN, Close, InLoopsE;
    var o := LoopTargets(loop);
    NoTargets(Ret);
    match v
    case None =>
      FineEmpty(l, t, o);
      FineClose(Ret, l, t, o);
      FineSeq(Piece([], l, t), Close(Ret, l, t), l, t, o);
    case Some(e) =>
      var p := GenN(e, l, t, loop);
      FineN(e, l, t, loop);
      FineClose(Ret, p.l, p.t, o);
      FineSeq(p, Close(Ret, p.l, p.t), l, t, o);
  }

  lemma JumpTargets(loop: Option<LoopLabels>)
    requires loop.Some?
    ensures loop.value.escape in LoopTargets(loop) && ContinueTo(loop.value) in LoopTargets(loop)
  { }

  lemma {:induction false} FineOptC(c: Option<Command>, l: nat, t: bool, loop: Option<LoopLabels>)
    requires c.Some? ==> InLoopsC(c.value, loop.Some?)
    ensures Fine(GenOptC(c, l, t, loop), l, t, {}, LoopTargets(loop))
    decreases c, 3
  {
    hide Fine, LoopTargets, GenC, InLoopsC;
    match c case None => FineEmpty(l, t, LoopTargets(loop)); case Some(x) => FineC(x, l, t, loop);
  }

  function PostSet(x: LoopLabels): set<nat> { if x.post.Some? then {x.post.value} else {} }

  lemma {:induction false} FineStart(c: Command, l: nat, t: bool, x: LoopLabels)
    requires IsLoop(c) && InLoopsC(c, true)
    ensures Fine(GenStart(c, l, t, Some(x)), l, t, {}, LoopTargets(Some(x)))
    decreases c, 0
  {
    hide Fine, LoopTargets, GenOptC, GenUse, InLoopsE, InLoopsB;
    if c.For? { FineOptC(c.first, l, t, Some(x)); }
    else { FineUse(c.iterable, [Setup, Setup, Setup, Setup, Setup], l, t, Some(x)); }
  }

  lemma {:induction false} FineTest(c: Command, l: nat, t: bool, x: LoopLabels)
    requires IsLoop(c) && InLoopsC(c, true)
    ensures Fine(GenTest(c, l, t, Some(x)), l, t, {}, LoopTargets(Some(x)))
    decreases c, 0
  {
    hide Fine, LoopTargets, GenN, Work, InLoopsE, InLoopsB;
    if c.For? { FineN(c.cond, l, t, Some(x)); } else { FineWork([Test, Test, Test], l, t, LoopTargets(Some(x))); }
  }

  /** A piece, a terminator, and the label of the next block. */
  lemma FineEnding(p: Piece, x: Line, label_: nat, l: nat, t: bool, o: set<nat>)
    requires Fine(p, l, t, {}, o) && Terminator(x) && TargetsOf([x]) <= o && label_ < l
    ensures var r := Cat(p, Next(x, label_, p.l, p.t)); Fine(r, l, t, {label_}, o) && r.l == p.l && !r.t
  {
    hide Fine, TargetsOf;
    LAtLeast(p, l, t, {}, o);
    FineNext(x, label_, p.l, p.t, o);
    FineCat(p, Next(x, label_, p.l, p.t), l, t, {}, {label_}, o);
    assert {} + {label_} == {label_};
  }

  lemma {:induction false} FineLoop(c: Command, l: nat, t: bool, o: set<nat>)
    requires IsLoop(c) && InLoopsC(c, true)
    ensures Fine(GenLoop(c, l, t), l, t, {}, o)
    decreases c, 1
  {
    hide Fine, LoopTargets, Cat, Next, GenStart, GenTest, GenTail, InLoopsC, TargetsOf, PostSet;
    var x := LabelsFrom(c, l);
    var l1, lt := x.escape + 1, LoopTargets(Some(x));
    var o' := lt + {x.cond, l + 1, x.escape};
    var p := GenStart(c, l1, t, Some(x));
    var q := Cat(p, Next(Jmp(x.cond), x.cond, p.l, p.t));
    FineStart(c, l1, t, x);
    Fewer(p, l1, t, {}, lt, o');
    JmpTargets(x.cond);
    FineEnding(p, Jmp(x.cond), x.cond, l1, t, o');
    LAtLeast(q, l1, t, {x.cond}, o');
    var r := GenTest(c, q.l, q.t, Some(x));
    var r' := Cat(r, Next(Br(l + 1, x.escape), l + 1, r.l, r.t));
    FineTest(c, q.l, q.t, x);
    Fewer(r, q.l, q.t, {}, lt, o');
    BrTargets(l + 1, x.escape);
    FineEnding(r, Br(l + 1, x.escape), l + 1, q.l, q.t, o');
    LAtLeast(r', q.l, q.t, {l + 1}, o');
    var s, d := Cat(q, r'), {x.cond} + {l + 1};
    FineCat(q, r', l1, t, {x.cond}, {l + 1}, o');
    CatIs(q, r');
    FineLoopTail(c, x, l, s, t, o', o);
  }

  lemma {:induction false} FineLoopTail(c: Command, x: LoopLabels, l: nat, s: Piece, t: bool, o': set<nat>, o: set<nat>)
    requires IsLoop(c) && InLoopsC(c, true) && x == LabelsFrom(c, l) && !s.t && x.escape < s.l
    requires o' == LoopTargets(Some(x)) + {x.cond, l + 1, x.escape}
    requires Fine(s, x.escape + 1, t, {x.cond} + {l + 1}, o')
    ensures Fine(Cat(s, GenTail(c, x, s.l, s.t)), l, t, {}, o)
    decreases c, 0, 2
  {
    hide Fine, LoopTargets, Cat, GenTail, InLoopsC;
    var d1, d2 := {x.cond} + {l + 1}, {x.escape} + PostSet(x);
    var z := GenTail(c, x, s.l, s.t);
    FineTail(c, x, s.l);
    Fewer(z, s.l, false, d2, LoopTargets(Some(x)) + {x.cond}, o');
    FineCat(s, z, x.escape + 1, t, d1, d2, o');
    TargetsOfLoop(c, l);
    Settled(Cat(s, z), l, x.escape + 1, t, d1 + d2, o', o);
  }

  lemma TargetsOfLoop(c: Command, l: nat)
    requires IsLoop(c)
    ensures var x := LabelsFrom(c, l); LoopTargets(Some(x)) <= {x.cond, x.escape} + PostSet(x)
  { }

  lemma {:induction false} FineTail(c: Command, x: LoopLabels, l: nat)
    requires IsLoop(c) && InLoopsC(c, true) && x.escape < l && (x.post.Some? ==> x.post.value < x.escape)
    ensures Fine(GenTail(c, x, l, false), l, false, {x.escape} + PostSet(x), LoopTargets(Some(x)) + {x.cond})
    decreases c, 0, 1
  {
    hide Fine, LoopTargets, Cat, Next, Work, GenB, GenPost, InLoopsB, InLoopsE;
    var lt := LoopTargets(Some(x));
    var o := lt + {x.cond};
    var w := Work(Binding(c), l, false);
    var b := GenB(c.body, w.l, w.t, Some(x));
    var q := Cat(w, b);
    FineWork(Binding(c), l, false, o);
    WorkIs(Binding(c), l, false);
    FineB(c.body, l, false, Some(x));
    Fewer(b, l, false, {}, lt, o);
    LAtLeast(b, l, false, {}, lt);
    FineSeq(w, b, l, false, o);
    CatIs(w, b);
    var p := GenPost(c, x, q.l, q.t);
    FinePost(c, x, q.l, q.t);
    Fewer(p, q.l, q.t, PostSet(x), lt, o);
    LAtLeast(p, q.l, q.t, PostSet(x), lt);
    FineCat(q, p, l, false, {}, PostSet(x), o);
    CatIs(q, p);
    var r := Cat(q, p);
    JmpTargets(x.cond);
    FineNext(Jmp(x.cond), x.escape, r.l, r.t, o);
    FineCat(r, Next(Jmp(x.cond), x.escape, r.l, r.t), l, false, {} + PostSet(x), {x.escape}, o);
    assert {} + PostSet(x) + {x.escape} == {x.escape} + PostSet(x);
  }

  lemma {:induction false} FinePost(c: Command, x: LoopLabels, l: nat, t: bool)
    requires IsLoop(c) && InLoopsC(c, true) && (x.post.Some? ==> x.post.value < l)
    ensures Fine(GenPost(c, x, l, t), l, t, PostSet(x), LoopTargets(Some(x)))
    decreases c, 0, 0
  {
    hide Fine, Cat, Next, Work, GenOptC, InLoopsB, InLoopsE, InLoopsC;
    var lt := LoopTargets(Some(x));
    if x.post.None? {
      FineEmpty(l, t, lt);
    } else {
      var n := x.post.value;
      var p := Next(Jmp(n), n, l, t);
      JmpTargets(n);
      FineNext(Jmp(n), n, l, t, lt);
      NextIs(Jmp(n), n, l, t);
      if c.ForIn? {
        FineThen(p, [Advance, Advance, Advance], l, t, {n}, lt);
      } else {
        if c.post.Some? { PostInLoop(c); }
        FineOptC(c.post, l, false, Some(x));
        FineCat(p, GenOptC(c.post, p.l, p.t, Some(x)), l, t, {n}, {}, lt);
        assert {n} + {} == {n};
      }
    }
  }

  lemma PostInLoop(c: Command)
    requires c.For? && InLoopsC(c, true) && c.post.Some?
    ensures InLoopsC(c.post.value, true)
  { }

  // ---------- functions ----------

  /** Every block has exactly one terminator and it is last; every label is defined at most
      once; and every branch leads to a label that is defined. */
  ghost predicate WellFormed(code: seq<Line>)
  {
    Scan(false, code) == Some(true) && Once(code) && TargetsOf(code) <= LabelsOf(code)
  }

  lemma FunctionWellFormed(b: Body)
    requires InLoopsB(b, false)
    ensures WellFormed(GenFunction(b)) && Terminated(false, GenFunction(b))
  {
    hide GenB, InLoopsB, Scan, LabelsOf, TargetsOf, Once, Terminated;
    var p := GenB(b, 0, false, None);
    FineB(b, 0, false, None);
    NoTargets(Ret);
    FineClose(Ret, p.l, p.t, {});
    FineSeq(p, Close(Ret, p.l, p.t), 0, false, {});
    assert GenFunction(b) == Cat(p, Close(Ret, p.l, p.t)).code;
    ScanExact(false, GenFunction(b));
  }
}
