/** Expressions and statements as far as control flow is concerned, and the IR the emitter writes
    for them, as a function (irgen/emitter.go). */
module IrCode {
  import opened Language
  import opened IrBlocks

  /** Expressions; `work` is the instructions they emit after their operands. A division or an
      access to an array element is `Checked`: the instructions that test the operands come before
      the branch, the others behind it. A call of a builtin whose result is `Wrapped` is the same
      with two blocks that meet again. A valued `If` or match leaves a result. */
  datatype Node =
    | Op(args: Nodes, work: seq<Instr>)
    | Checked(args: Nodes, test: seq<Instr>, work: seq<Instr>)
    | Wrapped(args: Nodes, test: seq<Instr>, work: seq<Instr>)
    | Panic(arg: Node)
    | If(cond: Node, cons: Body, alt: Option<Body>, valued: bool)
    | ResultMatch(subject: Node, ok: Body, err: Body, valued: bool)
    | OptionMatch(subject: Node, some: Body, none: Body, valued: bool)
    | TypeMatch(subject: Node, arms: Bodies, default: Option<Body>, valued: bool)

  datatype Nodes = NoNodes | Nodes(head: Node, tail: Nodes)

  datatype Bodies = NoBodies | Bodies(head: Body, tail: Bodies)

  /** Statements. A for-in loop has an iterable instead of initialisation and condition. */
  datatype Command =
    | Eval(e: Node)
    | Return(value: Option<Node>)
    | For(first: Option<Command>, cond: Node, post: Option<Command>, body: Body)
    | ForIn(iterable: Node, body: Body)
    | Break
    | Continue

  datatype Body = End | Then(head: Command, tail: Body)

  // ---------- break and continue are inside loop ----------

  predicate InLoopsE(e: Node, loop: bool)
  {
    match e
    case Op(args, _) => InLoopsN(args, loop)
    case Checked(args, _, _) => InLoopsN(args, loop)
    case Wrapped(args, _, _) => InLoopsN(args, loop)
    case Panic(a) => InLoopsE(a, loop)
    case If(c, a, b, _) => InLoopsE(c, loop) && InLoopsB(a, loop) && (b.Some? ==> InLoopsB(b.value, loop))
    case ResultMatch(s, a, b, _) => InLoopsE(s, loop) && InLoopsB(a, loop) && InLoopsB(b, loop)
    case OptionMatch(s, a, b, _) => InLoopsE(s, loop) && InLoopsB(a, loop) && InLoopsB(b, loop)
    case TypeMatch(s, arms, d, _) => InLoopsE(s, loop) && InLoopsA(arms, loop) && (d.Some? ==> InLoopsB(d.value, loop))
  }

  predicate InLoopsN(es: Nodes, loop: bool) { es.Nodes? ==> InLoopsE(es.head, loop) && InLoopsN(es.tail, loop) }

  predicate InLoopsA(bs: Bodies, loop: bool) { bs.Bodies? ==> InLoopsB(bs.head, loop) && InLoopsA(bs.tail, loop) }

  predicate InLoopsB(b: Body, loop: bool) { b.Then? ==> InLoopsC(b.head, loop) && InLoopsB(b.tail, loop) }

  predicate InLoopsC(c: Command, loop: bool)
  {
    match c
    case Eval(e) => InLoopsE(e, loop)
    case Return(v) => v.Some? ==> InLoopsE(v.value, loop)
    case For(f, e, p, b) =>
      && (f.Some? ==> InLoopsC(f.value, true)) && InLoopsE(e, true)
      && (p.Some? ==> InLoopsC(p.value, true)) && InLoopsB(b, true)
    case ForIn(e, b) => InLoopsE(e, true) && InLoopsB(b, true)
    case Break => loop
    case Continue => loop
  }

  predicate TwoArms(e: Node) { (e.If? && e.alt.Some?) || e.ResultMatch? || e.OptionMatch? }

  function FirstArm(e: Node): Body
    requires TwoArms(e)
  {
    match e case If(_, a, _, _) => a case ResultMatch(_, a, _, _) => a case OptionMatch(_, a, _, _) => a
  }

  function SecondArm(e: Node): Body
    requires TwoArms(e)
  {
    match e case If(_, _, b, _) => b.value case ResultMatch(_, _, b, _) => b case OptionMatch(_, _, b, _) => b
  }

  // ---------- the emitter ----------

  datatype LoopLabels = LoopLabels(cond: nat, post: Option<nat>, escape: nat)

  function ContinueTo(l: LoopLabels): nat { if l.post.Some? then l.post.value else l.cond }

  /** Where break and continue lead. */
  function LoopTargets(loop: Option<LoopLabels>): set<nat>
  {
    if loop.None? then {} else {ContinueTo(loop.value), loop.value.escape}
  }

  // ---------- pieces of code ----------

  /** Lines, the next free label, and whether the block they end in has its terminator. */
  datatype Piece = Piece(code: seq<Line>, l: nat, t: bool)

  function Cat(a: Piece, b: Piece): Piece { Piece(a.code + b.code, b.l, b.t) }

  function Lines(work: seq<Instr>): (r: seq<Line>)
    ensures |r| == |work| && forall i :: 0 <= i < |work| ==> r[i] == Inst(work[i])
  {
    seq(|work|, i requires 0 <= i < |work| => Inst(work[i]))
  }

  /** Nothing is written into a block that has its terminator. */
  function Work(work: seq<Instr>, l: nat, t: bool): Piece { Piece(if t then [] else Lines(work), l, t) }

  /** A terminator, which closes the block. */
  function Close(x: Line, l: nat, t: bool): Piece { Piece(if t then [] else [x], l, true) }

  /** A terminator and the label of the next block. */
  function Next(x: Line, label_: nat, l: nat, t: bool): Piece
  {
    Piece((if t then [] else [x]) + [Label(label_)], l, false)
  }

  // ---------- expressions ----------

  function GenN(e: Node, l: nat, t: bool, loop: Option<LoopLabels>): Piece
    decreases e, 2
  {
    match e
    case Op(args, work) => GenOp(args, work, l, t, loop)
    case Checked(args, test, work) =>
      var p := GenOp(args, test, l, t, loop);
      var q := GenCheck(p.l, p.t);
      Cat(Cat(p, q), Work(work, q.l, q.t))
    case Wrapped(args, test, work) =>
      var p := GenOp(args, test, l, t, loop);
      var q := GenWrap(p.l, p.t);
      Cat(Cat(p, q), Work(work, q.l, q.t))
    case Panic(a) =>
      var p := GenUse(a, [Panics], l, t, loop);
      Cat(p, Close(Unreachable, p.l, p.t))
    case If(_, _, _, _) => GenIf(e, l, t, loop)
    case ResultMatch(_, _, _, _) => GenResultMatch(e, l, t, loop)
    case OptionMatch(_, _, _, _) => GenOptionMatch(e, l, t, loop)
    case TypeMatch(_, _, _, _) => GenTypeMatch(e, l, t, loop)
  }

  function GenAll(es: Nodes, l: nat, t: bool, loop: Option<LoopLabels>): Piece
    decreases es, 3
  {
    match es
    case NoNodes => Piece([], l, t)
    case Nodes(e, rest) =>
      var p := GenN(e, l, t, loop);
      Cat(p, GenAll(rest, p.l, p.t, loop))
  }

  function GenOp(args: Nodes, work: seq<Instr>, l: nat, t: bool, loop: Option<LoopLabels>): Piece
    decreases args, 4
  {
    var p := GenAll(args, l, t, loop);
    Cat(p, Work(work, p.l, p.t))
  }

  function GenUse(e: Node, work: seq<Instr>, l: nat, t: bool, loop: Option<LoopLabels>): Piece
    decreases e, 3
  {
    var p := GenN(e, l, t, loop);
    Cat(p, Work(work, p.l, p.t))
  }

  /** Labels: ok, fail. */
  function GenCheck(l: nat, t: bool): Piece
  {
    Cat(Cat(Next(Br(l, l + 1), l + 1, l + 2, t), Work([Panics], l + 2, false)), Next(Unreachable, l, l + 2, false))
  }

  /** Labels: error, ok, end. */
  function GenWrap(l: nat, t: bool): Piece
  {
    Cat(Cat(Cat(Next(Br(l, l + 1), l, l + 3, t), Work([LastError], l + 3, false)),
      Next(Jmp(l + 2), l + 1, l + 3, false)),
      Next(Jmp(l + 2), l + 2, l + 3, false))
  }

  /** One arm: what comes before its body and behind it, the jump to `merge`, the label `next`. */
  function GenArm(pre: seq<Instr>, b: Body, post: seq<Instr>, merge: nat, next: nat, l: nat, t: bool,
          loop: Option<LoopLabels>): Piece
    decreases b, 4
  {
    var p := Work(pre, l, t);
    var q := GenB(b, p.l, p.t, loop);
    Cat(Cat(Cat(p, q), Work(post, q.l, q.t)), Next(Jmp(merge), next, q.l, q.t))
  }

  /** A branch, its two arms, and the label where they meet. */
  function GenTwo(e: Node, yes: nat, no: nat, end: nat, pre1: seq<Instr>, pre2: seq<Instr>, post: seq<Instr>, l: nat,
          t: bool, loop: Option<LoopLabels>): Piece
    requires TwoArms(e)
    decreases e, 0
  {
    var p := Next(Br(yes, no), yes, l, t);
    var q := GenArm(pre1, FirstArm(e), post, end, no, p.l, p.t, loop);
    Cat(Cat(p, q), GenArm(pre2, SecondArm(e), post, end, end, q.l, q.t, loop))
  }

  function Kept(valued: bool, i: Instr): seq<Instr> { if valued then [i] else [] }

  function GenIf(e: Node, l: nat, t: bool, loop: Option<LoopLabels>): Piece
    requires e.If?
    decreases e, 1
  {
    var p := GenN(e.cond, l, t, loop);
    var q := if e.alt.Some? then GenTwo(e, p.l, p.l + 1, p.l + 2, [], [], [], p.l + 3, p.t, loop)
      else
        var b := Next(Br(p.l, p.l + 1), p.l, p.l + 2, p.t);
        Cat(b, GenArm([], e.cons, [], p.l + 1, p.l + 1, b.l, b.t, loop));
    Cat(Cat(p, q), Work(Kept(e.valued, Fetch), q.l, q.t))
  }

  /** Whether the code of a body ends in a terminator. */
  function Closes(b: Body, l: nat, loop: Option<LoopLabels>): bool
    decreases b, 4
  {
    GenB(b, l, false, loop).t
  }

  function GenResultMatch(e: Node, l: nat, t: bool, loop: Option<LoopLabels>): Piece
    requires e.ResultMatch?
    decreases e, 1
  {
    var p := GenUse(e.subject, [Tag, Tag], l, t, loop);
    var q := GenTwo(e, p.l, p.l + 1, p.l + 2, [Bind, Bind, Bind], [Bind, Bind, Bind], Kept(e.valued, Store),
      p.l + 3, p.t,
      loop);
    Cat(Cat(p, q),
      if Closes(e.ok, p.l + 3, loop) && Closes(e.err, GenB(e.ok, p.l + 3, false, loop).l, loop)
      then Close(Unreachable, q.l, q.t) else Work(Kept(e.valued, Fetch), q.l, q.t))
  }

  function GenOptionMatch(e: Node, l: nat, t: bool, loop: Option<LoopLabels>): Piece
    requires e.OptionMatch?
    decreases e, 1
  {
    var p := GenUse(e.subject, [Tag, Tag], l, t, loop);
    var q := GenTwo(e, p.l, p.l + 1, p.l + 2, [Bind, Bind, Bind], [], Kept(e.valued, Store), p.l + 3, p.t, loop);
    Cat(Cat(p, q), Work(Kept(e.valued, Fetch), q.l, q.t))
  }

  /** The arms of a type match; whether none of them gets to the end. */
  function GenArms(arms: Bodies, end: nat, valued: bool, l: nat, t: bool, loop: Option<LoopLabels>): (Piece, bool)
    decreases arms, 5
  {
    match arms
    case NoBodies => (Piece([], l, t), true)
    case Bodies(b, rest) =>
      var p := GenTypeArm(b, end, valued, l, t, loop);
      var q := GenArms(rest, end, valued, p.l, p.t, loop);
      (Cat(p, q.0), Closes(b, l + 2, loop) && q.1)
  }

  /** Labels: match, next. */
  function GenTypeArm(b: Body, end: nat, valued: bool, l: nat, t: bool, loop: Option<LoopLabels>): Piece
    decreases b, 5
  {
    var p := Cat(Work([Tag], l + 2, t), Next(Br(l, l + 1), l, l + 2, t));
    Cat(p, GenArm([Bind, Bind], b, Kept(valued, Store), end, l + 1, p.l, p.t, loop))
  }

  function GenDefault(default: Option<Body>, end: nat, valued: bool, l: nat, t: bool, loop: Option<LoopLabels>): Piece
    decreases default, 5
  {
    match default
    case None => Close(Jmp(end), l, t)
    case Some(b) =>
      var p := GenB(b, l, t, loop);
      var q := Cat(p, Work(Kept(valued, Store), p.l, p.t));
      Cat(q, Close(Jmp(end), q.l, q.t))
  }

  predicate DefaultCloses(default: Option<Body>, l: nat, t: bool, loop: Option<LoopLabels>)
    decreases default, 5
  {
    default.Some? && GenB(default.value, l, t, loop).t
  }

  function GenTypeMatch(e: Node, l: nat, t: bool, loop: Option<LoopLabels>): Piece
    requires e.TypeMatch?
    decreases e, 1
  {
    var p := GenUse(e.subject, [Tag, Tag], l, t, loop);
    var end := p.l;
    var (q, all) := GenArms(e.arms, end, e.valued, end + 1, p.t, loop);
    var r := GenDefault(e.default, end, e.valued, q.l, q.t, loop);
    var s := Cat(Cat(p, q), r);
    if all && DefaultCloses(e.default, q.l, q.t, loop) then s
    else Cat(s, Piece([Label(end)] + Lines(Kept(e.valued, Fetch)), r.l, false))
  }

  // ---------- statements ----------

  function GenB(b: Body, l: nat, t: bool, loop: Option<LoopLabels>): Piece
    decreases b, 3
  {
    match b
    case End => Piece([], l, t)
    case Then(c, rest) =>
      var p := GenC(c, l, t, loop);
      Cat(p, GenB(rest, p.l, p.t, loop))
  }

  function GenC(c: Command, l: nat, t: bool, loop: Option<LoopLabels>): Piece
    decreases c, 2
  {
    match c
    case Eval(e) => GenN(e, l, t, loop)
    case Return(v) =>
      var p := match v case None => Piece([], l, t) case Some(e) => GenN(e, l, t, loop);
      Cat(p, Close(Ret, p.l, p.t))
    case For(_, _, _, _) => GenLoop(c, l, t)
    case ForIn(_, _) => GenLoop(c, l, t)
    case Break => if loop.None? then Piece([], l, t) else Close(Jmp(loop.value.escape), l, t)
    case Continue => if loop.None? then Piece([], l, t) else Close(Jmp(ContinueTo(loop.value)), l, t)
  }

  function GenOptC(c: Option<Command>, l: nat, t: bool, loop: Option<LoopLabels>): Piece
    decreases c, 3
  {
    match c case None => Piece([], l, t) case Some(x) => GenC(x, l, t, loop)
  }

  predicate IsLoop(c: Command) { c.For? || c.ForIn? }

  predicate HasPost(c: Command)
    requires IsLoop(c)
  {
    c.ForIn? || c.post.Some?
  }

  /** Labels: condition, loop, post if there is one, escape. */
  function LabelsFrom(c: Command, l: nat): LoopLabels
    requires IsLoop(c)
  {
    if HasPost(c) then LoopLabels(l, Some(l + 2), l + 3) else LoopLabels(l, None, l + 2)
  }

  function GenLoop(c: Command, l: nat, t: bool): Piece
    requires IsLoop(c)
    decreases c, 1
  {
    var x := LabelsFrom(c, l);
    var p := GenStart(c, x.escape + 1, t, Some(x));
    var q := Cat(p, Next(Jmp(x.cond), x.cond, p.l, p.t));
    var r := GenTest(c, q.l, q.t, Some(x));
    var s := Cat(q, Cat(r, Next(Br(l + 1, x.escape), l + 1, r.l, r.t)));
    Cat(s, GenTail(c, x, s.l, s.t))
  }

  function GenStart(c: Command, l: nat, t: bool, loop: Option<LoopLabels>): Piece
    requires IsLoop(c)
    decreases c, 0
  {
    if c.For? then GenOptC(c.first, l, t, loop) else GenUse(c.iterable, [Setup, Setup, Setup, Setup, Setup], l, t, loop)
  }

  function GenTest(c: Command, l: nat, t: bool, loop: Option<LoopLabels>): Piece
    requires IsLoop(c)
    decreases c, 0
  {
    if c.For? then GenN(c.cond, l, t, loop) else Work([Test, Test, Test], l, t)
  }

  function Binding(c: Command): seq<Instr> { if c.ForIn? then [Bind, Bind, Bind, Bind, Bind, Bind] else [] }

  /** Body, post statement, the jump back, and the label behind the loop. */
  function GenTail(c: Command, x: LoopLabels, l: nat, t: bool): Piece
    requires IsLoop(c)
    decreases c, 0, 1
  {
    var p := Work(Binding(c), l, t);
    var q := Cat(p, GenB(c.body, p.l, p.t, Some(x)));
    var r := Cat(q, GenPost(c, x, q.l, q.t));
    Cat(r, Next(Jmp(x.cond), x.escape, r.l, r.t))
  }

  function GenPost(c: Command, x: LoopLabels, l: nat, t: bool): Piece
    requires IsLoop(c)
    decreases c, 0, 0
  {
    if x.post.None? then Piece([], l, t) else
    var p := Next(Jmp(x.post.value), x.post.value, l, t);
    if c.ForIn? then Cat(p, Work([Advance, Advance, Advance], p.l, p.t))
    else Cat(p, GenOptC(c.post, p.l, p.t, Some(x)))
  }

  /** A function body, with a return at the end unless control cannot get there. */
  function GenFunction(b: Body): seq<Line>
  {
    var p := GenB(b, 0, false, None);
    if p.t then p.code else p.code + [Ret]
  }
}
