/** What the emitted lines execute and what the body they come from means, both for a sequence of
    branch outcomes. */
module IrRuns {
  import opened Language
  import opened IrBlocks
  import opened IrCode
  import M = Machine

  /** The outcomes still to come, and what has been executed. */
  datatype Log = Log(outs: seq<bool>, trace: seq<Instr>)

  // ---------- lines ----------

  datatype Ip = Ip(pc: nat, s: Log)

  function Find(w: seq<Line>, l: nat): (i: nat)
    ensures i <= |w| && (i < |w| ==> w[i] == Label(l)) && forall j :: 0 <= j < i ==> w[j] != Label(l)
  {
    if w == [] || w[0] == Label(l) then 0 else Find(w[1..], l) + 1
  }

  /** A jump leads behind a label. */
  function Enter(w: seq<Line>, l: nat, s: Log): M.Outcome<Ip>
  {
    if Find(w, l) < |w| then M.Next(Ip(Find(w, l) + 1, s)) else M.Fault
  }

  /** A branch takes the next outcome and waits if there is none; control does not run into a
      label. */
  function Step(w: seq<Line>, a: Ip): M.Outcome<Ip>
  {
    if a.pc >= |w| then M.Fault else
    match w[a.pc]
    case Inst(i) => M.Next(Ip(a.pc + 1, Log(a.s.outs, a.s.trace + [i])))
    case Jmp(l) => Enter(w, l, a.s)
    case Br(yes, no) =>
      if a.s.outs == [] then M.Halt else Enter(w, if a.s.outs[0] then yes else no, Log(a.s.outs[1..], a.s.trace))
    case Ret => M.Halt
    case Unreachable => M.Fault
    case Label(_) => M.Fault
  }

  function Stepper(w: seq<Line>): Ip -> M.Outcome<Ip> { (a: Ip) => Step(w, a) }

  // ---------- expressions and statements ----------

  datatype How = Goes | Breaks | Continues | Returns | Dies | Waits | TooLong

  datatype Did = Did(how: How, s: Log)

  function Doing(s: Log, work: seq<Instr>): Did { Did(Goes, Log(s.outs, s.trace + work)) }

  function Also(d: Did, work: seq<Instr>): Did { if d.how.Goes? then Doing(d.s, work) else d }

  /** A decision is due and its outcome is known. */
  predicate Ready(d: Did) { d.how.Goes? && d.s.outs != [] }

  function Unready(d: Did): Did { if d.how.Goes? then Did(Waits, d.s) else d }

  predicate Answer(d: Did)
    requires Ready(d)
  {
    d.s.outs[0]
  }

  function Rest(d: Did): Log
    requires Ready(d)
  {
    Log(d.s.outs[1..], d.s.trace)
  }

  function DoN(e: Node, s: Log, f: nat): Did
    decreases f, e, 2
  {
    match e
    case Op(args, work) => Also(DoAll(args, s, f), work)
    case Checked(args, test, work) =>
      var d := Also(DoAll(args, s, f), test);
      if !Ready(d) then Unready(d)
      else if Answer(d) then Doing(Rest(d), work)
      else Did(Dies, Doing(Rest(d), [Panics]).s)
    case Wrapped(args, test, work) =>
      var d := Also(DoAll(args, s, f), test);
      if !Ready(d) then Unready(d)
      else if Answer(d) then Also(Doing(Rest(d), [LastError]), work)
      else Doing(Rest(d), work)
    case Panic(a) =>
      var d := Also(DoN(a, s, f), [Panics]);
      if d.how.Goes? then Did(Dies, d.s) else d
    case If(c, a, b, valued) =>
      var d := DoN(c, s, f);
      if !Ready(d) then Unready(d) else
      Also(if Answer(d) then DoB(a, Rest(d), f) else if b.Some? then DoB(b.value, Rest(d), f) else Did(Goes, Rest(d)),
        Kept(valued, Fetch))
    case ResultMatch(x, a, b, valued) =>
      var d := Also(DoN(x, s, f), [Tag, Tag]);
      if !Ready(d) then Unready(d) else
      Also(if Answer(d) then DoArm([Bind, Bind, Bind], a, valued, Rest(d), f)
        else DoArm([Bind, Bind, Bind], b, valued, Rest(d), f), Kept(valued, Fetch))
    case OptionMatch(x, a, b, valued) =>
      var d := Also(DoN(x, s, f), [Tag, Tag]);
      if !Ready(d) then Unready(d) else
      Also(if Answer(d) then DoArm([Bind, Bind, Bind], a, valued, Rest(d), f) else DoArm([], b, valued, Rest(d), f),
        Kept(valued, Fetch))
    case TypeMatch(x, arms, default, valued) =>
      var d := Also(DoN(x, s, f), [Tag, Tag]);
      if !d.how.Goes? then d else
      var (d', found) := DoArms(arms, valued, d.s, f);
      Also(if found || default.None? then d' else DoArm([], default.value, valued, d'.s, f), Kept(valued, Fetch))
  }

  function DoAll(es: Nodes, s: Log, f: nat): Did
    decreases f, es, 3
  {
    match es
    case NoNodes => Did(Goes, s)
    case Nodes(e, rest) =>
      var d := DoN(e, s, f);
      if d.how.Goes? then DoAll(rest, d.s, f) else d
  }

  /** An arm of a match: the bindings, the body, the result kept. */
  function DoArm(pre: seq<Instr>, b: Body, valued: bool, s: Log, f: nat): Did
    decreases f, b, 4
  {
    Also(DoB(b, Doing(s, pre).s, f), Kept(valued, Store))
  }

  /** The first arm of a type match whose test comes out true, if there is one. */
  function DoArms(arms: Bodies, valued: bool, s: Log, f: nat): (Did, bool)
    decreases f, arms, 5
  {
    match arms
    case NoBodies => (Did(Goes, s), false)
    case Bodies(b, rest) =>
      var d := Doing(s, [Tag]);
      if !Ready(d) then (Unready(d), true)
      else if Answer(d) then (DoArm([Bind, Bind], b, valued, Rest(d), f), true)
      else DoArms(rest, valued, Rest(d), f)
  }

  function DoB(b: Body, s: Log, f: nat): Did
    decreases f, b, 3
  {
    match b
    case End => Did(Goes, s)
    case Then(c, rest) =>
      var d := DoC(c, s, f);
      if d.how.Goes? then DoB(rest, d.s, f) else d
  }

  function DoC(c: Command, s: Log, f: nat): Did
    decreases f, c, 5
  {
    match c
    case Eval(e) => DoN(e, s, f)
    case Return(v) =>
      var d := if v.Some? then DoN(v.value, s, f) else Did(Goes, s);
      if d.how.Goes? then Did(Returns, d.s) else d
    case For(_, _, _, _) => DoLoop(c, s, f)
    case ForIn(_, _) => DoLoop(c, s, f)
    case Break => Did(Breaks, s)
    case Continue => Did(Continues, s)
  }

  function DoOptC(c: Option<Command>, s: Log, f: nat): Did
    decreases f, c, 6
  {
    if c.Some? then DoC(c.value, s, f) else Did(Goes, s)
  }

  /** A loop, for at most `f` turns. A break or continue of its clauses is one of this loop. */
  function DoLoop(c: Command, s: Log, f: nat): Did
    requires IsLoop(c)
    decreases f, c, 4
  {
    if f == 0 then Did(TooLong, s)
    else After(c, if c.For? then DoOptC(c.first, s, f)
      else Also(DoN(c.iterable, s, f), [Setup, Setup, Setup, Setup, Setup]), true, f)
  }

  /** A loop from its condition, or from its post clause. */
  function Around(c: Command, top: bool, s: Log, f: nat): Did
    requires IsLoop(c) && (top || HasPost(c))
    decreases f, c, 4
  {
    if f == 0 then Did(TooLong, s)
    else if !top then
      After(c, if c.For? then DoOptC(c.post, s, f) else Doing(s, [Advance, Advance, Advance]), true, f)
    else
      var d := if c.For? then DoN(c.cond, s, f) else Doing(s, [Test, Test, Test]);
      if !d.how.Goes? then After(c, d, true, f)
      else if !Ready(d) then Unready(d)
      else if !Answer(d) then Did(Goes, Rest(d))
      else After(c, DoB(c.body, Doing(Rest(d), Binding(c)).s, f), !HasPost(c), f)
  }

  /** A break leaves the loop, a continue goes to the post clause, or to the condition. */
  function After(c: Command, d: Did, top: bool, f: nat): Did
    requires IsLoop(c) && f > 0 && (top || HasPost(c))
    decreases f, c, 3
  {
    match d.how
    case Goes => Around(c, top, d.s, f - 1)
    case Breaks => Did(Goes, d.s)
    case Continues => Around(c, !HasPost(c), d.s, f - 1)
    case _ => d
  }

  // ---------- runs ----------

  ghost predicate At(w: seq<Line>, p: nat, code: seq<Line>)
  {
    p + |code| <= |w| && w[p..p + |code|] == code
  }

  /** Position `q` is where a jump to the label leads. */
  ghost predicate Behind(w: seq<Line>, q: nat, l: nat) { 0 < q <= |w| && w[q - 1] == Label(l) }

  /** Labels are defined once, and those of the innermost loop are defined. */
  ghost predicate Sound(w: seq<Line>, loop: Option<LoopLabels>)
  {
    Once(w) && (loop.Some? ==>
      (exists q :: Behind(w, q, loop.value.escape)) && (exists q :: Behind(w, q, ContinueTo(loop.value))))
  }

  /** After `n` steps the lines have executed what `d` says and are where it says: at `at`, an open
      position, or at the innermost loop's labels, at a return, at an `unreachable`, or at a branch
      whose outcome is not known. */
  ghost predicate Ends(w: seq<Line>, loop: Option<LoopLabels>, f: nat, n: nat, r: Ip, d: Did, at: nat, t: bool)
  {
    (!d.how.TooLong? ==> r.s == d.s) &&
    match d.how
    case Goes => r.pc == at && !t
    case Breaks => n > 0 && loop.Some? && Behind(w, r.pc, loop.value.escape)
    case Continues => n > 0 && loop.Some? && Behind(w, r.pc, ContinueTo(loop.value))
    case Returns => r.pc < |w| && w[r.pc] == Ret
    case Dies => r.pc < |w| && w[r.pc] == Unreachable
    case Waits => r.pc < |w| && w[r.pc].Br? && r.s.outs == []
    case TooLong => n >= f
  }

  ghost predicate Runs(w: seq<Line>, loop: Option<LoopLabels>, f: nat, a: Ip, d: Did, at: nat, t: bool)
  {
    exists n, r :: M.Reaches(Stepper(w), a, n, r) && Ends(w, loop, f, n, r, d, at, t)
  }

  lemma RunsSeq(w: seq<Line>, loop: Option<LoopLabels>, f: nat, a: Ip, d1: Did, at1: nat, t1: bool, d2: Did, at2: nat,
          t2: bool)
    requires Runs(w, loop, f, a, d1, at1, t1)
    requires d1.how.Goes? && !t1 ==> Runs(w, loop, f, Ip(at1, d1.s), d2, at2, t2)
    ensures Runs(w, loop, f, a, if d1.how.Goes? then d2 else d1, at2, t2)
  {
    hide Behind;
    var n1: nat, r1 :| M.Reaches(Stepper(w), a, n1, r1) && Ends(w, loop, f, n1, r1, d1, at1, t1);
    if d1.how.Goes? {
      assert r1 == Ip(at1, d1.s);
      var n2: nat, r2 :| M.Reaches(Stepper(w), r1, n2, r2) && Ends(w, loop, f, n2, r2, d2, at2, t2);
      M.ReachesTrans(Stepper(w), a, n1, r1, n2, r2);
      assert Ends(w, loop, f, n1 + n2, r2, d2, at2, t2);
    } else {
      assert Ends(w, loop, f, n1, r1, d1, at2, t2);
    }
  }

  /** One step of the lines before a run; it pays for one turn of a loop. */
  lemma RunsStep(w: seq<Line>, loop: Option<LoopLabels>, f: nat, a: Ip, b: Ip, d: Did, at: nat, t: bool)
    requires Step(w, a) == M.Next(b) && (Runs(w, loop, f, b, d, at, t) || (f > 0 && Runs(w, loop, f - 1, b, d, at, t)))
    ensures Runs(w, loop, f, a, d, at, t)
  {
    hide Behind, Step;
    var f' := if Runs(w, loop, f, b, d, at, t) then f else f - 1;
    var n: nat, r :| M.Reaches(Stepper(w), b, n, r) && Ends(w, loop, f', n, r, d, at, t);
    assert Stepper(w)(a) == M.Next(b);
    assert M.Reaches(Stepper(w), a, n + 1, r);
    assert Ends(w, loop, f, n + 1, r, d, at, t);
  }

  lemma RunsHere(w: seq<Line>, loop: Option<LoopLabels>, f: nat, a: Ip, d: Did, at: nat, t: bool)
    requires Ends(w, loop, f, 0, a, d, at, t)
    ensures Runs(w, loop, f, a, d, at, t)
  {
    assert M.Reaches(Stepper(w), a, 0, a);
  }

  lemma EnterAt(w: seq<Line>, q: nat, l: nat, s: Log)
    requires Once(w) && Behind(w, q, l)
    ensures Enter(w, l, s) == M.Next(Ip(q, s))
  {
    assert Find(w, l) == q - 1;
  }

  /** A jump. */
  lemma RunsJmp(w: seq<Line>, loop: Option<LoopLabels>, f: nat, p: nat, s: Log, l: nat, q: nat)
    requires Once(w) && p < |w| && w[p] == Jmp(l) && Behind(w, q, l)
    ensures Runs(w, loop, f, Ip(p, s), Did(Goes, s), q, false)
  {
    EnterAt(w, q, l, s);
    RunsHere(w, loop, f, Ip(q, s), Did(Goes, s), q, false);
    RunsStep(w, loop, f, Ip(p, s), Ip(q, s), Did(Goes, s), q, false);
  }

  /** A branch whose outcome is not known, and one that leads to `q1` or `q2`. */
  lemma RunsBr(w: seq<Line>, loop: Option<LoopLabels>, f: nat, p: nat, d: Did, yes: nat, no: nat, q1: nat, q2: nat)
    requires Once(w) && p < |w| && w[p] == Br(yes, no) && Behind(w, q1, yes) && Behind(w, q2, no) && d.how.Goes?
    ensures if !Ready(d) then forall at, t :: Runs(w, loop, f, Ip(p, d.s), Did(Waits, d.s), at, t)
      else Runs(w, loop, f, Ip(p, d.s), Did(Goes, Rest(d)), if Answer(d) then q1 else q2, false)
  {
    if !Ready(d) {
      forall at, t ensures Runs(w, loop, f, Ip(p, d.s), Did(Waits, d.s), at, t) {
        RunsHere(w, loop, f, Ip(p, d.s), Did(Waits, d.s), at, t);
      }
    } else {
      var q, s := if Answer(d) then q1 else q2, Rest(d);
      EnterAt(w, q, if Answer(d) then yes else no, s);
      RunsHere(w, loop, f, Ip(q, s), Did(Goes, s), q, false);
      RunsStep(w, loop, f, Ip(p, d.s), Ip(q, s), Did(Goes, s), q, false);
    }
  }

  lemma {:induction false} RunsLines(w: seq<Line>, loop: Option<LoopLabels>, f: nat, p: nat, s: Log, work: seq<Instr>)
    requires At(w, p, Lines(work))
    ensures Runs(w, loop, f, Ip(p, s), Doing(s, work), p + |work|, false)
    decreases |work|
  {
    if work == [] {
      assert s.trace + work == s.trace;
      RunsHere(w, loop, f, Ip(p, s), Doing(s, work), p, false);
    } else {
      var s1 := Log(s.outs, s.trace + [work[0]]);
      assert w[p..p + |work|][0] == Inst(work[0]);
      assert w[p + 1..p + |work|] == Lines(work)[1..] == Lines(work[1..]);
      RunsLines(w, loop, f, p + 1, s1, work[1..]);
      assert s.trace + work == s1.trace + work[1..];
      RunsStep(w, loop, f, Ip(p, s), Ip(p + 1, s1), Doing(s, work), p + |work|, false);
    }
  }

  lemma AtCat(w: seq<Line>, p: nat, a: seq<Line>, b: seq<Line>)
    requires At(w, p, a + b)
    ensures At(w, p, a) && At(w, p + |a|, b)
  {
    var c := w[p..p + |a + b|];
    assert c[..|a|] == a && c[|a|..] == b;
    assert w[p..p + |a|] == c[..|a|] && w[p + |a|..p + |a| + |b|] == c[|a|..];
  }

  /** The terminator, if there is one, and the label of the next block. */
  lemma AtNext(w: seq<Line>, p: nat, x: Line, label_: nat, l: nat, t: bool)
    requires At(w, p, Next(x, label_, l, t).code)
    ensures !t ==> p < |w| && w[p] == x
    ensures Behind(w, p + |Next(x, label_, l, t).code|, label_)
  {
    var c := Next(x, label_, l, t).code;
    assert w[p..p + |c|][|c| - 1] == w[p + |c| - 1] && c[|c| - 1] == Label(label_);
    assert w[p..p + |c|][0] == w[p];
  }

  lemma AtClose(w: seq<Line>, p: nat, x: Line, l: nat, t: bool)
    requires At(w, p, Close(x, l, t).code) && !t
    ensures p < |w| && w[p] == x
  {
    assert w[p] == w[p..p + 1][0];
  }

  /** Instructions behind a piece. */
  lemma RunsThen(w: seq<Line>, loop: Option<LoopLabels>, f: nat, a: Ip, d: Did, p: nat, g: Piece, work: seq<Instr>)
    requires Runs(w, loop, f, a, d, p + |g.code|, g.t) && At(w, p, Cat(g, Work(work, g.l, g.t)).code)
    ensures var r := Cat(g, Work(work, g.l, g.t)); Runs(w, loop, f, a, Also(d, work), p + |r.code|, r.t)
  {
    hide Runs;
    var r := Cat(g, Work(work, g.l, g.t));
    AtCat(w, p, g.code, Work(work, g.l, g.t).code);
    if !g.t { RunsLines(w, loop, f, p + |g.code|, d.s, work); }
    RunsSeq(w, loop, f, a, d, p + |g.code|, g.t, Doing(d.s, work), p + |r.code|, r.t);
  }
}
