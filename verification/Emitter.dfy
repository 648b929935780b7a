/** The emitter of LLVM IR as far as basic blocks are concerned (irgen/emitter.go): a buffer,
    a flag that the current block has its terminator, a label counter and a stack of loops. */
module Emitters {
  import opened Language
  import opened IrBlocks
  import opened IrCode
  import opened IrShape

  function Innermost(loops: seq<LoopLabels>): Option<LoopLabels>
  {
    if loops == [] then None else Some(loops[|loops| - 1])
  }

  class Emitter {
    var body: seq<Line>
    var blockTerminated: bool
    var lblIdx: nat
    var loopStack: seq<LoopLabels>

    constructor ()
      ensures body == [] && !blockTerminated && lblIdx == 0 && loopStack == []
    {
      body, blockTerminated, lblIdx, loopStack := [], false, 0, [];
    }

    /** The piece has been added to what was there before. */
    ghost predicate Wrote(p: Piece, before: seq<Line>)
      reads this
    {
      body == before + p.code && lblIdx == p.l && blockTerminated == p.t
    }

    method NewLabel() returns (l: nat)
      modifies this`lblIdx
      ensures l == old(lblIdx) && lblIdx == l + 1
    {
      l := lblIdx;
      lblIdx := lblIdx + 1;
    }

    /** emit, emitCall, emitLoad, emitStore: nothing in a block that has its terminator. */
    method Emit(l: Line)
      requires !l.Label?
      modifies this`body
      ensures body == if blockTerminated then old(body) else old(body) + [l]
    {
      if !blockTerminated { body := body + [l]; }
    }

    method EmitInsts(work: seq<Instr>)
      modifies this`body
      ensures Wrote(Work(work, lblIdx, blockTerminated), old(body))
    {
      for i := 0 to |work|
        invariant body == old(body) + if blockTerminated then [] else Lines(work[..i])
      {
        Emit(Inst(work[i]));
        assert Lines(work[..i + 1]) == Lines(work[..i]) + [Inst(work[i])];
      }
      assert work[..|work|] == work;
    }

    method EmitLabel(l: nat)
      modifies this`body, this`blockTerminated
      ensures body == old(body) + [Label(l)] && !blockTerminated
    {
      blockTerminated := false;
      body := body + [Label(l)];
    }

    /** A terminator, and the label of the next block. */
    method EndBlock(t: Line, l: nat)
      requires Terminator(t)
      modifies this`body, this`blockTerminated
      ensures Wrote(Next(t, l, lblIdx, old(blockTerminated)), old(body))
    {
      Emit(t);
      EmitLabel(l);
    }

    /** A terminator after which the block is marked as closed. */
    method CloseBlock(t: Line)
      requires Terminator(t)
      modifies this`body, this`blockTerminated
      ensures Wrote(Close(t, lblIdx, old(blockTerminated)), old(body))
    {
      Emit(t);
      blockTerminated := true;
    }

    // ---------- expressions ----------

    method EmitExpr(e: Node)
      requires InLoopsE(e, loopStack != [])
      modifies this
      ensures loopStack == old(loopStack)
      ensures var loop := Innermost(loopStack);
        Wrote(GenN(e, old(lblIdx), old(blockTerminated), loop), old(body))
        && Fine(GenN(e, old(lblIdx), old(blockTerminated), loop), old(lblIdx), old(blockTerminated), {},
          LoopTargets(loop))
      decreases e, 2
    {
      hide Fine, LoopTargets, Cat, Work, GenOp, GenUse, GenIf, GenResultMatch, GenOptionMatch, GenTypeMatch, GenWrap,
        GenCheck;
      FineN(e, lblIdx, blockTerminated, Innermost(loopStack));
      match e
      case Op(args, work) => EmitOp(args, work);
      case Checked(args, test, work) => EmitChecked(args, test, work);
      case Wrapped(args, test, work) => EmitWrapped(args, test, work);
      case Panic(a) => EmitPanic(a);
      case If(_, _, _, _) => EmitIf(e);
      case ResultMatch(_, _, _, _) => EmitResultMatch(e);
      case OptionMatch(_, _, _, _) => EmitOptionMatch(e);
      case TypeMatch(_, _, _, _) => EmitTypeMatch(e);
    }

    /** Operands in order. */
    method EmitAll(es: Nodes)
      requires InLoopsN(es, loopStack != [])
      modifies this
      ensures loopStack == old(loopStack)
      ensures Wrote(GenAll(es, old(lblIdx), old(blockTerminated), Innermost(loopStack)), old(body))
      decreases es, 3
    {
      hide GenN, InLoopsE, Fine;
      ghost var b0, loop := body, Innermost(loopStack);
      ghost var l0, t0, done := lblIdx, blockTerminated, Piece([], lblIdx, blockTerminated);
      var rest := es;
      while rest.Nodes?
        invariant (rest == es || rest < es) && InLoopsN(rest, loopStack != [])
        invariant loopStack == old(loopStack) && Wrote(done, b0)
        invariant Cat(done, GenAll(rest, lblIdx, blockTerminated, loop)) == GenAll(es, l0, t0, loop)
        decreases rest
      {
        ghost var p := GenN(rest.head, lblIdx, blockTerminated, loop);
        EmitExpr(rest.head);
        CatAssoc(done, p, GenAll(rest.tail, p.l, p.t, loop));
        done := Cat(done, p);
        rest := rest.tail;
      }
    }

    method EmitOp(args: Nodes, work: seq<Instr>)
      requires InLoopsN(args, loopStack != [])
      modifies this
      ensures loopStack == old(loopStack)
      ensures Wrote(GenOp(args, work, old(lblIdx), old(blockTerminated), Innermost(loopStack)), old(body))
      decreases args, 4
    {
      hide GenAll, InLoopsN, Lines;
      EmitAll(args);
      EmitInsts(work);
    }

    /** Operands, a check of them, and what is done with them if they pass. */
    method EmitChecked(args: Nodes, test: seq<Instr>, work: seq<Instr>)
      requires InLoopsN(args, loopStack != [])
      modifies this
      ensures loopStack == old(loopStack) && !blockTerminated
      ensures Wrote(GenN(Checked(args, test, work), old(lblIdx), old(blockTerminated), Innermost(loopStack)), old(body))
      ensures Fine(GenN(Checked(args, test, work), old(lblIdx), old(blockTerminated), Innermost(loopStack)),
        old(lblIdx), old(blockTerminated), {},
        LoopTargets(Innermost(loopStack)))
      decreases args, 5
    {
      hide GenCheck, GenOp, Cat, Fine, Work, LoopTargets;
      FineN(Checked(args, test, work), lblIdx, blockTerminated, Innermost(loopStack));
      ghost var b0, p := body, GenOp(args, test, lblIdx, blockTerminated, Innermost(loopStack));
      EmitOp(args, test);
      ghost var q := GenCheck(p.l, p.t);
      EmitCheck();
      Extend(b0, p, q);
      Extend(b0, Cat(p, q), Work(work, q.l, q.t));
      EmitInsts(work);
    }

    /** emitDivByZeroCheck and emitArrayBoundsCheck: a branch, a block that panics and does not
        go on, and the block that does. The flag is not set at the `unreachable`, which only the
        label right behind it makes up for. */
    method EmitCheck()
      modifies this`body, this`blockTerminated, this`lblIdx
      ensures Wrote(GenCheck(old(lblIdx), old(blockTerminated)), old(body)) && lblIdx == old(lblIdx) + 2
        && !blockTerminated
      ensures Fine(GenCheck(old(lblIdx), old(blockTerminated)), old(lblIdx), old(blockTerminated), {}, {})
    {
      hide Fine;
      FineCheck(lblIdx, blockTerminated, {});
      var okLabel := NewLabel();
      var failLabel := NewLabel();
      EndBlock(Br(okLabel, failLabel), failLabel);
      EmitInsts([Panics]);
      EndBlock(Unreachable, okLabel);
    }

    /** A builtin's operands, its call and the comparison, and wrapIntoResult. */
    method EmitWrapped(args: Nodes, test: seq<Instr>, work: seq<Instr>)
      requires InLoopsN(args, loopStack != [])
      modifies this
      ensures loopStack == old(loopStack) && !blockTerminated
      ensures Wrote(GenN(Wrapped(args, test, work), old(lblIdx), old(blockTerminated), Innermost(loopStack)), old(body))
      ensures Fine(GenN(Wrapped(args, test, work), old(lblIdx), old(blockTerminated), Innermost(loopStack)),
        old(lblIdx), old(blockTerminated), {},
        LoopTargets(Innermost(loopStack)))
      decreases args, 5
    {
      hide GenWrap, GenOp, Cat, Fine, Work, LoopTargets;
      FineN(Wrapped(args, test, work), lblIdx, blockTerminated, Innermost(loopStack));
      ghost var b0, p := body, GenOp(args, test, lblIdx, blockTerminated, Innermost(loopStack));
      EmitOp(args, test);
      ghost var q := GenWrap(p.l, p.t);
      EmitWrap();
      Extend(b0, p, q);
      Extend(b0, Cat(p, q), Work(work, q.l, q.t));
      EmitInsts(work);
    }

    /** The blocks of wrapIntoResult: one fetches the error, the other is empty. */
    method EmitWrap()
      modifies this`body, this`blockTerminated, this`lblIdx
      ensures Wrote(GenWrap(old(lblIdx), old(blockTerminated)), old(body)) && lblIdx == old(lblIdx) + 3
        && !blockTerminated
      ensures Fine(GenWrap(old(lblIdx), old(blockTerminated)), old(lblIdx), old(blockTerminated), {}, {})
    {
      hide Fine;
      FineWrap(lblIdx, blockTerminated, {});
      var errLabel := NewLabel();
      var okLabel := NewLabel();
      var endLabel := NewLabel();
      EndBlock(Br(errLabel, okLabel), errLabel);
      EmitInsts([LastError]);
      EndBlock(Jmp(endLabel), okLabel);
      EndBlock(Jmp(endLabel), endLabel);
    }

    /** An expression and instructions that use its value. */
    method EmitUse(e: Node, work: seq<Instr>)
      requires InLoopsE(e, loopStack != [])
      modifies this
      ensures loopStack == old(loopStack)
      ensures Wrote(GenUse(e, work, old(lblIdx), old(blockTerminated), Innermost(loopStack)), old(body))
      decreases e, 3
    {
      hide GenN, Fine, InLoopsE;
      EmitExpr(e);
      EmitInsts(work);
    }

    method EmitPanic(a: Node)
      requires InLoopsE(a, loopStack != [])
      modifies this
      ensures loopStack == old(loopStack)
      ensures Wrote(GenN(Panic(a), old(lblIdx), old(blockTerminated), Innermost(loopStack)), old(body))
      decreases a, 4
    {
      hide GenUse, InLoopsE;
      EmitUse(a, [Panics]);
      CloseBlock(Unreachable);
    }

    /** A body between instructions, a jump to `merge`, and the label `next`; of what follows the
        body only the label if the body has its terminator already. */
    method EmitArm(pre: seq<Instr>, b: Body, post: seq<Instr>, merge: nat, next: nat) returns (terminated: bool)
      requires InLoopsB(b, loopStack != [])
      modifies this
      ensures loopStack == old(loopStack) && !blockTerminated
      ensures Wrote(GenArm(pre, b, post, merge, next, old(lblIdx), old(blockTerminated), Innermost(loopStack)),
        old(body))
      ensures terminated == GenB(b, old(lblIdx), old(blockTerminated), Innermost(loopStack)).t
      decreases b, 4
    {
      hide GenB, Fine, InLoopsB, Cat, Lines;
      ghost var b0, p := body, Work(pre, lblIdx, blockTerminated);
      EmitInsts(pre);
      ghost var q := GenB(b, p.l, p.t, Innermost(loopStack));
      EmitBlock(b);
      Extend(b0, p, q);
      terminated := blockTerminated;
      ghost var w := Work(post, q.l, q.t);
      EmitInsts(post);
      Extend(b0, Cat(p, q), w);
      Extend(b0, Cat(Cat(p, q), w), Next(Jmp(merge), next, q.l, q.t));
      EndArm(merge, next);
    }

    /** The jump out of an arm, unless it has its terminator, and the next label. */
    method EndArm(merge: nat, next: nat)
      modifies this`body, this`blockTerminated
      ensures Wrote(Next(Jmp(merge), next, lblIdx, old(blockTerminated)), old(body))
    {
      if blockTerminated { EmitLabel(next); } else { EndBlock(Jmp(merge), next); }
    }

    /** A branch and its two arms, which meet at the label `end`; `done` if neither gets there. */
    method EmitTwo(e: Node, yes: nat, no: nat, end: nat, pre1: seq<Instr>, pre2: seq<Instr>, post: seq<Instr>)
      returns (done: bool)
      requires TwoArms(e) && InLoopsE(e, loopStack != [])
      modifies this
      ensures loopStack == old(loopStack) && !blockTerminated
      ensures var loop := Innermost(loopStack);
        Wrote(GenTwo(e, yes, no, end, pre1, pre2, post, old(lblIdx), old(blockTerminated), loop), old(body))
        && done == (Closes(FirstArm(e), old(lblIdx), loop)
          && Closes(SecondArm(e), GenB(FirstArm(e), old(lblIdx), false, loop).l, loop))
      decreases e, 0
    {
      hide GenB, Fine, GenArm, Cat, InLoopsB, InLoopsE;
      ArmsInLoops(e, loopStack != []);
      ghost var b0, loop, p := body, Innermost(loopStack), Next(Br(yes, no), yes, lblIdx, blockTerminated);
      EndBlock(Br(yes, no), yes);
      ghost var q := GenArm(pre1, FirstArm(e), post, end, no, p.l, p.t, loop);
      ArmLabel(pre1, FirstArm(e), post, end, no, p.l, loop);
      var done1 := EmitArm(pre1, FirstArm(e), post, end, no);
      Extend(b0, p, q);
      Extend(b0, Cat(p, q), GenArm(pre2, SecondArm(e), post, end, end, q.l, q.t, loop));
      var done2 := EmitArm(pre2, SecondArm(e), post, end, end);
      done := done1 && done2;
    }

    /** A branch with one arm. */
    method EmitOne(yes: nat, end: nat, a: Body)
      requires InLoopsB(a, loopStack != [])
      modifies this
      ensures loopStack == old(loopStack) && !blockTerminated
      ensures var b := Next(Br(yes, end), yes, old(lblIdx), old(blockTerminated));
        Wrote(Cat(b, GenArm([], a, [], end, end, b.l, b.t, Innermost(loopStack))), old(body))
      decreases a, 6
    {
      hide GenArm, GenB;
      EndBlock(Br(yes, end), yes);
      var _ := EmitArm([], a, [], end, end);
    }

    method EmitIf(e: Node)
      requires e.If? && InLoopsE(e, loopStack != [])
      modifies this
      ensures loopStack == old(loopStack)
      ensures Wrote(GenIf(e, old(lblIdx), old(blockTerminated), Innermost(loopStack)), old(body))
      ensures Fine(GenIf(e, old(lblIdx), old(blockTerminated), Innermost(loopStack)), old(lblIdx),
        old(blockTerminated), {},
        LoopTargets(Innermost(loopStack)))
      decreases e, 1
    {
      hide GenN, GenTwo, GenArm, Fine, Next, GenB, Cat, Work, LoopTargets;
      FineIf(e, lblIdx, blockTerminated, Innermost(loopStack));
      ghost var b0, loop := body, Innermost(loopStack);
      ghost var p := GenN(e.cond, lblIdx, blockTerminated, loop);
      EmitExpr(e.cond);
      ghost var q;
      var thenLabel := NewLabel();
      var elseLabel := thenLabel;
      if e.alt.Some? { elseLabel := NewLabel(); }
      var mergeLabel := NewLabel();
      if e.alt.Some? {
        q := GenTwo(e, p.l, p.l + 1, p.l + 2, [], [], [], p.l + 3, p.t, loop);
        var _ := EmitTwo(e, thenLabel, elseLabel, mergeLabel, [], [], []);
      } else {
        ghost var b := Next(Br(p.l, p.l + 1), p.l, p.l + 2, p.t);
        q := Cat(b, GenArm([], e.cons, [], p.l + 1, p.l + 1, b.l, b.t, loop));
        EmitOne(thenLabel, mergeLabel, e.cons);
      }
      Extend(b0, p, q);
      Extend(b0, Cat(p, q), Work(Kept(e.valued, Fetch), q.l, q.t));
      EmitInsts(if e.valued then [Fetch] else []);
    }

    method EmitResultMatch(e: Node)
      requires e.ResultMatch? && InLoopsE(e, loopStack != [])
      modifies this
      ensures loopStack == old(loopStack)
      ensures Wrote(GenResultMatch(e, old(lblIdx), old(blockTerminated), Innermost(loopStack)), old(body))
      ensures Fine(GenResultMatch(e, old(lblIdx), old(blockTerminated), Innermost(loopStack)), old(lblIdx),
        old(blockTerminated), {},
        LoopTargets(Innermost(loopStack)))
      decreases e, 1
    {
      hide GenUse, GenTwo, GenB, Closes, Fine, Cat, Work, Close, LoopTargets;
      FineResultMatch(e, lblIdx, blockTerminated, Innermost(loopStack));
      ghost var b0, loop := body, Innermost(loopStack);
      ghost var p := GenUse(e.subject, [Tag, Tag], lblIdx, blockTerminated, loop);
      EmitUse(e.subject, [Tag, Tag]);
      var okLabel := NewLabel();
      var errLabel := NewLabel();
      var endLabel := NewLabel();
      var done := EmitTwo(e, okLabel, errLabel, endLabel, [Bind, Bind, Bind], [Bind, Bind, Bind],
        if e.valued then [Store] else []);
      ghost var q := GenTwo(e, p.l, p.l + 1, p.l + 2, [Bind, Bind, Bind], [Bind, Bind, Bind], Kept(e.valued, Store),
        p.l + 3, p.t, loop);
      Extend(b0, p, q);
      Extend(b0, Cat(p, q), Close(Unreachable, q.l, q.t));
      Extend(b0, Cat(p, q), Work(Kept(e.valued, Fetch), q.l, q.t));
      if done { CloseBlock(Unreachable); } else { EmitInsts(if e.valued then [Fetch] else []); }
    }

    method EmitOptionMatch(e: Node)
      requires e.OptionMatch? && InLoopsE(e, loopStack != [])
      modifies this
      ensures loopStack == old(loopStack)
      ensures Wrote(GenOptionMatch(e, old(lblIdx), old(blockTerminated), Innermost(loopStack)), old(body))
      ensures Fine(GenOptionMatch(e, old(lblIdx), old(blockTerminated), Innermost(loopStack)), old(lblIdx),
        old(blockTerminated), {},
        LoopTargets(Innermost(loopStack)))
      decreases e, 1
    {
      hide GenUse, GenTwo, GenB, Closes, Fine, Cat, Work, LoopTargets;
      FineOptionMatch(e, lblIdx, blockTerminated, Innermost(loopStack));
      ghost var b0, loop := body, Innermost(loopStack);
      ghost var p := GenUse(e.subject, [Tag, Tag], lblIdx, blockTerminated, loop);
      EmitUse(e.subject, [Tag, Tag]);
      var someLabel := NewLabel();
      var noneLabel := NewLabel();
      var endLabel := NewLabel();
      var _ := EmitTwo(e, someLabel, noneLabel, endLabel, [Bind, Bind, Bind], [], if e.valued then [Store] else []);
      ghost var q := GenTwo(e, p.l, p.l + 1, p.l + 2, [Bind, Bind, Bind], [], Kept(e.valued, Store), p.l + 3,
        p.t, loop);
      Extend(b0, p, q);
      Extend(b0, Cat(p, q), Work(Kept(e.valued, Fetch), q.l, q.t));
      EmitInsts(if e.valued then [Fetch] else []);
    }

    /** The arms of a type match; `end` is referred to only if one of them gets there. */
    method EmitTypeArms(arms: Bodies, end: nat, valued: bool) returns (all: bool)
      requires InLoopsA(arms, loopStack != [])
      modifies this
      ensures loopStack == old(loopStack)
      ensures var g := GenArms(arms, end, valued, old(lblIdx), old(blockTerminated), Innermost(loopStack));
        Wrote(g.0, old(body)) && all == g.1
      decreases arms, 5
    {
      hide GenTypeArm, Closes, InLoopsB, Fine;
      ghost var b0, loop := body, Innermost(loopStack);
      ghost var l0, t0, written := lblIdx, blockTerminated, Piece([], lblIdx, blockTerminated);
      all := true;
      var rest := arms;
      while rest.Bodies?
        invariant (rest == arms || rest < arms) && InLoopsA(rest, loopStack != [])
        invariant loopStack == old(loopStack) && Wrote(written, b0)
        invariant var g, h := GenArms(arms, end, valued, l0, t0, loop),
          GenArms(rest, end, valued, lblIdx, blockTerminated, loop);
          g.0 == Cat(written, h.0) && g.1 == (all && h.1)
        decreases rest
      {
        ghost var p := GenTypeArm(rest.head, end, valued, lblIdx, blockTerminated, loop);
        var done := EmitTypeArm(rest.head, end, valued);
        CatAssoc(written, p, GenArms(rest.tail, end, valued, p.l, p.t, loop).0);
        written := Cat(written, p);
        all := all && done;
        rest := rest.tail;
      }
    }

    method EmitTypeArm(b: Body, end: nat, valued: bool) returns (done: bool)
      requires InLoopsB(b, loopStack != [])
      modifies this
      ensures loopStack == old(loopStack)
      ensures Wrote(GenTypeArm(b, end, valued, old(lblIdx), old(blockTerminated), Innermost(loopStack)), old(body))
      ensures done == Closes(b, old(lblIdx) + 2, Innermost(loopStack))
      decreases b, 5
    {
      hide GenArm, GenB, InLoopsB, Fine;
      var matchLabel := NewLabel();
      var nextLabel := NewLabel();
      EmitInsts([Tag]);
      EndBlock(Br(matchLabel, nextLabel), matchLabel);
      done := EmitArm([Bind, Bind], b, if valued then [Store] else [], end, nextLabel);
    }

    /** The default arm, if there is one, and the jump to the end. */
    method EmitDefault(default: Option<Body>, end: nat, valued: bool) returns (all: bool)
      requires default.Some? ==> InLoopsB(default.value, loopStack != [])
      modifies this
      ensures loopStack == old(loopStack)
      ensures Wrote(GenDefault(default, end, valued, old(lblIdx), old(blockTerminated), Innermost(loopStack)),
        old(body))
      ensures all == DefaultCloses(default, old(lblIdx), old(blockTerminated), Innermost(loopStack))
      decreases default, 5
    {
      hide GenB, InLoopsB, Fine;
      all := false;
      if default.Some? {
        EmitBlock(default.value);
        all := blockTerminated;
        EmitInsts(if valued then [Store] else []);
      }
      CloseBlock(Jmp(end));
    }

    method EmitTypeMatch(e: Node)
      requires e.TypeMatch? && InLoopsE(e, loopStack != [])
      modifies this
      ensures loopStack == old(loopStack)
      ensures Wrote(GenTypeMatch(e, old(lblIdx), old(blockTerminated), Innermost(loopStack)), old(body))
      ensures Fine(GenTypeMatch(e, old(lblIdx), old(blockTerminated), Innermost(loopStack)), old(lblIdx),
        old(blockTerminated), {},
        LoopTargets(Innermost(loopStack)))
      decreases e, 1
    {
      hide GenUse, GenArms, GenDefault, DefaultCloses, InLoopsA, InLoopsB, Fine, Cat, LoopTargets;
      FineTypeMatch(e, lblIdx, blockTerminated, Innermost(loopStack));
      ghost var b0, loop := body, Innermost(loopStack);
      ghost var p := GenUse(e.subject, [Tag, Tag], lblIdx, blockTerminated, loop);
      EmitUse(e.subject, [Tag, Tag]);
      var endLabel := NewLabel();
      ghost var (q, closing) := GenArms(e.arms, p.l, e.valued, p.l + 1, p.t, loop);
      var all := EmitTypeArms(e.arms, endLabel, e.valued);
      Extend(b0, p, q);
      ghost var r := GenDefault(e.default, p.l, e.valued, q.l, q.t, loop);
      var last := EmitDefault(e.default, endLabel, e.valued);
      Extend(b0, Cat(p, q), r);
      if !(all && last) {
        EmitEnd(endLabel, if e.valued then [Fetch] else []);
        Extend(b0, Cat(Cat(p, q), r), Piece([Label(p.l)] + Lines(Kept(e.valued, Fetch)), r.l, false));
      }
    }

    /** The block where the arms meet. */
    method EmitEnd(l: nat, work: seq<Instr>)
      modifies this`body, this`blockTerminated
      ensures Wrote(Piece([Label(l)] + Lines(work), lblIdx, false), old(body))
    {
      EmitLabel(l);
      EmitInsts(work);
    }

    // ---------- statements ----------

    method EmitBlock(b: Body)
      requires InLoopsB(b, loopStack != [])
      modifies this
      ensures loopStack == old(loopStack)
      ensures Wrote(GenB(b, old(lblIdx), old(blockTerminated), Innermost(loopStack)), old(body))
      decreases b, 3
    {
      hide GenC, InLoopsC, Fine;
      ghost var b0, loop := body, Innermost(loopStack);
      ghost var l0, t0, done := lblIdx, blockTerminated, Piece([], lblIdx, blockTerminated);
      var rest := b;
      while rest.Then?
        invariant (rest == b || rest < b) && InLoopsB(rest, loopStack != [])
        invariant loopStack == old(loopStack) && Wrote(done, b0)
        invariant Cat(done, GenB(rest, lblIdx, blockTerminated, loop)) == GenB(b, l0, t0, loop)
        decreases rest
      {
        ghost var p := GenC(rest.head, lblIdx, blockTerminated, loop);
        EmitStmt(rest.head);
        CatAssoc(done, p, GenB(rest.tail, p.l, p.t, loop));
        done := Cat(done, p);
        rest := rest.tail;
      }
    }

    method EmitStmt(c: Command)
      requires InLoopsC(c, loopStack != [])
      modifies this
      ensures loopStack == old(loopStack)
      ensures var loop := Innermost(loopStack);
        Wrote(GenC(c, old(lblIdx), old(blockTerminated), loop), old(body))
        && Fine(GenC(c, old(lblIdx), old(blockTerminated), loop), old(lblIdx), old(blockTerminated), {},
          LoopTargets(loop))
      ensures c.Return? ==> blockTerminated
      decreases c, 2
    {
      hide Fine, LoopTargets, GenN, GenLoop, Cat, InLoopsE, InLoopsB;
      FineC(c, lblIdx, blockTerminated, Innermost(loopStack));
      match c
      case Eval(e) => EmitExpr(e);
      case Return(v) => EmitReturn(v);
      case For(_, _, _, _) => EmitFor(c);
      case ForIn(_, _) => EmitForIn(c);
      case Break => CloseBlock(Jmp(loopStack[|loopStack| - 1].escape));
      case Continue => CloseBlock(Jmp(ContinueTo(loopStack[|loopStack| - 1])));
    }

    method EmitReturn(v: Option<Node>)
      requires v.Some? ==> InLoopsE(v.value, loopStack != [])
      modifies this
      ensures loopStack == old(loopStack) && blockTerminated
      ensures Wrote(GenC(Return(v), old(lblIdx), old(blockTerminated), Innermost(loopStack)), old(body))
      decreases v, 4
    {
      hide GenN, InLoopsE, Fine;
      if v.Some? { EmitExpr(v.value); }
      CloseBlock(Ret);
    }

    method EmitOpt(c: Option<Command>)
      requires c.Some? ==> InLoopsC(c.value, loopStack != [])
      modifies this
      ensures loopStack == old(loopStack)
      ensures Wrote(GenOptC(c, old(lblIdx), old(blockTerminated), Innermost(loopStack)), old(body))
      decreases c, 3
    {
      hide GenC, InLoopsC, Fine;
      if c.Some? { EmitStmt(c.value); }
    }

    /** Initialisation, jump to the condition, condition, branch into the loop. */
    method EmitForHead(c: Command, x: LoopLabels, loopLabel: nat)
      requires c.For? && InLoopsC(c, true) && loopStack != [] && Innermost(loopStack) == Some(x)
      modifies this
      ensures loopStack == old(loopStack)
        && Wrote(GenHead(c, x, loopLabel, old(lblIdx), old(blockTerminated)), old(body))
      decreases c, 0
    {
      hide GenN, GenOptC, InLoopsE, Fine;
      EmitOpt(c.first);
      EndBlock(Jmp(x.cond), x.cond);
      EmitExpr(c.cond);
      EndBlock(Br(loopLabel, x.escape), loopLabel);
    }

    /** Body, post statement, jump back to the condition, and the label behind the loop. */
    method EmitForTail(pre: seq<Instr>, c: Command, step: seq<Instr>, x: LoopLabels)
      requires IsLoop(c) && InLoopsC(c, true) && loopStack != [] && Innermost(loopStack) == Some(x)
      requires pre == Binding(c) && step == Advancing(c) && (x.post.Some? <==> HasPost(c))
      modifies this
      ensures loopStack == old(loopStack) && Wrote(GenTail(c, x, old(lblIdx), old(blockTerminated)), old(body))
      decreases c, 0, 1
    {
      hide GenB, GenPost, InLoopsB, Fine, Cat, Lines;
      ghost var b0, p := body, Work(pre, lblIdx, blockTerminated);
      EmitInsts(pre);
      ghost var b := GenB(c.body, p.l, p.t, Some(x));
      EmitBlock(c.body);
      Extend(b0, p, b);
      ghost var q := GenPost(c, x, b.l, b.t);
      EmitPost(c, step, x);
      Extend(b0, Cat(p, b), q);
      Extend(b0, Cat(Cat(p, b), q), Next(Jmp(x.cond), x.escape, q.l, q.t));
      EndBlock(Jmp(x.cond), x.escape);
    }

    method EmitPost(c: Command, step: seq<Instr>, x: LoopLabels)
      requires IsLoop(c) && InLoopsC(c, true) && loopStack != [] && Innermost(loopStack) == Some(x)
      requires step == Advancing(c) && (x.post.Some? <==> HasPost(c))
      modifies this
      ensures loopStack == old(loopStack) && Wrote(GenPost(c, x, old(lblIdx), old(blockTerminated)), old(body))
      decreases c, 0, 0
    {
      hide GenOptC, Fine;
      if x.post.Some? {
        EndBlock(Jmp(x.post.value), x.post.value);
        if c.For? { EmitOpt(c.post); }
        EmitInsts(step);
      }
    }

    method EnterLoop(l: LoopLabels)
      modifies this`loopStack
      ensures loopStack == old(loopStack) + [l]
    {
      loopStack := loopStack + [l];
    }

    method LeaveLoop()
      requires loopStack != []
      modifies this`loopStack
      ensures loopStack == old(loopStack)[..|old(loopStack)| - 1]
    {
      loopStack := loopStack[..|loopStack| - 1];
    }

    method EmitFor(c: Command)
      requires c.For? && InLoopsC(c, loopStack != [])
      modifies this
      ensures loopStack == old(loopStack) && Wrote(GenLoop(c, old(lblIdx), old(blockTerminated)), old(body))
      ensures Fine(GenLoop(c, old(lblIdx), old(blockTerminated)), old(lblIdx), old(blockTerminated), {},
        LoopTargets(Innermost(loopStack)))
      decreases c, 1
    {
      hide GenHead, GenTail, InLoopsC, Fine, LoopTargets;
      FineLoop(c, lblIdx, blockTerminated, LoopTargets(Innermost(loopStack))) by { InAnyLoop(c, loopStack != []); }
      LoopParts(c, lblIdx, blockTerminated);
      InAnyLoop(c, loopStack != []);
      var condLabel := NewLabel();
      var loopLabel := NewLabel();
      var postLabel := None;
      if c.post.Some? {
        var p := NewLabel();
        postLabel := Some(p);
      }
      var escapeLabel := NewLabel();
      var x := LoopLabels(condLabel, postLabel, escapeLabel);
      EnterLoop(x);
      EmitForHead(c, x, loopLabel);
      EmitForTail([], c, [], x);
      LeaveLoop();
    }

    method EmitForIn(c: Command)
      requires c.ForIn? && InLoopsC(c, loopStack != [])
      modifies this
      ensures loopStack == old(loopStack) && Wrote(GenLoop(c, old(lblIdx), old(blockTerminated)), old(body))
      ensures Fine(GenLoop(c, old(lblIdx), old(blockTerminated)), old(lblIdx), old(blockTerminated), {},
        LoopTargets(Innermost(loopStack)))
      decreases c, 1
    {
      hide GenHead, GenTail, InLoopsC, Fine, LoopTargets;
      FineLoop(c, lblIdx, blockTerminated, LoopTargets(Innermost(loopStack))) by { InAnyLoop(c, loopStack != []); }
      LoopParts(c, lblIdx, blockTerminated);
      InAnyLoop(c, loopStack != []);
      var condLabel := NewLabel();
      var loopLabel := NewLabel();
      var postLabel := NewLabel();
      var escapeLabel := NewLabel();
      var x := LoopLabels(condLabel, Some(postLabel), escapeLabel);
      EnterLoop(x);
      EmitForInHead(c, x, loopLabel);
      EmitForTail([Bind, Bind, Bind, Bind, Bind, Bind], c, [Advance, Advance, Advance], x);
      LeaveLoop();
    }

    /** The iterable kept in a hidden variable, and the comparison of index and length. */
    method EmitForInHead(c: Command, x: LoopLabels, loopLabel: nat)
      requires c.ForIn? && InLoopsC(c, true) && loopStack != [] && Innermost(loopStack) == Some(x)
      modifies this
      ensures loopStack == old(loopStack)
        && Wrote(GenHead(c, x, loopLabel, old(lblIdx), old(blockTerminated)), old(body))
      decreases c, 0
    {
      hide GenUse, InLoopsE, Fine;
      EmitUse(c.iterable, [Setup, Setup, Setup, Setup, Setup]);
      EndBlock(Jmp(x.cond), x.cond);
      EmitInsts([Test, Test, Test]);
      EndBlock(Br(loopLabel, x.escape), loopLabel);
    }

    // ---------- functions ----------

    /** The body of a function, with a return at the end unless control cannot get there. */
    method EmitFunction(b: Body)
      requires InLoopsB(b, false) && body == [] && !blockTerminated && lblIdx == 0 && loopStack == []
      modifies this
      ensures body == GenFunction(b) && WellFormed(body) && Terminated(false, body)
    {
      hide GenB, WellFormed, Terminated;
      FunctionWellFormed(b);
      EmitBlock(b);
      if !blockTerminated { Emit(Ret); }
    }
  }

  lemma Extend(before: seq<Line>, a: Piece, b: Piece)
    ensures before + a.code + b.code == before + Cat(a, b).code && Cat(a, b).l == b.l && Cat(a, b).t == b.t
  {
    assert before + a.code + b.code == before + (a.code + b.code);
  }

  lemma ArmLabel(pre: seq<Instr>, b: Body, post: seq<Instr>, merge: nat, next: nat, l: nat, loop: Option<LoopLabels>)
    ensures GenArm(pre, b, post, merge, next, l, false, loop).l == GenB(b, l, false, loop).l
    ensures !GenArm(pre, b, post, merge, next, l, false, loop).t
  {
    hide GenB;
  }

  lemma ArmsInLoops(e: Node, loop: bool)
    requires TwoArms(e) && InLoopsE(e, loop)
    ensures InLoopsB(FirstArm(e), loop) && InLoopsB(SecondArm(e), loop)
  { }

  function Advancing(c: Command): seq<Instr> { if c.ForIn? then [Advance, Advance, Advance] else [] }

  /** What comes before the body. */
  function GenHead(c: Command, x: LoopLabels, loopLabel: nat, l: nat, t: bool): Piece
    requires IsLoop(c)
  {
    var p := GenStart(c, l, t, Some(x));
    var q := Cat(p, Next(Jmp(x.cond), x.cond, p.l, p.t));
    var r := GenTest(c, q.l, q.t, Some(x));
    Cat(q, Cat(r, Next(Br(loopLabel, x.escape), loopLabel, r.l, r.t)))
  }

  lemma LoopParts(c: Command, l: nat, t: bool)
    requires IsLoop(c)
    ensures var x := LabelsFrom(c, l); var p := GenHead(c, x, l + 1, x.escape + 1, t);
      GenLoop(c, l, t) == Cat(p, GenTail(c, x, p.l, p.t))
  {
    hide GenStart, GenTest, GenTail;
  }

  lemma InAnyLoop(c: Command, loop: bool)
    requires IsLoop(c) && InLoopsC(c, loop)
    ensures InLoopsC(c, true)
  { }
}
