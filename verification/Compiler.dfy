/** The bytecode compiler as it works: bytes are appended, jumps are emitted with a
    placeholder and patched in place, and the last pop of a branch is cut off again
    (compiler/compiler.go). Its output is the code that `Codegen` specifies. */
module Compilers {
  import opened Language
  import opened Typing
  import opened Bytecode
  import opened Codegen
  import opened Scoping
  import opened Patching
  import opened SymbolTables
  import opened Snapshots
  import opened Preservation
  import opened Compilability

  class Compiler {
    var constants: seq<Value>
    var symbolTable: SymbolTable
    var instructions: seq<byte>
    var lastInstruction: EmittedInstruction
    var previousInstruction: EmittedInstruction
    var loopContexts: seq<LoopContext>

    /** The instructions the bytes stand for, where those of the innermost loop begin, and
        which of its continues are patched already. */
    ghost var list: seq<Ins>
    ghost var from: nat
    ghost var done: seq<nat>

    constructor ()
      ensures Inv() && fresh(symbolTable.chain)
      ensures Snap() == Snapshot([], 0, [], Ctx([map[]], 0, true), 0, [], [], NoLoop)
    {
      constants, instructions, loopContexts := [], [], [];
      lastInstruction, previousInstruction := EmittedInstruction(0, 0), EmittedInstruction(0, 0);
      symbolTable := new SymbolTable();
      list, from, done := [], 0, [];
    }

    ghost predicate Inv()
      reads this, symbolTable, symbolTable.chain
    {
      symbolTable.Valid() && Coded(instructions, list, from, done, loopContexts)
    }

    ghost function Snap(): Snapshot
      reads this, symbolTable, symbolTable.chain
    {
      Snapshot(list, |instructions|, constants, symbolTable.Context(), from, done,
        Outer(loopContexts), LoopOf(loopContexts))
    }

    /** The last emitted instruction is the last of the list. */
    ghost predicate LastKnown()
      reads this
    {
      && list != [] && lastInstruction.op == OpOf(list[|list| - 1])
      && lastInstruction.pos + SizeOf(list[|list| - 1]) == |instructions|
      && (lastInstruction.op == OP_POP ==> list[|list| - 1] == Plain(OP_POP))
    }

    method Emit(op: byte, operands: seq<nat>) returns (pos: nat)
      requires Inv()
      requires OperandWidths(op).Some? && |operands| == |OperandWidths(op).value| <= 1
      modifies this`instructions, this`lastInstruction, this`previousInstruction, this`list, this`loopContexts
      ensures Inv() && LastKnown() && loopContexts == old(loopContexts) && pos == |old(instructions)|
      ensures Snap() == More(old(Snap()), InsOf(op, operands))
    {
      var ins := Make(op, operands);
      MakeIs(op, operands);
      ghost var i := InsOf(op, operands);
      CodedMore(instructions, list, from, done, loopContexts, i);
      pos := AddInstruction(op, ins, loopContexts, i);
    }

    /** addInstruction and setLastInstruction, with the loops as they are then. */
    method AddInstruction(op: byte, ins: seq<byte>, loops: seq<LoopContext>, ghost i: Ins) returns (pos: nat)
      requires symbolTable.Valid() && Coded(instructions + ins, list + [i], from, done, loops)
      requires |ins| == SizeOf(i) && op == OpOf(i) && (op == OP_POP ==> i == Plain(OP_POP))
      requires Outer(loops) == Outer(loopContexts) && LoopOf(loops) == LoopOf(loopContexts)
      modifies this`instructions, this`lastInstruction, this`previousInstruction, this`list, this`loopContexts
      ensures Inv() && LastKnown() && pos == |old(instructions)| && loopContexts == loops
      ensures Snap() == More(old(Snap()), i)
    {
      pos := |instructions|;
      instructions, loopContexts, list := instructions + ins, loops, list + [i];
      previousInstruction := lastInstruction;
      lastInstruction := EmittedInstruction(op, pos);
    }

    /** A jump whose target is not known yet. */
    static method OpenJump() returns (ins: seq<byte>)
      ensures ins == Encode1(Wide(OP_JUMP, PLACEHOLDER))
    {
      ins := Make(OP_JUMP, [PLACEHOLDER]);
      MakeIs(OP_JUMP, [PLACEHOLDER]);
    }

    /** `break`, and `continue` in a loop with a post statement: a jump to be patched. */
    method EmitExit(brk: bool)
      requires Inv() && loopContexts != []
      modifies this`instructions, this`lastInstruction, this`previousInstruction, this`list, this`loopContexts
      ensures Inv() && LastKnown()
      ensures Snap() == More(old(Snap()), if brk then BreakHole else ContinueHole)
    {
      var ins := OpenJump();
      var pos := |instructions|;
      var l := Record(loopContexts[|loopContexts| - 1], brk, pos);
      var loops := loopContexts[|loopContexts| - 1 := l];
      ghost var i := if brk then BreakHole else ContinueHole;
      CodedExit(instructions, list, from, done, loopContexts, brk, l, i, loops);
      pos := AddInstruction(OP_JUMP, ins, loops, i);
    }

    method AddConstant(v: Value) returns (k: nat)
      modifies this`constants
      ensures constants == old(constants) + [v] && k == |old(constants)|
    {
      k := |constants|;
      constants := constants + [v];
    }

    method LastInstructionIs(op: byte) returns (b: bool)
      ensures b == (instructions != [] && lastInstruction.op == op)
    {
      b := |instructions| != 0 && lastInstruction.op == op;
    }

    /** Only called when the last instruction is a pop. */
    method RemoveLastPop()
      requires Inv() && LastKnown() && list[|list| - 1] == Plain(OP_POP) && from < |list|
      modifies this`instructions, this`lastInstruction, this`list
      ensures Inv() && lastInstruction == previousInstruction
      ensures Snap() == old(Snap()).(list := old(list)[..|old(list)| - 1], size := |old(instructions)| - 1)
    {
      hide SymbolTable.Valid;
      CodedPop(instructions, list, from, done, loopContexts);
      instructions := instructions[..lastInstruction.pos];
      lastInstruction := previousInstruction;
      list := list[..|list| - 1];
    }

    method ReplaceInstruction(pos: nat, ins: seq<byte>)
      requires pos + |ins| <= |instructions|
      modifies this`instructions
      ensures instructions == old(instructions)[..pos] + ins + old(instructions)[pos + |ins|..]
    {
      ghost var was := instructions;
      for i := 0 to |ins|
        invariant instructions == was[..pos] + ins[..i] + was[pos + i..]
      {
        instructions := instructions[pos + i := ins[i]];
        assert instructions == was[..pos] + ins[..i + 1] + was[pos + i + 1..];
      }
    }

    /** Rewrite the operand of the jump at `opPos`. */
    method ChangeOperand(opPos: nat, operand: nat)
      requires opPos + 3 <= |instructions| && OperandWidths(instructions[opPos]) == Some([2])
      modifies this`instructions
      ensures instructions == Patch1(old(instructions), opPos, operand)
    {
      var op := instructions[opPos];
      var ins := Make(op, [operand]);
      assert OperandsBytes([2], [operand]) == [(operand / 256) % 256, operand % 256];
      ReplaceInstruction(opPos, ins);
      assert instructions == Patch1(old(instructions), opPos, operand);
    }
  
    /** Let the jump emitted at `pos`, after the instructions `pre`, lead to the current end
        of the code. */
    method PatchHere(pos: nat, ghost pre: seq<Ins>)
      requires Inv() && from <= |pre| < |list| && pre == list[..|pre|] && pos == Size(pre)
      requires list[|pre|].Wide? && OperandWidths(list[|pre|].op) == Some([2])
      modifies this`instructions, this`list
      ensures Inv()
      ensures Snap() == SetAt(old(Snap()), |pre|, Wide(old(list)[|pre|].op, |old(instructions)|))
    {
      CodedPatch(instructions, list, from, done, loopContexts, |pre|, pos, |instructions|);
      list := list[|pre| := Wide(list[|pre|].op, |instructions|)];
      ChangeOperand(pos, |instructions|);
    }

    /** Patch the jumps at `positions` one after the other. */
    method PatchAll(positions: seq<nat>, target: nat, ghost before: seq<byte>, ghost code: seq<Ins>, ghost brk: bool,
            ghost goal: seq<byte>)
      requires Patched(instructions, before, code, brk, target, positions, goal)
      modifies this`instructions
      ensures instructions == goal && |instructions| == |old(instructions)|
    {
      ghost var pre, rest := before, code;
      var i := 0;
      while i < |positions|
        invariant i <= |positions| && Patched(instructions, pre, rest, brk, target, positions[i..], goal)
        invariant |instructions| == |old(instructions)|
      {
        ghost var pre', rest' := PatchNext(instructions, pre, rest, brk, target, positions[i..], goal);
        ChangeOperand(positions[i], target);
        pre, rest := pre', rest';
        assert positions[i + 1..] == positions[i..][1..];
        i := i + 1;
      }
      PatchedAll(instructions, pre, rest, brk, target, goal);
    }

    /** Let the recorded breaks (or continues) of the innermost loop lead to `target`. */
    method PatchExits(brk: bool, target: nat)
      requires Coded(instructions, list, from, done, loopContexts) && loopContexts != [] && (brk || done == [])
      modifies this`instructions, this`list
      ensures instructions == Encode(list) && |instructions| == |old(instructions)|
      ensures list == old(list)[..from] + FillKind(old(list)[from..], brk, target)
    {
      var loop := loopContexts[|loopContexts| - 1];
      ghost var goal := ExitsFilled(instructions, list, from, done, loop, brk, target);
      PatchAll(if brk then loop.breakPositions else loop.continuePositions, target,
        Encode(list[..from]), list[from..], brk, goal);
      list := list[..from] + FillKind(list[from..], brk, target);
    }

    // ---------- scopes and loops ----------

    method PushBlockScope()
      requires Inv()
      modifies this`symbolTable
      ensures Inv() && fresh(symbolTable) && symbolTable.chain == [symbolTable] + old(symbolTable.chain)
      ensures Snap() == old(Snap()).(ctx := Push(old(symbolTable.Context())))
    {
      symbolTable := new SymbolTable.Block(symbolTable);
    }

    method PopBlockScope()
      requires Inv() && |symbolTable.chain| > 1
      modifies this`symbolTable
      ensures Inv() && symbolTable == old(symbolTable.chain[1]) && symbolTable.chain == old(symbolTable.chain[1..])
      ensures Snap() == old(Snap()).(ctx := PopScope(old(symbolTable.Context())))
    {
      ChainTail(symbolTable.chain);
      assert Linked(symbolTable.chain, 0) && Linked(symbolTable.chain, 1);
      symbolTable := symbolTable.Outer;
    }

    method EnterLoop(conditionPos: nat, hasPost: bool)
      requires Inv()
      modifies this`loopContexts, this`from, this`done
      ensures Inv() && loopContexts == old(loopContexts) + [LoopContext(conditionPos, hasPost, [], [])]
      ensures Snap() == old(Snap()).(from := |list|, done := [], outer := old(loopContexts),
        lp := InLoop(hasPost, conditionPos))
    {
      var l := LoopContext(conditionPos, hasPost, [], []);
      EnterCoded(instructions, list, loopContexts, l);
      loopContexts := loopContexts + [l];
      from, done := |list|, [];
    }

    method PatchContinues(target: nat)
      requires Inv() && loopContexts != [] && done == []
      modifies this`instructions, this`list, this`done
      ensures Inv()
      ensures exists d :: Snap() == old(Snap()).(list := old(list)[..from] + FillKind(old(list)[from..], false, target),
        done := d)
    {
      hide Encode, Size, HolePos, SymbolTable.Valid;
      ghost var was := list;
      PatchExits(false, target);
      ContinuesCoded(instructions, was, from, loopContexts, list, target);
      done := loopContexts[|loopContexts| - 1].continuePositions;
      assert Snap() == old(Snap()).(list := was[..from] + FillKind(was[from..], false, target), done := done);
    }

    /** Patch the breaks and leave the loop, for the one around it. */
    method LeaveLoop(target: nat, ghost from': nat, ghost done': seq<nat>)
      requires Inv() && loopContexts != []
      requires Coded(Encode(list[..from]), list[..from], from', done', Outer(loopContexts))
      modifies this`instructions, this`list, this`loopContexts, this`from, this`done
      ensures Inv() && loopContexts == old(Outer(loopContexts))
      ensures Snap() == Snapshot(old(list[..from] + Fill(list[from..], target, PLACEHOLDER)), |old(instructions)|,
        constants,
        symbolTable.Context(), from', done', Outer(loopContexts), LoopOf(loopContexts))
    {
      ghost var before, c := list[..from], list[from..];
      PatchExits(true, target);
      BreaksEncoded(before, c, target);
      list := before + Fill(c, target, PLACEHOLDER);
      loopContexts := loopContexts[..|loopContexts| - 1];
      LeaveCoded(instructions, before, c, from', done', loopContexts, target);
      from, done := from', done';
    }

    // ---------- expressions ----------

    method CompileConstant(v: Value)
      requires Inv()
      modifies this
      ensures Inv() && LastKnown() && symbolTable == old(symbolTable)
      ensures Adds(old(Snap()), Snap(), Gen([Wide(OP_CONSTANT, |old(constants)|)], 3, [v], old(symbolTable.Context())))
    {
      var k := AddConstant(v);
      var _ := Emit(OP_CONSTANT, [k]);
    }

    /** An instruction without operand. */
    method EmitPlain(op: byte)
      requires Inv() && OperandWidths(op) == Some([])
      modifies this
      ensures Inv() && LastKnown() && symbolTable == old(symbolTable) && loopContexts == old(loopContexts)
      ensures Snap() == More(old(Snap()), Plain(op))
        && Adds(old(Snap()), Snap(), Gen([Plain(op)], 1, [], old(symbolTable.Context())))
    {
      ghost var a := Snap();
      var _ := Emit(op, []);
      AddsMore(a, Plain(op));
    }

    method CompileIdent(x: string) returns (ok: bool)
      requires Inv()
      modifies this
      ensures ok == OfE(Ident(x), old(Snap())).Gen?
      ensures ok ==> Inv() && symbolTable == old(symbolTable)
      ensures ok ==> Adds(old(Snap()), Snap(), OfE(Ident(x), old(Snap())))
    {
      ghost var a := Snap();
      var r, _ := symbolTable.Find(x);
      ok := r.Some?;
      if ok {
        var _ := Emit(OP_GET_GLOBAL, [r.value.index]);
        AddsMore(a, Wide(OP_GET_GLOBAL, r.value.index));
      }
    }

    method CompileExpr(e: Expr) returns (ok: bool)
      requires Inv()
      modifies this, symbolTable.chain
      ensures ok == OfE(e, old(Snap())).Gen?
      ensures ok ==> Inv() && symbolTable == old(symbolTable) && symbolTable.chain == old(symbolTable.chain)
      ensures ok ==> Adds(old(Snap()), Snap(), OfE(e, old(Snap())))
      decreases e, 1
    {
      hide Coded, SymbolTable.Valid;
      match e
      case IntLit(n) =>
        CompileConstant(IntV(n));
        ok := true;
      case BoolLit(b) =>
        EmitPlain(if b then OP_TRUE else OP_FALSE);
        ok := true;
      case Ident(x) =>
        ok := CompileIdent(x);
      case Prefix(op, r) =>
        ghost var a := Snap();
        ok := CompileExpr(r);
        if ok {
          ghost var b := Snap();
          EmitPlain(if op.Not? then OP_BANG else OP_MINUS);
          AddsThen(a, b, Snap(), OfE(r, a), PrefixIns(op));
        }
      case Infix(_, _, _) =>
        ok := CompileInfix(e);
      case If(_, _, _, _) =>
        ok := CompileIf(e);
    }

    /** `<` and `<=` are compiled as `>` and `>=` with the operands swapped. */
    method CompileInfix(e: Expr) returns (ok: bool)
      requires Inv() && e.Infix?
      modifies this, symbolTable.chain
      ensures ok == OfE(e, old(Snap())).Gen?
      ensures ok ==> Inv() && symbolTable == old(symbolTable) && symbolTable.chain == old(symbolTable.chain)
      ensures ok ==> Adds(old(Snap()), Snap(), OfE(e, old(Snap())))
      decreases e, 0
    {
      hide Coded, SymbolTable.Valid;
      var (first, second) := if Swapped(e.op) then (e.rhs, e.left) else (e.left, e.rhs);
      ghost var a := Snap();
      ok := CompileExpr(first);
      if !ok { return; }
      ghost var b := Snap();
      ok := CompileExpr(second);
      if !ok { return; }
      AddsJoin(a, b, Snap(), OfE(first, a), OfE(second, b));
      EmitOperator(e.op, a, Join(OfE(first, a), OfE(second, b)));
    }

    method EmitOperator(op: InfixOp, ghost a: Snapshot, ghost g: Gen)
      requires Inv() && Adds(a, Snap(), g)
      modifies this
      ensures Inv() && symbolTable == old(symbolTable)
      ensures Adds(a, Snap(), Then(g, InfixIns(op)))
    {
      ghost var b := Snap();
      OperatorPlain(op);
      EmitPlain(InfixIns(op).op);
      AddsThen(a, b, Snap(), g, InfixIns(op));
    }

    /** The end of a branch: a unit branch leaves null, another one its last value. */
    method EndBranch(unit: bool, ghost a: Snapshot, ghost g: Gen)
      requires Inv() && LastKnown() && Adds(a, Snap(), g)
      requires a.size == Size(a.list) && from <= |a.list| && a.list != [] && a.list[|a.list| - 1] != Plain(OP_POP)
      modifies this
      ensures Inv() && symbolTable == old(symbolTable)
      ensures Snap() == BranchEnd(a, old(Snap()), unit, g)
    {
      hide Encode, HolePos, SymbolTable.Valid;
      if unit {
        EmitPlain(OP_NULL);
        assert a.list + g.code + [Plain(OP_NULL)] == a.list + (g.code + [Plain(OP_NULL)]);
      } else {
        var pop := LastInstructionIs(OP_POP);
        BranchLast(a, Snap(), g);
        if pop { RemoveLastPop(); }
      }
    }

    method CompileBlock(b: Block) returns (ok: bool)
      requires Inv()
      modifies this, symbolTable.chain
      decreases b, 3
      ensures ok == OfBlock(b, old(Snap())).Gen?
      ensures ok ==> Inv() && symbolTable == old(symbolTable) && symbolTable.chain == old(symbolTable.chain)
      ensures ok ==> Adds(old(Snap()), Snap(), OfBlock(b, old(Snap()))) && (old(LastKnown()) ==> LastKnown())
    {
      hide Coded, Encode, Size, GenE, GenS, Stores;
      PushBlockScope();
      ghost var a := Snap();
      ok := CompileStmts(b);
      if !ok { return; }
      PopBlockScope();
    }

    /** The statements of a program or of a block, in order. */
    method CompileStmts(b: Block) returns (ok: bool)
      requires Inv()
      modifies this, symbolTable.chain
      decreases b, 2
      ensures ok == OfStmts(b, old(Snap())).Gen?
      ensures ok ==> Inv() && symbolTable == old(symbolTable) && symbolTable.chain == old(symbolTable.chain)
      ensures ok ==> Adds(old(Snap()), Snap(), OfStmts(b, old(Snap()))) && (old(LastKnown()) ==> LastKnown())
    {
      hide Coded, SymbolTable.Valid;
      ghost var a := Snap();
      ghost var g := Gen([], 0, [], a.ctx);
      AddsNothing(a);
      var rest := b;
      while rest.Seq?
        invariant rest == b || rest < b
        invariant Inv() && symbolTable == old(symbolTable) && symbolTable.chain == old(symbolTable.chain)
        invariant Adds(a, Snap(), g) && OfStmts(b, a) == Join(g, OfStmts(rest, Snap()))
        invariant old(LastKnown()) ==> LastKnown()
        decreases rest
      {
        ghost var s := Snap();
        ok := CompileStmt(rest.head);
        if !ok { return; }
        AddsJoin(a, s, Snap(), g, OfS(rest.head, s));
        JoinStmts(b, a, rest, s, Snap(), g);
        g := Join(g, OfS(rest.head, s));
        rest := rest.tail;
      }
      JoinNothing(g, Snap());
      ok := true;
    }

    method CompileStmt(s: Stmt) returns (ok: bool)
      requires Inv()
      modifies this, symbolTable.chain
      decreases s, 1
      ensures ok == OfS(s, old(Snap())).Gen?
      ensures ok ==> Inv() && symbolTable == old(symbolTable) && symbolTable.chain == old(symbolTable.chain)
      ensures ok ==> Adds(old(Snap()), Snap(), OfS(s, old(Snap()))) && LastKnown()
    {
      hide Coded, SymbolTable.Valid;
      match s
      case ExprStmt(e) =>
        ghost var a := Snap();
        ok := CompileExpr(e);
        if ok {
          ghost var b := Snap();
          EmitPlain(OP_POP);
          AddsThen(a, b, Snap(), OfE(e, a), Plain(OP_POP));
        }
      case VarDecl(_, _, _, _) => ok := CompileDecl(s);
      case Assign(x, e) => ok := CompileAssign(s);
      case For(_, _, _, _) => ok := CompileFor(s);
      case Break =>
        ok := loopContexts != [];
        if ok {
          AddsExit(Snap(), BreakHole);
          EmitExit(true);
        }
      case Continue =>
        ok := loopContexts != [];
        if ok {
          var loop := loopContexts[|loopContexts| - 1];
          if loop.hasPost {
            AddsExit(Snap(), ContinueHole);
            EmitExit(false);
          } else {
            AddsExit(Snap(), Wide(OP_JUMP, loop.conditionPos));
            var _ := Emit(OP_JUMP, [loop.conditionPos]);
          }
        }
    }

    method CompileDecl(s: Stmt) returns (ok: bool)
      requires Inv() && s.VarDecl?
      modifies this, symbolTable.chain
      decreases s, 0
      ensures ok == OfS(s, old(Snap())).Gen?
      ensures ok ==> Inv() && symbolTable == old(symbolTable) && symbolTable.chain == old(symbolTable.chain)
      ensures ok ==> Adds(old(Snap()), Snap(), OfS(s, old(Snap()))) && LastKnown()
    {
      hide Coded;
      ghost var a := Snap();
      var sym, fromOuter := symbolTable.Find(s.x);
      ResolveHere(a.ctx.scopes, s.x);
      if sym.Some? && !fromOuter {
        DeclGen(a, s);
        return false;
      }
      ok := CompileInit(s.init, s.ty);
      if !ok {
        DeclGen(a, s);
        return;
      }
      ghost var b := Snap();
      DefineAndStore(s.x, s.constant);
      AddsDecl(a, b, Snap(), s, OfInit(s.init, s.ty, a));
    }

    /** A new slot for `x`, which the value on the stack goes to. */
    method DefineAndStore(x: string, constant: bool)
      requires Inv()
      modifies this, symbolTable.chain
      ensures Inv() && LastKnown() && symbolTable == old(symbolTable) && symbolTable.chain == old(symbolTable.chain)
      ensures var c := old(symbolTable.Context());
        Snap() == More(old(Snap()), SetIns(c, c.next, constant)).(ctx := Codegen.Define(c, x, constant))
    {
      var symbol := symbolTable.Define(x, constant);
      var op := if constant then OP_SET_IMMUTABLE_GLOBAL else OP_SET_MUTABLE_GLOBAL;
      var _ := Emit(op, [symbol.index]);
    }

    /** The declared value, or the zero value of the type. */
    method CompileInit(init: Option<Expr>, ty: Option<Ty>) returns (ok: bool)
      requires Inv()
      modifies this, symbolTable.chain
      decreases init, 3
      ensures ok == OfInit(init, ty, old(Snap())).Gen?
      ensures ok ==> Inv() && symbolTable == old(symbolTable) && symbolTable.chain == old(symbolTable.chain)
      ensures ok ==> Adds(old(Snap()), Snap(), OfInit(init, ty, old(Snap())))
    {
      ok := true;
      if init.None? { EmitZeroValue(ty); } else { ok := CompileExpr(init.value); }
    }

    method EmitZeroValue(ty: Option<Ty>)
      requires Inv()
      modifies this
      ensures Inv() && symbolTable == old(symbolTable)
      ensures Adds(old(Snap()), Snap(), ZeroGen(ty, old(symbolTable.Context()), |old(constants)|))
    {
      match ty
      case Some(TInt) => CompileConstant(IntV(0));
      case Some(TBool) => EmitPlain(OP_FALSE);
      case _ => EmitPlain(OP_NULL);
    }

    method CompileAssign(s: Stmt) returns (ok: bool)
      requires Inv() && s.Assign?
      modifies this, symbolTable.chain
      decreases s, 0
      ensures ok == OfS(s, old(Snap())).Gen?
      ensures ok ==> Inv() && symbolTable == old(symbolTable) && symbolTable.chain == old(symbolTable.chain)
      ensures ok ==> Adds(old(Snap()), Snap(), OfS(s, old(Snap()))) && LastKnown()
    {
      hide Coded, SymbolTable.Valid;
      ghost var a := Snap();
      ok := CompileExpr(s.e);
      if !ok { return; }
      ghost var b := Snap();
      var sym, _ := symbolTable.Find(s.x);
      if sym.None? || sym.value.constant { return false; }
      var _ := Emit(OP_SET_MUTABLE_GLOBAL, [sym.value.index]);
      AddsThen(a, b, Snap(), OfE(s.e, a), Wide(OP_SET_MUTABLE_GLOBAL, sym.value.index));
    }

    method CompileOpt(s: Option<Stmt>) returns (ok: bool)
      requires Inv()
      modifies this, symbolTable.chain
      decreases s, 2
      ensures ok == OfOpt(s, old(Snap())).Gen?
      ensures ok ==> Inv() && symbolTable == old(symbolTable) && symbolTable.chain == old(symbolTable.chain)
      ensures ok ==> Adds(old(Snap()), Snap(), OfOpt(s, old(Snap())))
    {
      ghost var a := Snap();
      ok := true;
      AddsNothing(a);
      if s.Some? { ok := CompileStmt(s.value); }
    }

    /** The continues patched to lead here, then the post statement and the jump back; without
        post statement, continues lead to the condition already. */
    method CompilePost(post: Option<Stmt>, conditionPos: nat, ghost pre: seq<Ins>, ghost c: seq<Ins>) returns (ok: bool)
      requires Inv() && loopContexts != [] && done == [] && list == pre + c && from == |pre|
      requires LoopOf(loopContexts) == InLoop(post.Some?, conditionPos) && Direct(LoopOf(loopContexts), c)
      modifies this, symbolTable.chain
      decreases post, 3
      ensures ok == OfOpt(post, old(Snap())).Gen?
      ensures ok ==> Inv() && symbolTable == old(symbolTable) && symbolTable.chain == old(symbolTable.chain)
      ensures ok ==> LoopBack(old(Snap()), pre, c, Snap(), OfOpt(post, old(Snap())),
        if post.Some? then |old(instructions)| else conditionPos, conditionPos, done)
    {
      ghost var a := Snap();
      ghost var cont := if post.Some? then |instructions| else conditionPos;
      assert list[..from] == pre && list[from..] == c;
      if post.Some? { PatchContinues(|instructions|); }
      else { assert FillKind(c, false, conditionPos) == c; }
      ghost var s4 := Snap();
      ok := CompileOpt(post);
      if !ok { return; }
      ghost var s5 := Snap();
      var _ := Emit(OP_JUMP, [conditionPos]);
      LoopBackAdds(a, pre, c, s4, s5, OfOpt(post, a), cont, conditionPos);
    }

    method CompileLoopHead(s: Stmt) returns (ok: bool, jumpNotTruthyPos: nat, ghost gc: Gen, ghost gb: Gen)
      requires Inv() && s.For?
      modifies this, symbolTable.chain
      decreases s, 0, 0
      ensures gc == OfE(s.test, old(Snap())) && (!ok ==> LoopGens(s, old(Snap())).None?)
      ensures ok ==> Inv() && symbolTable == old(symbolTable) && symbolTable.chain == old(symbolTable.chain)
      ensures ok ==> LoopHead(s, old(Snap()), Snap(), gc, gb) && jumpNotTruthyPos == Size(old(list) + gc.code)
    {
      ghost var a := Snap();
      ghost var s1;
      ok, jumpNotTruthyPos, s1 := CompileTest(s.test);
      ghost var s2 := Snap();
      gc, gb := OfE(s.test, a), OfBlock(s.body, s2);
      if ok { ok := CompileBlock(s.body); }
      if ok { LoopHeadAdds(s, a, s1, s2, Snap(), gc, gb); }
      else { LoopHeadBad(s, a, s1, s2); }
    }

    /** Condition, exit jump and body, then the continues patched, post statement, jump back. */
    method CompileLoop(s: Stmt, conditionPos: nat) returns (ok: bool, jumpNotTruthyPos: nat)
      requires Inv() && s.For? && loopContexts != [] && conditionPos == |instructions| && from == |list| && done == []
      requires LoopOf(loopContexts) == InLoop(s.post.Some?, conditionPos)
      modifies this, symbolTable.chain
      decreases s, 0, 1
      ensures ok == LoopGens(s, old(Snap())).Some?
      ensures ok ==> Inv() && symbolTable == old(symbolTable) && symbolTable.chain == old(symbolTable.chain)
      ensures ok ==> LoopDone(old(Snap()), Snap(), s.post.Some?, LoopGens(s, old(Snap())).value, done)
      ensures ok ==> jumpNotTruthyPos == Size(old(list) + OfE(s.test, old(Snap())).code)
    {
      hide Coded, SymbolTable.Valid;
      ghost var a := Snap();
      ghost var gc, gb;
      ok, jumpNotTruthyPos, gc, gb := CompileLoopHead(s);
      if !ok { return; }
      ghost var b := Snap();
      ghost var c, gp := gc.code + [OVER] + gb.code, OfOpt(s.post, b);
      ok := CompilePost(s.post, conditionPos, a.list, c);
      if ok { LoopInner(s, a, b, Snap(), LoopParts(gc, gb, gp)); }
    }

    method CompileFor(s: Stmt) returns (ok: bool)
      requires Inv() && s.For?
      modifies this, symbolTable.chain
      decreases s, 0, 3
      ensures ok == OfS(s, old(Snap())).Gen?
      ensures ok ==> Inv() && symbolTable == old(symbolTable) && symbolTable.chain == old(symbolTable.chain)
      ensures ok ==> Adds(old(Snap()), Snap(), OfS(s, old(Snap()))) && LastKnown()
    {
      hide Coded;
      ghost var a := Snap();
      PushBlockScope();
      ok := CompileOpt(s.first);
      if !ok {
        ForFirstBad(s, a);
        return;
      }
      ghost var s1 := Snap();
      ghost var s2, s6;
      ok, s2, s6 := CompileLooped(s);
      ForGen(s, a, s1, s2);
      if !ok { return; }
      EndFor(a, s1, s2, s6, s);
    }

    /** The null after the loop is popped at once. */
    method EndFor(ghost a: Snapshot, ghost s1: Snapshot, ghost s2: Snapshot, ghost s6: Snapshot, ghost s: Stmt)
      requires Inv() && |symbolTable.chain| > 1 && s.For? && LoopGens(s, s2).Some?
      requires var x := LoopGens(s, s2).value;
        && Adds(a.(ctx := Push(a.ctx)), s1, OfOpt(s.first, a.(ctx := Push(a.ctx))))
        && s2.list == s1.list && s2.size == s1.size && s2.consts == s1.consts
        && LoopDone(s2, s6, s.post.Some?, x, s6.done)
        && x.gp.ctx.scopes != [] && |s1.list| + |x.gc.code| < |s6.list| && Snap() == LoopClosed(s1, s6, x)
        && OfS(s, a) == JoinFor(a.size, s.post.Some?, OfOpt(s.first, a.(ctx := Push(a.ctx))), x.gc, x.gb, x.gp)
      modifies this
      ensures Inv() && LastKnown() && symbolTable == old(symbolTable.chain[1])
        && symbolTable.chain == old(symbolTable.chain[1..])
      ensures Adds(a, Snap(), OfS(s, a))
    {
      hide Coded, SymbolTable.Valid;
      PopBlockScope();
      AddsFor(a, s1, s2, s6, Snap(), s.post.Some?, OfOpt(s.first, a.(ctx := Push(a.ctx))), LoopGens(s, s2).value);
      EmitPlain(OP_NULL);
      EmitPlain(OP_POP);
    }

    /** The loop proper, from the condition to where it exits. */
    method CompileLooped(s: Stmt) returns (ok: bool, ghost s2: Snapshot, ghost s6: Snapshot)
      requires Inv() && s.For?
      modifies this, symbolTable.chain
      decreases s, 0, 2
      ensures s2 == old(Snap()).(from := |old(list)|, done := [], outer := old(loopContexts),
        lp := InLoop(s.post.Some?, |old(instructions)|))
      ensures ok == LoopGens(s, s2).Some?
      ensures ok ==> Inv() && symbolTable == old(symbolTable) && symbolTable.chain == old(symbolTable.chain)
      ensures ok ==> LoopDone(s2, s6, s.post.Some?, LoopGens(s, s2).value, s6.done)
      ensures ok ==> Snap() == LoopClosed(old(Snap()), s6, LoopGens(s, s2).value)
    {
      ghost var s1, loops := Snap(), loopContexts;
      var conditionPos := |instructions|;
      EnterLoop(conditionPos, s.post.Some?);
      s2 := Snap();
      var jumpNotTruthyPos;
      ok, jumpNotTruthyPos := CompileLoop(s, conditionPos);
      s6 := Snap();
      if !ok { return; }
      ghost var x := LoopGens(s, s2).value;
      LoopPlace(s2, s6, s.post.Some?, x, done);
      var escapePos := |instructions|;
      PatchHere(jumpNotTruthyPos, list[..|s2.list| + |x.gc.code|]);
      LeaveLoop(escapePos, s1.from, s1.done);
    }

    /** A condition and the jump taken when it is false, with a target still to be patched. */
    method CompileTest(e: Expr) returns (ok: bool, jumpPos: nat, ghost s1: Snapshot)
      requires Inv()
      modifies this, symbolTable.chain
      decreases e, 2
      ensures ok == OfE(e, old(Snap())).Gen?
      ensures ok ==> Inv() && symbolTable == old(symbolTable) && symbolTable.chain == old(symbolTable.chain)
      ensures ok ==>
        && Adds(old(Snap()), s1, OfE(e, old(Snap())))
        && Snap() == More(s1, Wide(OP_JUMP_NOT_TRUTHY, PLACEHOLDER)) && LastKnown()
      ensures ok ==> jumpPos == s1.size == Size(s1.list)
    {
      ok := CompileExpr(e);
      jumpPos, s1 := 0, Snap();
      if ok { jumpPos := Emit(OP_JUMP_NOT_TRUTHY, [PLACEHOLDER]); }
    }

    method CompileBranch(b: Block, unit: bool) returns (ok: bool, ghost s3: Snapshot)
      requires Inv() && LastKnown() && list[|list| - 1] != Plain(OP_POP)
      modifies this, symbolTable.chain
      decreases b, 4
      ensures ok == OfBlock(b, old(Snap())).Gen?
      ensures ok ==> Inv() && symbolTable == old(symbolTable) && symbolTable.chain == old(symbolTable.chain)
      ensures ok ==>
        && Adds(old(Snap()), s3, OfBlock(b, old(Snap())))
        && Snap() == BranchEnd(old(Snap()), s3, unit, OfBlock(b, old(Snap())))
    {
      hide SymbolTable.Valid;
      ghost var a := Snap();
      ok := CompileBlock(b);
      s3 := Snap();
      if ok { EndBranch(unit, a, OfBlock(b, a)); }
    }

    /** The alternative of an if-expression; without one, null is its value. */
    method CompileAlt(b: Option<Block>, unit: bool) returns (ok: bool, ghost s6: Snapshot)
      requires Inv() && LastKnown() && list[|list| - 1] != Plain(OP_POP)
      modifies this, symbolTable.chain
      decreases b, 5
      ensures ok == OfAlt(b, old(Snap())).Gen?
      ensures ok ==> Inv() && symbolTable == old(symbolTable) && symbolTable.chain == old(symbolTable.chain)
      ensures ok ==> Adds(old(Snap()), s6, OfAlt(b, old(Snap())))
      ensures ok ==> Snap() == if b.Some? then BranchEnd(old(Snap()), s6, unit, OfAlt(b, old(Snap()))) else s6
    {
      if b.None? {
        EmitPlain(OP_NULL);
        ok, s6 := true, Snap();
      } else {
        ok, s6 := CompileBranch(b.value, unit);
      }
    }

    /** The jump over the alternative; the jump over the consequence leads behind it. */
    method EmitOver(jumpNotTruthyPos: nat, ghost pre: seq<Ins>) returns (jumpPos: nat)
      requires Inv() && from <= |pre| < |list| && pre == list[..|pre|] && jumpNotTruthyPos == Size(pre)
      requires list[|pre|] == Wide(OP_JUMP_NOT_TRUTHY, PLACEHOLDER)
      modifies this
      ensures Inv() && LastKnown() && symbolTable == old(symbolTable) && list[|list| - 1] == Wide(OP_JUMP, PLACEHOLDER)
      ensures jumpPos == |old(instructions)| == Size(old(list))
      ensures Snap() == SetAt(More(old(Snap()), Wide(OP_JUMP, PLACEHOLDER)), |pre|,
        Wide(OP_JUMP_NOT_TRUTHY, |old(instructions)| + 3))
    {
      jumpPos := Emit(OP_JUMP, [PLACEHOLDER]);
      PatchHere(jumpNotTruthyPos, pre);
    }

    /** Condition and consequence. */
    method CompileThen(e: Expr)
      returns (ok: bool, jumpNotTruthyPos: nat, ghost s1: Snapshot, ghost s2: Snapshot, ghost s3: Snapshot)
      requires Inv() && e.If?
      modifies this, symbolTable.chain
      decreases e, 0, 0
      ensures !ok ==> OfIf(e, old(Snap())).Bad?
      ensures ok ==> Inv() && symbolTable == old(symbolTable) && symbolTable.chain == old(symbolTable.chain)
      ensures ok ==> IfThen(e, old(Snap()), s1, s2, s3, Snap()) && jumpNotTruthyPos == Size(s1.list)
    {
      ghost var a := Snap();
      s3 := a;
      ok, jumpNotTruthyPos, s1 := CompileTest(e.cond);
      s2 := Snap();
      if ok { ok, s3 := CompileBranch(e.cons, e.unit); }
      if !ok { IfHeadBad(e, a, s1, s2); }
    }

    method CompileIfHead(e: Expr)
      returns (ok: bool, jumpPos: nat, ghost s1: Snapshot, ghost s2: Snapshot, ghost s3: Snapshot, ghost s4: Snapshot)
      requires Inv() && e.If?
      modifies this, symbolTable.chain
      decreases e, 0, 1
      ensures !ok ==> OfIf(e, old(Snap())).Bad?
      ensures ok ==> Inv() && symbolTable == old(symbolTable) && symbolTable.chain == old(symbolTable.chain)
      ensures ok ==> LastKnown() && list[|list| - 1] == Wide(OP_JUMP, PLACEHOLDER)
      ensures ok ==> IfHead(e, old(Snap()), s1, s2, s3, s4, Snap()) && jumpPos == s4.size == Size(s4.list)
    {
      ghost var a := Snap();
      var jumpNotTruthyPos;
      ok, jumpNotTruthyPos, s1, s2, s3 := CompileThen(e);
      jumpPos, s4 := 0, Snap();
      if ok {
        TestPlace(e, a, s1, s2, s3, s4);
        jumpPos := EmitOver(jumpNotTruthyPos, s1.list);
      }
    }

    method CompileIf(e: Expr) returns (ok: bool)
      requires Inv() && e.If?
      modifies this, symbolTable.chain
      decreases e, 0, 2
      ensures ok == OfIf(e, old(Snap())).Gen?
      ensures ok ==> Inv() && symbolTable == old(symbolTable) && symbolTable.chain == old(symbolTable.chain)
      ensures ok ==> Adds(old(Snap()), Snap(), OfIf(e, old(Snap())))
    {
      hide SymbolTable.Valid;
      ghost var a := Snap();
      var jumpPos;
      ghost var s1, s2, s3, s4, s6;
      ok, jumpPos, s1, s2, s3, s4 := CompileIfHead(e);
      if !ok { return; }
      ghost var s5 := Snap();
      IfGen(e, a, s1, s2, s3, s4, s5);
      ok, s6 := CompileAlt(e.alt, e.unit);
      if !ok { return; }
      ghost var s7 := Snap();
      AddsIf(a, s1, s2, s3, s4, s5, s6, s7, e.unit, e.alt.Some?, OfE(e.cond, a), OfBlock(e.cons, s2), OfAlt(e.alt, s5));
      OverPlace(e, a, s1, s2, s3, s4, s5, s7, s7.list[|s5.list|..]);
      PatchHere(jumpPos, s7.list[..|s4.list|]);
    }
  }

  /** NewCompiler and Compile on a whole program: the bytes and constants are those of
      `GenProgram`, and there is an error exactly when the program is not compilable. */
  method CompileProgram(prog: Block) returns (ok: bool, bytes: seq<byte>, constants: seq<Value>)
    ensures ok == GenProgram(prog).Gen? && (ok <==> Compilable(prog))
    ensures ok ==> bytes == Encode(GenProgram(prog).code) && constants == GenProgram(prog).consts
  {
    FineExact(prog);
    var c := new Compiler();
    ok := c.CompileStmts(prog);
    bytes, constants := c.instructions, c.constants;
    if ok {
      var g := GenProgram(prog);
      assert [] + g.code == g.code && [] + g.consts == g.consts;
    }
  }
}
