/** The body of a function: its variables are stack cells from the base pointer on. */
module FunctionFrames {
  import opened Language
  import opened Typing
  import opened Bytecode
  import opened Codegen
  import opened Scoping
  import opened Machine
  import opened FrameView
  import opened Placement
  import opened Emission
  import opened Simulation
  import opened Preservation

  /** The frame of a call whose arguments lie on top of `base` values. */
  function BodyFrame(g: Gen, base: nat): Frame
    requires g.Gen?
  {
    Frame(Encode(g.code), g.consts, base)
  }

  /** Jump targets, constant indices and slots fit the encoding; variables fit the frame, and
      frame and operands the stack. */
  ghost predicate BodyFits(b: Block, c: Ctx, base: nat, room: nat)
  {
    var g := GenStmts(b, c, 0, 0, NoLoop);
    && g.Gen? && AllFit(Fill(g.code, PLACEHOLDER, PLACEHOLDER)) && g.ctx.next <= room
    && base + room + DepthB(b) <= STACK_SIZE
  }

  /** How a run of `n` steps to `st` mirrors the outcome `o` of the body. */
  ghost predicate BodyAgrees(step: State -> Outcome<State>, sc: Scopes, o: Out, fuel: nat, n: nat, st: State,
          below: seq<Value>, room: nat, globals: seq<Value>)
  {
    match o
    case Val(_, s) =>
      && step(st).Halt? && |st.stack| == |below| + room && st.stack[..|below|] == below
      && st.globals == globals && Rel(sc, s, st.stack[|below|..])
    case Fail => step(st).Fault?
    case Timeout => n >= fuel
    case Stuck => true
    case _ => false
  }

  lemma BodyPlaced(b: Block, c: Ctx, base: nat, room: nat, m: Setup) returns (q: Place)
    requires CtxOk(c) && c.scopes != [] && !c.global && ShapedB(b) && BodyFits(b, c, base, room)
    requires m == Running(BodyFrame(GenStmts(b, c, 0, 0, NoLoop), base), false, room)
    ensures PlacedStmts(m, b, Place(c, 0, 0, 0, Target(PLACEHOLDER, PLACEHOLDER)), q, false)
    ensures Drives(m) && q.pos == |m.f.code| && q.c == GenStmts(b, c, 0, 0, NoLoop).ctx && q.h == 0
  {
    hide GenE, GenStmts, GenS, GenIf, GenFor, GenBlock, JoinIf, JoinFor, Size, Fill, Encode, CodeAt, DepthB,
      PlacedStmts;
    var g := GenStmts(b, c, 0, 0, NoLoop);
    var p := Place(c, 0, 0, 0, Target(PLACEHOLDER, PLACEHOLDER));
    RunningDrives(m.f, false, room);
    var filled := Fill(g.code, PLACEHOLDER, PLACEHOLDER);
    EncodeFilled(g.code);
    EncodeDecode([], filled, []);
    assert [] + Encode(filled) + [] == m.f.code;
    assert FilledAt(m, 0, g.code, PLACEHOLDER, PLACEHOLDER);
    assert g.consts[0..|g.consts|] == g.consts;
    SizedStmts(b, c, 0, 0, NoLoop);
    q := AfterB(p, g, false);
    PlaceStmts(m, b, p, NoLoop, false);
  }

  /** Every run of every body, wherever its frame lies: at the end the frame's cells hold the
      final store, and what lies below and the globals are as before. */
  lemma BodyPreserved(b: Block, c: Ctx, s: Store, below: seq<Value>, slots: seq<Value>, globals: seq<Value>, fuel: nat)
    returns (n: nat, st: State)
    requires CtxOk(c) && c.scopes != [] && !c.global && ShapedB(b) && Rel(c.scopes, s, slots)
      && BodyFits(b, c, |below|, |slots|)
    ensures var g := GenStmts(b, c, 0, 0, NoLoop); var step := Stepper(BodyFrame(g, |below|));
      && Reaches(step, State(0, below + slots, globals), n, st)
      && BodyAgrees(step, g.ctx.scopes, ExecStmts(b, s, fuel), fuel, n, st, below, |slots|, globals)
  {
    hide GenStmts, ExecStmts, PlacedStmts, Encode, DepthB;
    var f := BodyFrame(GenStmts(b, c, 0, 0, NoLoop), |below|);
    var m := Running(f, false, |slots|);
    var q := BodyPlaced(b, c, |below|, |slots|, m);
    var p := Place(c, 0, 0, 0, Target(PLACEHOLDER, PLACEHOLDER));
    var w := View(slots, []);
    var d;
    n, d := SimStmts(m, b, p, q, s, fuel, w, false);
    ClosedB(b, c, 0, 0);
    ContainedB(b, s, fuel);
    assert below + slots + [] == below + slots;
    st := FollowsRun(m, State(0, below + slots, globals), Config(0, w), (below, globals), n, d);
    if ExecStmts(b, s, fuel).Val? { assert st.stack == below + d.w.slots; }
  }

  // ---------- parameters ----------

  /** The table of a function once its parameters are defined. */
  function DefineAll(c: Ctx, params: seq<string>): (r: Ctx)
    requires c.scopes != []
    ensures r.scopes != [] && r.global == c.global && r.next == c.next + |params|
    decreases |params|
  {
    if params == [] then c else DefineAll(Define(c, params[0], false), params[1..])
  }

  /** The arguments by name; of two parameters with one name the later one counts. */
  function Arguments(m: map<string, Value>, params: seq<string>, args: seq<Value>): map<string, Value>
    requires |params| == |args|
    decreases |params|
  {
    if params == [] then m else Arguments(m[params[0] := args[0]], params[1..], args[1..])
  }

  lemma {:induction false} ParamsHeld(c: Ctx, m: map<string, Value>, params: seq<string>, args: seq<Value>,
          slots: seq<Value>)
    requires CtxOk(c) && |c.scopes| == 1 && Rel(c.scopes, [m], slots) && |params| == |args|
    requires c.next + |params| <= |slots| && slots[c.next..c.next + |params|] == args
    ensures var d := DefineAll(c, params); CtxOk(d) && Rel(d.scopes, [Arguments(m, params, args)], slots)
    decreases |params|
  {
    if params != [] {
      assert slots[c.next] == args[0] && slots[c.next := args[0]] == slots;
      CtxDefine(c, params[0], false);
      RelDeclare(c, [m], slots, params[0], args[0], false);
      var d := Define(c, params[0], false);
      assert slots[d.next..d.next + |params| - 1] == args[1..];
      ParamsHeld(d, m[params[0] := args[0]], params[1..], args[1..], slots);
    }
  }

  const OUTSIDE: Ctx := Ctx([map[]], 0, false)

  /** The context in which the body of a function is compiled, and the store it starts with. */
  function BodyCtx(params: seq<string>): Ctx { Push(DefineAll(OUTSIDE, params)) }

  function BodyStore(params: seq<string>, args: seq<Value>): Store
    requires |params| == |args|
  {
    [map[], Arguments(map[], params, args)]
  }

  /** A call: the arguments are the first cells of the frame, `rest` whatever lay in the others. */
  lemma FunctionPreserved(params: seq<string>, args: seq<Value>, b: Block, below: seq<Value>, rest: seq<Value>,
          globals: seq<Value>, fuel: nat)
    returns (n: nat, st: State)
    requires |params| == |args| && ShapedB(b) && BodyFits(b, BodyCtx(params), |below|, |args + rest|)
    ensures var g := GenStmts(b, BodyCtx(params), 0, 0, NoLoop); var step := Stepper(BodyFrame(g, |below|));
      && Reaches(step, State(0, below + (args + rest), globals), n, st)
      && BodyAgrees(step, g.ctx.scopes, ExecStmts(b, BodyStore(params, args), fuel), fuel, n, st, below, |args + rest|,
        globals)
  {
    hide GenStmts, ExecStmts, BodyAgrees, Encode, Arguments, DefineAll;
    var slots, c := args + rest, DefineAll(OUTSIDE, params);
    assert slots[0..|params|] == args;
    assert CtxOk(OUTSIDE) && Rel(OUTSIDE.scopes, [map[]], slots);
    ParamsHeld(OUTSIDE, map[], params, args, slots);
    CtxPush(c);
    assert Rel(BodyCtx(params).scopes, BodyStore(params, args), slots);
    n, st := BodyPreserved(b, BodyCtx(params), BodyStore(params, args), below, slots, globals, fuel);
  }
}
