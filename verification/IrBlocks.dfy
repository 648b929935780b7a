/** Lines of LLVM IR as far as basic blocks are concerned, and what makes them well formed. */
module IrBlocks {
  import opened Language

  /** An instruction that does not end a block: one of an expression's own, or one of those the
      emitter adds for its constructs. */
  datatype Instr =
    | Own(id: nat)
    | Panics
    | LastError
    | Tag
    | Bind
    | Store
    | Fetch
    | Setup
    | Test
    | Advance

  datatype Line =
    | Inst(i: Instr)
    | Ret
    | Unreachable
    | Jmp(target: nat)
    | Br(yes: nat, no: nat)
    | Label(name: nat)

  predicate Terminator(l: Line) { l.Ret? || l.Unreachable? || l.Jmp? || l.Br? }

  /** Read lines in a block that is still open, or `closed` by a terminator: an instruction or
      terminator needs an open block, a label a closed one. */
  function Scan(closed: bool, code: seq<Line>): Option<bool>
    decreases |code|
  {
    if code == [] then Some(closed)
    else if code[0].Label? then if closed then Scan(false, code[1..]) else None
    else if closed then None
    else Scan(Terminator(code[0]), code[1..])
  }

  function LabelsOf(code: seq<Line>): set<nat> { set l | l in code && l.Label? :: l.name }

  function TargetsOf(code: seq<Line>): set<nat>
  {
    (set l | l in code && l.Jmp? :: l.target) + (set l | l in code && l.Br? :: l.yes)
      + (set l | l in code && l.Br? :: l.no)
  }

  ghost predicate Once(code: seq<Line>)
  {
    forall i, j :: 0 <= i < j < |code| && code[i].Label? ==> code[i] != code[j]
  }

  /** The code leads from an open or closed block to an open or closed one, defines labels of
      `names`, each once, and refers to its own labels and to `outer` ones. */
  ghost predicate Emits(code: seq<Line>, before: bool, after: bool, names: set<nat>, outer: set<nat>)
  {
    Scan(before, code) == Some(after) && LabelsOf(code) <= names && Once(code)
      && TargetsOf(code) <= LabelsOf(code) + outer
  }

  /** The block before line `i` is closed. */
  predicate ClosedBefore(closed: bool, code: seq<Line>, i: nat)
    requires i < |code|
  {
    if i == 0 then closed else Terminator(code[i - 1])
  }

  /** A label stands exactly after each terminator (and at the beginning, if the block before is
      closed); the last line is a terminator. */
  predicate Terminated(closed: bool, code: seq<Line>)
  {
    && (forall i :: 0 <= i < |code| ==> (code[i].Label? <==> ClosedBefore(closed, code, i)))
    && if code == [] then closed else Terminator(code[|code| - 1])
  }

  lemma {:induction false} ScanExact(closed: bool, code: seq<Line>)
    ensures Scan(closed, code) == Some(true) <==> Terminated(closed, code)
    decreases |code|
  {
    if code != [] {
      var rest, c := code[1..], Terminator(code[0]);
      ScanExact(c, rest);
      assert rest != [] ==> rest[|rest| - 1] == code[|code| - 1];
      assert ClosedBefore(closed, code, 0) == closed;
      forall i | 0 <= i < |rest|
        ensures rest[i] == code[i + 1] && ClosedBefore(c, rest, i) == ClosedBefore(closed, code, i + 1)
      { }
      if (code[0].Label? <==> closed) && Terminated(c, rest) {
        forall i | 0 <= i < |code| ensures code[i].Label? <==> ClosedBefore(closed, code, i) {
          if i > 0 {
            assert code[i] == rest[i - 1];
            assert ClosedBefore(c, rest, i - 1) == ClosedBefore(closed, code, i - 1 + 1);
          }
        }
      }
    }
  }

  lemma {:induction false} ScanAppend(closed: bool, a: seq<Line>, b: seq<Line>)
    requires Scan(closed, a).Some?
    ensures Scan(closed, a + b) == Scan(Scan(closed, a).value, b)
    decreases |a|
  {
    if a == [] {
      assert a + b == b;
    } else {
      assert (a + b)[0] == a[0] && (a + b)[1..] == a[1..] + b;
      if a[0].Label? { ScanAppend(false, a[1..], b); } else { ScanAppend(Terminator(a[0]), a[1..], b); }
    }
  }

  lemma LabelsAppend(a: seq<Line>, b: seq<Line>)
    ensures LabelsOf(a + b) == LabelsOf(a) + LabelsOf(b) && TargetsOf(a + b) == TargetsOf(a) + TargetsOf(b)
  {
    assert forall l :: l in a + b <==> l in a || l in b;
  }

  lemma OnceAppend(a: seq<Line>, b: seq<Line>)
    requires Once(a) && Once(b) && LabelsOf(a) !! LabelsOf(b)
    ensures Once(a + b)
  {
    forall i, j | 0 <= i < j < |a + b| && (a + b)[i].Label? ensures (a + b)[i] != (a + b)[j] {
      if i < |a| && j >= |a| {
        assert (a + b)[i] in a && (a + b)[j] in b;
        if (a + b)[j].Label? { assert (a + b)[i].name in LabelsOf(a) && (a + b)[j].name in LabelsOf(b); }
      }
    }
  }

  lemma Joined(a: seq<Line>, b: seq<Line>, s0: bool, s1: bool, s2: bool, d1: set<nat>, d2: set<nat>, o1: set<nat>,
          o2: set<nat>, d: set<nat>, o: set<nat>)
    requires Emits(a, s0, s1, d1, o1) && Emits(b, s1, s2, d2, o2) && d1 !! d2 && d1 + d2 <= d && o1 + o2 <= o
    ensures Emits(a + b, s0, s2, d, o)
  {
    hide Scan, LabelsOf, TargetsOf, Once;
    ScanAppend(s0, a, b);
    LabelsAppend(a, b);
    OnceAppend(a, b);
  }

  lemma None0(s: bool, d: set<nat>, o: set<nat>)
    ensures Emits([], s, s, d, o)
  {
  }

  lemma One(l: Line, d: set<nat>, o: set<nat>)
    requires !l.Label? && TargetsOf([l]) <= o
    ensures Emits([l], false, Terminator(l), d, o)
  {
    assert [l][1..] == [];
    assert LabelsOf([l]) == {};
  }

  lemma OneLabel(n: nat, d: set<nat>, o: set<nat>)
    requires n in d
    ensures Emits([Label(n)], true, false, d, o) && LabelsOf([Label(n)]) == {n}
  {
    var code := [Label(n)];
    assert code[1..] == [];
    assert Label(n) in code;
    assert TargetsOf(code) == {};
  }

  /** The labels `a`, ..., `b - 1`. */
  function Range(a: nat, b: nat): (r: set<nat>)
    ensures forall n :: n in r <==> a <= n < b
    decreases b
  {
    if b <= a then {} else Range(a, b - 1) + {b - 1}
  }
}
