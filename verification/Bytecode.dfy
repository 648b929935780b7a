/** Opcodes, instruction encoding and decoding (code/code.go). */
module Bytecode {
  import opened Language

  type byte = n: int | 0 <= n < 256

  const OP_CONSTANT: byte := 0
  const OP_POP: byte := 1
  const OP_ADD: byte := 2
  const OP_SUB: byte := 3
  const OP_MUL: byte := 4
  const OP_DIV: byte := 5
  const OP_TRUE: byte := 6
  const OP_FALSE: byte := 7
  const OP_EQUAL: byte := 8
  const OP_NOT_EQUAL: byte := 9
  const OP_GT: byte := 10
  const OP_GTE: byte := 11
  const OP_AND: byte := 12
  const OP_OR: byte := 13
  const OP_MINUS: byte := 14
  const OP_BANG: byte := 15
  const OP_JUMP_NOT_TRUTHY: byte := 16
  const OP_JUMP: byte := 17
  const OP_NULL: byte := 18
  const OP_SET_MUTABLE_GLOBAL: byte := 19
  const OP_SET_IMMUTABLE_GLOBAL: byte := 20
  const OP_GET_GLOBAL: byte := 21
  const OP_CALL: byte := 25
  const OP_RETURN_VALUE: byte := 26
  const OP_SET_IMMUTABLE_LOCAL: byte := 28
  const OP_SET_MUTABLE_LOCAL: byte := 29
  const OP_GET_LOCAL: byte := 30
  const OP_CLOSURE: byte := 32
  const OP_GET_FREE: byte := 33
  const OP_CURRENT_CLOSURE: byte := 34
  const OP_MODULO: byte := 43

  /** The operand the compiler emits for a jump whose target is not known yet. */
  const PLACEHOLDER: nat := 9999

  /** Operand widths of every defined opcode. */
  function OperandWidths(op: int): Option<seq<nat>>
  {
    if op in {0, 16, 17, 19, 20, 21, 22, 23, 39, 49} then Some([2])
    else if op in {25, 28, 29, 30, 31, 33, 37, 38, 45} then Some([1])
    else if op in {32, 36, 40} then Some([2, 1])
    else if 0 <= op <= 50 then Some([])
    else None
  }

  function SumWidths(ws: seq<nat>): nat
  {
    if ws == [] then 0 else ws[0] + SumWidths(ws[1..])
  }

  /** One operand written big-endian; `byte(o)` and `uint16(o)` drop the high bits. */
  function OperandBytes(width: nat, o: int): seq<byte>
    requires width == 1 || width == 2
  {
    if width == 1 then [o % 256] else [(o / 256) % 256, o % 256]
  }

  function OperandsBytes(ws: seq<nat>, os: seq<int>): (r: seq<byte>)
    requires |ws| == |os| && forall i :: 0 <= i < |ws| ==> ws[i] == 1 || ws[i] == 2
    ensures |r| == SumWidths(ws)
  {
    if ws == [] then [] else OperandBytes(ws[0], os[0]) + OperandsBytes(ws[1..], os[1..])
  }

  function ReadUint16(s: seq<byte>): nat
    requires |s| >= 2
  {
    var hi: int := s[0];
    hi * 256 + s[1]
  }

  function ReadOperands(ws: seq<nat>, s: seq<byte>): seq<nat>
    requires |s| >= SumWidths(ws) && forall i :: 0 <= i < |ws| ==> ws[i] == 1 || ws[i] == 2
  {
    if ws == [] then []
    else [ReadOne(ws[0], s)] + ReadOperands(ws[1..], s[ws[0]..])
  }

  function ReadOne(width: nat, s: seq<byte>): nat
    requires (width == 1 || width == 2) && |s| >= width
  {
    if width == 1 then s[0] else ReadUint16(s)
  }

  predicate OperandFits(width: nat, o: int) { 0 <= o < (if width == 1 then 256 else 65536) }

  predicate OperandsFit(ws: seq<nat>, os: seq<int>)
  {
    |ws| == |os| && forall i :: 0 <= i < |ws| ==> OperandFits(ws[i], os[i])
  }

  lemma ReadOneBack(width: nat, o: int, rest: seq<byte>)
    requires width == 1 || width == 2
    ensures ReadOne(width, OperandBytes(width, o) + rest) == o <==> OperandFits(width, o)
  {
    var s := OperandBytes(width, o) + rest;
    assert s[0] == OperandBytes(width, o)[0];
    if width == 2 { assert s[1] == OperandBytes(width, o)[1]; }
  }

  /** The high byte comes first; what does not fit is dropped from above. */
  lemma BigEndian(k: int, hi: byte, lo: byte)
    ensures OperandBytes(2, 65536 * k + 256 * hi + lo) == [hi, lo] && OperandBytes(1, 256 * k + lo) == [lo]
    ensures ReadUint16([hi, lo]) == 256 * hi + lo
  {
    var o := 65536 * k + 256 * hi + lo;
    var q := 256 * k + hi;
    assert o == 256 * q + lo && o / 256 == q && o % 256 == lo;
    assert q % 256 == hi;
  }

  /** Reading back what was written gives the operands, whatever bytes follow, exactly when
      every operand fits its width. */
  lemma {:induction false} ReadBack(ws: seq<nat>, os: seq<int>, rest: seq<byte>)
    requires |ws| == |os| && forall i :: 0 <= i < |ws| ==> ws[i] == 1 || ws[i] == 2
    ensures ReadOperands(ws, OperandsBytes(ws, os) + rest) == os <==> OperandsFit(ws, os)
  {
    hide OperandWidths, ReadUint16, OperandFits;
    if ws != [] {
      var tail := OperandsBytes(ws[1..], os[1..]);
      var s := OperandsBytes(ws, os) + rest;
      assert s == OperandBytes(ws[0], os[0]) + (tail + rest);
      assert s[ws[0]..] == tail + rest;
      ReadBack(ws[1..], os[1..], rest);
      ReadOneBack(ws[0], os[0], tail + rest);
      ConsEqual(ReadOne(ws[0], s), ReadOperands(ws[1..], tail + rest), os);
      FitsCons(ws, os);
    }
  }

  lemma ConsEqual(h: int, t: seq<int>, s: seq<int>)
    requires s != []
    ensures [h] + t == s <==> h == s[0] && t == s[1..]
  {
    assert s == [s[0]] + s[1..];
    if [h] + t == s { assert ([h] + t)[1..] == t; }
  }

  lemma FitsCons(ws: seq<nat>, os: seq<int>)
    requires |ws| == |os| > 0
    ensures OperandsFit(ws, os) <==> OperandFits(ws[0], os[0]) && OperandsFit(ws[1..], os[1..])
  {
    if OperandFits(ws[0], os[0]) && OperandsFit(ws[1..], os[1..]) {
      forall i | 0 <= i < |ws| ensures OperandFits(ws[i], os[i]) {
        if i > 0 { assert OperandFits(ws[1..][i - 1], os[1..][i - 1]); }
      }
    }
  }

  /** Operands that are not given are zero. */
  function Padded(os: seq<int>, n: nat): (r: seq<int>)
    ensures |os| <= n ==> |r| == n
    ensures |os| == n ==> r == os
  {
    if |os| < n then os + seq(n - |os|, _ => 0) else os
  }

  function Zeros(n: nat): seq<byte> { seq(n, _ => 0) }

  lemma {:induction false} ZeroOperands(ws: seq<nat>, os: seq<int>)
    requires |ws| == |os| && (forall i :: 0 <= i < |ws| ==> ws[i] == 1 || ws[i] == 2)
      && forall i :: 0 <= i < |os| ==> os[i] == 0
    ensures OperandsBytes(ws, os) == Zeros(SumWidths(ws))
    decreases |ws|
  {
    if ws != [] {
      ZeroOperands(ws[1..], os[1..]);
      assert OperandBytes(ws[0], os[0]) == Zeros(ws[0]);
    }
  }

  /** `Make`: allocate the instruction and fill in the operands left to right. */
  method Make(op: byte, operands: seq<int>) returns (r: seq<byte>)
    requires OperandWidths(op).Some? ==> |operands| <= |OperandWidths(op).value|
    ensures OperandWidths(op).None? ==> r == []
    ensures OperandWidths(op).Some? ==>
      r == [op] + OperandsBytes(OperandWidths(op).value, Padded(operands, |OperandWidths(op).value|))
  {
    var def := OperandWidths(op);
    if def.None? { return []; }
    var ws := def.value;
    var length := 1;
    for i := 0 to |ws|
      invariant length == 1 + SumWidths(ws) - SumWidths(ws[i..])
    {
      length := length + ws[i];
    }
    assert ws[|ws|..] == [];
    var ins := new byte[length](_ => 0);
    ins[0] := op;
    ghost var all := Padded(operands, |ws|);
    var offset := 1;
    for i := 0 to |operands|
      invariant offset == length - SumWidths(ws[i..])
      invariant 1 <= offset <= length && forall k :: offset <= k < length ==> ins[k] == 0
      invariant ins[..offset] + OperandsBytes(ws[i..], all[i..]) == [op] + OperandsBytes(ws, all)
    {
      ghost var done := ins[..offset];
      if ws[i] == 1 {
        ins[offset] := operands[i] % 256;
      } else {
        ins[offset] := (operands[i] / 256) % 256;
        ins[offset + 1] := operands[i] % 256;
      }
      assert ws[i..][1..] == ws[i + 1..] && all[i..][1..] == all[i + 1..];
      assert ins[..offset + ws[i]] == done + OperandBytes(ws[i], operands[i]);
      offset := offset + ws[i];
    }
    ZeroOperands(ws[|operands|..], all[|operands|..]);
    r := ins[..];
    assert ins[offset..] == Zeros(length - offset);
    assert r == ins[..offset] + ins[offset..];
  }

  // ---------- instructions with symbolic loop exits ----------

  /** A decoded instruction. The two holes are the jumps of break and continue, whose
      targets the enclosing loop fills in. */
  datatype Ins =
    | Plain(op: byte)
    | Short(op: byte, n: nat)
    | Wide(op: byte, n: nat)
    | BreakHole
    | ContinueHole

  function SizeOf(i: Ins): nat
  {
    match i
    case Plain(_) => 1
    case Short(_, _) => 2
    case _ => 3
  }

  function Size(c: seq<Ins>): nat
  {
    if c == [] then 0 else SizeOf(c[0]) + Size(c[1..])
  }

  function Fill1(i: Ins, brk: nat, cont: nat): Ins
  {
    match i
    case BreakHole => Wide(OP_JUMP, brk)
    case ContinueHole => Wide(OP_JUMP, cont)
    case _ => i
  }

  function Fill(c: seq<Ins>, brk: nat, cont: nat): (r: seq<Ins>)
    ensures |r| == |c|
  {
    if c == [] then [] else [Fill1(c[0], brk, cont)] + Fill(c[1..], brk, cont)
  }

  function Encode1(i: Ins): (r: seq<byte>)
    ensures |r| == SizeOf(i)
  {
    match i
    case Plain(op) => [op]
    case Short(op, n) => [op] + OperandsBytes([1], [n])
    case Wide(op, n) => [op] + OperandsBytes([2], [n])
    case BreakHole => [OP_JUMP] + OperandsBytes([2], [PLACEHOLDER])
    case ContinueHole => [OP_JUMP] + OperandsBytes([2], [PLACEHOLDER])
  }

  function Encode(c: seq<Ins>): (r: seq<byte>)
    ensures |r| == Size(c)
  {
    if c == [] then [] else Encode1(c[0]) + Encode(c[1..])
  }

  lemma {:induction false} SizeAppend(a: seq<Ins>, b: seq<Ins>)
    ensures Size(a + b) == Size(a) + Size(b)
  {
    if a == [] { assert a + b == b; }
    else { assert (a + b)[1..] == a[1..] + b; SizeAppend(a[1..], b); }
  }

  lemma {:induction false} EncodeAppend(a: seq<Ins>, b: seq<Ins>)
    ensures Encode(a + b) == Encode(a) + Encode(b)
  {
    if a == [] { assert a + b == b; }
    else { assert (a + b)[1..] == a[1..] + b; EncodeAppend(a[1..], b); }
  }

  lemma {:induction false} FillAppend(a: seq<Ins>, b: seq<Ins>, brk: nat, cont: nat)
    ensures Fill(a + b, brk, cont) == Fill(a, brk, cont) + Fill(b, brk, cont)
  {
    if a == [] { assert a + b == b; }
    else { assert (a + b)[1..] == a[1..] + b; FillAppend(a[1..], b, brk, cont); }
  }

  lemma {:induction false} FillSize(a: seq<Ins>, brk: nat, cont: nat)
    ensures Size(Fill(a, brk, cont)) == Size(a)
  {
    if a != [] { FillSize(a[1..], brk, cont); assert Fill(a, brk, cont)[1..] == Fill(a[1..], brk, cont); }
  }

  predicate NoHoles(c: seq<Ins>)
  {
    forall i :: 0 <= i < |c| ==> !c[i].BreakHole? && !c[i].ContinueHole?
  }

  lemma {:induction false} FillNoHoles(a: seq<Ins>, brk: nat, cont: nat)
    ensures NoHoles(Fill(a, brk, cont))
    ensures NoHoles(a) ==> Fill(a, brk, cont) == a
  {
    if a != [] {
      FillNoHoles(a[1..], brk, cont);
      assert a == [a[0]] + a[1..];
      if NoHoles(a) { assert NoHoles(a[1..]); }
    }
  }

  // ---------- decoding ----------

  /** Fetch and decode the instruction at byte `p`. */
  function Decode(code: seq<byte>, p: nat): Option<Ins>
  {
    if p >= |code| then None else
    var op := code[p];
    match OperandWidths(op)
    case None => None
    case Some(ws) =>
      if ws == [] then Some(Plain(op))
      else if ws == [1] && p + 2 <= |code| then Some(Short(op, code[p + 1]))
      else if ws == [2] && p + 3 <= |code| then Some(Wide(op, ReadUint16(code[p + 1..])))
      else None
  }

  /** The opcode has this operand shape and the operand fits its width. */
  predicate Fits(i: Ins)
  {
    match i
    case Plain(op) => OperandWidths(op) == Some([])
    case Short(op, n) => OperandWidths(op) == Some([1]) && n < 256
    case Wide(op, n) => OperandWidths(op) == Some([2]) && n < 65536
    case _ => false
  }

  predicate AllFit(c: seq<Ins>) { forall i :: 0 <= i < |c| ==> Fits(c[i]) }

  /** Decoding of given bytes, as a value. */
  function Decoder(code: seq<byte>): nat -> Option<Ins> { (p: nat) => Decode(code, p) }

  /** From byte `p` on, `dec` finds the instructions `c`. */
  predicate CodeAt(dec: nat -> Option<Ins>, p: nat, c: seq<Ins>)
    decreases |c|
  {
    c == [] || (dec(p) == Some(c[0]) && CodeAt(dec, p + SizeOf(c[0]), c[1..]))
  }

  lemma DecodeEncoded(pre: seq<byte>, i: Ins, post: seq<byte>)
    requires Fits(i)
    ensures Decode(pre + Encode1(i) + post, |pre|) == Some(i)
  {
    var code := pre + Encode1(i) + post;
    assert code[|pre|] == Encode1(i)[0];
    match i
    case Plain(op) =>
    case Short(op, n) =>
      assert OperandsBytes([1], [n]) == [n % 256];
      assert code[|pre| + 1] == Encode1(i)[1];
    case Wide(op, n) =>
      assert OperandsBytes([2], [n]) == [(n / 256) % 256, n % 256];
      assert code[|pre| + 1] == Encode1(i)[1] && code[|pre| + 2] == Encode1(i)[2];
      assert code[|pre| + 1..][0] == (n / 256) % 256 && code[|pre| + 1..][1] == n % 256;
  }

  /** Encoding is undone by decoding, instruction by instruction, at any place. */
  lemma {:induction false} EncodeDecode(pre: seq<byte>, c: seq<Ins>, post: seq<byte>)
    requires AllFit(c)
    ensures CodeAt(Decoder(pre + Encode(c) + post), |pre|, c)
    decreases |c|
  {
    if c != [] {
      var rest := Encode(c[1..]) + post;
      assert pre + Encode(c) + post == pre + Encode1(c[0]) + rest;
      DecodeEncoded(pre, c[0], rest);
      assert pre + Encode(c) + post == (pre + Encode1(c[0])) + Encode(c[1..]) + post;
      EncodeDecode(pre + Encode1(c[0]), c[1..], post);
    }
  }

  lemma {:induction false} CodeAtSplit(dec: nat -> Option<Ins>, p: nat, a: seq<Ins>, b: seq<Ins>)
    ensures CodeAt(dec, p, a + b) <==> CodeAt(dec, p, a) && CodeAt(dec, p + Size(a), b)
    decreases |a|
  {
    if a == [] { assert a + b == b; }
    else {
      assert (a + b)[0] == a[0] && (a + b)[1..] == a[1..] + b;
      CodeAtSplit(dec, p + SizeOf(a[0]), a[1..], b);
    }
  }

  /** The instruction sequence found at a place is unique, up to where one of them stops. */
  lemma {:induction false} CodeAtUnique(dec: nat -> Option<Ins>, p: nat, a: seq<Ins>, b: seq<Ins>)
    requires CodeAt(dec, p, a) && CodeAt(dec, p, b) && |a| <= |b|
    ensures a <= b
    decreases |a|
  {
    if a != [] {
      CodeAtUnique(dec, p + SizeOf(a[0]), a[1..], b[1..]);
      assert a == [a[0]] + a[1..] && b == [b[0]] + b[1..];
    }
  }
}
