/** Patching jump operands in place, and the places where loop exits wait for it. */
module Patching {
  import opened Language
  import opened Bytecode
  import opened Codegen
  import opened Scoping

  predicate IsHole(i: Ins, brk: bool) { if brk then i.BreakHole? else i.ContinueHole? }

  /** Byte positions of the break (or continue) jumps of code that starts at `base`. */
  function HolePos(c: seq<Ins>, brk: bool, base: nat): seq<nat>
    decreases |c|
  {
    if c == [] then []
    else (if IsHole(c[0], brk) then [base] else []) + HolePos(c[1..], brk, base + SizeOf(c[0]))
  }

  function FillKind1(i: Ins, brk: bool, t: nat): Ins { if IsHole(i, brk) then Wide(OP_JUMP, t) else i }

  function FillKind(c: seq<Ins>, brk: bool, t: nat): (r: seq<Ins>)
    ensures |r| == |c| && forall i :: 0 <= i < |c| ==> r[i] == FillKind1(c[i], brk, t)
  {
    seq(|c|, i requires 0 <= i < |c| => FillKind1(c[i], brk, t))
  }

  lemma {:induction false} FillNth(c: seq<Ins>, brk: nat, cont: nat, i: nat)
    requires i < |c|
    ensures Fill(c, brk, cont)[i] == Fill1(c[i], brk, cont)
  {
    if i > 0 { FillNth(c[1..], brk, cont, i - 1); }
  }

  lemma FillByKind(c: seq<Ins>, brk: nat, cont: nat)
    ensures Fill(c, brk, cont) == FillKind(FillKind(c, false, cont), true, brk)
  {
    forall i | 0 <= i < |c| ensures Fill(c, brk, cont)[i] == FillKind(FillKind(c, false, cont), true, brk)[i] {
      FillNth(c, brk, cont, i);
    }
  }

  lemma {:induction false} HolesAppend(a: seq<Ins>, b: seq<Ins>, brk: bool, base: nat, p1: nat)
    requires p1 == base + Size(a)
    ensures HolePos(a + b, brk, base) == HolePos(a, brk, base) + HolePos(b, brk, p1)
    decreases |a|
  {
    if a == [] { assert a + b == b; }
    else {
      assert (a + b)[0] == a[0] && (a + b)[1..] == a[1..] + b;
      HolesAppend(a[1..], b, brk, base + SizeOf(a[0]), p1);
    }
  }

  lemma {:induction false} NoHolePos(c: seq<Ins>, brk: bool, base: nat)
    ensures HolePos(c, brk, base) == [] <==> forall i :: 0 <= i < |c| ==> !IsHole(c[i], brk)
    decreases |c|
  {
    if c != [] {
      NoHolePos(c[1..], brk, base + SizeOf(c[0]));
      if HolePos(c, brk, base) == [] {
        forall i | 0 <= i < |c| ensures !IsHole(c[i], brk) {
          if i > 0 { assert c[i] == c[1..][i - 1]; }
        }
      }
    }
  }

  // ---------- patching bytes ----------

  function Patch1(bytes: seq<byte>, pos: nat, t: nat): (r: seq<byte>)
    requires pos + 3 <= |bytes|
    ensures |r| == |bytes|
  {
    bytes[pos + 1 := (t / 256) % 256][pos + 2 := t % 256]
  }

  /** Patching a jump replaces its operand and nothing else. */
  lemma PatchJump(pre: seq<byte>, i: Ins, post: seq<byte>, t: nat)
    requires i.Wide? || i.BreakHole? || i.ContinueHole?
    ensures Patch1(pre + Encode1(i) + post, |pre|, t)
      == pre + Encode1(Wide(if i.Wide? then i.op else OP_JUMP, t)) + post
  {
    var op := if i.Wide? then i.op else OP_JUMP;
    var n := if i.Wide? then i.n else PLACEHOLDER;
    assert OperandsBytes([2], [n]) == [(n / 256) % 256, n % 256];
    assert OperandsBytes([2], [t]) == [(t / 256) % 256, t % 256];
    assert Encode1(i) == [op, (n / 256) % 256, n % 256];
    assert Encode1(Wide(op, t)) == [op, (t / 256) % 256, t % 256];
    var bytes := pre + Encode1(i) + post;
    var want := pre + Encode1(Wide(op, t)) + post;
    forall j | 0 <= j < |bytes| ensures Patch1(bytes, |pre|, t)[j] == want[j] { }
  }

  /** The first hole, and the positions of the others. */
  lemma {:induction false} NextHole(c: seq<Ins>, brk: bool, base: nat) returns (k: nat)
    requires HolePos(c, brk, base) != []
    ensures k < |c| && IsHole(c[k], brk) && forall i :: 0 <= i < k ==> !IsHole(c[i], brk)
    ensures HolePos(c, brk, base) == [base + Size(c[..k])] + HolePos(c[k + 1..], brk, base + Size(c[..k]) + 3)
    decreases |c|
  {
    if IsHole(c[0], brk) {
      k := 0;
      assert c[..0] == [];
    } else {
      var j := NextHole(c[1..], brk, base + SizeOf(c[0]));
      k := j + 1;
      assert c[..k][1..] == c[1..][..j] && c[..k][0] == c[0];
      assert c[1..][j + 1..] == c[k + 1..];
    }
  }

  lemma EncodeAround(c: seq<Ins>, k: nat)
    requires k < |c|
    ensures Encode(c) == Encode(c[..k]) + Encode1(c[k]) + Encode(c[k + 1..])
  {
    assert c == c[..k] + c[k..] && c[k..][0] == c[k] && c[k..][1..] == c[k + 1..];
    EncodeAppend(c[..k], c[k..]);
  }

  lemma Splice(pre: seq<byte>, a: seq<byte>, x: seq<byte>, b: seq<byte>)
    ensures pre + (a + x + b) == (pre + a) + x + b
  {
  }

  lemma FillAround(c: seq<Ins>, brk: bool, k: nat, t: nat)
    requires k < |c| && IsHole(c[k], brk) && forall i :: 0 <= i < k ==> !IsHole(c[i], brk)
    ensures Encode(FillKind(c, brk, t)) == Encode(c[..k]) + Encode1(Wide(OP_JUMP, t))
      + Encode(FillKind(c[k + 1..], brk, t))
  {
    var f := FillKind(c, brk, t);
    EncodeAround(f, k);
    assert f[..k] == c[..k];
    assert f[k + 1..] == FillKind(c[k + 1..], brk, t);
  }

  /** Bytes `pre` are final, the code `rest` after them still has the holes `ps`, and filling
      them gives `goal`. */
  predicate Patched(bytes: seq<byte>, pre: seq<byte>, rest: seq<Ins>, brk: bool, t: nat, ps: seq<nat>, goal: seq<byte>)
  {
    && bytes == pre + Encode(rest) && ps == HolePos(rest, brk, |pre|)
    && pre + Encode(FillKind(rest, brk, t)) == goal
  }

  /** Patching the hole at `k` makes everything up to and including it final. */
  lemma PatchBytes(pre: seq<byte>, c: seq<Ins>, brk: bool, t: nat, k: nat, pos: nat, pre': seq<byte>)
    requires k < |c| && IsHole(c[k], brk) && pos == |pre| + Size(c[..k])
    requires pre' == pre + Encode(c[..k]) + Encode1(Wide(OP_JUMP, t))
    ensures pos + 3 <= |pre + Encode(c)| && (pre + Encode(c))[pos] == OP_JUMP
    ensures Patch1(pre + Encode(c), pos, t) == pre' + Encode(c[k + 1..])
  {
    EncodeAround(c, k);
    var a, x, b := Encode(c[..k]), Encode1(c[k]), Encode(c[k + 1..]);
    Splice(pre, a, x, b);
    PatchJump(pre + a, c[k], b, t);
    assert x[0] == OP_JUMP;
  }

  lemma PatchGoal(pre: seq<byte>, c: seq<Ins>, brk: bool, t: nat, k: nat, pre': seq<byte>)
    requires k < |c| && IsHole(c[k], brk) && forall i :: 0 <= i < k ==> !IsHole(c[i], brk)
    requires pre' == pre + Encode(c[..k]) + Encode1(Wide(OP_JUMP, t))
    ensures pre + Encode(FillKind(c, brk, t)) == pre' + Encode(FillKind(c[k + 1..], brk, t))
    ensures |pre'| == |pre| + Size(c[..k]) + 3
  {
    FillAround(c, brk, k, t);
    Splice(pre, Encode(c[..k]), Encode1(Wide(OP_JUMP, t)), Encode(FillKind(c[k + 1..], brk, t)));
  }

  lemma PatchNext(bytes: seq<byte>, pre: seq<byte>, c: seq<Ins>, brk: bool, t: nat, ps: seq<nat>, goal: seq<byte>)
    returns (pre': seq<byte>, c': seq<Ins>)
    requires Patched(bytes, pre, c, brk, t, ps, goal) && ps != []
    ensures ps[0] + 3 <= |bytes| && bytes[ps[0]] == OP_JUMP
    ensures Patched(Patch1(bytes, ps[0], t), pre', c', brk, t, ps[1..], goal)
  {
    var k := NextHole(c, brk, |pre|);
    c' := c[k + 1..];
    pre' := pre + Encode(c[..k]) + Encode1(Wide(OP_JUMP, t));
    PatchBytes(pre, c, brk, t, k, ps[0], pre');
    PatchGoal(pre, c, brk, t, k, pre');
  }

  lemma PatchedAll(bytes: seq<byte>, pre: seq<byte>, c: seq<Ins>, brk: bool, t: nat, goal: seq<byte>)
    requires Patched(bytes, pre, c, brk, t, [], goal)
    ensures bytes == goal
  {
    NoHolePos(c, brk, |pre|);
    assert FillKind(c, brk, t) == c;
  }
}
