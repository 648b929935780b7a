/** A chain of operands and binary operators without parentheses gets the only tree that
    respects precedence and associates to the left. */
module Chains {
  import opened Language
  import opened Syntax
  import opened RoundTrip

  /** An operand: prefix operators before a printed tree. */
  datatype Operand = Operand(prefixes: seq<PrefixOp>, tree: Tree)

  /** A way to nest a chain. */
  datatype Nest = Leaf(operand: Operand) | Node(op: InfixOp, left: Nest, right: Nest)

  datatype Item = Op(op: InfixOp) | Arg(operand: Operand)

  /** The chain a nesting nests. */
  function Flatten(t: Nest): (c: seq<Item>)
    ensures c != []
  {
    match t case Leaf(x) => [Arg(x)] case Node(op, l, r) => Flatten(l) + [Op(op)] + Flatten(r)
  }

  function OperandTree(x: Operand): Tree
    decreases |x.prefixes|
  {
    if x.prefixes == [] then x.tree else Unary(x.prefixes[0], OperandTree(Operand(x.prefixes[1..], x.tree)))
  }

  function ToTree(t: Nest): Tree
  {
    match t case Leaf(x) => OperandTree(x) case Node(op, l, r) => Binary(op, ToTree(l), ToTree(r))
  }

  function OperandTokens(x: Operand): (ts: seq<Token>)
    decreases |x.prefixes|
  {
    if x.prefixes == [] then Print(x.tree)
    else [PrefixToken(x.prefixes[0])] + OperandTokens(Operand(x.prefixes[1..], x.tree))
  }

  /** The tokens of a chain. */
  function Tokens(c: seq<Item>): seq<Token>
  {
    if c == [] then []
    else (match c[0] case Op(op) => [TOp(op)] case Arg(x) => OperandTokens(x)) + Tokens(c[1..])
  }

  lemma {:induction false} TokensAppend(a: seq<Item>, b: seq<Item>)
    ensures Tokens(a + b) == Tokens(a) + Tokens(b)
  {
    if a == [] {
      assert a + b == b;
    } else {
      assert (a + b)[0] == a[0] && (a + b)[1..] == a[1..] + b;
      TokensAppend(a[1..], b);
    }
  }

  // ---------- which operators bind tighter ----------

  /** The operators by how tightly they bind, the tightest first. */
  const CLASSES: seq<set<InfixOp>> := [{Mul, Div, Mod}, {Add, Sub}, {Lt, Gt}, {Le, Ge}, {Eq, Ne}, {And, Or}]

  predicate Tighter(a: InfixOp, b: InfixOp)
  {
    exists i, j :: 0 <= i < j < |CLASSES| && a in CLASSES[i] && b in CLASSES[j]
  }

  /** The parser's precedences are this order. */
  lemma PrecedenceOrder(a: InfixOp, b: InfixOp)
    ensures OpPrecedence(a) > OpPrecedence(b) <==> Tighter(a, b)
  {
    var i := ClassOf(a);
    var j := ClassOf(b);
    if i < j { assert a in CLASSES[i] && b in CLASSES[j]; }
  }

  /** Each operator is in one class, and the classes are ordered as the precedences. */
  lemma ClassOf(a: InfixOp) returns (i: nat)
    ensures i < |CLASSES| && (forall k :: 0 <= k < |CLASSES| ==> (a in CLASSES[k] <==> k == i))
    ensures OpPrecedence(a) + i == PRODUCT
  {
    i := PRODUCT - OpPrecedence(a);
  }

  lemma PrecedenceOrders()
    ensures forall a, b :: Tighter(a, b) <==> OpPrecedence(a) > OpPrecedence(b)
  {
    forall a, b ensures Tighter(a, b) <==> OpPrecedence(a) > OpPrecedence(b) { PrecedenceOrder(a, b); }
  }

  /** Tighter operators below, and equally tight ones only to the left. */
  predicate Respects(t: Nest)
  {
    t.Node? ==>
      && Respects(t.left) && (t.left.Node? ==> !Tighter(t.op, t.left.op))
      && Respects(t.right) && (t.right.Node? ==> Tighter(t.right.op, t.op))
  }

  predicate AllLiteral(t: Nest)
  {
    match t case Leaf(x) => Literal(x.tree) case Node(_, l, r) => AllLiteral(l) && AllLiteral(r)
  }

  // ---------- the parser finds it ----------

  lemma {:induction false} OperandParses(x: Operand, rest: seq<Token>, p: nat)
    requires Literal(x.tree) && p < CALL && NextPrecedence(rest) <= PRODUCT
    ensures ParseExpr(OperandTokens(x) + rest, p) == ParseMore(OperandTree(x), rest, p)
    decreases |x.prefixes|
  {
    hide ParseExpr, ParsePrefix, ParseMore;
    if x.prefixes == [] {
      PrintedParses(x.tree, rest, p);
    } else {
      var y := Operand(x.prefixes[1..], x.tree);
      var ts := OperandTokens(y) + rest;
      OperandParses(y, rest, PREFIX);
      StopRule(OperandTree(y), rest, PREFIX);
      UnaryRule(x.prefixes[0], ts, OperandTree(y), rest);
      assert OperandTokens(x) + rest == [PrefixToken(x.prefixes[0])] + ts;
      PrefixFirst(OperandTokens(x) + rest, OperandTree(x), rest, p);
    }
  }

  lemma {:induction false} NestParses(t: Nest, rest: seq<Token>, p: nat)
    requires Respects(t) && AllLiteral(t) && p < CALL
    requires NextPrecedence(rest) <= if t.Node? then OpPrecedence(t.op) else PRODUCT
    requires t.Node? ==> p < OpPrecedence(t.op)
    ensures ParseExpr(Tokens(Flatten(t)) + rest, p) == ParseMore(ToTree(t), rest, p)
    decreases t
  {
    hide ParseExpr, ParseMore, Tighter;
    PrecedenceOrders();
    match t
    case Leaf(x) =>
      LeafTokens(x);
      OperandParses(x, rest, p);
    case Node(op, l, r) =>
      var right := Tokens(Flatten(r)) + rest;
      NodeTokens(op, l, r, rest);
      NestParses(r, rest, OpPrecedence(op));
      StopRule(ToTree(r), rest, OpPrecedence(op));
      BinaryRule(op, ToTree(l), right, ToTree(r), rest, p);
      NestParses(l, [TOp(op)] + right, p);
  }

  lemma LeafTokens(x: Operand)
    ensures Tokens(Flatten(Leaf(x))) == OperandTokens(x)
  {
    assert [Arg(x)][1..] == [];
    assert OperandTokens(x) + [] == OperandTokens(x);
  }

  lemma NodeTokens(op: InfixOp, l: Nest, r: Nest, rest: seq<Token>)
    ensures Tokens(Flatten(Node(op, l, r))) + rest == Tokens(Flatten(l)) + ([TOp(op)] + (Tokens(Flatten(r)) + rest))
  {
    TokensAppend(Flatten(l) + [Op(op)], Flatten(r));
    TokensAppend(Flatten(l), [Op(op)]);
    assert [Op(op)][1..] == [];
  }

  // ---------- there is one, and only one ----------

  /** One more operator and operand at the end. */
  function Extend(t: Nest, op: InfixOp, x: Operand): Nest
  {
    if t.Leaf? || OpPrecedence(t.op) >= OpPrecedence(op) then Node(op, t, Leaf(x))
    else Node(t.op, t.left, Extend(t.right, op, x))
  }

  lemma {:induction false} ExtendRespects(t: Nest, op: InfixOp, x: Operand)
    requires Respects(t)
    ensures Respects(Extend(t, op, x)) && Flatten(Extend(t, op, x)) == Flatten(t) + [Op(op), Arg(x)]
    ensures OpPrecedence(Extend(t, op, x).op) == if t.Leaf? || OpPrecedence(t.op) >= OpPrecedence(op)
      then OpPrecedence(op) else OpPrecedence(t.op)
  {
    PrecedenceOrders();
    hide Tighter;
    if t.Node? && OpPrecedence(t.op) < OpPrecedence(op) {
      ExtendRespects(t.right, op, x);
      assert Flatten(t) + [Op(op), Arg(x)] == Flatten(t.left) + [Op(t.op)] + (Flatten(t.right) + [Op(op), Arg(x)]);
    }
  }

  /** Operators, each with the operand after it. */
  predicate Continues(c: seq<Item>)
    decreases |c|
  {
    c == [] || (|c| >= 2 && c[0].Op? && c[1].Arg? && Continues(c[2..]))
  }

  /** Every chain can be nested properly. */
  function Build(t: Nest, c: seq<Item>): Nest
    requires Continues(c)
    decreases |c|
  {
    if c == [] then t else Build(Extend(t, c[0].op, c[1].operand), c[2..])
  }

  lemma {:induction false} BuildRespects(t: Nest, c: seq<Item>)
    requires Respects(t) && Continues(c)
    ensures Respects(Build(t, c)) && Flatten(Build(t, c)) == Flatten(t) + c
    decreases |c|
  {
    if c != [] {
      ExtendRespects(t, c[0].op, c[1].operand);
      BuildRespects(Extend(t, c[0].op, c[1].operand), c[2..]);
      assert Flatten(t) + [c[0], c[1]] + c[2..] == Flatten(t) + c;
    } else {
      assert Flatten(t) + c == Flatten(t);
    }
  }

  /** The root of a proper nesting is the last of the loosest operators. */
  lemma {:induction false} RootLoosest(t: Nest, j: nat)
    requires Respects(t) && t.Node? && j < |Flatten(t)| && Flatten(t)[j].Op?
    ensures !Tighter(t.op, Flatten(t)[j].op)
    ensures j > |Flatten(t.left)| ==> Tighter(Flatten(t)[j].op, t.op)
    decreases t
  {
    PrecedenceOrders();
    hide Tighter;
    var k := |Flatten(t.left)|;
    if j < k {
      assert Flatten(t)[j] == Flatten(t.left)[j];
      if t.left.Node? { RootLoosest(t.left, j); }
    } else if j > k {
      assert Flatten(t)[j] == Flatten(t.right)[j - k - 1];
      if t.right.Node? { RootLoosest(t.right, j - k - 1); }
    }
  }

  /** Two proper nestings of a chain are the same. */
  lemma {:induction false} OnlyOne(t: Nest, u: Nest)
    requires Respects(t) && Respects(u) && Flatten(t) == Flatten(u)
    ensures t == u
    decreases t
  {
    if t.Node? && u.Node? {
      SameRoot(t, u);
      var k := |Flatten(t.left)|;
      assert Flatten(t)[..k] == Flatten(t.left) && Flatten(u)[..k] == Flatten(u.left);
      assert Flatten(t)[k + 1..] == Flatten(t.right) && Flatten(u)[k + 1..] == Flatten(u.right);
      OnlyOne(t.left, u.left);
      OnlyOne(t.right, u.right);
    }
  }

  lemma SameRoot(t: Nest, u: Nest)
    requires Respects(t) && Respects(u) && t.Node? && u.Node? && Flatten(t) == Flatten(u)
    ensures |Flatten(t.left)| == |Flatten(u.left)| && t.op == u.op
  {
    PrecedenceOrders();
    hide Tighter;
    var i, j := |Flatten(t.left)|, |Flatten(u.left)|;
    assert Flatten(t)[i] == Op(t.op) && Flatten(u)[j] == Op(u.op);
    RootLoosest(t, j);
    RootLoosest(u, i);
  }

  predicate LiteralItems(c: seq<Item>) { forall i :: 0 <= i < |c| && c[i].Arg? ==> Literal(c[i].operand.tree) }

  lemma {:induction false} NestLiteral(t: Nest)
    requires LiteralItems(Flatten(t))
    ensures AllLiteral(t)
  {
    match t
    case Leaf(x) => assert Flatten(t)[0] == Arg(x);
    case Node(_, l, r) =>
      forall i | 0 <= i < |Flatten(l)| && Flatten(l)[i].Arg? ensures Literal(Flatten(l)[i].operand.tree) {
        assert Flatten(t)[i] == Flatten(l)[i];
      }
      forall i | 0 <= i < |Flatten(r)| && Flatten(r)[i].Arg? ensures Literal(Flatten(r)[i].operand.tree) {
        assert Flatten(t)[|Flatten(l)| + 1 + i] == Flatten(r)[i];
      }
      NestLiteral(l);
      NestLiteral(r);
  }

  /** For every chain there is exactly one proper nesting, and it is what the parser returns;
      all tokens of the chain are consumed. */
  lemma ChainParses(x: Operand, c: seq<Item>, rest: seq<Token>) returns (t: Nest)
    requires Continues(c) && LiteralItems([Arg(x)] + c) && Stops(rest, LOWEST)
    ensures Respects(t) && Flatten(t) == [Arg(x)] + c
    ensures forall u :: Respects(u) && Flatten(u) == [Arg(x)] + c ==> u == t
    ensures ParseExpr(Tokens([Arg(x)] + c) + rest, LOWEST) == Parsed(ToTree(t), rest)
  {
    t := Build(Leaf(x), c);
    BuildRespects(Leaf(x), c);
    forall u | Respects(u) && Flatten(u) == [Arg(x)] + c ensures u == t { OnlyOne(u, t); }
    NestLiteral(t);
    NestParses(t, rest, LOWEST);
    StopRule(ToTree(t), rest, LOWEST);
  }

  /** Two operators in a row: the second is applied first exactly if its class is the tighter one. */
  lemma TwoOperators(x: Operand, o1: InfixOp, y: Operand, o2: InfixOp, z: Operand, rest: seq<Token>)
    requires Literal(x.tree) && Literal(y.tree) && Literal(z.tree) && Stops(rest, LOWEST)
    ensures var a, b, c := OperandTree(x), OperandTree(y), OperandTree(z);
      ParseExpr(OperandTokens(x) + ([TOp(o1)] + (OperandTokens(y) + ([TOp(o2)] + (OperandTokens(z) + rest)))),
        LOWEST) ==
        Parsed(if Tighter(o2, o1) then Binary(o1, a, Binary(o2, b, c)) else Binary(o2, Binary(o1, a, b), c), rest)
  {
    hide ParseExpr, Tighter, OpPrecedence, Respects, AllLiteral, ToTree;
    var t := TwoNested(x, o1, y, o2, z);
    Asymmetric(o1, o2);
    Asymmetric(o2, o1);
    NestParses(t, rest, LOWEST);
    StopRule(ToTree(t), rest, LOWEST);
    TwoTokens(t, x, o1, y, o2, z, rest);
  }

  lemma TwoNested(x: Operand, o1: InfixOp, y: Operand, o2: InfixOp, z: Operand) returns (t: Nest)
    requires Literal(x.tree) && Literal(y.tree) && Literal(z.tree)
    ensures t == if Tighter(o2, o1) then Node(o1, Leaf(x), Node(o2, Leaf(y), Leaf(z)))
      else Node(o2, Node(o1, Leaf(x), Leaf(y)), Leaf(z))
    ensures Respects(t) && AllLiteral(t)
    ensures var a, b, c := OperandTree(x), OperandTree(y), OperandTree(z);
      ToTree(t) == if Tighter(o2, o1) then Binary(o1, a, Binary(o2, b, c)) else Binary(o2, Binary(o1, a, b), c)
  {
    hide Tighter, Literal, OperandTree;
    var l, m, r := Leaf(x), Leaf(y), Leaf(z);
    assert Respects(l) && Respects(m) && Respects(r) && AllLiteral(l) && AllLiteral(m) && AllLiteral(r);
    assert Respects(Node(o1, l, m)) && Respects(Node(o2, m, r));
    assert AllLiteral(Node(o1, l, m)) && AllLiteral(Node(o2, m, r));
    assert ToTree(Node(o1, l, m)) == Binary(o1, ToTree(l), ToTree(m));
    assert ToTree(Node(o2, m, r)) == Binary(o2, ToTree(m), ToTree(r));
    t := if Tighter(o2, o1) then Node(o1, l, Node(o2, m, r)) else Node(o2, Node(o1, l, m), r);
  }

  lemma Asymmetric(a: InfixOp, b: InfixOp)
    ensures !(Tighter(a, b) && Tighter(b, a)) && LOWEST < OpPrecedence(a) < CALL
  {
    PrecedenceOrders();
  }

  lemma TwoTokens(t: Nest, x: Operand, o1: InfixOp, y: Operand, o2: InfixOp, z: Operand, rest: seq<Token>)
    requires t == Node(o1, Leaf(x), Node(o2, Leaf(y), Leaf(z))) || t == Node(o2, Node(o1, Leaf(x), Leaf(y)), Leaf(z))
    ensures Tokens(Flatten(t)) + rest
      == OperandTokens(x) + ([TOp(o1)] + (OperandTokens(y) + ([TOp(o2)] + (OperandTokens(z) + rest))))
  {
    LeafTokens(x);
    LeafTokens(y);
    LeafTokens(z);
    if t.left.Leaf? {
      NodeTokens(o1, Leaf(x), t.right, rest);
      NodeTokens(o2, Leaf(y), Leaf(z), rest);
    } else {
      NodeTokens(o2, t.left, Leaf(z), rest);
      NodeTokens(o1, Leaf(x), Leaf(y), [TOp(o2)] + (OperandTokens(z) + rest));
    }
  }

  // ---------- prefix operators, calls and indices ----------

  /** Calls and indices bind tighter than a prefix operator and than any infix operator on either
      side: behind `op x`, or `x o y`, they apply to the last operand alone. */
  lemma PostfixTightest(op: PrefixOp, o: InfixOp, x: Tree, y: Tree, i: Tree, rest: seq<Token>)
    requires Literal(x) && Literal(y) && Literal(i) && Stops(rest, LOWEST)
    ensures var at := [TLeftBracket] + (Print(i) + ([TRightBracket] + rest));
      && ParseExpr([PrefixToken(op)] + (Print(y) + at), LOWEST) == Parsed(Unary(op, Index(y, i)), rest)
      && ParseExpr(Print(x) + ([TOp(o)] + (Print(y) + at)), LOWEST) == Parsed(Binary(o, x, Index(y, i)), rest)
    ensures var call := [TLeftParen] + (PrintList(Cons(i, Nil)) + [TRightParen] + rest);
      && ParseExpr([PrefixToken(op)] + (Print(y) + call), LOWEST) == Parsed(Unary(op, Call(y, Cons(i, Nil))), rest)
      && ParseExpr(Print(x) + ([TOp(o)] + (Print(y) + call)),
        LOWEST) == Parsed(Binary(o, x, Call(y, Cons(i, Nil))), rest)
  {
    IndexAfter(op, o, x, y, i, rest);
    CallAfter(op, o, x, y, i, rest);
  }

  lemma IndexAfter(op: PrefixOp, o: InfixOp, x: Tree, y: Tree, i: Tree, rest: seq<Token>)
    requires Literal(x) && Literal(y) && Literal(i) && Stops(rest, LOWEST)
    ensures var at := [TLeftBracket] + (Print(i) + ([TRightBracket] + rest));
      && ParseExpr([PrefixToken(op)] + (Print(y) + at), LOWEST) == Parsed(Unary(op, Index(y, i)), rest)
      && ParseExpr(Print(x) + ([TOp(o)] + (Print(y) + at)), LOWEST) == Parsed(Binary(o, x, Index(y, i)), rest)
  {
    hide ParseExpr, ParsePrefix, ParseMore;
    var close := [TRightBracket] + rest;
    var inner := Print(i) + close;
    PrintedParses(i, close, LOWEST);
    StopRule(i, close, LOWEST);
    forall p: nat | p < CALL ensures ParseExpr(Print(y) + ([TLeftBracket] + inner), p) == ParseMore(Index(y, i),
      rest, p) {
      PrintedParses(y, [TLeftBracket] + inner, p);
      IndexRule(y, inner, i, rest, p);
    }
    Around(op, o, x, Print(y) + ([TLeftBracket] + inner), Index(y, i), rest);
  }

  lemma CallAfter(op: PrefixOp, o: InfixOp, x: Tree, y: Tree, i: Tree, rest: seq<Token>)
    requires Literal(x) && Literal(y) && Literal(i) && Stops(rest, LOWEST)
    ensures var call := [TLeftParen] + (PrintList(Cons(i, Nil)) + [TRightParen] + rest);
      && ParseExpr([PrefixToken(op)] + (Print(y) + call), LOWEST) == Parsed(Unary(op, Call(y, Cons(i, Nil))), rest)
      && ParseExpr(Print(x) + ([TOp(o)] + (Print(y) + call)),
        LOWEST) == Parsed(Binary(o, x, Call(y, Cons(i, Nil))), rest)
  {
    hide ParseExpr, ParsePrefix, ParseMore, ParseList;
    var args := Cons(i, Nil);
    var inner := PrintList(args) + [TRightParen] + rest;
    ListParses(args, TRightParen, rest);
    forall p: nat | p < CALL ensures ParseExpr(Print(y) + ([TLeftParen] + inner), p) == ParseMore(Call(y, args),
      rest, p) {
      PrintedParses(y, [TLeftParen] + inner, p);
      CallRule(y, inner, args, rest, p);
    }
    Around(op, o, x, Print(y) + ([TLeftParen] + inner), Call(y, args), rest);
  }

  /** What parses alone, whatever precedence is asked for, is an operand. */
  lemma Around(op: PrefixOp, o: InfixOp, x: Tree, ts: seq<Token>, e: Tree, rest: seq<Token>)
    requires Literal(x) && Stops(rest, LOWEST)
    requires forall p: nat :: p < CALL ==> ParseExpr(ts, p) == ParseMore(e, rest, p)
    ensures ParseExpr([PrefixToken(op)] + ts, LOWEST) == Parsed(Unary(op, e), rest)
    ensures ParseExpr(Print(x) + ([TOp(o)] + ts), LOWEST) == Parsed(Binary(o, x, e), rest)
  {
    hide ParseExpr, ParsePrefix, ParseMore;
    StopRule(e, rest, PREFIX);
    UnaryRule(op, ts, e, rest);
    PrefixFirst([PrefixToken(op)] + ts, Unary(op, e), rest, LOWEST);
    StopRule(Unary(op, e), rest, LOWEST);
    StopRule(e, rest, OpPrecedence(o));
    PrintedParses(x, [TOp(o)] + ts, LOWEST);
    BinaryRule(o, x, ts, e, rest, LOWEST);
    StopRule(Binary(o, x, e), rest, LOWEST);
  }
}
