/** Parsing undoes printing. */
module RoundTrip {
  import opened Language
  import opened Syntax

  /** The numbers are such that an integer literal can denote them. */
  predicate Literal(e: Tree)
  {
    match e
    case Number(n) => n <= MAX_INT
    case Unary(_, r) => Literal(r)
    case Binary(_, l, r) => Literal(l) && Literal(r)
    case Call(f, args) => Literal(f) && Literals(args)
    case Array(els) => Literals(els)
    case Index(l, i) => Literal(l) && Literal(i)
    case _ => true
  }

  predicate Literals(es: Trees) { es.Nil? || (Literal(es.head) && Literals(es.tail)) }

  /** A token after which no infix operator follows at precedence `p`. */
  predicate Stops(ts: seq<Token>, p: nat) { p >= NextPrecedence(ts) }

  // ---------- the rules of the parser ----------

  lemma StopRule(e: Tree, rest: seq<Token>, p: nat)
    requires Stops(rest, p)
    ensures ParseMore(e, rest, p) == Parsed(e, rest)
  {
  }

  lemma PrefixFirst(ts: seq<Token>, e: Tree, rest: seq<Token>, p: nat)
    requires ParsePrefix(ts) == Parsed(e, rest)
    ensures ParseExpr(ts, p) == ParseMore(e, rest, p)
  {
  }

  lemma GroupRule(ts: seq<Token>, e: Tree, rest: seq<Token>)
    requires ParseExpr(ts, LOWEST) == Parsed(e, [TRightParen] + rest)
    ensures ParsePrefix([TLeftParen] + ts) == Parsed(e, rest)
  {
    assert ([TLeftParen] + ts)[1..] == ts;
    assert ([TRightParen] + rest)[1..] == rest;
  }

  lemma UnaryRule(op: PrefixOp, ts: seq<Token>, e: Tree, rest: seq<Token>)
    requires ParseExpr(ts, PREFIX) == Parsed(e, rest)
    ensures ParsePrefix([PrefixToken(op)] + ts) == Parsed(Unary(op, e), rest)
  {
    assert ([PrefixToken(op)] + ts)[1..] == ts;
  }

  lemma BinaryRule(op: InfixOp, left: Tree, ts: seq<Token>, e: Tree, rest: seq<Token>, p: nat)
    requires ParseExpr(ts, OpPrecedence(op)) == Parsed(e, rest) && p < OpPrecedence(op)
    ensures ParseMore(left, [TOp(op)] + ts, p) == ParseMore(Binary(op, left, e), rest, p)
  {
    assert ([TOp(op)] + ts)[1..] == ts;
  }

  lemma CallRule(left: Tree, ts: seq<Token>, args: Trees, rest: seq<Token>, p: nat)
    requires ParseList(ts, TRightParen) == Parsed(args, rest) && p < CALL
    ensures ParseMore(left, [TLeftParen] + ts, p) == ParseMore(Call(left, args), rest, p)
  {
    assert ([TLeftParen] + ts)[1..] == ts;
  }

  lemma IndexRule(left: Tree, ts: seq<Token>, e: Tree, rest: seq<Token>, p: nat)
    requires ParseExpr(ts, LOWEST) == Parsed(e, [TRightBracket] + rest) && p < INDEX
    ensures ParseMore(left, [TLeftBracket] + ts, p) == ParseMore(Index(left, e), rest, p)
  {
    assert ([TLeftBracket] + ts)[1..] == ts;
    assert ([TRightBracket] + rest)[1..] == rest;
  }

  lemma ArrayRule(ts: seq<Token>, els: Trees, rest: seq<Token>)
    requires ParseList(ts, TRightBracket) == Parsed(els, rest)
    ensures ParsePrefix([TLeftBracket] + ts) == Parsed(Array(els), rest)
  {
    assert ([TLeftBracket] + ts)[1..] == ts;
  }

  lemma AtomRule(e: Tree, rest: seq<Token>)
    requires (e.Name? || e.Number? || e.Truth?) && Literal(e)
    ensures ParsePrefix(Print(e) + rest) == Parsed(e, rest)
  {
    assert (Print(e) + rest)[1..] == rest;
  }

  lemma Regroup(a: seq<Token>, b: seq<Token>, c: seq<Token>, rest: seq<Token>)
    ensures a + b + c + rest == a + (b + c + rest)
  {
  }

  lemma Regroup1(a: seq<Token>, b: seq<Token>, c: seq<Token>, d: seq<Token>, rest: seq<Token>)
    ensures a + b + c + d + rest == a + (b + (c + d + rest))
  {
    assert a + b + c + d + rest == a + b + (c + d + rest);
  }

  lemma Regroup2(a: seq<Token>, b: seq<Token>, c: seq<Token>, d: seq<Token>, e: seq<Token>, rest: seq<Token>)
    ensures a + b + c + d + e + rest == a + (b + (c + (d + (e + rest))))
  {
    assert a + b + c + d + e + rest == a + b + c + d + (e + rest);
    assert a + b + c + d + (e + rest) == a + b + c + (d + (e + rest));
    assert a + b + c + (d + (e + rest)) == a + b + (c + (d + (e + rest)));
  }

  // ---------- printed trees ----------

  /** Whatever precedence below a call's is asked for: the tokens of a printed tree give that
      tree, and parsing goes on behind them. */
  lemma {:induction false} PrintedParses(e: Tree, rest: seq<Token>, p: nat)
    requires Literal(e) && p < CALL
    ensures ParseExpr(Print(e) + rest, p) == ParseMore(e, rest, p)
    decreases e, 1
  {
    hide ParseExpr, ParsePrefix, ParseMore, ParseList;
    if e.Call? {
      CallParses(e, rest, p);
    } else {
      match e {
        case Unary(_, _) => UnaryParses(e, rest);
        case Binary(_, _, _) => BinaryParses(e, rest);
        case Index(_, _) => IndexParses(e, rest);
        case Array(els) =>
          ListParses(els, TRightBracket, rest);
          ArrayRule(PrintList(els) + [TRightBracket] + rest, els, rest);
          Regroup([TLeftBracket], PrintList(els), [TRightBracket], rest);
        case _ => AtomRule(e, rest);
      }
      PrefixFirst(Print(e) + rest, e, rest, p);
    }
  }

  lemma {:induction false} UnaryParses(e: Tree, rest: seq<Token>)
    requires e.Unary? && Literal(e)
    ensures ParsePrefix(Print(e) + rest) == Parsed(e, rest)
    decreases e, 0
  {
    hide ParseExpr, ParsePrefix, ParseMore;
    var tail := [TRightParen] + rest;
    var inner := Print(e.right) + tail;
    PrintedParses(e.right, tail, PREFIX);
    StopRule(e.right, tail, PREFIX);
    UnaryRule(e.pop, inner, e.right, tail);
    var ts := [PrefixToken(e.pop)] + inner;
    PrefixFirst(ts, e, tail, LOWEST);
    StopRule(e, tail, LOWEST);
    GroupRule(ts, e, rest);
    assert Print(e) + rest == [TLeftParen] + ts;
  }

  lemma {:induction false} BinaryParses(e: Tree, rest: seq<Token>)
    requires e.Binary? && Literal(e)
    ensures ParsePrefix(Print(e) + rest) == Parsed(e, rest)
    decreases e, 0
  {
    hide ParseExpr, ParsePrefix, ParseMore;
    var tail := [TRightParen] + rest;
    var right := Print(e.rhs) + tail;
    PrintedParses(e.rhs, tail, OpPrecedence(e.op));
    StopRule(e.rhs, tail, OpPrecedence(e.op));
    BinaryRule(e.op, e.left, right, e.rhs, tail, LOWEST);
    StopRule(e, tail, LOWEST);
    var more := [TOp(e.op)] + right;
    PrintedParses(e.left, more, LOWEST);
    GroupRule(Print(e.left) + more, e, rest);
    Regroup2([TLeftParen], Print(e.left), [TOp(e.op)], Print(e.rhs), [TRightParen], rest);
  }

  lemma {:induction false} IndexParses(e: Tree, rest: seq<Token>)
    requires e.Index? && Literal(e)
    ensures ParsePrefix(Print(e) + rest) == Parsed(e, rest)
    decreases e, 0
  {
    hide ParseExpr, ParsePrefix, ParseMore;
    var tail := [TRightParen] + rest;
    var close := [TRightBracket] + tail;
    var inner := Print(e.index) + close;
    PrintedParses(e.index, close, LOWEST);
    StopRule(e.index, close, LOWEST);
    IndexRule(e.collection, inner, e.index, tail, LOWEST);
    StopRule(e, tail, LOWEST);
    var more := [TLeftBracket] + inner;
    PrintedParses(e.collection, more, LOWEST);
    GroupRule(Print(e.collection) + more, e, rest);
    Regroup2([TLeftParen], Print(e.collection), [TLeftBracket], Print(e.index), [TRightBracket, TRightParen], rest);
    assert [TRightBracket, TRightParen] + rest == close;
  }

  lemma {:induction false} CallParses(e: Tree, rest: seq<Token>, p: nat)
    requires e.Call? && Literal(e) && p < CALL
    ensures ParseExpr(Print(e) + rest, p) == ParseMore(e, rest, p)
    decreases e, 0
  {
    hide ParseExpr, ParsePrefix, ParseMore, ParseList;
    var inner := PrintList(e.arguments) + [TRightParen] + rest;
    ListParses(e.arguments, TRightParen, rest);
    CallRule(e.function_, inner, e.arguments, rest, p);
    PrintedParses(e.function_, [TLeftParen] + inner, p);
    Regroup1(Print(e.function_), [TLeftParen], PrintList(e.arguments), [TRightParen], rest);
  }

  lemma {:induction false} ListParses(es: Trees, end: Token, rest: seq<Token>)
    requires Literals(es) && (end == TRightParen || end == TRightBracket)
    ensures ParseList(PrintList(es) + [end] + rest, end) == Parsed(es, rest)
    decreases es, 3
  {
    hide ParseExpr, ParseItems;
    var tail := [end] + rest;
    assert tail[1..] == rest;
    assert PrintList(es) + [end] + rest == PrintList(es) + tail;
    if es.Nil? {
      assert PrintList(es) + tail == tail;
    } else {
      ItemsParse(es, end, rest);
      NotClosing(es.head);
      assert (PrintList(es) + tail)[0] == Print(es.head)[0];
    }
  }

  /** No printed tree begins with a closing bracket. */
  lemma {:induction false} NotClosing(e: Tree)
    ensures Print(e)[0] != TRightParen && Print(e)[0] != TRightBracket
    decreases e
  {
    if e.Call? { NotClosing(e.function_); }
  }

  lemma {:induction false} ItemsParse(es: Trees, end: Token, rest: seq<Token>)
    requires es.Cons? && Literals(es) && (end == TRightParen || end == TRightBracket)
    ensures ParseItems(PrintList(es) + ([end] + rest)) == Parsed(es, [end] + rest)
    decreases es, 2
  {
    hide ParsePrefix, Print, ParseExpr, ParseMore;
    var tail := [end] + rest;
    if es.tail.Nil? {
      PrintedParses(es.head, tail, LOWEST);
      StopRule(es.head, tail, LOWEST);
    } else {
      var items := PrintList(es.tail) + tail;
      var more := [TComma] + items;
      assert more[1..] == items;
      PrintedParses(es.head, more, LOWEST);
      StopRule(es.head, more, LOWEST);
      ItemsParse(es.tail, end, rest);
      Regroup(Print(es.head), [TComma], PrintList(es.tail), tail);
      assert [TComma] + PrintList(es.tail) + tail == more;
    }
  }

  /** Parsing the tokens of a printed tree returns that tree and consumes them all. */
  lemma PrintThenParse(e: Tree, rest: seq<Token>)
    requires Literal(e) && Stops(rest, LOWEST)
    ensures ParseExpr(Print(e) + rest, LOWEST) == Parsed(e, rest)
  {
    PrintedParses(e, rest, LOWEST);
    StopRule(e, rest, LOWEST);
  }

  /** What each form of tokens is read as. */
  lemma FormsRead(x: string, y: string, n: nat, b: bool, op: InfixOp, rest: seq<Token>)
    requires n <= MAX_INT && Stops(rest, LOWEST)
    ensures ParseExpr([TNumber(n)] + rest, LOWEST) == Parsed(Number(n), rest)
    ensures ParseExpr([if b then TTrue else TFalse] + rest, LOWEST) == Parsed(Truth(b), rest)
    ensures ParseExpr([TLeftParen, TBang, TIdent(x), TRightParen] + rest, LOWEST) == Parsed(Unary(Not, Name(x)), rest)
    ensures ParseExpr([TLeftParen, TOp(Sub), TIdent(x), TRightParen] + rest, LOWEST)
      == Parsed(Unary(Neg, Name(x)), rest)
    ensures ParseExpr([TLeftParen, TIdent(x), TOp(op), TIdent(y), TRightParen] + rest, LOWEST)
      == Parsed(Binary(op, Name(x), Name(y)), rest)
    ensures ParseExpr([TLeftParen, TIdent(x), TLeftBracket, TIdent(y), TRightBracket, TRightParen] + rest, LOWEST)
      == Parsed(Index(Name(x), Name(y)), rest)
  {
    hide ParseExpr;
    PrintThenParse(Number(n), rest);
    PrintThenParse(Truth(b), rest);
    assert Print(Name(x)) == [TIdent(x)] && Print(Name(y)) == [TIdent(y)];
    assert Print(Unary(Not, Name(x))) == [TLeftParen, TBang, TIdent(x), TRightParen];
    assert Print(Unary(Neg, Name(x))) == [TLeftParen, TOp(Sub), TIdent(x), TRightParen];
    assert Print(Binary(op, Name(x), Name(y))) == [TLeftParen, TIdent(x), TOp(op), TIdent(y), TRightParen];
    assert Print(Index(Name(x), Name(y)))
      == [TLeftParen, TIdent(x), TLeftBracket, TIdent(y), TRightBracket, TRightParen];
    PrintThenParse(Unary(Not, Name(x)), rest);
    PrintThenParse(Unary(Neg, Name(x)), rest);
    PrintThenParse(Binary(op, Name(x), Name(y)), rest);
    PrintThenParse(Index(Name(x), Name(y)), rest);
  }

  /** Arguments and elements in order. */
  lemma ListsRead(x: string, y: string, rest: seq<Token>)
    requires Stops(rest, LOWEST)
    ensures ParseExpr([TIdent(x), TLeftParen, TIdent(x), TComma, TIdent(y), TRightParen] + rest, LOWEST)
      == Parsed(Call(Name(x), Cons(Name(x), Cons(Name(y), Nil))), rest)
    ensures ParseExpr([TLeftBracket, TIdent(x), TComma, TIdent(y), TRightBracket] + rest, LOWEST)
      == Parsed(Array(Cons(Name(x), Cons(Name(y), Nil))), rest)
  {
    hide ParseExpr;
    var xy := Cons(Name(x), Cons(Name(y), Nil));
    assert Print(Name(x)) == [TIdent(x)] && Print(Name(y)) == [TIdent(y)];
    assert PrintList(Cons(Name(y), Nil)) == [TIdent(y)];
    assert PrintList(xy) == [TIdent(x), TComma, TIdent(y)];
    assert Literals(Cons(Name(y), Nil)) && Literals(xy);
    PrintThenParse(Call(Name(x), xy), rest);
    PrintThenParse(Array(xy), rest);
    assert Print(Call(Name(x), xy)) == [TIdent(x), TLeftParen, TIdent(x), TComma, TIdent(y), TRightParen];
    assert Print(Array(xy)) == [TLeftBracket, TIdent(x), TComma, TIdent(y), TRightBracket];
  }
}
