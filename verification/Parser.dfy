/** The parser as it works: a window of three tokens moved over the input, a loop that
    rebinds the left operand, and a list of errors (parser/parser.go). */
module Parsers {
  import opened Language
  import opened Syntax
  import opened RoundTrip

  /** `list` in front of the trees of `r`. */
  function Front(list: seq<Tree>, r: Parsed<Trees>): Parsed<Trees>
  {
    if r.Failed? then Failed else Parsed(Prepend(list, r.tree), r.rest)
  }

  function Prepend(list: seq<Tree>, es: Trees): Trees
  {
    if list == [] then es else Cons(list[0], Prepend(list[1..], es))
  }

  lemma {:induction false} PrependMore(list: seq<Tree>, e: Tree, es: Trees)
    ensures Prepend(list + [e], es) == Prepend(list, Cons(e, es))
  {
    if list == [] {
      assert ([] + [e])[1..] == [];
    } else {
      assert (list + [e])[0] == list[0] && (list + [e])[1..] == list[1..] + [e];
      PrependMore(list[1..], e, es);
    }
  }

  /** The items after the first one. */
  function MoreItems(ts: seq<Token>): Parsed<Trees>
  {
    if ts != [] && ts[0] == TComma then ParseItems(ts[1..]) else Parsed(Nil, ts)
  }

  lemma FrontMore(list: seq<Tree>, ts: seq<Token>)
    ensures ParseExpr(ts, LOWEST).Failed? ==> Front(list, ParseItems(ts)).Failed?
    ensures ParseExpr(ts, LOWEST).Parsed? ==> var r := ParseExpr(ts, LOWEST);
      Front(list, ParseItems(ts)) == Front(list + [r.tree], MoreItems(r.rest))
  {
    hide ParseExpr;
    var r := ParseExpr(ts, LOWEST);
    if r.Parsed? && MoreItems(r.rest).Parsed? { PrependMore(list, r.tree, MoreItems(r.rest).tree); }
  }

  function Head(ts: seq<Token>): Token { if ts == [] then TEof else ts[0] }

  class Parser {
    /** What the lexer yields before the end of the file, and how much of it it has yielded. */
    const input: seq<Token>
    var next: nat

    var currToken: Token
    var peekToken: Token
    var peekPeekToken: Token
    var errors: seq<string>

    function At(i: nat): Token { if i < |input| then input[i] else TEof }

    function From(i: nat): seq<Token> { if i <= |input| then input[i..] else [] }

    /** The three tokens are those of the input at the current position. */
    ghost predicate Tracks()
      reads this
    {
      && next >= 3 && currToken == At(next - 3) && peekToken == At(next - 2) && peekPeekToken == At(next - 1)
      && TEof !in input
    }

    /** The tokens from the current one on, and those after it. */
    ghost function Rest(): seq<Token>
      reads this
      requires next >= 3
    {
      From(next - 3)
    }

    ghost function Ahead(): seq<Token>
      reads this
      requires next >= 3
    {
      From(next - 2)
    }

    ghost predicate Valid()
      reads this
    {
      && next >= 3 && Tracks()
      && currToken == Head(Rest()) && peekToken == Head(Ahead())
      && (TEof == currToken <==> Rest() == []) && (TEof == peekToken <==> Ahead() == [])
      && Ahead() == if Rest() == [] then [] else Rest()[1..]
    }

    constructor (tokens: seq<Token>)
      requires TEof !in tokens
      ensures Valid() && Rest() == tokens && errors == []
    {
      input, next, errors := tokens, 0, [];
      currToken, peekToken, peekPeekToken := TEof, TEof, TEof;
      new;
      NextToken();
      NextToken();
      NextToken();
    }

    method NextToken()
      modifies this`next, this`currToken, this`peekToken, this`peekPeekToken
      ensures next == old(next) + 1 && currToken == old(peekToken) && peekToken == old(peekPeekToken)
        && peekPeekToken == At(old(next))
      ensures old(Valid()) ==> Valid() && Rest() == old(Ahead())
    {
      currToken, peekToken := peekToken, peekPeekToken;
      peekPeekToken := At(next);
      next := next + 1;
    }

    method ExpectPeek(t: Token) returns (ok: bool)
      requires Valid() && t != TEof
      modifies this
      ensures Valid() && ok == (old(Ahead()) != [] && old(Ahead())[0] == t)
      ensures if ok then Ahead() == old(Ahead())[1..] && errors == old(errors) else Ahead() == old(Ahead())
      ensures !ok ==> errors != []
    {
      hide Parser.From, Parser.At;
      ok := peekToken == t;
      if ok { NextToken(); } else { errors := errors + ["unexpected token"]; }
    }

    /** The method's result and the tokens ahead are what the function says; when it fails an
        error is recorded. */
    ghost predicate Yields<T>(spec: Parsed<T>, r: Option<T>)
      reads this
      requires next >= 3
    {
      if spec.Parsed? then r == Some(spec.tree) && Ahead() == spec.rest else r == None && errors != []
    }

    method ParseExpression(p: nat) returns (r: Option<Tree>)
      requires Valid()
      modifies this
      ensures Valid() && Yields(ParseExpr(old(Rest()), p), r) && (r.Some? ==> errors == old(errors))
      decreases |Rest()|, 3
    {
      hide Parser.Tracks, Parser.From, Parser.At;
      r := ParsePrefixExpr();
      if r.None? { return; }
      var left := r.value;
      while peekToken != TSemicolon && p < Precedence(peekToken)
        invariant Valid() && |Ahead()| < |old(Rest())| && errors == old(errors)
        invariant ParseExpr(old(Rest()), p) == ParseMore(left, Ahead(), p)
        decreases |Ahead()|
      {
        if Precedence(peekToken) == LOWEST { return Some(left); }
        NextToken();
        r := ParseInfixExpr(left);
        if r.None? { return; }
        left := r.value;
      }
      r := Some(left);
    }

    /** The prefix functions. */
    method ParsePrefixExpr() returns (r: Option<Tree>)
      requires Valid()
      modifies this
      ensures Valid() && Yields(ParsePrefix(old(Rest())), r) && (r.Some? ==> errors == old(errors))
      decreases |Rest()|, 2
    {
      hide Parser.From, Parser.At;
      match currToken {
        case TIdent(x) => r := Some(Name(x));
        case TNumber(n) => r := if n > MAX_INT then None else Some(Number(n));
        case TTrue => r := Some(Truth(true));
        case TFalse => r := Some(Truth(false));
        case TBang => r := ParseUnary(Not);
        case TOp(op) => if op == Sub { r := ParseUnary(Neg); } else { r := None; }
        case TLeftParen => r := ParseGroupedExpr();
        case TLeftBracket => r := ParseArrayLiteral();
        case _ => r := None;
      }
      if r.None? { errors := errors + ["no expression"]; }
    }

    method ParseUnary(op: PrefixOp) returns (r: Option<Tree>)
      requires Valid() && currToken == PrefixToken(op)
      modifies this
      ensures Valid() && Yields(ParsePrefix(old(Rest())), r) && (r.Some? ==> errors == old(errors))
      decreases |Rest()|, 1
    {
      hide Parser.Tracks, Parser.From, Parser.At;
      NextToken();
      r := ParseExpression(PREFIX);
      if r.Some? { r := Some(Unary(op, r.value)); }
    }

    method ParseGroupedExpr() returns (r: Option<Tree>)
      requires Valid() && currToken == TLeftParen
      modifies this
      ensures Valid() && Yields(ParsePrefix(old(Rest())), r) && (r.Some? ==> errors == old(errors))
      decreases |Rest()|, 1
    {
      hide Parser.Tracks, Parser.From, Parser.At;
      NextToken();
      r := ParseExpression(LOWEST);
      if r.None? { return; }
      var ok := ExpectPeek(TRightParen);
      if !ok { r := None; }
    }

    method ParseArrayLiteral() returns (r: Option<Tree>)
      requires Valid() && currToken == TLeftBracket
      modifies this
      ensures Valid() && Yields(ParsePrefix(old(Rest())), r) && (r.Some? ==> errors == old(errors))
      decreases |Rest()|, 1
    {
      hide Parser.Tracks, Parser.From, Parser.At;
      var els := ParseExpressionList(TRightBracket);
      r := if els.Some? then Some(Array(els.value)) else None;
    }

    /** The infix functions. */
    method ParseInfixExpr(left: Tree) returns (r: Option<Tree>)
      requires Valid() && NextPrecedence(Rest()) > LOWEST
      modifies this
      ensures Valid() && Yields(ParseInfix(left, old(Rest())), r) && (r.Some? ==> errors == old(errors))
      decreases |Rest()|, 2
    {
      hide Parser.Tracks, Parser.From, Parser.At;
      r := None;
      match currToken
      case TOp(op) =>
        NextToken();
        r := ParseExpression(OpPrecedence(op));
        if r.Some? { r := Some(Binary(op, left, r.value)); }
      case TLeftParen =>
        var args := ParseExpressionList(TRightParen);
        if args.Some? { r := Some(Call(left, args.value)); }
      case TLeftBracket =>
        NextToken();
        var i := ParseExpression(LOWEST);
        if i.Some? {
          var ok := ExpectPeek(TRightBracket);
          if ok { r := Some(Index(left, i.value)); }
        }
    }

    method ParseExpressionList(end: Token) returns (r: Option<Trees>)
      requires Valid() && Rest() != [] && (end == TRightParen || end == TRightBracket)
      modifies this
      ensures Valid() && Yields(ParseList(old(Rest())[1..], end), r) && (r.Some? ==> errors == old(errors))
      decreases |Rest()|, 0
    {
      hide Parser.Tracks, Parser.From, Parser.At;
      if peekToken == end {
        NextToken();
        return Some(Nil);
      }
      NextToken();
      var list := ParseItemList();
      if list.None? { return None; }
      var ok := ExpectPeek(end);
      r := if ok then list else None;
    }

    /** One item, and more while commas follow. */
    method ParseItemList() returns (r: Option<Trees>)
      requires Valid()
      modifies this
      ensures Valid() && Yields(ParseItems(old(Rest())), r) && (r.Some? ==> errors == old(errors))
      decreases |Rest()|, 4
    {
      hide Parser.Tracks, Parser.From, Parser.At, ParseExpr, ParseItems;
      ghost var start := Rest();
      FrontMore([], start);
      var e := ParseExpression(LOWEST);
      if e.None? { return None; }
      var list := [e.value];
      assert [] + list == list;
      while peekToken == TComma
        invariant Valid() && |Ahead()| < |start| && errors == old(errors)
        invariant ParseItems(start) == Front(list, MoreItems(Ahead()))
        decreases |Ahead()|
      {
        NextToken();
        NextToken();
        FrontMore(list, Rest());
        e := ParseExpression(LOWEST);
        if e.None? { return None; }
        list := list + [e.value];
      }
      r := Some(Prepend(list, Nil));
    }
  }

  lemma {:induction false} NoEof(e: Tree)
    ensures TEof !in Print(e)
    decreases e, 0
  {
    match e
    case Unary(_, r) => NoEof(r);
    case Binary(_, l, r) =>
      NoEof(l);
      NoEof(r);
    case Call(f, args) =>
      NoEof(f);
      NoEofs(args);
    case Array(els) => NoEofs(els);
    case Index(l, i) =>
      NoEof(l);
      NoEof(i);
    case _ =>
  }

  lemma {:induction false} NoEofs(es: Trees)
    ensures TEof !in PrintList(es)
    decreases es, 1
  {
    if es.Cons? {
      NoEof(es.head);
      NoEofs(es.tail);
    }
  }

  /** A parser on the tokens of a printed tree returns that tree without error and has
      consumed them all. */
  method ParsePrinted(e: Tree) returns (r: Option<Tree>, p: Parser)
    requires Literal(e)
    ensures r == Some(e) && p.errors == [] && p.peekToken == TEof
  {
    NoEof(e);
    p := new Parser(Print(e));
    assert Print(e) + [] == Print(e);
    PrintThenParse(e, []);
    r := p.ParseExpression(LOWEST);
  }
}
