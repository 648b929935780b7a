/** Tokens, expression trees, the fully parenthesising printer (ast/ast.go) and the operator
    precedence parser as a function (parser/parser.go). */
module Syntax {
  import opened Language

  datatype Token =
    | TIdent(name: string)
    | TNumber(n: nat)
    | TTrue
    | TFalse
    | TOp(op: InfixOp)
    | TBang
    | TLeftParen
    | TRightParen
    | TLeftBracket
    | TRightBracket
    | TComma
    | TSemicolon
    | TEof
    | TOther

  datatype Tree =
    | Name(name: string)
    | Number(n: nat)
    | Truth(b: bool)
    | Unary(pop: PrefixOp, right: Tree)
    | Binary(op: InfixOp, left: Tree, rhs: Tree)
    | Call(function_: Tree, arguments: Trees)
    | Array(elements: Trees)
    | Index(collection: Tree, index: Tree)

  datatype Trees = Nil | Cons(head: Tree, tail: Trees)

  // ---------- precedences ----------

  const LOWEST: nat := 1
  const ANDOR: nat := 2
  const EQUALS: nat := 3
  const LESSGREATEREQUAL: nat := 4
  const LESSGREATER: nat := 5
  const SUM: nat := 6
  const PRODUCT: nat := 7
  const PREFIX: nat := 9
  const CALL: nat := 10
  const INDEX: nat := 11

  function OpPrecedence(op: InfixOp): nat
  {
    match op
    case And => ANDOR
    case Or => ANDOR
    case Eq => EQUALS
    case Ne => EQUALS
    case Lt => LESSGREATER
    case Gt => LESSGREATER
    case Ge => LESSGREATEREQUAL
    case Le => LESSGREATEREQUAL
    case Add => SUM
    case Sub => SUM
    case Div => PRODUCT
    case Mul => PRODUCT
    case Mod => PRODUCT
  }

  function Precedence(t: Token): nat
  {
    match t
    case TOp(op) => OpPrecedence(op)
    case TLeftParen => CALL
    case TLeftBracket => INDEX
    case _ => LOWEST
  }

  /** The precedence of the token that follows. */
  function NextPrecedence(ts: seq<Token>): nat { if ts == [] then LOWEST else Precedence(ts[0]) }

  // ---------- printing ----------

  function PrefixToken(op: PrefixOp): Token { match op case Not => TBang case Neg => TOp(Sub) }

  /** The tokens of `String()`. */
  function Print(e: Tree): (ts: seq<Token>)
    ensures ts != []
  {
    match e
    case Name(x) => [TIdent(x)]
    case Number(n) => [TNumber(n)]
    case Truth(b) => [if b then TTrue else TFalse]
    case Unary(op, r) => [TLeftParen, PrefixToken(op)] + Print(r) + [TRightParen]
    case Binary(op, l, r) => [TLeftParen] + Print(l) + [TOp(op)] + Print(r) + [TRightParen]
    case Call(f, args) => Print(f) + [TLeftParen] + PrintList(args) + [TRightParen]
    case Array(els) => [TLeftBracket] + PrintList(els) + [TRightBracket]
    case Index(l, i) => [TLeftParen] + Print(l) + [TLeftBracket] + Print(i) + [TRightBracket, TRightParen]
  }

  /** Separated by commas. */
  function PrintList(es: Trees): seq<Token>
  {
    match es
    case Nil => []
    case Cons(e, Nil) => Print(e)
    case Cons(e, rest) => Print(e) + [TComma] + PrintList(rest)
  }

  // ---------- parsing ----------

  /** A tree and the tokens after it. */
  datatype Parsed<T> = Parsed(tree: T, rest: seq<Token>) | Failed

  const MAX_INT: nat := 0x7fff_ffff_ffff_ffff

  /** The prefix functions: what can begin an expression. */
  function ParsePrefix(ts: seq<Token>): (r: Parsed<Tree>)
    ensures r.Parsed? ==> |r.rest| < |ts|
    decreases |ts|, 0
  {
    if ts == [] then Failed else
    match ts[0]
    case TIdent(x) => Parsed(Name(x), ts[1..])
    case TNumber(n) => if n > MAX_INT then Failed else Parsed(Number(n), ts[1..])
    case TTrue => Parsed(Truth(true), ts[1..])
    case TFalse => Parsed(Truth(false), ts[1..])
    case TBang => Under(Not, ParseExpr(ts[1..], PREFIX))
    case TOp(op) => if op == Sub then Under(Neg, ParseExpr(ts[1..], PREFIX)) else Failed
    case TLeftParen => Expect(ParseExpr(ts[1..], LOWEST), TRightParen)
    case TLeftBracket => AsArray(ParseList(ts[1..], TRightBracket))
    case _ => Failed
  }

  function Under(op: PrefixOp, r: Parsed<Tree>): Parsed<Tree>
  {
    if r.Failed? then Failed else Parsed(Unary(op, r.tree), r.rest)
  }

  function AsArray(r: Parsed<Trees>): Parsed<Tree>
  {
    if r.Failed? then Failed else Parsed(Array(r.tree), r.rest)
  }

  /** expectPeek */
  function Expect<T>(r: Parsed<T>, t: Token): Parsed<T>
  {
    if r.Parsed? && r.rest != [] && r.rest[0] == t then Parsed(r.tree, r.rest[1..]) else Failed
  }

  /** parseExpression: a prefix, then infix operators that bind tighter than `p`. */
  function ParseExpr(ts: seq<Token>, p: nat): (r: Parsed<Tree>)
    ensures r.Parsed? ==> |r.rest| < |ts|
    decreases |ts|, 2
  {
    var l := ParsePrefix(ts);
    if l.Failed? then Failed else ParseMore(l.tree, l.rest, p)
  }

  /** The loop of parseExpression. */
  function ParseMore(left: Tree, ts: seq<Token>, p: nat): (r: Parsed<Tree>)
    ensures r.Parsed? ==> |r.rest| <= |ts|
    decreases |ts|, 1
  {
    if p >= NextPrecedence(ts) || NextPrecedence(ts) == LOWEST then Parsed(left, ts)
    else
      var l := ParseInfix(left, ts);
      if l.Failed? then Failed else ParseMore(l.tree, l.rest, p)
  }

  /** The infix functions: an operator and its right operand, a call, or an index. */
  function ParseInfix(left: Tree, ts: seq<Token>): (r: Parsed<Tree>)
    requires NextPrecedence(ts) > LOWEST
    ensures r.Parsed? ==> |r.rest| < |ts|
    decreases |ts|, 0
  {
    match ts[0]
    case TOp(op) =>
      var r := ParseExpr(ts[1..], OpPrecedence(op));
      if r.Failed? then Failed else Parsed(Binary(op, left, r.tree), r.rest)
    case TLeftParen =>
      var r := ParseList(ts[1..], TRightParen);
      if r.Failed? then Failed else Parsed(Call(left, r.tree), r.rest)
    case TLeftBracket =>
      var r := Expect(ParseExpr(ts[1..], LOWEST), TRightBracket);
      if r.Failed? then Failed else Parsed(Index(left, r.tree), r.rest)
    case _ => Failed
  }

  /** parseExpressionList, after the opening token. */
  function ParseList(ts: seq<Token>, end: Token): (r: Parsed<Trees>)
    ensures r.Parsed? ==> |r.rest| < |ts|
    decreases |ts|, 4
  {
    if ts != [] && ts[0] == end then Parsed(Nil, ts[1..]) else Expect(ParseItems(ts), end)
  }

  function ParseItems(ts: seq<Token>): (r: Parsed<Trees>)
    ensures r.Parsed? ==> |r.rest| < |ts|
    decreases |ts|, 3
  {
    var e := ParseExpr(ts, LOWEST);
    if e.Failed? then Failed
    else if e.rest != [] && e.rest[0] == TComma then
      var more := ParseItems(e.rest[1..]);
      if more.Failed? then Failed else Parsed(Cons(e.tree, more.tree), more.rest)
    else Parsed(Cons(e.tree, Nil), e.rest)
  }
}
