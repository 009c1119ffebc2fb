// The parser of lexer_parser_unified.mjs (`LogicalParser`): a cursor
// `current` over the token list the unified lexer's `tokenize` produced,
// building the syntax tree of `Ast` for shape, fillet, if, for, layer and
// transform blocks, with one precedence level for `+ - * /`.

module UnifiedParser {
  import opened Common
  import opened Tokens
  import opened Ast
  import UnifiedLexer

  /** `error(message)` throws with the current token; `Stuck` stands for a block loop that spins for ever on it. */
  datatype ParseError =
    | Expected(expected: Kind, got: Token)
    | UnexpectedStatement(got: Token)
    | UnexpectedLayerCommand(got: Token)
    | ExpectedPropertyName(got: Token)
    | UnexpectedInExpression(got: Token)
    | Stuck(got: Token)
    | LexFailed(error: UnifiedLexer.LexError)

  /** What `tokenize` hands the parser: a list ending in its only EOF. */
  predicate Stream(ts: seq<Token>)
  {
    |ts| > 0 && ts[|ts| - 1].kind == Eof && UnifiedLexer.NoEofBeforeLast(ts)
  }

  /** `current` indexes a token: the EOF is never eaten, so `currentToken()` is always defined. */
  predicate Ready(ts: seq<Token>, i: nat)
  {
    Stream(ts) && i < |ts|
  }

  /** `current++` past a token that is not the EOF. */
  function Next(ts: seq<Token>, i: nat): (r: nat)
    requires Ready(ts, i) && ts[i].kind != Eof
    ensures Ready(ts, r) && r == i + 1
  {
    i + 1
  }

  /** `eat(type)`: the current token must have the type; then `current` moves past it. */
  function Eaten(ts: seq<Token>, i: nat, k: Kind): (r: Result<nat, ParseError>)
    requires Ready(ts, i) && k != Eof
    ensures r.Ok? <==> ts[i].kind == k
    ensures r.Ok? ==> Ready(ts, r.value) && r.value == i + 1
    ensures r.Err? ==> r.error == Expected(k, ts[i])
  {
    if ts[i].kind == k then Ok(Next(ts, i)) else Err(Expected(k, ts[i]))
  }

  /** `if (currentToken().type === 'NEWLINE') eat('NEWLINE')`. */
  function PastNewline(ts: seq<Token>, i: nat): (r: nat)
    requires Ready(ts, i)
    ensures Ready(ts, r) && i <= r <= i + 1
    ensures r == i <==> ts[i].kind != Newline
  {
    if ts[i].kind == Newline then Next(ts, i) else i
  }

  // ---- operator names ------------------------------------------------------

  /** The `comparisonOps` table: a comparison token type and its operator text. */
  function ComparisonOperator(k: Kind): (r: Option<string>)
    ensures r.Some? <==> k == Equals || k == NotEquals || k == GreaterThan || k == LessThan || k == GreaterEquals || k == LessEquals
    ensures r.Some? ==> ComparisonText(r.value)
  {
    if k == Equals then Some("==")
    else if k == NotEquals then Some("!=")
    else if k == GreaterThan then Some(">")
    else if k == LessThan then Some("<")
    else if k == GreaterEquals then Some(">=")
    else if k == LessEquals then Some("<=")
    else None
  }

  predicate IsArithmetic(k: Kind) { k == Plus || k == Minus || k == Multiply || k == Divide }

  /** `operatorToken.type.toLowerCase()` for the four arithmetic types. */
  function ArithmeticName(k: Kind): string
    requires IsArithmetic(k)
  {
    if k == Plus then "plus" else if k == Minus then "minus" else if k == Multiply then "multiply" else "divide"
  }

  predicate ArithmeticOperator(op: string) { op == "plus" || op == "minus" || op == "multiply" || op == "divide" }

  predicate ComparisonText(op: string) { op == "==" || op == "!=" || op == ">" || op == "<" || op == ">=" || op == "<=" }

  // ---- the shape of expression trees -----------------------------------------
  // Without parentheses: logic < comparison < arithmetic < a basic
  // expression, every chain folding to the left, and `+ - * /` on one level.

  /** What `parseBasicExpression` builds when no parenthesis is involved. */
  predicate Basic(e: Expr)
    decreases e, 0
  {
    match e
    case NumberLit(_) => true
    case StringLit(_) => true
    case BooleanLit(_) => true
    case Ident(_) => true
    case PropertyAccess(_, _) => true
    case ArrayLit(es) => forall k :: 0 <= k < |es| ==> LogicShaped(es[k])
    case UnaryOp(op, operand) => (op == "not" || op == "minus") && Basic(operand)
    case LogicalOp(_, _, _) => false
    case ComparisonOp(_, _, _) => false
    case BinaryOp(_, _, _) => false
    case RawString(_) => false
  }

  /** A left-folded chain of basic expressions under `+ - * /`. */
  predicate ArithmeticShaped(e: Expr)
    decreases e, 1
  {
    Basic(e) || (e.BinaryOp? && ArithmeticOperator(e.operator) && ArithmeticShaped(e.left) && Basic(e.right))
  }

  /** A left-folded chain of arithmetic expressions under comparison operators. */
  predicate ComparisonShaped(e: Expr)
    decreases e, 2
  {
    ArithmeticShaped(e) ||
    (e.ComparisonOp? && ComparisonText(e.operator) && ComparisonShaped(e.left) && ArithmeticShaped(e.right))
  }

  /** A left-folded chain of comparisons under `and` and `or`, which share one level. */
  predicate LogicShaped(e: Expr)
    decreases e, 3
  {
    ComparisonShaped(e) ||
    (e.LogicalOp? && (e.operator == "and" || e.operator == "or") && LogicShaped(e.left) && ComparisonShaped(e.right))
  }

  /** The tokens from `i` up to `j` hold no NEWLINE, INDENT or DEDENT: they lie on one logical line. */
  predicate OneLine(ts: seq<Token>, i: nat, j: nat)
    requires j <= |ts|
  {
    forall k :: i <= k < j ==> ts[k].kind != Newline && ts[k].kind != Indent && ts[k].kind != Dedent
  }

  /** No parenthesis from `i` on. */
  predicate ParenFree(ts: seq<Token>, i: nat)
  {
    forall k :: i <= k < |ts| ==> ts[k].kind != LParen
  }

  // ---- expressions -----------------------------------------------------------

  /** `parseExpression`, which is `parseLogicalExpression`: comparisons joined by `and`/`or`, folded to the left. */
  function LogicalExpression(ts: seq<Token>, i: nat): (r: Result<(Expr, nat), ParseError>)
    requires Ready(ts, i)
    ensures r.Ok? ==> Ready(ts, r.value.1) && i < r.value.1
    ensures r.Ok? ==> ts[r.value.1].kind != And && ts[r.value.1].kind != Or
    ensures r.Ok? && ParenFree(ts, i) ==> LogicShaped(r.value.0)
    decreases |ts| - i, 11
  {
    var left :- ComparisonExpression(ts, i);
    LogicalTail(ts, left.0, left.1)
  }

  function LogicalTail(ts: seq<Token>, e: Expr, i: nat): (r: Result<(Expr, nat), ParseError>)
    requires Ready(ts, i)
    ensures r.Ok? ==> Ready(ts, r.value.1) && i <= r.value.1
    ensures r.Ok? ==> ts[r.value.1].kind != And && ts[r.value.1].kind != Or
    ensures r.Ok? && ParenFree(ts, i) && LogicShaped(e) ==> LogicShaped(r.value.0)
    decreases |ts| - i, 10
  {
    var k := ts[i].kind;
    if k == And || k == Or then
      var right :- ComparisonExpression(ts, Next(ts, i));
      LogicalTail(ts, LogicalOp(if k == And then "and" else "or", e, right.0), right.1)
    else Ok((e, i))
  }

  /** `parseComparisonExpression`: arithmetic expressions joined by comparison operators, folded to the left. */
  function ComparisonExpression(ts: seq<Token>, i: nat): (r: Result<(Expr, nat), ParseError>)
    requires Ready(ts, i)
    ensures r.Ok? ==> Ready(ts, r.value.1) && i < r.value.1
    ensures r.Ok? ==> ComparisonOperator(ts[r.value.1].kind).None?
    ensures r.Ok? && ParenFree(ts, i) ==> ComparisonShaped(r.value.0)
    decreases |ts| - i, 9
  {
    var left :- ArithmeticExpression(ts, i);
    ComparisonTail(ts, left.0, left.1)
  }

  function ComparisonTail(ts: seq<Token>, e: Expr, i: nat): (r: Result<(Expr, nat), ParseError>)
    requires Ready(ts, i)
    ensures r.Ok? ==> Ready(ts, r.value.1) && i <= r.value.1
    ensures r.Ok? ==> ComparisonOperator(ts[r.value.1].kind).None?
    ensures r.Ok? && ParenFree(ts, i) && ComparisonShaped(e) ==> ComparisonShaped(r.value.0)
    decreases |ts| - i, 8
  {
    var op := ComparisonOperator(ts[i].kind);
    if op.Some? then
      var right :- ArithmeticExpression(ts, Next(ts, i));
      ComparisonTail(ts, ComparisonOp(op.value, e, right.0), right.1)
    else Ok((e, i))
  }

  /** `parseArithmeticExpression`: basic expressions joined by `+ - * /`, all on one level, folded to the left. */
  function ArithmeticExpression(ts: seq<Token>, i: nat): (r: Result<(Expr, nat), ParseError>)
    requires Ready(ts, i)
    ensures r.Ok? ==> Ready(ts, r.value.1) && i < r.value.1
    ensures r.Ok? ==> !IsArithmetic(ts[r.value.1].kind)
    ensures r.Ok? && ParenFree(ts, i) ==> ArithmeticShaped(r.value.0)
    decreases |ts| - i, 7
  {
    var left :- BasicExpression(ts, i);
    ArithmeticTail(ts, left.0, left.1)
  }

  function ArithmeticTail(ts: seq<Token>, e: Expr, i: nat): (r: Result<(Expr, nat), ParseError>)
    requires Ready(ts, i)
    ensures r.Ok? ==> Ready(ts, r.value.1) && i <= r.value.1
    ensures r.Ok? ==> !IsArithmetic(ts[r.value.1].kind)
    ensures r.Ok? && ParenFree(ts, i) && ArithmeticShaped(e) ==> ArithmeticShaped(r.value.0)
    decreases |ts| - i, 6
  {
    var k := ts[i].kind;
    if IsArithmetic(k) then
      var right :- BasicExpression(ts, Next(ts, i));
      ArithmeticTail(ts, BinaryOp(ArithmeticName(k), e, right.0), right.1)
    else Ok((e, i))
  }

  /** The token types `parseBasicExpression` accepts. */
  predicate StartsBasic(k: Kind)
  {
    k == Not || k == Minus || k == Number || k == Boolean || k == String ||
    k == Identifier || k == ShapeType || k == LParen || k == LBracket
  }

  /**
   * `parseBasicExpression`: `not` or `-` before one basic expression, a
   * number, a boolean, a string, a name or `name.property`, a parenthesised
   * expression, or an array; anything else is an error.
   */
  function BasicExpression(ts: seq<Token>, i: nat): (r: Result<(Expr, nat), ParseError>)
    requires Ready(ts, i)
    ensures r.Ok? ==> Ready(ts, r.value.1) && i < r.value.1
    ensures r.Ok? && ParenFree(ts, i) ==> Basic(r.value.0)
    ensures !StartsBasic(ts[i].kind) ==> r == Err(UnexpectedInExpression(ts[i]))
    decreases |ts| - i, 2
  {
    var token := ts[i];
    var k := token.kind;
    if k == Not || k == Minus then
      var operand :- BasicExpression(ts, Next(ts, i));
      Ok((UnaryOp(if k == Not then "not" else "minus", operand.0), operand.1))
    else if k == Number then Ok((NumberLit(NumOf(token)), Next(ts, i)))
    else if k == Boolean then Ok((BooleanLit(TextOf(token) == "true"), Next(ts, i)))
    else if k == String then Ok((StringLit(TextOf(token)), Next(ts, i)))
    else if k == Identifier || k == ShapeType then NameOrAccess(ts, Next(ts, i), TextOf(token))
    else if k == LParen then Parenthesized(ts, i)
    else if k == LBracket then ArrayLiteral(ts, i)
    else Err(UnexpectedInExpression(token))
  }

  /** `(`, an expression, `)`: the expression itself, with no node of its own. */
  function Parenthesized(ts: seq<Token>, i: nat): (r: Result<(Expr, nat), ParseError>)
    requires Ready(ts, i) && ts[i].kind == LParen
    ensures r.Ok? ==> Ready(ts, r.value.1) && i < r.value.1
    decreases |ts| - i, 1
  {
    var inner :- LogicalExpression(ts, Next(ts, i));
    var j :- Eaten(ts, inner.1, RParen);
    Ok((inner.0, j))
  }

  /** After a name: `.` and an IDENTIFIER or PROPERTY make a property access; otherwise the name alone. */
  function NameOrAccess(ts: seq<Token>, i: nat, name: string): (r: Result<(Expr, nat), ParseError>)
    requires Ready(ts, i)
    ensures r.Ok? ==> Ready(ts, r.value.1) && i <= r.value.1
    ensures r.Ok? ==> r.value.0 == Ident(name) || r.value.0.PropertyAccess?
    ensures ts[i].kind != Dot ==> r == Ok((Ident(name), i))
  {
    if ts[i].kind == Dot then
      var j := Next(ts, i);
      var k := ts[j].kind;
      if k != Identifier && k != Property then Err(ExpectedPropertyName(ts[j]))
      else Ok((PropertyAccess(name, TextOf(ts[j])), Next(ts, j)))
    else Ok((Ident(name), i))
  }

  /** `parseArray`: `[`, expressions separated by commas (a trailing comma is allowed), `]`. */
  function ArrayLiteral(ts: seq<Token>, i: nat): (r: Result<(Expr, nat), ParseError>)
    requires Ready(ts, i) && ts[i].kind == LBracket
    ensures r.Ok? ==> Ready(ts, r.value.1) && i < r.value.1
    ensures r.Ok? && ParenFree(ts, i) ==> Basic(r.value.0)
    decreases |ts| - i, 1
  {
    var items :- ArrayItems(ts, [], Next(ts, i));
    var j :- Eaten(ts, items.1, RBracket);
    Ok((ArrayLit(items.0), j))
  }

  /** The loop of `parseArray`: it stops before `]`, or after an element not followed by a comma. */
  function ArrayItems(ts: seq<Token>, acc: seq<Expr>, i: nat): (r: Result<(seq<Expr>, nat), ParseError>)
    requires Ready(ts, i)
    ensures r.Ok? ==> Ready(ts, r.value.1) && i <= r.value.1 && acc <= r.value.0
    ensures r.Ok? && ParenFree(ts, i) && (forall k :: 0 <= k < |acc| ==> LogicShaped(acc[k])) ==>
              forall k :: 0 <= k < |r.value.0| ==> LogicShaped(r.value.0[k])
    decreases |ts| - i, 12
  {
    if ts[i].kind == RBracket then Ok((acc, i))
    else
      var e :- LogicalExpression(ts, i);
      ArrayItemsAfter(ts, acc + [e.0], e.1)
  }

  /** After an element: a comma lets the loop go on, anything else ends it. */
  function ArrayItemsAfter(ts: seq<Token>, acc: seq<Expr>, j: nat): (r: Result<(seq<Expr>, nat), ParseError>)
    requires Ready(ts, j)
    ensures r.Ok? ==> Ready(ts, r.value.1) && j <= r.value.1 && acc <= r.value.0
    ensures r.Ok? && ParenFree(ts, j) && (forall k :: 0 <= k < |acc| ==> LogicShaped(acc[k])) ==>
              forall k :: 0 <= k < |r.value.0| ==> LogicShaped(r.value.0[k])
    decreases |ts| - j, 13
  {
    if ts[j].kind == Comma then ArrayItems(ts, acc, Next(ts, j))
    else Ok((acc, j))
  }

  // An expression never runs past the end of its line: every branch of the
  // expression chain stops at, or fails on, NEWLINE, INDENT and DEDENT.

  lemma {:induction false} LogicalOneLine(ts: seq<Token>, i: nat)
    requires Ready(ts, i)
    ensures var r := LogicalExpression(ts, i); r.Ok? ==> OneLine(ts, i, r.value.1)
    decreases |ts| - i, 11
  {
    var r := LogicalExpression(ts, i);
    var left := ComparisonExpression(ts, i);
    if left.Ok? {
      assert r == LogicalTail(ts, left.value.0, left.value.1);
      ComparisonOneLine(ts, i);
      LogicalTailOneLine(ts, left.value.0, left.value.1);
      if r.Ok? {
        OneLineJoin(ts, i, left.value.1, r.value.1);
      }
    }
  }

  lemma {:induction false} LogicalTailOneLine(ts: seq<Token>, e: Expr, i: nat)
    requires Ready(ts, i)
    ensures var r := LogicalTail(ts, e, i); r.Ok? ==> OneLine(ts, i, r.value.1)
    decreases |ts| - i, 10
  {
    var r := LogicalTail(ts, e, i);
    var k := ts[i].kind;
    if k == And || k == Or {
      var right := ComparisonExpression(ts, i + 1);
      if right.Ok? {
        var e2 := LogicalOp(if k == And then "and" else "or", e, right.value.0);
        assert r == LogicalTail(ts, e2, right.value.1);
        ComparisonOneLine(ts, i + 1);
        LogicalTailOneLine(ts, e2, right.value.1);
        if r.Ok? {
          OneLineStep(ts, i, right.value.1, r.value.1);
        }
      }
    } else {
      assert r == Ok((e, i));
    }
  }

  lemma {:induction false} ComparisonOneLine(ts: seq<Token>, i: nat)
    requires Ready(ts, i)
    ensures var r := ComparisonExpression(ts, i); r.Ok? ==> OneLine(ts, i, r.value.1)
    decreases |ts| - i, 9
  {
    var r := ComparisonExpression(ts, i);
    var left := ArithmeticExpression(ts, i);
    if left.Ok? {
      assert r == ComparisonTail(ts, left.value.0, left.value.1);
      ArithmeticOneLine(ts, i);
      ComparisonTailOneLine(ts, left.value.0, left.value.1);
      if r.Ok? {
        OneLineJoin(ts, i, left.value.1, r.value.1);
      }
    }
  }

  lemma {:induction false} ComparisonTailOneLine(ts: seq<Token>, e: Expr, i: nat)
    requires Ready(ts, i)
    ensures var r := ComparisonTail(ts, e, i); r.Ok? ==> OneLine(ts, i, r.value.1)
    decreases |ts| - i, 8
  {
    var r := ComparisonTail(ts, e, i);
    var op := ComparisonOperator(ts[i].kind);
    if op.Some? {
      var right := ArithmeticExpression(ts, i + 1);
      if right.Ok? {
        var e2 := ComparisonOp(op.value, e, right.value.0);
        assert r == ComparisonTail(ts, e2, right.value.1);
        ArithmeticOneLine(ts, i + 1);
        ComparisonTailOneLine(ts, e2, right.value.1);
        if r.Ok? {
          OneLineStep(ts, i, right.value.1, r.value.1);
        }
      }
    } else {
      assert r == Ok((e, i));
    }
  }

  lemma {:induction false} ArithmeticOneLine(ts: seq<Token>, i: nat)
    requires Ready(ts, i)
    ensures var r := ArithmeticExpression(ts, i); r.Ok? ==> OneLine(ts, i, r.value.1)
    decreases |ts| - i, 7
  {
    var r := ArithmeticExpression(ts, i);
    var left := BasicExpression(ts, i);
    if left.Ok? {
      assert r == ArithmeticTail(ts, left.value.0, left.value.1);
      BasicOneLine(ts, i);
      ArithmeticTailOneLine(ts, left.value.0, left.value.1);
      if r.Ok? {
        OneLineJoin(ts, i, left.value.1, r.value.1);
      }
    }
  }

  lemma {:induction false} ArithmeticTailOneLine(ts: seq<Token>, e: Expr, i: nat)
    requires Ready(ts, i)
    ensures var r := ArithmeticTail(ts, e, i); r.Ok? ==> OneLine(ts, i, r.value.1)
    decreases |ts| - i, 6
  {
    var r := ArithmeticTail(ts, e, i);
    var k := ts[i].kind;
    if IsArithmetic(k) {
      var right := BasicExpression(ts, i + 1);
      if right.Ok? {
        var e2 := BinaryOp(ArithmeticName(k), e, right.value.0);
        assert r == ArithmeticTail(ts, e2, right.value.1);
        BasicOneLine(ts, i + 1);
        ArithmeticTailOneLine(ts, e2, right.value.1);
        if r.Ok? {
          OneLineStep(ts, i, right.value.1, r.value.1);
        }
      }
    } else {
      assert r == Ok((e, i));
    }
  }

  lemma {:induction false} BasicOneLine(ts: seq<Token>, i: nat)
    requires Ready(ts, i)
    ensures var r := BasicExpression(ts, i); r.Ok? ==> OneLine(ts, i, r.value.1)
    decreases |ts| - i, 2
  {
    var k := ts[i].kind;
    if k == Not || k == Minus {
      UnaryOneLine(ts, i);
    } else if k == Identifier || k == ShapeType {
      NameOneLine(ts, i);
    } else if k == LParen {
      assert BasicExpression(ts, i) == Parenthesized(ts, i);
      ParenOneLine(ts, i);
    } else if k == LBracket {
      assert BasicExpression(ts, i) == ArrayLiteral(ts, i);
      ArrayOneLine(ts, i);
    } else if k == Number || k == Boolean || k == String {
      assert OneLine(ts, i, i + 1);
    }
  }

  lemma {:induction false} UnaryOneLine(ts: seq<Token>, i: nat)
    requires Ready(ts, i) && (ts[i].kind == Not || ts[i].kind == Minus)
    ensures var r := BasicExpression(ts, i); r.Ok? ==> OneLine(ts, i, r.value.1)
    decreases |ts| - i, 1
  {
    var operand := BasicExpression(ts, i + 1);
    BasicOneLine(ts, i + 1);
    if operand.Ok? {
      assert BasicExpression(ts, i).value.1 == operand.value.1;
      OneLineStep(ts, i, operand.value.1, operand.value.1);
    }
  }

  lemma NameOneLine(ts: seq<Token>, i: nat)
    requires Ready(ts, i) && (ts[i].kind == Identifier || ts[i].kind == ShapeType)
    ensures var r := BasicExpression(ts, i); r.Ok? ==> OneLine(ts, i, r.value.1)
  {
    var r := NameOrAccess(ts, i + 1, TextOf(ts[i]));
    assert BasicExpression(ts, i) == r;
    if r.Ok? {
      if ts[i + 1].kind == Dot {
        assert r.value.1 == i + 3;
        assert ts[i + 2].kind == Identifier || ts[i + 2].kind == Property;
        OneLineThree(ts, i);
      } else {
        assert r.value.1 == i + 1;
        OneLineSingle(ts, i);
      }
    }
  }

  lemma {:induction false} ParenOneLine(ts: seq<Token>, i: nat)
    requires Ready(ts, i) && ts[i].kind == LParen
    ensures var r := Parenthesized(ts, i); r.Ok? ==> OneLine(ts, i, r.value.1)
    decreases |ts| - i, 0
  {
    var r := Parenthesized(ts, i);
    var inner := LogicalExpression(ts, i + 1);
    if inner.Ok? && ts[inner.value.1].kind == RParen {
      assert r == Ok((inner.value.0, inner.value.1 + 1));
      LogicalOneLine(ts, i + 1);
      OneLineWrap(ts, i, inner.value.1);
    }
  }

  lemma {:induction false} ArrayOneLine(ts: seq<Token>, i: nat)
    requires Ready(ts, i) && ts[i].kind == LBracket
    ensures var r := ArrayLiteral(ts, i); r.Ok? ==> OneLine(ts, i, r.value.1)
    decreases |ts| - i, 1
  {
    var r := ArrayLiteral(ts, i);
    var items := ArrayItems(ts, [], i + 1);
    if items.Ok? && ts[items.value.1].kind == RBracket {
      assert r == Ok((ArrayLit(items.value.0), items.value.1 + 1));
      ArrayItemsOneLine(ts, [], i + 1);
      OneLineWrap(ts, i, items.value.1);
    }
  }

  lemma {:induction false} ArrayItemsOneLine(ts: seq<Token>, acc: seq<Expr>, i: nat)
    requires Ready(ts, i)
    ensures var r := ArrayItems(ts, acc, i); r.Ok? ==> OneLine(ts, i, r.value.1)
    decreases |ts| - i, 12
  {
    var r := ArrayItems(ts, acc, i);
    if ts[i].kind != RBracket {
      var e := LogicalExpression(ts, i);
      if e.Ok? {
        assert r == ArrayItemsAfter(ts, acc + [e.value.0], e.value.1);
        LogicalOneLine(ts, i);
        ArrayItemsAfterOneLine(ts, acc + [e.value.0], i, e.value.1);
      }
    } else {
      assert r == Ok((acc, i));
    }
  }

  lemma {:induction false} ArrayItemsAfterOneLine(ts: seq<Token>, acc: seq<Expr>, i: nat, j: nat)
    requires Ready(ts, j) && i <= j && OneLine(ts, i, j)
    ensures var r := ArrayItemsAfter(ts, acc, j); r.Ok? ==> OneLine(ts, i, r.value.1)
    decreases |ts| - j, 13
  {
    var r := ArrayItemsAfter(ts, acc, j);
    if ts[j].kind == Comma {
      var rest := ArrayItems(ts, acc, j + 1);
      assert r == rest;
      ArrayItemsOneLine(ts, acc, j + 1);
      if rest.Ok? {
        OneLineAcross(ts, i, j, rest.value.1);
      }
    } else {
      assert r == Ok((acc, j));
    }
  }

  /** A single token that is not a line break is one line. */
  lemma OneLineSingle(ts: seq<Token>, i: nat)
    requires i < |ts| && ts[i].kind != Newline && ts[i].kind != Indent && ts[i].kind != Dedent
    ensures OneLine(ts, i, i + 1)
  {
  }

  /** Three tokens that are not line breaks are one line. */
  lemma OneLineThree(ts: seq<Token>, i: nat)
    requires i + 3 <= |ts|
    requires ts[i].kind != Newline && ts[i].kind != Indent && ts[i].kind != Dedent
    requires ts[i + 1].kind != Newline && ts[i + 1].kind != Indent && ts[i + 1].kind != Dedent
    requires ts[i + 2].kind != Newline && ts[i + 2].kind != Indent && ts[i + 2].kind != Dedent
    ensures OneLine(ts, i, i + 3)
  {
  }

  /** A token that is not a line break, then a one-line run: one line. */
  lemma OneLineStep(ts: seq<Token>, i: nat, j: nat, k: nat)
    requires i < j <= k <= |ts| && i < |ts|
    requires ts[i].kind != Newline && ts[i].kind != Indent && ts[i].kind != Dedent
    requires OneLine(ts, i + 1, j) && OneLine(ts, j, k)
    ensures OneLine(ts, i, k)
  {
  }

  /** A one-line run, a token that is not a line break, and another one-line run: one line. */
  lemma OneLineAcross(ts: seq<Token>, i: nat, j: nat, k: nat)
    requires i <= j < k <= |ts|
    requires ts[j].kind != Newline && ts[j].kind != Indent && ts[j].kind != Dedent
    requires OneLine(ts, i, j) && OneLine(ts, j + 1, k)
    ensures OneLine(ts, i, k)
  {
  }

  /** A one-line run between two tokens that are not line breaks is one line with them. */
  lemma OneLineWrap(ts: seq<Token>, i: nat, j: nat)
    requires i < j < |ts| && OneLine(ts, i + 1, j)
    requires ts[i].kind != Newline && ts[i].kind != Indent && ts[i].kind != Dedent
    requires ts[j].kind != Newline && ts[j].kind != Indent && ts[j].kind != Dedent
    ensures OneLine(ts, i, j + 1)
  {
  }

  lemma OneLineJoin(ts: seq<Token>, i: nat, j: nat, k: nat)
    requires i <= j <= k <= |ts| && OneLine(ts, i, j) && OneLine(ts, j, k)
    ensures OneLine(ts, i, k)
  {
  }

  // ---- precedence on token lists of a fixed shape ----------------------------
  // Each lemma takes any token list of five operand/operator tokens and the
  // EOF, so it holds whatever the names and numbers are.

  /** The kinds of the five tokens before the EOF. */
  predicate Shaped(ts: seq<Token>, k0: Kind, k1: Kind, k2: Kind, k3: Kind, k4: Kind)
  {
    |ts| == 6 && Stream(ts) &&
    ts[0].kind == k0 && ts[1].kind == k1 && ts[2].kind == k2 && ts[3].kind == k3 && ts[4].kind == k4
  }

  /** `2 + 3 * 4` is `(2 + 3) * 4`: the four arithmetic operators share one level and fold to the left. */
  lemma ArithmeticIsOneLevel(ts: seq<Token>)
    requires Shaped(ts, Number, Plus, Number, Multiply, Number)
    ensures LogicalExpression(ts, 0) ==
            Ok((BinaryOp("multiply", BinaryOp("plus", NumberLit(NumOf(ts[0])), NumberLit(NumOf(ts[2]))), NumberLit(NumOf(ts[4]))), 5))
  {
    var n0, n2, n4 := NumberLit(NumOf(ts[0])), NumberLit(NumOf(ts[2])), NumberLit(NumOf(ts[4]));
    var sum := BinaryOp("plus", n0, n2);
    var product := BinaryOp("multiply", sum, n4);
    NumberAlone(ts, 0);
    NumberAlone(ts, 2);
    NumberAlone(ts, 4);
    EndOfExpression(ts, product, 5);
    ArithmeticStep(ts, sum, 3, n4, 5);
    ArithmeticStep(ts, n0, 1, n2, 3);
    assert ArithmeticExpression(ts, 0) == Ok((product, 5));
    ComparisonAlone(ts, 0, product, 5);
    LogicalStart(ts, 0, product, 5);
  }

  /** `a < b < c` is `(a < b) < c`: comparisons chain and fold to the left. */
  lemma ComparisonsChainLeft(ts: seq<Token>)
    requires Shaped(ts, Identifier, LessThan, Identifier, LessThan, Identifier)
    ensures var a, b, c := Ident(TextOf(ts[0])), Ident(TextOf(ts[2])), Ident(TextOf(ts[4]));
            LogicalExpression(ts, 0) == Ok((ComparisonOp("<", ComparisonOp("<", a, b), c), 5))
  {
    var a, b, c := Ident(TextOf(ts[0])), Ident(TextOf(ts[2])), Ident(TextOf(ts[4]));
    var ab := ComparisonOp("<", a, b);
    var abc := ComparisonOp("<", ab, c);
    NameAlone(ts, 0);
    ComparisonStart(ts, 0, a, 1);
    NameAlone(ts, 2);
    ComparisonStep(ts, a, 1, "<", b, 3);
    NameAlone(ts, 4);
    ComparisonStep(ts, ab, 3, "<", c, 5);
    EndOfExpression(ts, abc, 5);
    assert ComparisonExpression(ts, 0) == Ok((abc, 5));
    LogicalStart(ts, 0, abc, 5);
  }

  /** `a or b and c` is `(a or b) and c`: `and` and `or` share one level and fold to the left. */
  lemma LogicIsOneLevel(ts: seq<Token>)
    requires Shaped(ts, Identifier, Or, Identifier, And, Identifier)
    ensures var a, b, c := Ident(TextOf(ts[0])), Ident(TextOf(ts[2])), Ident(TextOf(ts[4]));
            LogicalExpression(ts, 0) == Ok((LogicalOp("and", LogicalOp("or", a, b), c), 5))
  {
    var a, b, c := Ident(TextOf(ts[0])), Ident(TextOf(ts[2])), Ident(TextOf(ts[4]));
    var ab := LogicalOp("or", a, b);
    var abc := LogicalOp("and", ab, c);
    NameAlone(ts, 0);
    ComparisonAlone(ts, 0, a, 1);
    NameAlone(ts, 2);
    ComparisonAlone(ts, 2, b, 3);
    NameAlone(ts, 4);
    ComparisonAlone(ts, 4, c, 5);
    EndOfExpression(ts, abc, 5);
    LogicalStep(ts, ab, 3, c, 5);
    LogicalStep(ts, a, 1, b, 3);
    LogicalStart(ts, 0, a, 1);
  }

  /** `a and b < c` is `a and (b < c)`: a comparison binds tighter than `and`. */
  lemma ComparisonBindsTighter(ts: seq<Token>)
    requires Shaped(ts, Identifier, And, Identifier, LessThan, Identifier)
    ensures var a, b, c := Ident(TextOf(ts[0])), Ident(TextOf(ts[2])), Ident(TextOf(ts[4]));
            LogicalExpression(ts, 0) == Ok((LogicalOp("and", a, ComparisonOp("<", b, c)), 5))
  {
    var a, b, c := Ident(TextOf(ts[0])), Ident(TextOf(ts[2])), Ident(TextOf(ts[4]));
    var bc := ComparisonOp("<", b, c);
    var abc := LogicalOp("and", a, bc);
    NameAlone(ts, 0);
    ComparisonAlone(ts, 0, a, 1);
    LastComparison(ts);
    EndOfExpression(ts, abc, 5);
    LogicalStep(ts, a, 1, bc, 5);
    LogicalStart(ts, 0, a, 1);
  }

  /** The `b < c` that ends a five-token list is one comparison. */
  lemma LastComparison(ts: seq<Token>)
    requires |ts| == 6 && Stream(ts) && ts[2].kind == Identifier && ts[3].kind == LessThan && ts[4].kind == Identifier
    ensures ComparisonExpression(ts, 2) == Ok((ComparisonOp("<", Ident(TextOf(ts[2])), Ident(TextOf(ts[4]))), 5))
  {
    var b, c := Ident(TextOf(ts[2])), Ident(TextOf(ts[4]));
    var bc := ComparisonOp("<", b, c);
    NameAlone(ts, 2);
    ComparisonStart(ts, 2, b, 3);
    NameAlone(ts, 4);
    ComparisonStep(ts, b, 3, "<", c, 5);
    EndOfExpression(ts, bc, 5);
  }

  /** At the EOF every operator loop stops. */
  lemma EndOfExpression(ts: seq<Token>, e: Expr, i: nat)
    requires Ready(ts, i) && ts[i].kind == Eof
    ensures ArithmeticTail(ts, e, i) == Ok((e, i))
    ensures ComparisonTail(ts, e, i) == Ok((e, i))
    ensures LogicalTail(ts, e, i) == Ok((e, i))
  {
  }

  /** A name not followed by `.` or an arithmetic operator is an arithmetic expression on its own. */
  lemma NameAlone(ts: seq<Token>, i: nat)
    requires Ready(ts, i + 1) && ts[i].kind == Identifier
    requires ts[i + 1].kind != Dot && !IsArithmetic(ts[i + 1].kind)
    ensures ArithmeticExpression(ts, i) == Ok((Ident(TextOf(ts[i])), i + 1))
  {
    var e, j: nat := Ident(TextOf(ts[i])), i + 1;
    assert BasicExpression(ts, i) == NameOrAccess(ts, j, TextOf(ts[i]));
    assert ArithmeticTail(ts, e, j) == Ok((e, j));
  }

  /** A number is a basic expression on its own. */
  lemma NumberAlone(ts: seq<Token>, i: nat)
    requires Ready(ts, i + 1) && ts[i].kind == Number
    ensures BasicExpression(ts, i) == Ok((NumberLit(NumOf(ts[i])), i + 1))
  {
  }

  /** An arithmetic expression not followed by a comparison operator is a comparison expression on its own. */
  lemma ComparisonAlone(ts: seq<Token>, i: nat, e: Expr, j: nat)
    requires Ready(ts, i) && ArithmeticExpression(ts, i) == Ok((e, j))
    requires Ready(ts, j) && ComparisonOperator(ts[j].kind).None?
    ensures ComparisonExpression(ts, i) == Ok((e, j))
  {
    ComparisonStart(ts, i, e, j);
    assert ComparisonTail(ts, e, j) == Ok((e, j));
  }

  /** The comparison loop starts after the first arithmetic expression. */
  lemma ComparisonStart(ts: seq<Token>, i: nat, e: Expr, j: nat)
    requires Ready(ts, i) && ArithmeticExpression(ts, i) == Ok((e, j))
    ensures ComparisonExpression(ts, i) == ComparisonTail(ts, e, j)
  {
  }

  /** The `and`/`or` loop starts after the first comparison expression. */
  lemma LogicalStart(ts: seq<Token>, i: nat, e: Expr, j: nat)
    requires Ready(ts, i) && ComparisonExpression(ts, i) == Ok((e, j))
    ensures LogicalExpression(ts, i) == LogicalTail(ts, e, j)
  {
  }

  /** One round of the arithmetic loop. */
  lemma ArithmeticStep(ts: seq<Token>, e: Expr, i: nat, right: Expr, j: nat)
    requires Ready(ts, i + 1) && IsArithmetic(ts[i].kind) && BasicExpression(ts, i + 1) == Ok((right, j))
    ensures ArithmeticTail(ts, e, i) == ArithmeticTail(ts, BinaryOp(ArithmeticName(ts[i].kind), e, right), j)
  {
  }

  /** One round of the comparison loop. */
  lemma ComparisonStep(ts: seq<Token>, e: Expr, i: nat, op: string, right: Expr, j: nat)
    requires Ready(ts, i + 1) && ComparisonOperator(ts[i].kind) == Some(op)
    requires ArithmeticExpression(ts, i + 1) == Ok((right, j))
    ensures ComparisonTail(ts, e, i) == ComparisonTail(ts, ComparisonOp(op, e, right), j)
  {
  }

  /** One round of the `and`/`or` loop. */
  lemma LogicalStep(ts: seq<Token>, e: Expr, i: nat, right: Expr, j: nat)
    requires Ready(ts, i + 1) && (ts[i].kind == And || ts[i].kind == Or)
    requires ComparisonExpression(ts, i + 1) == Ok((right, j))
    ensures LogicalTail(ts, e, i) == LogicalTail(ts, LogicalOp(if ts[i].kind == And then "and" else "or", e, right), j)
  {
  }

  // ---- statements ------------------------------------------------------------

  /** `parseProperty`: `name: expression`, except that `shaft_type:` takes a SHAFT_TYPE word as a bare string. */
  function PropertyPair(ts: seq<Token>, i: nat): (r: Result<((string, Expr), nat), ParseError>)
    requires Ready(ts, i)
    ensures r.Ok? ==> Ready(ts, r.value.1) && i < r.value.1 && r.value.0.0 == TextOf(ts[i])
    ensures ts[i].kind != Property ==> r == Err(Expected(Property, ts[i]))
    decreases |ts| - i, 21
  {
    var j :- Eaten(ts, i, Property);
    var property := TextOf(ts[i]);
    var j2 :- Eaten(ts, j, Colon);
    if property == "shaft_type" && ts[j2].kind == ShaftType then
      Ok(((property, RawString(TextOf(ts[j2]))), Next(ts, j2)))
    else
      var value :- LogicalExpression(ts, j2);
      Ok(((property, value.0), value.1))
  }

  /**
   * The property loop of `parseShapeDeclaration` and `parseFillet`, up to
   * DEDENT or EOF: a later value for a name replaces the earlier one. A
   * token that is neither a property nor a line break is never consumed,
   * so the loop spins on it for ever.
   */
  function Params(ts: seq<Token>, acc: seq<(string, Expr)>, i: nat): (r: Result<(seq<(string, Expr)>, nat), ParseError>)
    requires Ready(ts, i)
    ensures r.Ok? ==> Ready(ts, r.value.1) && i <= r.value.1
    ensures r.Ok? ==> ts[r.value.1].kind == Dedent || ts[r.value.1].kind == Eof
    ensures ts[i].kind !in {Dedent, Eof, Property, Newline} ==> r == Err(Stuck(ts[i]))
    decreases |ts| - i, 30
  {
    var k := ts[i].kind;
    if k == Dedent || k == Eof then Ok((acc, i))
    else if k == Property then
      var p :- PropertyPair(ts, i);
      Params(ts, SetParam(acc, p.0.0, p.0.1), PastNewline(ts, p.1))
    else if k == Newline then Params(ts, acc, Next(ts, i))
    else Err(Stuck(ts[i]))
  }

  /** Repeating a property name in a block overwrites its value: the parameter list never holds a name twice. */
  lemma {:induction false} ParamsKeysDistinct(ts: seq<Token>, acc: seq<(string, Expr)>, i: nat)
    requires Ready(ts, i) && DistinctKeys(acc)
    ensures var r := Params(ts, acc, i); r.Ok? ==> DistinctKeys(r.value.0)
    decreases |ts| - i
  {
    var r := Params(ts, acc, i);
    var k := ts[i].kind;
    if k == Property {
      var p := PropertyPair(ts, i);
      if p.Ok? {
        var acc2 := SetParam(acc, p.value.0.0, p.value.0.1);
        assert r == Params(ts, acc2, PastNewline(ts, p.value.1));
        SetParamKeepsKeysDistinct(acc, p.value.0.0, p.value.0.1);
        ParamsKeysDistinct(ts, acc2, PastNewline(ts, p.value.1));
      }
    } else if k == Newline {
      assert r == Params(ts, acc, i + 1);
      ParamsKeysDistinct(ts, acc, i + 1);
    } else if k == Dedent || k == Eof {
      assert r == Ok((acc, i));
    }
  }

  /** A shape's parameters hold each property name once. */
  lemma ShapeKeysDistinct(ts: seq<Token>, i: nat)
    requires Ready(ts, i)
    ensures var r := ShapeDeclaration(ts, i); r.Ok? ==> DistinctKeys(r.value.0.params)
  {
    var j := Eaten(ts, i, ShapeType);
    if j.Ok? {
      var j2 := Eaten(ts, j.value, Identifier);
      if j2.Ok? {
        var j3 := Eaten(ts, PastNewline(ts, j2.value), Indent);
        if j3.Ok? {
          var params := Params(ts, [], j3.value);
          if params.Ok? {
            ParamsKeysDistinct(ts, [], j3.value);
            var j4 := Eaten(ts, params.value.1, Dedent);
            if j4.Ok? {
              assert ShapeDeclaration(ts, i) == Ok((ShapeDecl(TextOf(ts[i]), TextOf(ts[j.value]), params.value.0), j4.value));
            }
          }
        }
      }
    }
  }

  /** `parseShapeDeclaration`: a shape type, a name, an optional line break, INDENT, properties, DEDENT. */
  function ShapeDeclaration(ts: seq<Token>, i: nat): (r: Result<(Stmt, nat), ParseError>)
    requires Ready(ts, i)
    ensures r.Ok? ==> Ready(ts, r.value.1) && i < r.value.1
    ensures r.Ok? ==> r.value.0.ShapeDecl? && r.value.0.shapeType == TextOf(ts[i])
    decreases |ts| - i, 20
  {
    var j :- Eaten(ts, i, ShapeType);
    var j2 :- Eaten(ts, j, Identifier);
    var j3 :- Eaten(ts, PastNewline(ts, j2), Indent);
    var params :- Params(ts, [], j3);
    var j4 :- Eaten(ts, params.1, Dedent);
    Ok((ShapeDecl(TextOf(ts[i]), TextOf(ts[j]), params.0), j4))
  }

  /** `parseFillet`: `fillet`, an optional line break, INDENT, properties, DEDENT. */
  function FilletDeclaration(ts: seq<Token>, i: nat): (r: Result<(Stmt, nat), ParseError>)
    requires Ready(ts, i)
    ensures r.Ok? ==> Ready(ts, r.value.1) && i < r.value.1
    ensures r.Ok? ==> r.value.0.FilletDecl?
    decreases |ts| - i, 20
  {
    var j :- Eaten(ts, i, Fillet);
    var j2 :- Eaten(ts, PastNewline(ts, j), Indent);
    var params :- Params(ts, [], j2);
    var j3 :- Eaten(ts, params.1, Dedent);
    Ok((FilletDecl(params.0), j3))
  }

  /** The statement loop of an `if`, `else` or `for` body: statements, each with an optional line break, up to DEDENT or EOF. */
  function Body(ts: seq<Token>, acc: seq<Stmt>, i: nat): (r: Result<(seq<Stmt>, nat), ParseError>)
    requires Ready(ts, i)
    ensures r.Ok? ==> Ready(ts, r.value.1) && i <= r.value.1 && acc <= r.value.0
    ensures r.Ok? ==> ts[r.value.1].kind == Dedent || ts[r.value.1].kind == Eof
    decreases |ts| - i, 30
  {
    if ts[i].kind == Dedent || ts[i].kind == Eof then Ok((acc, i))
    else
      var s :- Statement(ts, i);
      Body(ts, acc + [s.0], PastNewline(ts, s.1))
  }

  /** An indented block: an optional line break, INDENT, the statement loop, DEDENT. */
  function Suite(ts: seq<Token>, i: nat): (r: Result<(seq<Stmt>, nat), ParseError>)
    requires Ready(ts, i)
    ensures r.Ok? ==> Ready(ts, r.value.1) && i < r.value.1
    decreases |ts| - i, 31
  {
    var j :- Eaten(ts, PastNewline(ts, i), Indent);
    var body :- Body(ts, [], j);
    var j2 :- Eaten(ts, body.1, Dedent);
    Ok((body.0, j2))
  }

  /** `parseIfStatement`: `if`, a condition, `:`, a block, and an optional `else:` block (`elseBody` is null without one). */
  function IfStatement(ts: seq<Token>, i: nat): (r: Result<(Stmt, nat), ParseError>)
    requires Ready(ts, i)
    ensures r.Ok? ==> Ready(ts, r.value.1) && i < r.value.1
    ensures r.Ok? ==> r.value.0.IfStmt?
    ensures r.Ok? && r.value.0.elseBody.NoElse? ==> ts[r.value.1].kind != Kind.Else
    decreases |ts| - i, 20
  {
    var j :- Eaten(ts, i, If);
    var condition :- LogicalExpression(ts, j);
    var j2 :- Eaten(ts, condition.1, Colon);
    IfBlocks(ts, condition.0, j2)
  }

  /** The rest of `parseIfStatement` after the `:`: the block, then `else`, `:` and a second block if ELSE follows. */
  function IfBlocks(ts: seq<Token>, condition: Expr, i: nat): (r: Result<(Stmt, nat), ParseError>)
    requires Ready(ts, i)
    ensures r.Ok? ==> Ready(ts, r.value.1) && i < r.value.1
    ensures r.Ok? ==> r.value.0.IfStmt?
    ensures r.Ok? && r.value.0.elseBody.NoElse? ==> ts[r.value.1].kind != Kind.Else
    decreases |ts| - i, 33
  {
    var body :- Suite(ts, i);
    var j3 := body.1;
    if ts[j3].kind == Kind.Else then
      var j4 :- Eaten(ts, Next(ts, j3), Colon);
      var elseBody :- Suite(ts, j4);
      Ok((IfStmt(condition, body.0, ElseBranch.Else(elseBody.0)), elseBody.1))
    else Ok((IfStmt(condition, body.0, NoElse), j3))
  }

  /** The range of a `for`: `range(start, end)`, or any other expression. */
  function LoopRangeOf(ts: seq<Token>, i: nat): (r: Result<(LoopRange, nat), ParseError>)
    requires Ready(ts, i)
    ensures r.Ok? ==> Ready(ts, r.value.1) && i < r.value.1
    ensures r.Ok? ==> (r.value.0.RangeCall? <==> ts[i].kind == Range)
    decreases |ts| - i, 20
  {
    if ts[i].kind == Range then
      var j :- Eaten(ts, Next(ts, i), LParen);
      var start :- LogicalExpression(ts, j);
      var j2 :- Eaten(ts, start.1, Comma);
      var end :- LogicalExpression(ts, j2);
      var j3 :- Eaten(ts, end.1, RParen);
      Ok((RangeCall(start.0, end.0), j3))
    else
      var e :- LogicalExpression(ts, i);
      Ok((RangeOf(e.0), e.1))
  }

  /** `parseForLoop`: `for`, an identifier, `in`, a range, `:`, a block. */
  function ForStatement(ts: seq<Token>, i: nat): (r: Result<(Stmt, nat), ParseError>)
    requires Ready(ts, i)
    ensures r.Ok? ==> Ready(ts, r.value.1) && i < r.value.1
    ensures r.Ok? ==> r.value.0.ForLoop?
    decreases |ts| - i, 20
  {
    var j :- Eaten(ts, i, For);
    var j2 :- Eaten(ts, j, Identifier);
    var j3 :- Eaten(ts, j2, In);
    var range :- LoopRangeOf(ts, j3);
    var j4 :- Eaten(ts, range.1, Colon);
    var body :- Suite(ts, j4);
    Ok((ForLoop(TextOf(ts[j]), range.0, body.0), body.1))
  }

  /** `parseLayerCommand`: `add: name`, `subtract: name`, or a property. */
  function LayerCommand(ts: seq<Token>, i: nat): (r: Result<(Command, nat), ParseError>)
    requires Ready(ts, i)
    ensures r.Ok? ==> Ready(ts, r.value.1) && i < r.value.1
    ensures ts[i].kind !in {Add, Subtract, Property} ==> r == Err(UnexpectedLayerCommand(ts[i]))
    decreases |ts| - i, 22
  {
    var k := ts[i].kind;
    if k == Add || k == Subtract then
      var j :- Eaten(ts, Next(ts, i), Colon);
      var j2 :- Eaten(ts, j, Identifier);
      var shape := TextOf(ts[j]);
      Ok((if k == Add then AddShape(shape) else SubtractShape(shape), j2))
    else if k == Property then
      var p :- PropertyPair(ts, i);
      Ok((Setting(p.0.0, p.0.1), p.1))
    else Err(UnexpectedLayerCommand(ts[i]))
  }

  /** The loop of `parseLayer`: commands, each with an optional line break, up to DEDENT or EOF. */
  function LayerCommands(ts: seq<Token>, acc: seq<Command>, i: nat): (r: Result<(seq<Command>, nat), ParseError>)
    requires Ready(ts, i)
    ensures r.Ok? ==> Ready(ts, r.value.1) && i <= r.value.1 && acc <= r.value.0
    ensures r.Ok? ==> ts[r.value.1].kind == Dedent || ts[r.value.1].kind == Eof
    decreases |ts| - i, 30
  {
    if ts[i].kind == Dedent || ts[i].kind == Eof then Ok((acc, i))
    else
      var c :- LayerCommand(ts, i);
      LayerCommands(ts, acc + [c.0], PastNewline(ts, c.1))
  }

  /** `parseLayer`: `layer`, a name, an optional line break, INDENT, commands, DEDENT. */
  function LayerDeclaration(ts: seq<Token>, i: nat): (r: Result<(Stmt, nat), ParseError>)
    requires Ready(ts, i)
    ensures r.Ok? ==> Ready(ts, r.value.1) && i < r.value.1
    ensures r.Ok? ==> r.value.0.LayerDecl?
    decreases |ts| - i, 20
  {
    var j :- Eaten(ts, i, Layer);
    var j2 :- Eaten(ts, j, Identifier);
    var j3 :- Eaten(ts, PastNewline(ts, j2), Indent);
    var commands :- LayerCommands(ts, [], j3);
    var j4 :- Eaten(ts, commands.1, Dedent);
    Ok((LayerDecl(TextOf(ts[j]), commands.0), j4))
  }

  /** `parseTransformOperation`: a property name, `:`, an expression. */
  function TransformOperation(ts: seq<Token>, i: nat): (r: Result<((string, Expr), nat), ParseError>)
    requires Ready(ts, i)
    ensures r.Ok? ==> Ready(ts, r.value.1) && i < r.value.1 && r.value.0.0 == TextOf(ts[i])
    ensures ts[i].kind != Property ==> r == Err(Expected(Property, ts[i]))
    decreases |ts| - i, 22
  {
    var j :- Eaten(ts, i, Property);
    var j2 :- Eaten(ts, j, Colon);
    var value :- LogicalExpression(ts, j2);
    Ok(((TextOf(ts[i]), value.0), value.1))
  }

  /** The loop of `parseTransform`: operations, each with an optional line break, up to DEDENT or EOF. */
  function TransformOperations(ts: seq<Token>, acc: seq<(string, Expr)>, i: nat): (r: Result<(seq<(string, Expr)>, nat), ParseError>)
    requires Ready(ts, i)
    ensures r.Ok? ==> Ready(ts, r.value.1) && i <= r.value.1 && acc <= r.value.0
    ensures r.Ok? ==> ts[r.value.1].kind == Dedent || ts[r.value.1].kind == Eof
    decreases |ts| - i, 30
  {
    if ts[i].kind == Dedent || ts[i].kind == Eof then Ok((acc, i))
    else
      var op :- TransformOperation(ts, i);
      TransformOperations(ts, acc + [op.0], PastNewline(ts, op.1))
  }

  /** `parseTransform`: `transform`, a target name, an optional line break, INDENT, operations, DEDENT. */
  function TransformDeclaration(ts: seq<Token>, i: nat): (r: Result<(Stmt, nat), ParseError>)
    requires Ready(ts, i)
    ensures r.Ok? ==> Ready(ts, r.value.1) && i < r.value.1
    ensures r.Ok? ==> r.value.0.TransformDecl?
    decreases |ts| - i, 20
  {
    var j :- Eaten(ts, i, Transform);
    var j2 :- Eaten(ts, j, Identifier);
    var j3 :- Eaten(ts, PastNewline(ts, j2), Indent);
    var operations :- TransformOperations(ts, [], j3);
    var j4 :- Eaten(ts, operations.1, Dedent);
    Ok((TransformDecl(TextOf(ts[j]), operations.0), j4))
  }

  /** The token types `parseStatement` dispatches on. */
  predicate StartsStatement(k: Kind)
  {
    k == ShapeType || k == Fillet || k == If || k == For || k == Layer || k == Transform
  }

  /** `parseStatement`: dispatch on the current token; any other token is an error. */
  function Statement(ts: seq<Token>, i: nat): (r: Result<(Stmt, nat), ParseError>)
    requires Ready(ts, i)
    ensures r.Ok? ==> Ready(ts, r.value.1) && i < r.value.1
    ensures !StartsStatement(ts[i].kind) ==> r == Err(UnexpectedStatement(ts[i]))
    decreases |ts| - i, 25
  {
    var k := ts[i].kind;
    if k == ShapeType then ShapeDeclaration(ts, i)
    else if k == Fillet then FilletDeclaration(ts, i)
    else if k == If then IfStatement(ts, i)
    else if k == For then ForStatement(ts, i)
    else if k == Layer then LayerDeclaration(ts, i)
    else if k == Transform then TransformDeclaration(ts, i)
    else Err(UnexpectedStatement(ts[i]))
  }

  /** `while (currentToken().type === 'NEWLINE') eat('NEWLINE')`. */
  function PastNewlines(ts: seq<Token>, i: nat): (r: nat)
    requires Ready(ts, i)
    ensures Ready(ts, r) && i <= r && ts[r].kind != Newline
    ensures forall k :: i <= k < r ==> ts[k].kind == Newline
    decreases |ts| - i
  {
    if ts[i].kind == Newline then PastNewlines(ts, Next(ts, i)) else i
  }

  /** The loop of `parse`: line breaks, then a statement, then line breaks, until EOF. */
  function Statements(ts: seq<Token>, acc: seq<Stmt>, i: nat): (r: Result<seq<Stmt>, ParseError>)
    requires Ready(ts, i)
    ensures r.Ok? ==> acc <= r.value
    decreases |ts| - i
  {
    if ts[i].kind == Eof then Ok(acc)
    else
      var j := PastNewlines(ts, i);
      if ts[j].kind == Eof then Ok(acc)
      else
        var s :- Statement(ts, j);
        Statements(ts, acc + [s.0], PastNewlines(ts, s.1))
  }

  /** `parse` on the whole token list. */
  function Parse(ts: seq<Token>): Result<seq<Stmt>, ParseError>
    requires Stream(ts)
  {
    Statements(ts, [], 0)
  }

  /** `new LogicalParser(new LogicalLexer(input)).parse()`: a lexical error surfaces from the constructor. */
  function ParseSource(input: string): Result<seq<Stmt>, ParseError>
  {
    var ts := UnifiedLexer.Lex(input);
    if ts.Err? then Err(LexFailed(ts.error)) else Parse(ts.value)
  }

  // ---- the parser object -------------------------------------------------------

  /**
   * `LogicalParser`: the token list, the cursor `current`, and the loop
   * context `isInLoop`/`currentIterator` that `parseForLoop` sets for its
   * body and puts back afterwards.
   */
  class Parser {
    const tokens: seq<Token>
    var current: nat
    var isInLoop: bool
    var currentIterator: Option<string>

    ghost predicate Valid()
      reads this
    {
      Ready(tokens, current)
    }

    function Context(): (bool, Option<string>)
      reads this
    {
      (isInLoop, currentIterator)
    }

    /** The constructor, once `tokenize` has produced the tokens. */
    constructor (tokens: seq<Token>)
      requires Stream(tokens)
      ensures Valid() && this.tokens == tokens && current == 0
      ensures Context() == (false, None)
    {
      this.tokens := tokens;
      current := 0;
      isInLoop := false;
      currentIterator := None;
    }

    /** `currentToken()`. */
    function CurrentToken(): (t: Token)
      reads this
      requires Valid()
      ensures t in tokens
    {
      tokens[current]
    }

    /** `eat(type)`: on a match `current` moves on by one and the token is returned; otherwise an error and nothing moves. */
    method Eat(k: Kind) returns (r: Result<Token, ParseError>)
      requires Valid() && k != Eof
      modifies this
      ensures Valid() && Context() == old(Context())
      ensures r.Ok? <==> old(CurrentToken()).kind == k
      ensures r.Ok? ==> r.value == old(CurrentToken()) && current == old(current) + 1
      ensures r.Err? ==> r.error == Expected(k, CurrentToken()) && current == old(current)
      ensures var spec := Eaten(tokens, old(current), k); (r.Ok? ==> spec == Ok(current)) && (r.Err? ==> spec == Err(r.error))
    {
      var token := tokens[current];
      if token.kind == k {
        current := current + 1;
        return Ok(token);
      }
      return Err(Expected(k, token));
    }

    /** `if (currentToken().type === 'NEWLINE') eat('NEWLINE')`. */
    method SkipNewline()
      requires Valid()
      modifies this
      ensures Valid() && Context() == old(Context()) && current == PastNewline(tokens, old(current))
    {
      if tokens[current].kind == Newline {
        current := current + 1;
      }
    }

    method ParseExpression() returns (r: Result<Expr, ParseError>)
      requires Valid()
      modifies this
      ensures Valid() && Context() == old(Context())
      ensures Outcome(r, current) == LogicalExpression(tokens, old(current))
      decreases |tokens| - current, 13
    {
      r := ParseLogicalExpression();
    }

    method ParseLogicalExpression() returns (r: Result<Expr, ParseError>)
      requires Valid()
      modifies this
      ensures Valid() && Context() == old(Context())
      ensures Outcome(r, current) == LogicalExpression(tokens, old(current))
      decreases |tokens| - current, 11
    {
      var left := ParseComparisonExpression();
      if left.Err? {
        return Err(left.error);
      }
      var expr := left.value;
      while tokens[current].kind == And || tokens[current].kind == Or
        invariant Valid() && Context() == old(Context()) && old(current) < current
        invariant LogicalExpression(tokens, old(current)) == LogicalTail(tokens, expr, current)
        decreases |tokens| - current
      {
        var operator := tokens[current].kind;
        var _ := Eat(operator);
        var right := ParseComparisonExpression();
        if right.Err? {
          return Err(right.error);
        }
        expr := LogicalOp(if operator == And then "and" else "or", expr, right.value);
      }
      return Ok(expr);
    }

    method ParseComparisonExpression() returns (r: Result<Expr, ParseError>)
      requires Valid()
      modifies this
      ensures Valid() && Context() == old(Context())
      ensures Outcome(r, current) == ComparisonExpression(tokens, old(current))
      decreases |tokens| - current, 9
    {
      var left := ParseArithmeticExpression();
      if left.Err? {
        return Err(left.error);
      }
      var expr := left.value;
      while ComparisonOperator(tokens[current].kind).Some?
        invariant Valid() && Context() == old(Context()) && old(current) < current
        invariant ComparisonExpression(tokens, old(current)) == ComparisonTail(tokens, expr, current)
        decreases |tokens| - current
      {
        var opType := tokens[current].kind;
        var operator := ComparisonOperator(opType).value;
        var _ := Eat(opType);
        var right := ParseArithmeticExpression();
        if right.Err? {
          return Err(right.error);
        }
        expr := ComparisonOp(operator, expr, right.value);
      }
      return Ok(expr);
    }

    method ParseArithmeticExpression() returns (r: Result<Expr, ParseError>)
      requires Valid()
      modifies this
      ensures Valid() && Context() == old(Context())
      ensures Outcome(r, current) == ArithmeticExpression(tokens, old(current))
      decreases |tokens| - current, 7
    {
      var left := ParseBasicExpression();
      if left.Err? {
        return Err(left.error);
      }
      var expr := left.value;
      while IsArithmetic(tokens[current].kind)
        invariant Valid() && Context() == old(Context()) && old(current) < current
        invariant ArithmeticExpression(tokens, old(current)) == ArithmeticTail(tokens, expr, current)
        decreases |tokens| - current
      {
        var operatorToken := tokens[current];
        var _ := Eat(operatorToken.kind);
        var right := ParseBasicExpression();
        if right.Err? {
          return Err(right.error);
        }
        expr := BinaryOp(ArithmeticName(operatorToken.kind), expr, right.value);
      }
      return Ok(expr);
    }

    method ParseBasicExpression() returns (r: Result<Expr, ParseError>)
      requires Valid()
      modifies this
      ensures Valid() && Context() == old(Context())
      ensures Outcome(r, current) == BasicExpression(tokens, old(current))
      decreases |tokens| - current, 2
    {
      var token := tokens[current];
      if token.kind == Not || token.kind == Minus {
        var _ := Eat(token.kind);
        var operand := ParseBasicExpression();
        if operand.Err? {
          return Err(operand.error);
        }
        return Ok(UnaryOp(if token.kind == Not then "not" else "minus", operand.value));
      }
      if token.kind == Number {
        var _ := Eat(Number);
        return Ok(NumberLit(NumOf(token)));
      }
      if token.kind == Boolean {
        var _ := Eat(Boolean);
        return Ok(BooleanLit(TextOf(token) == "true"));
      }
      if token.kind == String {
        var _ := Eat(String);
        return Ok(StringLit(TextOf(token)));
      }
      if token.kind == Identifier || token.kind == ShapeType {
        var name := TextOf(token);
        var _ := Eat(token.kind);
        if tokens[current].kind == Dot {
          var _ := Eat(Dot);
          var propType := tokens[current].kind;
          if propType != Identifier && propType != Property {
            return Err(ExpectedPropertyName(tokens[current]));
          }
          var propName := TextOf(tokens[current]);
          var _ := Eat(propType);
          return Ok(PropertyAccess(name, propName));
        }
        return Ok(Ident(name));
      }
      if token.kind == LParen {
        var _ := Eat(LParen);
        var expr := ParseExpression();
        if expr.Err? {
          return expr;
        }
        var eaten := Eat(RParen);
        if eaten.Err? {
          return Err(eaten.error);
        }
        return expr;
      }
      if token.kind == LBracket {
        r := ParseArray();
        return;
      }
      return Err(UnexpectedInExpression(token));
    }

    method ParseArray() returns (r: Result<Expr, ParseError>)
      requires Valid() && CurrentToken().kind == LBracket
      modifies this
      ensures Valid() && Context() == old(Context())
      ensures Outcome(r, current) == ArrayLiteral(tokens, old(current))
      decreases |tokens| - current, 1
    {
      var _ := Eat(LBracket);
      ghost var start := current;
      var elements := [];
      while tokens[current].kind != RBracket
        invariant Valid() && Context() == old(Context()) && start <= current
        invariant ArrayItems(tokens, [], start) == ArrayItems(tokens, elements, current)
        decreases |tokens| - current
      {
        var element := ParseExpression();
        if element.Err? {
          return Err(element.error);
        }
        elements := elements + [element.value];
        if tokens[current].kind == Comma {
          var _ := Eat(Comma);
        } else {
          assert ArrayItems(tokens, [], start) == Ok((elements, current));
          break;
        }
      }
      var eaten := Eat(RBracket);
      if eaten.Err? {
        return Err(eaten.error);
      }
      return Ok(ArrayLit(elements));
    }

    /** `parseProperty`. */
    method ParseProperty() returns (r: Result<(string, Expr), ParseError>)
      requires Valid()
      modifies this
      ensures Valid() && Context() == old(Context())
      ensures Outcome(r, current) == PropertyPair(tokens, old(current))
      decreases |tokens| - current, 21
    {
      var propToken := Eat(Property);
      if propToken.Err? {
        return Err(propToken.error);
      }
      var property := TextOf(propToken.value);
      var eaten := Eat(Colon);
      if eaten.Err? {
        return Err(eaten.error);
      }
      if property == "shaft_type" && tokens[current].kind == ShaftType {
        var value := Eat(ShaftType);
        return Ok((property, RawString(TextOf(value.value))));
      }
      var value := ParseExpression();
      if value.Err? {
        return Err(value.error);
      }
      return Ok((property, value.value));
    }

    /** The property loop that `parseShapeDeclaration` and `parseFillet` share; a stray token makes it spin. */
    method ParseParams() returns (r: Result<seq<(string, Expr)>, ParseError>)
      requires Valid()
      modifies this
      ensures Valid() && Context() == old(Context())
      ensures Outcome(r, current) == Params(tokens, [], old(current))
      decreases |tokens| - current, 30
    {
      var params := [];
      while tokens[current].kind != Dedent && tokens[current].kind != Eof
        invariant Valid() && Context() == old(Context()) && old(current) <= current
        invariant Params(tokens, [], old(current)) == Params(tokens, params, current)
        decreases |tokens| - current
      {
        var k := tokens[current].kind;
        if k != Property && k != Newline {
          return Err(Stuck(tokens[current]));
        }
        if k == Property {
          var p := ParseProperty();
          if p.Err? {
            return Err(p.error);
          }
          params := SetParam(params, p.value.0, p.value.1);
        }
        SkipNewline();
      }
      return Ok(params);
    }

    method ParseShapeDeclaration() returns (r: Result<Stmt, ParseError>)
      requires Valid()
      modifies this
      ensures Valid() && Context() == old(Context())
      ensures Outcome(r, current) == ShapeDeclaration(tokens, old(current))
      decreases |tokens| - current, 20
    {
      var shapeType := Eat(ShapeType);
      if shapeType.Err? {
        return Err(shapeType.error);
      }
      var name := Eat(Identifier);
      if name.Err? {
        return Err(name.error);
      }
      SkipNewline();
      var eaten := Eat(Indent);
      if eaten.Err? {
        return Err(eaten.error);
      }
      var params := ParseParams();
      if params.Err? {
        return Err(params.error);
      }
      eaten := Eat(Dedent);
      if eaten.Err? {
        return Err(eaten.error);
      }
      return Ok(ShapeDecl(TextOf(shapeType.value), TextOf(name.value), params.value));
    }

    method ParseFillet() returns (r: Result<Stmt, ParseError>)
      requires Valid()
      modifies this
      ensures Valid() && Context() == old(Context())
      ensures Outcome(r, current) == FilletDeclaration(tokens, old(current))
      decreases |tokens| - current, 20
    {
      var eaten := Eat(Fillet);
      if eaten.Err? {
        return Err(eaten.error);
      }
      SkipNewline();
      eaten := Eat(Indent);
      if eaten.Err? {
        return Err(eaten.error);
      }
      var params := ParseParams();
      if params.Err? {
        return Err(params.error);
      }
      eaten := Eat(Dedent);
      if eaten.Err? {
        return Err(eaten.error);
      }
      return Ok(FilletDecl(params.value));
    }

    /** The statement loop of an `if`, `else` or `for` body. */
    method ParseBody() returns (r: Result<seq<Stmt>, ParseError>)
      requires Valid()
      modifies this
      ensures Valid() && (r.Ok? ==> Context() == old(Context()))
      ensures Outcome(r, current) == Body(tokens, [], old(current))
      decreases |tokens| - current, 30
    {
      var body := [];
      while tokens[current].kind != Dedent && tokens[current].kind != Eof
        invariant Valid() && Context() == old(Context()) && old(current) <= current
        invariant Body(tokens, [], old(current)) == Body(tokens, body, current)
        decreases |tokens| - current
      {
        var s := ParseStatement();
        if s.Err? {
          return Err(s.error);
        }
        body := body + [s.value];
        SkipNewline();
      }
      return Ok(body);
    }

    /** An optional line break, INDENT, the statement loop, DEDENT. */
    method ParseSuite() returns (r: Result<seq<Stmt>, ParseError>)
      requires Valid()
      modifies this
      ensures Valid() && (r.Ok? ==> Context() == old(Context()))
      ensures Outcome(r, current) == Suite(tokens, old(current))
      decreases |tokens| - current, 31
    {
      SkipNewline();
      var eaten := Eat(Indent);
      if eaten.Err? {
        return Err(eaten.error);
      }
      var body := ParseBody();
      if body.Err? {
        return body;
      }
      eaten := Eat(Dedent);
      if eaten.Err? {
        return Err(eaten.error);
      }
      return body;
    }

    method ParseIfStatement() returns (r: Result<Stmt, ParseError>)
      requires Valid()
      modifies this
      ensures Valid() && (r.Ok? ==> Context() == old(Context()))
      ensures Outcome(r, current) == IfStatement(tokens, old(current))
      decreases |tokens| - current, 20
    {
      var eaten := Eat(If);
      if eaten.Err? {
        return Err(eaten.error);
      }
      var condition := ParseLogicalExpression();
      if condition.Err? {
        return Err(condition.error);
      }
      eaten := Eat(Colon);
      if eaten.Err? {
        return Err(eaten.error);
      }
      assert IfStatement(tokens, old(current)) == IfBlocks(tokens, condition.value, current);
      var body := ParseSuite();
      if body.Err? {
        return Err(body.error);
      }
      var elseBody := NoElse;
      if tokens[current].kind == Kind.Else {
        eaten := Eat(Kind.Else);
        eaten := Eat(Colon);
        if eaten.Err? {
          return Err(eaten.error);
        }
        var stmts := ParseSuite();
        if stmts.Err? {
          return Err(stmts.error);
        }
        elseBody := ElseBranch.Else(stmts.value);
      }
      return Ok(IfStmt(condition.value, body.value, elseBody));
    }

    /** The range of `parseForLoop`. */
    method ParseLoopRange() returns (r: Result<LoopRange, ParseError>)
      requires Valid()
      modifies this
      ensures Valid() && Context() == old(Context())
      ensures Outcome(r, current) == LoopRangeOf(tokens, old(current))
      decreases |tokens| - current, 20
    {
      if tokens[current].kind == Range {
        var eaten := Eat(Range);
        eaten := Eat(LParen);
        if eaten.Err? {
          return Err(eaten.error);
        }
        var start := ParseExpression();
        if start.Err? {
          return Err(start.error);
        }
        eaten := Eat(Comma);
        if eaten.Err? {
          return Err(eaten.error);
        }
        var end := ParseExpression();
        if end.Err? {
          return Err(end.error);
        }
        eaten := Eat(RParen);
        if eaten.Err? {
          return Err(eaten.error);
        }
        return Ok(RangeCall(start.value, end.value));
      }
      var e := ParseExpression();
      if e.Err? {
        return Err(e.error);
      }
      return Ok(RangeOf(e.value));
    }

    /**
     * `parseForLoop`: the body is parsed with `isInLoop` set and the loop
     * variable as `currentIterator`; both are put back after the closing
     * DEDENT. An error in between leaves them set.
     */
    method ParseForLoop() returns (r: Result<Stmt, ParseError>)
      requires Valid()
      modifies this
      ensures Valid() && (r.Ok? ==> Context() == old(Context()))
      ensures Outcome(r, current) == ForStatement(tokens, old(current))
      decreases |tokens| - current, 20
    {
      var eaten := Eat(For);
      if eaten.Err? {
        return Err(eaten.error);
      }
      var loopVar := Eat(Identifier);
      if loopVar.Err? {
        return Err(loopVar.error);
      }
      eaten := Eat(In);
      if eaten.Err? {
        return Err(eaten.error);
      }
      var range := ParseLoopRange();
      if range.Err? {
        return Err(range.error);
      }
      eaten := Eat(Colon);
      if eaten.Err? {
        return Err(eaten.error);
      }
      var body := ParseLoopSuite(TextOf(loopVar.value));
      if body.Err? {
        return Err(body.error);
      }
      return Ok(ForLoop(TextOf(loopVar.value), range.value, body.value));
    }

    /** The block of `parseForLoop`, parsed with the loop context set to `loopVar` and restored after its DEDENT. */
    method ParseLoopSuite(loopVar: string) returns (r: Result<seq<Stmt>, ParseError>)
      requires Valid()
      modifies this
      ensures Valid() && (r.Ok? ==> Context() == old(Context()))
      ensures Outcome(r, current) == Suite(tokens, old(current))
      decreases |tokens| - current, 31
    {
      SkipNewline();
      var eaten := Eat(Indent);
      if eaten.Err? {
        return Err(eaten.error);
      }
      var oldInLoop := isInLoop;
      var oldIterator := currentIterator;
      isInLoop := true;
      currentIterator := Some(loopVar);
      var body := ParseBody();
      if body.Err? {
        return body;
      }
      eaten := Eat(Dedent);
      if eaten.Err? {
        return Err(eaten.error);
      }
      isInLoop := oldInLoop;
      currentIterator := oldIterator;
      return body;
    }

    method ParseLayerCommand() returns (r: Result<Command, ParseError>)
      requires Valid()
      modifies this
      ensures Valid() && Context() == old(Context())
      ensures Outcome(r, current) == LayerCommand(tokens, old(current))
      decreases |tokens| - current, 22
    {
      var token := tokens[current];
      if token.kind == Add || token.kind == Subtract {
        var eaten := Eat(token.kind);
        eaten := Eat(Colon);
        if eaten.Err? {
          return Err(eaten.error);
        }
        var shapeRef := Eat(Identifier);
        if shapeRef.Err? {
          return Err(shapeRef.error);
        }
        var shape := TextOf(shapeRef.value);
        return Ok(if token.kind == Add then AddShape(shape) else SubtractShape(shape));
      }
      if token.kind == Property {
        var p := ParseProperty();
        if p.Err? {
          return Err(p.error);
        }
        return Ok(Setting(p.value.0, p.value.1));
      }
      return Err(UnexpectedLayerCommand(token));
    }

    method ParseLayer() returns (r: Result<Stmt, ParseError>)
      requires Valid()
      modifies this
      ensures Valid() && Context() == old(Context())
      ensures Outcome(r, current) == LayerDeclaration(tokens, old(current))
      decreases |tokens| - current, 20
    {
      var eaten := Eat(Layer);
      if eaten.Err? {
        return Err(eaten.error);
      }
      var name := Eat(Identifier);
      if name.Err? {
        return Err(name.error);
      }
      SkipNewline();
      eaten := Eat(Indent);
      if eaten.Err? {
        return Err(eaten.error);
      }
      ghost var start := current;
      var commands := [];
      while tokens[current].kind != Dedent && tokens[current].kind != Eof
        invariant Valid() && Context() == old(Context()) && start <= current
        invariant LayerCommands(tokens, [], start) == LayerCommands(tokens, commands, current)
        decreases |tokens| - current
      {
        var c := ParseLayerCommand();
        if c.Err? {
          return Err(c.error);
        }
        commands := commands + [c.value];
        SkipNewline();
      }
      eaten := Eat(Dedent);
      if eaten.Err? {
        return Err(eaten.error);
      }
      return Ok(LayerDecl(TextOf(name.value), commands));
    }

    method ParseTransformOperation() returns (r: Result<(string, Expr), ParseError>)
      requires Valid()
      modifies this
      ensures Valid() && Context() == old(Context())
      ensures Outcome(r, current) == TransformOperation(tokens, old(current))
      decreases |tokens| - current, 22
    {
      var propertyToken := Eat(Property);
      if propertyToken.Err? {
        return Err(propertyToken.error);
      }
      var eaten := Eat(Colon);
      if eaten.Err? {
        return Err(eaten.error);
      }
      var value := ParseExpression();
      if value.Err? {
        return Err(value.error);
      }
      return Ok((TextOf(propertyToken.value), value.value));
    }

    method ParseTransform() returns (r: Result<Stmt, ParseError>)
      requires Valid()
      modifies this
      ensures Valid() && Context() == old(Context())
      ensures Outcome(r, current) == TransformDeclaration(tokens, old(current))
      decreases |tokens| - current, 20
    {
      var eaten := Eat(Transform);
      if eaten.Err? {
        return Err(eaten.error);
      }
      var target := Eat(Identifier);
      if target.Err? {
        return Err(target.error);
      }
      SkipNewline();
      eaten := Eat(Indent);
      if eaten.Err? {
        return Err(eaten.error);
      }
      ghost var start := current;
      var operations := [];
      while tokens[current].kind != Dedent && tokens[current].kind != Eof
        invariant Valid() && Context() == old(Context()) && start <= current
        invariant TransformOperations(tokens, [], start) == TransformOperations(tokens, operations, current)
        decreases |tokens| - current
      {
        var op := ParseTransformOperation();
        if op.Err? {
          return Err(op.error);
        }
        operations := operations + [op.value];
        SkipNewline();
      }
      eaten := Eat(Dedent);
      if eaten.Err? {
        return Err(eaten.error);
      }
      return Ok(TransformDecl(TextOf(target.value), operations));
    }

    method ParseStatement() returns (r: Result<Stmt, ParseError>)
      requires Valid()
      modifies this
      ensures Valid() && (r.Ok? ==> Context() == old(Context()))
      ensures Outcome(r, current) == Statement(tokens, old(current))
      decreases |tokens| - current, 25
    {
      var k := tokens[current].kind;
      if k == ShapeType {
        r := ParseShapeDeclaration();
      } else if k == Fillet {
        r := ParseFillet();
      } else if k == If {
        r := ParseIfStatement();
      } else if k == For {
        r := ParseForLoop();
      } else if k == Layer {
        r := ParseLayer();
      } else if k == Transform {
        r := ParseTransform();
      } else {
        r := Err(UnexpectedStatement(tokens[current]));
      }
    }

    /** `parse`: statements separated by line breaks, until EOF. */
    method Parse() returns (r: Result<seq<Stmt>, ParseError>)
      requires Valid()
      modifies this
      ensures r == Statements(tokens, [], old(current))
    {
      var statements := [];
      while tokens[current].kind != Eof
        invariant Valid()
        invariant Statements(tokens, [], old(current)) == Statements(tokens, statements, current)
        decreases |tokens| - current
      {
        ghost var before := current;
        while tokens[current].kind == Newline
          invariant Valid() && before <= current && PastNewlines(tokens, before) == PastNewlines(tokens, current)
          decreases |tokens| - current
        {
          var _ := Eat(Newline);
        }
        if tokens[current].kind == Eof {
          break;
        }
        var stmt := ParseStatement();
        if stmt.Err? {
          return Err(stmt.error);
        }
        statements := statements + [stmt.value];
        before := current;
        while tokens[current].kind == Newline
          invariant Valid() && before <= current && PastNewlines(tokens, before) == PastNewlines(tokens, current)
          decreases |tokens| - current
        {
          var _ := Eat(Newline);
        }
      }
      return Ok(statements);
    }
  }

  /** `new LogicalParser(new LogicalLexer(input)).parse()`. */
  method ParseInput(input: string) returns (r: Result<seq<Stmt>, ParseError>)
    ensures r == ParseSource(input)
  {
    var lexer := new UnifiedLexer.Lexer(input);
    var tokens := lexer.Tokenize();
    if tokens.Err? {
      return Err(LexFailed(tokens.error));
    }
    var parser := new Parser(tokens.value);
    r := parser.Parse();
  }
}
