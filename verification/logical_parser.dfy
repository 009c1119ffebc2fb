// The parser of logical_lexer_and_parser.mjs (`LogicalParser`): `if`/`else`
// blocks over logical conditions, where `and`/`or` share one level and a
// comparison takes exactly two basic operands. Shape, layer and transform
// statements are parsed by methods the class inherits from its base parser;
// here they are a parameter.

module LogicalParser {
  import opened Common
  import opened Tokens
  import opened Ast
  import P = UnifiedParser
  import L = LogicalLexer

  /** `error(message)` throws with the current token. */
  datatype ParseError =
    | Expected(expected: Kind, got: Token)
    | UnexpectedStatement(got: Token)
    | ExpectedPropertyName(got: Token)
    | UnexpectedInExpression(got: Token)
    | LexFailed(error: L.LexError)

  /**
   * The statement parsers the class inherits (`parseShapeDeclaration`,
   * `parseLayer`, `parseTransform`): from a cursor, a statement and the
   * cursor after it, or an error.
   */
  type BaseStatements = (seq<Token>, nat) -> Result<(Stmt, nat), ParseError>

  /** What the model asks of the inherited parsers: a statement they accept uses up at least one token. */
  ghost predicate Advances(base: BaseStatements)
  {
    forall ts: seq<Token>, i: nat {:trigger base(ts, i)} ::
      P.Ready(ts, i) && base(ts, i).Ok? ==> P.Ready(ts, base(ts, i).value.1) && i < base(ts, i).value.1
  }

  /** `eat(type)`: the current token must have the type; then `current` moves past it. */
  function Eaten(ts: seq<Token>, i: nat, k: Kind): (r: Result<nat, ParseError>)
    requires P.Ready(ts, i) && k != Eof
    ensures r.Ok? <==> ts[i].kind == k
    ensures r.Ok? ==> P.Ready(ts, r.value) && r.value == i + 1
    ensures r.Err? ==> r.error == Expected(k, ts[i])
  {
    if ts[i].kind == k then Ok(P.Next(ts, i)) else Err(Expected(k, ts[i]))
  }

  // ---- the shape of expression trees -------------------------------------------

  /** What `parseBasicExpression` builds without parentheses: a literal, a name, or `name.property`. */
  predicate Basic(e: Expr)
  {
    e.NumberLit? || e.StringLit? || e.BooleanLit? || e.Ident? || e.PropertyAccess?
  }

  /** A basic expression, or one comparison between two basic expressions: comparisons do not chain. */
  predicate ComparisonShaped(e: Expr)
  {
    Basic(e) || (e.ComparisonOp? && P.ComparisonText(e.operator) && Basic(e.left) && Basic(e.right))
  }

  /** A left-folded chain of comparisons under `and` and `or`, which share one level. */
  predicate LogicShaped(e: Expr)
  {
    ComparisonShaped(e) ||
    (e.LogicalOp? && (e.operator == "and" || e.operator == "or") && LogicShaped(e.left) && ComparisonShaped(e.right))
  }

  // ---- expressions -----------------------------------------------------------------

  /** `parseLogicalExpression`: comparisons joined by `and`/`or`, folded to the left. */
  function LogicalExpression(ts: seq<Token>, i: nat): (r: Result<(Expr, nat), ParseError>)
    requires P.Ready(ts, i)
    ensures r.Ok? ==> P.Ready(ts, r.value.1) && i < r.value.1
    ensures r.Ok? ==> ts[r.value.1].kind != And && ts[r.value.1].kind != Or
    ensures r.Ok? && P.ParenFree(ts, i) ==> LogicShaped(r.value.0)
    decreases |ts| - i, 5
  {
    var left :- ComparisonExpression(ts, i);
    LogicalTail(ts, left.0, left.1)
  }

  function LogicalTail(ts: seq<Token>, e: Expr, i: nat): (r: Result<(Expr, nat), ParseError>)
    requires P.Ready(ts, i)
    ensures r.Ok? ==> P.Ready(ts, r.value.1) && i <= r.value.1
    ensures r.Ok? ==> ts[r.value.1].kind != And && ts[r.value.1].kind != Or
    ensures r.Ok? && P.ParenFree(ts, i) && LogicShaped(e) ==> LogicShaped(r.value.0)
    decreases |ts| - i, 4
  {
    var k := ts[i].kind;
    if k == And || k == Or then
      var right :- ComparisonExpression(ts, P.Next(ts, i));
      LogicalTail(ts, LogicalOp(if k == And then "and" else "or", e, right.0), right.1)
    else Ok((e, i))
  }

  /** `parseComparisonExpression`: a basic expression, and at most one comparison operator with a second one. */
  function ComparisonExpression(ts: seq<Token>, i: nat): (r: Result<(Expr, nat), ParseError>)
    requires P.Ready(ts, i)
    ensures r.Ok? ==> P.Ready(ts, r.value.1) && i < r.value.1
    ensures r.Ok? && P.ParenFree(ts, i) ==> ComparisonShaped(r.value.0)
    decreases |ts| - i, 3
  {
    var left :- BasicExpression(ts, i);
    var op := P.ComparisonOperator(ts[left.1].kind);
    if op.Some? then
      var right :- BasicExpression(ts, P.Next(ts, left.1));
      Ok((ComparisonOp(op.value, left.0, right.0), right.1))
    else Ok(left)
  }

  /** The token types `parseBasicExpression` accepts: no `not`, no `-`, no arrays. */
  predicate StartsBasic(k: Kind)
  {
    k == Number || k == String || k == Boolean || k == Identifier || k == ShapeType || k == LParen
  }

  /**
   * `parseBasicExpression`: a number, a string, a boolean, a name or
   * `name.property`, or a parenthesised logical expression; anything else is
   * an error.
   */
  function BasicExpression(ts: seq<Token>, i: nat): (r: Result<(Expr, nat), ParseError>)
    requires P.Ready(ts, i)
    ensures r.Ok? ==> P.Ready(ts, r.value.1) && i < r.value.1
    ensures r.Ok? && P.ParenFree(ts, i) ==> Basic(r.value.0)
    ensures !StartsBasic(ts[i].kind) ==> r == Err(UnexpectedInExpression(ts[i]))
    decreases |ts| - i, 2
  {
    var token := ts[i];
    var k := token.kind;
    if k == Number then Ok((NumberLit(NumOf(token)), P.Next(ts, i)))
    else if k == String then Ok((StringLit(TextOf(token)), P.Next(ts, i)))
    else if k == Boolean then Ok((BooleanLit(TextOf(token) == "true"), P.Next(ts, i)))
    else if k == Identifier || k == ShapeType then NameOrAccess(ts, P.Next(ts, i), TextOf(token))
    else if k == LParen then Parenthesized(ts, i)
    else Err(UnexpectedInExpression(token))
  }

  /** `(`, a logical expression, `)`: the expression itself, with no node of its own. */
  function Parenthesized(ts: seq<Token>, i: nat): (r: Result<(Expr, nat), ParseError>)
    requires P.Ready(ts, i) && ts[i].kind == LParen
    ensures r.Ok? ==> P.Ready(ts, r.value.1) && i < r.value.1
    decreases |ts| - i, 1
  {
    var inner :- LogicalExpression(ts, P.Next(ts, i));
    var j :- Eaten(ts, inner.1, RParen);
    Ok((inner.0, j))
  }

  /** After a name: `.` and an IDENTIFIER or PROPERTY make a property access; otherwise the name alone. */
  function NameOrAccess(ts: seq<Token>, i: nat, name: string): (r: Result<(Expr, nat), ParseError>)
    requires P.Ready(ts, i)
    ensures r.Ok? ==> P.Ready(ts, r.value.1) && i <= r.value.1
    ensures r.Ok? ==> r.value.0 == Ident(name) || r.value.0.PropertyAccess?
    ensures ts[i].kind != Dot ==> r == Ok((Ident(name), i))
  {
    if ts[i].kind == Dot then
      var j := P.Next(ts, i);
      var k := ts[j].kind;
      if k != Identifier && k != Property then Err(ExpectedPropertyName(ts[j]))
      else Ok((PropertyAccess(name, TextOf(ts[j])), P.Next(ts, j)))
    else Ok((Ident(name), i))
  }

  // ---- statements ------------------------------------------------------------------

  /** The token types `parseStatement` dispatches on. */
  predicate StartsStatement(k: Kind)
  {
    k == If || k == ShapeType || k == Layer || k == Transform
  }

  /** `parseStatement`: `if` here; shapes, layers and transforms to the inherited parsers; anything else an error. */
  function Statement(base: BaseStatements, ts: seq<Token>, i: nat): (r: Result<(Stmt, nat), ParseError>)
    requires Advances(base) && P.Ready(ts, i)
    ensures r.Ok? ==> P.Ready(ts, r.value.1) && i < r.value.1
    ensures !StartsStatement(ts[i].kind) ==> r == Err(UnexpectedStatement(ts[i]))
    ensures ts[i].kind != If && StartsStatement(ts[i].kind) ==> r == base(ts, i)
    decreases |ts| - i, 25
  {
    var k := ts[i].kind;
    if k == If then IfStatement(base, ts, i)
    else if k == ShapeType || k == Layer || k == Transform then base(ts, i)
    else Err(UnexpectedStatement(ts[i]))
  }

  /** The loop of an `if` or `else` body: statements, each with an optional line break, up to DEDENT or EOF. */
  function Body(base: BaseStatements, ts: seq<Token>, acc: seq<Stmt>, i: nat): (r: Result<(seq<Stmt>, nat), ParseError>)
    requires Advances(base) && P.Ready(ts, i)
    ensures r.Ok? ==> P.Ready(ts, r.value.1) && i <= r.value.1 && acc <= r.value.0
    ensures r.Ok? ==> ts[r.value.1].kind == Dedent || ts[r.value.1].kind == Eof
    decreases |ts| - i, 30
  {
    if ts[i].kind == Dedent || ts[i].kind == Eof then Ok((acc, i))
    else
      var s :- Statement(base, ts, i);
      Body(base, ts, acc + [s.0], P.PastNewline(ts, s.1))
  }

  /** A block after `:`: an optional line break, INDENT, the statement loop, DEDENT. */
  function Suite(base: BaseStatements, ts: seq<Token>, i: nat): (r: Result<(seq<Stmt>, nat), ParseError>)
    requires Advances(base) && P.Ready(ts, i)
    ensures r.Ok? ==> P.Ready(ts, r.value.1) && i < r.value.1 && ts[r.value.1 - 1].kind == Dedent
    decreases |ts| - i, 31
  {
    var j :- Eaten(ts, P.PastNewline(ts, i), Indent);
    var body :- Body(base, ts, [], j);
    var j2 :- Eaten(ts, body.1, Dedent);
    Ok((body.0, j2))
  }

  /** `parseIfStatement`: `if`, a condition, `:`, a block, and an optional `else:` block (`elseBody` is null without one). */
  function IfStatement(base: BaseStatements, ts: seq<Token>, i: nat): (r: Result<(Stmt, nat), ParseError>)
    requires Advances(base) && P.Ready(ts, i)
    ensures r.Ok? ==> P.Ready(ts, r.value.1) && i < r.value.1
    ensures r.Ok? ==> r.value.0.IfStmt?
    ensures r.Ok? && r.value.0.elseBody.NoElse? ==> ts[r.value.1].kind != Kind.Else
    decreases |ts| - i, 20
  {
    var j :- Eaten(ts, i, If);
    var condition :- LogicalExpression(ts, j);
    var j2 :- Eaten(ts, condition.1, Colon);
    IfBlocks(base, ts, condition.0, j2)
  }

  /** The rest of `parseIfStatement` after the `:`: the block and the optional `else:` block. */
  function IfBlocks(base: BaseStatements, ts: seq<Token>, condition: Expr, i: nat): (r: Result<(Stmt, nat), ParseError>)
    requires Advances(base) && P.Ready(ts, i)
    ensures r.Ok? ==> P.Ready(ts, r.value.1) && i < r.value.1
    ensures r.Ok? ==> r.value.0.IfStmt?
    ensures r.Ok? && r.value.0.elseBody.NoElse? ==> ts[r.value.1].kind != Kind.Else
    decreases |ts| - i, 33
  {
    var body :- Suite(base, ts, i);
    var elseBody :- ElseClause(base, ts, body.1);
    Ok((IfStmt(condition, body.0, elseBody.0), elseBody.1))
  }

  /** After the `if` block: `else`, `:` and a second block, or nothing when no `else` follows. */
  function ElseClause(base: BaseStatements, ts: seq<Token>, i: nat): (r: Result<(ElseBranch, nat), ParseError>)
    requires Advances(base) && P.Ready(ts, i)
    ensures r.Ok? ==> P.Ready(ts, r.value.1) && i <= r.value.1
    ensures r.Ok? && r.value.0.Else? ==> i < r.value.1 && ts[r.value.1 - 1].kind == Dedent
    ensures ts[i].kind != Kind.Else ==> r == Ok((NoElse, i))
    ensures r.Ok? && r.value.0.NoElse? ==> r.value.1 == i && ts[i].kind != Kind.Else
    decreases |ts| - i, 32
  {
    if ts[i].kind == Kind.Else then
      var j :- Eaten(ts, P.Next(ts, i), Colon);
      var block :- Suite(base, ts, j);
      Ok((ElseBranch.Else(block.0), block.1))
    else Ok((NoElse, i))
  }

  /** The loop of `parse`: line breaks, then a statement, then line breaks, until EOF. */
  function Statements(base: BaseStatements, ts: seq<Token>, acc: seq<Stmt>, i: nat): (r: Result<seq<Stmt>, ParseError>)
    requires Advances(base) && P.Ready(ts, i)
    ensures r.Ok? ==> acc <= r.value
    decreases |ts| - i
  {
    if ts[i].kind == Eof then Ok(acc)
    else
      var j := P.PastNewlines(ts, i);
      if ts[j].kind == Eof then Ok(acc)
      else
        var s :- Statement(base, ts, j);
        Statements(base, ts, acc + [s.0], P.PastNewlines(ts, s.1))
  }

  /** `new LogicalParser(new LogicalLexer(input)).parse()`: a lexical error surfaces from the constructor. */
  function ParseSource(base: BaseStatements, input: string): Result<seq<Stmt>, ParseError>
    requires Advances(base)
  {
    var ts := L.Lex(input);
    if ts.Err? then Err(LexFailed(ts.error)) else Statements(base, ts.value, [], 0)
  }

  // ---- conditions on token lists of a fixed shape ------------------------------------

  /** A name not followed by `.` is a basic expression on its own. */
  lemma NameAlone(ts: seq<Token>, i: nat)
    requires P.Ready(ts, i + 1) && ts[i].kind == Identifier && ts[i + 1].kind != Dot
    ensures BasicExpression(ts, i) == Ok((Ident(TextOf(ts[i])), i + 1))
  {
  }

  /** `a < b < c` stops after `a < b`: a comparison takes two operands and the second `<` is left over. */
  lemma ComparisonsDoNotChain(ts: seq<Token>)
    requires P.Shaped(ts, Identifier, LessThan, Identifier, LessThan, Identifier)
    ensures var a, b := Ident(TextOf(ts[0])), Ident(TextOf(ts[2]));
            LogicalExpression(ts, 0) == Ok((ComparisonOp("<", a, b), 3))
  {
    var a, b := Ident(TextOf(ts[0])), Ident(TextOf(ts[2]));
    NameAlone(ts, 0);
    NameAlone(ts, 2);
    assert ComparisonExpression(ts, 0) == Ok((ComparisonOp("<", a, b), 3));
  }

  /** So `if a < b < c:` is refused: the parser expects the colon where the second `<` stands. */
  lemma ChainedConditionRejected(base: BaseStatements, ts: seq<Token>)
    requires Advances(base) && P.Stream(ts) && |ts| > 5
    requires ts[0].kind == If && ts[1].kind == Identifier && ts[2].kind == LessThan
    requires ts[3].kind == Identifier && ts[4].kind == LessThan
    ensures Statement(base, ts, 0) == Err(Expected(Colon, ts[4]))
  {
    var a, b := Ident(TextOf(ts[1])), Ident(TextOf(ts[3]));
    NameAlone(ts, 1);
    NameAlone(ts, 3);
    assert ComparisonExpression(ts, 1) == Ok((ComparisonOp("<", a, b), 4));
    assert LogicalExpression(ts, 1) == Ok((ComparisonOp("<", a, b), 4));
    assert IfStatement(base, ts, 0) == Err(Expected(Colon, ts[4]));
  }

  /** `a or b and c` is `(a or b) and c`: `and` and `or` share one level and fold to the left. */
  lemma LogicIsOneLevel(ts: seq<Token>)
    requires P.Shaped(ts, Identifier, Or, Identifier, And, Identifier)
    ensures var a, b, c := Ident(TextOf(ts[0])), Ident(TextOf(ts[2])), Ident(TextOf(ts[4]));
            LogicalExpression(ts, 0) == Ok((LogicalOp("and", LogicalOp("or", a, b), c), 5))
  {
    var a, b, c := Ident(TextOf(ts[0])), Ident(TextOf(ts[2])), Ident(TextOf(ts[4]));
    NameAlone(ts, 0);
    NameAlone(ts, 2);
    NameAlone(ts, 4);
    assert ComparisonExpression(ts, 0) == Ok((a, 1));
    assert ComparisonExpression(ts, 2) == Ok((b, 3));
    assert ComparisonExpression(ts, 4) == Ok((c, 5));
    assert LogicalTail(ts, LogicalOp("or", a, b), 3) == Ok((LogicalOp("and", LogicalOp("or", a, b), c), 5));
  }

  /** `not` and `-` start no expression here: a condition cannot be negated. */
  lemma NoNegation(ts: seq<Token>, i: nat)
    requires P.Ready(ts, i) && (ts[i].kind == Not || ts[i].kind == Minus || ts[i].kind == LBracket)
    ensures LogicalExpression(ts, i) == Err(UnexpectedInExpression(ts[i]))
  {
    assert ComparisonExpression(ts, i) == Err(UnexpectedInExpression(ts[i]));
  }

  // ---- the parser object -------------------------------------------------------

  /**
   * `LogicalParser`: the token list, the cursor `current`, and the statement
   * parsers it inherits.
   */
  class Parser {
    const tokens: seq<Token>
    const base: BaseStatements
    var current: nat

    ghost predicate Valid()
      reads this
    {
      P.Ready(tokens, current) && Advances(base)
    }

    /** The constructor, once `tokenize` has produced the tokens. */
    constructor (tokens: seq<Token>, base: BaseStatements)
      requires P.Stream(tokens) && Advances(base)
      ensures Valid() && this.tokens == tokens && this.base == base && current == 0
    {
      this.tokens := tokens;
      this.base := base;
      current := 0;
    }

    /** `eat(type)`. */
    method Eat(k: Kind) returns (r: Result<Token, ParseError>)
      requires Valid() && k != Eof
      modifies this
      ensures Valid()
      ensures r.Ok? ==> r.value == tokens[old(current)]
      ensures var spec := Eaten(tokens, old(current), k); (r.Ok? ==> spec == Ok(current)) && (r.Err? ==> spec == Err(r.error))
    {
      var token := tokens[current];
      if token.kind == k {
        current := current + 1;
        return Ok(token);
      }
      return Err(Expected(k, token));
    }

    /** The optional line break after `:` and after each statement of a block. */
    method SkipNewline()
      requires Valid()
      modifies this
      ensures Valid() && current == P.PastNewline(tokens, old(current))
    {
      if tokens[current].kind == Newline {
        current := current + 1;
      }
    }

    method ParseLogicalExpression() returns (r: Result<Expr, ParseError>)
      requires Valid()
      modifies this
      ensures Valid()
      ensures Outcome(r, current) == LogicalExpression(tokens, old(current))
      decreases |tokens| - current, 5
    {
      var left := ParseComparisonExpression();
      if left.Err? {
        return Err(left.error);
      }
      var expr := left.value;
      while tokens[current].kind == And || tokens[current].kind == Or
        invariant Valid() && old(current) < current
        invariant LogicalExpression(tokens, old(current)) == LogicalTail(tokens, expr, current)
        decreases |tokens| - current
      {
        var operator := if tokens[current].kind == And then "and" else "or";
        var _ := Eat(tokens[current].kind);
        var right := ParseComparisonExpression();
        if right.Err? {
          return Err(right.error);
        }
        expr := LogicalOp(operator, expr, right.value);
      }
      return Ok(expr);
    }

    method ParseComparisonExpression() returns (r: Result<Expr, ParseError>)
      requires Valid()
      modifies this
      ensures Valid()
      ensures Outcome(r, current) == ComparisonExpression(tokens, old(current))
      decreases |tokens| - current, 3
    {
      var left := ParseBasicExpression();
      if left.Err? {
        return Err(left.error);
      }
      var op := P.ComparisonOperator(tokens[current].kind);
      if op.Some? {
        var _ := Eat(tokens[current].kind);
        var right := ParseBasicExpression();
        if right.Err? {
          return Err(right.error);
        }
        return Ok(ComparisonOp(op.value, left.value, right.value));
      }
      return left;
    }

    method ParseBasicExpression() returns (r: Result<Expr, ParseError>)
      requires Valid()
      modifies this
      ensures Valid()
      ensures Outcome(r, current) == BasicExpression(tokens, old(current))
      decreases |tokens| - current, 2
    {
      var token := tokens[current];
      if token.kind == Number {
        var _ := Eat(Number);
        return Ok(NumberLit(NumOf(token)));
      }
      if token.kind == String {
        var _ := Eat(String);
        return Ok(StringLit(TextOf(token)));
      }
      if token.kind == Boolean {
        var _ := Eat(Boolean);
        return Ok(BooleanLit(TextOf(token) == "true"));
      }
      if token.kind == Identifier || token.kind == ShapeType {
        var name := TextOf(token);
        var _ := Eat(token.kind);
        if tokens[current].kind == Dot {
          var _ := Eat(Dot);
          var propType := tokens[current].kind;
          if propType != Identifier && propType != Property {
            return Err(ExpectedPropertyName(tokens[current]));
          }
          var propName := TextOf(tokens[current]);
          var _ := Eat(propType);
          return Ok(PropertyAccess(name, propName));
        }
        return Ok(Ident(name));
      }
      if token.kind == LParen {
        var _ := Eat(LParen);
        var expr := ParseLogicalExpression();
        if expr.Err? {
          return expr;
        }
        var eaten := Eat(RParen);
        if eaten.Err? {
          return Err(eaten.error);
        }
        return expr;
      }
      return Err(UnexpectedInExpression(token));
    }

    method ParseStatement() returns (r: Result<Stmt, ParseError>)
      requires Valid()
      modifies this
      ensures Valid()
      ensures Outcome(r, current) == Statement(base, tokens, old(current))
      decreases |tokens| - current, 25
    {
      var k := tokens[current].kind;
      if k == If {
        r := ParseIfStatement();
      } else if k == ShapeType || k == Layer || k == Transform {
        var s := base(tokens, current);
        if s.Err? {
          return Err(s.error);
        }
        current := s.value.1;
        return Ok(s.value.0);
      } else {
        r := Err(UnexpectedStatement(tokens[current]));
      }
    }

    /** The statement loop of a block, up to DEDENT or EOF. */
    method ParseBody() returns (r: Result<seq<Stmt>, ParseError>)
      requires Valid()
      modifies this
      ensures Valid()
      ensures Outcome(r, current) == Body(base, tokens, [], old(current))
      decreases |tokens| - current, 30
    {
      var body := [];
      while tokens[current].kind != Dedent && tokens[current].kind != Eof
        invariant Valid() && old(current) <= current
        invariant Body(base, tokens, [], old(current)) == Body(base, tokens, body, current)
        decreases |tokens| - current
      {
        var s := ParseStatement();
        if s.Err? {
          return Err(s.error);
        }
        body := body + [s.value];
        SkipNewline();
      }
      return Ok(body);
    }

    /** An optional line break, INDENT, the statement loop, DEDENT. */
    method ParseSuite() returns (r: Result<seq<Stmt>, ParseError>)
      requires Valid()
      modifies this
      ensures Valid()
      ensures Outcome(r, current) == Suite(base, tokens, old(current))
      decreases |tokens| - current, 31
    {
      SkipNewline();
      var eaten := Eat(Indent);
      if eaten.Err? {
        return Err(eaten.error);
      }
      var body := ParseBody();
      if body.Err? {
        return body;
      }
      eaten := Eat(Dedent);
      if eaten.Err? {
        return Err(eaten.error);
      }
      return body;
    }

    method ParseIfStatement() returns (r: Result<Stmt, ParseError>)
      requires Valid()
      modifies this
      ensures Valid()
      ensures Outcome(r, current) == IfStatement(base, tokens, old(current))
      decreases |tokens| - current, 20
    {
      var eaten := Eat(If);
      if eaten.Err? {
        return Err(eaten.error);
      }
      var condition := ParseLogicalExpression();
      if condition.Err? {
        return Err(condition.error);
      }
      eaten := Eat(Colon);
      if eaten.Err? {
        return Err(eaten.error);
      }
      ghost var spec := IfBlocks(base, tokens, condition.value, current);
      assert IfStatement(base, tokens, old(current)) == spec;
      var body := ParseSuite();
      if body.Err? {
        return Err(body.error);
      }
      var elseBody := ParseElse();
      if elseBody.Err? {
        return Err(elseBody.error);
      }
      return Ok(IfStmt(condition.value, body.value, elseBody.value));
    }

    /** `else`, `:` and a block when the current token is ELSE; otherwise no `else`. */
    method ParseElse() returns (r: Result<ElseBranch, ParseError>)
      requires Valid()
      modifies this
      ensures Valid()
      ensures Outcome(r, current) == ElseClause(base, tokens, old(current))
      decreases |tokens| - current, 32
    {
      if tokens[current].kind != Kind.Else {
        return Ok(NoElse);
      }
      var eaten := Eat(Kind.Else);
      eaten := Eat(Colon);
      if eaten.Err? {
        return Err(eaten.error);
      }
      var block := ParseSuite();
      if block.Err? {
        return Err(block.error);
      }
      return Ok(ElseBranch.Else(block.value));
    }

    /** `parse`: statements separated by line breaks, until EOF. */
    method Parse() returns (r: Result<seq<Stmt>, ParseError>)
      requires Valid()
      modifies this
      ensures r == Statements(base, tokens, [], old(current))
    {
      var statements := [];
      while tokens[current].kind != Eof
        invariant Valid()
        invariant Statements(base, tokens, [], old(current)) == Statements(base, tokens, statements, current)
        decreases |tokens| - current
      {
        ghost var before := current;
        while tokens[current].kind == Newline
          invariant Valid() && before <= current && P.PastNewlines(tokens, before) == P.PastNewlines(tokens, current)
          decreases |tokens| - current
        {
          var _ := Eat(Newline);
        }
        if tokens[current].kind == Eof {
          break;
        }
        var stmt := ParseStatement();
        if stmt.Err? {
          return Err(stmt.error);
        }
        statements := statements + [stmt.value];
        before := current;
        while tokens[current].kind == Newline
          invariant Valid() && before <= current && P.PastNewlines(tokens, before) == P.PastNewlines(tokens, current)
          decreases |tokens| - current
        {
          var _ := Eat(Newline);
        }
      }
      return Ok(statements);
    }
  }

  /** `new LogicalParser(new LogicalLexer(input)).parse()`, with the inherited statement parsers given. */
  method ParseInput(base: BaseStatements, input: string) returns (r: Result<seq<Stmt>, ParseError>)
    requires Advances(base)
    ensures r == ParseSource(base, input)
  {
    var lexer := new L.Lexer(input);
    var tokens := lexer.Tokenize();
    if tokens.Err? {
      return Err(LexFailed(tokens.error));
    }
    var parser := new Parser(tokens.value, base);
    r := parser.Parse();
  }
}
