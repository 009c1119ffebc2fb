// The brace-delimited parser of parser.mjs. Its lexer (lexer.mjs) is not
// part of this model: the parser reads from an abstract token source that
// hands out a fixed token sequence ending in EOF, and keeps answering with
// that EOF once the sequence is exhausted.

module BraceParser {
  import opened Common
  import opened Tokens

  /** Expression nodes: `{type: 'number' | 'boolean' | 'string' | 'identifier' | 'param_ref' | 'unary_op' | 'binary_op' | 'comparison' | 'logical_op' | 'array', ...}`. */
  datatype BExpr =
    | BNumber(value: TokenValue)
    | BBool(flag: bool)
      /** The values of the tokens between the quotes; the node's text is them joined by spaces and trimmed. */
    | BString(words: seq<TokenValue>)
    | BIdent(name: TokenValue)
    | ParamRef(name: TokenValue, property: TokenValue)
    | BUnary(operator: string, operand: BExpr)
    | BBinary(operator: string, left: BExpr, right: BExpr)
    | BComparison(operator: string, left: BExpr, right: BExpr)
    | BLogical(operator: string, left: BExpr, right: BExpr)
    | BArray(elements: seq<BExpr>)

  /** Statements, layer commands and transform operations: all plain objects tagged by `type`. */
  datatype BStmt =
    | IfNode(condition: BExpr, thenBranch: seq<BStmt>, elseBranch: seq<BStmt>)
    | ParamNode(name: TokenValue, value: BExpr)
    | ShapeNode(shapeType: TokenValue, shapeName: Option<TokenValue>, params: map<string, BExpr>)
    | LayerNode(name: TokenValue, commands: seq<BStmt>)
    | TransformNode(target: TokenValue, operations: seq<BStmt>)
    | AddNode(shape: TokenValue)
    | SubtractNode(shape: TokenValue)
    | RotateNode(angle: BExpr)
    | ScaleNode(value: BExpr)
    | TranslateNode(value: BExpr)

  /** `error(message)` throws with the current token's line and column; the token is kept. */
  datatype BraceError =
    | Expected(expected: Kind, got: Token)
    | UnexpectedInFactor(got: Token)
    | ExpectedPropertyName(got: Token)
    | UnknownLayerCommand(got: Token)
    | UnknownTransformCommand(got: Token)
    | UnexpectedToken(got: Token)

  /** What the lexer hands out: a token sequence whose last token is EOF. */
  predicate Stream(ts: seq<Token>) { |ts| > 0 && ts[|ts| - 1].kind == Eof }

  /** `lexer.getNextToken()`: the token at `n`, or the final EOF once the sequence is exhausted. */
  function Pull(ts: seq<Token>, n: nat): (r: (Token, nat))
    requires Stream(ts) && n <= |ts|
    ensures r.1 <= |ts| && (n < |ts| ==> r == (ts[n], n + 1)) && (n == |ts| ==> r == (ts[|ts| - 1], n))
  {
    if n < |ts| then (ts[n], n + 1) else (ts[|ts| - 1], n)
  }

  /** The parser's position: the index of the lexer's next token and `currentToken`. */
  datatype PState = PState(next: nat, cur: Token)

  predicate Ready(ts: seq<Token>, p: PState) { Stream(ts) && p.next <= |ts| }

  function Measure(ts: seq<Token>, p: PState): nat
    requires Ready(ts, p)
  {
    2 * (|ts| - p.next) + (if p.cur.kind == Eof then 0 else 1)
  }

  /** No parenthesis in the current token or in what the lexer has still to hand out. */
  predicate ParenFree(ts: seq<Token>, p: PState)
  {
    p.cur.kind != LParen && forall k :: p.next <= k < |ts| ==> ts[k].kind != LParen
  }

  /** `eat(type)`: the current token must have the type; it is replaced by the lexer's next token. */
  function Eaten(ts: seq<Token>, p: PState, k: Kind): (r: Result<PState, BraceError>)
    requires Ready(ts, p)
    ensures r.Ok? <==> p.cur.kind == k
    ensures r.Ok? ==> Ready(ts, r.value) && r.value.next >= p.next && Measure(ts, r.value) <= Measure(ts, p)
    ensures r.Ok? && k != Eof ==> Measure(ts, r.value) < Measure(ts, p)
    ensures r.Ok? && ParenFree(ts, p) ==> ParenFree(ts, r.value)
    ensures r.Err? ==> r.error == Expected(k, p.cur)
  {
    if p.cur.kind == k then
      var (t, n) := Pull(ts, p.next);
      Ok(PState(n, t))
    else Err(Expected(k, p.cur))
  }

  /** `eat` of the token just tested: it cannot fail, and the lexer's next token becomes current. */
  function Consume(ts: seq<Token>, p: PState): (r: PState)
    requires Ready(ts, p)
    ensures Ready(ts, r) && r.next >= p.next && Measure(ts, r) <= Measure(ts, p)
    ensures p.cur.kind != Eof ==> Measure(ts, r) < Measure(ts, p)
    ensures ParenFree(ts, p) ==> ParenFree(ts, r)
    ensures Eaten(ts, p, p.cur.kind) == Ok(r)
  {
    PState(Pull(ts, p.next).1, Pull(ts, p.next).0)
  }

  // ---- operator names ----------------------------------------------------

  /** The token types `parseComparison` accepts. */
  predicate IsComparison(k: Kind)
  {
    k == Equals || k == NotEquals || k == Less || k == LessEquals || k == Greater || k == GreaterEquals
  }

  /** An arithmetic or comparison token type. */
  predicate IsOperator(k: Kind)
  {
    k == Plus || k == Minus || k == Multiply || k == Divide || IsComparison(k)
  }

  /** A binary operator's name is its token type in lower case. */
  function OperatorName(k: Kind): string
    requires IsOperator(k)
  {
    match k
    case Plus => "plus"
    case Minus => "minus"
    case Multiply => "multiply"
    case Divide => "divide"
    case Equals => "equals"
    case NotEquals => "not_equals"
    case Less => "less"
    case LessEquals => "less_equals"
    case Greater => "greater"
    case GreaterEquals => "greater_equals"
  }

  predicate ComparisonName(op: string)
  {
    op == "equals" || op == "not_equals" || op == "less" || op == "less_equals" || op == "greater" || op == "greater_equals"
  }

  lemma ComparisonNames(k: Kind)
    requires IsComparison(k)
    ensures ComparisonName(OperatorName(k))
  {
  }

  // ---- the shape of expression trees ---------------------------------------
  // Without parentheses, precedence from loosest to tightest is
  // `or` < `and` < one comparison < `+ -` < `* /` < a unit, and every binary
  // chain folds to the left.

  predicate Unit(e: BExpr)
    decreases e, 0
  {
    match e
    case BNumber(_) => true
    case BBool(_) => true
    case BString(_) => true
    case BIdent(_) => true
    case ParamRef(_, _) => true
    case BArray(es) => forall k :: 0 <= k < |es| ==> SumShaped(es[k])
    case BUnary(op, operand) => (op == "not" || op == "minus") && Unit(operand)
    case _ => false
  }

  predicate ProductShaped(e: BExpr)
    decreases e, 1
  {
    Unit(e) ||
    (e.BBinary? && (e.operator == "multiply" || e.operator == "divide") && ProductShaped(e.left) && Unit(e.right))
  }

  predicate SumShaped(e: BExpr)
    decreases e, 2
  {
    ProductShaped(e) ||
    (e.BBinary? && (e.operator == "plus" || e.operator == "minus") && SumShaped(e.left) && ProductShaped(e.right))
  }

  predicate ComparisonShaped(e: BExpr)
  {
    SumShaped(e) ||
    (e.BComparison? && ComparisonName(e.operator) && SumShaped(e.left) && SumShaped(e.right))
  }

  predicate AndShaped(e: BExpr)
  {
    ComparisonShaped(e) || (e.BLogical? && e.operator == "and" && AndShaped(e.left) && ComparisonShaped(e.right))
  }

  predicate OrShaped(e: BExpr)
  {
    AndShaped(e) || (e.BLogical? && e.operator == "or" && OrShaped(e.left) && AndShaped(e.right))
  }

  /** A `*` or `/` node over a product and a unit is a product. */
  lemma ProductStep(k: Kind, e: BExpr, right: BExpr)
    requires k == Multiply || k == Divide
    ensures ProductShaped(e) && Unit(right) ==> ProductShaped(BBinary(OperatorName(k), e, right))
  {
  }

  /** A `+` or `-` node over a sum and a product is a sum. */
  lemma SumStep(k: Kind, e: BExpr, right: BExpr)
    requires k == Plus || k == Minus
    ensures SumShaped(e) && ProductShaped(right) ==> SumShaped(BBinary(OperatorName(k), e, right))
  {
  }

  // ---- expressions ---------------------------------------------------------

  /** `parseCondition`, which is `parseLogicalOr`: `and` chains joined by `or`, folded to the left. */
  function Condition(ts: seq<Token>, p: PState): (r: Result<(BExpr, PState), BraceError>)
    requires Ready(ts, p)
    ensures r.Ok? ==> Ready(ts, r.value.1) && r.value.1.next >= p.next && Measure(ts, r.value.1) < Measure(ts, p)
    ensures r.Ok? ==> r.value.1.cur.kind != Or
    ensures r.Ok? && ParenFree(ts, p) ==> OrShaped(r.value.0) && ParenFree(ts, r.value.1)
    decreases Measure(ts, p), 11
  {
    var left :- LogicalAnd(ts, p);
    OrTail(ts, left.0, left.1)
  }

  function OrTail(ts: seq<Token>, e: BExpr, p: PState): (r: Result<(BExpr, PState), BraceError>)
    requires Ready(ts, p)
    ensures r.Ok? ==> Ready(ts, r.value.1) && r.value.1.next >= p.next && Measure(ts, r.value.1) <= Measure(ts, p)
    ensures r.Ok? ==> r.value.1.cur.kind != Or
    ensures r.Ok? && ParenFree(ts, p) && OrShaped(e) ==> OrShaped(r.value.0) && ParenFree(ts, r.value.1)
    decreases Measure(ts, p), 10
  {
    if p.cur.kind == Or then
      var q := Consume(ts, p);
      var right :- LogicalAnd(ts, q);
      OrTail(ts, BLogical("or", e, right.0), right.1)
    else Ok((e, p))
  }

  /** `parseLogicalAnd`: comparisons joined by `and`, folded to the left. */
  function LogicalAnd(ts: seq<Token>, p: PState): (r: Result<(BExpr, PState), BraceError>)
    requires Ready(ts, p)
    ensures r.Ok? ==> Ready(ts, r.value.1) && r.value.1.next >= p.next && Measure(ts, r.value.1) < Measure(ts, p)
    ensures r.Ok? ==> r.value.1.cur.kind != And
    ensures r.Ok? && ParenFree(ts, p) ==> AndShaped(r.value.0) && ParenFree(ts, r.value.1)
    decreases Measure(ts, p), 9
  {
    var left :- Comparison(ts, p);
    AndTail(ts, left.0, left.1)
  }

  function AndTail(ts: seq<Token>, e: BExpr, p: PState): (r: Result<(BExpr, PState), BraceError>)
    requires Ready(ts, p)
    ensures r.Ok? ==> Ready(ts, r.value.1) && r.value.1.next >= p.next && Measure(ts, r.value.1) <= Measure(ts, p)
    ensures r.Ok? ==> r.value.1.cur.kind != And
    ensures r.Ok? && ParenFree(ts, p) && AndShaped(e) ==> AndShaped(r.value.0) && ParenFree(ts, r.value.1)
    decreases Measure(ts, p), 8
  {
    if p.cur.kind == And then
      var q := Consume(ts, p);
      var right :- Comparison(ts, q);
      AndTail(ts, BLogical("and", e, right.0), right.1)
    else Ok((e, p))
  }

  /** `parseComparison`: at most one comparison operator between two expressions. */
  function Comparison(ts: seq<Token>, p: PState): (r: Result<(BExpr, PState), BraceError>)
    requires Ready(ts, p)
    ensures r.Ok? ==> Ready(ts, r.value.1) && r.value.1.next >= p.next && Measure(ts, r.value.1) < Measure(ts, p)
    ensures r.Ok? && ParenFree(ts, p) ==> ComparisonShaped(r.value.0) && ParenFree(ts, r.value.1)
    decreases Measure(ts, p), 7
  {
    var left :- Expression(ts, p);
    var q := left.1;
    if IsComparison(q.cur.kind) then
      var right :- Expression(ts, Consume(ts, q));
      ComparisonNames(q.cur.kind);
      Ok((BComparison(OperatorName(q.cur.kind), left.0, right.0), right.1))
    else Ok(left)
  }

  /** `parseExpression`: terms joined by `+`/`-`, folded to the left. */
  function Expression(ts: seq<Token>, p: PState): (r: Result<(BExpr, PState), BraceError>)
    requires Ready(ts, p)
    ensures r.Ok? ==> Ready(ts, r.value.1) && r.value.1.next >= p.next && Measure(ts, r.value.1) < Measure(ts, p)
    ensures r.Ok? ==> r.value.1.cur.kind != Plus && r.value.1.cur.kind != Minus
    ensures r.Ok? && ParenFree(ts, p) ==> SumShaped(r.value.0) && ParenFree(ts, r.value.1)
    decreases Measure(ts, p), 6
  {
    var left :- Term(ts, p);
    ExprTail(ts, left.0, left.1)
  }

  function ExprTail(ts: seq<Token>, e: BExpr, p: PState): (r: Result<(BExpr, PState), BraceError>)
    requires Ready(ts, p)
    ensures r.Ok? ==> Ready(ts, r.value.1) && r.value.1.next >= p.next && Measure(ts, r.value.1) <= Measure(ts, p)
    ensures r.Ok? ==> r.value.1.cur.kind != Plus && r.value.1.cur.kind != Minus
    ensures r.Ok? && ParenFree(ts, p) && SumShaped(e) ==> SumShaped(r.value.0) && ParenFree(ts, r.value.1)
    decreases Measure(ts, p), 5
  {
    if p.cur.kind == Plus || p.cur.kind == Minus then
      var q := Consume(ts, p);
      var right :- Term(ts, q);
      SumStep(p.cur.kind, e, right.0);
      ExprTail(ts, BBinary(OperatorName(p.cur.kind), e, right.0), right.1)
    else Ok((e, p))
  }

  /** `parseTerm`: factors joined by `*`/`/`, folded to the left. */
  function Term(ts: seq<Token>, p: PState): (r: Result<(BExpr, PState), BraceError>)
    requires Ready(ts, p)
    ensures r.Ok? ==> Ready(ts, r.value.1) && r.value.1.next >= p.next && Measure(ts, r.value.1) < Measure(ts, p)
    ensures r.Ok? ==> r.value.1.cur.kind != Multiply && r.value.1.cur.kind != Divide
    ensures r.Ok? && ParenFree(ts, p) ==> ProductShaped(r.value.0) && ParenFree(ts, r.value.1)
    decreases Measure(ts, p), 4
  {
    var left :- Factor(ts, p);
    TermTail(ts, left.0, left.1)
  }

  function TermTail(ts: seq<Token>, e: BExpr, p: PState): (r: Result<(BExpr, PState), BraceError>)
    requires Ready(ts, p)
    ensures r.Ok? ==> Ready(ts, r.value.1) && r.value.1.next >= p.next && Measure(ts, r.value.1) <= Measure(ts, p)
    ensures r.Ok? ==> r.value.1.cur.kind != Multiply && r.value.1.cur.kind != Divide
    ensures r.Ok? && ParenFree(ts, p) && ProductShaped(e) ==> ProductShaped(r.value.0) && ParenFree(ts, r.value.1)
    decreases Measure(ts, p), 3
  {
    if p.cur.kind == Multiply || p.cur.kind == Divide then
      var q := Consume(ts, p);
      var right :- Factor(ts, q);
      ProductStep(p.cur.kind, e, right.0);
      TermTail(ts, BBinary(OperatorName(p.cur.kind), e, right.0), right.1)
    else Ok((e, p))
  }

  /**
   * `parseFactor`: a number, `true`/`false`, `not` or `-` applied to one
   * factor, a name or `name.property`, an array, a quoted string, or a
   * parenthesised condition; anything else is an error.
   */
  function Factor(ts: seq<Token>, p: PState): (r: Result<(BExpr, PState), BraceError>)
    requires Ready(ts, p)
    ensures r.Ok? ==> Ready(ts, r.value.1) && r.value.1.next >= p.next && Measure(ts, r.value.1) < Measure(ts, p)
    ensures r.Ok? && ParenFree(ts, p) ==> Unit(r.value.0) && ParenFree(ts, r.value.1)
    ensures p.cur.kind !in {Number, True, False, Not, Identifier, Position, Minus, LBracket, Quote, LParen} ==>
              r == Err(UnexpectedInFactor(p.cur))
    decreases Measure(ts, p), 2
  {
    var token := p.cur;
    if token.kind == Number then
      var q := Consume(ts, p);
      Ok((BNumber(token.value), q))
    else if token.kind == True || token.kind == False then
      var q := Consume(ts, p);
      Ok((BBool(token.kind == True), q))
    else if token.kind == Not then
      var q := Consume(ts, p);
      var operand :- Factor(ts, q);
      Ok((BUnary("not", operand.0), operand.1))
    else if token.kind == Identifier || token.kind == Position then
      var q := Consume(ts, p);
      if q.cur.kind == Dot then
        var q2 := Consume(ts, q);
        var q3 :- Eaten(ts, q2, Identifier);
        Ok((ParamRef(token.value, q2.cur.value), q3))
      else Ok((BIdent(token.value), q))
    else if token.kind == Minus then
      var q := Consume(ts, p);
      var operand :- Factor(ts, q);
      Ok((BUnary("minus", operand.0), operand.1))
    else if token.kind == LBracket then
      ArrayLiteral(ts, p)
    else if token.kind == Quote then
      StringLiteral(ts, p)
    else if token.kind == LParen then
      var q := Consume(ts, p);
      var inner :- Condition(ts, q);
      var q2 :- Eaten(ts, inner.1, RParen);
      Ok((inner.0, q2))
    else Err(UnexpectedInFactor(token))
  }

  /**
   * The loop of `parseStringLiteral`: it reads tokens straight from the
   * lexer, bypassing `currentToken`, up to a closing quote or EOF, and
   * returns their values and the lexer position after the quote (or EOF).
   */
  function StringWords(ts: seq<Token>, n: nat, acc: seq<TokenValue>): (r: (seq<TokenValue>, nat))
    requires Stream(ts) && n <= |ts|
    ensures n <= r.1 <= |ts| && (n < |ts| ==> n < r.1)
    ensures |r.0| >= |acc| && r.0[..|acc|] == acc
    decreases |ts| - n
  {
    var (t, n1) := Pull(ts, n);
    if t.kind == Quote || t.kind == Eof then (acc, n1)
    else StringWords(ts, n1, acc + [t.value])
  }

  /** The values of a run of tokens. */
  function Values(ts: seq<Token>): (r: seq<TokenValue>)
    ensures |r| == |ts| && forall k :: 0 <= k < |ts| ==> r[k] == ts[k].value
  {
    seq(|ts|, k requires 0 <= k < |ts| => ts[k].value)
  }

  /**
   * The words of a string literal are exactly the values of the tokens up to
   * the first QUOTE or EOF, and the lexer stops just past that token.
   */
  lemma {:induction false} StringWordsRead(ts: seq<Token>, n: nat, m: nat, acc: seq<TokenValue>)
    requires Stream(ts) && n <= m < |ts|
    requires ts[m].kind == Quote || ts[m].kind == Eof
    requires forall k :: n <= k < m ==> ts[k].kind != Quote && ts[k].kind != Eof
    ensures StringWords(ts, n, acc) == (acc + Values(ts[n..m]), m + 1)
    decreases m - n
  {
    if n < m {
      StringWordsRead(ts, n + 1, m, acc + [ts[n].value]);
      assert acc + [ts[n].value] + Values(ts[n + 1..m]) == acc + Values(ts[n..m]);
    } else {
      assert Values(ts[n..m]) == [] && acc + [] == acc;
      assert Pull(ts, n) == (ts[m], m + 1);
    }
  }

  /**
   * `parseStringLiteral`, entered on the opening quote: the words up to the
   * closing quote; then `eat('QUOTE')` consumes the still-current opening
   * quote. A missing closing quote is not an error.
   */
  function StringLiteral(ts: seq<Token>, p: PState): (r: Result<(BExpr, PState), BraceError>)
    requires Ready(ts, p)
    ensures r.Ok? ==> Ready(ts, r.value.1) && r.value.1.next >= p.next && Measure(ts, r.value.1) < Measure(ts, p)
    ensures r.Ok? <==> p.cur.kind == Quote
    ensures r.Ok? ==> r.value.0.BString?
    ensures r.Ok? && ParenFree(ts, p) ==> ParenFree(ts, r.value.1)
    decreases Measure(ts, p), 0
  {
    var (words, n1) := StringWords(ts, p.next, []);
    var q :- Eaten(ts, PState(n1, p.cur), Quote);
    Ok((BString(words), q))
  }

  /** `parseArray`: `[`, expressions with no separator, `]`. */
  function ArrayLiteral(ts: seq<Token>, p: PState): (r: Result<(BExpr, PState), BraceError>)
    requires Ready(ts, p)
    ensures r.Ok? ==> Ready(ts, r.value.1) && r.value.1.next >= p.next && Measure(ts, r.value.1) < Measure(ts, p)
    ensures r.Ok? && ParenFree(ts, p) ==> Unit(r.value.0) && ParenFree(ts, r.value.1)
    decreases Measure(ts, p), 1
  {
    var q :- Eaten(ts, p, LBracket);
    var items :- ArrayItems(ts, [], q);
    var q2 := Consume(ts, items.1);
    Ok((BArray(items.0), q2))
  }

  function ArrayItems(ts: seq<Token>, acc: seq<BExpr>, p: PState): (r: Result<(seq<BExpr>, PState), BraceError>)
    requires Ready(ts, p)
    ensures r.Ok? ==> Ready(ts, r.value.1) && r.value.1.next >= p.next && Measure(ts, r.value.1) <= Measure(ts, p)
    ensures r.Ok? ==> r.value.1.cur.kind == RBracket
    ensures r.Ok? && ParenFree(ts, p) && (forall k :: 0 <= k < |acc| ==> SumShaped(acc[k])) ==>
              (forall k :: 0 <= k < |r.value.0| ==> SumShaped(r.value.0[k])) && ParenFree(ts, r.value.1)
    decreases Measure(ts, p), 12
  {
    if p.cur.kind == RBracket then Ok((acc, p))
    else
      var e :- Expression(ts, p);
      ArrayItems(ts, acc + [e.0], e.1)
  }

  // ---- statements ----------------------------------------------------------

  /** `parseIfStatement`: `if`, a condition, a braced body, and an optional `else` with a braced body. */
  function IfStatement(ts: seq<Token>, p: PState): (r: Result<(BStmt, PState), BraceError>)
    requires Ready(ts, p)
    ensures r.Ok? ==> Ready(ts, r.value.1) && r.value.1.next >= p.next && Measure(ts, r.value.1) < Measure(ts, p)
    ensures r.Ok? ==> r.value.0.IfNode?
    decreases Measure(ts, p), 20
  {
    var q :- Eaten(ts, p, If);
    var cond :- Condition(ts, q);
    var q2 :- Eaten(ts, cond.1, LBrace);
    var body :- Block(ts, [], q2);
    var q3 :- Eaten(ts, body.1, RBrace);
    var elseBranch :- ElsePart(ts, q3);
    Ok((IfNode(cond.0, body.0, elseBranch.0), elseBranch.1))
  }

  /** After the body: `else { ... }` when the next token is `else`, otherwise an empty list. */
  function ElsePart(ts: seq<Token>, p: PState): (r: Result<(seq<BStmt>, PState), BraceError>)
    requires Ready(ts, p)
    ensures r.Ok? ==> Ready(ts, r.value.1) && r.value.1.next >= p.next && Measure(ts, r.value.1) <= Measure(ts, p)
    ensures p.cur.kind != Else ==> r == Ok(([], p))
    decreases Measure(ts, p), 30
  {
    if p.cur.kind == Else then
      var q := Consume(ts, p);
      var q2 :- Eaten(ts, q, LBrace);
      var body :- Block(ts, [], q2);
      var q3 :- Eaten(ts, body.1, RBrace);
      Ok((body.0, q3))
    else Ok(([], p))
  }

  /** The loops over a branch body: statements until `}` or EOF. */
  function Block(ts: seq<Token>, acc: seq<BStmt>, p: PState): (r: Result<(seq<BStmt>, PState), BraceError>)
    requires Ready(ts, p)
    ensures r.Ok? ==> Ready(ts, r.value.1) && r.value.1.next >= p.next && Measure(ts, r.value.1) <= Measure(ts, p)
    ensures r.Ok? ==> (r.value.1.cur.kind == RBrace || r.value.1.cur.kind == Eof) && acc <= r.value.0
    decreases Measure(ts, p), 40
  {
    if p.cur.kind == RBrace || p.cur.kind == Eof then Ok((acc, p))
    else
      var s :- Statement(ts, p);
      Block(ts, acc + [s.0], s.1)
  }

  /** `parseParam`: `param`, a name, an expression. */
  function ParamDecl(ts: seq<Token>, p: PState): (r: Result<(BStmt, PState), BraceError>)
    requires Ready(ts, p)
    ensures r.Ok? ==> Ready(ts, r.value.1) && r.value.1.next >= p.next && Measure(ts, r.value.1) < Measure(ts, p)
    ensures r.Ok? ==> r.value.0.ParamNode?
    decreases Measure(ts, p), 20
  {
    var q :- Eaten(ts, p, Param);
    var q2 :- Eaten(ts, q, Identifier);
    var e :- Expression(ts, q2);
    Ok((ParamNode(q.cur.value, e.0), e.1))
  }

  /** The optional shape name: present exactly when the token after the type is an IDENTIFIER. */
  function ShapeName(ts: seq<Token>, p: PState): (r: (Option<TokenValue>, PState))
    requires Ready(ts, p)
    ensures Ready(ts, r.1) && r.1.next >= p.next && Measure(ts, r.1) <= Measure(ts, p)
    ensures r.0.None? <==> p.cur.kind != Identifier
    ensures r.0.Some? ==> r.0.value == p.cur.value
  {
    if p.cur.kind == Identifier then (Some(p.cur.value), Consume(ts, p))
    else (None, p)
  }

  /** `parseShape`: `shape`, a type, an optional name, then `{ name: expression ... }`. */
  function ShapeDecl(ts: seq<Token>, p: PState): (r: Result<(BStmt, PState), BraceError>)
    requires Ready(ts, p)
    ensures r.Ok? ==> Ready(ts, r.value.1) && r.value.1.next >= p.next && Measure(ts, r.value.1) < Measure(ts, p)
    ensures r.Ok? ==> r.value.0.ShapeNode?
    decreases Measure(ts, p), 20
  {
    var q :- Eaten(ts, p, Shape);
    var q2 :- Eaten(ts, q, Identifier);
    var name := ShapeName(ts, q2);
    var q3 :- Eaten(ts, name.1, LBrace);
    ShapeBody(ts, q.cur.value, name.0, q3)
  }

  /** The parameters between the braces of a shape, and the closing `}`. */
  function ShapeBody(ts: seq<Token>, shapeType: TokenValue, name: Option<TokenValue>, p: PState)
    : (r: Result<(BStmt, PState), BraceError>)
    requires Ready(ts, p)
    ensures r.Ok? ==> Ready(ts, r.value.1) && r.value.1.next >= p.next && Measure(ts, r.value.1) < Measure(ts, p)
    ensures r.Ok? ==> r.value.0.ShapeNode?
    decreases Measure(ts, p), 31
  {
    var params :- ShapeParams(ts, map[], p);
    Ok((ShapeNode(shapeType, name, params.0), Consume(ts, params.1)))
  }

  /**
   * A parameter name is an IDENTIFIER or `position`; its value is stored under the token's text.
   * Keys are taken to be ordinary string token values: a token whose value is not a string
   * keys its parameter by "" where the source uses `String(value)`, and a `__proto__` name is
   * an ordinary key here where the source's assignment would set the object's prototype.
   */
  function ShapeParams(ts: seq<Token>, params: map<string, BExpr>, p: PState): (r: Result<(map<string, BExpr>, PState), BraceError>)
    requires Ready(ts, p)
    ensures r.Ok? ==> Ready(ts, r.value.1) && r.value.1.next >= p.next && Measure(ts, r.value.1) <= Measure(ts, p)
    ensures r.Ok? ==> r.value.1.cur.kind == RBrace && params.Keys <= r.value.0.Keys
    ensures p.cur.kind !in {RBrace, Identifier, Position} ==> r == Err(ExpectedPropertyName(p.cur))
    decreases Measure(ts, p), 30
  {
    if p.cur.kind == RBrace then Ok((params, p))
    else if p.cur.kind != Identifier && p.cur.kind != Position then Err(ExpectedPropertyName(p.cur))
    else
      var q := Consume(ts, p);
      var q2 :- Eaten(ts, q, Colon);
      var e :- Expression(ts, q2);
      ShapeParams(ts, params[TextOf(p.cur) := e.0], e.1)
  }

  /** `parseLayer`: `layer`, a name, then `{ ... }` of `if`, `add`, `subtract` and `rotate` commands. */
  function LayerDecl(ts: seq<Token>, p: PState): (r: Result<(BStmt, PState), BraceError>)
    requires Ready(ts, p)
    ensures r.Ok? ==> Ready(ts, r.value.1) && r.value.1.next >= p.next && Measure(ts, r.value.1) < Measure(ts, p)
    ensures r.Ok? ==> r.value.0.LayerNode?
    decreases Measure(ts, p), 20
  {
    var q :- Eaten(ts, p, Layer);
    var q2 :- Eaten(ts, q, Identifier);
    var q3 :- Eaten(ts, q2, LBrace);
    var commands :- LayerCommands(ts, [], q3);
    var q4 := Consume(ts, commands.1);
    Ok((LayerNode(q.cur.value, commands.0), q4))
  }

  predicate StartsLayerCommand(k: Kind) { k == If || k == Add || k == Subtract || k == Rotate }

  /** Every element is an `if`, `add`, `subtract` or `rotate` command. */
  predicate AllLayerCommands(cs: seq<BStmt>)
  {
    forall k :: 0 <= k < |cs| ==> cs[k].IfNode? || cs[k].AddNode? || cs[k].SubtractNode? || cs[k].RotateNode?
  }

  lemma LayerCommandsAppend(cs: seq<BStmt>, c: seq<BStmt>)
    requires AllLayerCommands(cs) && AllLayerCommands(c)
    ensures AllLayerCommands(cs + c)
  {
  }

  /** One layer command: an `if` statement, `add name`, `subtract name`, or `rotate expression` (no colon). */
  function LayerCommand(ts: seq<Token>, p: PState): (r: Result<(BStmt, PState), BraceError>)
    requires Ready(ts, p)
    ensures r.Ok? ==> Ready(ts, r.value.1) && r.value.1.next >= p.next && Measure(ts, r.value.1) < Measure(ts, p)
    ensures r.Ok? ==> AllLayerCommands([r.value.0])
    ensures !StartsLayerCommand(p.cur.kind) ==> r == Err(UnknownLayerCommand(p.cur))
    decreases Measure(ts, p), 22
  {
    if p.cur.kind == If then IfStatement(ts, p)
    else if p.cur.kind == Add || p.cur.kind == Subtract then
      var q := Consume(ts, p);
      var q2 :- Eaten(ts, q, Identifier);
      Ok((if p.cur.kind == Add then AddNode(q.cur.value) else SubtractNode(q.cur.value), q2))
    else if p.cur.kind == Rotate then
      var e :- Expression(ts, Consume(ts, p));
      Ok((RotateNode(e.0), e.1))
    else Err(UnknownLayerCommand(p.cur))
  }

  /** The loop of `parseLayer`: commands until `}`. */
  function LayerCommands(ts: seq<Token>, acc: seq<BStmt>, p: PState): (r: Result<(seq<BStmt>, PState), BraceError>)
    requires Ready(ts, p)
    ensures r.Ok? ==> Ready(ts, r.value.1) && r.value.1.next >= p.next && Measure(ts, r.value.1) <= Measure(ts, p)
    ensures r.Ok? ==> r.value.1.cur.kind == RBrace && acc <= r.value.0
    ensures r.Ok? && AllLayerCommands(acc) ==> AllLayerCommands(r.value.0)
    ensures p.cur.kind != RBrace && !StartsLayerCommand(p.cur.kind) ==> r == Err(UnknownLayerCommand(p.cur))
    decreases Measure(ts, p), 30
  {
    if p.cur.kind == RBrace then Ok((acc, p))
    else
      var c :- LayerCommand(ts, p);
      var r := LayerCommands(ts, acc + [c.0], c.1);
      assert r.Ok? && AllLayerCommands(acc) ==> AllLayerCommands(r.value.0) by {
        if AllLayerCommands(acc) { LayerCommandsAppend(acc, [c.0]); }
      }
      r
  }

  /** `parseTransform`: `transform`, a target, then `{ ... }` of `if`, `scale:`, `rotate:` and `position:`. */
  function TransformDecl(ts: seq<Token>, p: PState): (r: Result<(BStmt, PState), BraceError>)
    requires Ready(ts, p)
    ensures r.Ok? ==> Ready(ts, r.value.1) && r.value.1.next >= p.next && Measure(ts, r.value.1) < Measure(ts, p)
    ensures r.Ok? ==> r.value.0.TransformNode?
    decreases Measure(ts, p), 20
  {
    var q :- Eaten(ts, p, Transform);
    var q2 :- Eaten(ts, q, Identifier);
    var q3 :- Eaten(ts, q2, LBrace);
    var ops :- TransformOps(ts, [], q3);
    var q4 := Consume(ts, ops.1);
    Ok((TransformNode(q.cur.value, ops.0), q4))
  }

  predicate StartsTransformOp(k: Kind) { k == If || k == Scale || k == Rotate || k == Position }

  /** Every element is an `if`, `scale`, `rotate` or `translate` operation. */
  predicate AllTransformOps(os: seq<BStmt>)
  {
    forall k :: 0 <= k < |os| ==> os[k].IfNode? || os[k].ScaleNode? || os[k].RotateNode? || os[k].TranslateNode?
  }

  lemma TransformOpsAppend(os: seq<BStmt>, o: seq<BStmt>)
    requires AllTransformOps(os) && AllTransformOps(o)
    ensures AllTransformOps(os + o)
  {
  }

  /** One transform operation: an `if` statement, or `scale:`, `rotate:` or `position:` and an expression. */
  function TransformCommand(ts: seq<Token>, p: PState): (r: Result<(BStmt, PState), BraceError>)
    requires Ready(ts, p)
    ensures r.Ok? ==> Ready(ts, r.value.1) && r.value.1.next >= p.next && Measure(ts, r.value.1) < Measure(ts, p)
    ensures r.Ok? ==> AllTransformOps([r.value.0])
    ensures !StartsTransformOp(p.cur.kind) ==> r == Err(UnknownTransformCommand(p.cur))
    decreases Measure(ts, p), 22
  {
    if p.cur.kind == If then IfStatement(ts, p)
    else if p.cur.kind == Scale || p.cur.kind == Rotate || p.cur.kind == Position then
      var q2 :- Eaten(ts, Consume(ts, p), Colon);
      var e :- Expression(ts, q2);
      Ok((TransformOp(p.cur.kind, e.0), e.1))
    else Err(UnknownTransformCommand(p.cur))
  }

  /** The loop of `parseTransform`: operations until `}`. */
  function TransformOps(ts: seq<Token>, acc: seq<BStmt>, p: PState): (r: Result<(seq<BStmt>, PState), BraceError>)
    requires Ready(ts, p)
    ensures r.Ok? ==> Ready(ts, r.value.1) && r.value.1.next >= p.next && Measure(ts, r.value.1) <= Measure(ts, p)
    ensures r.Ok? ==> r.value.1.cur.kind == RBrace && acc <= r.value.0
    ensures r.Ok? && AllTransformOps(acc) ==> AllTransformOps(r.value.0)
    ensures p.cur.kind != RBrace && !StartsTransformOp(p.cur.kind) ==> r == Err(UnknownTransformCommand(p.cur))
    decreases Measure(ts, p), 30
  {
    if p.cur.kind == RBrace then Ok((acc, p))
    else
      var c :- TransformCommand(ts, p);
      var r := TransformOps(ts, acc + [c.0], c.1);
      assert r.Ok? && AllTransformOps(acc) ==> AllTransformOps(r.value.0) by {
        if AllTransformOps(acc) { TransformOpsAppend(acc, [c.0]); }
      }
      r
  }

  /** `scale:` gives a `scale` operation, `rotate:` a `rotate` one, `position:` a `translate` one. */
  function TransformOp(k: Kind, e: BExpr): (r: BStmt)
    requires k == Scale || k == Rotate || k == Position
    ensures r.ScaleNode? || r.RotateNode? || r.TranslateNode?
  {
    if k == Scale then ScaleNode(e) else if k == Rotate then RotateNode(e) else TranslateNode(e)
  }

  /** `parseStatement`: dispatch on the leading token; any other token is an error. */
  function Statement(ts: seq<Token>, p: PState): (r: Result<(BStmt, PState), BraceError>)
    requires Ready(ts, p)
    ensures r.Ok? ==> Ready(ts, r.value.1) && r.value.1.next >= p.next && Measure(ts, r.value.1) < Measure(ts, p)
    ensures p.cur.kind !in {If, Param, Shape, Layer, Transform, Add, Rotate} ==> r == Err(UnexpectedToken(p.cur))
    decreases Measure(ts, p), 25
  {
    var k := p.cur.kind;
    if k == If then IfStatement(ts, p)
    else if k == Param then ParamDecl(ts, p)
    else if k == Shape then ShapeDecl(ts, p)
    else if k == Layer then LayerDecl(ts, p)
    else if k == Transform then TransformDecl(ts, p)
    else if k == Add then AddStatement(ts, p)
    else if k == Rotate then RotateStatement(ts, p)
    else Err(UnexpectedToken(p.cur))
  }

  /** The `ADD` arm of `parseStatement`: `add name`. */
  function AddStatement(ts: seq<Token>, p: PState): (r: Result<(BStmt, PState), BraceError>)
    requires Ready(ts, p) && p.cur.kind == Add
    ensures r.Ok? ==> Ready(ts, r.value.1) && r.value.1.next >= p.next && Measure(ts, r.value.1) < Measure(ts, p)
    ensures r.Ok? ==> r.value.0.AddNode?
  {
    var q := Consume(ts, p);
    var q2 :- Eaten(ts, q, Identifier);
    Ok((AddNode(q.cur.value), q2))
  }

  /** The `ROTATE` arm of `parseStatement`: `rotate: expression`. */
  function RotateStatement(ts: seq<Token>, p: PState): (r: Result<(BStmt, PState), BraceError>)
    requires Ready(ts, p) && p.cur.kind == Rotate
    ensures r.Ok? ==> Ready(ts, r.value.1) && r.value.1.next >= p.next && Measure(ts, r.value.1) < Measure(ts, p)
    ensures r.Ok? ==> r.value.0.RotateNode?
    decreases Measure(ts, p), 24
  {
    var q := Consume(ts, p);
    var q2 :- Eaten(ts, q, Colon);
    var e :- Expression(ts, q2);
    Ok((RotateNode(e.0), e.1))
  }

  /** The loop of `parse`: statements until EOF. */
  function Statements(ts: seq<Token>, acc: seq<BStmt>, p: PState): (r: Result<seq<BStmt>, BraceError>)
    requires Ready(ts, p)
    ensures r.Ok? ==> acc <= r.value
    decreases Measure(ts, p)
  {
    if p.cur.kind == Eof then Ok(acc)
    else
      var s :- Statement(ts, p);
      Statements(ts, acc + [s.0], s.1)
  }

  /** A whole program: the constructor reads the first token, then `parse` runs. */
  function Parse(ts: seq<Token>): Result<seq<BStmt>, BraceError>
    requires Stream(ts)
  {
    var (first, n) := Pull(ts, 0);
    Statements(ts, [], PState(n, first))
  }

  // ---- the parser object -----------------------------------------------------

  /** The lexer as the parser sees it: `getNextToken` hands out the tokens in order, then EOF for ever. */
  class TokenSource {
    const tokens: seq<Token>
    var next: nat

    ghost predicate Valid()
      reads this
    {
      Stream(tokens) && next <= |tokens|
    }

    constructor (tokens: seq<Token>)
      requires Stream(tokens)
      ensures Valid() && this.tokens == tokens && next == 0
    {
      this.tokens := tokens;
      next := 0;
    }

    method GetNextToken() returns (t: Token)
      requires Valid()
      modifies this
      ensures Valid() && (t, next) == Pull(tokens, old(next))
    {
      if next < |tokens| {
        t := tokens[next];
        next := next + 1;
      } else {
        t := tokens[|tokens| - 1];
      }
    }
  }

  class Parser {
    const lexer: TokenSource
    var currentToken: Token

    ghost predicate Valid()
      reads this, lexer
    {
      lexer.Valid()
    }

    function Cursor(): PState
      reads this, lexer
    {
      PState(lexer.next, currentToken)
    }

    /** The constructor reads the first token. */
    constructor (lexer: TokenSource)
      requires lexer.Valid()
      modifies lexer
      ensures Valid() && this.lexer == lexer
      ensures (currentToken, lexer.next) == Pull(lexer.tokens, old(lexer.next))
    {
      var first := lexer.GetNextToken();
      this.lexer := lexer;
      currentToken := first;
    }

    /** `eat(type)`. */
    method Eat(k: Kind) returns (r: Result<(), BraceError>)
      requires Valid()
      modifies this, lexer
      ensures Valid()
      ensures var spec := Eaten(lexer.tokens, old(Cursor()), k);
              (r.Ok? ==> spec == Ok(Cursor())) && (r.Err? ==> spec == Err(r.error))
    {
      if currentToken.kind != k {
        return Err(Expected(k, currentToken));
      }
      currentToken := lexer.GetNextToken();
      return Ok(());
    }

    /** `eat(this.currentToken.type)`, or `eat` of a type just tested: it always succeeds. */
    method Advance()
      requires Valid()
      modifies this, lexer
      ensures Valid() && Cursor() == Consume(lexer.tokens, old(Cursor()))
    {
      currentToken := lexer.GetNextToken();
    }

    method ParseCondition() returns (r: Result<BExpr, BraceError>)
      requires Valid()
      modifies this, lexer
      ensures Valid()
      ensures Outcome(r, Cursor()) == Condition(lexer.tokens, old(Cursor()))
      decreases Measure(lexer.tokens, Cursor()), 13
    {
      r := ParseLogicalOr();
    }

    method ParseLogicalOr() returns (r: Result<BExpr, BraceError>)
      requires Valid()
      modifies this, lexer
      ensures Valid()
      ensures Outcome(r, Cursor()) == Condition(lexer.tokens, old(Cursor()))
      decreases Measure(lexer.tokens, Cursor()), 12
    {
      var left := ParseLogicalAnd();
      if left.Err? {
        return Err(left.error);
      }
      var expr := left.value;
      while currentToken.kind == Or
        invariant Valid() && Measure(lexer.tokens, Cursor()) < Measure(lexer.tokens, old(Cursor()))
        invariant Condition(lexer.tokens, old(Cursor())) == OrTail(lexer.tokens, expr, Cursor())
        decreases Measure(lexer.tokens, Cursor())
      {
        Advance();
        var right := ParseLogicalAnd();
        if right.Err? {
          return Err(right.error);
        }
        expr := BLogical("or", expr, right.value);
      }
      return Ok(expr);
    }

    method ParseLogicalAnd() returns (r: Result<BExpr, BraceError>)
      requires Valid()
      modifies this, lexer
      ensures Valid()
      ensures Outcome(r, Cursor()) == LogicalAnd(lexer.tokens, old(Cursor()))
      decreases Measure(lexer.tokens, Cursor()), 9
    {
      var left := ParseComparison();
      if left.Err? {
        return Err(left.error);
      }
      var expr := left.value;
      while currentToken.kind == And
        invariant Valid() && Measure(lexer.tokens, Cursor()) < Measure(lexer.tokens, old(Cursor()))
        invariant LogicalAnd(lexer.tokens, old(Cursor())) == AndTail(lexer.tokens, expr, Cursor())
        decreases Measure(lexer.tokens, Cursor())
      {
        Advance();
        var right := ParseComparison();
        if right.Err? {
          return Err(right.error);
        }
        expr := BLogical("and", expr, right.value);
      }
      return Ok(expr);
    }

    method ParseComparison() returns (r: Result<BExpr, BraceError>)
      requires Valid()
      modifies this, lexer
      ensures Valid()
      ensures Outcome(r, Cursor()) == Comparison(lexer.tokens, old(Cursor()))
      decreases Measure(lexer.tokens, Cursor()), 7
    {
      var left := ParseExpression();
      if left.Err? {
        return Err(left.error);
      }
      if IsComparison(currentToken.kind) {
        var operator := OperatorName(currentToken.kind);
        Advance();
        var right := ParseExpression();
        if right.Err? {
          return Err(right.error);
        }
        return Ok(BComparison(operator, left.value, right.value));
      }
      return left;
    }

    method ParseExpression() returns (r: Result<BExpr, BraceError>)
      requires Valid()
      modifies this, lexer
      ensures Valid()
      ensures Outcome(r, Cursor()) == Expression(lexer.tokens, old(Cursor()))
      decreases Measure(lexer.tokens, Cursor()), 6
    {
      var left := ParseTerm();
      if left.Err? {
        return Err(left.error);
      }
      var node := left.value;
      while currentToken.kind == Plus || currentToken.kind == Minus
        invariant Valid() && Measure(lexer.tokens, Cursor()) < Measure(lexer.tokens, old(Cursor()))
        invariant Expression(lexer.tokens, old(Cursor())) == ExprTail(lexer.tokens, node, Cursor())
        decreases Measure(lexer.tokens, Cursor())
      {
        var operator := OperatorName(currentToken.kind);
        Advance();
        var right := ParseTerm();
        if right.Err? {
          return Err(right.error);
        }
        node := BBinary(operator, node, right.value);
      }
      return Ok(node);
    }

    method ParseTerm() returns (r: Result<BExpr, BraceError>)
      requires Valid()
      modifies this, lexer
      ensures Valid()
      ensures Outcome(r, Cursor()) == Term(lexer.tokens, old(Cursor()))
      decreases Measure(lexer.tokens, Cursor()), 4
    {
      var left := ParseFactor();
      if left.Err? {
        return Err(left.error);
      }
      var node := left.value;
      while currentToken.kind == Multiply || currentToken.kind == Divide
        invariant Valid() && Measure(lexer.tokens, Cursor()) < Measure(lexer.tokens, old(Cursor()))
        invariant Term(lexer.tokens, old(Cursor())) == TermTail(lexer.tokens, node, Cursor())
        decreases Measure(lexer.tokens, Cursor())
      {
        var operator := OperatorName(currentToken.kind);
        Advance();
        var right := ParseFactor();
        if right.Err? {
          return Err(right.error);
        }
        node := BBinary(operator, node, right.value);
      }
      return Ok(node);
    }

    method ParseFactor() returns (r: Result<BExpr, BraceError>)
      requires Valid()
      modifies this, lexer
      ensures Valid()
      ensures Outcome(r, Cursor()) == Factor(lexer.tokens, old(Cursor()))
      decreases Measure(lexer.tokens, Cursor()), 2
    {
      var token := currentToken;
      if token.kind == Number {
        Advance();
        return Ok(BNumber(token.value));
      }
      if token.kind == True || token.kind == False {
        Advance();
        return Ok(BBool(token.kind == True));
      }
      if token.kind == Not {
        Advance();
        var operand := ParseFactor();
        if operand.Err? {
          return Err(operand.error);
        }
        return Ok(BUnary("not", operand.value));
      }
      if token.kind == Identifier || token.kind == Position {
        Advance();
        if currentToken.kind == Dot {
          Advance();
          var property := currentToken.value;
          var eaten := Eat(Identifier);
          if eaten.Err? {
            return Err(eaten.error);
          }
          return Ok(ParamRef(token.value, property));
        }
        return Ok(BIdent(token.value));
      }
      if token.kind == Minus {
        Advance();
        var operand := ParseFactor();
        if operand.Err? {
          return Err(operand.error);
        }
        return Ok(BUnary("minus", operand.value));
      }
      if token.kind == LBracket {
        r := ParseArray();
        return;
      }
      if token.kind == Quote {
        r := ParseStringLiteral();
        return;
      }
      if token.kind == LParen {
        Advance();
        var inner := ParseCondition();
        if inner.Err? {
          return Err(inner.error);
        }
        var eaten := Eat(RParen);
        if eaten.Err? {
          return Err(eaten.error);
        }
        return inner;
      }
      return Err(UnexpectedInFactor(token));
    }

    /** `parseStringLiteral`: words come straight from the lexer; then the still-current token must be a quote. */
    method ParseStringLiteral() returns (r: Result<BExpr, BraceError>)
      requires Valid()
      modifies this, lexer
      ensures Valid()
      ensures Outcome(r, Cursor()) == StringLiteral(lexer.tokens, old(Cursor()))
    {
      var words := [];
      ghost var before := lexer.next;
      var t := lexer.GetNextToken();
      while t.kind != Quote && t.kind != Eof
        invariant Valid() && before <= |lexer.tokens| && currentToken == old(currentToken)
        invariant (t, lexer.next) == Pull(lexer.tokens, before)
        invariant StringWords(lexer.tokens, old(lexer.next), []) == StringWords(lexer.tokens, before, words)
        decreases |lexer.tokens| - before
      {
        words := words + [t.value];
        before := lexer.next;
        t := lexer.GetNextToken();
      }
      var eaten := Eat(Quote);
      if eaten.Err? {
        return Err(eaten.error);
      }
      return Ok(BString(words));
    }

    method ParseArray() returns (r: Result<BExpr, BraceError>)
      requires Valid()
      modifies this, lexer
      ensures Valid()
      ensures Outcome(r, Cursor()) == ArrayLiteral(lexer.tokens, old(Cursor()))
      decreases Measure(lexer.tokens, Cursor()), 1
    {
      var eaten := Eat(LBracket);
      if eaten.Err? {
        return Err(eaten.error);
      }
      ghost var start := Cursor();
      var elements := [];
      while currentToken.kind != RBracket
        invariant Valid() && Measure(lexer.tokens, Cursor()) < Measure(lexer.tokens, old(Cursor()))
        invariant ArrayItems(lexer.tokens, [], start) == ArrayItems(lexer.tokens, elements, Cursor())
        decreases Measure(lexer.tokens, Cursor())
      {
        var e := ParseExpression();
        if e.Err? {
          return Err(e.error);
        }
        elements := elements + [e.value];
      }
      Advance();
      return Ok(BArray(elements));
    }

    /** The loop over a branch body: statements until `}` or EOF. */
    method ParseBlock() returns (r: Result<seq<BStmt>, BraceError>)
      requires Valid()
      modifies this, lexer
      ensures Valid()
      ensures Outcome(r, Cursor()) == Block(lexer.tokens, [], old(Cursor()))
      decreases Measure(lexer.tokens, Cursor()), 40
    {
      var statements := [];
      while currentToken.kind != RBrace && currentToken.kind != Eof
        invariant Valid() && Measure(lexer.tokens, Cursor()) <= Measure(lexer.tokens, old(Cursor()))
        invariant Block(lexer.tokens, [], old(Cursor())) == Block(lexer.tokens, statements, Cursor())
        decreases Measure(lexer.tokens, Cursor())
      {
        var s := ParseStatement();
        if s.Err? {
          return Err(s.error);
        }
        statements := statements + [s.value];
      }
      return Ok(statements);
    }

    method ParseIfStatement() returns (r: Result<BStmt, BraceError>)
      requires Valid()
      modifies this, lexer
      ensures Valid()
      ensures Outcome(r, Cursor()) == IfStatement(lexer.tokens, old(Cursor()))
      decreases Measure(lexer.tokens, Cursor()), 20
    {
      var eaten := Eat(If);
      if eaten.Err? {
        return Err(eaten.error);
      }
      var condition := ParseCondition();
      if condition.Err? {
        return Err(condition.error);
      }
      eaten := Eat(LBrace);
      if eaten.Err? {
        return Err(eaten.error);
      }
      var thenBranch := ParseBlock();
      if thenBranch.Err? {
        return Err(thenBranch.error);
      }
      eaten := Eat(RBrace);
      if eaten.Err? {
        return Err(eaten.error);
      }
      var elseBranch := [];
      if currentToken.kind == Else {
        Advance();
        eaten := Eat(LBrace);
        if eaten.Err? {
          return Err(eaten.error);
        }
        var body := ParseBlock();
        if body.Err? {
          return Err(body.error);
        }
        eaten := Eat(RBrace);
        if eaten.Err? {
          return Err(eaten.error);
        }
        elseBranch := body.value;
      }
      return Ok(IfNode(condition.value, thenBranch.value, elseBranch));
    }

    method ParseParam() returns (r: Result<BStmt, BraceError>)
      requires Valid()
      modifies this, lexer
      ensures Valid()
      ensures Outcome(r, Cursor()) == ParamDecl(lexer.tokens, old(Cursor()))
      decreases Measure(lexer.tokens, Cursor()), 20
    {
      var eaten := Eat(Param);
      if eaten.Err? {
        return Err(eaten.error);
      }
      var name := currentToken.value;
      eaten := Eat(Identifier);
      if eaten.Err? {
        return Err(eaten.error);
      }
      var value := ParseExpression();
      if value.Err? {
        return Err(value.error);
      }
      return Ok(ParamNode(name, value.value));
    }

    method ParseShape() returns (r: Result<BStmt, BraceError>)
      requires Valid()
      modifies this, lexer
      ensures Valid()
      ensures Outcome(r, Cursor()) == ShapeDecl(lexer.tokens, old(Cursor()))
      decreases Measure(lexer.tokens, Cursor()), 20
    {
      var eaten := Eat(Shape);
      if eaten.Err? {
        return Err(eaten.error);
      }
      var shapeType := currentToken.value;
      eaten := Eat(Identifier);
      if eaten.Err? {
        return Err(eaten.error);
      }
      var shapeName := None;
      if currentToken.kind == Identifier {
        shapeName := Some(currentToken.value);
        Advance();
      }
      eaten := Eat(LBrace);
      if eaten.Err? {
        return Err(eaten.error);
      }
      assert ShapeDecl(lexer.tokens, old(Cursor())) == ShapeBody(lexer.tokens, shapeType, shapeName, Cursor());
      var params := ParseShapeParams();
      if params.Err? {
        return Err(params.error);
      }
      Advance();
      return Ok(ShapeNode(shapeType, shapeName, params.value));
    }

    /** The loop of `parseShape`: `name: expression` pairs up to `}`, a later value for a name replacing the earlier one. */
    method ParseShapeParams() returns (r: Result<map<string, BExpr>, BraceError>)
      requires Valid()
      modifies this, lexer
      ensures Valid()
      ensures Outcome(r, Cursor()) == ShapeParams(lexer.tokens, map[], old(Cursor()))
      decreases Measure(lexer.tokens, Cursor()), 30
    {
      var params := map[];
      while currentToken.kind != RBrace
        invariant Valid() && Measure(lexer.tokens, Cursor()) <= Measure(lexer.tokens, old(Cursor()))
        invariant ShapeParams(lexer.tokens, map[], old(Cursor())) == ShapeParams(lexer.tokens, params, Cursor())
        decreases Measure(lexer.tokens, Cursor())
      {
        ghost var p := Cursor();
        ghost var spec := ShapeParams(lexer.tokens, params, p);
        var paramName := TextOf(currentToken);
        if currentToken.kind != Identifier && currentToken.kind != Position {
          return Err(ExpectedPropertyName(currentToken));
        }
        Advance();
        ghost var q := Cursor();
        assert q == Consume(lexer.tokens, p);
        var eaten := Eat(Colon);
        if eaten.Err? {
          assert spec == Err(eaten.error);
          return Err(eaten.error);
        }
        ghost var q2 := Cursor();
        var value := ParseExpression();
        if value.Err? {
          assert spec == Err(value.error);
          return Err(value.error);
        }
        assert spec == ShapeParams(lexer.tokens, params[paramName := value.value], Cursor());
        params := params[paramName := value.value];
      }
      assert ShapeParams(lexer.tokens, params, Cursor()) == Ok((params, Cursor()));
      return Ok(params);
    }

    method ParseLayer() returns (r: Result<BStmt, BraceError>)
      requires Valid()
      modifies this, lexer
      ensures Valid()
      ensures Outcome(r, Cursor()) == LayerDecl(lexer.tokens, old(Cursor()))
      decreases Measure(lexer.tokens, Cursor()), 20
    {
      var eaten := Eat(Layer);
      if eaten.Err? {
        return Err(eaten.error);
      }
      var name := currentToken.value;
      eaten := Eat(Identifier);
      if eaten.Err? {
        return Err(eaten.error);
      }
      eaten := Eat(LBrace);
      if eaten.Err? {
        return Err(eaten.error);
      }
      ghost var start := Cursor();
      var commands := [];
      while currentToken.kind != RBrace
        invariant Valid() && Measure(lexer.tokens, Cursor()) < Measure(lexer.tokens, old(Cursor()))
        invariant LayerCommands(lexer.tokens, [], start) == LayerCommands(lexer.tokens, commands, Cursor())
        decreases Measure(lexer.tokens, Cursor())
      {
        var command: Result<BStmt, BraceError>;
        if currentToken.kind == If {
          command := ParseIfStatement();
        } else if currentToken.kind == Add || currentToken.kind == Subtract {
          var adding := currentToken.kind == Add;
          Advance();
          var shape := currentToken.value;
          eaten := Eat(Identifier);
          command := if eaten.Err? then Err(eaten.error) else if adding then Ok(AddNode(shape)) else Ok(SubtractNode(shape));
        } else if currentToken.kind == Rotate {
          Advance();
          var angle := ParseExpression();
          command := if angle.Err? then Err(angle.error) else Ok(RotateNode(angle.value));
        } else {
          return Err(UnknownLayerCommand(currentToken));
        }
        if command.Err? {
          return Err(command.error);
        }
        commands := commands + [command.value];
      }
      Advance();
      return Ok(LayerNode(name, commands));
    }

    method ParseTransform() returns (r: Result<BStmt, BraceError>)
      requires Valid()
      modifies this, lexer
      ensures Valid()
      ensures Outcome(r, Cursor()) == TransformDecl(lexer.tokens, old(Cursor()))
      decreases Measure(lexer.tokens, Cursor()), 20
    {
      var eaten := Eat(Transform);
      if eaten.Err? {
        return Err(eaten.error);
      }
      var target := currentToken.value;
      eaten := Eat(Identifier);
      if eaten.Err? {
        return Err(eaten.error);
      }
      eaten := Eat(LBrace);
      if eaten.Err? {
        return Err(eaten.error);
      }
      ghost var start := Cursor();
      var operations := [];
      while currentToken.kind != RBrace
        invariant Valid() && Measure(lexer.tokens, Cursor()) < Measure(lexer.tokens, old(Cursor()))
        invariant TransformOps(lexer.tokens, [], start) == TransformOps(lexer.tokens, operations, Cursor())
        decreases Measure(lexer.tokens, Cursor())
      {
        var operation: Result<BStmt, BraceError>;
        if currentToken.kind == If {
          operation := ParseIfStatement();
        } else if currentToken.kind == Scale || currentToken.kind == Rotate || currentToken.kind == Position {
          var k := currentToken.kind;
          Advance();
          eaten := Eat(Colon);
          if eaten.Err? {
            return Err(eaten.error);
          }
          var value := ParseExpression();
          operation := if value.Err? then Err(value.error) else Ok(TransformOp(k, value.value));
        } else {
          return Err(UnknownTransformCommand(currentToken));
        }
        if operation.Err? {
          return Err(operation.error);
        }
        operations := operations + [operation.value];
      }
      Advance();
      return Ok(TransformNode(target, operations));
    }

    method ParseStatement() returns (r: Result<BStmt, BraceError>)
      requires Valid()
      modifies this, lexer
      ensures Valid()
      ensures Outcome(r, Cursor()) == Statement(lexer.tokens, old(Cursor()))
      decreases Measure(lexer.tokens, Cursor()), 25
    {
      var k := currentToken.kind;
      if k == If {
        r := ParseIfStatement();
      } else if k == Param {
        r := ParseParam();
      } else if k == Shape {
        r := ParseShape();
      } else if k == Layer {
        r := ParseLayer();
      } else if k == Transform {
        r := ParseTransform();
      } else if k == Add {
        r := ParseAdd();
      } else if k == Rotate {
        r := ParseRotate();
      } else {
        r := Err(UnexpectedToken(currentToken));
      }
    }

    /** The `ADD` arm of `parseStatement`. */
    method ParseAdd() returns (r: Result<BStmt, BraceError>)
      requires Valid() && currentToken.kind == Add
      modifies this, lexer
      ensures Valid()
      ensures Outcome(r, Cursor()) == AddStatement(lexer.tokens, old(Cursor()))
    {
      Advance();
      var shape := currentToken.value;
      var eaten := Eat(Identifier);
      r := if eaten.Err? then Err(eaten.error) else Ok(AddNode(shape));
    }

    /** The `ROTATE` arm of `parseStatement`. */
    method ParseRotate() returns (r: Result<BStmt, BraceError>)
      requires Valid() && currentToken.kind == Rotate
      modifies this, lexer
      ensures Valid()
      ensures Outcome(r, Cursor()) == RotateStatement(lexer.tokens, old(Cursor()))
      decreases Measure(lexer.tokens, Cursor()), 24
    {
      Advance();
      var eaten := Eat(Colon);
      if eaten.Err? {
        return Err(eaten.error);
      }
      var angle := ParseExpression();
      r := if angle.Err? then Err(angle.error) else Ok(RotateNode(angle.value));
    }

    /** `parse`: statements until EOF. */
    method Parse() returns (r: Result<seq<BStmt>, BraceError>)
      requires Valid()
      modifies this, lexer
      ensures r == Statements(lexer.tokens, [], old(Cursor()))
    {
      var statements := [];
      while currentToken.kind != Eof
        invariant Valid()
        invariant Statements(lexer.tokens, [], old(Cursor())) == Statements(lexer.tokens, statements, Cursor())
        decreases Measure(lexer.tokens, Cursor())
      {
        var s := ParseStatement();
        if s.Err? {
          return Err(s.error);
        }
        statements := statements + [s.value];
      }
      return Ok(statements);
    }
  }

  /** `new Parser(lexer).parse()` over a lexer that hands out `ts`. */
  method ParseProgram(ts: seq<Token>) returns (r: Result<seq<BStmt>, BraceError>)
    requires Stream(ts)
    ensures r == Parse(ts)
  {
    var lexer := new TokenSource(ts);
    var parser := new Parser(lexer);
    r := parser.Parse();
  }
}
