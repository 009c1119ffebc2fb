// The first front end, lexer_and_parser.js: a brace-delimited lexer for
// `param` and `shape` declarations, and a recursive-descent parser that pulls
// tokens from it one at a time.

module CalcLexer {
  import opened Common
  import opened Tokens
  import ShapeRules

  /** The lexer's cursor: `position`, `line`, `column` (`currentChar` is `input[position]`). */
  datatype LexState = LexState(pos: nat, line: int, column: int)

  datatype LexError = InvalidCharacter(c: char)

  const Start := LexState(0, 1, 1)

  /** `advance`: the column moves only while a character remains. */
  function Advanced(input: string, st: LexState): (r: LexState)
    requires st.pos < |input|
    ensures r.pos == st.pos + 1 && r.line == st.line
  {
    if st.pos + 1 > |input| - 1 then st.(pos := st.pos + 1)
    else st.(pos := st.pos + 1, column := st.column + 1)
  }

  /** Number of line feeds in s. */
  function Newlines(s: string): nat
  {
    if s == [] then 0 else (if s[0] == '\n' then 1 else 0) + Newlines(s[1..])
  }

  /** `skipWhitespace`: consumes the longest run of white space; a line feed starts a new line at column 0. */
  function SkipWs(input: string, st: LexState): (r: LexState)
    requires st.pos <= |input|
    ensures st.pos <= r.pos <= |input|
    ensures forall k :: st.pos <= k < r.pos ==> IsJsSpace(input[k])
    ensures r.pos == |input| || !IsJsSpace(input[r.pos])
    decreases |input| - st.pos
  {
    if st.pos < |input| && IsJsSpace(input[st.pos]) then
      var st1 := if input[st.pos] == '\n' then st.(line := st.line + 1, column := 0) else st;
      SkipWs(input, Advanced(input, st1))
    else st
  }

  /** `line` grows by exactly the number of line feeds skipped. */
  lemma {:induction false} SkipCountsLines(input: string, st: LexState)
    requires st.pos <= |input|
    ensures SkipWs(input, st).line == st.line + Newlines(input[st.pos..SkipWs(input, st).pos])
    decreases |input| - st.pos
  {
    if st.pos < |input| && IsJsSpace(input[st.pos]) {
      var st1 := if input[st.pos] == '\n' then st.(line := st.line + 1, column := 0) else st;
      var next := Advanced(input, st1);
      SkipCountsLines(input, next);
      var end := SkipWs(input, st).pos;
      assert input[st.pos..end][0] == input[st.pos];
      assert input[st.pos..end][1..] == input[next.pos..end];
    } else {
      assert input[st.pos..st.pos] == [];
    }
  }

  /** The longest run of characters satisfying `accept` from the cursor, and the cursor after it. */
  function Scan(input: string, st: LexState, accept: char -> bool): (r: (string, LexState))
    requires st.pos <= |input|
    ensures r.1.pos == st.pos + |r.0| <= |input| && r.1.line == st.line
    ensures r.0 == input[st.pos..r.1.pos]
    ensures forall k :: 0 <= k < |r.0| ==> accept(r.0[k])
    ensures r.1.pos == |input| || !accept(input[r.1.pos])
    decreases |input| - st.pos
  {
    if st.pos < |input| && accept(input[st.pos]) then
      var rest := Scan(input, Advanced(input, st), accept);
      ([input[st.pos]] + rest.0, rest.1)
    else ("", st)
  }

  /**
   * `number`: digits, then, after a `.`, more digits; the value is what
   * `parseFloat` reads from that text. The lexer calls it only on a digit.
   */
  function LexNumber(input: string, st: LexState): (r: (Token, LexState))
    requires st.pos < |input| && IsDigit(input[st.pos])
    ensures r.0.kind == Number && st.pos < r.1.pos <= |input|
  {
    var (whole, st1) := Scan(input, st, IsDigit);
    if st1.pos < |input| && input[st1.pos] == '.' then
      var (fraction, st2) := Scan(input, Advanced(input, st1), IsDigit);
      (Token(Number, VNum(DecimalValue(whole, fraction)), st2.line, st2.column), st2)
    else
      (Token(Number, VNum(DecimalValue(whole, "")), st1.line, st1.column), st1)
  }

  /**
   * `keywords[result] || 'IDENTIFIER'`: the six keywords, a non-string type
   * for names the keyword object inherits, and IDENTIFIER otherwise.
   */
  function KeywordKind(word: string): (k: Kind)
    ensures k == Identifier <==>
              word !in {"param", "constraint", "shape", "rotate", "translate", "scale"} &&
              word !in ShapeRules.PrototypeKeys
  {
    match word
    case "param" => Param
    case "constraint" => Constraint
    case "shape" => Shape
    case "rotate" => Rotate
    case "translate" => Translate
    case "scale" => Scale
    case _ => if word in ShapeRules.PrototypeKeys then Inherited else Identifier
  }

  /** `identifier`: the longest run of word characters; the lexer calls it only on a letter or `_`. */
  function LexWord(input: string, st: LexState): (r: (Token, LexState))
    requires st.pos < |input| && IsLetter(input[st.pos])
    ensures st.pos < r.1.pos <= |input|
  {
    var (word, st1) := Scan(input, st, IsWordChar);
    (Token(KeywordKind(word), VStr(word), st1.line, st1.column), st1)
  }

  /** The single-character tokens. */
  function SymbolKind(c: char): Option<Kind>
  {
    match c
    case '{' => Some(LBrace)
    case '}' => Some(RBrace)
    case '[' => Some(LBracket)
    case ']' => Some(RBracket)
    case '+' => Some(Plus)
    case '-' => Some(Minus)
    case '*' => Some(Multiply)
    case '/' => Some(Divide)
    case ':' => Some(Colon)
    case _ => None
  }

  /**
   * `getNextToken`: skips white space, then reads a number, a word or a
   * symbol; an unknown character throws; at the end of input it answers EOF
   * (and keeps answering EOF). No parenthesis token is ever produced.
   */
  function NextToken(input: string, st: LexState): (r: Result<(Token, LexState), LexError>)
    requires st.pos <= |input|
    ensures r.Ok? ==> st.pos <= r.value.1.pos <= |input|
    ensures r.Ok? && r.value.0.kind != Eof ==> st.pos < r.value.1.pos
    ensures r.Ok? && r.value.0.kind == Eof ==> r.value.1.pos == |input|
    ensures r.Ok? ==> r.value.0.kind != LParen && r.value.0.kind != RParen
    decreases |input| - st.pos
  {
    if st.pos == |input| then Ok((Token(Eof, VNull, st.line, st.column), st))
    else
      var c := input[st.pos];
      if IsJsSpace(c) then NextToken(input, SkipWs(input, st))
      else if IsDigit(c) then Ok(LexNumber(input, st))
      else if IsLetter(c) then Ok(LexWord(input, st))
      else match SymbolKind(c)
        case Some(k) =>
          var st1 := Advanced(input, st);
          Ok((Token(k, VStr([c]), st1.line, st1.column), st1))
        case None => Err(InvalidCharacter(c))
  }

  /** White space before a token is skipped first. */
  lemma SkipsFirst(input: string, st: LexState)
    requires st.pos <= |input|
    ensures NextToken(input, st) == NextToken(input, SkipWs(input, st))
  {
    if !(st.pos < |input| && IsJsSpace(input[st.pos])) {
      assert SkipWs(input, st) == st;
    }
  }

  /** At the end of input every call answers EOF and leaves the cursor where it is. */
  lemma EofForever(input: string, st: LexState)
    requires st.pos <= |input| && SkipWs(input, st).pos == |input|
    ensures var q := SkipWs(input, st);
            NextToken(input, st) == Ok((Token(Eof, VNull, q.line, q.column), q))
  {
    SkipsFirst(input, st);
  }

  /**
   * A number is unsigned digits with an optional `.` and fraction, read as
   * the decimal they spell.
   */
  lemma ReadsNumber(input: string, st: LexState)
    requires st.pos <= |input|
    requires var q := SkipWs(input, st); q.pos < |input| && IsDigit(input[q.pos])
    ensures var q := SkipWs(input, st);
            var r := NextToken(input, st);
            r.Ok? && r.value.0.kind == Number &&
            exists whole, fraction :: AllDigits(whole) && AllDigits(fraction) && |whole| >= 1 &&
              r.value.0.value == VNum(DecimalValue(whole, fraction)) &&
              (input[q.pos..r.value.1.pos] == whole || input[q.pos..r.value.1.pos] == whole + "." + fraction)
  {
    SkipsFirst(input, st);
    var q := SkipWs(input, st);
    assert NextToken(input, q) == Ok(LexNumber(input, q));
    NumberText(input, q);
  }

  lemma NumberText(input: string, q: LexState)
    requires q.pos < |input| && IsDigit(input[q.pos])
    ensures var r := LexNumber(input, q);
            exists whole, fraction :: AllDigits(whole) && AllDigits(fraction) && |whole| >= 1 &&
              r.0.value == VNum(DecimalValue(whole, fraction)) &&
              (input[q.pos..r.1.pos] == whole || input[q.pos..r.1.pos] == whole + "." + fraction)
  {
    var (whole, st1) := Scan(input, q, IsDigit);
    var r := LexNumber(input, q);
    if st1.pos < |input| && input[st1.pos] == '.' {
      var (fraction, st2) := Scan(input, Advanced(input, st1), IsDigit);
      assert r == (Token(Number, VNum(DecimalValue(whole, fraction)), st2.line, st2.column), st2);
      assert input[q.pos..st2.pos] == whole + "." + fraction;
      assert AllDigits(whole) && AllDigits(fraction) && |whole| >= 1;
    } else {
      assert r == (Token(Number, VNum(DecimalValue(whole, "")), st1.line, st1.column), st1);
      assert AllDigits(whole) && AllDigits("") && |whole| >= 1;
      assert input[q.pos..r.1.pos] == whole;
    }
  }

  /** A word is the longest run of word characters; its type comes from the keyword table. */
  lemma ReadsWord(input: string, st: LexState)
    requires st.pos <= |input|
    requires var q := SkipWs(input, st); q.pos < |input| && IsLetter(input[q.pos])
    ensures var q := SkipWs(input, st);
            var r := NextToken(input, st);
            r.Ok? && r.value.0.value == VStr(input[q.pos..r.value.1.pos]) &&
            r.value.0.kind == KeywordKind(input[q.pos..r.value.1.pos]) &&
            (r.value.1.pos == |input| || !IsWordChar(input[r.value.1.pos]))
  {
    SkipsFirst(input, st);
  }

  /** `-` never starts a number: it is always a MINUS token of its own. */
  lemma MinusIsAlwaysAnOperator(input: string, st: LexState)
    requires st.pos <= |input|
    requires var q := SkipWs(input, st); q.pos < |input| && input[q.pos] == '-'
    ensures var q := SkipWs(input, st);
            var r := NextToken(input, st);
            r.Ok? && r.value.0.kind == Minus && r.value.1.pos == q.pos + 1
  {
    SkipsFirst(input, st);
  }

  /**
   * Any character outside digits, letters, `_`, white space and
   * `{ } [ ] + - * / :` is an "Invalid character", and only those.
   */
  lemma RejectsOnlyInvalidCharacters(input: string, st: LexState)
    requires st.pos <= |input|
    ensures var q := SkipWs(input, st);
            var r := NextToken(input, st);
            r.Err? <==> q.pos < |input| && !IsDigit(input[q.pos]) && !IsLetter(input[q.pos]) &&
                        SymbolKind(input[q.pos]).None?
    ensures var q := SkipWs(input, st);
            var r := NextToken(input, st);
            r.Err? ==> r.error == InvalidCharacter(input[q.pos])
  {
    SkipsFirst(input, st);
  }

  /** The lexer object: `input`, `position`, `line`, `column` and `currentChar`. */
  class Lexer {
    const input: string
    var position: nat
    var line: int
    var column: int
    var currentChar: Option<char>

    ghost predicate Valid()
      reads this
    {
      position <= |input| && currentChar == CharAt(input, position)
    }

    function State(): LexState
      reads this
    {
      LexState(position, line, column)
    }

    constructor (input: string)
      ensures Valid() && this.input == input && State() == Start
    {
      this.input := input;
      position := 0;
      line := 1;
      column := 1;
      currentChar := CharAt(input, 0);
    }

    method Advance()
      requires Valid() && position < |input|
      modifies this
      ensures Valid() && State() == Advanced(input, old(State()))
    {
      position := position + 1;
      if position > |input| - 1 {
        currentChar := None;
      } else {
        currentChar := Some(input[position]);
        column := column + 1;
      }
    }

    method SkipWhitespace()
      requires Valid()
      modifies this
      ensures Valid() && State() == SkipWs(input, old(State()))
    {
      while currentChar.Some? && IsJsSpace(currentChar.value)
        invariant Valid() && SkipWs(input, old(State())) == SkipWs(input, State())
        decreases |input| - position
      {
        if currentChar.value == '\n' {
          line := line + 1;
          column := 0;
        }
        Advance();
      }
    }

    /** Consumes the run of characters `accept` holds for and returns it. */
    method ScanWhile(accept: char -> bool) returns (text: string)
      requires Valid()
      modifies this
      ensures Valid() && (text, State()) == Scan(input, old(State()), accept)
    {
      text := "";
      while currentChar.Some? && accept(currentChar.value)
        invariant Valid() && old(position) <= position
        invariant text == input[old(position)..position]
        invariant Scan(input, old(State()), accept).1 == Scan(input, State(), accept).1
        decreases |input| - position
      {
        text := text + [currentChar.value];
        Advance();
      }
    }

    method Number() returns (t: Token)
      requires Valid() && position < |input| && IsDigit(input[position])
      modifies this
      ensures Valid() && (t, State()) == LexNumber(input, old(State()))
    {
      var whole := ScanWhile(IsDigit);
      if currentChar == Some('.') {
        Advance();
        var fraction := ScanWhile(IsDigit);
        t := Token(Kind.Number, VNum(DecimalValue(whole, fraction)), line, column);
      } else {
        t := Token(Kind.Number, VNum(DecimalValue(whole, "")), line, column);
      }
    }

    method Identifier() returns (t: Token)
      requires Valid() && position < |input| && IsLetter(input[position])
      modifies this
      ensures Valid() && (t, State()) == LexWord(input, old(State()))
    {
      var word := ScanWhile(IsWordChar);
      t := Token(KeywordKind(word), VStr(word), line, column);
    }

    method GetNextToken() returns (r: Result<Token, LexError>)
      requires Valid()
      modifies this
      ensures Valid()
      ensures var spec := NextToken(input, old(State()));
              (r.Ok? <==> spec.Ok?) &&
              (r.Ok? ==> (r.value, State()) == spec.value) &&
              (r.Err? ==> r.error == spec.error)
    {
      while currentChar.Some?
        invariant Valid() && NextToken(input, old(State())) == NextToken(input, State())
        decreases |input| - position
      {
        var c := currentChar.value;
        if IsJsSpace(c) {
          SkipWhitespace();
          continue;
        }
        if IsDigit(c) {
          var t := Number();
          return Ok(t);
        }
        if IsLetter(c) {
          var t := Identifier();
          return Ok(t);
        }
        var kind := SymbolKind(c);
        if kind.Some? {
          Advance();
          return Ok(Token(kind.value, VStr([c]), line, column));
        }
        return Err(InvalidCharacter(c));
      }
      return Ok(Token(Eof, VNull, line, column));
    }
  }
}

module CalcParser {
  import opened Common
  import opened Tokens
  import opened CalcLexer
  import ShapeRules

  /** An expression node: `number`, `variable`, or a binary `operation`. */
  datatype CalcNode =
    | NumberNode(value: real)
    | Variable(name: string)
    | Operation(op: char, left: CalcNode, right: CalcNode)

  /** A statement: `param` with its value, or `shape` with its parameter object. */
  datatype CalcStmt = ParamStmt(name: string, value: CalcNode) | ShapeStmt(name: string, params: map<string, CalcNode>)

  /**
   * Why parsing stops. `NoProgress` stands for `parse` spinning for ever on a
   * top-level token that is neither `param`, `shape` nor EOF.
   */
  datatype CalcError =
    | Lexical(e: LexError)
    | Expected(expected: Kind, got: Kind)
    | UnexpectedToken(got: Kind)
    | NoProgress(at: Kind)

  /** The parser's position: the lexer's cursor and `currentToken`. */
  datatype PState = PState(st: LexState, cur: Token)

  predicate Ready(input: string, p: PState) { p.st.pos <= |input| }

  /** Characters left to read, counting an unconsumed non-EOF token as half a character. */
  function Measure(input: string, p: PState): nat
    requires Ready(input, p)
  {
    2 * (|input| - p.st.pos) + (if p.cur.kind == Eof then 0 else 1)
  }

  function Fetch(input: string, st: LexState): (r: Result<PState, CalcError>)
    requires st.pos <= |input|
    ensures r.Err? ==> !r.error.NoProgress?
    ensures r.Ok? ==> Ready(input, r.value) && r.value.st.pos >= st.pos
    ensures r.Ok? ==> r.value.cur.kind != LParen
    ensures r.Ok? && r.value.cur.kind != Eof ==> r.value.st.pos > st.pos
  {
    match NextToken(input, st)
    case Ok((t, st1)) => Ok(PState(st1, t))
    case Err(e) => Err(Lexical(e))
  }

  /** `eat`: the current token must have the given type; the next one is then read from the lexer. */
  function Eaten(input: string, p: PState, k: Kind): (r: Result<PState, CalcError>)
    requires Ready(input, p)
    ensures r.Err? ==> !r.error.NoProgress?
    ensures r.Ok? ==> p.cur.kind == k && Ready(input, r.value) && Measure(input, r.value) <= Measure(input, p)
    ensures r.Ok? && k != Eof ==> Measure(input, r.value) < Measure(input, p)
    ensures r.Ok? ==> r.value.cur.kind != LParen
    ensures p.cur.kind != k ==> r == Err(Expected(k, p.cur.kind))
  {
    if p.cur.kind == k then Fetch(input, p.st) else Err(Expected(k, p.cur.kind))
  }

  // The shape of what the expression parser builds: `* /` bind tighter than
  // `+ -`, and both levels associate to the left.

  predicate IsFactor(n: CalcNode) { n.NumberNode? || n.Variable? }

  predicate TermShaped(n: CalcNode)
  {
    IsFactor(n) || (n.Operation? && (n.op == '*' || n.op == '/') && TermShaped(n.left) && IsFactor(n.right))
  }

  predicate SumShaped(n: CalcNode)
  {
    TermShaped(n) || (n.Operation? && (n.op == '+' || n.op == '-') && SumShaped(n.left) && TermShaped(n.right))
  }

  function Expression(input: string, p: PState): (r: Result<(CalcNode, PState), CalcError>)
    requires Ready(input, p)
    ensures r.Err? ==> !r.error.NoProgress?
    ensures r.Ok? ==> Ready(input, r.value.1) && Measure(input, r.value.1) < Measure(input, p)
    ensures r.Ok? ==> r.value.1.cur.kind != Plus && r.value.1.cur.kind != Minus
    ensures r.Ok? && p.cur.kind != LParen ==> SumShaped(r.value.0) && r.value.1.cur.kind != LParen
    decreases Measure(input, p), 4
  {
    var t :- Term(input, p);
    ExprTail(input, t.0, t.1)
  }

  /** The `while` loop of `parseExpression`: folds `+`/`-` terms to the left. */
  function ExprTail(input: string, node: CalcNode, p: PState): (r: Result<(CalcNode, PState), CalcError>)
    requires Ready(input, p)
    ensures r.Err? ==> !r.error.NoProgress?
    ensures r.Ok? ==> Ready(input, r.value.1) && Measure(input, r.value.1) <= Measure(input, p)
    ensures r.Ok? ==> r.value.1.cur.kind != Plus && r.value.1.cur.kind != Minus
    ensures r.Ok? && p.cur.kind != LParen && SumShaped(node) ==> SumShaped(r.value.0) && r.value.1.cur.kind != LParen
    decreases Measure(input, p), 3
  {
    if p.cur.kind == Plus || p.cur.kind == Minus then
      var op := if p.cur.kind == Plus then '+' else '-';
      var q :- Eaten(input, p, p.cur.kind);
      var right :- Term(input, q);
      ExprTail(input, Operation(op, node, right.0), right.1)
    else Ok((node, p))
  }

  function Term(input: string, p: PState): (r: Result<(CalcNode, PState), CalcError>)
    requires Ready(input, p)
    ensures r.Err? ==> !r.error.NoProgress?
    ensures r.Ok? ==> Ready(input, r.value.1) && Measure(input, r.value.1) < Measure(input, p)
    ensures r.Ok? ==> r.value.1.cur.kind != Multiply && r.value.1.cur.kind != Divide
    ensures r.Ok? && p.cur.kind != LParen ==> TermShaped(r.value.0) && r.value.1.cur.kind != LParen
    decreases Measure(input, p), 2
  {
    var f :- Factor(input, p);
    TermTail(input, f.0, f.1)
  }

  /** The `while` loop of `parseTerm`: folds `*`/`/` factors to the left. */
  function TermTail(input: string, node: CalcNode, p: PState): (r: Result<(CalcNode, PState), CalcError>)
    requires Ready(input, p)
    ensures r.Err? ==> !r.error.NoProgress?
    ensures r.Ok? ==> Ready(input, r.value.1) && Measure(input, r.value.1) <= Measure(input, p)
    ensures r.Ok? ==> r.value.1.cur.kind != Multiply && r.value.1.cur.kind != Divide
    ensures r.Ok? && p.cur.kind != LParen && TermShaped(node) ==> TermShaped(r.value.0) && r.value.1.cur.kind != LParen
    decreases Measure(input, p), 1
  {
    if p.cur.kind == Multiply || p.cur.kind == Divide then
      var op := if p.cur.kind == Multiply then '*' else '/';
      var q :- Eaten(input, p, p.cur.kind);
      var right :- Factor(input, q);
      TermTail(input, Operation(op, node, right.0), right.1)
    else Ok((node, p))
  }

  /**
   * `parseFactor`: a number or a variable; a parenthesised expression is
   * accepted too, though the lexer never produces a parenthesis.
   */
  function Factor(input: string, p: PState): (r: Result<(CalcNode, PState), CalcError>)
    requires Ready(input, p)
    ensures r.Err? ==> !r.error.NoProgress?
    ensures r.Ok? ==> Ready(input, r.value.1) && Measure(input, r.value.1) < Measure(input, p)
    ensures r.Ok? ==> r.value.1.cur.kind != LParen
    ensures r.Ok? && p.cur.kind != LParen ==> IsFactor(r.value.0)
    ensures p.cur.kind !in {Number, Identifier, LParen} ==> r == Err(UnexpectedToken(p.cur.kind))
    decreases Measure(input, p), 0
  {
    if p.cur.kind == Number then
      var q :- Eaten(input, p, Number);
      Ok((NumberNode(NumOf(p.cur)), q))
    else if p.cur.kind == Identifier then
      var q :- Eaten(input, p, Identifier);
      Ok((Variable(TextOf(p.cur)), q))
    else if p.cur.kind == LParen then
      var q :- Eaten(input, p, LParen);
      var inner :- Expression(input, q);
      var q2 :- Eaten(input, inner.1, RParen);
      Ok((inner.0, q2))
    else Err(UnexpectedToken(p.cur.kind))
  }

  /** `parseParam`: `param`, a name, an expression. */
  function ParamDecl(input: string, p: PState): (r: Result<(CalcStmt, PState), CalcError>)
    requires Ready(input, p)
    ensures r.Err? ==> !r.error.NoProgress?
    ensures r.Ok? ==> Ready(input, r.value.1) && Measure(input, r.value.1) < Measure(input, p)
    ensures r.Ok? ==> r.value.0.ParamStmt? && SumShaped(r.value.0.value) && r.value.1.cur.kind != LParen
  {
    var q :- Eaten(input, p, Param);
    var name := TextOf(q.cur);
    var q2 :- Eaten(input, q, Identifier);
    var e :- Expression(input, q2);
    Ok((ParamStmt(name, e.0), e.1))
  }

  /** The `while` loop of `parseShape`: `name: expression` pairs until `}`; a repeated name keeps the last value. */
  function ShapeParams(input: string, params: map<string, CalcNode>, p: PState): (r: Result<(map<string, CalcNode>, PState), CalcError>)
    requires Ready(input, p)
    ensures r.Err? ==> !r.error.NoProgress?
    ensures r.Ok? ==> Ready(input, r.value.1) && Measure(input, r.value.1) <= Measure(input, p)
    ensures r.Ok? ==> r.value.1.cur.kind == RBrace && params.Keys <= r.value.0.Keys
    decreases Measure(input, p)
  {
    if p.cur.kind == RBrace then Ok((params, p))
    else
      var name := TextOf(p.cur);
      var q :- Eaten(input, p, Identifier);
      var q2 :- Eaten(input, q, Colon);
      var e :- Expression(input, q2);
      ShapeParams(input, params[name := e.0], e.1)
  }

  /** `parseShape`: `shape`, a name, `{`, parameters, `}`. */
  function ShapeDecl(input: string, p: PState): (r: Result<(CalcStmt, PState), CalcError>)
    requires Ready(input, p)
    ensures r.Err? ==> !r.error.NoProgress?
    ensures r.Ok? ==> Ready(input, r.value.1) && Measure(input, r.value.1) < Measure(input, p)
    ensures r.Ok? ==> r.value.0.ShapeStmt? && r.value.1.cur.kind != LParen
  {
    var q :- Eaten(input, p, Shape);
    var name := TextOf(q.cur);
    var q2 :- Eaten(input, q, Identifier);
    var q3 :- Eaten(input, q2, LBrace);
    var ps :- ShapeParams(input, map[], q3);
    var q4 :- Eaten(input, ps.1, RBrace);
    Ok((ShapeStmt(name, ps.0), q4))
  }

  /** The loop of `parse`: statements until EOF; any other leading token is never consumed. */
  function ParseStatements(input: string, acc: seq<CalcStmt>, p: PState): (r: Result<seq<CalcStmt>, CalcError>)
    requires Ready(input, p)
    ensures r.Ok? ==> acc <= r.value
    ensures r.Err? && r.error.NoProgress? ==> r.error.at != Eof && r.error.at != Param && r.error.at != Shape
    ensures p.cur.kind != Eof && p.cur.kind != Param && p.cur.kind != Shape ==> r == Err(NoProgress(p.cur.kind))
    decreases Measure(input, p)
  {
    if p.cur.kind == Eof then Ok(acc)
    else if p.cur.kind == Param then
      var s :- ParamDecl(input, p);
      ParseStatements(input, acc + [s.0], s.1)
    else if p.cur.kind == Shape then
      var s :- ShapeDecl(input, p);
      ParseStatements(input, acc + [s.0], s.1)
    else Err(NoProgress(p.cur.kind))
  }

  /** A whole program: the parser reads its first token on construction, then runs `parse`. */
  function Parse(input: string): Result<seq<CalcStmt>, CalcError>
  {
    var p :- Fetch(input, Start);
    ParseStatements(input, [], p)
  }

  /** Every `param` statement's value has the precedence shape. */
  predicate ParamsShaped(stmts: seq<CalcStmt>)
  {
    forall k :: 0 <= k < |stmts| && stmts[k].ParamStmt? ==> SumShaped(stmts[k].value)
  }

  lemma ParamsShapedAppend(stmts: seq<CalcStmt>, s: CalcStmt)
    requires ParamsShaped(stmts) && (s.ParamStmt? ==> SumShaped(s.value))
    ensures ParamsShaped(stmts + [s])
  {
    var all := stmts + [s];
    forall k | 0 <= k < |all| && all[k].ParamStmt?
      ensures SumShaped(all[k].value)
    {
      if k < |stmts| {
        assert all[k] == stmts[k];
      }
    }
  }

  /** Every parameter value a successful parse returns has the precedence shape. */
  lemma {:induction false} ParsedParamsAreShaped(input: string, acc: seq<CalcStmt>, p: PState)
    requires Ready(input, p) && p.cur.kind != LParen && ParamsShaped(acc)
    ensures var r := ParseStatements(input, acc, p); r.Ok? ==> ParamsShaped(r.value)
    decreases Measure(input, p)
  {
    var r := ParseStatements(input, acc, p);
    var k := p.cur.kind;
    if k == Param || k == Shape {
      var s := if k == Param then ParamDecl(input, p) else ShapeDecl(input, p);
      if s.Ok? {
        assert r == ParseStatements(input, acc + [s.value.0], s.value.1);
        ParamsShapedAppend(acc, s.value.0);
        ParsedParamsAreShaped(input, acc + [s.value.0], s.value.1);
      }
    } else if k == Eof {
      assert r == Ok(acc);
    }
  }

  /** Every `param` value of a parsed program has the precedence shape: `* /` below `+ -`, both left-associative. */
  lemma ProgramsAreShaped(input: string)
    ensures var r := Parse(input); r.Ok? ==> ParamsShaped(r.value)
  {
    var p := Fetch(input, Start);
    if p.Ok? {
      ParsedParamsAreShaped(input, [], p.value);
    }
  }

  /** The parser object: the lexer it pulls from and `currentToken`. */
  class Parser {
    const lexer: Lexer
    var currentToken: Token

    ghost predicate Valid()
      reads this, lexer
    {
      lexer.Valid()
    }

    function Position(): PState
      reads this, lexer
    {
      PState(lexer.State(), currentToken)
    }

    constructor (lexer: Lexer, first: Token)
      ensures this.lexer == lexer && currentToken == first
    {
      this.lexer := lexer;
      currentToken := first;
    }

    method Eat(k: Kind) returns (r: Result<(), CalcError>)
      requires Valid()
      modifies this, lexer
      ensures Valid()
      ensures var spec := Eaten(lexer.input, old(Position()), k);
              (r.Ok? ==> spec == Ok(Position())) && (r.Err? ==> spec == Err(r.error))
    {
      if currentToken.kind != k {
        return Err(Expected(k, currentToken.kind));
      }
      var next := lexer.GetNextToken();
      if next.Err? {
        return Err(Lexical(next.error));
      }
      currentToken := next.value;
      return Ok(());
    }

    method ParseExpression() returns (r: Result<CalcNode, CalcError>)
      requires Valid()
      modifies this, lexer
      ensures Valid()
      ensures Outcome(r, Position()) == Expression(lexer.input, old(Position()))
      decreases Measure(lexer.input, Position()), 4
    {
      var term := ParseTerm();
      if term.Err? {
        return Err(term.error);
      }
      var node := term.value;
      while currentToken.kind == Plus || currentToken.kind == Minus
        invariant Valid() && Measure(lexer.input, Position()) < Measure(lexer.input, old(Position()))
        invariant Expression(lexer.input, old(Position())) == ExprTail(lexer.input, node, Position())
        decreases Measure(lexer.input, Position())
      {
        var op := if currentToken.kind == Plus then '+' else '-';
        var eaten := Eat(currentToken.kind);
        if eaten.Err? {
          return Err(eaten.error);
        }
        var right := ParseTerm();
        if right.Err? {
          return Err(right.error);
        }
        node := Operation(op, node, right.value);
      }
      return Ok(node);
    }

    method ParseTerm() returns (r: Result<CalcNode, CalcError>)
      requires Valid()
      modifies this, lexer
      ensures Valid()
      ensures Outcome(r, Position()) == Term(lexer.input, old(Position()))
      decreases Measure(lexer.input, Position()), 2
    {
      var factor := ParseFactor();
      if factor.Err? {
        return Err(factor.error);
      }
      var node := factor.value;
      while currentToken.kind == Multiply || currentToken.kind == Divide
        invariant Valid() && Measure(lexer.input, Position()) < Measure(lexer.input, old(Position()))
        invariant Term(lexer.input, old(Position())) == TermTail(lexer.input, node, Position())
        decreases Measure(lexer.input, Position())
      {
        var op := if currentToken.kind == Multiply then '*' else '/';
        var eaten := Eat(currentToken.kind);
        if eaten.Err? {
          return Err(eaten.error);
        }
        var right := ParseFactor();
        if right.Err? {
          return Err(right.error);
        }
        node := Operation(op, node, right.value);
      }
      return Ok(node);
    }

    method ParseFactor() returns (r: Result<CalcNode, CalcError>)
      requires Valid()
      modifies this, lexer
      ensures Valid()
      ensures Outcome(r, Position()) == Factor(lexer.input, old(Position()))
      decreases Measure(lexer.input, Position()), 0
    {
      var token := currentToken;
      if token.kind == Number {
        var eaten := Eat(Number);
        if eaten.Err? {
          return Err(eaten.error);
        }
        return Ok(NumberNode(NumOf(token)));
      } else if token.kind == Identifier {
        var eaten := Eat(Identifier);
        if eaten.Err? {
          return Err(eaten.error);
        }
        return Ok(Variable(TextOf(token)));
      } else if token.kind == LParen {
        var eaten := Eat(LParen);
        if eaten.Err? {
          return Err(eaten.error);
        }
        var node := ParseExpression();
        if node.Err? {
          return Err(node.error);
        }
        eaten := Eat(RParen);
        if eaten.Err? {
          return Err(eaten.error);
        }
        return node;
      }
      return Err(UnexpectedToken(token.kind));
    }

    method ParseParam() returns (r: Result<CalcStmt, CalcError>)
      requires Valid()
      modifies this, lexer
      ensures Valid()
      ensures Outcome(r, Position()) == ParamDecl(lexer.input, old(Position()))
    {
      var eaten := Eat(Param);
      if eaten.Err? {
        return Err(eaten.error);
      }
      var name := TextOf(currentToken);
      eaten := Eat(Identifier);
      if eaten.Err? {
        return Err(eaten.error);
      }
      var value := ParseExpression();
      if value.Err? {
        return Err(value.error);
      }
      return Ok(ParamStmt(name, value.value));
    }

    method ParseShape() returns (r: Result<CalcStmt, CalcError>)
      requires Valid()
      modifies this, lexer
      ensures Valid()
      ensures Outcome(r, Position()) == ShapeDecl(lexer.input, old(Position()))
    {
      var eaten := Eat(Shape);
      if eaten.Err? {
        return Err(eaten.error);
      }
      var name := TextOf(currentToken);
      eaten := Eat(Identifier);
      if eaten.Err? {
        return Err(eaten.error);
      }
      var params := map[];
      eaten := Eat(LBrace);
      if eaten.Err? {
        return Err(eaten.error);
      }
      ghost var afterBrace := Position();
      while currentToken.kind != RBrace
        invariant Valid()
        invariant ShapeParams(lexer.input, map[], afterBrace) == ShapeParams(lexer.input, params, Position())
        decreases Measure(lexer.input, Position())
      {
        var paramName := TextOf(currentToken);
        eaten := Eat(Identifier);
        if eaten.Err? {
          return Err(eaten.error);
        }
        eaten := Eat(Colon);
        if eaten.Err? {
          return Err(eaten.error);
        }
        var value := ParseExpression();
        if value.Err? {
          return Err(value.error);
        }
        params := params[paramName := value.value];
      }
      eaten := Eat(RBrace);
      if eaten.Err? {
        return Err(eaten.error);
      }
      return Ok(ShapeStmt(name, params));
    }

    /** `parse`; where the source spins for ever on a stray token, this returns `NoProgress`. */
    method Parse() returns (r: Result<seq<CalcStmt>, CalcError>)
      requires Valid()
      modifies this, lexer
      ensures r == ParseStatements(lexer.input, [], old(Position()))
    {
      var statements := [];
      while currentToken.kind != Eof
        invariant Valid()
        invariant ParseStatements(lexer.input, [], old(Position())) == ParseStatements(lexer.input, statements, Position())
        decreases Measure(lexer.input, Position())
      {
        var s: Result<CalcStmt, CalcError>;
        if currentToken.kind == Param {
          s := ParseParam();
        } else if currentToken.kind == Shape {
          s := ParseShape();
        } else {
          return Err(NoProgress(currentToken.kind));
        }
        if s.Err? {
          return Err(s.error);
        }
        statements := statements + [s.value];
      }
      return Ok(statements);
    }
  }

  /** `new Parser(new Lexer(input)).parse()`: the constructor's first token read, then `parse`. */
  method ParseProgram(input: string) returns (r: Result<seq<CalcStmt>, CalcError>)
    ensures r == Parse(input)
  {
    var lexer := new Lexer(input);
    var first := lexer.GetNextToken();
    if first.Err? {
      return Err(Lexical(first.error));
    }
    var parser := new Parser(lexer, first.value);
    r := parser.Parse();
  }
}
