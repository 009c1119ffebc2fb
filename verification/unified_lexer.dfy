// The indentation-sensitive lexer of lexer_parser_unified.mjs (`LogicalLexer`):
// Python-style INDENT/DEDENT tokens from a stack of indentation widths,
// keywords, numbers with an optional leading `-`, and double-quoted strings
// with a few escapes.

module UnifiedLexer {
  import opened Common
  import opened Tokens
  import ShapeRules

  /** The lexer's fields: `pos`, `line`, `column` and `indentStack` (`current_char` is `input[pos]`, or null past the end). */
  datatype LexState = LexState(pos: nat, line: int, column: int, stack: seq<nat>)

  datatype LexError =
    | InvalidDedent(line: int, column: int)
    | InvalidEscape(escaped: Option<char>)
    | UnterminatedString
    | UnexpectedCharacter(c: char)

  /** The constructor: at the first character, line 1, column 1, `indentStack = [0]`. */
  const Start := LexState(0, 1, 1, [0])

  /** The indentation stack starts at 0 and strictly increases. */
  predicate StackOk(s: seq<nat>)
  {
    |s| > 0 && s[0] == 0 && forall i :: 0 < i < |s| ==> s[i - 1] < s[i]
  }

  function Top(s: seq<nat>): nat
    requires |s| > 0
  {
    s[|s| - 1]
  }

  predicate Ready(input: string, st: LexState)
  {
    st.pos <= |input| && st.column >= 1 && StackOk(st.stack)
  }

  /** `advance`: the column moves only while a character remains. */
  function Advanced(input: string, st: LexState): (r: LexState)
    requires st.pos < |input|
    ensures r.pos == st.pos + 1 && r.line == st.line && r.stack == st.stack
    ensures r.column == if r.pos < |input| then st.column + 1 else st.column
  {
    if st.pos + 1 >= |input| then st.(pos := st.pos + 1)
    else st.(pos := st.pos + 1, column := st.column + 1)
  }

  /**
   * How far the column has moved after advancing from `st` to `r` on one line:
   * one per character, except that the step onto the end of input does not count.
   */
  predicate ColumnFollows(input: string, st: LexState, r: LexState)
  {
    st.pos <= r.pos <= |input| &&
    r.column == st.column + (r.pos - st.pos) - (if r.pos == |input| && r.pos > st.pos then 1 else 0)
  }

  /** The longest run of characters satisfying `accept` from the cursor, and the cursor after it. */
  function Scan(input: string, st: LexState, accept: char -> bool): (r: (string, LexState))
    requires st.pos <= |input|
    ensures r.1.line == st.line && r.1.stack == st.stack && ColumnFollows(input, st, r.1)
    ensures r.0 == input[st.pos..r.1.pos]
    ensures forall k :: 0 <= k < |r.0| ==> accept(r.0[k])
    ensures forall k :: st.pos <= k < r.1.pos ==> accept(input[k])
    ensures r.1.pos == |input| || !accept(input[r.1.pos])
    decreases |input| - st.pos
  {
    if st.pos < |input| && accept(input[st.pos]) then
      var rest := Scan(input, Advanced(input, st), accept);
      ([input[st.pos]] + rest.0, rest.1)
    else ("", st)
  }

  /** `skipWhitespace`: spaces and tabs. */
  function SkipSpaces(input: string, st: LexState): (r: LexState)
    requires st.pos <= |input|
  {
    Scan(input, st, IsSpaceOrTab).1
  }

  /** `skipComment`: everything up to the next line feed. */
  function PastComment(input: string, st: LexState): (r: LexState)
    requires st.pos <= |input|
  {
    Scan(input, st, c => c != '\n').1
  }

  /** `#`, or `//`, at `pos`. */
  predicate CommentAt(input: string, pos: nat)
  {
    CharAt(input, pos) == Some('#') || (CharAt(input, pos) == Some('/') && CharAt(input, pos + 1) == Some('/'))
  }

  // ---- new lines and indentation ---------------------------------------------

  /** The loop of `handleNewLine` over further line feeds: one line per line feed. */
  function NewlineRun(input: string, st: LexState): (r: LexState)
    requires st.pos <= |input|
    ensures r.line == st.line + (r.pos - st.pos) && r.stack == st.stack && ColumnFollows(input, st, r)
    ensures forall k :: st.pos <= k < r.pos ==> input[k] == '\n'
    ensures CharAt(input, r.pos) != Some('\n')
    decreases |input| - st.pos
  {
    if CharAt(input, st.pos) == Some('\n') then
      var st1 := Advanced(input, st);
      NewlineRun(input, st1.(line := st1.line + 1))
    else st
  }

  /**
   * `handleNewLine`: a single NEWLINE token for a run of line feeds. The column
   * is reset to 1 after the first one only; each further line feed moves it on.
   */
  function NewLine(input: string, st: LexState): (r: (Token, LexState))
    requires st.pos < |input| && input[st.pos] == '\n'
    ensures r.0.kind == Newline && r.1.stack == st.stack && st.pos < r.1.pos <= |input|
    ensures forall k :: st.pos <= k < r.1.pos ==> input[k] == '\n'
    ensures CharAt(input, r.1.pos) != Some('\n')
    ensures r.1.line == st.line + (r.1.pos - st.pos)
    ensures r.1.column >= 1
  {
    var st1 := Advanced(input, st).(line := st.line + 1, column := 1);
    var st2 := NewlineRun(input, st1);
    (Token(Newline, VStr("\n"), st2.line - 1, st2.column), st2)
  }

  /** The indentation width of a run of spaces and tabs: a space counts 1, a tab 4. */
  function Width(s: string): nat
  {
    if s == [] then 0 else (if s[0] == ' ' then 1 else 4) + Width(s[1..])
  }

  /** The counting loop of `handleIndentation`. */
  function IndentRun(input: string, st: LexState, spaces: nat): (r: (nat, LexState))
    requires st.pos <= |input|
    ensures r.1.line == st.line && r.1.stack == st.stack && ColumnFollows(input, st, r.1)
    ensures forall k :: st.pos <= k < r.1.pos ==> IsSpaceOrTab(input[k])
    ensures r.1.pos == |input| || !IsSpaceOrTab(input[r.1.pos])
    ensures r.0 == spaces + Width(input[st.pos..r.1.pos])
    decreases |input| - st.pos
  {
    if st.pos < |input| && IsSpaceOrTab(input[st.pos]) then
      var r := IndentRun(input, Advanced(input, st), spaces + (if input[st.pos] == ' ' then 1 else 4));
      assert input[st.pos..r.1.pos][1..] == input[st.pos + 1..r.1.pos];
      r
    else
      assert input[st.pos..st.pos] == [];
      (spaces, st)
  }

  /** A line whose first non-blank character is a line feed or starts a comment. */
  predicate BlankAfterIndent(input: string, pos: nat)
  {
    CharAt(input, pos) == Some('\n') || CharAt(input, pos) == Some('#') ||
    (CharAt(input, pos) == Some('/') && CharAt(input, pos + 1) == Some('/'))
  }

  /**
   * `handleIndentation`, at column 1: measure the leading blanks; a blank or
   * comment line changes nothing; a deeper line pushes its width and gives
   * INDENT; a shallower line pops ONE level and gives DEDENT with the new
   * width, or fails when the width falls strictly between two levels.
   */
  function Indentation(input: string, st: LexState): (r: Result<(Option<Token>, LexState), LexError>)
    requires Ready(input, st)
    ensures r.Ok? ==> Ready(input, r.value.1) && st.pos <= r.value.1.pos
    ensures r.Ok? && r.value.0.Some? ==>
              WidthToken(r.value.0.value) && LexMeasure(input, r.value.1) < LexMeasure(input, st)
  {
    var (spaces, st1) := IndentRun(input, st, 0);
    IndentDecision(input, st.column, spaces, st1)
  }

  /** What `handleIndentation` does once the leading blanks are counted; `column` is where they began. */
  function IndentDecision(input: string, column: int, spaces: nat, st1: LexState): Result<(Option<Token>, LexState), LexError>
    requires Ready(input, st1)
  {
    if BlankAfterIndent(input, st1.pos) then Ok((None, st1))
    else if spaces > Top(st1.stack) then
      Ok((Some(Token(Indent, VNum(spaces as real), st1.line, column)), st1.(stack := st1.stack + [spaces])))
    else if spaces < Top(st1.stack) then
      var popped := st1.stack[..|st1.stack| - 1];
      if spaces > Top(popped) then Err(InvalidDedent(st1.line, st1.column))
      else Ok((Some(Token(Dedent, VNum(spaces as real), st1.line, column)), st1.(stack := popped)))
    else Ok((None, st1))
  }
  /**
   * What `handleIndentation` decides, case by case: a blank or comment line
   * changes nothing; a deeper line pushes its width and gives INDENT; a
   * shallower line pops ONE level and gives DEDENT with the new width; a
   * width strictly between two levels is an error; the cursor ends after
   * the leading blanks, on the same line.
   */
  lemma IndentationCases(input: string, st: LexState)
    requires Ready(input, st)
    ensures var (w, after) := IndentRun(input, st, 0);
            var r := Indentation(input, st);
            && (r.Ok? ==> r.value.1.pos == after.pos && r.value.1.line == st.line && ColumnFollows(input, st, r.value.1))
            && (BlankAfterIndent(input, after.pos) ==> r == Ok((None, after)))
            && (r.Ok? && r.value.0.None? ==> r.value.1.stack == st.stack)
            && (r.Ok? && r.value.0.Some? && r.value.0.value.kind == Indent <==>
                  !BlankAfterIndent(input, after.pos) && w > Top(st.stack))
            && (r.Ok? && r.value.0.Some? && r.value.0.value.kind == Indent ==> r.value.1.stack == st.stack + [w])
            && (r.Ok? && r.value.0.Some? ==> r.value.0.value.value == VNum(w as real))
            && (r.Ok? && r.value.0.Some? && r.value.0.value.kind == Dedent ==>
                  |st.stack| >= 2 && r.value.1.stack == st.stack[..|st.stack| - 1] && Top(r.value.1.stack) >= w)
            && (r.Err? <==> !BlankAfterIndent(input, after.pos) && w < Top(st.stack) &&
                              w > Top(st.stack[..|st.stack| - 1]))
  {
  }


  // ---- words, numbers, strings, operators -------------------------------------

  /** The keyword table of `identifier`. */
  function Keyword(word: string): Option<Kind>
  {
    match word
    case "rectangle" => Some(ShapeType)
    case "circle" => Some(ShapeType)
    case "triangle" => Some(ShapeType)
    case "ellipse" => Some(ShapeType)
    case "text" => Some(ShapeType)
    case "path" => Some(ShapeType)
    case "gear" => Some(ShapeType)
    case "star" => Some(ShapeType)
    case "cross" => Some(ShapeType)
    case "slot" => Some(ShapeType)
    case "arc" => Some(ShapeType)
    case "spiral" => Some(ShapeType)
    case "wave" => Some(ShapeType)
    case "donut" => Some(ShapeType)
    case "layer" => Some(Layer)
    case "transform" => Some(Transform)
    case "add" => Some(Add)
    case "subtract" => Some(Subtract)
    case "if" => Some(If)
    case "else" => Some(Else)
    case "for" => Some(For)
    case "in" => Some(In)
    case "range" => Some(Range)
    case "to" => Some(To)
    case "step" => Some(Step)
    case "and" => Some(And)
    case "or" => Some(Or)
    case "not" => Some(Not)
    case "true" => Some(Boolean)
    case "false" => Some(Boolean)
    case "fillet" => Some(Fillet)
    case "fillet_type" => Some(Property)
    case "fillet_radius" => Some(Property)
    case "round" => Some(FilletType)
    case "chamfer" => Some(FilletType)
    case "corners" => Some(Property)
    case "all" => Some(CornerType)
    case "top" => Some(CornerType)
    case "bottom" => Some(CornerType)
    case "left" => Some(CornerType)
    case "right" => Some(CornerType)
    case "position" => Some(Property)
    case "rotation" => Some(Property)
    case "scale" => Some(Property)
    case "scaleX" => Some(Property)
    case "scaleY" => Some(Property)
    case "translate" => Some(Property)
    case "width" => Some(Property)
    case "height" => Some(Property)
    case "radius" => Some(Property)
    case "base" => Some(Property)
    case "content" => Some(Property)
    case "fontSize" => Some(Property)
    case "fontFamily" => Some(Property)
    case "points" => Some(Property)
    case "startAngle" => Some(Property)
    case "endAngle" => Some(Property)
    case "thickness" => Some(Property)
    case "pitch_diameter" => Some(Property)
    case "teeth" => Some(Property)
    case "outerRadius" => Some(Property)
    case "innerRadius" => Some(Property)
    case "radiusX" => Some(Property)
    case "radiusY" => Some(Property)
    case "startRadius" => Some(Property)
    case "endRadius" => Some(Property)
    case "turns" => Some(Property)
    case "amplitude" => Some(Property)
    case "frequency" => Some(Property)
    case "length" => Some(Property)
    case "shaft_type" => Some(Property)
    case "circular" => Some(ShaftType)
    case "square" => Some(ShaftType)
    case _ => None
  }

  /**
   * `keywords[result] || 'IDENTIFIER'`: the table's entry; a non-string type
   * for names the table inherits from `Object.prototype`; IDENTIFIER otherwise.
   */
  function WordKind(word: string): (k: Kind)
    ensures k == Identifier <==> Keyword(word).None? && word !in ShapeRules.PrototypeKeys
    ensures Keyword(word).Some? ==> k == Keyword(word).value
  {
    match Keyword(word)
    case Some(k) => k
    case None => if word in ShapeRules.PrototypeKeys then Inherited else Identifier
  }

  lemma KeywordsAreNeverIdentifiers(word: string)
    requires Keyword(word).Some?
    ensures Keyword(word).value != Identifier && Keyword(word).value != Inherited
  {
  }

  /**
   * `identifier`: the longest run of word characters, typed by the keyword
   * table. It is also reached with `current_char` null (see `Dispatch`), and
   * then reads the empty name.
   */
  function LexWord(input: string, st: LexState): (r: (Token, LexState))
    requires st.pos <= |input|
    ensures r.1.line == st.line && r.1.stack == st.stack && ColumnFollows(input, st, r.1)
    ensures st.pos < |input| && IsWordChar(input[st.pos]) ==> st.pos < r.1.pos
    ensures r.0.kind != Eof && r.0.kind != Indent && r.0.kind != Dedent
  {
    var (word, st1) := Scan(input, st, IsWordChar);
    (Token(WordKind(word), VStr(word), st.line, st.column), st1)
  }

  /**
   * `identifier` reads the longest run of word characters at the cursor and
   * types it by the keyword table.
   */
  lemma LexWordReadsWord(input: string, st: LexState)
    requires st.pos <= |input|
    ensures var r := LexWord(input, st);
            var word := input[st.pos..r.1.pos];
            r.0.value == VStr(word) && r.0.kind == WordKind(word) &&
            (forall k :: 0 <= k < |word| ==> IsWordChar(word[k])) &&
            (r.1.pos == |input| || !IsWordChar(input[r.1.pos]))
  {
  }


  /** Digits, then optionally a `.` and more digits; at most one `.`, never first. */
  predicate UnsignedNumeral(s: string)
  {
    |s| > 0 && IsDigit(s[0]) &&
    (forall k :: 0 <= k < |s| ==> IsDigit(s[k]) || s[k] == '.') &&
    (forall j, k :: 0 <= j < k < |s| && s[j] == '.' ==> IsDigit(s[k]))
  }

  /** An optional `-`, then an unsigned numeral. */
  predicate Numeral(s: string)
  {
    if |s| > 0 && s[0] == '-' then UnsignedNumeral(s[1..]) else UnsignedNumeral(s)
  }

  /** A numeral's value, `parseFloat` read exactly. */
  function Signed(negative: bool, v: real): real
  {
    if negative then -v else v
  }

  /**
   * `number`: an optional `-`, digits, and an optional `.` with more digits;
   * the lexer calls it on a digit, or on a `-` followed by a digit.
   */
  function LexNumber(input: string, st: LexState): (r: (Token, LexState))
    requires st.pos < |input|
    requires IsDigit(input[st.pos]) || (input[st.pos] == '-' && st.pos + 1 < |input| && IsDigit(input[st.pos + 1]))
    ensures r.0.kind == Number && r.1.line == st.line && r.1.stack == st.stack && st.column <= r.1.column
    ensures st.pos < r.1.pos <= |input|
  {
    var negative := input[st.pos] == '-';
    var st0 := if negative then Advanced(input, st) else st;
    var (whole, st1) := Scan(input, st0, IsDigit);
    if CharAt(input, st1.pos) == Some('.') then
      var (fraction, st2) := Scan(input, Advanced(input, st1), IsDigit);
      (Token(Number, VNum(Signed(negative, DecimalValue(whole, fraction))), st.line, st.column), st2)
    else
      (Token(Number, VNum(Signed(negative, DecimalValue(whole, ""))), st.line, st.column), st1)
  }

  /** `number` reads the longest numeral at the cursor: what it consumes is a numeral, and no digit follows. */
  lemma LexNumberReadsNumeral(input: string, st: LexState)
    requires st.pos < |input|
    requires IsDigit(input[st.pos]) || (input[st.pos] == '-' && st.pos + 1 < |input| && IsDigit(input[st.pos + 1]))
    ensures var r := LexNumber(input, st);
            Numeral(input[st.pos..r.1.pos]) && (r.1.pos == |input| || !IsDigit(input[r.1.pos]))
  {
    var negative := input[st.pos] == '-';
    var st0 := if negative then Advanced(input, st) else st;
    var (whole, st1) := Scan(input, st0, IsDigit);
    if CharAt(input, st1.pos) == Some('.') {
      var (fraction, st2) := Scan(input, Advanced(input, st1), IsDigit);
      NumeralParts(input, st.pos, st0.pos, st1.pos, st2.pos);
    } else {
      NumeralParts(input, st.pos, st0.pos, st1.pos, st1.pos);
    }
  }


  /** The text `-`? digits (`.` digits)? is a numeral. */
  lemma NumeralParts(input: string, start: nat, afterSign: nat, afterWhole: nat, end: nat)
    requires start <= afterSign < afterWhole <= end <= |input|
    requires afterSign == start || (afterSign == start + 1 && input[start] == '-')
    requires forall k :: afterSign <= k < afterWhole ==> IsDigit(input[k])
    requires afterWhole < end ==> input[afterWhole] == '.' && forall k :: afterWhole < k < end ==> IsDigit(input[k])
    ensures Numeral(input[start..end])
  {
    var s := input[start..end];
    var body := input[afterSign..end];
    if afterSign == start + 1 {
      assert s[0] == '-' && s[1..] == body;
    } else {
      assert s == body;
      assert s[0] != '-';
    }
    assert body[0] == input[afterSign];
    forall j, k | 0 <= j < k < |body| && body[j] == '.'
      ensures IsDigit(body[k])
    {
      assert input[afterSign + j] == '.';
      assert afterSign + j >= afterWhole;
    }
  }

  /** The five escapes `\n \t \r \" \\`; any other character, or the end of input, is an error. */
  function Unescape(c: Option<char>): (r: Result<char, LexError>)
    ensures r.Ok? <==> c == Some('n') || c == Some('t') || c == Some('r') || c == Some('"') || c == Some('\\')
  {
    match c
    case Some('n') => Ok('\n')
    case Some('t') => Ok('\t')
    case Some('r') => Ok('\r')
    case Some('"') => Ok('"')
    case Some('\\') => Ok('\\')
    case _ => Err(InvalidEscape(c))
  }

  /** The loop of `string` after the opening quote, and the skip of the closing quote. */
  function StringBody(input: string, st: LexState, acc: string): (r: Result<(string, LexState), LexError>)
    requires st.pos <= |input|
    ensures r.Ok? ==> st.pos < r.value.1.pos <= |input| && input[r.value.1.pos - 1] == '"'
    ensures r.Ok? ==> r.value.1.line == st.line && r.value.1.stack == st.stack && ColumnFollows(input, st, r.value.1)
    decreases |input| - st.pos
  {
    if st.pos == |input| then Err(UnterminatedString)
    else if input[st.pos] == '"' then Ok((acc, Advanced(input, st)))
    else if input[st.pos] == '\\' then
      var st1 := Advanced(input, st);
      var c :- Unescape(CharAt(input, st1.pos));
      StringBody(input, Advanced(input, st1), acc + [c])
    else StringBody(input, Advanced(input, st), acc + [input[st.pos]])
  }

  /** `string`, on the opening quote. */
  function LexString(input: string, st: LexState): (r: Result<(Token, LexState), LexError>)
    requires st.pos < |input| && input[st.pos] == '"'
    ensures r.Ok? ==> r.value.0.kind == String && r.value.1.line == st.line && r.value.1.stack == st.stack
    ensures r.Ok? ==> ColumnFollows(input, st, r.value.1) && st.pos + 2 <= r.value.1.pos
  {
    var body :- StringBody(input, Advanced(input, st), "");
    Ok((Token(String, VStr(body.0), st.line, st.column), body.1))
  }

  /** The letter written after a backslash for the five characters that need one. */
  function EscapeLetter(c: char): Option<char>
  {
    match c
    case '\n' => Some('n')
    case '\t' => Some('t')
    case '\r' => Some('r')
    case '"' => Some('"')
    case '\\' => Some('\\')
    case _ => None
  }

  /** Each escape letter is read back as the character it stands for; only those five letters are read. */
  lemma UnescapeInvertsEscape(c: char)
    ensures EscapeLetter(c).Some? ==> Unescape(Some(EscapeLetter(c).value)) == Ok(c)
    ensures EscapeLetter(c).None? ==> c != '\\' && c != '"'
  {
  }

  /** How a string is written as a literal body, with the five escapes. */
  function EscapeChar(c: char): (e: string)
    ensures 1 <= |e| <= 2
  {
    match EscapeLetter(c)
    case Some(letter) => ['\\', letter]
    case None => [c]
  }

  function Escaped(s: string): string
  {
    if s == [] then [] else EscapeChar(s[0]) + Escaped(s[1..])
  }

  /** Where the cursor stands after reading one escaped character. */
  function AfterEscape(input: string, st: LexState, c: char): LexState
    requires st.pos + |EscapeChar(c)| <= |input|
  {
    if |EscapeChar(c)| == 2 then Advanced(input, Advanced(input, st)) else Advanced(input, st)
  }

  /** The input holds `w` from position `a` on. */
  predicate Spells(input: string, a: nat, w: string)
  {
    a + |w| <= |input| && forall i :: 0 <= i < |w| ==> input[a + i] == w[i]
  }

  /** Spelling `x + y` is spelling `x` and then `y`. */
  lemma SpellsSplit(input: string, a: nat, x: string, y: string)
    requires Spells(input, a, x + y)
    ensures Spells(input, a, x) && Spells(input, a + |x|, y)
  {
    forall i | 0 <= i < |x| ensures input[a + i] == x[i] {
      assert (x + y)[i] == x[i];
    }
    forall i | 0 <= i < |y| ensures input[a + |x| + i] == y[i] {
      assert (x + y)[|x| + i] == y[i];
    }
  }

  /** One escaped character is read back as itself. */
  lemma EscapeStep(input: string, st: LexState, c: char, acc: string)
    requires Spells(input, st.pos, EscapeChar(c))
    ensures AfterEscape(input, st, c).pos == st.pos + |EscapeChar(c)|
    ensures StringBody(input, st, acc) == StringBody(input, AfterEscape(input, st, c), acc + [c])
  {
    var e := EscapeChar(c);
    assert input[st.pos + 0] == e[0];
    if |e| == 2 {
      assert input[st.pos + 1] == e[1];
      UnescapeInvertsEscape(c);
    }
  }

  lemma ClosingQuote(input: string, st: LexState, acc: string)
    requires Spells(input, st.pos, "\"")
    ensures StringBody(input, st, acc) == Ok((acc, Advanced(input, st)))
  {
    assert input[st.pos + 0] == "\""[0];
  }

  /** Spelling `x + y` and a quote is spelling `x` and then `y` and the quote. */
  lemma SpellsQuotedSplit(input: string, a: nat, x: string, y: string)
    requires Spells(input, a, x + y + "\"")
    ensures Spells(input, a, x) && Spells(input, a + |x|, y + "\"")
  {
    assert x + y + "\"" == x + (y + "\"");
    SpellsSplit(input, a, x, y + "\"");
  }

  lemma EscapedCons(s: string)
    requires s != []
    ensures Escaped(s) == EscapeChar(s[0]) + Escaped(s[1..])
  {
  }

  /** Reading the first escaped character of a quoted string leaves the rest of it and its quote ahead. */
  lemma RoundTripStep(input: string, st: LexState, s: string, acc: string)
    requires s != [] && Spells(input, st.pos, Escaped(s) + "\"")
    ensures var st1 := AfterEscape(input, st, s[0]);
            st1.pos + |Escaped(s[1..])| == st.pos + |Escaped(s)| &&
            Spells(input, st1.pos, Escaped(s[1..]) + "\"") &&
            StringBody(input, st, acc) == StringBody(input, st1, acc + [s[0]])
  {
    EscapedCons(s);
    SpellsQuotedSplit(input, st.pos, EscapeChar(s[0]), Escaped(s[1..]));
    EscapeStep(input, st, s[0], acc);
  }

  /** Reading back an escaped string and its closing quote gives the string itself. */
  lemma {:induction false} StringRoundTrip(input: string, st: LexState, s: string, acc: string)
    requires Spells(input, st.pos, Escaped(s) + "\"")
    ensures var r := StringBody(input, st, acc);
            r.Ok? && r.value.0 == acc + s && r.value.1.pos == st.pos + |Escaped(s)| + 1
    decreases s
  {
    if s == [] {
      assert Escaped(s) + "\"" == "\"";
      ClosingQuote(input, st, acc);
    } else {
      RoundTripStep(input, st, s, acc);
      StringRoundTrip(input, AfterEscape(input, st, s[0]), s[1..], acc + [s[0]]);
      assert acc + [s[0]] + s[1..] == acc + s;
    }
  }

  /** Without a closing quote ahead, a string literal is an error. */
  lemma {:induction false} UnterminatedStringRejected(input: string, st: LexState, acc: string)
    requires st.pos <= |input|
    requires forall k :: st.pos <= k < |input| ==> input[k] != '"'
    ensures StringBody(input, st, acc).Err?
    decreases |input| - st.pos
  {
    if st.pos < |input| {
      if input[st.pos] == '\\' {
        var st1 := Advanced(input, st);
        if Unescape(CharAt(input, st1.pos)).Ok? {
          UnterminatedStringRejected(input, Advanced(input, st1), acc + [Unescape(CharAt(input, st1.pos)).value]);
        }
      } else {
        UnterminatedStringRejected(input, Advanced(input, st), acc + [input[st.pos]]);
      }
    }
  }

  /** `>`, `<`, `=`, `!`, alone or followed by `=`; a lone `=` has no entry in the table and gets type `undefined`. */
  function LexOperator(input: string, st: LexState): (r: (Token, LexState))
    requires st.pos < |input| && input[st.pos] in "><=!"
    ensures r.1.line == st.line && r.1.stack == st.stack && ColumnFollows(input, st, r.1) && st.pos < r.1.pos
    ensures r.0.kind in {GreaterEquals, LessEquals, Equals, NotEquals} <==> CharAt(input, st.pos + 1) == Some('=')
  {
    var c := input[st.pos];
    var st1 := Advanced(input, st);
    if CharAt(input, st1.pos) == Some('=') then
      (Token(PairedOperatorKind(c), VStr([c, '=']), st.line, st.column), Advanced(input, st1))
    else
      (Token(SingleOperatorKind(c), VStr([c]), st.line, st.column), st1)
  }

  /** The table for `>=`, `<=`, `==`, `!=`. */
  function PairedOperatorKind(c: char): Kind
  {
    if c == '>' then GreaterEquals else if c == '<' then LessEquals else if c == '=' then Equals else NotEquals
  }

  /** The table for a lone `>`, `<`, `!`; `=` has no entry. */
  function SingleOperatorKind(c: char): Kind
  {
    if c == '>' then GreaterThan else if c == '<' then LessThan else if c == '!' then Not else Undefined
  }

  /** The single-character tokens. */
  function SpecialKind(c: char): Option<Kind>
  {
    match c
    case ':' => Some(Colon)
    case '[' => Some(LBracket)
    case ']' => Some(RBracket)
    case '{' => Some(LBrace)
    case '}' => Some(RBrace)
    case '(' => Some(LParen)
    case ')' => Some(RParen)
    case ',' => Some(Comma)
    case '+' => Some(Plus)
    case '-' => Some(Minus)
    case '*' => Some(Multiply)
    case '/' => Some(Divide)
    case '.' => Some(Dot)
    case _ => None
  }

  // ---- getNextToken and tokenize ----------------------------------------------

  /** An INDENT, or a DEDENT carrying a width: the tokens only `handleIndentation` makes. */
  predicate WidthToken(t: Token)
  {
    t.kind == Indent || (t.kind == Dedent && t.value.VNum?)
  }

  /** Decreases with every token but the final EOF: a pushed level always costs at least one character. */
  function LexMeasure(input: string, st: LexState): nat
    requires st.pos <= |input|
  {
    2 * (|input| - st.pos) + |st.stack|
  }

  /**
   * `getNextToken`: at the end of input, one DEDENT per outstanding level
   * and then EOF; otherwise, at column 1, indentation first, and then the
   * rest of the loop body.
   */
  function NextToken(input: string, st: LexState): (r: Result<(Token, LexState), LexError>)
    requires Ready(input, st)
    ensures r.Ok? ==> Ready(input, r.value.1) && r.value.1.pos >= st.pos
    ensures r.Ok? && r.value.0.kind != Eof ==> LexMeasure(input, r.value.1) < LexMeasure(input, st)
    ensures r.Ok? && r.value.0.kind == Eof ==> r.value.1.pos == |input| && r.value.1.stack == [0]
    ensures r.Ok? && WidthToken(r.value.0) ==> st.column == 1 && st.pos < |input|
    decreases |input| - st.pos, 1
  {
    if st.pos == |input| then
      if |st.stack| > 1 then Ok((Token(Dedent, VNull, st.line, st.column), st.(stack := st.stack[..|st.stack| - 1])))
      else
        assert st.stack == [0];
        Ok((Token(Eof, VNull, st.line, st.column), st))
    else
      var indent :- if st.column == 1 then Indentation(input, st) else Ok((None, st));
      if indent.0.Some? then Ok((indent.0.value, indent.1))
      else Dispatch(input, indent.1)
  }

  /**
   * The rest of the loop body of `getNextToken`: blanks and comments are
   * skipped and the loop goes round again; anything else makes a token.
   */
  function Dispatch(input: string, st: LexState): (r: Result<(Token, LexState), LexError>)
    requires Ready(input, st)
    ensures r.Ok? ==> Ready(input, r.value.1) && r.value.1.pos >= st.pos
    ensures r.Ok? && r.value.0.kind != Eof ==> LexMeasure(input, r.value.1) <= LexMeasure(input, st)
    ensures r.Ok? && r.value.0.kind != Eof && st.pos < |input| ==> LexMeasure(input, r.value.1) < LexMeasure(input, st)
    ensures r.Ok? && r.value.0.kind == Eof ==> r.value.1.pos == |input| && r.value.1.stack == [0]
    ensures r.Ok? ==> !WidthToken(r.value.0)
    decreases |input| - st.pos, 0
  {
    if TestSpaceOrTab(CharAt(input, st.pos)) then NextToken(input, SkipSpaces(input, st))
    else if CommentAt(input, st.pos) then NextToken(input, PastComment(input, st))
    else LexAt(input, st)
  }

  /**
   * The token-making tests of `getNextToken`, in the source's order. The
   * regular-expression tests see `null` as the text "null", so once the
   * indentation has consumed a last line of blanks the letter test passes
   * and `identifier` makes an IDENTIFIER with the empty name.
   */
  function LexAt(input: string, st: LexState): (r: Result<(Token, LexState), LexError>)
    requires Ready(input, st)
    ensures r.Ok? ==> Ready(input, r.value.1) && r.value.1.pos >= st.pos && r.value.1.stack == st.stack
    ensures r.Ok? && st.pos < |input| ==> r.value.1.pos > st.pos
    ensures r.Ok? ==> r.value.0.kind != Eof && !WidthToken(r.value.0)
  {
    var reader := Route(CharAt(input, st.pos), CharAt(input, st.pos + 1));
    if reader == ToNewLine then Ok(NewLine(input, st))
    else if reader == ToString then LexString(input, st)
    else LexNumberOrWord(input, st, reader)
  }

  /** The number reader, or the word and symbol tests. */
  function LexNumberOrWord(input: string, st: LexState, reader: Reader): (r: Result<(Token, LexState), LexError>)
    requires Ready(input, st) && reader == Route(CharAt(input, st.pos), CharAt(input, st.pos + 1))
    requires reader == ToNumber || reader == ToWordOrSymbol
    ensures r.Ok? ==> Ready(input, r.value.1) && r.value.1.pos >= st.pos && r.value.1.stack == st.stack
    ensures r.Ok? && st.pos < |input| ==> r.value.1.pos > st.pos
    ensures r.Ok? ==> r.value.0.kind != Eof && !WidthToken(r.value.0)
  {
    if reader == ToNumber then Ok(LexNumber(input, st)) else LexWordOrSymbol(input, st)
  }

  /** `LexAt` by the reader its two characters lead to. */
  lemma LexAtRoutes(input: string, st: LexState)
    requires Ready(input, st)
    ensures var reader := Route(CharAt(input, st.pos), CharAt(input, st.pos + 1));
            && (reader == ToNewLine ==> st.pos < |input| && input[st.pos] == '\n' && LexAt(input, st) == Ok(NewLine(input, st)))
            && (reader == ToString ==> LexAt(input, st) == LexString(input, st))
            && (reader == ToNumber ==> st.pos < |input| && LexAt(input, st) == Ok(LexNumber(input, st)))
            && (reader == ToWordOrSymbol ==> LexAt(input, st) == LexWordOrSymbol(input, st))
  {
    var c := CharAt(input, st.pos);
    var reader := Route(c, CharAt(input, st.pos + 1));
    var r := LexAt(input, st);
    if reader == ToNewLine {
      assert c == Some('\n');
    } else if reader == ToNumber {
      assert c.Some?;
      assert r == LexNumberOrWord(input, st, reader);
    } else if reader == ToWordOrSymbol {
      assert r == LexNumberOrWord(input, st, reader);
    }
  }

  /** Which reader the current and the following character lead `getNextToken` to. */
  datatype Reader = ToNewLine | ToString | ToNumber | ToWordOrSymbol

  function Route(c: Option<char>, next: Option<char>): (r: Reader)
    ensures r == ToWordOrSymbol ==> !TestDigit(c)
  {
    if c == Some('\n') then ToNewLine
    else if c == Some('"') then ToString
    else if TestDigit(c) || (c == Some('-') && TestDigit(next)) then ToNumber
    else ToWordOrSymbol
  }

  /** The last tests of `getNextToken`: a word, an operator, a punctuation mark, or an error. */
  function LexWordOrSymbol(input: string, st: LexState): (r: Result<(Token, LexState), LexError>)
    requires Ready(input, st)
    requires !TestDigit(CharAt(input, st.pos))
    ensures r.Ok? ==> Ready(input, r.value.1) && r.value.1.pos >= st.pos && r.value.1.stack == st.stack
    ensures r.Ok? && st.pos < |input| ==> r.value.1.pos > st.pos
    ensures r.Ok? ==> r.value.0.kind != Eof && !WidthToken(r.value.0)
  {
    var c := CharAt(input, st.pos);
    if TestLetter(c) then Ok(LexWord(input, st))
    else if c.value in "><=!" then Ok(LexOperator(input, st))
    else if SpecialKind(c.value).Some? then
      Ok((Token(SpecialKind(c.value).value, VStr([c.value]), st.line, st.column), Advanced(input, st)))
    else Err(UnexpectedCharacter(c.value))
  }

  /** `tokenize`: tokens up to and including the first EOF, and no EOF before it. */
  function TokensFrom(input: string, st: LexState): (r: Result<seq<Token>, LexError>)
    requires Ready(input, st)
    ensures r.Ok? ==> |r.value| > 0 && r.value[|r.value| - 1].kind == Eof && NoEofBeforeLast(r.value)
    decreases LexMeasure(input, st)
  {
    var next :- NextToken(input, st);
    if next.0.kind == Eof then Ok([next.0])
    else
      var rest :- TokensFrom(input, next.1);
      NoEofCons(next.0, rest);
      Ok([next.0] + rest)
  }

  /** The whole input, from the constructor's state. */
  function Lex(input: string): Result<seq<Token>, LexError>
  {
    TokensFrom(input, Start)
  }

  /** No EOF among `ts` except possibly the last token. */
  predicate NoEofBeforeLast(ts: seq<Token>)
  {
    forall k :: 0 <= k < |ts| - 1 ==> ts[k].kind != Eof
  }

  lemma NoEofCons(t: Token, ts: seq<Token>)
    requires t.kind != Eof && |ts| > 0 && ts[|ts| - 1].kind == Eof && NoEofBeforeLast(ts)
    ensures ([t] + ts)[|ts|].kind == Eof && NoEofBeforeLast([t] + ts)
  {
    forall k | 0 <= k < |ts| ensures ([t] + ts)[k].kind != Eof {
      if k > 0 {
        assert ([t] + ts)[k] == ts[k - 1];
      }
    }
  }

  // ---- properties ----------------------------------------------------------

  /** `n` DEDENT tokens with no width. */
  function Dedents(n: nat, line: int, column: int): (r: seq<Token>)
    ensures |r| == n && forall k :: 0 <= k < n ==> r[k] == Token(Dedent, VNull, line, column)
  {
    seq(n, _ => Token(Dedent, VNull, line, column))
  }

  /** At the end of input: one DEDENT per level above the base, then a single EOF. */
  lemma {:induction false} FlushAtEnd(input: string, st: LexState)
    requires Ready(input, st) && st.pos == |input|
    ensures TokensFrom(input, st) ==
            Ok(Dedents(|st.stack| - 1, st.line, st.column) + [Token(Eof, VNull, st.line, st.column)])
    decreases |st.stack|
  {
    if |st.stack| > 1 {
      var dedent := Token(Dedent, VNull, st.line, st.column);
      var st1 := st.(stack := st.stack[..|st.stack| - 1]);
      assert NextToken(input, st) == Ok((dedent, st1));
      FlushAtEnd(input, st1);
      assert [dedent] + (Dedents(|st1.stack| - 1, st.line, st.column) + [Token(Eof, VNull, st.line, st.column)])
          == Dedents(|st.stack| - 1, st.line, st.column) + [Token(Eof, VNull, st.line, st.column)];
    } else {
      assert st.stack == [0];
      var eof := Token(Eof, VNull, st.line, st.column);
      assert NextToken(input, st) == Ok((eof, st));
      assert Dedents(0, st.line, st.column) + [eof] == [eof];
    }
  }

  /**
   * A run of several line feeds moves the column past 1 before the next
   * line starts, so that line's indentation is never examined: the next
   * token cannot be an INDENT or a DEDENT with a width.
   */
  lemma BlankLinesHideIndentation(input: string, st: LexState)
    requires Ready(input, st) && st.pos + 2 < |input| && input[st.pos] == '\n' && input[st.pos + 1] == '\n'
    ensures var (_, after) := NewLine(input, st);
            Ready(input, after) && after.column > 1 &&
            (NextToken(input, after).Ok? ==> !WidthToken(NextToken(input, after).value.0))
  {
    var st1 := Advanced(input, st).(line := st.line + 1, column := 1);
    var after := NewlineRun(input, st1);
    assert after.pos >= st.pos + 2;
  }

  /** A `-` not followed by a digit is the MINUS operator; followed by a digit it starts a negative NUMBER. */
  lemma MinusStartsNumberOnlyBeforeDigit(input: string, st: LexState)
    requires Ready(input, st) && st.pos < |input| && input[st.pos] == '-'
    ensures var r := Dispatch(input, st);
            r.Ok? && (r.value.0.kind == Number <==> st.pos + 1 < |input| && IsDigit(input[st.pos + 1]))
    ensures !(st.pos + 1 < |input| && IsDigit(input[st.pos + 1])) ==>
              Dispatch(input, st) == Ok((Token(Minus, VStr("-"), st.line, st.column), Advanced(input, st)))
  {
    assert Dispatch(input, st) == LexAt(input, st);
    if st.pos + 1 < |input| && IsDigit(input[st.pos + 1]) {
      MinusBeforeDigit(input, st);
    } else {
      MinusAlone(input, st);
    }
  }

  lemma MinusBeforeDigit(input: string, st: LexState)
    requires Ready(input, st) && st.pos + 1 < |input| && input[st.pos] == '-' && IsDigit(input[st.pos + 1])
    ensures LexAt(input, st) == Ok(LexNumber(input, st))
  {
    assert Route(CharAt(input, st.pos), CharAt(input, st.pos + 1)) == ToNumber;
    LexAtRoutes(input, st);
  }

  lemma MinusAlone(input: string, st: LexState)
    requires Ready(input, st) && st.pos < |input| && input[st.pos] == '-'
    requires !(st.pos + 1 < |input| && IsDigit(input[st.pos + 1]))
    ensures LexAt(input, st) == Ok((Token(Minus, VStr("-"), st.line, st.column), Advanced(input, st)))
  {
    assert Route(CharAt(input, st.pos), CharAt(input, st.pos + 1)) == ToWordOrSymbol;
    LexAtRoutes(input, st);
    MinusIsPunctuation(input, st);
  }

  lemma MinusIsPunctuation(input: string, st: LexState)
    requires Ready(input, st) && st.pos < |input| && input[st.pos] == '-'
    ensures LexWordOrSymbol(input, st) == Ok((Token(Minus, VStr("-"), st.line, st.column), Advanced(input, st)))
  {
    assert !TestLetter(Some('-')) && SpecialKind('-') == Some(Minus);
  }

  /**
   * Only one DEDENT for a drop of several levels to a width above zero: the
   * first DEDENT leaves the column past 1, so the rest of the line is read as
   * tokens, the next token carries no width, and the deeper levels stay on
   * the stack.
   */
  lemma OneDedentPerLine(input: string, st: LexState)
    requires Ready(input, st) && st.column == 1 && |st.stack| >= 2
    requires var (w, after) := IndentRun(input, st, 0);
             st.pos < after.pos < |input| && !BlankAfterIndent(input, after.pos) &&
             w < Top(st.stack[..|st.stack| - 1])
    ensures var (w, after) := IndentRun(input, st, 0);
            var popped := st.stack[..|st.stack| - 1];
            NextToken(input, st) == Ok((Token(Dedent, VNum(w as real), st.line, 1), after.(stack := popped))) &&
            after.column > 1 && Top(popped) > w &&
            (NextToken(input, after.(stack := popped)).Ok? ==>
               !WidthToken(NextToken(input, after.(stack := popped)).value.0))
  {
    var (w, after) := IndentRun(input, st, 0);
    assert Top(st.stack) > Top(st.stack[..|st.stack| - 1]);
  }

  /**
   * A last line of nothing but blanks, as wide as the current level, ends in
   * an IDENTIFIER with the empty name: the letter test passes on `null`.
   */
  lemma TrailingBlankLineGivesEmptyName(input: string, st: LexState)
    requires Ready(input, st) && st.column == 1 && st.pos < |input|
    requires forall k :: st.pos <= k < |input| ==> IsSpaceOrTab(input[k])
    requires Width(input[st.pos..]) == Top(st.stack)
    ensures var after := IndentRun(input, st, 0).1;
            after.pos == |input| &&
            NextToken(input, st) == Ok((Token(Identifier, VStr(""), st.line, after.column), after))
  {
    var (w, after) := IndentRun(input, st, 0);
    BlankRunReachesEnd(input, st, 0);
    assert input[st.pos..after.pos] == input[st.pos..];
    assert Indentation(input, st) == Ok((None, after));
    EmptyWordAtEnd(input, after);
  }

  /** Over a rest of input made only of blanks, the counting loop runs to the end. */
  lemma {:induction false} BlankRunReachesEnd(input: string, st: LexState, spaces: nat)
    requires st.pos <= |input|
    requires forall k :: st.pos <= k < |input| ==> IsSpaceOrTab(input[k])
    ensures IndentRun(input, st, spaces).1.pos == |input|
    decreases |input| - st.pos
  {
    if st.pos < |input| {
      BlankRunReachesEnd(input, Advanced(input, st), spaces + (if input[st.pos] == ' ' then 1 else 4));
    }
  }

  /** At the end of input the loop body reaches `identifier`, which reads the empty name. */
  lemma EmptyWordAtEnd(input: string, st: LexState)
    requires Ready(input, st) && st.pos == |input|
    ensures Dispatch(input, st) == Ok((Token(Identifier, VStr(""), st.line, st.column), st))
  {
    DispatchAtEnd(input, st);
    EmptyNameIsIdentifier();
  }

  /** With `current_char` null, only the letter test passes. */
  lemma DispatchAtEnd(input: string, st: LexState)
    requires Ready(input, st) && st.pos == |input|
    ensures Dispatch(input, st) == Ok((Token(WordKind(""), VStr(""), st.line, st.column), st))
  {
    assert Scan(input, st, IsWordChar) == ("", st);
  }

  /** The empty name is neither a keyword nor an inherited key. */
  lemma EmptyNameIsIdentifier()
    ensures WordKind("") == Identifier
  {
    assert Keyword("") == None;
  }
  // ---- the lexer object ----------------------------------------------------------

  /** The tokens of `ts` ahead of a result that is still to come. */
  function Prepend(ts: seq<Token>, r: Result<seq<Token>, LexError>): Result<seq<Token>, LexError>
  {
    if r.Ok? then Ok(ts + r.value) else r
  }

  /** Nothing collected yet. */
  lemma PrependNothing(r: Result<seq<Token>, LexError>)
    ensures Prepend([], r) == r
  {
    if r.Ok? {
      assert [] + r.value == r.value;
    }
  }

  /** One more token read: it joins the tokens already collected. */
  lemma PrependStep(input: string, ts: seq<Token>, st: LexState, t: Token, st1: LexState)
    requires Ready(input, st) && NextToken(input, st) == Ok((t, st1)) && t.kind != Eof
    ensures Prepend(ts, TokensFrom(input, st)) == Prepend(ts + [t], TokensFrom(input, st1))
  {
    if TokensFrom(input, st1).Ok? {
      assert ts + ([t] + TokensFrom(input, st1).value) == ts + [t] + TokensFrom(input, st1).value;
    }
  }

  /** The loop of `getNextToken` after the indentation check: where `Dispatch` goes next. */
  lemma DispatchSteps(input: string, st: LexState)
    requires Ready(input, st)
    ensures TestSpaceOrTab(CharAt(input, st.pos)) ==> Dispatch(input, st) == NextToken(input, SkipSpaces(input, st))
    ensures !TestSpaceOrTab(CharAt(input, st.pos)) && CommentAt(input, st.pos) ==>
              Dispatch(input, st) == NextToken(input, PastComment(input, st))
    ensures !TestSpaceOrTab(CharAt(input, st.pos)) && !CommentAt(input, st.pos) ==> Dispatch(input, st) == LexAt(input, st)
  {
  }

  /** Before the end of input, `getNextToken` checks indentation at column 1 and then runs the rest of its loop body. */
  lemma NextTokenSteps(input: string, st: LexState)
    requires Ready(input, st) && st.pos < |input|
    ensures st.column != 1 ==> NextToken(input, st) == Dispatch(input, st)
    ensures st.column == 1 && Indentation(input, st).Err? ==> NextToken(input, st) == Err(Indentation(input, st).error)
    ensures st.column == 1 && Indentation(input, st).Ok? ==>
              var (t, st1) := Indentation(input, st).value;
              NextToken(input, st) == if t.Some? then Ok((t.value, st1)) else Dispatch(input, st1)
  {
  }

  /** `LogicalLexer`: the cursor and the indentation stack change in place as characters are read. */
  class Lexer {
    const input: string
    var pos: nat
    var line: int
    var column: int
    /** `current_char`: the character at `pos`, or null past the end. */
    var currentChar: Option<char>
    var indentStack: seq<nat>

    function State(): LexState
      reads this
    {
      LexState(pos, line, column, indentStack)
    }

    ghost predicate Valid()
      reads this
    {
      Ready(input, State()) && currentChar == CharAt(input, pos)
    }

    constructor (input: string)
      ensures Valid() && this.input == input && State() == Start
    {
      this.input := input;
      pos := 0;
      line := 1;
      column := 1;
      currentChar := if |input| > 0 then Some(input[0]) else None;
      indentStack := [0];
    }

    /** `advance`; every caller stands on a character. */
    method Advance()
      requires Valid() && pos < |input|
      modifies this
      ensures Valid() && State() == Advanced(input, old(State()))
    {
      pos := pos + 1;
      if pos >= |input| {
        currentChar := None;
      } else {
        currentChar := Some(input[pos]);
        column := column + 1;
      }
    }

    /** `peek`: the character after the cursor, or null. */
    method Peek() returns (c: Option<char>)
      ensures c == CharAt(input, pos + 1)
    {
      c := if pos + 1 >= |input| then None else Some(input[pos + 1]);
    }

    /** The loop the reading methods share: take characters while they pass `accept`. */
    method ScanWhile(accept: char -> bool) returns (text: string)
      requires Valid()
      modifies this
      ensures Valid() && (text, State()) == Scan(input, old(State()), accept)
    {
      text := "";
      while currentChar.Some? && accept(currentChar.value)
        invariant Valid() && old(pos) <= pos && line == old(line) && indentStack == old(indentStack)
        invariant text == input[old(pos)..pos]
        invariant Scan(input, State(), accept).1 == Scan(input, old(State()), accept).1
        decreases |input| - pos
      {
        text := text + [currentChar.value];
        Advance();
      }
    }

    /** `skipWhitespace`. */
    method SkipWhitespace()
      requires Valid()
      modifies this
      ensures Valid() && State() == SkipSpaces(input, old(State()))
    {
      var _ := ScanWhile(IsSpaceOrTab);
    }

    /** `skipComment`. */
    method SkipComment()
      requires Valid()
      modifies this
      ensures Valid() && State() == PastComment(input, old(State()))
    {
      var _ := ScanWhile(c => c != '\n');
    }

    /** `handleNewLine`, on a line feed. */
    method HandleNewLine() returns (t: Token)
      requires Valid() && currentChar == Some('\n')
      modifies this
      ensures Valid() && (t, State()) == NewLine(input, old(State()))
    {
      Advance();
      line := line + 1;
      column := 1;
      while currentChar == Some('\n')
        invariant Valid()
        invariant NewlineRun(input, State()) == NewlineRun(input, Advanced(input, old(State())).(line := old(line) + 1, column := 1))
        decreases |input| - pos
      {
        Advance();
        line := line + 1;
      }
      t := Token(Newline, VStr("\n"), line - 1, column);
    }

    /** `handleIndentation`; its inner `while` returns on its first round, so it is an `if` here. */
    method HandleIndentation() returns (r: Result<Option<Token>, LexError>)
      requires Valid()
      modifies this
      ensures Valid() && old(pos) <= pos && Outcome(r, State()) == Indentation(input, old(State()))
    {
      var startColumn := column;
      var spaces := CountIndent();
      ghost var st1 := State();
      ghost var spec := IndentDecision(input, startColumn, spaces, st1);
      assert Indentation(input, old(State())) == spec;
      var next := Peek();
      var blank := currentChar == Some('\n') || currentChar == Some('#') || (currentChar == Some('/') && next == Some('/'));
      assert blank == BlankAfterIndent(input, pos);
      if blank {
        assert spec == Ok((None, st1));
        return Ok(None);
      }
      var currentIndent := indentStack[|indentStack| - 1];
      if spaces > currentIndent {
        indentStack := indentStack + [spaces];
        assert spec == Ok((Some(Token(Indent, VNum(spaces as real), line, startColumn)), State()));
        return Ok(Some(Token(Indent, VNum(spaces as real), line, startColumn)));
      } else if spaces < currentIndent {
        indentStack := indentStack[..|indentStack| - 1];
        if spaces > indentStack[|indentStack| - 1] {
          assert spec == Err(InvalidDedent(line, column));
          return Err(InvalidDedent(line, column));
        }
        assert spec == Ok((Some(Token(Dedent, VNum(spaces as real), line, startColumn)), State()));
        return Ok(Some(Token(Dedent, VNum(spaces as real), line, startColumn)));
      }
      assert spec == Ok((None, st1));
      return Ok(None);
    }

    /** The counting loop of `handleIndentation`: a space is worth 1, a tab 4. */
    method CountIndent() returns (spaces: nat)
      requires Valid()
      modifies this
      ensures Valid() && (spaces, State()) == IndentRun(input, old(State()), 0)
    {
      spaces := 0;
      while currentChar == Some(' ') || currentChar == Some('\t')
        invariant Valid() && IndentRun(input, State(), spaces) == IndentRun(input, old(State()), 0)
        decreases |input| - pos
      {
        spaces := spaces + if currentChar == Some(' ') then 1 else 4;
        Advance();
      }
    }

    /** `identifier`. */
    method ReadIdentifier() returns (t: Token)
      requires Valid()
      modifies this
      ensures Valid() && (t, State()) == LexWord(input, old(State()))
    {
      var startColumn := column;
      var result := ScanWhile(IsWordChar);
      t := Token(WordKind(result), VStr(result), line, startColumn);
    }

    /** `number`, on a digit or on a `-` before a digit; `parseFloat` of the text read is its decimal value. */
    method ReadNumber() returns (t: Token)
      requires Valid() && pos < |input|
      requires IsDigit(input[pos]) || (input[pos] == '-' && pos + 1 < |input| && IsDigit(input[pos + 1]))
      modifies this
      ensures Valid() && (t, State()) == LexNumber(input, old(State()))
    {
      var startColumn := column;
      var negative := false;
      if currentChar == Some('-') {
        negative := true;
        Advance();
      }
      var whole := ScanWhile(IsDigit);
      var fraction := "";
      if currentChar == Some('.') {
        Advance();
        fraction := ScanWhile(IsDigit);
      }
      t := Token(Number, VNum(Signed(negative, DecimalValue(whole, fraction))), line, startColumn);
    }

    /** `string`, on the opening quote. */
    method ReadString() returns (r: Result<Token, LexError>)
      requires Valid() && currentChar == Some('"')
      modifies this
      ensures Valid() && Outcome(r, State()) == LexString(input, old(State()))
    {
      var startColumn := column;
      var result := "";
      Advance();
      while currentChar.Some? && currentChar.value != '"'
        invariant Valid() && line == old(line) && indentStack == old(indentStack)
        invariant StringBody(input, State(), result) == StringBody(input, Advanced(input, old(State())), "")
        decreases |input| - pos
      {
        if currentChar == Some('\\') {
          Advance();
          var c := Unescape(currentChar);
          if c.Err? {
            return Err(c.error);
          }
          result := result + [c.value];
        } else {
          result := result + [currentChar.value];
        }
        Advance();
      }
      if currentChar.None? {
        return Err(UnterminatedString);
      }
      Advance();
      return Ok(Token(String, VStr(result), line, startColumn));
    }

    /** The comparison characters of `getNextToken`, alone or followed by `=`. */
    method ReadOperator() returns (t: Token)
      requires Valid() && pos < |input| && input[pos] in "><=!"
      modifies this
      ensures Valid() && (t, State()) == LexOperator(input, old(State()))
    {
      var startColumn := column;
      var c := input[pos];
      Advance();
      if currentChar == Some('=') {
        Advance();
        return Token(PairedOperatorKind(c), VStr([c, '=']), line, startColumn);
      }
      return Token(SingleOperatorKind(c), VStr([c]), line, startColumn);
    }

    /** The last tests of `getNextToken`: a word, an operator, a punctuation mark, or an error. */
    method ReadWordOrSymbol() returns (r: Result<Token, LexError>)
      requires Valid() && !TestDigit(currentChar)
      modifies this
      ensures Valid() && Outcome(r, State()) == LexWordOrSymbol(input, old(State()))
    {
      if TestLetter(currentChar) {
        var t := ReadIdentifier();
        return Ok(t);
      }
      var c := currentChar.value;
      if c in "><=!" {
        var t := ReadOperator();
        return Ok(t);
      }
      var kind := SpecialKind(c);
      if kind.Some? {
        var t := Token(kind.value, VStr([c]), line, column);
        Advance();
        return Ok(t);
      }
      return Err(UnexpectedCharacter(c));
    }

    /** The token-making tests of `getNextToken`, in order. */
    method ReadToken() returns (r: Result<Token, LexError>)
      requires Valid()
      modifies this
      ensures Valid() && Outcome(r, State()) == LexAt(input, old(State()))
    {
      var next := Peek();
      ghost var st := State();
      ghost var spec := LexAt(input, st);
      ghost var reader := Route(currentChar, next);
      if currentChar == Some('\n') {
        assert reader == ToNewLine && spec == Ok(NewLine(input, st));
        var t := HandleNewLine();
        return Ok(t);
      } else if currentChar == Some('"') {
        assert reader == ToString && spec == LexString(input, st);
        r := ReadString();
      } else {
        assert spec == LexNumberOrWord(input, st, reader);
        r := ReadNumberOrWord(next);
      }
    }

    /** The number test of `getNextToken`, then the word and symbol tests. */
    method ReadNumberOrWord(next: Option<char>) returns (r: Result<Token, LexError>)
      requires Valid() && next == CharAt(input, pos + 1)
      requires currentChar != Some('\n') && currentChar != Some('"')
      modifies this
      ensures Valid() && Outcome(r, State()) == LexNumberOrWord(input, old(State()), Route(old(currentChar), next))
    {
      ghost var st := State();
      if TestDigit(currentChar) || (currentChar == Some('-') && TestDigit(next)) {
        assert LexNumberOrWord(input, st, Route(currentChar, next)) == Ok(LexNumber(input, st));
        var t := ReadNumber();
        return Ok(t);
      } else {
        assert LexNumberOrWord(input, st, Route(currentChar, next)) == LexWordOrSymbol(input, st);
        r := ReadWordOrSymbol();
      }
    }

    /**
     * `getNextToken`: its loop body is split into the indentation check, the
     * skipping of blanks and comments, and the token-making tests.
     */
    method GetNextToken() returns (r: Result<Token, LexError>)
      requires Valid()
      modifies this
      ensures Valid() && Outcome(r, State()) == NextToken(input, old(State()))
    {
      while currentChar.Some?
        invariant Valid() && NextToken(input, State()) == NextToken(input, old(State()))
        decreases |input| - pos
      {
        var indent := CheckIndentation();
        if indent.Some? {
          return indent.value;
        }
        var skipped := SkipBlankOrComment();
        if skipped {
          continue;
        }
        r := ReadToken();
        return;
      }
      var t := EndOfInput();
      return Ok(t);
    }

    /** The first step of the loop body of `getNextToken`: at column 1, an INDENT or DEDENT ends the call. */
    method CheckIndentation() returns (r: Option<Result<Token, LexError>>)
      requires Valid() && pos < |input|
      modifies this
      ensures Valid() && old(pos) <= pos
      ensures r.Some? ==> Outcome(r.value, State()) == NextToken(input, old(State()))
      ensures r.None? ==> NextToken(input, old(State())) == Dispatch(input, State())
    {
      NextTokenSteps(input, State());
      if column == 1 {
        var indent := HandleIndentation();
        if indent.Err? {
          return Some(Err(indent.error));
        }
        if indent.value.Some? {
          return Some(Ok(indent.value.value));
        }
      }
      return None;
    }

    /** The skipping steps of the loop body of `getNextToken`: blanks, or a comment up to the line feed. */
    method SkipBlankOrComment() returns (skipped: bool)
      requires Valid()
      modifies this
      ensures Valid()
      ensures skipped ==> old(pos) < pos && Dispatch(input, old(State())) == NextToken(input, State())
      ensures !skipped ==> State() == old(State()) && Dispatch(input, State()) == LexAt(input, State())
    {
      ghost var start := State();
      DispatchSteps(input, start);
      if TestSpaceOrTab(currentChar) {
        SkipWhitespace();
        return true;
      }
      var next := Peek();
      var comment := currentChar == Some('#') || (currentChar == Some('/') && next == Some('/'));
      assert comment == CommentAt(input, start.pos);
      if comment {
        SkipComment();
        return true;
      }
      return false;
    }

    /** The end of `getNextToken`: one DEDENT per outstanding level, then EOF. */
    method EndOfInput() returns (t: Token)
      requires Valid() && currentChar.None?
      modifies this
      ensures Valid() && NextToken(input, old(State())) == Ok((t, State()))
    {
      if |indentStack| > 1 {
        indentStack := indentStack[..|indentStack| - 1];
        return Token(Dedent, VNull, line, column);
      }
      return Token(Eof, VNull, line, column);
    }

    /** `tokenize`: tokens until EOF, then the EOF. */
    method Tokenize() returns (r: Result<seq<Token>, LexError>)
      requires Valid()
      modifies this
      ensures r == TokensFrom(input, old(State()))
    {
      var tokens: seq<Token> := [];
      ghost var before := State();
      var token :- GetNextToken();
      PrependNothing(TokensFrom(input, before));
      while token.kind != Eof
        invariant Valid() && Ready(input, before)
        invariant NextToken(input, before) == Ok((token, State()))
        invariant TokensFrom(input, old(State())) == Prepend(tokens, TokensFrom(input, before))
        decreases LexMeasure(input, before)
      {
        PrependStep(input, tokens, before, token, State());
        tokens := tokens + [token];
        before := State();
        token :- GetNextToken();
      }
      return Ok(tokens + [token]);
    }
  }
}
