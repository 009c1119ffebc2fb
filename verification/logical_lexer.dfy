// The lexer of logical_lexer_and_parser.mjs (`LogicalLexer`): the same
// cursor as the unified lexer (`advance`, `peek`, `indentStack = [0]`), but
// one NEWLINE per line feed, a dedent that pops every level above the new
// width, indentation checked after every line break, no strings and no
// arithmetic operators.

module LogicalLexer {
  import opened Common
  import opened Tokens
  import ShapeRules
  import U = UnifiedLexer

  /** The two messages the lexer raises with `this.error`. */
  datatype LexError =
    | InvalidDedentation
    | UnexpectedCharacter(c: char)

  // ---- the balance of INDENT and DEDENT ---------------------------------------

  /** Levels opened minus levels closed by a run of tokens. */
  function Depth(ts: seq<Token>): int
  {
    CountKind(ts, Indent) - CountKind(ts, Dedent)
  }

  lemma DepthAppend(a: seq<Token>, b: seq<Token>)
    ensures Depth(a + b) == Depth(a) + Depth(b)
    ensures CountKind(a + b, Newline) == CountKind(a, Newline) + CountKind(b, Newline)
  {
    CountIfAppend(a, b, (t: Token) => t.kind == Indent);
    CountIfAppend(a, b, (t: Token) => t.kind == Dedent);
    CountIfAppend(a, b, (t: Token) => t.kind == Newline);
  }

  /** A single token counts once, for its own kind. */
  lemma OneToken(t: Token, k: Kind)
    ensures CountKind([t], k) == if t.kind == k then 1 else 0
  {
    var p := (u: Token) => u.kind == k;
    assert [t][..0] == [];
    assert CountIf([t], p) == CountIf([t][..0], p) + (if p(t) then 1 else 0);
  }

  /** `n` DEDENT tokens close `n` levels and hold no line break. */
  lemma {:induction false} DepthOfDedents(n: nat, line: int, column: int)
    ensures Depth(U.Dedents(n, line, column)) == -(n as int)
    ensures CountKind(U.Dedents(n, line, column), Newline) == 0
    decreases n
  {
    var ds := U.Dedents(n, line, column);
    if n > 0 {
      assert ds[..n - 1] == U.Dedents(n - 1, line, column);
      DepthOfDedents(n - 1, line, column);
    }
  }

  // ---- the keyword table ------------------------------------------------------

  /** The `keywords` table of the constructor. */
  function Keyword(word: string): Option<Kind>
  {
    match word
    case "rectangle" => Some(ShapeType)
    case "circle" => Some(ShapeType)
    case "triangle" => Some(ShapeType)
    case "ellipse" => Some(ShapeType)
    case "text" => Some(ShapeType)
    case "path" => Some(ShapeType)
    case "gear" => Some(ShapeType)
    case "star" => Some(ShapeType)
    case "cross" => Some(ShapeType)
    case "slot" => Some(ShapeType)
    case "arc" => Some(ShapeType)
    case "spiral" => Some(ShapeType)
    case "wave" => Some(ShapeType)
    case "donut" => Some(ShapeType)
    case "layer" => Some(Layer)
    case "transform" => Some(Transform)
    case "add" => Some(Add)
    case "subtract" => Some(Subtract)
    case "position" => Some(Property)
    case "rotation" => Some(Property)
    case "scale" => Some(Property)
    case "scaleX" => Some(Property)
    case "scaleY" => Some(Property)
    case "width" => Some(Property)
    case "height" => Some(Property)
    case "radius" => Some(Property)
    case "base" => Some(Property)
    case "content" => Some(Property)
    case "fontSize" => Some(Property)
    case "fontFamily" => Some(Property)
    case "points" => Some(Property)
    case "startAngle" => Some(Property)
    case "endAngle" => Some(Property)
    case "thickness" => Some(Property)
    case "diameter" => Some(Property)
    case "teeth" => Some(Property)
    case "outerRadius" => Some(Property)
    case "innerRadius" => Some(Property)
    case "radiusX" => Some(Property)
    case "radiusY" => Some(Property)
    case "startRadius" => Some(Property)
    case "endRadius" => Some(Property)
    case "turns" => Some(Property)
    case "amplitude" => Some(Property)
    case "frequency" => Some(Property)
    case "length" => Some(Property)
    case "and" => Some(And)
    case "or" => Some(Or)
    case "not" => Some(Not)
    case "true" => Some(Boolean)
    case "false" => Some(Boolean)
    case "if" => Some(If)
    case "else" => Some(Else)
    case _ => None
  }

  /**
   * `this.keywords[result] || 'IDENTIFIER'`: the table's entry; a non-string
   * type for names the table inherits from `Object.prototype`; IDENTIFIER
   * otherwise.
   */
  function WordKind(word: string): (k: Kind)
    ensures k == Identifier <==> Keyword(word).None? && word !in ShapeRules.PrototypeKeys
    ensures Keyword(word).Some? ==> k == Keyword(word).value
    ensures Plain(k)
  {
    match Keyword(word)
    case Some(k) => k
    case None => if word in ShapeRules.PrototypeKeys then Inherited else Identifier
  }

  /** No entry of the table is IDENTIFIER, so a table word is never read as a name. */
  lemma KeywordsAreNeverIdentifiers(word: string)
    requires Keyword(word).Some?
    ensures WordKind(word) != Identifier && WordKind(word) != Inherited
  {
  }

  /** `identifier`: the longest run of word characters, typed by the table; on `null` it reads the empty name. */
  function Word(input: string, st: U.LexState): (r: (Token, U.LexState))
    requires st.pos <= |input|
    ensures r.1.line == st.line && r.1.stack == st.stack && U.ColumnFollows(input, st, r.1)
    ensures var word := input[st.pos..r.1.pos];
            r.0 == Token(WordKind(word), VStr(word), st.line, st.column) &&
            (forall k :: 0 <= k < |word| ==> IsWordChar(word[k])) &&
            (r.1.pos == |input| || !IsWordChar(input[r.1.pos]))
    ensures st.pos < |input| && IsLetter(input[st.pos]) ==> st.pos < r.1.pos
  {
    var (word, st1) := U.Scan(input, st, IsWordChar);
    (Token(WordKind(word), VStr(word), st.line, st.column), st1)
  }

  // ---- indentation --------------------------------------------------------------

  /**
   * The dedent loop of `handleIndentation`: pop while the width is below the
   * top; a width left strictly above the new top is an error.
   */
  function PopLevels(spaces: nat, stack: seq<nat>): (r: Result<seq<nat>, LexError>)
    requires U.StackOk(stack)
    ensures r.Ok? ==> U.StackOk(r.value) && r.value <= stack && U.Top(r.value) <= spaces
    ensures r.Ok? ==> forall k :: |r.value| <= k < |stack| ==> stack[k] > spaces
    ensures r.Ok? && spaces < U.Top(stack) ==> U.Top(r.value) == spaces
    ensures r.Err? ==> r.error == InvalidDedentation
    decreases |stack|
  {
    if spaces < U.Top(stack) then
      var popped := stack[..|stack| - 1];
      if spaces > U.Top(popped) then Err(InvalidDedentation)
      else PopLevels(spaces, popped)
    else Ok(stack)
  }

  /** One more level popped: one more DEDENT. */
  lemma DedentsGrow(n: nat, line: int, column: int)
    ensures U.Dedents(n, line, column) + [Token(Dedent, VNull, line, column)] == U.Dedents(n + 1, line, column)
  {
    assert U.Dedents(n + 1, line, column)[..n] == U.Dedents(n, line, column);
  }

  /** A dedent succeeds exactly when the new width is one of the recorded levels. */
  lemma {:induction false} DedentLandsOnLevel(spaces: nat, stack: seq<nat>)
    requires U.StackOk(stack) && spaces < U.Top(stack)
    ensures PopLevels(spaces, stack).Ok? <==> spaces in stack
    decreases |stack|
  {
    var popped := stack[..|stack| - 1];
    if spaces > U.Top(popped) {
      forall k | 0 <= k < |stack|
        ensures stack[k] != spaces
      {
        if k < |stack| - 1 {
          LevelsBelowTop(popped, k);
        }
      }
    } else if spaces < U.Top(popped) {
      DedentLandsOnLevel(spaces, popped);
      assert spaces in stack <==> spaces in popped by {
        assert stack == popped + [U.Top(stack)];
      }
    } else {
      assert stack[|popped| - 1] == spaces;
    }
  }

  /** Every level of a stack is at most its top. */
  lemma {:induction false} LevelsBelowTop(stack: seq<nat>, k: nat)
    requires U.StackOk(stack) && k < |stack|
    ensures stack[k] <= U.Top(stack)
    decreases |stack| - k
  {
    if k < |stack| - 1 {
      LevelsBelowTop(stack, k + 1);
    }
  }

  /**
   * `handleIndentation`: measure the leading blanks; a blank or comment line
   * gives nothing; a deeper line pushes its width and gives one INDENT; a
   * shallower line pops every deeper level, one DEDENT each, and fails when
   * the width falls strictly between two levels.
   */
  function Indentation(input: string, st: U.LexState): (r: Result<(seq<Token>, U.LexState), LexError>)
    requires U.Ready(input, st)
    ensures r.Ok? ==> U.Ready(input, r.value.1) && st.pos <= r.value.1.pos && r.value.1.line == st.line
    ensures r.Ok? ==> forall k :: 0 <= k < |r.value.0| ==> r.value.0[k].kind == Indent || r.value.0[k].kind == Dedent
    ensures r.Ok? ==> forall k :: st.pos <= k < r.value.1.pos ==> IsSpaceOrTab(input[k])
  {
    var (spaces, st1) := U.IndentRun(input, st, 0);
    if U.BlankAfterIndent(input, st1.pos) then Ok(([], st1))
    else
      var top := U.Top(st1.stack);
      if spaces > top then
        Ok(([Token(Indent, VNum(spaces as real), st1.line, st.column)], st1.(stack := st1.stack + [spaces])))
      else if spaces < top then
        var kept :- PopLevels(spaces, st1.stack);
        Ok((U.Dedents(|st1.stack| - |kept|, st1.line, st.column), st1.(stack := kept)))
      else Ok(([], st1))
  }

  // ---- line breaks ----------------------------------------------------------------

  /** The loop of `handleNewLine` over further line feeds: each opens a line and gives a NEWLINE on it. */
  function MoreNewlines(input: string, st: U.LexState): (r: (seq<Token>, U.LexState))
    requires st.pos <= |input| && st.column >= 1
    ensures st.pos <= r.1.pos <= |input| && r.1.stack == st.stack && r.1.column >= 1
    decreases |input| - st.pos
  {
    if CharAt(input, st.pos) == Some('\n') then
      var st1 := U.Advanced(input, st);
      var st2 := st1.(line := st1.line + 1);
      var rest := MoreNewlines(input, st2);
      ([Token(Newline, VStr("\n"), st2.line, st2.column)] + rest.0, rest.1)
    else ([], st)
  }

  /**
   * That loop reads line feeds only, up to the first character that is not
   * one, and gives one NEWLINE per line feed, moving the line counter as often.
   */
  lemma {:induction false} NewlineRun(input: string, st: U.LexState)
    requires st.pos <= |input| && st.column >= 1
    ensures var r := MoreNewlines(input, st);
            r.1.line == st.line + (r.1.pos - st.pos) &&
            |r.0| == r.1.pos - st.pos && (forall k :: 0 <= k < |r.0| ==> r.0[k].kind == Newline) &&
            (forall k :: st.pos <= k < r.1.pos ==> input[k] == '\n') &&
            CharAt(input, r.1.pos) != Some('\n')
    decreases |input| - st.pos
  {
    if CharAt(input, st.pos) == Some('\n') {
      var st2 := U.Advanced(input, st).(line := st.line + 1);
      NewlineRun(input, st2);
      var rest := MoreNewlines(input, st2);
      var t := Token(Newline, VStr("\n"), st2.line, st2.column);
      assert MoreNewlines(input, st) == ([t] + rest.0, rest.1);
      forall k | 0 <= k < |[t] + rest.0| ensures ([t] + rest.0)[k].kind == Newline {
        if k > 0 {
          assert ([t] + rest.0)[k] == rest.0[k - 1];
        }
      }
    }
  }

  /** One line feed of that loop: a NEWLINE on the line it opens, then the rest of the run. */
  lemma NewlineStep(input: string, st: U.LexState)
    requires st.pos < |input| && st.column >= 1 && input[st.pos] == '\n'
    ensures var st2 := U.Advanced(input, st).(line := st.line + 1);
            var rest := MoreNewlines(input, st2);
            MoreNewlines(input, st) == ([Token(Newline, VStr("\n"), st2.line, st2.column)] + rest.0, rest.1)
  {
  }

  /** The same step, with the NEWLINE tokens already read in front. */
  lemma NewlineStepJoin(input: string, st: U.LexState, more: seq<Token>)
    requires st.pos < |input| && st.column >= 1 && input[st.pos] == '\n'
    ensures var st2 := U.Advanced(input, st).(line := st.line + 1);
            var t := Token(Newline, VStr("\n"), st2.line, st2.column);
            more + MoreNewlines(input, st).0 == (more + [t]) + MoreNewlines(input, st2).0 &&
            MoreNewlines(input, st).1 == MoreNewlines(input, st2).1
  {
    NewlineStep(input, st);
    var st2 := U.Advanced(input, st).(line := st.line + 1);
    var t := Token(Newline, VStr("\n"), st2.line, st2.column);
    assert more + ([t] + MoreNewlines(input, st2).0) == (more + [t]) + MoreNewlines(input, st2).0;
  }

  /** A run of tokens that are all NEWLINE. */
  lemma {:induction false} AllNewlines(ts: seq<Token>)
    requires forall k :: 0 <= k < |ts| ==> ts[k].kind == Newline
    ensures CountKind(ts, Newline) == |ts| && Depth(ts) == 0
    decreases |ts|
  {
    if ts != [] {
      AllNewlines(ts[..|ts| - 1]);
    }
  }

  /**
   * `handleNewLine`: a NEWLINE where the line feed stands, one more on each
   * line a further line feed opens, and then the indentation of the line
   * reached.
   */
  function NewLines(input: string, st: U.LexState): (r: Result<(seq<Token>, U.LexState), LexError>)
    requires U.Ready(input, st) && st.pos < |input| && input[st.pos] == '\n'
    ensures r.Ok? ==> U.Ready(input, r.value.1) && st.pos < r.value.1.pos
    ensures r.Ok? ==> NoEof(r.value.0)
  {
    var first := Token(Newline, VStr("\n"), st.line, st.column);
    var st1 := U.Advanced(input, st).(line := st.line + 1, column := 1);
    var (more, st2) := MoreNewlines(input, st1);
    var indent :- Indentation(input, st2);
    NewlineRun(input, st1);
    NewLinesNoEof(first, more, indent.0);
    Ok(([first] + more + indent.0, indent.1))
  }

  /** NEWLINE tokens, then indentation tokens: no EOF among them. */
  lemma NewLinesNoEof(first: Token, more: seq<Token>, indent: seq<Token>)
    requires first.kind == Newline && forall k :: 0 <= k < |more| ==> more[k].kind == Newline
    requires forall k :: 0 <= k < |indent| ==> indent[k].kind == Indent || indent[k].kind == Dedent
    ensures NoEof([first] + more + indent)
  {
    var ts := [first] + more + indent;
    forall k | 0 <= k < |ts| ensures ts[k].kind != Eof {
      if k == 0 {
      } else if k <= |more| {
        assert ts[k] == more[k - 1];
      } else {
        assert ts[k] == indent[k - 1 - |more|];
      }
    }
  }

  /** The line feeds of a piece of input. */
  function LineFeeds(s: string): nat
  {
    CountIf(s, (c: char) => c == '\n')
  }

  /** A piece of input with no line feed. */
  lemma {:induction false} NoLineFeeds(s: string)
    requires forall k :: 0 <= k < |s| ==> s[k] != '\n'
    ensures LineFeeds(s) == 0
    decreases |s|
  {
    if s != [] {
      NoLineFeeds(s[..|s| - 1]);
    }
  }

  /** A piece of input made of line feeds only. */
  lemma {:induction false} OnlyLineFeeds(s: string)
    requires forall k :: 0 <= k < |s| ==> s[k] == '\n'
    ensures LineFeeds(s) == |s|
    decreases |s|
  {
    if s != [] {
      OnlyLineFeeds(s[..|s| - 1]);
    }
  }

  /** The line feeds of `input[a..c]` are those of `input[a..b]` and of `input[b..c]`. */
  lemma LineFeedsSplit(input: string, a: nat, b: nat, c: nat)
    requires a <= b <= c <= |input|
    ensures LineFeeds(input[a..c]) == LineFeeds(input[a..b]) + LineFeeds(input[b..c])
  {
    assert input[a..c] == input[a..b] + input[b..c];
    CountIfAppend(input[a..b], input[b..c], (ch: char) => ch == '\n');
  }

  /** Line feeds from `a` to `b`, then blanks up to `c`: `b - a` line feeds in all. */
  lemma FeedsThenBlanks(input: string, a: nat, b: nat, c: nat)
    requires a <= b <= c <= |input|
    requires forall k :: a <= k < b ==> input[k] == '\n'
    requires forall k :: b <= k < c ==> IsSpaceOrTab(input[k])
    ensures LineFeeds(input[a..c]) == b - a
  {
    LineFeedsSplit(input, a, b, c);
    OnlyLineFeeds(input[a..b]);
    NoLineFeeds(input[b..c]);
  }

  /** The tokens `handleIndentation` returns change the depth by as much as the stack changes, and hold no NEWLINE. */
  lemma IndentationBalance(input: string, st: U.LexState)
    requires U.Ready(input, st)
    ensures var r := Indentation(input, st);
            r.Ok? ==> Depth(r.value.0) == |r.value.1.stack| - |st.stack| && CountKind(r.value.0, Newline) == 0
  {
    var (spaces, st1) := U.IndentRun(input, st, 0);
    if !U.BlankAfterIndent(input, st1.pos) {
      var top := U.Top(st1.stack);
      if spaces > top {
        var t := Token(Indent, VNum(spaces as real), st1.line, st.column);
        assert Indentation(input, st) == Ok(([t], st1.(stack := st1.stack + [spaces])));
        OneToken(t, Indent);
        OneToken(t, Dedent);
        OneToken(t, Newline);
      } else if spaces < top {
        var popped := PopLevels(spaces, st1.stack);
        if popped.Ok? {
          var n := |st1.stack| - |popped.value|;
          assert Indentation(input, st) == Ok((U.Dedents(n, st1.line, st.column), st1.(stack := popped.value)));
          DepthOfDedents(n, st1.line, st.column);
        }
      } else {
        assert Indentation(input, st) == Ok(([], st1));
      }
    } else {
      assert Indentation(input, st) == Ok(([], st1));
    }
  }

  /**
   * `handleNewLine` gives one NEWLINE per line feed it consumes and moves
   * the line counter once per NEWLINE; its indentation tokens change the
   * depth by as much as the stack changes.
   */
  lemma NewLinesCount(input: string, st: U.LexState)
    requires U.Ready(input, st) && st.pos < |input| && input[st.pos] == '\n'
    ensures var r := NewLines(input, st);
            r.Ok? ==>
              CountKind(r.value.0, Newline) == LineFeeds(input[st.pos..r.value.1.pos]) &&
              r.value.1.line == st.line + CountKind(r.value.0, Newline) &&
              Depth(r.value.0) == |r.value.1.stack| - |st.stack|
  {
    var r := NewLines(input, st);
    if r.Ok? {
      var first := Token(Newline, VStr("\n"), st.line, st.column);
      var st1 := U.Advanced(input, st).(line := st.line + 1, column := 1);
      var run := MoreNewlines(input, st1);
      NewlineRun(input, st1);
      var indent := Indentation(input, run.1).value;
      assert r.value == ([first] + run.0 + indent.0, indent.1);
      IndentationBalance(input, run.1);
      NewlineRunCount(first, run.0, indent.0);
      FirstFeedThenBlanks(input, st.pos, run.1.pos, indent.1.pos);
    }
  }

  /** The NEWLINE tokens of `handleNewLine`, then indentation tokens that hold no NEWLINE. */
  lemma NewlineRunCount(first: Token, more: seq<Token>, indent: seq<Token>)
    requires first.kind == Newline && forall k :: 0 <= k < |more| ==> more[k].kind == Newline
    requires CountKind(indent, Newline) == 0
    ensures CountKind([first] + more + indent, Newline) == 1 + |more|
    ensures Depth([first] + more + indent) == Depth(indent)
  {
    AllNewlines([first] + more);
    DepthAppend([first] + more, indent);
  }

  /** A line feed at `a`, further line feeds up to `b`, then blanks up to `c`: `b - a` line feeds in all. */
  lemma FirstFeedThenBlanks(input: string, a: nat, b: nat, c: nat)
    requires a < b <= c <= |input| && input[a] == '\n'
    requires forall k :: a + 1 <= k < b ==> input[k] == '\n'
    requires forall k :: b <= k < c ==> IsSpaceOrTab(input[k])
    ensures LineFeeds(input[a..c]) == b - a
  {
    FeedsThenBlanks(input, a, b, c);
  }

  // ---- tokenize ---------------------------------------------------------------------

  /** The `specialChars` table of the logical lexer: no braces and no arithmetic signs. */
  function SpecialKind(c: char): (r: Option<Kind>)
    ensures r.Some? <==> c in ":.,[]()"
    ensures r.Some? ==> Plain(r.value)
  {
    match c
    case ':' => Some(Colon)
    case '.' => Some(Dot)
    case ',' => Some(Comma)
    case '[' => Some(LBracket)
    case ']' => Some(RBracket)
    case '(' => Some(LParen)
    case ')' => Some(RParen)
    case _ => None
  }

  /** Whether `tokenize` makes a number at `pos`: a digit, or a `-` before a digit. */
  predicate NumberAt(input: string, pos: nat)
  {
    TestDigit(CharAt(input, pos)) || (CharAt(input, pos) == Some('-') && TestDigit(CharAt(input, pos + 1)))
  }

  /** Which test of the `tokenize` loop the character at `pos` passes first. */
  datatype Reading = Blanks | LineBreak | Comment | Name | Numeral | Comparison | Punctuation | Stray

  /**
   * The tests of the `tokenize` loop after the indentation check, in the
   * source's order. The regular-expression tests see `null` as the text
   * "null", so when the indentation has consumed the last characters the
   * letter test passes and `identifier` reads the empty name.
   */
  function Classify(input: string, pos: nat): (b: Reading)
    ensures b == Stray ==> CharAt(input, pos).Some?
    ensures b == Name && pos < |input| ==> IsLetter(input[pos])
    ensures b == Numeral ==> pos < |input| && (IsDigit(input[pos]) || (input[pos] == '-' && pos + 1 < |input| && IsDigit(input[pos + 1])))
    ensures b == Comparison ==> pos < |input| && input[pos] in "><=!"
    ensures b == Punctuation ==> pos < |input| && SpecialKind(input[pos]).Some?
  {
    var c := CharAt(input, pos);
    if TestSpaceOrTab(c) then Blanks
    else if c == Some('\n') then LineBreak
    else if U.CommentAt(input, pos) then Comment
    else if TestLetter(c) then Name
    else if NumberAt(input, pos) then Numeral
    else if c.value in "><=!" then Comparison
    else if SpecialKind(c.value).Some? then Punctuation
    else Stray
  }

  /** The rest of the loop body: what the first passing test reads. */
  function Rest(input: string, st: U.LexState): (r: Result<(seq<Token>, U.LexState), LexError>)
    requires U.Ready(input, st)
    ensures r.Ok? ==> U.Ready(input, r.value.1) && st.pos <= r.value.1.pos
    ensures r.Ok? && st.pos < |input| ==> st.pos < r.value.1.pos
    ensures r.Ok? ==> NoEof(r.value.0)
  {
    var b := Classify(input, st.pos);
    if b == Blanks then Ok(([], U.SkipSpaces(input, st)))
    else if b == LineBreak then NewLines(input, st)
    else if b == Comment then Ok(([], U.PastComment(input, st)))
    else if b == Stray then Err(UnexpectedCharacter(input[st.pos]))
    else
      var (t, st1) := ReadOne(input, st, b);
      Ok(([t], st1))
  }

  /** Not a token of layout: neither INDENT, DEDENT, NEWLINE nor EOF. */
  predicate Plain(k: Kind)
  {
    k != Indent && k != Dedent && k != Newline && k != Eof
  }

  /**
   * The tests that make exactly one token on the line: a name or keyword, a
   * number, a comparison operator or a punctuation mark. None reads a line
   * feed, and none touches the indentation stack.
   */
  function ReadOne(input: string, st: U.LexState, b: Reading): (r: (Token, U.LexState))
    requires U.Ready(input, st) && b == Classify(input, st.pos)
    requires b == Name || b == Numeral || b == Comparison || b == Punctuation
    ensures U.Ready(input, r.1) && r.1.stack == st.stack && r.1.line == st.line
    ensures st.pos <= r.1.pos && (st.pos < |input| ==> st.pos < r.1.pos)
    ensures Plain(r.0.kind)
  {
    if b == Name then Word(input, st)
    else if b == Numeral then U.LexNumber(input, st)
    else if b == Comparison then U.LexOperator(input, st)
    else
      var c := input[st.pos];
      (Token(SpecialKind(c).value, VStr([c]), st.line, st.column), U.Advanced(input, st))
  }

  /** None of those tests reads a line feed. */
  lemma ReadOneNoFeeds(input: string, st: U.LexState, b: Reading)
    requires U.Ready(input, st) && b == Classify(input, st.pos)
    requires b == Name || b == Numeral || b == Comparison || b == Punctuation
    ensures LineFeeds(input[st.pos..ReadOne(input, st, b).1.pos]) == 0
  {
    var end := ReadOne(input, st, b).1.pos;
    if b == Name {
      assert end == Word(input, st).1.pos;
      WordNoFeeds(input, st);
    } else if b == Numeral {
      assert end == U.LexNumber(input, st).1.pos;
      NumberNoFeeds(input, st);
    } else if b == Comparison {
      assert end == U.LexOperator(input, st).1.pos;
      OperatorNoFeeds(input, st);
    } else {
      assert end == st.pos + 1;
      NoFeedsBetween(input, st.pos, st.pos + 1);
    }
  }

  /** One round of the `tokenize` loop: at column 1 the indentation first, then the tests. */
  function LoopRound(input: string, st: U.LexState): (r: Result<(seq<Token>, U.LexState), LexError>)
    requires U.Ready(input, st) && st.pos < |input|
    ensures r.Ok? ==> U.Ready(input, r.value.1) && st.pos < r.value.1.pos
    ensures r.Ok? ==> NoEof(r.value.0)
  {
    var indent :- if st.column == 1 then Indentation(input, st) else Ok(([], st));
    var rest :- Rest(input, indent.1);
    LayoutThenTokens(indent.0, rest.0);
    Ok((indent.0 + rest.0, rest.1))
  }

  /** INDENT and DEDENT tokens, then tokens with no EOF: no EOF in all. */
  lemma LayoutThenTokens(layout: seq<Token>, ts: seq<Token>)
    requires forall k :: 0 <= k < |layout| ==> layout[k].kind == Indent || layout[k].kind == Dedent
    requires NoEof(ts)
    ensures NoEof(layout + ts)
  {
    forall k | 0 <= k < |layout + ts| ensures (layout + ts)[k].kind != Eof {
      if k >= |layout| {
        assert (layout + ts)[k] == ts[k - |layout|];
      }
    }
  }

  /** `tokenize` from a state: the rounds of the loop, then a DEDENT per open level and EOF. */
  function Run(input: string, st: U.LexState): (r: Result<seq<Token>, LexError>)
    requires U.Ready(input, st)
    ensures r.Ok? ==> Ended(r.value)
    decreases |input| - st.pos
  {
    if st.pos == |input| then Ok(Flush(|st.stack| - 1, st.line, st.column))
    else
      var round :- LoopRound(input, st);
      var rest :- Run(input, round.1);
      NoEofJoin(round.0, rest);
      Ok(round.0 + rest)
  }

  /** No EOF among the tokens. */
  predicate NoEof(ts: seq<Token>)
  {
    forall k :: 0 <= k < |ts| ==> ts[k].kind != Eof
  }

  /** A finished token list: EOF last and nowhere before. */
  predicate Ended(ts: seq<Token>)
  {
    |ts| > 0 && ts[|ts| - 1].kind == Eof && U.NoEofBeforeLast(ts)
  }

  /** The end of `tokenize`: a DEDENT for each of `n` open levels, then EOF. */
  function Flush(n: nat, line: int, column: int): (r: seq<Token>)
    ensures |r| == n + 1 && Ended(r)
  {
    U.Dedents(n, line, column) + [Token(Eof, VNull, line, column)]
  }

  /** Tokens with no EOF, before a run that ends at its only EOF. */
  lemma NoEofJoin(ts: seq<Token>, rest: seq<Token>)
    requires NoEof(ts) && Ended(rest)
    ensures Ended(ts + rest)
  {
    forall k | 0 <= k < |ts + rest| - 1 ensures (ts + rest)[k].kind != Eof {
      if k >= |ts| {
        assert (ts + rest)[k] == rest[k - |ts|];
      }
    }
  }

  /** `new LogicalLexer(input).tokenize()`. */
  function Lex(input: string): Result<seq<Token>, LexError>
  {
    Run(input, U.Start)
  }

  // ---- properties of tokenize -----------------------------------------------------

  /** A stretch of input with no line feed holds no line feed. */
  lemma NoFeedsBetween(input: string, a: nat, b: nat)
    requires a <= b <= |input| && forall k :: a <= k < b ==> input[k] != '\n'
    ensures LineFeeds(input[a..b]) == 0
  {
    NoLineFeeds(input[a..b]);
  }

  /** A numeral is made of digits, a sign and a point. */
  lemma NumeralHasNoFeed(s: string)
    requires U.Numeral(s)
    ensures forall k :: 0 <= k < |s| ==> s[k] != '\n'
  {
    if |s| > 0 && s[0] == '-' {
      forall k | 1 <= k < |s| ensures s[k] != '\n' {
        assert s[1..][k - 1] == s[k];
      }
    }
  }

  /** What a number reads has no line feed. */
  lemma NumberNoFeeds(input: string, st: U.LexState)
    requires st.pos < |input|
    requires IsDigit(input[st.pos]) || (input[st.pos] == '-' && st.pos + 1 < |input| && IsDigit(input[st.pos + 1]))
    ensures LineFeeds(input[st.pos..U.LexNumber(input, st).1.pos]) == 0
  {
    var end := U.LexNumber(input, st).1.pos;
    U.LexNumberReadsNumeral(input, st);
    NumeralHasNoFeed(input[st.pos..end]);
    forall k | st.pos <= k < end ensures input[k] != '\n' {
      assert input[st.pos..end][k - st.pos] == input[k];
    }
    NoFeedsBetween(input, st.pos, end);
  }

  /** What an operator reads has no line feed. */
  lemma OperatorNoFeeds(input: string, st: U.LexState)
    requires st.pos < |input| && input[st.pos] in "><=!"
    ensures LineFeeds(input[st.pos..U.LexOperator(input, st).1.pos]) == 0
  {
    var end := U.LexOperator(input, st).1.pos;
    var st1 := U.Advanced(input, st);
    assert end == st1.pos || (end == st1.pos + 1 && input[st1.pos] == '=');
    NoFeedsBetween(input, st.pos, end);
  }

  /** What a word reads has no line feed. */
  lemma WordNoFeeds(input: string, st: U.LexState)
    requires st.pos <= |input|
    ensures LineFeeds(input[st.pos..Word(input, st).1.pos]) == 0
  {
    var word := input[st.pos..Word(input, st).1.pos];
    forall k | 0 <= k < |word| ensures word[k] != '\n' {
      assert IsWordChar(word[k]);
    }
    NoLineFeeds(word);
  }

  /** A single token that is neither INDENT, DEDENT nor NEWLINE. */
  lemma PlainToken(t: Token)
    requires Plain(t.kind)
    ensures Depth([t]) == 0 && CountKind([t], Newline) == 0
  {
    OneToken(t, Indent);
    OneToken(t, Dedent);
    OneToken(t, Newline);
  }

  /**
   * The accounting of one set of tests: NEWLINE tokens match the line feeds
   * consumed, and INDENT minus DEDENT matches the change of the stack.
   */
  lemma RestAccounts(input: string, st: U.LexState)
    requires U.Ready(input, st)
    ensures var r := Rest(input, st);
            r.Ok? ==>
              CountKind(r.value.0, Newline) == LineFeeds(input[st.pos..r.value.1.pos]) &&
              Depth(r.value.0) == |r.value.1.stack| - |st.stack|
  {
    var b := Classify(input, st.pos);
    if b == Blanks {
      NoFeedsBetween(input, st.pos, U.SkipSpaces(input, st).pos);
    } else if b == LineBreak {
      NewLinesCount(input, st);
    } else if b == Comment {
      NoFeedsBetween(input, st.pos, U.PastComment(input, st).pos);
    } else if b != Stray {
      PlainToken(ReadOne(input, st, b).0);
      ReadOneNoFeeds(input, st, b);
    }
  }

  /** Tokens that account for the input up to `st1`, followed by the tests from `st1`. */
  lemma RestThen(input: string, st: U.LexState, ts: seq<Token>, st1: U.LexState)
    requires U.Ready(input, st1) && st.pos <= st1.pos
    requires CountKind(ts, Newline) == LineFeeds(input[st.pos..st1.pos])
    requires Depth(ts) == |st1.stack| - |st.stack|
    ensures var rest := Rest(input, st1);
            rest.Ok? ==>
              CountKind(ts + rest.value.0, Newline) == LineFeeds(input[st.pos..rest.value.1.pos]) &&
              Depth(ts + rest.value.0) == |rest.value.1.stack| - |st.stack|
  {
    var rest := Rest(input, st1);
    if rest.Ok? {
      RestAccounts(input, st1);
      DepthAppend(ts, rest.value.0);
      LineFeedsSplit(input, st.pos, st1.pos, rest.value.1.pos);
    }
  }

  /** The accounting of one round of the loop. */
  lemma RoundAccounts(input: string, st: U.LexState)
    requires U.Ready(input, st) && st.pos < |input|
    ensures var r := LoopRound(input, st);
            r.Ok? ==>
              CountKind(r.value.0, Newline) == LineFeeds(input[st.pos..r.value.1.pos]) &&
              Depth(r.value.0) == |r.value.1.stack| - |st.stack|
  {
    if st.column == 1 {
      var indent := Indentation(input, st);
      if indent.Ok? {
        IndentationBalance(input, st);
        FeedsThenBlanks(input, st.pos, st.pos, indent.value.1.pos);
        RestThen(input, st, indent.value.0, indent.value.1);
      }
    } else {
      NoLineFeeds(input[st.pos..st.pos]);
      RestThen(input, st, [], st);
      var rest := Rest(input, st);
      if rest.Ok? {
        assert [] + rest.value.0 == rest.value.0;
      }
    }
  }

  /** What is left of `tokenize` from a state. */
  lemma {:induction false} RunAccounts(input: string, st: U.LexState)
    requires U.Ready(input, st)
    ensures var r := Run(input, st);
            r.Ok? ==> CountKind(r.value, Newline) == LineFeeds(input[st.pos..]) && Depth(r.value) == 1 - |st.stack|
    decreases |input| - st.pos
  {
    if st.pos == |input| {
      FlushAccounts(|st.stack| - 1, st.line, st.column);
      NoLineFeeds(input[st.pos..]);
    } else {
      var step := LoopRound(input, st);
      if step.Ok? {
        var (ts, st1) := step.value;
        var rest := Run(input, st1);
        if rest.Ok? {
          assert Run(input, st) == Ok(ts + rest.value);
          RoundAccounts(input, st);
          RunAccounts(input, st1);
          JoinAccounts(input, st.pos, st1.pos, ts, rest.value);
        }
      }
    }
  }

  /** The closing tokens close `n` levels and hold no NEWLINE. */
  lemma FlushAccounts(n: nat, line: int, column: int)
    ensures Depth(Flush(n, line, column)) == -(n as int) && CountKind(Flush(n, line, column), Newline) == 0
  {
    var eof := Token(Eof, VNull, line, column);
    DepthOfDedents(n, line, column);
    OneToken(eof, Indent);
    OneToken(eof, Dedent);
    OneToken(eof, Newline);
    DepthAppend(U.Dedents(n, line, column), [eof]);
  }

  /** The accounts of a round and of what follows it add up. */
  lemma JoinAccounts(input: string, a: nat, b: nat, ts: seq<Token>, rest: seq<Token>)
    requires a <= b <= |input|
    requires CountKind(ts, Newline) == LineFeeds(input[a..b]) && CountKind(rest, Newline) == LineFeeds(input[b..])
    ensures CountKind(ts + rest, Newline) == LineFeeds(input[a..])
    ensures Depth(ts + rest) == Depth(ts) + Depth(rest)
  {
    DepthAppend(ts, rest);
    LineFeedsSplit(input, a, b, |input|);
    assert input[a..|input|] == input[a..];
    assert input[b..|input|] == input[b..];
  }

  /**
   * Every level `tokenize` opens it closes: as many DEDENT as INDENT tokens.
   * And one NEWLINE per line feed of the input.
   */
  lemma IndentsBalance(input: string)
    ensures var r := Lex(input);
            r.Ok? ==> CountKind(r.value, Indent) == CountKind(r.value, Dedent) && CountKind(r.value, Newline) == LineFeeds(input)
  {
    RunAccounts(input, U.Start);
    assert input[0..] == input;
  }

  /**
   * What the logical lexer does not read: strings, braces and the arithmetic
   * signs are unexpected characters, and so is a `-` with no digit after it
   * and a `/` that does not start a comment.
   */
  lemma NoArithmeticOrStrings(input: string, st: U.LexState, c: char)
    requires U.Ready(input, st) && CharAt(input, st.pos) == Some(c)
    requires c in "\"{}+*" || (c == '-' && !TestDigit(CharAt(input, st.pos + 1))) || (c == '/' && CharAt(input, st.pos + 1) != Some('/'))
    ensures Rest(input, st) == Err(UnexpectedCharacter(c))
  {
    assert Classify(input, st.pos) == Stray;
  }

  /** `handleIndentation` fails exactly on a shallower line whose width is not one of the open levels. */
  lemma IndentationRejects(input: string, st: U.LexState)
    requires U.Ready(input, st)
    ensures var (spaces, st1) := U.IndentRun(input, st, 0);
            Indentation(input, st).Err? <==>
              !U.BlankAfterIndent(input, st1.pos) && spaces < U.Top(st.stack) && spaces !in st.stack
  {
    var (spaces, st1) := U.IndentRun(input, st, 0);
    if !U.BlankAfterIndent(input, st1.pos) && spaces < U.Top(st.stack) {
      DedentLandsOnLevel(spaces, st.stack);
    }
  }

  // ---- the lexer object -------------------------------------------------------------

  /** The tokens of `ts` ahead of a result that is still to come. */
  function Prepend(ts: seq<Token>, r: Result<seq<Token>, LexError>): Result<seq<Token>, LexError>
  {
    if r.Ok? then Ok(ts + r.value) else r
  }

  /** One round of the loop: its tokens join those already collected. */
  lemma RunRound(input: string, ts: seq<Token>, st: U.LexState)
    requires U.Ready(input, st) && st.pos < |input| && LoopRound(input, st).Ok?
    ensures var (round, st1) := LoopRound(input, st).value;
            Prepend(ts, Run(input, st)) == Prepend(ts + round, Run(input, st1))
  {
    var (round, st1) := LoopRound(input, st).value;
    if Run(input, st1).Ok? {
      assert ts + (round + Run(input, st1).value) == ts + round + Run(input, st1).value;
    }
  }

  /** The closing tokens, one DEDENT at a time. */
  lemma FlushStep(n: nat, line: int, column: int)
    requires n > 0
    ensures Flush(n, line, column) == [Token(Dedent, VNull, line, column)] + Flush(n - 1, line, column)
  {
    assert U.Dedents(n, line, column) == [Token(Dedent, VNull, line, column)] + U.Dedents(n - 1, line, column);
  }

  /**
   * `LogicalLexer`: the cursor and the indentation stack change in place as
   * characters are read. `advance` and `peek` come from the base lexer, which
   * the logical lexer shares with the unified one.
   */
  class Lexer {
    const input: string
    var pos: nat
    var line: int
    var column: int
    /** `current_char`: the character at `pos`, or null past the end. */
    var currentChar: Option<char>
    var indentStack: seq<nat>

    function State(): U.LexState
      reads this
    {
      U.LexState(pos, line, column, indentStack)
    }

    ghost predicate Valid()
      reads this
    {
      U.Ready(input, State()) && currentChar == CharAt(input, pos)
    }

    constructor (input: string)
      ensures Valid() && this.input == input && State() == U.Start
    {
      this.input := input;
      pos := 0;
      line := 1;
      column := 1;
      currentChar := if |input| > 0 then Some(input[0]) else None;
      indentStack := [0];
    }

    /** `advance`; every caller stands on a character. */
    method Advance()
      requires Valid() && pos < |input|
      modifies this
      ensures Valid() && State() == U.Advanced(input, old(State()))
    {
      pos := pos + 1;
      if pos >= |input| {
        currentChar := None;
      } else {
        currentChar := Some(input[pos]);
        column := column + 1;
      }
    }

    /** `peek`: the character after the cursor, or null. */
    method Peek() returns (c: Option<char>)
      ensures c == CharAt(input, pos + 1)
    {
      c := if pos + 1 >= |input| then None else Some(input[pos + 1]);
    }

    /** The loop the reading methods share: take characters while they pass `accept`. */
    method ScanWhile(accept: char -> bool) returns (text: string)
      requires Valid()
      modifies this
      ensures Valid() && (text, State()) == U.Scan(input, old(State()), accept)
    {
      text := "";
      while currentChar.Some? && accept(currentChar.value)
        invariant Valid() && old(pos) <= pos && line == old(line) && indentStack == old(indentStack)
        invariant text == input[old(pos)..pos]
        invariant U.Scan(input, State(), accept).1 == U.Scan(input, old(State()), accept).1
        decreases |input| - pos
      {
        text := text + [currentChar.value];
        Advance();
      }
    }

    /** `skipWhitespace`. */
    method SkipWhitespace()
      requires Valid()
      modifies this
      ensures Valid() && State() == U.SkipSpaces(input, old(State()))
    {
      var _ := ScanWhile(IsSpaceOrTab);
    }

    /** `skipComment`. */
    method SkipComment()
      requires Valid()
      modifies this
      ensures Valid() && State() == U.PastComment(input, old(State()))
    {
      var _ := ScanWhile(c => c != '\n');
    }

    /** `handleNewLine`, on a line feed. */
    method HandleNewLine() returns (r: Result<seq<Token>, LexError>)
      requires Valid() && currentChar == Some('\n')
      modifies this
      ensures Valid() && Outcome(r, State()) == NewLines(input, old(State()))
    {
      var tokens := [Token(Newline, VStr("\n"), line, column)];
      Advance();
      line := line + 1;
      column := 1;
      var more := FurtherLines();
      tokens := tokens + more;
      var indent := HandleIndentation();
      if indent.Err? {
        return Err(indent.error);
      }
      return Ok(tokens + indent.value);
    }

    /** The loop of `handleNewLine`: a NEWLINE for each further line feed, on the line it opens. */
    method FurtherLines() returns (more: seq<Token>)
      requires Valid()
      modifies this
      ensures Valid() && (more, State()) == MoreNewlines(input, old(State()))
    {
      more := [];
      while currentChar == Some('\n')
        invariant Valid() && old(pos) <= pos
        invariant more + MoreNewlines(input, State()).0 == MoreNewlines(input, old(State())).0
        invariant MoreNewlines(input, State()).1 == MoreNewlines(input, old(State())).1
        decreases |input| - pos
      {
        NewlineStepJoin(input, State(), more);
        Advance();
        line := line + 1;
        more := more + [Token(Newline, VStr("\n"), line, column)];
      }
      assert MoreNewlines(input, State()) == ([], State());
      assert more + [] == more;
    }

    /** `identifier`. */
    method Identifier() returns (t: Token)
      requires Valid()
      modifies this
      ensures Valid() && (t, State()) == Word(input, old(State()))
    {
      var startColumn := column;
      var result := ScanWhile(IsWordChar);
      t := Token(WordKind(result), VStr(result), line, startColumn);
    }

    /** `handleIndentation`: at most one INDENT, or a DEDENT per level popped. */
    method HandleIndentation() returns (r: Result<seq<Token>, LexError>)
      requires Valid()
      modifies this
      ensures Valid() && Outcome(r, State()) == Indentation(input, old(State()))
    {
      ghost var spec := Indentation(input, State());
      var startColumn := column;
      var spaces := CountIndent();
      var next := Peek();
      if currentChar == Some('\n') || currentChar == Some('#') || (currentChar == Some('/') && next == Some('/')) {
        assert U.BlankAfterIndent(input, pos);
        assert spec == Ok(([], State()));
        return Ok([]);
      }
      assert !U.BlankAfterIndent(input, pos);
      var currentIndent := indentStack[|indentStack| - 1];
      if spaces > currentIndent {
        var t := Token(Indent, VNum(spaces as real), line, startColumn);
        assert spec == Ok(([t], State().(stack := indentStack + [spaces])));
        indentStack := indentStack + [spaces];
        return Ok([t]);
      } else if spaces < currentIndent {
        ghost var st1 := State();
        ghost var popped := PopLevels(spaces, st1.stack);
        assert popped.Err? ==> spec == Err(popped.error);
        assert popped.Ok? ==> spec == Ok((U.Dedents(|st1.stack| - |popped.value|, st1.line, startColumn), st1.(stack := popped.value)));
        r := PopDeeper(spaces, startColumn);
      } else {
        assert spec == Ok(([], State()));
        return Ok([]);
      }
    }

    /** The counting loop of `handleIndentation`: a space is worth 1, a tab 4. */
    method CountIndent() returns (spaces: nat)
      requires Valid()
      modifies this
      ensures Valid() && (spaces, State()) == U.IndentRun(input, old(State()), 0)
    {
      spaces := 0;
      while currentChar == Some(' ') || currentChar == Some('\t')
        invariant Valid() && U.IndentRun(input, State(), spaces) == U.IndentRun(input, old(State()), 0)
        decreases |input| - pos
      {
        spaces := spaces + if currentChar == Some(' ') then 1 else 4;
        Advance();
      }
    }

    /** The dedent loop of `handleIndentation`: pop, emit a DEDENT, and fail if the width is left above the new top. */
    method PopDeeper(spaces: nat, startColumn: int) returns (r: Result<seq<Token>, LexError>)
      requires Valid() && spaces < U.Top(indentStack)
      modifies this
      ensures Valid() && pos == old(pos) && line == old(line) && column == old(column)
      ensures r.Err? ==> PopLevels(spaces, old(indentStack)).Err? && r.error == InvalidDedentation
      ensures r.Ok? ==> PopLevels(spaces, old(indentStack)) == Ok(indentStack) &&
                        r.value == U.Dedents(|old(indentStack)| - |indentStack|, line, startColumn)
    {
      var tokens := [];
      while spaces < indentStack[|indentStack| - 1]
        invariant Valid() && pos == old(pos) && line == old(line) && column == old(column)
        invariant |indentStack| <= |old(indentStack)|
        invariant PopLevels(spaces, indentStack) == PopLevels(spaces, old(indentStack))
        invariant tokens == U.Dedents(|old(indentStack)| - |indentStack|, line, startColumn)
        decreases |indentStack|
      {
        ghost var before := indentStack;
        DedentsGrow(|old(indentStack)| - |indentStack|, line, startColumn);
        indentStack := indentStack[..|indentStack| - 1];
        tokens := tokens + [Token(Dedent, VNull, line, startColumn)];
        if spaces > indentStack[|indentStack| - 1] {
          assert PopLevels(spaces, before) == Err(InvalidDedentation);
          return Err(InvalidDedentation);
        }
        assert PopLevels(spaces, before) == PopLevels(spaces, indentStack);
      }
      assert PopLevels(spaces, indentStack) == Ok(indentStack);
      return Ok(tokens);
    }

    /** `number`, on a digit or on a `-` before a digit; `parseFloat` of the text read is its decimal value. */
    method ReadNumber() returns (t: Token)
      requires Valid() && pos < |input|
      requires IsDigit(input[pos]) || (input[pos] == '-' && pos + 1 < |input| && IsDigit(input[pos + 1]))
      modifies this
      ensures Valid() && (t, State()) == U.LexNumber(input, old(State()))
    {
      var startColumn := column;
      var negative := false;
      if currentChar == Some('-') {
        negative := true;
        Advance();
      }
      var whole := ScanWhile(IsDigit);
      var fraction := "";
      if currentChar == Some('.') {
        Advance();
        fraction := ScanWhile(IsDigit);
      }
      t := Token(Number, VNum(U.Signed(negative, DecimalValue(whole, fraction))), line, startColumn);
    }

    /** The comparison operators of `tokenize`, alone or followed by `=`. */
    method ReadComparison() returns (t: Token)
      requires Valid() && pos < |input| && input[pos] in "><=!"
      modifies this
      ensures Valid() && (t, State()) == U.LexOperator(input, old(State()))
    {
      var startColumn := column;
      var c := input[pos];
      Advance();
      if currentChar == Some('=') {
        Advance();
        return Token(U.PairedOperatorKind(c), VStr([c, '=']), line, startColumn);
      }
      return Token(U.SingleOperatorKind(c), VStr([c]), line, startColumn);
    }

    /** The tests of the loop body after the indentation check, in order. */
    method Tests() returns (r: Result<seq<Token>, LexError>)
      requires Valid()
      modifies this
      ensures Valid() && Outcome(r, State()) == Rest(input, old(State()))
    {
      ghost var st0 := State();
      ghost var spec := Rest(input, st0);
      var next := Peek();
      var b := Classify(input, pos);
      if TestSpaceOrTab(currentChar) {
        assert spec == Ok(([], U.SkipSpaces(input, st0)));
        SkipWhitespace();
        return Ok([]);
      }
      if currentChar == Some('\n') {
        assert spec == NewLines(input, st0);
        r := HandleNewLine();
        return;
      }
      if currentChar == Some('#') || (currentChar == Some('/') && next == Some('/')) {
        assert spec == Ok(([], U.PastComment(input, st0)));
        SkipComment();
        return Ok([]);
      }
      assert b == Name || b == Numeral || b == Comparison || b == Punctuation || b == Stray;
      if b == Stray {
        assert spec == Err(UnexpectedCharacter(currentChar.value));
        return Err(UnexpectedCharacter(currentChar.value));
      }
      ghost var one := ReadOne(input, st0, b);
      assert spec == Ok(([one.0], one.1));
      var t := ReadOneToken(b);
      return Ok([t]);
    }

    /** The tests that make one token: a name, a number, a comparison operator, a punctuation mark. */
    method ReadOneToken(b: Reading) returns (t: Token)
      requires Valid() && b == Classify(input, pos)
      requires b == Name || b == Numeral || b == Comparison || b == Punctuation
      modifies this
      ensures Valid() && (t, State()) == ReadOne(input, old(State()), b)
    {
      ghost var st0 := State();
      ghost var spec := ReadOne(input, st0, b);
      if b == Name {
        assert spec == Word(input, st0);
        t := Identifier();
      } else if b == Numeral {
        assert spec == U.LexNumber(input, st0);
        t := ReadNumber();
      } else if b == Comparison {
        assert spec == U.LexOperator(input, st0);
        t := ReadComparison();
      } else {
        var c := currentChar.value;
        t := Token(SpecialKind(c).value, VStr([c]), line, column);
        assert spec == (t, U.Advanced(input, st0));
        Advance();
      }
    }

    /** One round of the `tokenize` loop: the indentation check at column 1, then the tests. */
    method Round() returns (r: Result<seq<Token>, LexError>)
      requires Valid() && pos < |input|
      modifies this
      ensures Valid() && Outcome(r, State()) == LoopRound(input, old(State()))
    {
      var tokens := [];
      if column == 1 {
        var indent := HandleIndentation();
        if indent.Err? {
          return Err(indent.error);
        }
        tokens := indent.value;
      }
      ghost var mid := State();
      assert LoopRound(input, old(State())) == (var rest :- Rest(input, mid); Ok((tokens + rest.0, rest.1)));
      var rest := Tests();
      if rest.Err? {
        return Err(rest.error);
      }
      return Ok(tokens + rest.value);
    }

    /** `tokenize`: the rounds of the loop, then a DEDENT per open level, then EOF. */
    method Tokenize() returns (r: Result<seq<Token>, LexError>)
      requires Valid()
      modifies this
      ensures r == Run(input, old(State()))
    {
      var tokens := Rounds();
      if tokens.Err? {
        return Err(tokens.error);
      }
      var closing := Close();
      return Ok(tokens.value + closing);
    }

    /** The main loop of `tokenize`, while a character remains. */
    method Rounds() returns (r: Result<seq<Token>, LexError>)
      requires Valid()
      modifies this
      ensures Valid()
      ensures r.Err? ==> Run(input, old(State())) == Err(r.error)
      ensures r.Ok? ==> pos == |input| && Run(input, old(State())) == Prepend(r.value, Run(input, State()))
    {
      var tokens: seq<Token> := [];
      assert Prepend([], Run(input, State())) == Run(input, State()) by {
        if Run(input, State()).Ok? {
          assert [] + Run(input, State()).value == Run(input, State()).value;
        }
      }
      while currentChar.Some?
        invariant Valid()
        invariant Run(input, old(State())) == Prepend(tokens, Run(input, State()))
        decreases |input| - pos
      {
        ghost var before := State();
        var round := Round();
        if round.Err? {
          return Err(round.error);
        }
        RunRound(input, tokens, before);
        tokens := tokens + round.value;
      }
      return Ok(tokens);
    }

    /** The end of `tokenize`: pop every level above the base with a DEDENT each, then EOF. */
    method Close() returns (closing: seq<Token>)
      requires Valid() && pos == |input|
      modifies this
      ensures Run(input, old(State())) == Ok(closing)
    {
      assert Run(input, State()) == Ok(Flush(|indentStack| - 1, line, column));
      closing := [];
      while |indentStack| > 1
        invariant Valid() && pos == |input| && line == old(line) && column == old(column)
        invariant closing + Flush(|indentStack| - 1, line, column) == Flush(|old(indentStack)| - 1, line, column)
        decreases |indentStack|
      {
        FlushStep(|indentStack| - 1, line, column);
        indentStack := indentStack[..|indentStack| - 1];
        closing := closing + [Token(Dedent, VNull, line, column)];
      }
      assert U.Dedents(0, line, column) == [];
      assert Flush(0, line, column) == [Token(Eof, VNull, line, column)];
      closing := closing + [Token(Eof, VNull, line, column)];
      assert closing == Flush(|old(indentStack)| - 1, old(line), old(column));
    }
  }
}
