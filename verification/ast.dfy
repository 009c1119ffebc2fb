// Token kinds shared by the Aqui lexers and parsers, and the syntax tree
// that the indentation-based parsers build and the interpreters walk.

module Tokens {
  import opened Common

  /**
   * Every token `type` string the lexers produce or the parsers test for.
   * `Undefined` is the `undefined` type a lone `=` gets (the single-character
   * table has no entry for it); `Inherited` is the non-string type an
   * identifier such as `constructor` or `toString` gets, because the keyword
   * tables are plain objects and inherit those names from `Object.prototype`
   * (a function for most names; `Object.prototype` itself for `__proto__`).
   */
  datatype Kind =
    | ShapeType | Layer | Transform | Add | Subtract
    | If | Else | For | In | Range | To | Step
    | And | Or | Not | Boolean
    | Fillet | Property | FilletType | CornerType | ShaftType
    | Identifier | Number | String | Newline | Indent | Dedent | Eof
    | GreaterEquals | LessEquals | Equals | NotEquals | GreaterThan | LessThan
    | Colon | LBracket | RBracket | LBrace | RBrace | LParen | RParen | Comma | Dot
    | Plus | Minus | Multiply | Divide
    | Param | Constraint | Shape | Rotate | Translate | Scale
    | True | False | Less | Greater | Quote | Position
    | Undefined | Inherited

  /** A token's `value`: a number, a string or `null`. */
  datatype TokenValue = VNum(n: real) | VStr(s: string) | VNull

  datatype Token = Token(kind: Kind, value: TokenValue, line: int, column: int)

  /** The text of a string-valued token; other values read as "". */
  function TextOf(t: Token): string
  {
    if t.value.VStr? then t.value.s else ""
  }

  /** The number of a number-valued token; other values read as 0. */
  function NumOf(t: Token): real
  {
    if t.value.VNum? then t.value.n else 0.0
  }

  /** Number of tokens of kind k in ts. */
  function CountKind(ts: seq<Token>, k: Kind): nat
  {
    CountIf(ts, (t: Token) => t.kind == k)
  }
}

/**
 * The syntax tree of the indentation-based front ends
 * (lexer_parser_unified.mjs, logical_lexer_and_parser.mjs), which both
 * interpreters evaluate.
 */
module Ast {
  import opened Common

  datatype Expr =
    | NumberLit(num: real)
    | StringLit(text: string)
    | BooleanLit(flag: bool)
    | ArrayLit(elements: seq<Expr>)
    | Ident(name: string)
    | PropertyAccess(obj: string, property: string)
    | LogicalOp(operator: string, left: Expr, right: Expr)
    | ComparisonOp(operator: string, left: Expr, right: Expr)
    | BinaryOp(operator: string, left: Expr, right: Expr)
    | UnaryOp(operator: string, operand: Expr)
      /** The bare string `parseProperty` stores for `shaft_type: circular`: not an expression node. */
    | RawString(text: string)

  /** `for i in range(a, b)` keeps both bounds; `for i in e` keeps just `e`. */
  datatype LoopRange = RangeCall(start: Expr, end: Expr) | RangeOf(expr: Expr)

  /** A layer command: `{type: 'add', shape}`, `{type: 'subtract', shape}`, or `{type: property, value}`. */
  datatype Command = AddShape(shape: string) | SubtractShape(shape: string) | Setting(kind: string, value: Expr)

  /** An `if`'s `elseBody`: `null`, or the statements of its `else:` block. */
  datatype ElseBranch = NoElse | Else(stmts: seq<Stmt>)

  datatype Stmt =
    | ShapeDecl(shapeType: string, name: string, params: seq<(string, Expr)>)
    | FilletDecl(params: seq<(string, Expr)>)
    | IfStmt(condition: Expr, body: seq<Stmt>, elseBody: ElseBranch)
    | ForLoop(iter: string, range: LoopRange, body: seq<Stmt>)
    | LayerDecl(name: string, commands: seq<Command>)
    | TransformDecl(target: string, operations: seq<(string, Expr)>)

  /** The keys of a parameter list, in order. */
  function Keys(params: seq<(string, Expr)>): seq<string>
  {
    if params == [] then [] else Keys(params[..|params| - 1]) + [params[|params| - 1].0]
  }

  /**
   * `params[property] = value` on a plain object: an existing key keeps its
   * place and takes the new value; a new key goes last.
   */
  function SetParam(params: seq<(string, Expr)>, key: string, value: Expr): (r: seq<(string, Expr)>)
    ensures (key, value) in r
    ensures forall k :: 0 <= k < |r| && r[k].0 == key ==> r[k].1 == value
    ensures forall k :: 0 <= k < |params| && params[k].0 != key ==> params[k] in r
    ensures forall p :: p in r ==> p == (key, value) || (p in params && p.0 != key)
  {
    if params == [] then [(key, value)]
    else if params[0].0 == key then [(key, value)] + Filter(params[1..], key)
    else [params[0]] + SetParam(params[1..], key, value)
  }

  /** The pairs of params whose key is not `key`. */
  function Filter(params: seq<(string, Expr)>, key: string): (r: seq<(string, Expr)>)
    ensures forall p :: p in r <==> p in params && p.0 != key
  {
    if params == [] then []
    else if params[0].0 == key then Filter(params[1..], key)
    else [params[0]] + Filter(params[1..], key)
  }

  /** No key occurs twice: the pairs read as the entries of a JS object. */
  predicate DistinctKeys(params: seq<(string, Expr)>)
  {
    forall a, b :: 0 <= a < b < |params| ==> params[a].0 != params[b].0
  }

  /** Every pair after the first has another key than the first. */
  lemma TailKeysDiffer(params: seq<(string, Expr)>)
    requires params != [] && DistinctKeys(params)
    ensures forall p :: p in params[1..] ==> p.0 != params[0].0
  {
    forall p | p in params[1..]
      ensures p.0 != params[0].0
    {
      var b :| 0 <= b < |params[1..]| && params[1..][b] == p;
      assert params[b + 1] == p;
    }
  }

  /** A pair put in front of pairs with other keys keeps the keys distinct. */
  lemma ConsKeysDistinct(p: (string, Expr), t: seq<(string, Expr)>)
    requires DistinctKeys(t) && forall q :: q in t ==> q.0 != p.0
    ensures DistinctKeys([p] + t)
  {
    var r := [p] + t;
    forall a, b | 0 <= a < b < |r|
      ensures r[a].0 != r[b].0
    {
      assert r[b] == t[b - 1] && r[b] in t;
      if a > 0 {
        assert r[a] == t[a - 1];
      }
    }
  }

  lemma {:induction false} FilterKeepsKeysDistinct(params: seq<(string, Expr)>, key: string)
    requires DistinctKeys(params)
    ensures DistinctKeys(Filter(params, key))
    decreases |params|
  {
    if params != [] {
      assert DistinctKeys(params[1..]);
      FilterKeepsKeysDistinct(params[1..], key);
      if params[0].0 != key {
        TailKeysDiffer(params);
        var f := Filter(params[1..], key);
        assert Filter(params, key) == [params[0]] + f;
        ConsKeysDistinct(params[0], f);
      }
    }
  }

  /** `params[key] = value` keeps the keys distinct: the key is stored once, in place or last. */
  lemma {:induction false} SetParamKeepsKeysDistinct(params: seq<(string, Expr)>, key: string, value: Expr)
    requires DistinctKeys(params)
    ensures DistinctKeys(SetParam(params, key, value))
    decreases |params|
  {
    if params != [] {
      assert DistinctKeys(params[1..]);
      if params[0].0 == key {
        FilterKeepsKeysDistinct(params[1..], key);
        var f := Filter(params[1..], key);
        assert SetParam(params, key, value) == [(key, value)] + f;
        ConsKeysDistinct((key, value), f);
      } else {
        SetParamKeepsKeysDistinct(params[1..], key, value);
        TailKeysDiffer(params);
        var t := SetParam(params[1..], key, value);
        assert SetParam(params, key, value) == [params[0]] + t;
        ConsKeysDistinct(params[0], t);
      }
    }
  }
}
