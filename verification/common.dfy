// Shared helpers: optional and fallible results, character classes of the
// lexers' regular expressions, decimal numerals and ASCII lower-casing.

module Common {

  datatype Option<T> = None | Some(value: T)

  /** A JavaScript operation that either returns a value or throws `error`. */
  datatype Result<T, E> = Ok(value: T) | Err(error: E)
  {
    predicate IsFailure() { Err? }

    function PropagateFailure<U>(): Result<U, E>
      requires Err?
    {
      Err(error)
    }

    function Extract(): T
      requires Ok?
    {
      value
    }
  }

  /** A method's result paired with the state it leaves, in the form the specification functions return. */
  function Outcome<T, S, E>(r: Result<T, E>, s: S): Result<(T, S), E>
  {
    if r.Ok? then Ok((r.value, s)) else Err(r.error)
  }

  /** `input[i]`, or JavaScript's `null`/`undefined` once past the end. */
  function CharAt(input: string, i: int): Option<char>
  {
    if 0 <= i < |input| then Some(input[i]) else None
  }

  // ---- character classes -------------------------------------------------

  predicate IsDigit(c: char) { '0' <= c <= '9' }

  /** `/[a-zA-Z_]/` */
  predicate IsLetter(c: char) { 'a' <= c <= 'z' || 'A' <= c <= 'Z' || c == '_' }

  /** `/[a-zA-Z0-9_]/` */
  predicate IsWordChar(c: char) { IsLetter(c) || IsDigit(c) }

  /** `/[ \t]/` */
  predicate IsSpaceOrTab(c: char) { c == ' ' || c == '\t' }

  /** The white space and line terminators of ECMAScript (`/\s/`, `String.prototype.trim`). */
  predicate IsJsSpace(c: char)
  {
    c == '\t' || c == '\n' || c == '\U{000B}' || c == '\U{000C}' || c == '\r' || c == ' '
    || c == '\U{00A0}' || c == '\U{1680}' || ('\U{2000}' <= c <= '\U{200A}')
    || c == '\U{2028}' || c == '\U{2029}' || c == '\U{202F}' || c == '\U{205F}'
    || c == '\U{3000}' || c == '\U{FEFF}'
  }

  /**
   * `RegExp.prototype.test` converts its argument to a string, so testing the
   * lexers' `null` current character tests the characters of "null": a
   * letter test passes, a digit or blank test fails.
   */
  predicate TestLetter(c: Option<char>)
  {
    match c
    case Some(ch) => IsLetter(ch)
    case None => IsLetter('n') || IsLetter('u') || IsLetter('l')
  }

  predicate TestDigit(c: Option<char>)
  {
    match c
    case Some(ch) => IsDigit(ch)
    case None => IsDigit('n') || IsDigit('u') || IsDigit('l')
  }

  predicate TestSpaceOrTab(c: Option<char>)
  {
    match c
    case Some(ch) => IsSpaceOrTab(ch)
    case None => IsSpaceOrTab('n') || IsSpaceOrTab('u') || IsSpaceOrTab('l')
  }

  // ---- decimal numerals --------------------------------------------------

  predicate AllDigits(s: string) { forall k :: 0 <= k < |s| ==> IsDigit(s[k]) }

  function Pow10(n: nat): (r: nat)
    ensures r >= 1
  {
    if n == 0 then 1 else 10 * Pow10(n - 1)
  }

  function DigitValue(c: char): nat
    requires IsDigit(c)
  {
    (c - '0') as nat
  }

  /** The value of a string of decimal digits, most significant first. */
  function DigitsValue(s: string): (r: nat)
    requires AllDigits(s)
    ensures r < Pow10(|s|)
  {
    if s == [] then 0 else 10 * DigitsValue(s[..|s| - 1]) + DigitValue(s[|s| - 1])
  }

  /** What `parseFloat` makes of `digits` `.` `fraction` (read as an exact rational). */
  function DecimalValue(digits: string, fraction: string): (r: real)
    requires AllDigits(digits) && AllDigits(fraction)
  {
    DigitsValue(digits) as real + DigitsValue(fraction) as real / Pow10(|fraction|) as real
  }

  /** Decimal rendering of a natural number, as JavaScript's `String(n)`. */
  function NatToString(n: nat): (r: string)
    ensures |r| >= 1 && AllDigits(r)
    ensures (|r| == 1) == (n < 10)
    decreases n
  {
    if n < 10 then ["0123456789"[n]] else NatToString(n / 10) + ["0123456789"[n % 10]]
  }

  lemma {:induction false} NatToStringInjective(a: nat, b: nat)
    requires NatToString(a) == NatToString(b)
    ensures a == b
    decreases a
  {
    var sa, sb := NatToString(a), NatToString(b);
    if a < 10 || b < 10 {
      assert |sa| == 1 && |sb| == 1;
      assert "0123456789"[a] == sa[0] == sb[0] == "0123456789"[b];
    } else {
      assert sa[..|sa| - 1] == NatToString(a / 10) && sb[..|sb| - 1] == NatToString(b / 10);
      NatToStringInjective(a / 10, b / 10);
      assert "0123456789"[a % 10] == sa[|sa| - 1] == sb[|sb| - 1] == "0123456789"[b % 10];
    }
  }

  /** Decimal rendering of an integer, as JavaScript's `String(n)` for integral numbers. */
  function IntToString(n: int): string
  {
    if n < 0 then "-" + NatToString(-n) else NatToString(n)
  }

  // ---- strings -----------------------------------------------------------

  function LowerChar(c: char): char
  {
    if 'A' <= c <= 'Z' then (c as int + 32) as char else c
  }

  /** `toLowerCase` on the ASCII letters that token type names are made of. */
  function ToLower(s: string): (r: string)
    ensures |r| == |s|
    ensures forall k :: 0 <= k < |s| ==> r[k] == LowerChar(s[k])
  {
    if s == [] then [] else [LowerChar(s[0])] + ToLower(s[1..])
  }

  /** Number of elements of `s` that satisfy `p`. */
  function CountIf<T>(s: seq<T>, p: T -> bool): nat
  {
    if s == [] then 0 else CountIf(s[..|s| - 1], p) + (if p(s[|s| - 1]) then 1 else 0)
  }

  lemma CountIfAppend<T>(s: seq<T>, t: seq<T>, p: T -> bool)
    ensures CountIf(s + t, p) == CountIf(s, p) + CountIf(t, p)
    decreases |t|
  {
    if t == [] {
      assert s + t == s;
    } else {
      assert (s + t)[..|s + t| - 1] == s + t[..|t| - 1];
      CountIfAppend(s, t[..|t| - 1], p);
    }
  }
}
