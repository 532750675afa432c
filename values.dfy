/**
 * The Python values that flow through the server: metadata payloads, filter
 * operands and tool arguments (JSON-shaped data), with the few built-in
 * operations the program applies to them.
 */
module Values {
  import opened Wrappers
  import opened PyDict

  /** A JSON-shaped Python value; a `float` is kept as the exact real it stands for. */
  datatype Value =
    | VNone
    | VBool(b: bool)
    | VInt(i: int)
    | VFloat(r: real)
    | VStr(s: string)
    | VList(items: seq<Value>)
    | VDict(entries: Dict<string, Value>)

  /** Python truthiness: `if v:`. */
  predicate Truthy(v: Value) {
    match v
    case VNone => false
    case VBool(b) => b
    case VInt(i) => i != 0
    case VFloat(r) => r != 0.0
    case VStr(s) => s != ""
    case VList(xs) => xs != []
    case VDict(d) => d != []
  }

  /** Lists and dicts cannot be dictionary keys (TypeError: unhashable type). */
  predicate Hashable(v: Value) {
    !v.VList? && !v.VDict?
  }

  /** The elements `for x in v` visits; None where Python raises TypeError (not iterable). */
  function Iterate(v: Value): Option<seq<Value>> {
    match v
    case VList(xs) => Some(xs)
    case VStr(s) => Some(seq(|s|, i requires 0 <= i < |s| => VStr([s[i]])))
    case VDict(d) => Some(seq(|d|, i requires 0 <= i < |d| => VStr(d[i].0)))
    case _ => None
  }

  function DigitChar(d: nat): char
    requires d < 10
  {
    ('0' as int + d) as char
  }

  function Digits(n: nat): string
    decreases n
  {
    if n < 10 then [DigitChar(n)] else Digits(n / 10) + [DigitChar(n % 10)]
  }

  /** `str(i)` for an integer. */
  function IntText(i: int): string {
    if i < 0 then "-" + Digits(-i) else Digits(i)
  }

  function Join(sep: string, parts: seq<string>): string
    decreases |parts|
  {
    if |parts| == 0 then ""
    else if |parts| == 1 then parts[0]
    else parts[0] + sep + Join(sep, parts[1..])
  }

  /** The first `n` decimal digits of a fraction `0 <= f < 1`. */
  function FractionDigits(f: real, n: nat): (ds: string)
    requires 0.0 <= f < 1.0
    ensures |ds| == n
    decreases n
  {
    if n == 0 then ""
    else
      var d := (f * 10.0).Floor;
      [DigitChar(d)] + FractionDigits(f * 10.0 - d as real, n - 1)
  }

  function DropTrailingZeros(s: string): (r: string)
    ensures |r| <= |s| && r == s[..|r|]
    ensures |r| > 0 ==> r[|r| - 1] != '0'
    decreases |s|
  {
    if |s| > 0 && s[|s| - 1] == '0' then DropTrailingZeros(s[..|s| - 1]) else s
  }

  /**
   * `str(x)` for a float in positional notation: the whole part, a point and
   * the fraction to 17 places without trailing zeros, or `.0` for a whole
   * number (`12.0`, `2.5`, `-0.125`).
   */
  function FloatText(r: real): string {
    var a := if r < 0.0 then -r else r;
    var whole := a.Floor;
    var fraction := DropTrailingZeros(FractionDigits(a - whole as real, 17));
    (if r < 0.0 then "-" else "") + Digits(whole) + "." + (if fraction == "" then "0" else fraction)
  }

  /**
   * `repr(s)` for a string: single quotes, or double quotes when the string
   * holds a single quote and no double quote; a backslash, the chosen quote,
   * a newline, a carriage return and a tab are escaped.
   */
  function Repr(s: string): (r: string)
    ensures |r| >= |s| + 2
  {
    var q := if '\'' in s && '"' !in s then '"' else '\'';
    [q] + Escaped(s, q) + [q]
  }

  function Escaped(s: string, q: char): (r: string)
    ensures |r| >= |s|
    decreases |s|
  {
    if |s| == 0 then ""
    else
      var c := s[0];
      var e := if c == '\\' then "\\\\"
        else if c == q then ['\\', q]
        else if c == '\n' then "\\n"
        else if c == '\r' then "\\r"
        else if c == '\t' then "\\t"
        else [c];
      e + Escaped(s[1..], q)
  }

  /** Characters that `repr` writes as they are. */
  predicate Plain(c: char) {
    c != '\'' && c != '"' && c != '\\' && c != '\n' && c != '\r' && c != '\t'
  }

  /** A string of plain characters shows as itself between single quotes. */
  lemma {:induction false} ReprOfPlain(s: string)
    requires forall i :: 0 <= i < |s| ==> Plain(s[i])
    ensures Repr(s) == "'" + s + "'"
  {
    EscapedPlain(s, '\'');
  }

  lemma {:induction false} EscapedPlain(s: string, q: char)
    requires !Plain(q) && forall i :: 0 <= i < |s| ==> Plain(s[i])
    ensures Escaped(s, q) == s
    decreases |s|
  {
    if |s| > 0 {
      EscapedPlain(s[1..], q);
      assert s == [s[0]] + s[1..];
    }
  }

  /**
   * `str(v)` (quoted = false) and `repr(v)` (quoted = true). Strings inside
   * containers are shown by `Repr`.
   */
  function Show(v: Value, quoted: bool): string
    decreases v
  {
    match v
    case VNone => "None"
    case VBool(b) => if b then "True" else "False"
    case VInt(i) => IntText(i)
    case VFloat(r) => FloatText(r)
    case VStr(s) => if quoted then Repr(s) else s
    case VList(xs) =>
      "[" + Join(", ", seq(|xs|, k requires 0 <= k < |xs| => Show(xs[k], true))) + "]"
    case VDict(d) =>
      "{" + Join(", ", seq(|d|, k requires 0 <= k < |d| => Repr(d[k].0) + ": " + Show(d[k].1, true))) + "}"
  }


  /** `str(v)`. */
  function Str(v: Value): string {
    Show(v, false)
  }

  function LowerChar(c: char): char {
    if 'A' <= c <= 'Z' then (c as int + 32) as char else c
  }

  /** `s.lower()` on ASCII letters. */
  function Lower(s: string): string {
    seq(|s|, i requires 0 <= i < |s| => LowerChar(s[i]))
  }

  /** `s.startswith(prefix)`. */
  predicate StartsWith(s: string, prefix: string) {
    |prefix| <= |s| && s[..|prefix|] == prefix
  }

  /** `sub in s`. */
  predicate Contains(s: string, sub: string)
    decreases |s|
  {
    |sub| <= |s| && (s[..|sub|] == sub || Contains(s[1..], sub))
  }

  lemma LowerAppend(a: string, b: string)
    ensures Lower(a + b) == Lower(a) + Lower(b)
  {
  }

  /** A text at the start is contained. */
  lemma ContainsPrefix(s: string, sub: string)
    requires |sub| <= |s| && s[..|sub|] == sub
    ensures Contains(s, sub)
  {
  }

  /** A text contained in a suffix is contained in the whole. */
  lemma {:induction false} ContainsInSuffix(a: string, b: string, sub: string)
    requires Contains(b, sub)
    ensures Contains(a + b, sub)
    decreases |a|
  {
    if |a| > 0 {
      assert (a + b)[1..] == a[1..] + b;
      ContainsInSuffix(a[1..], b, sub);
    } else {
      assert a + b == b;
    }
  }

  /** `s.replace(pat, rep)`: every non-overlapping occurrence, left to right. */
  function ReplaceAll(s: string, pat: string, rep: string): string
    requires |pat| > 0
    decreases |s|
  {
    if |s| < |pat| then s
    else if s[..|pat|] == pat then rep + ReplaceAll(s[|pat|..], pat, rep)
    else [s[0]] + ReplaceAll(s[1..], pat, rep)
  }

  /** A text without the pattern's first character is left as it is. */
  lemma {:induction false} ReplaceAllAbsentLead(s: string, pat: string, rep: string)
    requires |pat| > 0 && pat[0] !in s
    ensures ReplaceAll(s, pat, rep) == s
    decreases |s|
  {
    if |s| >= |pat| {
      assert s[..|pat|] != pat by { assert s[..|pat|][0] == s[0]; }
      ReplaceAllAbsentLead(s[1..], pat, rep);
      assert [s[0]] + s[1..] == s;
    }
  }

  /** Replacing a single character works piece by piece. */
  lemma {:induction false} ReplaceAllCharAppend(a: string, b: string, c: char, rep: string)
    ensures ReplaceAll(a + b, [c], rep) == ReplaceAll(a, [c], rep) + ReplaceAll(b, [c], rep)
    decreases |a|
  {
    if |a| == 0 {
      assert a + b == b;
    } else {
      assert (a + b)[..1] == a[..1];
      assert (a + b)[1..] == a[1..] + b;
      ReplaceAllCharAppend(a[1..], b, c, rep);
      if a[..1] == [c] {
        assert (a + b)[|[c]|..] == a[1..] + b;
      }
    }
  }

  /** `s.split(sep)[0]` for a one-character separator. */
  function BeforeFirst(s: string, sep: char): (r: string)
    ensures |r| <= |s| && r == s[..|r|]
    ensures sep !in r
    ensures |r| < |s| ==> s[|r|] == sep
  {
    if |s| == 0 then ""
    else if s[0] == sep then ""
    else [s[0]] + BeforeFirst(s[1..], sep)
  }

  /** `xs[:limit]`: the first `limit` items. */
  function Take<T>(xs: seq<T>, limit: nat): (r: seq<T>)
    ensures |r| == if limit < |xs| then limit else |xs|
    ensures r == xs[..|r|]
  {
    if limit < |xs| then xs[..limit] else xs
  }
}
