/**
 * The PHP string built-ins the gateway relies on, stated over `seq<char>`:
 * `sprintf("%d", n)`, `trim($s)`, `rtrim($s, $c)` and `ucfirst($s)`.
 */
module Text {
  import opened Wrappers

  /** The characters `trim` strips when it is given no character list:
      space, tab, line feed, carriage return, NUL and vertical tab. */
  predicate IsTrimSpace(c: char) {
    c == ' ' || c == '\t' || c == '\n' || c == '\r' || c == 0 as char || c == 11 as char
  }

  predicate IsDigit(c: char) {
    '0' <= c <= '9'
  }

  function DigitChar(d: nat): (c: char)
    requires d < 10
    ensures IsDigit(c)
  {
    (48 + d) as char
  }

  /** The number a string of decimal digits denotes, most significant digit first:
      the reference reading of what `%d` prints. */
  function DigitsValue(s: string): int
    requires forall i :: 0 <= i < |s| ==> IsDigit(s[i])
  {
    if s == [] then 0 else 10 * DigitsValue(s[..|s| - 1]) + (s[|s| - 1] as int - '0' as int)
  }

  /** The number an optionally signed digit string denotes. */
  function SignedValue(s: string): int
    requires 0 < |s|
    requires forall i :: 0 < i < |s| ==> IsDigit(s[i])
    requires s[0] == '-' || IsDigit(s[0])
  {
    if s[0] == '-' then -DigitsValue(s[1..]) else DigitsValue(s)
  }

  /** Decimal digits of a natural number, most significant first, no leading zero. */
  function NatString(n: nat): (r: string)
    ensures 0 < |r|
    ensures forall i :: 0 <= i < |r| ==> IsDigit(r[i])
    ensures n < 10 <==> |r| == 1
    ensures |r| > 1 ==> r[0] != '0'
    ensures DigitsValue(r) == n
  {
    if n < 10 then [DigitChar(n)] else NatString(n / 10) + [DigitChar(n % 10)]
  }

  /** `sprintf("%d", n)`: an optional minus sign followed by the decimal digits. */
  function DecimalString(n: int): (r: string)
    ensures 0 < |r|
    ensures r[0] == '-' <==> n < 0
    ensures forall i :: 0 < i < |r| ==> IsDigit(r[i])
    ensures r[0] == '-' || IsDigit(r[0])
    ensures SignedValue(r) == n
    ensures !IsTrimSpace(r[0])
  {
    if n < 0 then "-" + NatString(-n) else NatString(n)
  }

  /** `ltrim($s)`: drop every leading trim character. */
  function TrimLeft(s: string): (r: string)
    ensures |r| <= |s| && r == s[|s| - |r|..]
    ensures forall i :: 0 <= i < |s| - |r| ==> IsTrimSpace(s[i])
    ensures |r| == 0 || !IsTrimSpace(r[0])
  {
    if |s| > 0 && IsTrimSpace(s[0]) then TrimLeft(s[1..]) else s
  }

  /** `rtrim($s)`: drop every trailing trim character. */
  function TrimRight(s: string): (r: string)
    ensures |r| <= |s| && r == s[..|r|]
    ensures forall i :: |r| <= i < |s| ==> IsTrimSpace(s[i])
    ensures |r| == 0 || !IsTrimSpace(r[|r| - 1])
  {
    if |s| > 0 && IsTrimSpace(s[|s| - 1]) then TrimRight(s[..|s| - 1]) else s
  }

  /** `trim($s)`: strip trim characters at both ends. */
  function Trim(s: string): (r: string)
    ensures |r| <= |s|
    ensures |r| == 0 || (!IsTrimSpace(r[0]) && !IsTrimSpace(r[|r| - 1]))
  {
    TrimRight(TrimLeft(s))
  }

  /** Trimming text that starts with a non-space and ends in ", " removes just the final space. */
  lemma TrimSeparator(j: string)
    requires 0 < |j| && !IsTrimSpace(j[0])
    ensures Trim(j + ", ") == j + ","
  {
    var e := j + ", ";
    var f := j + ",";
    assert TrimLeft(e) == e;
    assert e[|e| - 1] == ' ' && e[..|e| - 1] == f;
    assert TrimRight(e) == TrimRight(f);
    assert f[|f| - 1] == ',';
    assert TrimRight(f) == f;
  }

  /** `rtrim($s, $c)` with a one-character list: drop every trailing `c`. */
  function TrimRightChar(s: string, c: char): (r: string)
    ensures |r| <= |s| && r == s[..|r|]
    ensures forall i :: |r| <= i < |s| ==> s[i] == c
    ensures |r| == 0 || r[|r| - 1] != c
  {
    if |s| > 0 && s[|s| - 1] == c then TrimRightChar(s[..|s| - 1], c) else s
  }

  /** `strtoupper` on one character, ASCII only. */
  function UpperChar(c: char): char {
    if 'a' <= c <= 'z' then (c as int - 32) as char else c
  }

  /** `ucfirst($s)`: upper-case the first character, keep the rest. */
  function Ucfirst(s: string): (r: string)
    ensures |r| == |s|
    ensures 0 < |s| ==> r[0] == UpperChar(s[0]) && r[1..] == s[1..]
  {
    if |s| == 0 then s else [UpperChar(s[0])] + s[1..]
  }

  /** `t` occurs in `s` starting at position `i`. */
  predicate OccursAt(s: string, t: string, i: int) {
    0 <= i <= |s| - |t| && s[i..i + |t|] == t
  }

  /** An occurrence stays one when text is put in front. */
  lemma OccursAfterPrefix(p: string, s: string, t: string, i: int)
    requires OccursAt(s, t, i)
    ensures OccursAt(p + s, t, |p| + i)
  {
    assert (p + s)[|p| + i..|p| + i + |t|] == s[i..i + |t|];
  }

  /** An occurrence stays one when text is put behind. */
  lemma OccursBeforeSuffix(s: string, q: string, t: string, i: int)
    requires OccursAt(s, t, i)
    ensures OccursAt(s + q, t, i)
  {
    assert (s + q)[i..i + |t|] == s[i..i + |t|];
  }

  /** `t` occurs in `s` somewhere (`str_contains`). */
  ghost predicate Contains(s: string, t: string) {
    exists i :: OccursAt(s, t, i)
  }

  /** The prefix of `s` before its first `c` (all of `s` when there is none). */
  function TakeUntil(s: string, c: char): (r: string)
    ensures |r| <= |s| && r == s[..|r|]
    ensures c !in r
    ensures |r| < |s| ==> s[|r|] == c
  {
    if |s| == 0 || s[0] == c then "" else [s[0]] + TakeUntil(s[1..], c)
  }

  /** Splitting at the first `c` finds the end of a `c`-free prefix. */
  lemma {:induction false} TakeUntilPrefix(x: string, y: string, c: char)
    requires c !in x
    requires |y| > 0 && y[0] == c
    ensures TakeUntil(x + y, c) == x
  {
    if |x| > 0 {
      assert (x + y)[1..] == x[1..] + y;
      TakeUntilPrefix(x[1..], y, c);
    } else {
      assert x + y == y;
    }
  }

  /** What follows `prefix` in `s`, when `s` starts with it. */
  function StripPrefix(s: string, prefix: string): (r: Option<string>)
    ensures r.Some? <==> prefix <= s
    ensures r.Some? ==> s == prefix + r.value
  {
    if prefix <= s then Some(s[|prefix|..]) else None
  }

  lemma StripPrefixOf(prefix: string, rest: string)
    ensures StripPrefix(prefix + rest, prefix) == Some(rest)
  {
    assert (prefix + rest)[|prefix|..] == rest;
  }
}
