/** Small value types and the few JavaScript string and number operations that the
    interview engine relies on, written out so that their edge cases are explicit. */
module Basics {

  /** `T | null` and `T | undefined` in the engine's TypeScript. */
  datatype Option<+T> = None | Some(value: T)

  /** Math.min on two numbers. */
  function MinReal(a: real, b: real): (r: real)
    ensures r <= a && r <= b
    ensures r == a || r == b
  {
    if a <= b then a else b
  }

  /** Math.round: the nearest integer, with halves rounded up (towards +infinity). */
  function JsRound(x: real): (r: int)
    ensures r as real - 0.5 <= x < r as real + 0.5
  {
    (x + 0.5).Floor
  }

  predicate IsDigit(c: char) {
    '0' <= c <= '9'
  }

  function DigitChar(d: int): (c: char)
    requires 0 <= d < 10
    ensures IsDigit(c) && c as int - '0' as int == d
  {
    ('0' as int + d) as char
  }

  /** The decimal text of a non-negative integer, as a template literal prints it. */
  function NatToString(n: nat): (s: string)
    ensures |s| >= 1 && IsDigit(s[0])
    ensures forall i | 0 <= i < |s| :: IsDigit(s[i])
    ensures n >= 10 ==> |s| >= 2
    decreases n
  {
    if n < 10 then [DigitChar(n)] else NatToString(n / 10) + [DigitChar(n % 10)]
  }

  /** Distinct numbers print differently. */
  lemma {:induction false} NatToStringInjective(a: nat, b: nat)
    requires NatToString(a) == NatToString(b)
    ensures a == b
    decreases a
  {
    var sa, sb := NatToString(a), NatToString(b);
    if a < 10 && b < 10 {
      assert DigitChar(a) == sa[0] == sb[0] == DigitChar(b);
    } else if a >= 10 && b >= 10 {
      assert sa[..|sa| - 1] == NatToString(a / 10);
      assert sb[..|sb| - 1] == NatToString(b / 10);
      NatToStringInjective(a / 10, b / 10);
      assert DigitChar(a % 10) == sa[|sa| - 1] == sb[|sb| - 1] == DigitChar(b % 10);
    }
  }

  /** The length of the run of digits that starts `s`. */
  function DigitRun(s: string): (n: nat)
    ensures n <= |s|
  {
    if |s| == 0 || !IsDigit(s[0]) then 0 else 1 + DigitRun(s[1..])
  }

  /** Digits followed by a non-digit: the run stops at the separator. */
  lemma {:induction false} DigitRunStopsAtSeparator(a: string, sep: char, x: string)
    requires forall i | 0 <= i < |a| :: IsDigit(a[i])
    requires !IsDigit(sep)
    ensures DigitRun(a + [sep] + x) == |a|
  {
    if |a| > 0 {
      assert (a + [sep] + x)[1..] == a[1..] + [sep] + x;
      DigitRunStopsAtSeparator(a[1..], sep, x);
    }
  }

  /** A run of digits followed by a separator that is not a digit splits uniquely:
      the separator is found at the first non-digit. */
  lemma DigitPrefixSplit(a: string, x: string, b: string, y: string, sep: char)
    requires forall i | 0 <= i < |a| :: IsDigit(a[i])
    requires forall i | 0 <= i < |b| :: IsDigit(b[i])
    requires !IsDigit(sep)
    requires a + [sep] + x == b + [sep] + y
    ensures a == b && x == y
  {
    var l, r := a + [sep] + x, b + [sep] + y;
    DigitRunStopsAtSeparator(a, sep, x);
    DigitRunStopsAtSeparator(b, sep, y);
    assert a == l[..|a|] == r[..|b|] == b;
    assert x == l[|a| + 1..] == r[|b| + 1..] == y;
  }

  /** The decimal text of an integer, with a leading '-' when negative. */
  function IntToString(i: int): (s: string)
    ensures |s| >= 1
    ensures i >= 0 ==> IsDigit(s[0])
    ensures i < 0 ==> s[0] == '-'
  {
    if i < 0 then "-" + NatToString(-i) else NatToString(i)
  }

  /** Distinct integers print differently. */
  lemma IntToStringInjective(a: int, b: int)
    requires IntToString(a) == IntToString(b)
    ensures a == b
  {
    var sa, sb := IntToString(a), IntToString(b);
    if a < 0 && b < 0 {
      assert sa[1..] == NatToString(-a) && sb[1..] == NatToString(-b);
      NatToStringInjective(-a, -b);
    } else if a >= 0 && b >= 0 {
      NatToStringInjective(a, b);
    }
  }

  /** The number of elements of `s` that satisfy `p` (the length of a `filter`). */
  function Count<T>(s: seq<T>, p: T -> bool): (n: nat)
    ensures n <= |s|
    ensures n == 0 <==> forall i | 0 <= i < |s| :: !p(s[i])
  {
    if |s| == 0 then 0
    else Count(s[..|s| - 1], p) + (if p(s[|s| - 1]) then 1 else 0)
  }

  /** Array.prototype.join. */
  function Join(parts: seq<string>, sep: string): (s: string)
    ensures |parts| > 0 && |parts[0]| > 0 ==> |s| > 0 && s[0] == parts[0][0]
  {
    if |parts| == 0 then ""
    else if |parts| == 1 then parts[0]
    else parts[0] + sep + Join(parts[1..], sep)
  }

  /** Joining without a separator after one more part appends that part. */
  lemma {:induction false} JoinSnoc(parts: seq<string>, x: string)
    requires |parts| > 0
    ensures Join(parts + [x], "") == Join(parts, "") + x
    decreases |parts|
  {
    if |parts| == 1 {
      assert (parts + [x])[1..] == [x];
    } else {
      assert (parts + [x])[1..] == parts[1..] + [x];
      JoinSnoc(parts[1..], x);
    }
  }

  /** Joined without a separator, the first k parts come first. */
  lemma {:induction false} JoinPrefix(parts: seq<string>, k: nat)
    requires 0 < k <= |parts|
    ensures StartsWith(Join(parts, ""), Join(parts[..k], ""))
    decreases |parts| - k
  {
    if k == |parts| {
      assert parts[..k] == parts;
      StartsWithConcat(Join(parts, ""), "");
    } else {
      JoinPrefix(parts, k + 1);
      assert parts[..k + 1] == parts[..k] + [parts[k]];
      JoinSnoc(parts[..k], parts[k]);
      StartsWithConcat(Join(parts[..k], ""), parts[k]);
    }
  }

  predicate StartsWith(s: string, prefix: string) {
    |prefix| <= |s| && s[..|prefix|] == prefix
  }

  lemma StartsWithConcat(p: string, q: string)
    ensures StartsWith(p + q, p)
  {
    assert (p + q)[..|p|] == p;
  }

  /** String.prototype.includes: `needle` occurs somewhere in `s`. */
  predicate Includes(s: string, needle: string)
    decreases |s|
  {
    StartsWith(s, needle) || (|s| > 0 && Includes(s[1..], needle))
  }

  /** A string includes anything it is built around. */
  lemma {:induction false} IncludesMiddle(a: string, b: string, c: string)
    ensures Includes(a + b + c, b)
    decreases |a|
  {
    if |a| == 0 {
      assert a + b + c == b + c;
      assert (b + c)[..|b|] == b;
    } else {
      assert (a + b + c)[1..] == a[1..] + b + c;
      IncludesMiddle(a[1..], b, c);
    }
  }

  /** The character class `\s` of JavaScript regular expressions. */
  predicate IsJsSpace(c: char) {
    || c == '\t' || c == '\n' || c == '\U{000B}' || c == '\U{000C}' || c == '\r' || c == ' '
    || c == '\U{00A0}' || c == '\U{1680}' || ('\U{2000}' <= c <= '\U{200A}')
    || c == '\U{2028}' || c == '\U{2029}' || c == '\U{202F}' || c == '\U{205F}'
    || c == '\U{3000}' || c == '\U{FEFF}'
  }

  /** The number of maximal runs of whitespace characters in `s`. */
  function SpaceRuns(s: string): nat
  {
    if |s| == 0 then 0
    else SpaceRuns(s[..|s| - 1])
         + (if IsJsSpace(s[|s| - 1]) && (|s| == 1 || !IsJsSpace(s[|s| - 2])) then 1 else 0)
  }

  /** `text.split(/\s+/).length`: every whitespace run separates two pieces, and the
      pieces before a leading run and after a trailing run are empty strings that
      still count, so there is always one more piece than there are runs. */
  function WordCount(text: string): (n: nat)
    ensures n >= 1
  {
    SpaceRuns(text) + 1
  }

  /** A text without whitespace is one word; otherwise there are at most as many
      whitespace runs as characters. */
  lemma {:induction false} SpaceRunsBounds(s: string)
    ensures SpaceRuns(s) <= |s|
    ensures SpaceRuns(s) == 0 <==> forall i | 0 <= i < |s| :: !IsJsSpace(s[i])
  {
    if |s| > 0 {
      var init := s[..|s| - 1];
      SpaceRunsBounds(init);
      assert forall i | 0 <= i < |init| :: init[i] == s[i];
    }
  }
}
