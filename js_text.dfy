/**
  The few JavaScript string built-ins that the browser scripts rely on, over
  `string` (a sequence of Unicode scalar values).
 */
module JsText {

  function Min(a: int, b: int): int { if a <= b then a else b }

  /** A match of the regular-expression class `\d` (ASCII digits only). */
  predicate IsDigit(c: char) {
    '0' <= c <= '9'
  }

  /** A match of `\s`, which is also the set that `String.prototype.trim` strips. */
  predicate IsWhitespace(c: char) {
    c == '\t' || c == '\n' || c == '\U{B}' || c == '\U{C}' || c == '\r' || c == ' '
    || c == '\U{A0}' || c == '\U{1680}' || ('\U{2000}' <= c <= '\U{200A}')
    || c == '\U{2028}' || c == '\U{2029}' || c == '\U{202F}' || c == '\U{205F}'
    || c == '\U{3000}' || c == '\U{FEFF}'
  }

  predicate AllDigits(s: string) {
    forall i | 0 <= i < |s| :: IsDigit(s[i])
  }

  /** `s.replace(/\D/g, '')`: the digits of `s`, in order. */
  function DigitsOf(s: string): (d: string)
    ensures AllDigits(d) && |d| <= |s|
    ensures d == [] <==> forall i | 0 <= i < |s| :: !IsDigit(s[i])
  {
    if s == [] then []
    else
      var rest := DigitsOf(s[1..]);
      assert forall i | 1 <= i < |s| :: s[i] == s[1..][i - 1];
      (if IsDigit(s[0]) then [s[0]] else []) + rest
  }

  lemma {:induction false} DigitsOfConcat(a: string, b: string)
    ensures DigitsOf(a + b) == DigitsOf(a) + DigitsOf(b)
  {
    if a != [] {
      assert (a + b)[1..] == a[1..] + b;
      DigitsOfConcat(a[1..], b);
    } else {
      assert a + b == b;
    }
  }

  lemma {:induction false} DigitsOfAllDigits(s: string)
    requires AllDigits(s)
    ensures DigitsOf(s) == s
  {
    if s != [] {
      DigitsOfAllDigits(s[1..]);
    }
  }

  /**
    `s.slice(start, end)` for non-negative bounds: both bounds are clamped to
    the length, and an empty string results when `end` is not past `start`.
   */
  function Slice(s: string, start: nat, end: nat): (r: string)
    ensures |r| == if Min(start, |s|) < Min(end, |s|) then Min(end, |s|) - Min(start, |s|) else 0
    ensures forall i | 0 <= i < |r| :: start + i < |s| && r[i] == s[start + i]
  {
    var a, b := Min(start, |s|), Min(end, |s|);
    if a < b then s[a..b] else ""
  }

  /** Number of whitespace characters at the front of `s`. */
  function Leading(s: string): (n: nat)
    ensures n <= |s|
    ensures forall k | 0 <= k < n :: IsWhitespace(s[k])
    ensures n < |s| ==> !IsWhitespace(s[n])
  {
    if s == [] || !IsWhitespace(s[0]) then 0
    else
      var n := Leading(s[1..]);
      assert forall k | 1 <= k < |s| :: s[k] == s[1..][k - 1];
      1 + n
  }

  /** Number of whitespace characters at the back of `s`. */
  function Trailing(s: string): (n: nat)
    ensures n <= |s|
    ensures forall k | |s| - n <= k < |s| :: IsWhitespace(s[k])
    ensures n < |s| ==> !IsWhitespace(s[|s| - 1 - n])
  {
    if s == [] || !IsWhitespace(s[|s| - 1]) then 0
    else
      var n := Trailing(s[..|s| - 1]);
      assert forall k | 0 <= k < |s| - 1 :: s[k] == s[..|s| - 1][k];
      1 + n
  }

  /**
    `s.trim()`: `s` without its leading and trailing whitespace. It is empty
    exactly when `s` is all whitespace, and otherwise starts and ends with a
    character that is not whitespace.
   */
  function Trim(s: string): (r: string)
    ensures r == "" <==> forall k | 0 <= k < |s| :: IsWhitespace(s[k])
    ensures r != "" ==> !IsWhitespace(r[0]) && !IsWhitespace(r[|r| - 1])
    ensures Leading(s) + |r| <= |s| && r == s[Leading(s)..Leading(s) + |r|]
    ensures forall k | Leading(s) + |r| <= k < |s| :: IsWhitespace(s[k])
  {
    var lead := Leading(s);
    var t := s[lead..];
    var trail := Trailing(t);
    var r := t[..|t| - trail];
    assert forall k | lead + |r| <= k < |s| :: s[k] == t[k - lead];
    r
  }

  /** Trimming keeps exactly the span between the first and the last non-whitespace character. */
  lemma TrimSpan(s: string, a: nat, b: nat)
    requires a < b <= |s|
    requires forall k | 0 <= k < a :: IsWhitespace(s[k])
    requires forall k | b <= k < |s| :: IsWhitespace(s[k])
    requires !IsWhitespace(s[a]) && !IsWhitespace(s[b - 1])
    ensures Trim(s) == s[a..b]
  {
    var r := Trim(s);
    assert Leading(s) == a;
    assert r != "";
    assert a + |r| == b;
  }
}
