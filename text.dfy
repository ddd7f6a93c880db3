/**
 * String primitives that the screens and the adapter lean on: JavaScript's
 * white-space class (shared by `String.prototype.trim` and the regular-expression
 * class `\s`), `trim`, an ASCII `toLowerCase`, `includes` and the ASCII digit
 * class `\d`.
 */
module Text {
  import opened Seqs

  /** The characters that `trim()` strips and `\s` matches. */
  predicate IsSpace(c: char) {
    || c == ' ' || c == '\t' || c == '\n' || c == '\r'
    || c == '\U{000B}' || c == '\U{000C}' || c == '\U{00A0}' || c == '\U{1680}'
    || ('\U{2000}' <= c <= '\U{200A}')
    || c == '\U{2028}' || c == '\U{2029}' || c == '\U{202F}' || c == '\U{205F}'
    || c == '\U{3000}' || c == '\U{FEFF}'
  }

  /** Every character of `s` is white space (the empty string included). */
  predicate IsBlank(s: string) {
    forall i | 0 <= i < |s| :: IsSpace(s[i])
  }

  /** Number of white-space characters at the front of `s`. */
  function LeadingSpaces(s: string): (n: nat)
    ensures n <= |s|
    ensures IsBlank(s[..n])
    ensures n < |s| ==> !IsSpace(s[n])
  {
    if |s| > 0 && IsSpace(s[0]) then
      var m := LeadingSpaces(s[1..]);
      assert s[1..][..m] == s[1..m + 1];
      1 + m
    else 0
  }

  /** Number of white-space characters at the back of `s`. */
  function TrailingSpaces(s: string): (n: nat)
    ensures n <= |s|
    ensures IsBlank(s[|s| - n..])
    ensures n < |s| ==> !IsSpace(s[|s| - n - 1])
  {
    if |s| > 0 && IsSpace(s[|s| - 1]) then
      var m := TrailingSpaces(s[..|s| - 1]);
      assert s[..|s| - 1][|s| - 1 - m..] == s[|s| - 1 - m..|s| - 1];
      1 + m
    else 0
  }

  /** `String.prototype.trim`. */
  function Trim(s: string): string {
    var t := s[LeadingSpaces(s)..];
    t[..|t| - TrailingSpaces(t)]
  }

  /** A string trims to `''` exactly when it is blank: the meaning of `!x.trim()`. */
  lemma TrimEmptyIff(s: string)
    ensures Trim(s) == "" <==> IsBlank(s)
  {
    var n := LeadingSpaces(s);
    var t := s[n..];
    if !IsBlank(s) {
      var k :| 0 <= k < |s| && !IsSpace(s[k]);
      assert forall j | 0 <= j < n :: s[..n][j] == s[j];
      assert t[k - n] == s[k];
      var m := TrailingSpaces(t);
      assert forall j | |t| - m <= j < |t| :: t[|t| - m..][j - (|t| - m)] == t[j];
      assert Trim(s)[k - n] == s[k];
    }
  }

  /** ASCII model of `toLowerCase` on one character. */
  function LowerChar(c: char): char {
    if 'A' <= c <= 'Z' then (c as int + 32) as char else c
  }

  /** ASCII model of `String.prototype.toLowerCase`. */
  function Lower(s: string): (r: string)
    ensures |r| == |s|
    ensures forall i | 0 <= i < |s| :: r[i] == LowerChar(s[i])
  {
    seq(|s|, i requires 0 <= i < |s| => LowerChar(s[i]))
  }

  /** Lower-casing twice is lower-casing once. */
  lemma LowerIdempotent(s: string)
    ensures Lower(Lower(s)) == Lower(s)
  {
    assert forall i | 0 <= i < |s| :: LowerChar(LowerChar(s[i])) == LowerChar(s[i]);
  }

  /** `s.includes(t)`: `t` is a prefix of some suffix of `s` (always true for `t == ''`). */
  predicate Contains(s: string, t: string)
    decreases |s|
  {
    t <= s || (|s| > 0 && Contains(s[1..], t))
  }

  /** `Contains` finds exactly the offsets at which `t` occurs. */
  lemma {:induction false} ContainsIff(s: string, t: string)
    ensures Contains(s, t) <==> exists i | 0 <= i <= |s| :: t <= s[i..]
    decreases |s|
  {
    if |s| > 0 {
      ContainsIff(s[1..], t);
      if Contains(s[1..], t) {
        var i :| 0 <= i <= |s[1..]| && t <= s[1..][i..];
        assert s[1..][i..] == s[i + 1..];
      }
      forall i | 1 <= i <= |s| && t <= s[i..]
        ensures Contains(s[1..], t)
      {
        assert s[1..][i - 1..] == s[i..];
      }
    }
    assert t <= s ==> t <= s[0..];
  }

  /** A non-empty needle whose first character never occurs in `s` is not contained in `s`. */
  lemma {:induction false} NotContainsMissingHead(s: string, t: string)
    requires t != ""
    requires forall i | 0 <= i < |s| :: s[i] != t[0]
    ensures !Contains(s, t)
    decreases |s|
  {
    if |s| > 0 {
      NotContainsMissingHead(s[1..], t);
      assert s[0] != t[0];
    }
  }

  /** `a || b` on strings: `a` unless it is the falsy `''`. */
  function Or(a: string, b: string): (r: string)
    ensures r == a || r == b
    ensures a != "" ==> r == a
    ensures a == "" ==> r == b
    ensures r != "" <==> a != "" || b != ""
  {
    if a != "" then a else b
  }

  /** `a || b` on numbers: `a` unless it is the falsy `0`. */
  function OrNumber(a: int, b: int): (r: int)
    ensures r == a || r == b
    ensures a != 0 ==> r == a
    ensures a == 0 ==> r == b
    ensures r != 0 <==> a != 0 || b != 0
  {
    if a != 0 then a else b
  }

  /** Changing the case of an ASCII letter never makes or unmakes white space. */
  lemma LowerKeepsSpace(c: char)
    ensures IsSpace(LowerChar(c)) <==> IsSpace(c)
  {
  }

  /** The ASCII class `\d`. */
  predicate IsDigit(c: char) {
    '0' <= c <= '9'
  }

  /** `s.replace(/\D/g, '')`: the ASCII digits of `s`, in order. */
  function Digits(s: string): (r: string)
    ensures |r| <= |s|
    ensures forall i | 0 <= i < |r| :: IsDigit(r[i])
    ensures forall c :: c in r <==> c in s && IsDigit(c)
  {
    if s == [] then []
    else (if IsDigit(s[0]) then [s[0]] else []) + Digits(s[1..])
  }

  /**
   * `Digits` keeps exactly the digit characters, in order: it is the generic
   * order-preserving filter with the class `\d` as its test.
   */
  lemma {:induction false} DigitsAreFilter(s: string)
    ensures Digits(s) == Filter(s, IsDigit)
    ensures IsSubseq(Digits(s), s)
  {
    if s != [] {
      DigitsAreFilter(s[1..]);
    }
    FilterSubseq(s, IsDigit);
  }
}
