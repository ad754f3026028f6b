/**
 * String and number helpers the tool gets from JavaScript: decimal
 * rendering of integers (template literals), `Number(...)` of a digit
 * string, `split('/')`, `String.prototype.replace` with a string pattern,
 * and the character classes `\d` and `\w` of its regular expressions.
 */
module Text {

  predicate IsDigit(c: char) { '0' <= c <= '9' }

  /** The class `\w` of a non-unicode JavaScript regular expression. */
  predicate IsWordChar(c: char) {
    ('a' <= c <= 'z') || ('A' <= c <= 'Z') || IsDigit(c) || c == '_'
  }

  predicate AllDigits(s: string) { forall i :: 0 <= i < |s| ==> IsDigit(s[i]) }

  predicate AllWord(s: string) { forall i :: 0 <= i < |s| ==> IsWordChar(s[i]) }

  function DigitChar(d: nat): (c: char)
    requires d < 10
    ensures IsDigit(c) && (c as int) - ('0' as int) == d
  {
    ['0', '1', '2', '3', '4', '5', '6', '7', '8', '9'][d]
  }

  /** Decimal rendering of a natural number, as `${n}` gives it. */
  function NatStr(n: nat): (s: string)
    ensures |s| > 0 && AllDigits(s)
    ensures n < 10 <==> |s| == 1
  {
    if n < 10 then [DigitChar(n)] else NatStr(n / 10) + [DigitChar(n % 10)]
  }

  /** `Number(s)` of a (non-empty) digit string; leading zeros do not matter. */
  function DigitsValue(s: string): nat
    requires AllDigits(s)
  {
    if s == [] then 0 else 10 * DigitsValue(s[..|s| - 1]) + ((s[|s| - 1] as int) - ('0' as int))
  }

  lemma {:induction false} DigitsValueOfNatStr(n: nat)
    ensures DigitsValue(NatStr(n)) == n
  {
    if n >= 10 {
      var s := NatStr(n);
      assert s[..|s| - 1] == NatStr(n / 10);
      DigitsValueOfNatStr(n / 10);
    }
  }

  /** The rendering is injective: two numbers with the same decimal text are equal. */
  lemma NatStrInjective(m: nat, n: nat)
    requires NatStr(m) == NatStr(n)
    ensures m == n
  {
    DigitsValueOfNatStr(m);
    DigitsValueOfNatStr(n);
  }

  function Pow10(k: nat): (p: nat)
    ensures p >= 1
  {
    if k == 0 then 1 else 10 * Pow10(k - 1)
  }

  /** Removes `prefix` from the front of `s` when it is there (`s.replace(/^prefix/, '')`). */
  function StripPrefix(s: string, prefix: string): (r: string)
    ensures prefix <= s ==> s == prefix + r
    ensures !(prefix <= s) ==> r == s
  {
    if prefix <= s then s[|prefix|..] else s
  }

  /** `s.split('/')[0]`: the text before the first slash, or all of `s`. */
  function FirstSegment(s: string): (r: string)
    ensures r <= s && '/' !in r
    ensures |r| == |s| || s[|r|] == '/'
  {
    if s == [] || s[0] == '/' then [] else [s[0]] + FirstSegment(s[1..])
  }

  /** The first segment of a text made of a slash-free part and a rest that starts with a slash. */
  lemma {:induction false} FirstSegmentOfComposed(c: string, rest: string)
    requires '/' !in c && (rest == [] || rest[0] == '/')
    ensures FirstSegment(c + rest) == c
  {
    if c != [] {
      assert (c + rest)[1..] == c[1..] + rest;
      FirstSegmentOfComposed(c[1..], rest);
    }
  }

  /** `s.split('/').pop()`: the text after the last slash, or all of `s`. */
  function LastSegment(s: string): (r: string)
    ensures |r| <= |s| && r == s[|s| - |r|..] && '/' !in r
    ensures |r| == |s| || s[|s| - |r| - 1] == '/'
  {
    if s == [] || s[|s| - 1] == '/' then [] else LastSegment(s[..|s| - 1]) + [s[|s| - 1]]
  }

  /**
   * `s.replace(pat, '')` for a string pattern: the first occurrence of `pat`
   * is removed; `s` is returned unchanged when `pat` does not occur.
   */
  function ReplaceFirst(s: string, pat: string): (r: string)
    ensures pat <= s ==> r == s[|pat|..]
    decreases |s|
  {
    if |s| < |pat| then s
    else if s[..|pat|] == pat then s[|pat|..]
    else [s[0]] + ReplaceFirst(s[1..], pat)
  }
}
