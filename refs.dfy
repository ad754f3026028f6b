/**
 * Branch refs: the channel of a ref (`getChannel`), the version pattern
 * `/(\w+)\/v(\d+)\/v(\d+\.\d)/` the resolver looks for in a head ref,
 * and the per-minor channel branches `<channel>/v<M>/v<M>.<m>` the
 * propagator merges into.
 */
module Refs {
  import opened Outcomes
  import opened Text
  import opened Versions

  const HeadsPrefix := "refs/heads/"

  /** `getChannel`: drop a leading `refs/heads/`, then take the text before the first slash. */
  function Channel(ref: string): string {
    FirstSegment(StripPrefix(ref, HeadsPrefix))
  }

  /**
   * A ref written as a channel name followed by nothing or by a slash has
   * that channel, whatever follows the slash.
   */
  lemma {:induction false} ChannelOfComposedRef(c: string, rest: string)
    requires '/' !in c && (rest == [] || rest[0] == '/')
    requires !(HeadsPrefix <= c + rest)
    ensures Channel(c + rest) == c
  {
    FirstSegmentOfComposed(c, rest);
  }

  /** The digit string of a minor version as the pattern captured it (never empty). */
  type Digits = s: string | |s| > 0 && AllDigits(s) witness "0"

  /**
   * The captures of the head-ref pattern: group 2 (`major`), the integer part
   * of group 3 (`looseMajor`) and the whole run of digits after its dot
   * (`minorDigits`; the source's pattern keeps only the first of them).
   */
  datatype HeadVersion = HeadVersion(major: nat, looseMajor: nat, minorDigits: Digits)

  /** The end of the run of `\w` characters that starts at `i`. */
  function WordRun(s: string, i: nat): (j: nat)
    requires i <= |s|
    ensures i <= j <= |s| && (j == |s| || !IsWordChar(s[j]))
    ensures forall k :: i <= k < j ==> IsWordChar(s[k])
    decreases |s| - i
  {
    if i < |s| && IsWordChar(s[i]) then WordRun(s, i + 1) else i
  }

  /** The end of the run of `\d` characters that starts at `i`. */
  function DigitRun(s: string, i: nat): (j: nat)
    requires i <= |s|
    ensures i <= j <= |s| && (j == |s| || !IsDigit(s[j]))
    ensures forall k :: i <= k < j ==> IsDigit(s[k])
    decreases |s| - i
  {
    if i < |s| && IsDigit(s[i]) then DigitRun(s, i + 1) else i
  }

  function Slice(s: string, i: nat, j: nat): (d: Digits)
    requires i < j <= |s|
    requires forall k :: i <= k < j ==> IsDigit(s[k])
    ensures d == s[i..j]
  {
    s[i..j]
  }

  /**
   * The pattern matched at `i` with the given group boundaries: `s[i..w]` is
   * `\w+`, then `/v`, `s[w+2..d1]` is `\d+`, then `/v`, `s[d1+2..d2]` is
   * `\d+`, then a dot and at least one digit.
   */
  ghost predicate PatternAt(s: string, i: nat, w: nat, d1: nat, d2: nat) {
    && i < w && w + 2 < d1 && d1 + 2 < d2 && d2 + 1 < |s|
    && (forall k :: i <= k < w ==> IsWordChar(s[k]))
    && s[w] == '/' && s[w + 1] == 'v'
    && (forall k :: w + 2 <= k < d1 ==> IsDigit(s[k]))
    && s[d1] == '/' && s[d1 + 1] == 'v'
    && (forall k :: d1 + 2 <= k < d2 ==> IsDigit(s[k]))
    && s[d2] == '.' && IsDigit(s[d2 + 1])
  }

  /**
   * The pattern anchored at `i`.  Each run is taken whole: the character that
   * must follow it (`/` or `.`) is never in the run's class, so a shorter run
   * could not match either.
   */
  function MatchAt(s: string, i: nat): (r: Option<HeadVersion>)
    requires i <= |s|
  {
    var w := WordRun(s, i);
    if w == i || w + 2 > |s| || s[w] != '/' || s[w + 1] != 'v' then None
    else
      var d1 := DigitRun(s, w + 2);
      if d1 == w + 2 || d1 + 2 > |s| || s[d1] != '/' || s[d1 + 1] != 'v' then None
      else
        var d2 := DigitRun(s, d1 + 2);
        if d2 == d1 + 2 || d2 + 1 >= |s| || s[d2] != '.' || !IsDigit(s[d2 + 1]) then None
        else
          var d3 := DigitRun(s, d2 + 1);
          Some(HeadVersion(DigitsValue(Slice(s, w + 2, d1)), DigitsValue(Slice(s, d1 + 2, d2)),
                           Slice(s, d2 + 1, d3)))
  }

  /** MatchAt succeeds at `i` exactly when the regular expression can match starting at `i`. */
  lemma MatchAtIsPatternMatch(s: string, i: nat)
    requires i <= |s|
    ensures MatchAt(s, i).Some? <==> exists w, d1, d2 :: PatternAt(s, i, w, d1, d2)
  {
    if exists w, d1, d2 :: PatternAt(s, i, w, d1, d2) {
      var w, d1, d2 :| PatternAt(s, i, w, d1, d2);
      PatternRunsAreWhole(s, i, w, d1, d2);
    }
    if MatchAt(s, i).Some? {
      MatchAtGivesPattern(s, i);
    }
  }

  /** The runs MatchAt takes when it succeeds lay out a match of the pattern. */
  lemma MatchAtGivesPattern(s: string, i: nat)
    requires i <= |s| && MatchAt(s, i).Some?
    ensures var w := WordRun(s, i);
            var d1 := DigitRun(s, w + 2);
            PatternAt(s, i, w, d1, DigitRun(s, d1 + 2))
  {
  }

  /** The runs MatchAt takes are the groups of any match at `i`, and its captures are theirs. */
  lemma PatternRunsAreWhole(s: string, i: nat, w: nat, d1: nat, d2: nat)
    requires PatternAt(s, i, w, d1, d2)
    ensures WordRun(s, i) == w && DigitRun(s, w + 2) == d1 && DigitRun(s, d1 + 2) == d2
    ensures MatchAt(s, i) == Some(HeadVersion(DigitsValue(s[w + 2..d1]), DigitsValue(s[d1 + 2..d2]),
                                              s[d2 + 1..DigitRun(s, d2 + 1)]))
  {
    var j := WordRun(s, i);
    var e1 := DigitRun(s, w + 2);
    var e2 := DigitRun(s, d1 + 2);
  }

  /** There is no match at any position from `i` up to, not including, `j`. */
  ghost predicate NoMatchBetween(s: string, i: nat, j: nat)
    requires j <= |s| + 1
  {
    forall k :: i <= k < j ==> MatchAt(s, k).None?
  }

  /**
   * The search of `headRef.match(...)`: the leftmost position at or after `i`
   * where the pattern matches, or None when it matches nowhere there.
   */
  function MatchPosition(s: string, i: nat): (r: Option<nat>)
    requires i <= |s|
    ensures r.Some? ==> i <= r.value <= |s| && MatchAt(s, r.value).Some? && NoMatchBetween(s, i, r.value)
    ensures r.None? ==> NoMatchBetween(s, i, |s| + 1)
    decreases |s| - i
  {
    if MatchAt(s, i).Some? then Some(i)
    else if i == |s| then None
    else MatchPosition(s, i + 1)
  }

  /** `headRef.match(/(\w+)\/v(\d+)\/v(\d+\.\d)/)`: the captures of the leftmost match. */
  function HeadMatch(s: string): Option<HeadVersion> {
    match MatchPosition(s, 0)
    case Some(j) => MatchAt(s, j)
    case None => None
  }

  /** The branch of `channel` for the minor line of `v`: `<channel>/v<M>/v<M>.<m>`. */
  function ChannelRef(channel: string, v: Version): string {
    channel + VersionPath(v)
  }

  /** The part of a channel branch after its channel: `/v<M>/v<M>.<m>`. */
  function VersionPath(v: Version): string {
    "/v" + NatStr(v.major) + "/v" + LooseString(v)
  }

  /** A channel name that the head-ref pattern reads as its first group. */
  predicate IsWordName(c: string) { |c| > 0 && AllWord(c) }

  /** Every character of a slice `s[i..j]` that is a digit string is a digit. */
  lemma DigitsInSlice(s: string, i: nat, j: nat, d: string)
    requires i <= j <= |s| && s[i..j] == d && AllDigits(d)
    ensures forall k :: i <= k < j ==> IsDigit(s[k])
  {
    forall k | i <= k < j ensures IsDigit(s[k]) { assert s[k] == d[k - i]; }
  }

  /** The layout of a channel branch: where its groups start and end. */
  lemma {:induction false} ChannelRefLayout(c: string, v: Version)
    requires IsWordName(c)
    ensures var s, w := ChannelRef(c, v), |c|;
            var d1 := w + 2 + |NatStr(v.major)|;
            var d2 := d1 + 2 + |NatStr(v.major)|;
            && PatternAt(s, 0, w, d1, d2)
            && s[w + 2..d1] == NatStr(v.major) && s[d1 + 2..d2] == NatStr(v.major)
            && s[d2 + 1..] == NatStr(v.minor)
  {
    var ma, mi := NatStr(v.major), NatStr(v.minor);
    var s := ChannelRef(c, v);
    var w := |c|;
    var d1 := w + 2 + |ma|;
    var d2 := d1 + 2 + |ma|;
    ChannelRefText(c, v);
    ChannelRefSlices(c, ma, mi);
    forall k | 0 <= k < w ensures IsWordChar(s[k]) { assert s[k] == s[..w][k]; }
    DigitsInSlice(s, w + 2, d1, ma);
    DigitsInSlice(s, d1 + 2, d2, ma);
    assert s[d2 + 1] == s[d2 + 1..][0];
  }

  lemma ChannelRefText(c: string, v: Version)
    ensures ChannelRef(c, v) == c + "/v" + NatStr(v.major) + "/v" + NatStr(v.major) + "." + NatStr(v.minor)
  {
  }

  /** Where the pieces of `<c>/v<ma>/v<ma>.<mi>` sit. */
  lemma ChannelRefSlices(c: string, ma: string, mi: string)
    ensures var s := c + "/v" + ma + "/v" + ma + "." + mi;
            var w := |c|;
            var d1 := w + 2 + |ma|;
            var d2 := d1 + 2 + |ma|;
            && |s| == d2 + 1 + |mi|
            && s[..w] == c && s[w] == '/' && s[w + 1] == 'v'
            && s[w + 2..d1] == ma && s[d1] == '/' && s[d1 + 1] == 'v'
            && s[d1 + 2..d2] == ma && s[d2] == '.' && s[d2 + 1..] == mi
  {
    var s := c + "/v" + ma + "/v" + ma + "." + mi;
    var w := |c|;
    var d1 := w + 2 + |ma|;
    var d2 := d1 + 2 + |ma|;
    assert s[..w] == c;
    assert s[w..w + 2] == "/v";
    assert s[w + 2..d1] == ma;
    assert s[d1..d1 + 2] == "/v";
    assert s[d1 + 2..d2] == ma;
    assert s[d2 + 1..] == mi;
  }

  /** When the pattern matches at the start, the leftmost match is that one. */
  lemma MatchFromStart(s: string)
    requires MatchAt(s, 0).Some?
    ensures HeadMatch(s) == MatchAt(s, 0)
  {
    assert MatchPosition(s, 0) == Some(0);
  }

  /** A digit string running to the end of `s` is one whole run. */
  lemma DigitRunToEnd(s: string, i: nat)
    requires i <= |s| && AllDigits(s[i..])
    ensures DigitRun(s, i) == |s|
  {
    DigitsInSlice(s, i, |s|, s[i..]);
  }

  /** The captures of the pattern at the start of a string laid out like a channel branch. */
  lemma CapturesOfLayout(s: string, w: nat, d1: nat, d2: nat, ma: string, mi: string)
    requires PatternAt(s, 0, w, d1, d2) && AllDigits(ma) && AllDigits(mi)
    requires s[w + 2..d1] == ma && s[d1 + 2..d2] == ma && s[d2 + 1..] == mi
    ensures HeadMatch(s) == Some(HeadVersion(DigitsValue(ma), DigitsValue(ma), s[d2 + 1..]))
  {
    PatternRunsAreWhole(s, 0, w, d1, d2);
    DigitRunToEnd(s, d2 + 1);
    assert s[d2 + 1..DigitRun(s, d2 + 1)] == mi;
    MatchFromStart(s);
  }

  /** The channel of a channel branch is the channel it was built from. */
  lemma ChannelOfChannelRef(c: string, v: Version)
    requires IsWordName(c) && !(HeadsPrefix <= ChannelRef(c, v))
    ensures Channel(ChannelRef(c, v)) == c
  {
    assert '/' !in c;
    ChannelOfComposedRef(c, VersionPath(v));
  }

  /** The pattern read back from a channel branch gives the major and minor it was built from. */
  lemma HeadMatchOfChannelRef(c: string, v: Version)
    requires IsWordName(c)
    ensures HeadMatch(ChannelRef(c, v)) == Some(HeadVersion(v.major, v.major, NatStr(v.minor)))
  {
    var ma := NatStr(v.major);
    var w := |c|;
    var d1 := w + 2 + |ma|;
    var d2 := d1 + 2 + |ma|;
    ChannelRefLayout(c, v);
    CapturesOfLayout(ChannelRef(c, v), w, d1, d2, ma, NatStr(v.minor));
    DigitsValueOfNatStr(v.major);
  }
}
