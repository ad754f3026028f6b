/**
 * `getBumpKeyword`: from the current version and the head and base refs of a
 * pull request, the semver increment the tool applies, or the error it throws.
 *
 * Two readings of the version window are given.  `ResolveAsWritten` follows
 * the code: `Number("M.m")` and `Number` of the captured `A.d` are compared as
 * decimal numbers, with only the first digit after the dot captured.
 * `Resolve` is the intended check on whole numbers: the head ref names the
 * current `major.minor` line or, when loose, the one before it.  The two agree
 * while minors stay below ten (`WindowsAgreeBelowTen`) and part at `M.9` to
 * `M.10` (`LenientAfterBumpFailsAsWritten`).
 */
module Resolver {
  import opened Outcomes
  import opened Text
  import opened Versions
  import opened Refs

  /** The four increments the keyword table yields. */
  type Keyword = i: Increment | i in {Premajor, Preminor, Patch, Prerelease} witness Patch

  /** The keyword table, keyed by `<headChannel>-><baseChannel>`. */
  const Keywords: map<string, Keyword> := map[
    "dev->alpha" := Prerelease,
    "alpha->release" := Patch,
    "release->main" := Preminor,
    "release->release" := Preminor,
    "main->main" := Premajor
  ]

  function Key(headChannel: string, baseChannel: string): string {
    headChannel + "->" + baseChannel
  }

  /** `keywords[key]`: undefined (None) for a pair of channels the table does not name. */
  function Lookup(headChannel: string, baseChannel: string): Option<Keyword> {
    var key := Key(headChannel, baseChannel);
    if key in Keywords then Some(Keywords[key]) else None
  }

  /** The flow of changes between channels, stated pair by pair. */
  function KeywordFor(headChannel: string, baseChannel: string): Option<Keyword> {
    if headChannel == "dev" && baseChannel == "alpha" then Some(Prerelease)
    else if headChannel == "alpha" && baseChannel == "release" then Some(Patch)
    else if headChannel == "release" && (baseChannel == "main" || baseChannel == "release") then Some(Preminor)
    else if headChannel == "main" && baseChannel == "main" then Some(Premajor)
    else None
  }

  /**
   * A key of the table splits back into its two channels: the table's keys
   * hold one arrow each, so a channel containing an arrow cannot forge one.
   */
  lemma KeySplits(h: string, b: string, hk: string, bk: string)
    requires Key(h, b) == Key(hk, bk)
    requires forall i :: 0 <= i < |Key(hk, bk)| - 1 && Key(hk, bk)[i] == '-' && Key(hk, bk)[i + 1] == '>' ==> i == |hk|
    ensures h == hk && b == bk
  {
    var s := Key(hk, bk);
    assert s[|h|] == '-' && s[|h| + 1] == '>' by { assert s == h + "->" + b; }
    assert h == s[..|h|];
    assert hk == s[..|hk|];
    assert b == s[|h| + 2..];
    assert bk == s[|hk| + 2..];
  }

  lemma OneArrow(hk: string, bk: string)
    requires (hk, bk) in {("dev", "alpha"), ("alpha", "release"), ("release", "main"), ("release", "release"), ("main", "main")}
    ensures forall i :: 0 <= i < |Key(hk, bk)| - 1 && Key(hk, bk)[i] == '-' && Key(hk, bk)[i + 1] == '>' ==> i == |hk|
  {
  }

  /** The table reads the same as the pair-by-pair flow of changes, for every pair of channels. */
  lemma LookupIsKeywordFor(h: string, b: string)
    ensures Lookup(h, b) == KeywordFor(h, b)
  {
    var key := Key(h, b);
    if key == "dev->alpha" {
      OneArrow("dev", "alpha");
      KeySplits(h, b, "dev", "alpha");
    } else if key == "alpha->release" {
      OneArrow("alpha", "release");
      KeySplits(h, b, "alpha", "release");
    } else if key == "release->main" {
      OneArrow("release", "main");
      KeySplits(h, b, "release", "main");
    } else if key == "release->release" {
      OneArrow("release", "release");
      KeySplits(h, b, "release", "release");
    } else if key == "main->main" {
      OneArrow("main", "main");
      KeySplits(h, b, "main", "main");
    } else {
      assert Key("dev", "alpha") == "dev->alpha";
      assert Key("alpha", "release") == "alpha->release";
      assert Key("release", "main") == "release->main";
      assert Key("release", "release") == "release->release";
      assert Key("main", "main") == "main->main";
    }
  }

  /** Why a head ref is refused; the source throws one message for all four. */
  datatype MismatchReason =
    | NoVersionPattern    // the head ref does not contain `<word>/v<digits>/v<digits>.<digit>`
    | WrongMajorOrAhead   // another major, or a line after the current one
    | TooStale            // more than one line behind the current one
    | OneBehindStrict     // one line behind, and the check is not loose

  datatype ResolveError =
    | VersionsNotMatch                        // head and base refs name different version paths
    | HeadMismatch(reason: MismatchReason)    // the head ref does not name the current line

  /** `lts`: the base ref is a `release/.../lts` branch. */
  predicate IsLtsBase(baseRef: string) {
    Channel(baseRef) == "release" && LastSegment(baseRef) == "lts"
  }

  /** `preminor`: the pull request takes a release line into main or into an LTS branch. */
  predicate CrossesLine(headRef: string, baseRef: string) {
    Channel(headRef) == "release" && (Channel(baseRef) == "main" || IsLtsBase(baseRef))
  }

  /** Head and base refs with their channel names removed (first occurrence) are the same text. */
  predicate RemaindersAgree(headRef: string, baseRef: string) {
    ReplaceFirst(headRef, Channel(headRef)) == ReplaceFirst(baseRef, Channel(baseRef))
  }

  /** The minor the head ref names, as the whole digit run after its dot. */
  function HeadMinor(hv: HeadVersion): nat {
    DigitsValue(hv.minorDigits)
  }

  /**
   * The intended window: the head ref names the current `major.minor` line,
   * or, when loose, the line just before it in the same major.
   */
  predicate InWindow(v: Version, hv: HeadVersion, loose: bool) {
    hv.major == v.major && hv.looseMajor == v.major &&
    (HeadMinor(hv) == v.minor || (loose && HeadMinor(hv) + 1 == v.minor))
  }

  /** The window check on whole numbers: None when the head ref is accepted, else why not. */
  function Window(v: Version, hv: HeadVersion, loose: bool): (r: Option<MismatchReason>)
    ensures r.None? <==> InWindow(v, hv, loose)
    ensures r == Some(OneBehindStrict) <==>
              !loose && hv.major == v.major && hv.looseMajor == v.major && HeadMinor(hv) + 1 == v.minor
  {
    var d := HeadMinor(hv);
    if hv.major != v.major || hv.looseMajor > v.major || (hv.looseMajor == v.major && d > v.minor) then
      Some(WrongMajorOrAhead)
    else if hv.looseMajor < v.major || d + 1 < v.minor then Some(TooStale)
    else if d + 1 == v.minor && !loose then Some(OneBehindStrict)
    else None
  }

  /** `Number(getLooseVersion(version))`: `M.m` read as a decimal number (`1.10` is `1.1`). */
  function LooseNumber(v: Version): real {
    v.major as real + v.minor as real / Pow10(|NatStr(v.minor)|) as real
  }

  /** `Number(headMatch[3])`: the captured `A.d`, one digit after the dot. */
  function HeadLooseNumber(hv: HeadVersion): real {
    hv.looseMajor as real + ((hv.minorDigits[0] as int) - ('0' as int)) as real / 10.0
  }

  /** The window check as the source writes it, on decimal numbers. */
  function WindowAsWritten(v: Version, hv: HeadVersion, loose: bool): Option<MismatchReason> {
    var current, head := LooseNumber(v), HeadLooseNumber(hv);
    if hv.major != v.major || head > current then Some(WrongMajorOrAhead)
    else if head < current - 0.1 then Some(TooStale)
    else if head == current - 0.1 && !loose then Some(OneBehindStrict)
    else None
  }

  /** How far the checks that do not read the current version get. */
  datatype Stage =
    | Decided(result: Result<Option<Keyword>, ResolveError>)  // refused, or a head on main
    | CheckWindow(hv: HeadVersion)                            // the head carries the version pattern

  /**
   * The steps of `getBumpKeyword` before the window: the refs must agree
   * unless the pull request crosses a line; a head on main takes its keyword
   * unchecked; any other head must carry the version pattern.
   */
  function Precheck(headRef: string, baseRef: string): Stage {
    var hc, bc := Channel(headRef), Channel(baseRef);
    if !RemaindersAgree(headRef, baseRef) && !CrossesLine(headRef, baseRef) then Decided(Failure(VersionsNotMatch))
    else if hc == "main" then Decided(Success(Lookup(hc, bc)))
    else
      match HeadMatch(headRef)
      case None => Decided(Failure(HeadMismatch(NoVersionPattern)))
      case Some(hv) => CheckWindow(hv)
  }

  /** The outcome once the window has given its verdict on the head ref. */
  function AfterWindow(verdict: Option<MismatchReason>, headRef: string, baseRef: string): Result<Option<Keyword>, ResolveError> {
    match verdict
    case Some(reason) => Failure(HeadMismatch(reason))
    case None => Success(Lookup(Channel(headRef), Channel(baseRef)))
  }

  /** `getBumpKeyword(cwd, headRef, baseRef, loose)` as written. */
  function ResolveAsWritten(v: Version, headRef: string, baseRef: string, loose: bool): Result<Option<Keyword>, ResolveError> {
    match Precheck(headRef, baseRef)
    case Decided(r) => r
    case CheckWindow(hv) => AfterWindow(WindowAsWritten(v, hv, loose), headRef, baseRef)
  }

  /** `getBumpKeyword(cwd, headRef, baseRef, loose)` with the intended window. */
  function Resolve(v: Version, headRef: string, baseRef: string, loose: bool): Result<Option<Keyword>, ResolveError> {
    match Precheck(headRef, baseRef)
    case Decided(r) => r
    case CheckWindow(hv) => AfterWindow(Window(v, hv, loose), headRef, baseRef)
  }

  /**
   * The resolver succeeds exactly when the refs agree (or cross a line) and the
   * head is on main or names the current line (or, when loose, the one before);
   * what it returns is then the flow of changes between the two channels.
   */
  lemma ResolveSucceedsIff(v: Version, headRef: string, baseRef: string, loose: bool)
    ensures var r := Resolve(v, headRef, baseRef, loose);
            r.Success? <==>
              && (RemaindersAgree(headRef, baseRef) || CrossesLine(headRef, baseRef))
              && (Channel(headRef) == "main" ||
                  (HeadMatch(headRef).Some? && InWindow(v, HeadMatch(headRef).value, loose)))
    ensures var r := Resolve(v, headRef, baseRef, loose);
            r.Success? ==> r.value == KeywordFor(Channel(headRef), Channel(baseRef))
  {
    LookupIsKeywordFor(Channel(headRef), Channel(baseRef));
  }

  /**
   * Which error the resolver throws: "Versions not match" exactly when the
   * refs disagree without crossing a line; otherwise, for a head off main,
   * a head mismatch, either for want of the version pattern or with the
   * window's reason for refusing the line the pattern names.
   */
  lemma ResolveErrors(v: Version, headRef: string, baseRef: string, loose: bool)
    ensures var r := Resolve(v, headRef, baseRef, loose);
            r == Failure(VersionsNotMatch) <==> !RemaindersAgree(headRef, baseRef) && !CrossesLine(headRef, baseRef)
    ensures var r := Resolve(v, headRef, baseRef, loose);
            r == Failure(HeadMismatch(NoVersionPattern)) <==>
              && (RemaindersAgree(headRef, baseRef) || CrossesLine(headRef, baseRef))
              && Channel(headRef) != "main" && HeadMatch(headRef).None?
    ensures var r := Resolve(v, headRef, baseRef, loose);
            (r.Failure? && r.error.HeadMismatch? && r.error.reason != NoVersionPattern) <==>
              && (RemaindersAgree(headRef, baseRef) || CrossesLine(headRef, baseRef))
              && Channel(headRef) != "main" && HeadMatch(headRef).Some?
              && !InWindow(v, HeadMatch(headRef).value, loose)
    ensures var r := Resolve(v, headRef, baseRef, loose);
            r.Failure? && r.error.HeadMismatch? && HeadMatch(headRef).Some? && r.error.reason != NoVersionPattern ==>
              Window(v, HeadMatch(headRef).value, loose) == Some(r.error.reason)
  {
    match Precheck(headRef, baseRef)
    case Decided(_) =>
    case CheckWindow(hv) =>
      var verdict := Window(v, hv, loose);
      assert verdict != Some(NoVersionPattern);
  }

  /** Loosening the check never turns success into failure, nor changes the keyword. */
  lemma LooseAcceptsMore(v: Version, headRef: string, baseRef: string)
    requires Resolve(v, headRef, baseRef, false).Success?
    ensures Resolve(v, headRef, baseRef, true) == Resolve(v, headRef, baseRef, false)
  {
  }

  /**
   * After the bump a strict resolve allowed, the loose resolve of the same
   * refs (the one the merge step runs) still yields the same keyword.
   */
  lemma LenientAfterBump(v: Version, headRef: string, baseRef: string, k: Keyword)
    requires Resolve(v, headRef, baseRef, false) == Success(Some(k))
    ensures Resolve(Inc(v, k), headRef, baseRef, true) == Success(Some(k))
  {
    LookupIsKeywordFor(Channel(headRef), Channel(baseRef));
  }

  /** A head ref on the current line is one line behind once the minor is bumped. */
  lemma PreminorLeavesStrictWindow(v: Version, hv: HeadVersion)
    requires InWindow(v, hv, false)
    ensures Window(Inc(v, Preminor), hv, false) == Some(OneBehindStrict)
    ensures Window(Inc(v, Preminor), hv, true).None?
  {
  }

  /** After a minor bump the strict resolve refuses the same refs: that is why the merge step is loose. */
  lemma StrictFailsAfterPreminor(v: Version, headRef: string, baseRef: string)
    requires Resolve(v, headRef, baseRef, false) == Success(Some(Preminor))
    ensures Resolve(Inc(v, Preminor), headRef, baseRef, false) == Failure(HeadMismatch(OneBehindStrict))
  {
    LookupIsKeywordFor(Channel(headRef), Channel(baseRef));
    assert Channel(headRef) == "release";
    var hv := HeadMatch(headRef).value;
    PreminorLeavesStrictWindow(v, hv);
  }

  /** A one-digit minor reads as itself after the dot: `Number("M.m")` is `M + m/10`. */
  lemma LooseNumberBelowTen(v: Version)
    requires v.minor < 10
    ensures LooseNumber(v) == v.major as real + v.minor as real / 10.0
  {
    assert Pow10(1) == 10;
  }

  lemma HeadLooseNumberOneDigit(hv: HeadVersion)
    requires |hv.minorDigits| == 1
    ensures HeadLooseNumber(hv) == hv.looseMajor as real + HeadMinor(hv) as real / 10.0
  {
    var s := hv.minorDigits;
    assert s[..0] == [];
    assert HeadMinor(hv) == 10 * DigitsValue(s[..0]) + ((s[0] as int) - ('0' as int));
  }

  /**
   * While the current minor and the head's minor are single digits and the
   * head names its major twice alike, the decimal comparison of the source is
   * the intended window.
   */
  lemma WindowsAgreeBelowTen(v: Version, hv: HeadVersion, loose: bool)
    requires v.minor < 10 && |hv.minorDigits| == 1 && hv.looseMajor == hv.major
    ensures WindowAsWritten(v, hv, loose) == Window(v, hv, loose)
  {
    LooseNumberBelowTen(v);
    HeadLooseNumberOneDigit(hv);
    var d := HeadMinor(hv);
    assert d < 10;
    if hv.major == v.major {
      var current, head := LooseNumber(v), HeadLooseNumber(hv);
      assert head > current <==> d > v.minor;
      assert head < current - 0.1 <==> d + 1 < v.minor;
      assert head == current - 0.1 <==> d + 1 == v.minor;
    }
  }

  /** The whole resolver: as written and as intended agree below minor ten. */
  lemma ResolveAgreesBelowTen(v: Version, headRef: string, baseRef: string, loose: bool)
    requires v.minor < 10
    requires HeadMatch(headRef).Some? ==>
               |HeadMatch(headRef).value.minorDigits| == 1 && HeadMatch(headRef).value.looseMajor == HeadMatch(headRef).value.major
    ensures ResolveAsWritten(v, headRef, baseRef, loose) == Resolve(v, headRef, baseRef, loose)
  {
    if Precheck(headRef, baseRef).CheckWindow? {
      WindowsAgreeBelowTen(v, Precheck(headRef, baseRef).hv, loose);
    }
  }

  /** A channel branch never starts with `refs/heads/`: its channel is a single word. */
  lemma ChannelRefIsShort(c: string, v: Version)
    requires IsWordName(c)
    ensures !(HeadsPrefix <= ChannelRef(c, v))
  {
    var s := ChannelRef(c, v);
    assert s[|c|] == '/' && s[|c| + 1] == 'v';
    assert |c| > 4 ==> s[4] == c[4];
  }

  /**
   * Between two channel branches of the current line the resolver gives the
   * flow of changes between their channels (dev into alpha is a prerelease,
   * alpha into release a patch, and so on).
   */
  lemma ResolveBetweenChannelRefs(v: Version, hc: string, bc: string, loose: bool)
    requires IsWordName(hc) && IsWordName(bc) && hc != "main"
    ensures Resolve(v, ChannelRef(hc, v), ChannelRef(bc, v), loose) == Success(KeywordFor(hc, bc))
  {
    var h, b := ChannelRef(hc, v), ChannelRef(bc, v);
    ChannelRefIsShort(hc, v);
    ChannelRefIsShort(bc, v);
    ChannelOfChannelRef(hc, v);
    ChannelOfChannelRef(bc, v);
    HeadMatchOfChannelRef(hc, v);
    DigitsValueOfNatStr(v.minor);
    assert RemaindersAgree(h, b);
    LookupIsKeywordFor(hc, bc);
  }

  /** The release branch of a line has channel `release` and carries the version pattern. */
  lemma ReleaseRef(v: Version)
    ensures Channel(ChannelRef("release", v)) == "release"
    ensures HeadMatch(ChannelRef("release", v)) == Some(HeadVersion(v.major, v.major, NatStr(v.minor)))
  {
    assert IsWordName("release");
    ChannelRefIsShort("release", v);
    ChannelOfChannelRef("release", v);
    HeadMatchOfChannelRef("release", v);
  }

  /** A release line into main or into an LTS branch passes the checks before the window. */
  lemma PrecheckReleaseCrossing(v: Version, baseRef: string)
    requires Channel(baseRef) == "main" || IsLtsBase(baseRef)
    ensures Precheck(ChannelRef("release", v), baseRef) == CheckWindow(HeadVersion(v.major, v.major, NatStr(v.minor)))
  {
    ReleaseRef(v);
    assert CrossesLine(ChannelRef("release", v), baseRef);
  }

  /** Once the refs pass the checks before the window, the window decides. */
  lemma ResolveAtWindow(v: Version, headRef: string, baseRef: string, loose: bool, hv: HeadVersion)
    requires Precheck(headRef, baseRef) == CheckWindow(hv)
    ensures Resolve(v, headRef, baseRef, loose) == AfterWindow(Window(v, hv, loose), headRef, baseRef)
    ensures ResolveAsWritten(v, headRef, baseRef, loose) == AfterWindow(WindowAsWritten(v, hv, loose), headRef, baseRef)
  {
  }

  /** A release line of the current version into main, or into an LTS branch, is a minor pre-release. */
  lemma ResolveReleaseCrossing(v: Version, baseRef: string, loose: bool)
    requires Channel(baseRef) == "main" || IsLtsBase(baseRef)
    ensures Resolve(v, ChannelRef("release", v), baseRef, loose) == Success(Some(Preminor))
  {
    PrecheckReleaseCrossing(v, baseRef);
    var hv := HeadVersion(v.major, v.major, NatStr(v.minor));
    ResolveAtWindow(v, ChannelRef("release", v), baseRef, loose, hv);
    CurrentLineInWindow(v, loose);
    ReleaseCrossingKeyword(v, baseRef);
  }

  /** The head version a channel ref of the current line carries is in the window. */
  lemma CurrentLineInWindow(v: Version, loose: bool)
    ensures Window(v, HeadVersion(v.major, v.major, NatStr(v.minor)), loose).None?
  {
    DigitsValueOfNatStr(v.minor);
    assert InWindow(v, HeadVersion(v.major, v.major, NatStr(v.minor)), loose);
  }

  lemma ReleaseCrossingKeyword(v: Version, baseRef: string)
    requires Channel(baseRef) == "main" || IsLtsBase(baseRef)
    ensures AfterWindow(None, ChannelRef("release", v), baseRef) == Success(Some(Preminor))
  {
    ReleaseRef(v);
    LookupIsKeywordFor("release", Channel(baseRef));
  }

  /** main into main is a major pre-release, whatever the version. */
  lemma ResolveMainIntoMain(v: Version, loose: bool)
    ensures Resolve(v, "main", "main", loose) == Success(Some(Premajor))
  {
    ChannelOfComposedRef("main", []);
    assert "main" + [] == "main";
    LookupIsKeywordFor("main", "main");
  }

  /** `getChannel("main")` is `main`. */
  lemma ChannelOfMain()
    ensures Channel("main") == "main"
  {
    ChannelOfComposedRef("main", []);
    assert "main" + [] == "main";
  }

  /** The decimal readings of the counterexample below: `M.10` reads as `M.1`, below the head's `M.9`. */
  lemma MinorTenNumbers(v: Version, hv: HeadVersion)
    requires v.minor == 10 && hv.looseMajor == v.major && hv.minorDigits == "9"
    ensures LooseNumber(v) == v.major as real + 0.1
    ensures HeadLooseNumber(hv) == v.major as real + 0.9
  {
    assert NatStr(10) == NatStr(1) + [DigitChar(0)];
    assert Pow10(2) == 100;
  }

  /** Before the bump, `M.9` is below ten and the source agrees with the intended resolver. */
  lemma NineIntoMainAsWritten(v: Version)
    requires v.minor == 9
    ensures ResolveAsWritten(v, ChannelRef("release", v), "main", false) == Success(Some(Preminor))
  {
    ChannelOfMain();
    PrecheckReleaseCrossing(v, "main");
    ResolveReleaseCrossing(v, "main", false);
    assert NatStr(9) == "9";
    ResolveAgreesBelowTen(v, ChannelRef("release", v), "main", false);
  }

  /** After the bump to `M.10`, the source's window refuses the head `M.9` as ahead. */
  lemma TenWindowAsWritten(v: Version)
    requires v.minor == 9
    ensures WindowAsWritten(Inc(v, Preminor), HeadVersion(v.major, v.major, NatStr(9)), true) == Some(WrongMajorOrAhead)
  {
    var w := Inc(v, Preminor);
    assert w.minor == 10 && w.major == v.major;
    assert NatStr(9) == "9";
    MinorTenNumbers(w, HeadVersion(v.major, v.major, NatStr(9)));
  }

  lemma TenIntoMainAsWritten(v: Version)
    requires v.minor == 9
    ensures ResolveAsWritten(Inc(v, Preminor), ChannelRef("release", v), "main", true) == Failure(HeadMismatch(WrongMajorOrAhead))
  {
    ChannelOfMain();
    PrecheckReleaseCrossing(v, "main");
    TenWindowAsWritten(v);
  }

  /**
   * The source as written: after the minor bump from `M.9` to `M.10.0-alpha.0`
   * that `release/vM/vM.9` into main asked for, the loose resolve the merge step
   * runs refuses the same refs, because `Number("M.10")` is `M.1` and the head's
   * `M.9` compares as ahead of it.  The intended resolver accepts them.
   */
  lemma LenientAfterBumpFailsAsWritten(v: Version)
    requires v.minor == 9
    ensures var h := ChannelRef("release", v);
            && ResolveAsWritten(v, h, "main", false) == Success(Some(Preminor))
            && ResolveAsWritten(Inc(v, Preminor), h, "main", true) == Failure(HeadMismatch(WrongMajorOrAhead))
            && Resolve(Inc(v, Preminor), h, "main", true) == Success(Some(Preminor))
  {
    NineIntoMainAsWritten(v);
    TenIntoMainAsWritten(v);
    ChannelOfMain();
    ResolveReleaseCrossing(v, "main", false);
    LenientAfterBump(v, ChannelRef("release", v), "main", Preminor);
  }
}
