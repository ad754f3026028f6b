/**
 * The version-manager command `bumpCall` runs: `lerna version <kw> ...` in a
 * lerna repository, `yarn version --<kw> ...` otherwise.  Two copies exist:
 * the library's (with the tag switch and lerna's `--force-publish`) and the
 * older bundled one.
 */
module Commands {
  import opened Text
  import opened Versions

  /** Which copy of the tool's library a run uses. */
  datatype Variant = Lib | Bundle

  /** The release type as the tool spells it on the command line. */
  function IncrementName(i: Increment): (s: string)
    ensures |s| > 0 && s[0] != '-'
  {
    match i
    case Major => "major"
    case Minor => "minor"
    case Patch => "patch"
    case Premajor => "premajor"
    case Preminor => "preminor"
    case Prepatch => "prepatch"
    case Prerelease => "prerelease"
  }

  lemma IncrementNameInjective(i: Increment, j: Increment)
    requires IncrementName(i) == IncrementName(j)
    ensures i == j
  {
  }

  /** The commit message text: the caller's message when it is non-empty, else the default. */
  function MessageText(variant: Variant, v: Version, k: Increment, message: string): string {
    if message != "" then message
    else "Move on to v" + VersionString(if variant == Lib then Inc(v, k) else v)
  }

  /** `--message "<text>"`, which a `patch` bump does not get. */
  function MessageOpt(variant: Variant, v: Version, k: Increment, message: string): seq<string> {
    if k == Patch then [] else ["--message", "\"" + MessageText(variant, v, k, message) + "\""]
  }

  function TagOpt(tag: bool): seq<string> {
    if tag then [] else ["--no-git-tag-version"]
  }

  function ForceOpt(k: Increment, message: string): seq<string> {
    if k == Prerelease && message == "" then ["--force-publish"] else []
  }

  /**
   * The command `bumpCall(argv, keyword, message, tag)` runs for the current
   * version `v`; the bundled copy has no tag switch and no `--force-publish`.
   */
  function BumpCommand(variant: Variant, lerna: bool, v: Version, k: Increment, message: string, tag: bool): seq<string> {
    var msg := MessageOpt(variant, v, k, message);
    match variant
    case Lib =>
      if lerna then ["lerna", "version", IncrementName(k), "--yes", "--no-push"] + msg + TagOpt(tag) + ForceOpt(k, message)
      else ["yarn", "version", "--" + IncrementName(k), "--preid", "alpha"] + msg + TagOpt(tag)
    case Bundle =>
      if lerna then ["lerna", "version", IncrementName(k), "--yes", "--no-push"] + msg
      else ["yarn", "version", "--" + IncrementName(k), "--preid", "alpha"] + msg
  }

  /** The branch lerna is switched to before a patch or prepatch bump: lerna refuses a detached head. */
  function LernaBumpBranch(v: Version): string {
    "release/v" + NatStr(v.major) + "/lerna-bump-patch"
  }

  /** The quoted message argument never looks like an option. */
  lemma QuotedIsNotOption(t: string)
    ensures var q := "\"" + t + "\"";
            q != "--message" && q != "--no-git-tag-version" && q != "--force-publish" &&
            q != "--yes" && q != "--no-push" && q != "--preid" && q != "alpha"
  {
    var q := "\"" + t + "\"";
    assert q[0] == '"';
  }

  /**
   * The command names the tool and the release type first: `lerna version <kw>`
   * or `yarn version --<kw>`.
   */
  lemma BumpCommandHead(variant: Variant, lerna: bool, v: Version, k: Increment, message: string, tag: bool)
    ensures var cmd := BumpCommand(variant, lerna, v, k, message, tag);
            && |cmd| >= 5 && cmd[1] == "version"
            && cmd[0] == (if lerna then "lerna" else "yarn")
            && cmd[2] == (if lerna then IncrementName(k) else "--" + IncrementName(k))
  {
  }

  /**
   * Every bump but `patch` carries `--message` followed by the quoted message,
   * or by the quoted default `Move on to v<version>` when no message is given.
   */
  lemma {:induction false} MessageOptIff(variant: Variant, lerna: bool, v: Version, k: Increment, message: string, tag: bool)
    ensures var cmd := BumpCommand(variant, lerna, v, k, message, tag);
            ("--message" in cmd <==> k != Patch) &&
            (k != Patch ==> exists i :: 0 <= i < |cmd| - 1 && cmd[i] == "--message" &&
                              cmd[i + 1] == "\"" + MessageText(variant, v, k, message) + "\"")
  {
    var cmd := BumpCommand(variant, lerna, v, k, message, tag);
    var q := "\"" + MessageText(variant, v, k, message) + "\"";
    QuotedIsNotOption(MessageText(variant, v, k, message));
    var name := IncrementName(k);
    if k != Patch {
      assert cmd[5] == "--message" && cmd[6] == q;
    } else {
      assert name != "message";
      assert ("--" + name)[2..] == name;
      assert "--message"[2..] == "message";
      assert "--message" !in cmd;
    }
  }

  /** The library's copy adds `--no-git-tag-version` exactly when asked not to tag. */
  lemma NoTagIff(lerna: bool, v: Version, k: Increment, message: string, tag: bool)
    ensures "--no-git-tag-version" in BumpCommand(Lib, lerna, v, k, message, tag) <==> !tag
  {
    var name := IncrementName(k);
    QuotedIsNotOption(MessageText(Lib, v, k, message));
    assert ("--" + name)[2..] == name;
    assert "--no-git-tag-version"[2..] == "no-git-tag-version";
    var cmd := BumpCommand(Lib, lerna, v, k, message, tag);
    if !tag {
      assert "--no-git-tag-version" == cmd[|cmd| - |ForceOpt(k, message)| - 1] || "--no-git-tag-version" == cmd[|cmd| - 1];
    }
  }

  /** Lerna's `--force-publish` appears exactly for a lerna pre-release bump without a message. */
  lemma ForcePublishIff(lerna: bool, v: Version, k: Increment, message: string, tag: bool)
    ensures "--force-publish" in BumpCommand(Lib, lerna, v, k, message, tag) <==> lerna && k == Prerelease && message == ""
  {
    var name := IncrementName(k);
    QuotedIsNotOption(MessageText(Lib, v, k, message));
    assert ("--" + name)[2..] == name;
    assert "--force-publish"[2..] == "force-publish";
    var cmd := BumpCommand(Lib, lerna, v, k, message, tag);
    if lerna && k == Prerelease && message == "" {
      assert cmd[|cmd| - 1] == "--force-publish";
    }
  }

  /**
   * The bundled copy drifts from the library's in three ways only: no tag
   * switch, no `--force-publish`, and a default message naming the current
   * version instead of the next one.  Away from those, the commands are the same.
   */
  lemma BundleAgreesWithLib(lerna: bool, v: Version, k: Increment, message: string)
    requires message != "" || k == Patch
    ensures BumpCommand(Bundle, lerna, v, k, message, true) == BumpCommand(Lib, lerna, v, k, message, true)
  {
  }

  /** Without a message, the two copies name different versions in the default message. */
  lemma BundleDefaultMessageNamesCurrent(v: Version, k: Increment)
    ensures MessageText(Bundle, v, k, "") == "Move on to v" + VersionString(v)
    ensures MessageText(Lib, v, k, "") == "Move on to v" + VersionString(Inc(v, k))
  {
  }
}
