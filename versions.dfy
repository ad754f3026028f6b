/**
 * The manifest version and the part of the semver library the tool uses:
 * `semver.inc(version, release, 'alpha')` and the `major`, `minor` and
 * `prerelease.length` fields it reads.  Prerelease identifiers are the
 * `alpha.N` form the tool itself produces.
 */
module Versions {
  import opened Outcomes
  import opened Text

  /** A version `major.minor.patch`, with `-alpha.N` when `alpha` is `Some(N)`. */
  datatype Version = Version(major: nat, minor: nat, patch: nat, alpha: Option<nat>)

  /** The release types of `semver.inc` that the tool passes. */
  datatype Increment = Major | Minor | Patch | Premajor | Preminor | Prepatch | Prerelease

  /** Semver precedence: `a` sorts strictly before `b`. */
  predicate Precedes(a: Version, b: Version) {
    || a.major < b.major
    || (a.major == b.major && a.minor < b.minor)
    || (a.major == b.major && a.minor == b.minor && a.patch < b.patch)
    || (a.major == b.major && a.minor == b.minor && a.patch == b.patch &&
        a.alpha.Some? && (b.alpha.None? || a.alpha.value < b.alpha.value))
  }

  /**
   * `semver.inc(v, i, 'alpha')`.  Every increment moves the version forward;
   * the pre-release increments leave an `alpha` version, the others a release.
   */
  function Inc(v: Version, i: Increment): (w: Version)
    ensures Precedes(v, w)
    ensures w.alpha.Some? <==> i in {Premajor, Preminor, Prepatch, Prerelease}
  {
    match i
    case Major =>
      if v.minor != 0 || v.patch != 0 || v.alpha.None? then Version(v.major + 1, 0, 0, None)
      else Version(v.major, 0, 0, None)
    case Minor =>
      if v.patch != 0 || v.alpha.None? then Version(v.major, v.minor + 1, 0, None)
      else Version(v.major, v.minor, 0, None)
    case Patch =>
      if v.alpha.None? then Version(v.major, v.minor, v.patch + 1, None)
      else Version(v.major, v.minor, v.patch, None)
    case Premajor => Version(v.major + 1, 0, 0, Some(0))
    case Preminor => Version(v.major, v.minor + 1, 0, Some(0))
    case Prepatch => Version(v.major, v.minor, v.patch + 1, Some(0))
    case Prerelease =>
      if v.alpha.None? then Version(v.major, v.minor, v.patch + 1, Some(0))
      else Version(v.major, v.minor, v.patch, Some(v.alpha.value + 1))
  }

  /** The increments below a minor release keep the `major.minor` line of the version. */
  lemma IncKeepsLine(v: Version, i: Increment)
    requires i in {Patch, Prepatch, Prerelease}
    ensures Inc(v, i).major == v.major && Inc(v, i).minor == v.minor
  {
  }

  /** `${version}`: semver's rendering `M.m.p` or `M.m.p-alpha.N`. */
  function VersionString(v: Version): string {
    NatStr(v.major) + "." + NatStr(v.minor) + "." + NatStr(v.patch) +
    (if v.alpha.Some? then "-alpha." + NatStr(v.alpha.value) else "")
  }

  /** `getLooseVersion`: the `major.minor` text of a version. */
  function LooseString(v: Version): string {
    NatStr(v.major) + "." + NatStr(v.minor)
  }
}
