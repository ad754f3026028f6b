/**
 * `mergeCall`: after a pull request is merged, the tool lifts protection on
 * the branches it will write, tags the merged commit, pushes what the keyword
 * calls for, merges the alpha tag's commit into the channel branches of the
 * version line, and then restores protection.
 *
 * A `Session` holds what the run changes: the version in the checked-out
 * manifest, the remote tags and branches, the protection rules, and the trace
 * of the writes it has made to the outside world.  Each of its methods is
 * proved equal to a step function on a `World` snapshot; the lemmas at the
 * end state what a whole run does in terms of those functions.
 */
module Propagation {
  import opened Outcomes
  import opened Text
  import opened Versions
  import opened Refs
  import opened Commands
  import opened Protection
  import opened Resolver

  /** A write to the outside world: git, a version-manager command, or a GitHub request. */
  datatype Op =
    | Git(args: seq<string>)
    | Run(command: seq<string>)
    | CreateRule(pattern: string)
    | UpdateRule(id: string, settings: Settings)
    | CreateBranch(ref: string)
    | Merge(ref: string, message: string)
    | ResetDefaultBranch
    | Publish(version: Version)
    | SetTitle(title: string)

  /**
   * What a run is given: the library variant, the `dry`, lerna and protection
   * switches, the base ref, `argv.version` (the version before the bump),
   * the version in the dev branch's manifest, the status GitHub answers a
   * merge into each ref with, and the id it gives a rule created for a pattern.
   */
  datatype Config = Config(
    variant: Variant,
    dry: bool,
    lerna: bool,
    protection: bool,
    baseRef: string,
    start: Version,
    devVersion: Version,
    mergeStatus: string -> int,
    newId: string -> string)

  /** A snapshot of the state a run changes. */
  datatype World = World(version: Version, tags: set<string>, branches: set<string>, rules: seq<Rule>, trace: seq<Op>)

  /** Why `mergeCall` throws. */
  datatype MergeError =
    | AlphaTagMissing(tag: string)
    | MergeFailed(ref: string, status: int)
    | DefaultBranchFailed

  // Names the run gives tags and branches.

  function AlphaTag(v: Version): string { "v" + LooseString(v) + "-alpha" }
  function LooseTag(v: Version): string { "v" + LooseString(v) }
  function MajorTag(v: Version): string { "v" + NatStr(v.major) }
  /** The tag whose presence means a newer minor line was released: `v<M>.<m+1>`. */
  function MajorProbe(v: Version): string { "v" + NatStr(v.major) + "." + NatStr(v.minor + 1) }
  function ReleaseTag(v: Version): string { "v" + VersionString(v) }
  function LtsBranch(v: Version): string { "release/v" + NatStr(v.major) + "/lts" }

  /** The channels whose protection a keyword's propagation suspends. */
  function PushTargets(k: Keyword): seq<string> {
    if k == Prerelease then ["dev"] else ["release", "alpha", "dev"]
  }

  /** The channels a keyword's propagation merges into, in merge order. */
  function MergeTargets(k: Keyword): seq<string> {
    if k == Patch then ["alpha"] else if k == Prerelease then ["dev"] else ["release", "alpha", "dev"]
  }

  function SuspendPatterns(k: Keyword): (ps: seq<string>)
    ensures |ps| == |PushTargets(k)|
  {
    seq(|PushTargets(k)|, i requires 0 <= i < |PushTargets(k)| => PushTargets(k)[i] + "/*/*")
  }

  /** The branches merged into: `<channel>/v<M>/v<M>.<m>` for each target channel. */
  function TargetRefs(k: Keyword, v: Version): (refs: seq<string>)
    ensures |refs| == |MergeTargets(k)|
  {
    seq(|MergeTargets(k)|, i requires 0 <= i < |MergeTargets(k)| => ChannelRef(MergeTargets(k)[i], v))
  }

  /** The version the merged branches go on to: the current one if it is a pre-release, else its prepatch. */
  function NextVersion(v: Version): Version {
    if v.alpha.Some? then v else Inc(v, Prepatch)
  }

  /** The merge commit message; the bundled copy names the current version. */
  function MergeMessage(variant: Variant, ref: string, current: Version): string {
    "Update " + ref + " to work on " + VersionString(if variant == Lib then NextVersion(current) else current)
  }

  // Step functions: what each step of a run does to the snapshot.

  function GitStep(c: Config, w: World, args: seq<string>): World {
    if c.dry then w else w.(trace := w.trace + [Git(args)])
  }

  /** `exec`: a command that is only logged in a dry run. */
  function ExecStep(c: Config, w: World, command: seq<string>): World {
    if c.dry then w else w.(trace := w.trace + [Run(command)])
  }

  /** `publishCall`: the packages are published at the manifest's version, unless the run is dry. */
  function PublishStep(c: Config, w: World): World {
    if c.dry then w else w.(trace := w.trace + [Publish(w.version)])
  }

  function PushTagArgs(from: string, tag: string): seq<string> {
    ["push", "-f", "origin", from + ":refs/tags/" + tag]
  }

  function PushTagStep(c: Config, w: World, from: string, tag: string): World {
    if c.dry then w else w.(tags := w.tags + {tag}, trace := w.trace + [Git(PushTagArgs(from, tag))])
  }

  function PushBranchStep(c: Config, w: World, args: seq<string>, branch: string): World {
    if c.dry then w else w.(branches := w.branches + {branch}, trace := w.trace + [Git(args)])
  }

  /** `bumpCall`: the bump command runs on the manifest's version and moves it on. */
  function BumpStep(c: Config, w: World, k: Increment, message: string, tag: bool): World {
    var w1 := if c.variant == Lib && c.lerna && (k == Patch || k == Prepatch)
              then GitStep(c, w, ["switch", "-C", LernaBumpBranch(w.version), "HEAD"]) else w;
    if c.dry then w1
    else w1.(version := Inc(w.version, k), trace := w1.trace + [Run(BumpCommand(c.variant, c.lerna, w.version, k, message, tag))])
  }

  function CreateOps(patterns: seq<string>): (ops: seq<Op>)
    ensures |ops| == |patterns| && forall i :: 0 <= i < |ops| ==> ops[i] == CreateRule(patterns[i])
  {
    seq(|patterns|, i requires 0 <= i < |patterns| => CreateRule(patterns[i]))
  }

  /** `getBranchProtectionRulesMap`: rules are created for missing patterns, dry run or not. */
  function RulesStep(c: Config, w: World): World {
    var created := MissingProtected(w.rules);
    w.(rules := w.rules + CreatedRules(created, c.newId), trace := w.trace + CreateOps(created))
  }

  /** The suspension updates, one per pattern, up to the first pattern that has no rule. */
  function SuspendOps(nodes: seq<Rule>, patterns: seq<string>): seq<Op> {
    if patterns == [] || patterns[0] !in Patterns(nodes) then []
    else [UpdateRule(LastIdOf(nodes, patterns[0]), SuspendUpdate)] + SuspendOps(nodes, patterns[1..])
  }

  /** The restoring updates, one per pattern of `order`. */
  function EnsureOps(nodes: seq<Rule>, order: seq<string>): seq<Op>
    requires forall p :: p in order ==> p in Patterns(nodes)
  {
    if order == [] then []
    else
      var last := order[|order| - 1];
      EnsureOps(nodes, order[..|order| - 1]) + [UpdateRule(LastIdOf(nodes, last), EnsureUpdate(last))]
  }

  function SuspendStep(c: Config, w: World, patterns: seq<string>): World {
    if !c.protection then w
    else
      var w1 := RulesStep(c, w);
      if c.dry then w1 else w1.(trace := w1.trace + SuspendOps(w1.rules, patterns))
  }

  function EnsureStep(c: Config, w: World): World {
    if !c.protection then w
    else
      var w1 := RulesStep(c, w);
      FirstOccurrencesMembers(Patterns(w1.rules));
      if c.dry then w1 else w1.(trace := w1.trace + EnsureOps(w1.rules, FirstOccurrences(Patterns(w1.rules))))
  }

  /** Merging into each ref in turn; the first status other than 201 or 204 stops the run. */
  function MergeStep(c: Config, w: World, refs: seq<string>, current: Version): (World, Result<(), MergeError>)
    decreases |refs|
  {
    if refs == [] || c.dry then (w, Success(()))
    else
      var ref := refs[0];
      var w1 := if ref in w.branches then w else w.(branches := w.branches + {ref}, trace := w.trace + [CreateBranch(ref)]);
      var w2 := w1.(trace := w1.trace + [Merge(ref, MergeMessage(c.variant, ref, current))]);
      var status := c.mergeStatus(ref);
      if status != 201 && status != 204 then (w2, Failure(MergeFailed(ref, status)))
      else MergeStep(c, w2, refs[1..], current)
  }

  /** The keyword's own pushes, after the alpha tag and before the merges. */
  function PushbackStep(c: Config, w: World, k: Keyword, head: Version): World {
    if k == Premajor then
      PushBranchStep(c, w, ["push", "-f", "origin", "HEAD~1:refs/heads/" + LtsBranch(c.start)], LtsBranch(c.start))
    else if k == Preminor then w
    else if k == Patch then
      var w1 := PushTagStep(c, w, "HEAD", LooseTag(head));
      var w2 := if MajorProbe(head) in w1.tags then w1 else PushTagStep(c, w1, "HEAD", MajorTag(head));
      var w3 := PushTagStep(c, w2, "HEAD", ReleaseTag(head));
      var w4 := PushBranchStep(c, w3, ["push", "-f", "origin", "HEAD:refs/heads/" + c.baseRef], c.baseRef);
      var w5 := BumpStep(c, w4, Prerelease, "", true);
      PushTagStep(c, w5, "HEAD", AlphaTag(w5.version))
    else
      PushTagStep(c, w, "HEAD~1", ReleaseTag(c.start))
  }

  /** The dev channel's own prepatch bump after a release; the checkout returns to the base ref. */
  function DevStep(c: Config, w: World, current: Version): World {
    var dev := ChannelRef("dev", current);
    var w1 := GitStep(c, w, ["fetch"]);
    var w2 := GitStep(c, w1, ["switch", "-c", dev, "origin/" + dev]);
    var w3 := if c.dry then w2 else w2.(version := c.devVersion);
    var w5 :=
      if c.variant == Lib then
        var w4 := BumpStep(c, w3, Prepatch, "auto", false);
        GitStep(c, w4, ["commit", "-a", "-m", "Update " + dev + " to work on " + VersionString(NextVersion(current))])
      else
        var w4 := GitStep(c, w3, ["tag", "-d", "v" + VersionString(current)]);
        BumpStep(c, w4, Prepatch, "Update " + dev + " to work on " + VersionString(current), true);
    var w6 := PushBranchStep(c, w5, ["push", "origin", "HEAD:" + dev], dev);
    var w7 := GitStep(c, w6, ["switch", c.baseRef]);
    if c.dry then w7 else w7.(version := w.version)
  }

  /** Suspension, the alpha tag and the keyword's pushes. */
  function Prelude(c: Config, w: World, k: Keyword): World {
    var w1 := SuspendStep(c, w, SuspendPatterns(k));
    var w2 := PushTagStep(c, w1, "HEAD", AlphaTag(w1.version));
    PushbackStep(c, w2, k, w1.version)
  }

  /**
   * The end of a run: `resetDefaultBranch`.  The library's copy sends its
   * request whether or not the run is dry; the bundled copy always throws.
   */
  function Finish(c: Config, w: World): (World, Result<(), MergeError>) {
    if c.variant == Lib then (w.(trace := w.trace + [ResetDefaultBranch]), Success(()))
    else (w, Failure(DefaultBranchFailed))
  }

  /** A whole `mergeCall` for keyword `k`. */
  function MergeCallSpec(c: Config, w: World, k: Keyword): (World, Result<(), MergeError>) {
    var w3 := Prelude(c, w, k);
    var current := w3.version;
    if AlphaTag(current) !in w3.tags then (w3, Failure(AlphaTagMissing(AlphaTag(current))))
    else
      var (w4, merged) := MergeStep(c, w3, TargetRefs(k, current), current);
      if merged.Failure? then (w4, merged)
      else Completion(c, w4, k, current)
  }

  /** After the merges: the dev step of a release, restoring protection, and the default-branch reset. */
  function Completion(c: Config, w: World, k: Keyword, current: Version): (World, Result<(), MergeError>) {
    var w5 := if k == Patch then DevStep(c, w, current) else w;
    Finish(c, EnsureStep(c, w5))
  }

  lemma SuspendOpsStep(nodes: seq<Rule>, patterns: seq<string>, i: nat)
    requires i < |patterns| && patterns[i] in Patterns(nodes)
    ensures SuspendOps(nodes, patterns[i..]) ==
            [UpdateRule(LastIdOf(nodes, patterns[i]), SuspendUpdate)] + SuspendOps(nodes, patterns[i + 1..])
  {
    assert patterns[i..][1..] == patterns[i + 1..];
  }

  lemma EnsureOpsStep(nodes: seq<Rule>, order: seq<string>, i: nat)
    requires i < |order| && forall p :: p in order ==> p in Patterns(nodes)
    ensures forall p :: p in order[..i] ==> p in Patterns(nodes)
    ensures forall p :: p in order[..i + 1] ==> p in Patterns(nodes)
    ensures EnsureOps(nodes, order[..i + 1]) ==
            EnsureOps(nodes, order[..i]) + [UpdateRule(LastIdOf(nodes, order[i]), EnsureUpdate(order[i]))]
  {
    assert order[..i + 1][..i] == order[..i];
  }

  /** The state of a run of the tool; `version` is the version in the checked-out manifest. */
  class Session {
    const cfg: Config
    var version: Version
    var tags: set<string>
    var branches: set<string>
    var rules: seq<Rule>
    var trace: seq<Op>

    function Snapshot(): World
      reads this
    {
      World(version, tags, branches, rules, trace)
    }

    constructor (cfg: Config, w: World)
      ensures this.cfg == cfg && Snapshot() == w
    {
      this.cfg := cfg;
      version, tags, branches, rules, trace := w.version, w.tags, w.branches, w.rules, w.trace;
    }

    /** `gitCall`: logged only in a dry run. */
    method GitCall(args: seq<string>)
      modifies this
      ensures Snapshot() == GitStep(cfg, old(Snapshot()), args)
    {
      if !cfg.dry {
        trace := trace + [Git(args)];
      }
    }

    method Exec(command: seq<string>)
      modifies this
      ensures Snapshot() == ExecStep(cfg, old(Snapshot()), command)
    {
      if !cfg.dry {
        trace := trace + [Run(command)];
      }
    }

    method PublishPackages()
      modifies this
      ensures Snapshot() == PublishStep(cfg, old(Snapshot()))
    {
      if !cfg.dry {
        trace := trace + [Publish(version)];
      }
    }

    /** The pull-request title mutation, which is sent in a dry run too. */
    method SetPullRequestTitle(title: string)
      modifies this
      ensures Snapshot() == old(Snapshot()).(trace := old(trace) + [SetTitle(title)])
    {
      trace := trace + [SetTitle(title)];
    }

    /** `git push -f origin <from>:refs/tags/<tag>`. */
    method PushTag(from: string, tag: string)
      modifies this
      ensures Snapshot() == PushTagStep(cfg, old(Snapshot()), from, tag)
    {
      if !cfg.dry {
        trace := trace + [Git(PushTagArgs(from, tag))];
        tags := tags + {tag};
      }
    }

    method PushBranch(args: seq<string>, branch: string)
      modifies this
      ensures Snapshot() == PushBranchStep(cfg, old(Snapshot()), args, branch)
    {
      if !cfg.dry {
        trace := trace + [Git(args)];
        branches := branches + {branch};
      }
    }

    /** `bumpCall(argv, k, message, tag)`. */
    method BumpCall(k: Increment, message: string, tag: bool)
      modifies this
      ensures Snapshot() == BumpStep(cfg, old(Snapshot()), k, message, tag)
    {
      var v := version;
      if cfg.variant == Lib && cfg.lerna && (k == Patch || k == Prepatch) {
        GitCall(["switch", "-C", LernaBumpBranch(v), "HEAD"]);
      }
      if !cfg.dry {
        trace := trace + [Run(BumpCommand(cfg.variant, cfg.lerna, v, k, message, tag))];
        version := Inc(v, k);
      }
    }

    /** `getBranchProtectionRulesMap`, creating the missing rules. */
    method LoadRules() returns (order: seq<string>, ids: map<string, string>)
      modifies this
      ensures Snapshot() == RulesStep(cfg, old(Snapshot()))
      ensures order == FirstOccurrences(Patterns(rules))
      ensures forall p :: p in ids <==> p in order
      ensures forall p :: p in order ==> p in Patterns(rules) && ids[p] == LastIdOf(rules, p)
    {
      var created;
      order, ids, created := Protection.RulesMap(rules, cfg.newId);
      trace := trace + CreateOps(created);
      rules := rules + CreatedRules(created, cfg.newId);
    }

    /** `suspendBranchesProtection(argv, patterns)`. */
    method Suspend(patterns: seq<string>)
      modifies this
      ensures Snapshot() == SuspendStep(cfg, old(Snapshot()), patterns)
    {
      if !cfg.protection {
        return;
      }
      var order, ids := LoadRules();
      if !cfg.dry {
        FirstOccurrencesMembers(Patterns(rules));
        SendSuspensions(ids, patterns);
      }
    }

    /** The loop of `suspendBranchesProtection`; a pattern without a rule makes the request fail. */
    method SendSuspensions(ids: map<string, string>, patterns: seq<string>)
      requires forall p :: p in ids <==> p in Patterns(rules)
      requires forall p :: p in ids ==> p in Patterns(rules) && ids[p] == LastIdOf(rules, p)
      modifies this
      ensures Snapshot() == old(Snapshot()).(trace := old(trace) + SuspendOps(old(rules), patterns))
    {
      ghost var done: seq<Op> := [];
      var i := 0;
      while i < |patterns|
        invariant 0 <= i <= |patterns|
        invariant version == old(version) && tags == old(tags) && branches == old(branches) && rules == old(rules)
        invariant trace == old(trace) + done
        invariant done + SuspendOps(rules, patterns[i..]) == SuspendOps(rules, patterns)
      {
        var pattern := patterns[i];
        if pattern !in ids {
          assert SuspendOps(rules, patterns[i..]) == [];
          assert done == SuspendOps(rules, patterns);
          return;
        }
        var op := UpdateRule(ids[pattern], SuspendUpdate);
        SuspendOpsStep(rules, patterns, i);
        assert done + SuspendOps(rules, patterns[i..]) == (done + [op]) + SuspendOps(rules, patterns[i + 1..]);
        trace := trace + [op];
        done := done + [op];
        i := i + 1;
      }
    }

    /** `ensureBranchesProtection`: every rule of the map is restored, in key order. */
    method Ensure()
      modifies this
      ensures Snapshot() == EnsureStep(cfg, old(Snapshot()))
    {
      if !cfg.protection {
        return;
      }
      var order, ids := LoadRules();
      FirstOccurrencesMembers(Patterns(rules));
      if !cfg.dry {
        SendEnsures(order, ids);
      }
    }

    /** The loop of `ensureBranchesProtection`. */
    method SendEnsures(order: seq<string>, ids: map<string, string>)
      requires forall p :: p in order ==> p in Patterns(rules) && p in ids && ids[p] == LastIdOf(rules, p)
      modifies this
      ensures Snapshot() == old(Snapshot()).(trace := old(trace) + EnsureOps(old(rules), order))
    {
      var i := 0;
      while i < |order|
        invariant 0 <= i <= |order|
        invariant version == old(version) && tags == old(tags) && branches == old(branches) && rules == old(rules)
        invariant trace == old(trace) + EnsureOps(rules, order[..i])
      {
        var pattern := order[i];
        EnsureOpsStep(rules, order, i);
        trace := trace + [UpdateRule(ids[pattern], EnsureUpdate(pattern))];
        i := i + 1;
      }
      assert order[..|order|] == order;
    }

    /** The merge loop of `mergeCall`: `mergeRemoteChannel` for each ref in order. */
    method MergeChannels(refs: seq<string>, current: Version) returns (r: Result<(), MergeError>)
      modifies this
      ensures (Snapshot(), r) == MergeStep(cfg, old(Snapshot()), refs, current)
    {
      var i := 0;
      while i < |refs|
        invariant 0 <= i <= |refs|
        invariant MergeStep(cfg, Snapshot(), refs[i..], current) == MergeStep(cfg, old(Snapshot()), refs, current)
      {
        var ref := refs[i];
        assert refs[i..][1..] == refs[i + 1..];
        if !cfg.dry {
          if ref !in branches {
            trace := trace + [CreateBranch(ref)];
            branches := branches + {ref};
          }
          trace := trace + [Merge(ref, MergeMessage(cfg.variant, ref, current))];
          var status := cfg.mergeStatus(ref);
          if status != 201 && status != 204 {
            return Failure(MergeFailed(ref, status));
          }
        }
        i := i + 1;
      }
      r := Success(());
    }

    /** The keyword's pushes (`pushVersionTags[keyword]`). */
    method Pushback(k: Keyword, head: Version)
      modifies this
      ensures Snapshot() == PushbackStep(cfg, old(Snapshot()), k, head)
    {
      if k == Premajor {
        PushBranch(["push", "-f", "origin", "HEAD~1:refs/heads/" + LtsBranch(cfg.start)], LtsBranch(cfg.start));
      } else if k == Patch {
        PushTag("HEAD", LooseTag(head));
        if MajorProbe(head) !in tags {
          PushTag("HEAD", MajorTag(head));
        }
        PushTag("HEAD", ReleaseTag(head));
        PushBranch(["push", "-f", "origin", "HEAD:refs/heads/" + cfg.baseRef], cfg.baseRef);
        BumpCall(Prerelease, "", true);
        PushTag("HEAD", AlphaTag(version));
      } else if k == Prerelease {
        PushTag("HEAD~1", ReleaseTag(cfg.start));
      }
    }

    /** The dev-branch step that follows a release merge. */
    method DevBranch(current: Version)
      modifies this
      ensures Snapshot() == DevStep(cfg, old(Snapshot()), current)
    {
      var home := version;
      var dev := ChannelRef("dev", current);
      GitCall(["fetch"]);
      GitCall(["switch", "-c", dev, "origin/" + dev]);
      if !cfg.dry {
        version := cfg.devVersion;
      }
      if cfg.variant == Lib {
        BumpCall(Prepatch, "auto", false);
        GitCall(["commit", "-a", "-m", "Update " + dev + " to work on " + VersionString(NextVersion(current))]);
      } else {
        GitCall(["tag", "-d", "v" + VersionString(current)]);
        BumpCall(Prepatch, "Update " + dev + " to work on " + VersionString(current), true);
      }
      PushBranch(["push", "origin", "HEAD:" + dev], dev);
      GitCall(["switch", cfg.baseRef]);
      if !cfg.dry {
        version := home;
      }
    }

    /** `mergeCall(argv, k)`. */
    method MergeCall(k: Keyword) returns (r: Result<(), MergeError>)
      modifies this
      ensures (Snapshot(), r) == MergeCallSpec(cfg, old(Snapshot()), k)
    {
      Suspend(SuspendPatterns(k));
      var head := version;
      PushTag("HEAD", AlphaTag(head));
      Pushback(k, head);
      var current := version;
      if AlphaTag(current) !in tags {
        return Failure(AlphaTagMissing(AlphaTag(current)));
      }
      r := MergeChannels(TargetRefs(k, current), current);
      if r.Failure? {
        return;
      }
      if k == Patch {
        DevBranch(current);
      }
      Ensure();
      if cfg.variant == Lib {
        trace := trace + [ResetDefaultBranch];
        r := Success(());
      } else {
        r := Failure(DefaultBranchFailed);
      }
    }
  }

  // What a run writes.

  /** The writes a step made, when it only appended to the trace. */
  function Added(w: World, w': World): seq<Op>
    requires w.trace <= w'.trace
  {
    w'.trace[|w.trace|..]
  }

  /** A write that restores protection: a rule update other than the suspension. */
  predicate Restoring(op: Op) {
    op.UpdateRule? && op.settings != SuspendUpdate
  }

  /** A step that appends writes, none of them a merge, a restore or the default-branch reset. */
  ghost predicate Plain(w: World, w': World) {
    w.trace <= w'.trace &&
    forall op :: op in Added(w, w') ==> !op.Merge? && !Restoring(op) && !op.ResetDefaultBranch?
  }

  /** A step whose only writes are rule creations. */
  ghost predicate Quiet(w: World, w': World) {
    w.trace <= w'.trace && forall op :: op in Added(w, w') ==> op.CreateRule?
  }

  lemma AddedTrans(w1: World, w2: World, w3: World)
    requires w1.trace <= w2.trace <= w3.trace
    ensures w1.trace <= w3.trace && Added(w1, w3) == Added(w1, w2) + Added(w2, w3)
  {
  }

  lemma PlainTrans(w1: World, w2: World, w3: World)
    requires Plain(w1, w2) && Plain(w2, w3)
    ensures Plain(w1, w3)
  {
    AddedTrans(w1, w2, w3);
  }

  lemma QuietTrans(w1: World, w2: World, w3: World)
    requires Quiet(w1, w2) && Quiet(w2, w3)
    ensures Quiet(w1, w3)
  {
    AddedTrans(w1, w2, w3);
  }

  lemma GitStepPlain(c: Config, w: World, args: seq<string>)
    ensures Plain(w, GitStep(c, w, args))
    ensures c.dry ==> GitStep(c, w, args) == w
  {
    assert Added(w, GitStep(c, w, args)) == if c.dry then [] else [Git(args)];
  }

  lemma PushTagStepPlain(c: Config, w: World, from: string, tag: string)
    ensures Plain(w, PushTagStep(c, w, from, tag))
    ensures c.dry ==> PushTagStep(c, w, from, tag) == w
  {
    assert Added(w, PushTagStep(c, w, from, tag)) == if c.dry then [] else [Git(PushTagArgs(from, tag))];
  }

  lemma PushBranchStepPlain(c: Config, w: World, args: seq<string>, branch: string)
    ensures Plain(w, PushBranchStep(c, w, args, branch))
    ensures c.dry ==> PushBranchStep(c, w, args, branch) == w
  {
    assert Added(w, PushBranchStep(c, w, args, branch)) == if c.dry then [] else [Git(args)];
  }

  lemma BumpStepPlain(c: Config, w: World, k: Increment, message: string, tag: bool)
    ensures Plain(w, BumpStep(c, w, k, message, tag))
    ensures c.dry ==> BumpStep(c, w, k, message, tag) == w
    ensures !c.dry ==> BumpStep(c, w, k, message, tag).version == Inc(w.version, k)
    ensures BumpStep(c, w, k, message, tag).tags == w.tags
  {
    var w1 := if c.variant == Lib && c.lerna && (k == Patch || k == Prepatch)
              then GitStep(c, w, ["switch", "-C", LernaBumpBranch(w.version), "HEAD"]) else w;
    GitStepPlain(c, w, ["switch", "-C", LernaBumpBranch(w.version), "HEAD"]);
    var w2 := BumpStep(c, w, k, message, tag);
    if !c.dry {
      assert Added(w1, w2) == [Run(BumpCommand(c.variant, c.lerna, w.version, k, message, tag))];
      PlainTrans(w, w1, w2);
    }
  }

  /** Creating the missing rules writes only rule creations, and afterwards every protected pattern has a rule. */
  lemma RulesStepQuiet(c: Config, w: World)
    ensures Quiet(w, RulesStep(c, w)) && Plain(w, RulesStep(c, w))
    ensures forall p :: p in ProtectedPatterns ==> p in Patterns(RulesStep(c, w).rules)
    ensures RulesStep(c, w).version == w.version && RulesStep(c, w).tags == w.tags
  {
    var created := MissingProtected(w.rules);
    assert Added(w, RulesStep(c, w)) == CreateOps(created);
    CreationCompletes(w.rules, c.newId);
  }

  lemma {:induction false} SuspendOpsAreSuspensions(nodes: seq<Rule>, patterns: seq<string>)
    ensures forall op :: op in SuspendOps(nodes, patterns) ==> op.UpdateRule? && op.settings == SuspendUpdate
  {
    if patterns != [] && patterns[0] in Patterns(nodes) {
      SuspendOpsAreSuspensions(nodes, patterns[1..]);
    }
  }

  /** When every pattern has a rule, each one gets its suspension update, in order. */
  lemma {:induction false} SuspendOpsComplete(nodes: seq<Rule>, patterns: seq<string>)
    requires forall p :: p in patterns ==> p in Patterns(nodes)
    ensures |SuspendOps(nodes, patterns)| == |patterns|
    ensures forall i :: 0 <= i < |patterns| ==> SuspendOps(nodes, patterns)[i] == UpdateRule(LastIdOf(nodes, patterns[i]), SuspendUpdate)
  {
    if patterns != [] {
      SuspendOpsComplete(nodes, patterns[1..]);
    }
  }

  lemma SuspendStepPlain(c: Config, w: World, patterns: seq<string>)
    ensures Plain(w, SuspendStep(c, w, patterns))
    ensures c.dry ==> Quiet(w, SuspendStep(c, w, patterns))
    ensures SuspendStep(c, w, patterns).version == w.version && SuspendStep(c, w, patterns).tags == w.tags
  {
    if c.protection {
      var w1 := RulesStep(c, w);
      RulesStepQuiet(c, w);
      if !c.dry {
        var w2 := SuspendStep(c, w, patterns);
        assert Added(w1, w2) == SuspendOps(w1.rules, patterns);
        SuspendOpsAreSuspensions(w1.rules, patterns);
        PlainTrans(w, w1, w2);
      }
    }
  }

  /** The suspended patterns of each keyword, written out. */
  lemma SuspendPatternsTable(k: Keyword)
    ensures SuspendPatterns(k) == if k == Prerelease then ["dev/*/*"] else ["release/*/*", "alpha/*/*", "dev/*/*"]
  {
    var ps := SuspendPatterns(k);
    assert "dev" + "/*/*" == "dev/*/*" && "alpha" + "/*/*" == "alpha/*/*" && "release" + "/*/*" == "release/*/*";
    if k == Prerelease {
      assert ps[0] == "dev/*/*";
    } else {
      assert ps[0] == "release/*/*" && ps[1] == "alpha/*/*" && ps[2] == "dev/*/*";
    }
  }

  /**
   * The suspension of a run: the branch patterns of the release, alpha and
   * dev channels, or of dev alone before a pre-release; once the rules are loaded each of
   * these patterns has a rule, and each gets its suspension update, in order.
   */
  lemma SuspendStepUpdates(c: Config, w: World, k: Keyword)
    requires c.protection && !c.dry
    ensures SuspendPatterns(k) == if k == Prerelease then ["dev/*/*"] else ["release/*/*", "alpha/*/*", "dev/*/*"]
    ensures var w1 := RulesStep(c, w);
            var ps := SuspendPatterns(k);
            var w2 := SuspendStep(c, w, ps);
            && (forall p :: p in ps ==> p in Patterns(w1.rules))
            && w1.trace <= w2.trace
            && |Added(w1, w2)| == |ps|
            && forall i :: 0 <= i < |ps| ==> Added(w1, w2)[i] == UpdateRule(LastIdOf(w1.rules, ps[i]), SuspendUpdate)
  {
    var ps := SuspendPatterns(k);
    SuspendPatternsTable(k);
    var w1 := RulesStep(c, w);
    RulesStepQuiet(c, w);
    assert forall p :: p in ps ==> p in ProtectedPatterns;
    SuspendOpsComplete(w1.rules, ps);
    assert Added(w1, SuspendStep(c, w, ps)) == SuspendOps(w1.rules, ps);
  }

  /** The keyword's pushes write nothing else; after a patch release the manifest holds the next alpha, tagged. */
  lemma PushbackStepPlain(c: Config, w: World, k: Keyword, head: Version)
    ensures Plain(w, PushbackStep(c, w, k, head))
    ensures c.dry ==> PushbackStep(c, w, k, head) == w
    ensures w.tags <= PushbackStep(c, w, k, head).tags
    ensures PushbackStep(c, w, k, head).version == if k == Patch && !c.dry then Inc(w.version, Prerelease) else w.version
    ensures k == Patch && !c.dry ==> AlphaTag(Inc(w.version, Prerelease)) in PushbackStep(c, w, k, head).tags
  {
    if k == Premajor {
      PushBranchStepPlain(c, w, ["push", "-f", "origin", "HEAD~1:refs/heads/" + LtsBranch(c.start)], LtsBranch(c.start));
    } else if k == Patch {
      var w1 := PushTagStep(c, w, "HEAD", LooseTag(head));
      PushTagStepPlain(c, w, "HEAD", LooseTag(head));
      var w2 := if MajorProbe(head) in w1.tags then w1 else PushTagStep(c, w1, "HEAD", MajorTag(head));
      PushTagStepPlain(c, w1, "HEAD", MajorTag(head));
      PlainTrans(w, w1, w2);
      var w3 := PushTagStep(c, w2, "HEAD", ReleaseTag(head));
      PushTagStepPlain(c, w2, "HEAD", ReleaseTag(head));
      PlainTrans(w, w2, w3);
      var w4 := PushBranchStep(c, w3, ["push", "-f", "origin", "HEAD:refs/heads/" + c.baseRef], c.baseRef);
      PushBranchStepPlain(c, w3, ["push", "-f", "origin", "HEAD:refs/heads/" + c.baseRef], c.baseRef);
      PlainTrans(w, w3, w4);
      var w5 := BumpStep(c, w4, Prerelease, "", true);
      BumpStepPlain(c, w4, Prerelease, "", true);
      PlainTrans(w, w4, w5);
      PushTagStepPlain(c, w5, "HEAD", AlphaTag(w5.version));
      PlainTrans(w, w5, PushbackStep(c, w, k, head));
    } else if k == Prerelease {
      PushTagStepPlain(c, w, "HEAD~1", ReleaseTag(c.start));
    }
  }

  /** Equal texts after a common prefix are equal. */
  lemma SamePrefixTail(p: string, x: string, y: string)
    requires p + x == p + y
    ensures x == y
  {
    assert x == (p + x)[|p|..];
    assert y == (p + y)[|p|..];
  }

  /** The major tag `v<M>` is none of the other tags a patch release pushes. */
  lemma MajorTagIsDistinct(head: Version, v: Version)
    ensures MajorTag(head) != LooseTag(head) && MajorTag(head) != ReleaseTag(head) && MajorTag(head) != AlphaTag(v)
    ensures MajorProbe(head) != LooseTag(head)
  {
    var m := MajorTag(head);
    assert forall i :: 1 <= i < |m| ==> IsDigit(m[i]);
    var a := AlphaTag(v);
    var dot := 1 + |NatStr(v.major)|;
    assert a[dot] == '.';
    if |a| == |m| {
      assert a != m by { assert !IsDigit(a[dot]); }
    }
    if MajorProbe(head) == LooseTag(head) {
      SamePrefixTail("v" + NatStr(head.major) + ".", NatStr(head.minor + 1), NatStr(head.minor));
      NatStrInjective(head.minor + 1, head.minor);
    }
  }

  lemma PushTagArgsInjective(from: string, t1: string, t2: string)
    requires PushTagArgs(from, t1) == PushTagArgs(from, t2)
    ensures t1 == t2
  {
    assert from + ":refs/tags/" + t1 == PushTagArgs(from, t1)[3];
    assert from + ":refs/tags/" + t2 == PushTagArgs(from, t2)[3];
    SamePrefixTail(from + ":refs/tags/", t1, t2);
  }

  lemma BranchPushIsNotTagPush(branch: string, tag: string)
    ensures ["push", "-f", "origin", "HEAD:refs/heads/" + branch] != PushTagArgs("HEAD", tag)
  {
    assert ("HEAD:refs/heads/" + branch)[10] == 'h';
    assert ("HEAD:refs/tags/" + tag)[10] == 't';
  }

  /** The pushes of a patch release after the major tag: release tag, base branch, bump, next alpha tag. */
  function PatchTail(c: Config, w: World, head: Version): World {
    var w3 := PushTagStep(c, w, "HEAD", ReleaseTag(head));
    var w4 := PushBranchStep(c, w3, ["push", "-f", "origin", "HEAD:refs/heads/" + c.baseRef], c.baseRef);
    var w5 := BumpStep(c, w4, Prerelease, "", true);
    PushTagStep(c, w5, "HEAD", AlphaTag(w5.version))
  }

  lemma PatchTailAdded(c: Config, w: World, head: Version)
    requires !c.dry
    ensures var w' := PatchTail(c, w, head);
            && w.trace <= w'.trace
            && Added(w, w') ==
                 [Git(PushTagArgs("HEAD", ReleaseTag(head))),
                  Git(["push", "-f", "origin", "HEAD:refs/heads/" + c.baseRef]),
                  Run(BumpCommand(c.variant, c.lerna, w.version, Prerelease, "", true)),
                  Git(PushTagArgs("HEAD", AlphaTag(Inc(w.version, Prerelease))))]
  {
  }

  lemma MajorTagNotInTail(c: Config, w: World, head: Version)
    requires !c.dry
    ensures w.trace <= PatchTail(c, w, head).trace
    ensures Git(PushTagArgs("HEAD", MajorTag(head))) !in Added(w, PatchTail(c, w, head))
  {
    var major := Git(PushTagArgs("HEAD", MajorTag(head)));
    PatchTailAdded(c, w, head);
    var alpha := AlphaTag(Inc(w.version, Prerelease));
    MajorTagIsDistinct(head, Inc(w.version, Prerelease));
    BranchPushIsNotTagPush(c.baseRef, MajorTag(head));
    if major == Git(PushTagArgs("HEAD", ReleaseTag(head))) {
      PushTagArgsInjective("HEAD", MajorTag(head), ReleaseTag(head));
    }
    if major == Git(PushTagArgs("HEAD", alpha)) {
      PushTagArgsInjective("HEAD", MajorTag(head), alpha);
    }
  }

  /**
   * A patch release pushes the major tag `v<M>` exactly when the remote has
   * no tag `v<M>.<m+1>`, that is, when no newer minor line has been released.
   */
  lemma MajorTagPushedIff(c: Config, w: World, head: Version)
    requires !c.dry
    ensures var w' := PushbackStep(c, w, Patch, head);
            && w.trace <= w'.trace
            && (Git(PushTagArgs("HEAD", MajorTag(head))) in Added(w, w') <==> MajorProbe(head) !in w.tags)
  {
    var major := Git(PushTagArgs("HEAD", MajorTag(head)));
    MajorTagIsDistinct(head, head);
    var w1 := PushTagStep(c, w, "HEAD", LooseTag(head));
    var w2 := if MajorProbe(head) in w1.tags then w1 else PushTagStep(c, w1, "HEAD", MajorTag(head));
    var w' := PatchTail(c, w2, head);
    assert w' == PushbackStep(c, w, Patch, head);
    assert Added(w, w2) == [Git(PushTagArgs("HEAD", LooseTag(head)))] + (if MajorProbe(head) in w.tags then [] else [major]);
    if major == Git(PushTagArgs("HEAD", LooseTag(head))) {
      PushTagArgsInjective("HEAD", MajorTag(head), LooseTag(head));
    }
    assert major in Added(w, w2) <==> MajorProbe(head) !in w.tags;
    MajorTagNotInTail(c, w2, head);
    AddedTrans(w, w2, w');
    assert major in Added(w, w') <==> major in Added(w, w2) || major in Added(w2, w');
  }

  /** The dev step writes nothing else and leaves the release checkout and the remote tags as they were. */
  lemma DevStepPlain(c: Config, w: World, current: Version)
    ensures Plain(w, DevStep(c, w, current))
    ensures c.dry ==> DevStep(c, w, current) == w
    ensures DevStep(c, w, current).version == w.version && DevStep(c, w, current).tags == w.tags
  {
    var dev := ChannelRef("dev", current);
    var w1 := GitStep(c, w, ["fetch"]);
    GitStepPlain(c, w, ["fetch"]);
    var w2 := GitStep(c, w1, ["switch", "-c", dev, "origin/" + dev]);
    GitStepPlain(c, w1, ["switch", "-c", dev, "origin/" + dev]);
    PlainTrans(w, w1, w2);
    var w3 := if c.dry then w2 else w2.(version := c.devVersion);
    assert Added(w2, w3) == [];
    PlainTrans(w, w2, w3);
    var w5;
    if c.variant == Lib {
      var w4 := BumpStep(c, w3, Prepatch, "auto", false);
      BumpStepPlain(c, w3, Prepatch, "auto", false);
      PlainTrans(w, w3, w4);
      w5 := GitStep(c, w4, ["commit", "-a", "-m", "Update " + dev + " to work on " + VersionString(NextVersion(current))]);
      GitStepPlain(c, w4, ["commit", "-a", "-m", "Update " + dev + " to work on " + VersionString(NextVersion(current))]);
      PlainTrans(w, w4, w5);
    } else {
      var w4 := GitStep(c, w3, ["tag", "-d", "v" + VersionString(current)]);
      GitStepPlain(c, w3, ["tag", "-d", "v" + VersionString(current)]);
      PlainTrans(w, w3, w4);
      w5 := BumpStep(c, w4, Prepatch, "Update " + dev + " to work on " + VersionString(current), true);
      BumpStepPlain(c, w4, Prepatch, "Update " + dev + " to work on " + VersionString(current), true);
      PlainTrans(w, w4, w5);
    }
    var w6 := PushBranchStep(c, w5, ["push", "origin", "HEAD:" + dev], dev);
    PushBranchStepPlain(c, w5, ["push", "origin", "HEAD:" + dev], dev);
    PlainTrans(w, w5, w6);
    var w7 := GitStep(c, w6, ["switch", c.baseRef]);
    GitStepPlain(c, w6, ["switch", c.baseRef]);
    PlainTrans(w, w6, w7);
    var w8 := if c.dry then w7 else w7.(version := w.version);
    assert Added(w7, w8) == [];
    PlainTrans(w, w7, w8);
  }

  /**
   * Suspension, the alpha tag and the keyword's pushes: no merge or restore
   * yet; a dry run writes only rule creations and changes neither the
   * manifest nor the tags; otherwise the alpha tag of the version to merge is
   * on the remote.
   */
  lemma PreludePlain(c: Config, w: World, k: Keyword)
    ensures Plain(w, Prelude(c, w, k))
    ensures c.dry ==> Quiet(w, Prelude(c, w, k)) && Prelude(c, w, k).version == w.version && Prelude(c, w, k).tags == w.tags
    ensures !c.dry ==> Prelude(c, w, k).version == (if k == Patch then Inc(w.version, Prerelease) else w.version)
    ensures !c.dry ==> AlphaTag(Prelude(c, w, k).version) in Prelude(c, w, k).tags
  {
    var w1 := SuspendStep(c, w, SuspendPatterns(k));
    SuspendStepPlain(c, w, SuspendPatterns(k));
    var w2 := PushTagStep(c, w1, "HEAD", AlphaTag(w1.version));
    PushTagStepPlain(c, w1, "HEAD", AlphaTag(w1.version));
    PlainTrans(w, w1, w2);
    var w3 := PushbackStep(c, w2, k, w1.version);
    PushbackStepPlain(c, w2, k, w1.version);
    PlainTrans(w, w2, w3);
    if c.dry {
      assert w3 == w2 == w1;
    }
  }

  /** The merge writes of a trace, in order. */
  function Merges(ops: seq<Op>): (ms: seq<Op>)
    ensures forall op :: op in ms ==> op in ops && op.Merge?
  {
    if ops == [] then []
    else (if ops[0].Merge? then [ops[0]] else []) + Merges(ops[1..])
  }

  lemma {:induction false} MergesAppend(a: seq<Op>, b: seq<Op>)
    ensures Merges(a + b) == Merges(a) + Merges(b)
  {
    if a == [] {
      assert a + b == b;
    } else {
      assert (a + b)[1..] == a[1..] + b;
      MergesAppend(a[1..], b);
    }
  }

  lemma {:induction false} MergesNone(ops: seq<Op>)
    requires forall op :: op in ops ==> !op.Merge?
    ensures Merges(ops) == []
  {
    if ops != [] {
      MergesNone(ops[1..]);
    }
  }

  /** The merges of `refs` in order, each with its commit message. */
  function MergeOpsFor(variant: Variant, refs: seq<string>, current: Version): (ops: seq<Op>)
    ensures |ops| == |refs|
  {
    seq(|refs|, i requires 0 <= i < |refs| => Merge(refs[i], MergeMessage(variant, refs[i], current)))
  }

  predicate MergeAccepted(status: int) { status == 201 || status == 204 }

  /** The first merge of the loop, with the branch creation before it when the branch is missing. */
  function MergeHead(c: Config, w: World, ref: string, current: Version): World {
    var w1 := if ref in w.branches then w else w.(branches := w.branches + {ref}, trace := w.trace + [CreateBranch(ref)]);
    w1.(trace := w1.trace + [Merge(ref, MergeMessage(c.variant, ref, current))])
  }

  lemma MergeStepUnfold(c: Config, w: World, refs: seq<string>, current: Version)
    requires refs != [] && !c.dry
    ensures MergeStep(c, w, refs, current) ==
            var w2 := MergeHead(c, w, refs[0], current);
            var status := c.mergeStatus(refs[0]);
            if !MergeAccepted(status) then (w2, Failure(MergeFailed(refs[0], status)))
            else MergeStep(c, w2, refs[1..], current)
  {
  }

  lemma MergeHeadAdded(c: Config, w: World, ref: string, current: Version)
    ensures w.trace <= MergeHead(c, w, ref, current).trace
    ensures Added(w, MergeHead(c, w, ref, current)) ==
            (if ref in w.branches then [] else [CreateBranch(ref)]) + [Merge(ref, MergeMessage(c.variant, ref, current))]
    ensures var w2 := MergeHead(c, w, ref, current); w2.version == w.version && w2.tags == w.tags && w2.rules == w.rules
  {
  }

  /**
   * The merge loop writes only branch creations and merges, and changes
   * neither the manifest, the tags nor the rules; a dry run writes nothing.
   */
  lemma {:induction false} MergeStepShape(c: Config, w: World, refs: seq<string>, current: Version)
    ensures var w' := MergeStep(c, w, refs, current).0;
            && w.trace <= w'.trace
            && w'.version == w.version && w'.tags == w.tags && w'.rules == w.rules
            && (forall op :: op in Added(w, w') ==> op.Merge? || op.CreateBranch?)
            && (c.dry ==> w' == w)
    decreases |refs|
  {
    if refs != [] && !c.dry {
      MergeStepUnfold(c, w, refs, current);
      var w2 := MergeHead(c, w, refs[0], current);
      MergeHeadAdded(c, w, refs[0], current);
      if MergeAccepted(c.mergeStatus(refs[0])) {
        MergeStepShape(c, w2, refs[1..], current);
        AddedTrans(w, w2, MergeStep(c, w2, refs[1..], current).0);
      }
    }
  }

  /** The merge loop succeeds exactly when every merge is accepted; otherwise it reports a refused merge. */
  lemma {:induction false} MergeStepResult(c: Config, w: World, refs: seq<string>, current: Version)
    ensures var r := MergeStep(c, w, refs, current).1;
            && (r.Success? <==> c.dry || forall i :: 0 <= i < |refs| ==> MergeAccepted(c.mergeStatus(refs[i])))
            && (r.Failure? ==> r.error.MergeFailed?)
    decreases |refs|
  {
    if refs != [] && !c.dry {
      MergeStepUnfold(c, w, refs, current);
      var w2 := MergeHead(c, w, refs[0], current);
      if MergeAccepted(c.mergeStatus(refs[0])) {
        MergeStepResult(c, w2, refs[1..], current);
        assert forall i :: 1 <= i < |refs| ==> refs[i] == refs[1..][i - 1];
      }
    }
  }

  /** A merge loop that succeeds merged into every ref, in order, with its message. */
  lemma {:induction false} MergeStepMerges(c: Config, w: World, refs: seq<string>, current: Version)
    requires !c.dry && MergeStep(c, w, refs, current).1.Success?
    ensures w.trace <= MergeStep(c, w, refs, current).0.trace
    ensures Merges(Added(w, MergeStep(c, w, refs, current).0)) == MergeOpsFor(c.variant, refs, current)
    decreases |refs|
  {
    MergeStepShape(c, w, refs, current);
    if refs == [] {
      assert Added(w, w) == [];
    } else {
      MergeStepUnfold(c, w, refs, current);
      var w2 := MergeHead(c, w, refs[0], current);
      MergeHeadAdded(c, w, refs[0], current);
      var op := Merge(refs[0], MergeMessage(c.variant, refs[0], current));
      MergeHeadMerges(c, w, refs[0], current);
      var w' := MergeStep(c, w2, refs[1..], current).0;
      MergeStepMerges(c, w2, refs[1..], current);
      AddedTrans(w, w2, w');
      MergesAppend(Added(w, w2), Added(w2, w'));
      MergeOpsForCons(c.variant, refs, current);
    }
  }

  lemma MergeHeadMerges(c: Config, w: World, ref: string, current: Version)
    ensures w.trace <= MergeHead(c, w, ref, current).trace
    ensures Merges(Added(w, MergeHead(c, w, ref, current))) == [Merge(ref, MergeMessage(c.variant, ref, current))]
  {
    MergeHeadAdded(c, w, ref, current);
    var op := Merge(ref, MergeMessage(c.variant, ref, current));
    if ref !in w.branches {
      MergesAppend([CreateBranch(ref)], [op]);
    }
  }

  lemma MergeOpsForCons(variant: Variant, refs: seq<string>, current: Version)
    requires refs != []
    ensures MergeOpsFor(variant, refs, current) ==
            [Merge(refs[0], MergeMessage(variant, refs[0], current))] + MergeOpsFor(variant, refs[1..], current)
  {
  }

  lemma {:induction false} EnsureOpsShape(nodes: seq<Rule>, order: seq<string>)
    requires forall p :: p in order ==> p in Patterns(nodes)
    ensures |EnsureOps(nodes, order)| == |order|
    ensures forall i :: 0 <= i < |order| ==> EnsureOps(nodes, order)[i] == UpdateRule(LastIdOf(nodes, order[i]), EnsureUpdate(order[i]))
  {
    if order != [] {
      EnsureOpsShape(nodes, order[..|order| - 1]);
    }
  }

  /**
   * Restoring protection writes rule creations and restoring updates only;
   * when protection is on and the run is not dry, every protected pattern
   * gets its restoring update.
   */
  lemma EnsureStepFacts(c: Config, w: World)
    ensures var w' := EnsureStep(c, w);
            && w.trace <= w'.trace
            && w'.version == w.version && w'.tags == w.tags
            && (forall op :: op in Added(w, w') ==> op.CreateRule? || op.UpdateRule?)
            && (c.dry ==> Quiet(w, w'))
            && (c.protection && !c.dry ==> forall p :: p in ProtectedPatterns ==>
                  p in Patterns(w'.rules) && UpdateRule(LastIdOf(w'.rules, p), EnsureUpdate(p)) in Added(w, w'))
  {
    if c.protection {
      var w1 := RulesStep(c, w);
      RulesStepQuiet(c, w);
      if !c.dry {
        var w' := EnsureStep(c, w);
        var order := FirstOccurrences(Patterns(w1.rules));
        FirstOccurrencesMembers(Patterns(w1.rules));
        assert Added(w1, w') == EnsureOps(w1.rules, order);
        EnsureOpsShape(w1.rules, order);
        AddedTrans(w, w1, w');
        forall p | p in ProtectedPatterns
          ensures UpdateRule(LastIdOf(w'.rules, p), EnsureUpdate(p)) in Added(w, w')
        {
          var i :| 0 <= i < |order| && order[i] == p;
          assert Added(w1, w')[i] == UpdateRule(LastIdOf(w1.rules, p), EnsureUpdate(p));
        }
      }
    }
  }

  /** The part after the merges that precedes the reset: the dev step of a release, then restoring protection. */
  function Restored(c: Config, w: World, k: Keyword, current: Version): World {
    EnsureStep(c, if k == Patch then DevStep(c, w, current) else w)
  }

  lemma RestoredFacts(c: Config, w: World, k: Keyword, current: Version)
    ensures var w6 := Restored(c, w, k, current);
            && w.trace <= w6.trace
            && w6.version == w.version && w6.tags == w.tags
            && (forall op :: op in Added(w, w6) ==> !op.Merge? && !op.ResetDefaultBranch?)
            && (c.dry ==> forall op :: op in Added(w, w6) ==> op.CreateRule?)
            && (c.protection && !c.dry ==> forall p :: p in ProtectedPatterns ==>
                  p in Patterns(w6.rules) && UpdateRule(LastIdOf(w6.rules, p), EnsureUpdate(p)) in Added(w, w6))
  {
    var w5 := if k == Patch then DevStep(c, w, current) else w;
    DevStepPlain(c, w, current);
    assert Plain(w, w5);
    var w6 := EnsureStep(c, w5);
    EnsureStepFacts(c, w5);
    AddedTrans(w, w5, w6);
    var before, after := Added(w, w5), Added(w5, w6);
    assert Added(w, w6) == before + after;
    forall op | op in Added(w, w6)
      ensures !op.Merge? && !op.ResetDefaultBranch?
      ensures c.dry ==> op.CreateRule?
    {
      if op !in before {
        assert op in after;
      }
    }
    if c.protection && !c.dry {
      forall p | p in ProtectedPatterns
        ensures p in Patterns(w6.rules) && UpdateRule(LastIdOf(w6.rules, p), EnsureUpdate(p)) in Added(w, w6)
      {
        assert UpdateRule(LastIdOf(w6.rules, p), EnsureUpdate(p)) in after;
      }
    }
  }

  /**
   * What follows the merges: no further merge; the manifest and tags stay;
   * the library's copy ends in success with the reset request, the bundled
   * copy in its failure; restoring protection covers every protected pattern.
   */
  lemma CompletionFacts(c: Config, w: World, k: Keyword, current: Version)
    ensures var (w', r) := Completion(c, w, k, current);
            && w.trace <= w'.trace
            && w'.version == w.version && w'.tags == w.tags
            && (forall op :: op in Added(w, w') ==> !op.Merge?)
            && r == (if c.variant == Lib then Success(()) else Failure(DefaultBranchFailed))
            && (c.dry ==> forall op :: op in Added(w, w') ==> op.CreateRule? || op.ResetDefaultBranch?)
            && (c.protection && !c.dry ==> forall p :: p in ProtectedPatterns ==>
                  p in Patterns(w'.rules) && UpdateRule(LastIdOf(w'.rules, p), EnsureUpdate(p)) in Added(w, w'))
  {
    var w6 := Restored(c, w, k, current);
    RestoredFacts(c, w, k, current);
    assert Completion(c, w, k, current) == Finish(c, w6);
    var w' := Finish(c, w6).0;
    assert Added(w6, w') == if c.variant == Lib then [ResetDefaultBranch] else [];
    AddedTrans(w, w6, w');
  }

  // Whole runs.

  /** The version whose line the run merges: after a patch release, the next alpha. */
  function MergeVersion(v: Version, k: Keyword): Version {
    if k == Patch then Inc(v, Prerelease) else v
  }

  lemma MergeCallUnfold(c: Config, w: World, k: Keyword)
    requires var w3 := Prelude(c, w, k); AlphaTag(w3.version) in w3.tags
    ensures var w3 := Prelude(c, w, k);
            var current := w3.version;
            var m := MergeStep(c, w3, TargetRefs(k, current), current);
            MergeCallSpec(c, w, k) == if m.1.Failure? then m else Completion(c, m.0, k, current)
  {
  }

  /** The merges that follow the prelude of a run. */
  function MergePhase(c: Config, w: World, k: Keyword): (World, Result<(), MergeError>) {
    var w3 := Prelude(c, w, k);
    MergeStep(c, w3, TargetRefs(k, w3.version), w3.version)
  }

  /** A run that is not dry with every merge accepted gets through the merges to its completion. */
  lemma AcceptedRun(c: Config, w: World, k: Keyword)
    requires !c.dry
    requires forall i :: 0 <= i < |MergeTargets(k)| ==> MergeAccepted(c.mergeStatus(TargetRefs(k, MergeVersion(w.version, k))[i]))
    ensures Prelude(c, w, k).version == MergeVersion(w.version, k)
    ensures MergePhase(c, w, k).1.Success?
    ensures MergeCallSpec(c, w, k) == Completion(c, MergePhase(c, w, k).0, k, MergeVersion(w.version, k))
  {
    var w3 := Prelude(c, w, k);
    PreludePlain(c, w, k);
    var current := w3.version;
    assert current == MergeVersion(w.version, k);
    MergeCallUnfold(c, w, k);
    MergeStepResult(c, w3, TargetRefs(k, current), current);
  }

  /**
   * A run that is not dry and whose merges are all accepted merges into the
   * keyword's target branches of the merged version line, in order and with
   * their messages, and nothing else; the library's copy then succeeds and
   * the bundled copy fails at the default-branch reset.
   */
  lemma MergeCallMerges(c: Config, w: World, k: Keyword)
    requires !c.dry
    requires forall i :: 0 <= i < |MergeTargets(k)| ==> MergeAccepted(c.mergeStatus(TargetRefs(k, MergeVersion(w.version, k))[i]))
    ensures var (w', r) := MergeCallSpec(c, w, k);
            var v := MergeVersion(w.version, k);
            && w.trace <= w'.trace
            && Merges(Added(w, w')) == MergeOpsFor(c.variant, TargetRefs(k, v), v)
            && r == (if c.variant == Lib then Success(()) else Failure(DefaultBranchFailed))
  {
    var v := MergeVersion(w.version, k);
    AcceptedRun(c, w, k);
    var w3 := Prelude(c, w, k);
    PreludePlain(c, w, k);
    MergesNone(Added(w, w3));
    MergeStepMerges(c, w3, TargetRefs(k, v), v);
    var w4 := MergePhase(c, w, k).0;
    AddedTrans(w, w3, w4);
    MergesAppend(Added(w, w3), Added(w3, w4));
    CompletionFacts(c, w4, k, v);
    var w' := Completion(c, w4, k, v).0;
    MergesNone(Added(w4, w'));
    AddedTrans(w, w4, w');
    MergesAppend(Added(w, w4), Added(w4, w'));
  }

  /**
   * A dry run changes neither the manifest nor the tags and writes only rule
   * creations and the default-branch reset; it gets past the alpha-tag lookup
   * only when that tag is already on the remote.
   */
  lemma MergeCallDry(c: Config, w: World, k: Keyword)
    requires c.dry
    ensures var (w', r) := MergeCallSpec(c, w, k);
            && w.trace <= w'.trace
            && (forall op :: op in Added(w, w') ==> op.CreateRule? || op.ResetDefaultBranch?)
            && w'.version == w.version && w'.tags == w.tags
            && (r.Success? <==> c.variant == Lib && AlphaTag(w.version) in w.tags)
            && (AlphaTag(w.version) !in w.tags ==> r == Failure(AlphaTagMissing(AlphaTag(w.version))))
  {
    var w3 := Prelude(c, w, k);
    PreludePlain(c, w, k);
    if AlphaTag(w.version) in w.tags {
      var current := w3.version;
      var refs := TargetRefs(k, current);
      MergeCallUnfold(c, w, k);
      MergeStepShape(c, w3, refs, current);
      MergeStepResult(c, w3, refs, current);
      CompletionFacts(c, w3, k, current);
      var w' := Completion(c, w3, k, current).0;
      AddedTrans(w, w3, w');
    }
  }

  /**
   * A run that throws before the end (the alpha tag is missing or a merge is
   * refused) never restores protection: the suspended rules stay suspended.
   */
  lemma MergeCallFailureLeavesSuspended(c: Config, w: World, k: Keyword)
    ensures var (w', r) := MergeCallSpec(c, w, k);
            r.Failure? && !r.error.DefaultBranchFailed? ==>
              w.trace <= w'.trace && forall op :: op in Added(w, w') ==> !Restoring(op) && !op.ResetDefaultBranch?
  {
    var w3 := Prelude(c, w, k);
    PreludePlain(c, w, k);
    var current := w3.version;
    if AlphaTag(current) in w3.tags {
      var refs := TargetRefs(k, current);
      MergeCallUnfold(c, w, k);
      var m := MergeStep(c, w3, refs, current);
      if m.1.Failure? {
        MergeStepShape(c, w3, refs, current);
        AddedTrans(w, w3, m.0);
      } else {
        CompletionFacts(c, m.0, k, current);
      }
    }
  }

  /**
   * A run with protection on that is not dry and whose merges are accepted
   * ends by restoring every protected pattern's rule.
   */
  lemma MergeCallRestores(c: Config, w: World, k: Keyword)
    requires c.protection && !c.dry
    requires forall i :: 0 <= i < |MergeTargets(k)| ==> MergeAccepted(c.mergeStatus(TargetRefs(k, MergeVersion(w.version, k))[i]))
    ensures var w' := MergeCallSpec(c, w, k).0;
            && w.trace <= w'.trace
            && forall p :: p in ProtectedPatterns ==>
                 p in Patterns(w'.rules) && UpdateRule(LastIdOf(w'.rules, p), EnsureUpdate(p)) in Added(w, w')
  {
    var v := MergeVersion(w.version, k);
    AcceptedRun(c, w, k);
    var w3 := Prelude(c, w, k);
    PreludePlain(c, w, k);
    MergeStepShape(c, w3, TargetRefs(k, v), v);
    var w4 := MergePhase(c, w, k).0;
    AddedTrans(w, w3, w4);
    CompletionFacts(c, w4, k, v);
    var w' := Completion(c, w4, k, v).0;
    AddedTrans(w, w4, w');
    forall p | p in ProtectedPatterns
      ensures p in Patterns(w'.rules) && UpdateRule(LastIdOf(w'.rules, p), EnsureUpdate(p)) in Added(w, w')
    {
      assert UpdateRule(LastIdOf(w'.rules, p), EnsureUpdate(p)) in Added(w4, w');
    }
  }

  /** The bundled copy's run never succeeds: its default-branch reset always throws. */
  lemma BundleMergeCallFails(c: Config, w: World, k: Keyword)
    requires c.variant == Bundle
    ensures MergeCallSpec(c, w, k).1.Failure?
  {
    var w3 := Prelude(c, w, k);
    if AlphaTag(w3.version) in w3.tags {
      MergeCallUnfold(c, w, k);
      var m := MergeStep(c, w3, TargetRefs(k, w3.version), w3.version);
      if m.1.Success? {
        CompletionFacts(c, m.0, k, w3.version);
      }
    }
  }
}
