/**
 * The GitHub Action entry of the bundled copy and the library's entry points
 * it calls: `verify`, `tryBump`, `tryPublish` and `tryMerge`, the `prebuild`,
 * `postbuild` and `auto` actions, and `setup` and `teardown` around them.
 *
 * Every entry point resolves the keyword again from the manifest's version at
 * the time it runs; only `tryMerge` resolves loosely.  The entry of the
 * bundled copy never runs dry.
 */
module Action {
  import opened Outcomes
  import opened Text
  import opened Versions
  import opened Refs
  import opened Commands
  import opened Resolver
  import opened Propagation

  /** Why an action throws. */
  datatype ActionError =
    | ResolveFailed(reason: ResolveError)       // `getBumpKeyword` threw
    | NoRule                                    // `verify`: the channels name no keyword
    | NoKeyword                                 // a bump or merge was asked for with no keyword
    | NotMerged                                 // `auto` or `postbuild` on a pull request not yet merged
    | ManualTriggerUnsupported                  // a manual run from or into a channel other than main
    | UnknownAction(name: string)               // `actions[name]` is not a function
    | MergeCallFailed(cause: MergeError)        // `mergeCall` threw
    | NoTitle                                   // `title[keyword]` is not a function

  /** The event that triggered the workflow. */
  datatype Event = PullRequest(merged: bool) | WorkflowDispatch | OtherEvent

  /**
   * What the entry reads from the workflow: the event, the `action` input,
   * the actor, the `no-publish` and `no-protection` inputs (negated), the
   * head and base refs, whether the repository uses lerna and has it
   * installed, and the answers of the outside world the merge step needs.
   */
  datatype Inputs = Inputs(
    event: Event,
    action: string,
    actor: string,
    publish: bool,
    protection: bool,
    headRef: string,
    baseRef: string,
    lerna: bool,
    lernaInstalled: bool,
    devVersion: Version,
    mergeStatus: string -> int,
    newId: string -> string)

  /**
   * `verify`: the strictly resolved keyword.  It succeeds exactly when the
   * resolver accepts the refs and the keyword table names their channels.
   */
  function Verify(v: Version, headRef: string, baseRef: string): (r: Result<Keyword, ActionError>)
    ensures r.Success? <==> Resolve(v, headRef, baseRef, false).Success? && KeywordFor(Channel(headRef), Channel(baseRef)).Some?
    ensures r.Success? ==> KeywordFor(Channel(headRef), Channel(baseRef)) == Some(r.value)
    ensures r == Failure(NoRule) <==> Resolve(v, headRef, baseRef, false) == Success(None)
  {
    ResolveSucceedsIff(v, headRef, baseRef, false);
    match Resolve(v, headRef, baseRef, false)
    case Failure(e) => Failure(ResolveFailed(e))
    case Success(None) => Failure(NoRule)
    case Success(Some(k)) => Success(k)
  }

  function Lift(r: Result<(), MergeError>): Result<(), ActionError> {
    match r
    case Success(_) => Success(())
    case Failure(e) => Failure(MergeCallFailed(e))
  }

  /**
   * `tryBump`: the bump of the strictly resolved keyword.  With no keyword
   * the version command is given the keyword `undefined`; the model takes
   * it as refusing, which only a dry run (where nothing is run) escapes.
   */
  function TryBumpStep(c: Config, w: World, headRef: string, baseRef: string): (World, Result<(), ActionError>) {
    match Resolve(w.version, headRef, baseRef, false)
    case Failure(e) => (w, Failure(ResolveFailed(e)))
    case Success(None) => (w, if c.dry then Success(()) else Failure(NoKeyword))
    case Success(Some(k)) => (BumpStep(c, w, k, "", true), Success(()))
  }

  /** `tryPublish`: when publishing is on, a release or a pre-release is published. */
  function TryPublishStep(c: Config, w: World, publish: bool, headRef: string, baseRef: string): (World, Result<(), ActionError>) {
    if !publish then (w, Success(()))
    else
      match Resolve(w.version, headRef, baseRef, false)
      case Failure(e) => (w, Failure(ResolveFailed(e)))
      case Success(kw) => (if kw == Some(Patch) || kw == Some(Prerelease) then PublishStep(c, w) else w, Success(()))
  }

  /** `tryMerge`: `mergeCall` with the loosely resolved keyword; none makes `mergeCall` throw at once. */
  function TryMergeStep(c: Config, w: World, headRef: string, baseRef: string): (World, Result<(), ActionError>) {
    match Resolve(w.version, headRef, baseRef, true)
    case Failure(e) => (w, Failure(ResolveFailed(e)))
    case Success(None) => (w, Failure(NoKeyword))
    case Success(Some(k)) =>
      var (w', r) := MergeCallSpec(c, w, k);
      (w', Lift(r))
  }

  /** `prebuild`: only a release bumps here, so that the build sees the release version. */
  function PrebuildStep(c: Config, w: World, headRef: string, baseRef: string): (World, Result<(), ActionError>) {
    match Resolve(w.version, headRef, baseRef, false)
    case Failure(e) => (w, Failure(ResolveFailed(e)))
    case Success(kw) => if kw == Some(Patch) then TryBumpStep(c, w, headRef, baseRef) else (w, Success(()))
  }

  /** The part of `postbuild` before the merge: publish, then bump unless the keyword is a release. */
  function PostbuildPrefix(c: Config, w: World, publish: bool, headRef: string, baseRef: string): (World, Result<(), ActionError>) {
    var (w1, r1) := TryPublishStep(c, w, publish, headRef, baseRef);
    if r1.Failure? then (w1, r1)
    else
      match Resolve(w1.version, headRef, baseRef, false)
      case Failure(e) => (w1, Failure(ResolveFailed(e)))
      case Success(kw) => if kw == Some(Patch) then (w1, Success(())) else TryBumpStep(c, w1, headRef, baseRef)
  }

  /** `postbuild`: publish, bump unless the keyword is a release, merge. */
  function PostbuildStep(c: Config, w: World, publish: bool, headRef: string, baseRef: string): (World, Result<(), ActionError>) {
    var (w2, r2) := PostbuildPrefix(c, w, publish, headRef, baseRef);
    if r2.Failure? then (w2, r2) else TryMergeStep(c, w2, headRef, baseRef)
  }

  /** `actions[action](argv)`: `auto` is `prebuild` then `postbuild`. */
  function ActionStep(c: Config, w: World, action: string, publish: bool, headRef: string, baseRef: string): (World, Result<(), ActionError>) {
    if action == "auto" then
      var (w1, r1) := PrebuildStep(c, w, headRef, baseRef);
      if r1.Failure? then (w1, r1) else PostbuildStep(c, w1, publish, headRef, baseRef)
    else if action == "prebuild" then PrebuildStep(c, w, headRef, baseRef)
    else if action == "postbuild" then PostbuildStep(c, w, publish, headRef, baseRef)
    else if action == "verify" then
      (w, match Verify(w.version, headRef, baseRef) case Success(_) => Success(()) case Failure(e) => Failure(e))
    else (w, Failure(UnknownAction(action)))
  }

  /** The actions that merge, and so need a merged pull request. */
  predicate Merging(action: string) {
    action == "auto" || action == "postbuild"
  }

  /** `setup`: the trigger checks, then the git identity and lerna. */
  function SetupStep(c: Config, w: World, inp: Inputs): (World, Result<(), ActionError>) {
    if inp.event.PullRequest? && Merging(inp.action) && !inp.event.merged then (w, Failure(NotMerged))
    else if inp.event.WorkflowDispatch? && (Channel(inp.headRef) != "main" || Channel(inp.baseRef) != "main") then
      (w, Failure(ManualTriggerUnsupported))
    else
      var w1 := GitStep(c, w, ["config", "--global", "user.name", inp.actor]);
      var w2 := GitStep(c, w1, ["config", "--global", "user.email", inp.actor + "@users.noreply.github.com"]);
      (if c.lerna && !inp.lernaInstalled then ExecStep(c, w2, ["npm", "install", "-g", "lerna@4.0.0"]) else w2, Success(()))
  }

  /** The pull-request title `teardown` sets for a keyword and the current version. */
  function Title(k: Keyword, v: Version): string {
    if k == Premajor then "Prepare v" + VersionString(Inc(v, Major))
    else if k == Preminor then "Prepare v" + VersionString(Inc(v, Minor))
    else if k == Patch then "Release v" + VersionString(Inc(v, Patch))
    else "Prerelease v" + VersionString(v)
  }

  /** `teardown`: a verified pull request gets its title. */
  function TeardownStep(w: World, inp: Inputs): (World, Result<(), ActionError>) {
    if inp.event.PullRequest? && inp.action == "verify" then
      match Resolve(w.version, inp.headRef, inp.baseRef, false)
      case Failure(e) => (w, Failure(ResolveFailed(e)))
      case Success(None) => (w, Failure(NoTitle))
      case Success(Some(k)) => (w.(trace := w.trace + [SetTitle(Title(k, w.version))]), Success(()))
    else (w, Success(()))
  }

  /** The configuration of the bundled entry: its own library copy, never dry, `argv.version` read at the start. */
  function EntryConfig(inp: Inputs, w: World): Config {
    Config(Bundle, false, inp.lerna, inp.protection, inp.baseRef, w.version, inp.devVersion, inp.mergeStatus, inp.newId)
  }

  /** The bundled entry: resolve the keyword, `setup`, the action, `teardown`. */
  function EntrySpec(inp: Inputs, w: World): (World, Result<(), ActionError>) {
    var c := EntryConfig(inp, w);
    match Resolve(w.version, inp.headRef, inp.baseRef, false)
    case Failure(e) => (w, Failure(ResolveFailed(e)))
    case Success(_) =>
      var (w1, r1) := SetupStep(c, w, inp);
      if r1.Failure? then (w1, r1)
      else
        var (w2, r2) := ActionStep(c, w1, inp.action, inp.publish, inp.headRef, inp.baseRef);
        if r2.Failure? then (w2, r2) else TeardownStep(w2, inp)
  }

  // The entry points, run on a session.

  method TryBump(s: Session, headRef: string, baseRef: string) returns (r: Result<(), ActionError>)
    modifies s
    ensures (s.Snapshot(), r) == TryBumpStep(s.cfg, old(s.Snapshot()), headRef, baseRef)
  {
    match Resolve(s.version, headRef, baseRef, false)
    case Failure(e) =>
      r := Failure(ResolveFailed(e));
    case Success(None) =>
      r := if s.cfg.dry then Success(()) else Failure(NoKeyword);
    case Success(Some(k)) =>
      s.BumpCall(k, "", true);
      r := Success(());
  }

  method TryPublish(s: Session, publish: bool, headRef: string, baseRef: string) returns (r: Result<(), ActionError>)
    modifies s
    ensures (s.Snapshot(), r) == TryPublishStep(s.cfg, old(s.Snapshot()), publish, headRef, baseRef)
  {
    r := Success(());
    if publish {
      var kw := Resolve(s.version, headRef, baseRef, false);
      if kw.Failure? {
        r := Failure(ResolveFailed(kw.error));
      } else if kw.value == Some(Patch) || kw.value == Some(Prerelease) {
        s.PublishPackages();
      }
    }
  }

  method TryMerge(s: Session, headRef: string, baseRef: string) returns (r: Result<(), ActionError>)
    modifies s
    ensures (s.Snapshot(), r) == TryMergeStep(s.cfg, old(s.Snapshot()), headRef, baseRef)
  {
    match Resolve(s.version, headRef, baseRef, true)
    case Failure(e) =>
      r := Failure(ResolveFailed(e));
    case Success(None) =>
      r := Failure(NoKeyword);
    case Success(Some(k)) =>
      var m := s.MergeCall(k);
      r := Lift(m);
  }

  method Prebuild(s: Session, headRef: string, baseRef: string) returns (r: Result<(), ActionError>)
    modifies s
    ensures (s.Snapshot(), r) == PrebuildStep(s.cfg, old(s.Snapshot()), headRef, baseRef)
  {
    var kw := Resolve(s.version, headRef, baseRef, false);
    if kw.Failure? {
      return Failure(ResolveFailed(kw.error));
    }
    r := Success(());
    if kw.value == Some(Patch) {
      r := TryBump(s, headRef, baseRef);
    }
  }

  method Postbuild(s: Session, publish: bool, headRef: string, baseRef: string) returns (r: Result<(), ActionError>)
    modifies s
    ensures (s.Snapshot(), r) == PostbuildStep(s.cfg, old(s.Snapshot()), publish, headRef, baseRef)
  {
    r := TryPublish(s, publish, headRef, baseRef);
    if r.Failure? {
      return;
    }
    var kw := Resolve(s.version, headRef, baseRef, false);
    if kw.Failure? {
      return Failure(ResolveFailed(kw.error));
    }
    if kw.value != Some(Patch) {
      r := TryBump(s, headRef, baseRef);
      if r.Failure? {
        return;
      }
    }
    r := TryMerge(s, headRef, baseRef);
  }

  method RunAction(s: Session, action: string, publish: bool, headRef: string, baseRef: string) returns (r: Result<(), ActionError>)
    modifies s
    ensures (s.Snapshot(), r) == ActionStep(s.cfg, old(s.Snapshot()), action, publish, headRef, baseRef)
  {
    if action == "auto" {
      r := Prebuild(s, headRef, baseRef);
      if r.Success? {
        r := Postbuild(s, publish, headRef, baseRef);
      }
    } else if action == "prebuild" {
      r := Prebuild(s, headRef, baseRef);
    } else if action == "postbuild" {
      r := Postbuild(s, publish, headRef, baseRef);
    } else if action == "verify" {
      var k := Verify(s.version, headRef, baseRef);
      r := if k.Success? then Success(()) else Failure(k.error);
    } else {
      r := Failure(UnknownAction(action));
    }
  }

  method Setup(s: Session, inp: Inputs) returns (r: Result<(), ActionError>)
    modifies s
    ensures (s.Snapshot(), r) == SetupStep(s.cfg, old(s.Snapshot()), inp)
  {
    if inp.event.PullRequest? && Merging(inp.action) && !inp.event.merged {
      return Failure(NotMerged);
    }
    if inp.event.WorkflowDispatch? && (Channel(inp.headRef) != "main" || Channel(inp.baseRef) != "main") {
      return Failure(ManualTriggerUnsupported);
    }
    s.GitCall(["config", "--global", "user.name", inp.actor]);
    s.GitCall(["config", "--global", "user.email", inp.actor + "@users.noreply.github.com"]);
    if s.cfg.lerna && !inp.lernaInstalled {
      s.Exec(["npm", "install", "-g", "lerna@4.0.0"]);
    }
    r := Success(());
  }

  method Teardown(s: Session, inp: Inputs) returns (r: Result<(), ActionError>)
    modifies s
    ensures (s.Snapshot(), r) == TeardownStep(old(s.Snapshot()), inp)
  {
    r := Success(());
    if inp.event.PullRequest? && inp.action == "verify" {
      match Resolve(s.version, inp.headRef, inp.baseRef, false)
      case Failure(e) =>
        r := Failure(ResolveFailed(e));
      case Success(None) =>
        r := Failure(NoTitle);
      case Success(Some(k)) =>
        s.SetPullRequestTitle(Title(k, s.version));
    }
  }

  /** The bundled entry, run on a fresh session over the world it is given. */
  method Entry(inp: Inputs, w: World) returns (w': World, r: Result<(), ActionError>)
    ensures (w', r) == EntrySpec(inp, w)
  {
    var s := new Session(EntryConfig(inp, w), w);
    var kw := Resolve(w.version, inp.headRef, inp.baseRef, false);
    if kw.Failure? {
      return w, Failure(ResolveFailed(kw.error));
    }
    r := Setup(s, inp);
    if r.Success? {
      r := RunAction(s, inp.action, inp.publish, inp.headRef, inp.baseRef);
      if r.Success? {
        r := Teardown(s, inp);
      }
    }
    w' := s.Snapshot();
  }

  // What the actions do.

  /** The writes of `ops` that `keep` selects, in order. */
  function Only(ops: seq<Op>, keep: Op -> bool): (r: seq<Op>)
    ensures forall op :: op in r ==> op in ops && keep(op)
  {
    if ops == [] then []
    else (if keep(ops[0]) then [ops[0]] else []) + Only(ops[1..], keep)
  }

  lemma {:induction false} OnlyAppend(a: seq<Op>, b: seq<Op>, keep: Op -> bool)
    ensures Only(a + b, keep) == Only(a, keep) + Only(b, keep)
  {
    if a == [] {
      assert a + b == b;
    } else {
      assert (a + b)[1..] == a[1..] + b;
      OnlyAppend(a[1..], b, keep);
    }
  }

  predicate IsRun(op: Op) { op.Run? }

  predicate IsPublish(op: Op) { op.Publish? }

  /** The resolver reads only the `major.minor` line of the version. */
  lemma ResolveKeepsLine(u: Version, v: Version, headRef: string, baseRef: string, loose: bool)
    requires u.major == v.major && u.minor == v.minor
    ensures Resolve(u, headRef, baseRef, loose) == Resolve(v, headRef, baseRef, loose)
  {
  }

  /** A bump that is not dry runs one command, its own, and publishes nothing. */
  lemma BumpStepWrites(c: Config, w: World, k: Increment, message: string, tag: bool)
    requires !c.dry
    ensures w.trace <= BumpStep(c, w, k, message, tag).trace
    ensures Only(Added(w, BumpStep(c, w, k, message, tag)), IsRun) == [Run(BumpCommand(c.variant, c.lerna, w.version, k, message, tag))]
    ensures Only(Added(w, BumpStep(c, w, k, message, tag)), IsPublish) == []
  {
    var sw := Git(["switch", "-C", LernaBumpBranch(w.version), "HEAD"]);
    var run := Run(BumpCommand(c.variant, c.lerna, w.version, k, message, tag));
    var ops := Added(w, BumpStep(c, w, k, message, tag));
    if c.variant == Lib && c.lerna && (k == Patch || k == Prepatch) {
      assert ops == [sw] + [run];
      OnlyAppend([sw], [run], IsRun);
      OnlyAppend([sw], [run], IsPublish);
    } else {
      assert ops == [run];
    }
  }

  lemma PublishStepWrites(c: Config, w: World)
    requires !c.dry
    ensures w.trace <= PublishStep(c, w).trace && PublishStep(c, w).version == w.version
    ensures Only(Added(w, PublishStep(c, w)), IsRun) == []
    ensures Only(Added(w, PublishStep(c, w)), IsPublish) == [Publish(w.version)]
  {
    assert Added(w, PublishStep(c, w)) == [Publish(w.version)];
  }

  /** The state `auto` has reached when it starts to merge. */
  function BeforeMerge(c: Config, w: World, publish: bool, headRef: string, baseRef: string): World {
    PostbuildPrefix(c, PrebuildStep(c, w, headRef, baseRef).0, publish, headRef, baseRef).0
  }

  /**
   * `auto` bumps once: `prebuild` makes the release bump of a `patch`,
   * `postbuild` the bump of any other keyword, and either way the one
   * command it runs before merging is the keyword's bump of the version it
   * started from.  A release is published after its bump, a pre-release
   * before it, each at the version then in the manifest.
   */
  lemma AutoBumpsOnce(c: Config, w: World, publish: bool, headRef: string, baseRef: string, k: Keyword)
    requires !c.dry && Resolve(w.version, headRef, baseRef, false) == Success(Some(k))
    ensures PrebuildStep(c, w, headRef, baseRef).1.Success?
    ensures PostbuildPrefix(c, PrebuildStep(c, w, headRef, baseRef).0, publish, headRef, baseRef).1.Success?
    ensures PrebuildStep(c, w, headRef, baseRef).0.version == if k == Patch then Inc(w.version, Patch) else w.version
    ensures var w2 := BeforeMerge(c, w, publish, headRef, baseRef);
            && w2.version == Inc(w.version, k)
            && w.trace <= w2.trace
            && Only(Added(w, w2), IsRun) == [Run(BumpCommand(c.variant, c.lerna, w.version, k, "", true))]
            && Only(Added(w, w2), IsPublish) ==
                 if publish && k in {Patch, Prerelease} then [Publish(if k == Patch then Inc(w.version, Patch) else w.version)] else []
  {
    var v := w.version;
    var w1 := PrebuildStep(c, w, headRef, baseRef).0;
    var w2 := BeforeMerge(c, w, publish, headRef, baseRef);
    if k == Patch {
      assert w1 == BumpStep(c, w, Patch, "", true);
      BumpStepPlain(c, w, Patch, "", true);
      BumpStepWrites(c, w, Patch, "", true);
      IncKeepsLine(v, Patch);
      ResolveKeepsLine(w1.version, v, headRef, baseRef, false);
      PublishStepWrites(c, w1);
      if publish {
        assert w2 == PublishStep(c, w1);
        AddedTrans(w, w1, w2);
        OnlyAppend(Added(w, w1), Added(w1, w2), IsRun);
        OnlyAppend(Added(w, w1), Added(w1, w2), IsPublish);
      } else {
        assert w2 == w1;
      }
    } else {
      assert w1 == w;
      var wp := if publish && k == Prerelease then PublishStep(c, w) else w;
      assert TryPublishStep(c, w, publish, headRef, baseRef) == (wp, Success(()));
      PublishStepWrites(c, w);
      assert wp.version == v;
      assert w2 == BumpStep(c, wp, k, "", true);
      BumpStepPlain(c, wp, k, "", true);
      BumpStepWrites(c, wp, k, "", true);
      if wp != w {
        AddedTrans(w, wp, w2);
        OnlyAppend(Added(w, wp), Added(wp, w2), IsRun);
        OnlyAppend(Added(w, wp), Added(wp, w2), IsPublish);
      }
    }
  }

  /**
   * Whatever the strict keyword, `auto` goes on to merge with that same
   * keyword: the loose resolve of the merge step accepts the refs again
   * after the bump, including the minor bump that moves the head ref one
   * line behind.
   */
  lemma AutoMergesKeyword(c: Config, w: World, publish: bool, headRef: string, baseRef: string, k: Keyword)
    requires Resolve(w.version, headRef, baseRef, false) == Success(Some(k))
    ensures var w2 := BeforeMerge(c, w, publish, headRef, baseRef);
            var m := MergeCallSpec(c, w2, k);
            ActionStep(c, w, "auto", publish, headRef, baseRef) == (m.0, Lift(m.1))
  {
    var w1 := PrebuildStep(c, w, headRef, baseRef).0;
    var w2 := BeforeMerge(c, w, publish, headRef, baseRef);
    if c.dry {
      BumpStepPlain(c, w, k, "", true);
      assert w1 == w;
      assert w2 == w;
      LooseAcceptsMore(w.version, headRef, baseRef);
    } else {
      AutoBumpsOnce(c, w, publish, headRef, baseRef, k);
      LenientAfterBump(w.version, headRef, baseRef, k);
    }
  }

  /**
   * The title a verified pull request gets names the version `auto`
   * publishes for it: the release of a `patch`, the current pre-release of
   * a `prerelease`.
   */
  lemma TitleNamesPublishedVersion(c: Config, w: World, headRef: string, baseRef: string, k: Keyword)
    requires !c.dry && Resolve(w.version, headRef, baseRef, false) == Success(Some(k)) && k in {Patch, Prerelease}
    ensures var ps := Only(Added(w, BeforeMerge(c, w, true, headRef, baseRef)), IsPublish);
            && |ps| == 1 && ps[0].Publish?
            && Title(k, w.version) == (if k == Patch then "Release v" else "Prerelease v") + VersionString(ps[0].version)
  {
    AutoBumpsOnce(c, w, true, headRef, baseRef, k);
  }

  /** `prebuild` changes something only for a release, and then makes its bump. */
  lemma PrebuildBumpsOnlyRelease(c: Config, w: World, headRef: string, baseRef: string)
    ensures PrebuildStep(c, w, headRef, baseRef).0 != w ==> Resolve(w.version, headRef, baseRef, false) == Success(Some(Patch))
    ensures !c.dry && Resolve(w.version, headRef, baseRef, false) == Success(Some(Patch)) ==>
              PrebuildStep(c, w, headRef, baseRef).0.version == Inc(w.version, Patch)
  {
    BumpStepPlain(c, w, Patch, "", true);
  }

  /** A failed trigger check writes nothing; otherwise setup only configures git and installs lerna. */
  lemma SetupRefusesIff(c: Config, w: World, inp: Inputs)
    ensures var (w', r) := SetupStep(c, w, inp);
            && (r.Failure? <==>
                  (inp.event.PullRequest? && Merging(inp.action) && !inp.event.merged) ||
                  (inp.event.WorkflowDispatch? && (Channel(inp.headRef) != "main" || Channel(inp.baseRef) != "main")))
            && (r.Failure? ==> w' == w)
            && w.trace <= w'.trace && w'.version == w.version && w'.tags == w.tags
            && forall op :: op in Added(w, w') ==> op.Git? || op.Run?
  {
    var (w', r) := SetupStep(c, w, inp);
    if r.Success? {
      var w1 := GitStep(c, w, ["config", "--global", "user.name", inp.actor]);
      var w2 := GitStep(c, w1, ["config", "--global", "user.email", inp.actor + "@users.noreply.github.com"]);
      assert Added(w, w2) == if c.dry then [] else
        [Git(["config", "--global", "user.name", inp.actor]), Git(["config", "--global", "user.email", inp.actor + "@users.noreply.github.com"])];
      AddedTrans(w, w2, w');
      assert Added(w2, w') == if c.lerna && !inp.lernaInstalled && !c.dry then [Run(["npm", "install", "-g", "lerna@4.0.0"])] else [];
    }
  }

  /** `postbuild` of the bundled copy never succeeds: its merge step always throws at the end. */
  lemma BundlePostbuildFails(c: Config, w: World, publish: bool, headRef: string, baseRef: string)
    requires c.variant == Bundle
    ensures PostbuildStep(c, w, publish, headRef, baseRef).1.Failure?
  {
    var (w2, r2) := PostbuildPrefix(c, w, publish, headRef, baseRef);
    if r2.Success? {
      match Resolve(w2.version, headRef, baseRef, true)
      case Failure(_) =>
      case Success(None) =>
      case Success(Some(k)) => BundleMergeCallFails(c, w2, k);
    }
  }

  /** The bundled entry never completes an action that merges. */
  lemma EntryMergingFails(inp: Inputs, w: World)
    requires Merging(inp.action)
    ensures EntrySpec(inp, w).1.Failure?
  {
    var c := EntryConfig(inp, w);
    if Resolve(w.version, inp.headRef, inp.baseRef, false).Success? {
      var (w1, r1) := SetupStep(c, w, inp);
      if r1.Success? {
        if inp.action == "auto" {
          var p := PrebuildStep(c, w1, inp.headRef, inp.baseRef);
          if p.1.Success? {
            BundlePostbuildFails(c, p.0, inp.publish, inp.headRef, inp.baseRef);
          }
        } else {
          BundlePostbuildFails(c, w1, inp.publish, inp.headRef, inp.baseRef);
        }
      }
    }
  }

  /**
   * On a pull request, the bundled `verify` succeeds exactly when the strict
   * resolve names a keyword; it changes no version, and its last write sets
   * the pull request's title for that keyword.
   */
  lemma EntryVerify(inp: Inputs, w: World)
    requires inp.event.PullRequest? && inp.action == "verify"
    ensures var (w', r) := EntrySpec(inp, w);
            && (r.Success? <==> Verify(w.version, inp.headRef, inp.baseRef).Success?)
            && (r.Success? ==>
                  && w'.version == w.version
                  && |w'.trace| > |w.trace|
                  && w'.trace[|w'.trace| - 1] == SetTitle(Title(Verify(w.version, inp.headRef, inp.baseRef).value, w.version)))
            && (r == Failure(NoRule) <==> KeywordFor(Channel(inp.headRef), Channel(inp.baseRef)).None? && Resolve(w.version, inp.headRef, inp.baseRef, false).Success?)
  {
    var c := EntryConfig(inp, w);
    SetupRefusesIff(c, w, inp);
    ResolveSucceedsIff(w.version, inp.headRef, inp.baseRef, false);
  }
}
