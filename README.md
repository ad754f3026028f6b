# action-bump-version in Dafny

A model of the release flow of `action-bump-version`. The action runs after
pull requests between the channel branches of a repository. Those branches are:

- `dev/vM/vM.m` for development;
- `alpha/vM/vM.m` for pre-releases;
- `release/vM/vM.m` for releases;
- `main`.

When a pull request runs, the action does the following:

- decides the semver increment (the *keyword*) from the head and base refs
  and the current manifest version;
- bumps the version with lerna or yarn, and publishes releases and pre-releases;
- lifts branch protection on the branches it writes;
- tags the merged commit and pushes what the keyword calls for;
- merges the version line's alpha tag into the channel branches the keyword names;
- for a release, moves the dev branch to the next prepatch;
- restores protection.

Two copies of the library are modelled: `lib.js` (the *library*) and the older
bundled copy inside `dist/index.js` (the *bundle*). The action entry of the
bundle is modelled too: `setup`, the `auto`/`prebuild`/`postbuild`/`verify`
actions, and `teardown`.

Modules, one per part of the program:

- `Text`: the string operations the tool uses (`replace`, `split('/')[0]`,
  `split('/').pop()`, decimal digits).
- `Versions`: the manifest version and `semver.inc` with the `alpha` pre-release id.
- `Refs`: `getChannel`, the head-ref pattern `/(\w+)\/v(\d+)\/v(\d+\.\d)/` (a
  leftmost search), and the channel branch names.
- `Resolver`: `getBumpKeyword`. It comes in two versions:
  - `ResolveAsWritten` follows the code's decimal-number comparison;
  - `Resolve` is the intended whole-number window that the rest of the model uses.
- `Commands`: the lerna/yarn argument lists of `bumpCall`, in both copies.
- `Protection`: the rule map of `getBranchProtectionRulesMap` and the settings
  written by `ensureBranchesProtection` and `suspendBranchesProtection`.
- `Propagation`: `mergeCall`.
  - A `Session` class holds what a run changes: the manifest version, remote
    tags and branches, protection rules, and a trace of writes to the outside world.
  - Each method is proved equal to a step function on a `World` snapshot.
  - `dry` gates exactly the writes the source gates.
- `Action`: `verify`, `tryBump`, `tryPublish`, `tryMerge`, the bundle's
  `setup`, `prebuild`, `postbuild`, `actions` and `teardown`, and its entry
  (`Entry`). The entry is modelled as a method that takes a starting world and
  returns the final world.

## Model

| member | source | states |
|---|---|---|
| Text.StripPrefix | lib.js:45 | the `refs/heads/` prefix is removed exactly when the ref starts with it, and the ref is otherwise unchanged |
| Text.FirstSegment | lib.js:45 | the result is a prefix of the text with no slash, ending at the first slash or at the end |
| Text.LastSegment | lib.js:63 | the result is a suffix of the text with no slash, starting after the last slash or at the start |
| Text.ReplaceFirst | lib.js:66 | removing the channel name from a ref that starts with it leaves the rest of the ref |
| Text.DigitsValueOfNatStr | lib.js:82-83 | reading back the decimal text of a number gives that number (`Number` of a captured group) |
| Versions.Inc | lib.js:124 | every `semver.inc` the tool asks for moves the version strictly forward in precedence, and the result is a pre-release exactly for the pre-increments |
| Versions.IncKeepsLine | lib.js:328-339 | patch, prepatch and prerelease bumps keep the `major.minor` line, which the merge step re-reads |
| Refs.ChannelOfComposedRef | lib.js:44-46 | a ref made of a slash-free channel followed by nothing or by `/...` has that channel |
| Refs.ChannelOfChannelRef | lib.js:44-46 | the channel of a channel branch `<c>/vM/vM.m` is `c` |
| Refs.MatchAtIsPatternMatch | lib.js:75 | the matcher succeeds at a position exactly when the head-ref regular expression can match there |
| Refs.MatchPosition | lib.js:75 | the search returns the leftmost position where the pattern matches, or none when it matches nowhere |
| Refs.HeadMatchOfChannelRef | lib.js:75-83 | the pattern read from a channel branch gives back the major and the minor it was built from |
| Resolver.LookupIsKeywordFor | lib.js:55-61 | the five-entry table keyed by `head->base` names exactly dev→alpha prerelease, alpha→release patch, release→main and release→release preminor, main→main premajor, and no keyword otherwise |
| Resolver.Window | lib.js:85-95 | the head line is accepted exactly when it is the current line, or the line just before it under the loose check; strict refusal of the previous line is told apart |
| Resolver.ResolveSucceedsIff | lib.js:48-98 | resolution succeeds exactly when the refs agree or the pull request crosses a line (release into main or into an `lts` branch), and the head is `main` or names an accepted line; it then returns the table's keyword |
| Resolver.ResolveErrors | lib.js:66-95 | "Versions not match" is thrown exactly when the refs differ without crossing a line; a head off main without the version pattern is refused for that reason exactly; otherwise a refusal carries the window's reason for the line the pattern names |
| Resolver.ResolveMainIntoMain | lib.js:70-73 | main into main is a premajor with no version check |
| Resolver.ResolveBetweenChannelRefs | lib.js:48-98 | between two channel branches of the current line, the resolver returns the table's keyword for their channels |
| Resolver.ResolveReleaseCrossing | lib.js:63-68 | a current release branch into main or an `lts` branch is a preminor, although the refs differ |
| Resolver.LooseAcceptsMore | lib.js:93-95 | the loose check never refuses what the strict check accepts, and gives the same keyword |
| Resolver.LenientAfterBump | lib.js:473 | after the keyword's own bump, the loose resolve used by `tryMerge` still accepts the same refs with the same keyword |
| Resolver.StrictFailsAfterPreminor | lib.js:89-95 | after a preminor bump, the strict resolve refuses the same refs as one line behind, which is why `tryMerge` resolves loosely |
| Resolver.ResolveAgreesBelowTen | lib.js:50-95 | while the current minor is below ten and the head names a one-digit minor in its own major, the decimal comparison as written and the intended window agree |
| Resolver.LenientAfterBumpFailsAsWritten | lib.js:50-95 | as written, `release/vM/vM.9` into main passes `verify`, but after the bump to `M.10.0-alpha.0` the loose resolve refuses it, while the intended resolver accepts it |
| Commands.BumpCommandHead | lib.js:129-141 | the command starts `lerna version <kw>` in a lerna repository, else `yarn version --<kw>` |
| Commands.MessageOptIff | lib.js:125-126 | `--message` appears exactly for keywords other than patch, and it is followed by the quoted message or by `Move on to v<version>` |
| Commands.NoTagIff | lib.js:127 | the library adds `--no-git-tag-version` exactly when asked not to tag |
| Commands.ForcePublishIff | lib.js:135 | `--force-publish` appears exactly for a lerna prerelease bump with no message |
| Commands.BundleAgreesWithLib | dist/index.js:128-139 | when tagging and when a message is given (or the keyword is patch), the bundle runs the same command as the library |
| Commands.BundleDefaultMessageNamesCurrent | dist/index.js:130-131 | with a `semver.inc` that leaves its argument alone, the bundle's default message names the current version and the library's the next one |
| Protection.EnsureDeterminesRule | lib.js:224-241 | restoring a rule fixes every setting, whatever state the rule was in |
| Protection.EnsureUndoesSuspend | lib.js:215-284 | suspending and then restoring a rule is the same as restoring it |
| Protection.SuspendRelaxes | lib.js:259-275 | a suspended rule allows force pushes, drops reviews and status checks, keeps its check contexts, and still binds admins and refuses deletion |
| Protection.EnsureRestrictsOutsideDev | lib.js:222-239 | a restored rule never allows force pushes or deletion; push restriction, one approving review and the `verify` check apply exactly when the pattern's channel is not `dev` |
| Protection.ProtectedPatternRestrictions | lib.js:222 | of the four protected patterns, `main`, `release/*/*` and `alpha/*/*` are restricted and `dev/*/*` is not |
| Protection.Missing | lib.js:198 | the missing patterns are exactly the protected patterns with no rule |
| Protection.RecordRules | lib.js:194-196 | the map holds every queried pattern with the id of its last rule, and its key order is first-occurrence order |
| Protection.CreateRules | lib.js:198-211 | the missing patterns are appended to the key order with their new ids, and the recorded ids are kept |
| Protection.RulesMap | lib.js:175-213 | the map keeps every existing pattern's id, adds an id for each missing protected pattern, and equals the map of the rule list after creation |
| Protection.CreationCompletes | lib.js:198-211 | once the missing rules are created, no protected pattern is missing |
| Propagation.Session.GitCall | lib.js:113-120 | a git call is recorded unless the run is dry |
| Propagation.Session.Exec | lib.js:100-111 | a command is recorded unless the run is dry |
| Propagation.Session.PublishPackages | lib.js:144-173 | the packages are published at the manifest version unless the run is dry |
| Propagation.Session.SetPullRequestTitle | dist/index.js:637-643 | the title mutation is sent in a dry run too, and nothing else changes |
| Propagation.Session.PushTag | lib.js:299 | a forced tag push adds the tag to the remote and records the push unless dry |
| Propagation.Session.PushBranch | lib.js:326 | a forced branch push adds the branch to the remote and records the push unless dry |
| Propagation.Session.BumpCall | lib.js:122-142 | the bump runs its command on the manifest version and moves it on by the increment, with the lerna branch switch for patch and prepatch |
| Propagation.Session.LoadRules | lib.js:175-213 | missing protected rules are created even in a dry run; the map returned covers the rules in key order |
| Propagation.Session.SendSuspensions | lib.js:257-283 | one suspension update per pattern, in order, up to the first pattern that has no rule |
| Propagation.Session.Suspend | lib.js:252-284 | suspension does nothing without protection; otherwise it loads the rules and, unless dry, suspends the keyword's patterns |
| Propagation.Session.SendEnsures | lib.js:220-249 | one restoring update per pattern of the map, in key order |
| Propagation.Session.Ensure | lib.js:215-250 | restoring does nothing without protection; otherwise it loads the rules and, unless dry, restores every rule of the map |
| Propagation.Session.MergeChannels | lib.js:349-392 | each target branch is created when missing and then merged, in order; the first status other than 201 or 204 stops the loop; a dry run writes nothing |
| Propagation.Session.Pushback | lib.js:313-336 | the keyword's pushes: the `lts` branch for premajor, nothing for preminor, the release tags and next alpha for patch, and the previous release tag for prerelease |
| Propagation.Session.DevBranch | dist/index.js:386-395 | after a release, the dev branch gets its prepatch bump and push, and the checkout returns to the base ref; the bundle deletes the release tag and bumps with a message instead of committing |
| Propagation.Session.MergeCall | lib.js:286-406 | the new state and result are those of the whole propagation for the keyword: suspension, alpha tag, the keyword's pushes, the merges, the dev step of a release, restoring protection, the reset |
| Propagation.BumpStepPlain | lib.js:122-142 | a bump writes no merge or restore, does nothing when dry, leaves the tags alone, and otherwise moves the version by the increment |
| Propagation.RulesStepQuiet | lib.js:198-211 | loading the rules writes only rule creations, after which every protected pattern has a rule |
| Propagation.SuspendOpsComplete | lib.js:257-283 | when every pattern has a rule, each gets its suspension update, in order |
| Propagation.SuspendPatternsTable | lib.js:287-293 | the suspended patterns are `release/*/*`, `alpha/*/*` and `dev/*/*`, or `dev/*/*` alone for a prerelease |
| Propagation.SuspendStepUpdates | lib.js:293-294 | with protection on and not dry, every suspended pattern has a rule once the rules are loaded, and the run sends exactly one suspension update per pattern, in order, to that pattern's rule |
| Propagation.SuspendStepPlain | lib.js:252-284 | suspension writes no merge or restore, and a dry suspension writes only rule creations |
| Propagation.PushbackStepPlain | lib.js:313-336 | the keyword's pushes only add tags; after a patch release the manifest holds the next alpha, and its alpha tag is on the remote |
| Propagation.MajorTagPushedIff | lib.js:302-309 | a patch release pushes the major tag `vM` exactly when the remote has no tag `vM.(m+1)` |
| Propagation.DevStepPlain | lib.js:394-403 | the dev step writes no merge or restore and leaves the release checkout's version and the tags as they were |
| Propagation.PreludePlain | lib.js:293-336 | before the merges, nothing is merged or restored; unless dry, the alpha tag of the version to merge is on the remote |
| Propagation.MergeStepShape | lib.js:349-392 | the merge loop writes only branch creations and merges, and a dry run writes nothing |
| Propagation.MergeStepResult | lib.js:375-378 | the merge loop succeeds exactly when every merge status is 201 or 204, and otherwise reports the first refused ref |
| Propagation.MergeStepMerges | lib.js:381-392 | a successful loop merged into every ref in order, each with its commit message |
| Propagation.EnsureStepFacts | lib.js:215-250 | restoring writes only creations and restoring updates; with protection on and not dry, every protected pattern is restored |
| Propagation.CompletionFacts | lib.js:394-405 | after the merges nothing more is merged; the library ends in success with the reset request and the bundle in failure |
| Propagation.MergeCallMerges | lib.js:286-406 | when the run is not dry and every merge is accepted, the keyword's target branches of the merged line are merged in table order with their messages, and nothing else is merged; the library succeeds |
| Propagation.MergeCallDry | lib.js:286-406 | a dry run leaves the manifest and tags alone, writes only rule creations and the reset, and succeeds exactly for the library's copy when the alpha tag already exists (the bundle's dry run never succeeds); a missing alpha tag is the error it reports |
| Propagation.MergeCallFailureLeavesSuspended | lib.js:294-404 | a run that throws before the end never restores protection |
| Propagation.MergeCallRestores | lib.js:404 | with protection on, a run that is not dry and whose merges are accepted restores every protected pattern's rule |
| Propagation.BundleMergeCallFails | dist/index.js:402-427 | the bundle's propagation never succeeds |
| Action.Verify | lib.js:475-481 | `verify` succeeds exactly when the strict resolve succeeds and the table names a keyword; "no rule" exactly when it resolves to none |
| Action.TryBump | lib.js:461 | the new state is the strictly resolved keyword's bump; a resolve failure changes nothing |
| Action.TryPublish | lib.js:463-471 | publishing is on and the keyword is patch or prerelease exactly when the packages are published |
| Action.TryMerge | lib.js:473 | the new state is the propagation for the loosely resolved keyword; no keyword fails at once with nothing written |
| Action.Prebuild | dist/index.js:647-654 | the new state and result are those of `prebuild`: a strict resolve, then the bump only when the keyword is patch |
| Action.Postbuild | dist/index.js:656-664 | the new state and result are those of `postbuild`: publish, bump unless the keyword is patch, then merge; the first failure stops it |
| Action.RunAction | dist/index.js:690-698 | `actions[action]`; any other name is refused |
| Action.Setup | dist/index.js:602-625 | the new state and result are those of `setup`: the event checks, then the git identity and, when lerna is missing, its install |
| Action.Teardown | dist/index.js:627-645 | the new state and result are those of `teardown`: on a verified pull request, the title chosen by the strictly resolved keyword is set |
| Action.Entry | dist/index.js:700-723 | the final state and result are those of the entry: a strict resolve (a failure ends the run unchanged), `setup`, the action, `teardown`, never dry |
| Action.ResolveKeepsLine | lib.js:48-98 | the resolver reads only the `major.minor` line of the version |
| Action.BumpStepWrites | lib.js:122-142 | a bump runs exactly one command, its own, and publishes nothing |
| Action.AutoBumpsOnce | dist/index.js:647-664 | `auto` bumps once before merging: `prebuild` bumps a patch and `postbuild` any other keyword. A release is published after its bump and a pre-release before it |
| Action.AutoMergesKeyword | dist/index.js:690-694 | the merge step of `auto` propagates the keyword that was resolved before the bump, dry or not |
| Action.TitleNamesPublishedVersion | dist/index.js:631-636 | the title of a verified release or pre-release names the version `auto` publishes for it |
| Action.PrebuildBumpsOnlyRelease | dist/index.js:647-654 | `prebuild` changes anything only for a patch, and then makes the release bump |
| Action.SetupRefusesIff | dist/index.js:602-625 | `setup` refuses exactly for an unmerged pull request on a merging action, or a manual run outside main; a refusal writes nothing, and otherwise only git configuration and the lerna install are written |
| Action.BundlePostbuildFails | dist/index.js:656-664 | the bundle's `postbuild` never succeeds |
| Action.EntryMergingFails | dist/index.js:700-723 | the bundle's entry never completes `auto` or `postbuild` |
| Action.EntryVerify | dist/index.js:627-645 | on a pull request, the entry's `verify` succeeds exactly when `verify` does, keeps the version, and its last write is the title for the keyword |

## Left out

- The command-line wrapper `cli.js` and the older `index.js` glue are not part of this model.
- The webpack runtime of the bundle, `tryClosePullRequest`, `core.setOutput` and console logging are not modelled.
- Every call to git, the GitHub API, npm, lerna or yarn is assumed to succeed, except the merge statuses. Those, the new rule ids and the dev branch's manifest version are inputs.
- `publishCall`: one publish of the manifest version is recorded. Workspaces, private packages and `NODE_AUTH_TOKEN` are not modelled.
- `makeNpmrcForLerna` is not modelled.
- `ensureLerna`: whether lerna is installed is an input. The lerna version string is the bundle's (`lerna@4.0.0`), because only the bundle's entry is modelled.
- The library's `resetDefaultBranch` is recorded as one reset request. The model does not capture the case where no dev branch exists, in which the library sends no request.
- `semver` is modelled only for versions whose pre-release identifier is `alpha.N`, the only shape the tool writes.
- Protection rules are listed in JavaScript insertion order. The reordering JavaScript applies to integer-like object keys does not arise for these patterns and is not modelled.
- The version command given the keyword `undefined` (when `tryBump` has no keyword) is taken to fail outside a dry run. What lerna or yarn does with it is not modelled.
- `actions[...]` of a name inherited from `Object.prototype` (such as `constructor`) is treated like any unknown action.
- Resolver.ResolveAsWritten: `Number("M.m") - 0.1` is computed on exact decimals, not IEEE doubles. Double rounding (`1.2 - 0.1` is not `1.1`) lets a one-line-behind head through in strict mode, and this model does not capture that.
- Propagation.Session.DevBranch, Propagation.DevStepPlain and Propagation.DevStep: after `git switch <baseRef>` the manifest is taken to hold the version it held before the dev step. The model does not capture the cases where the base branch's checkout holds something else. Under lerna, the library makes its bumps on the `lerna-bump-patch` branch. Without a local base branch, git checks out the pushed release commit, whose version is the release rather than the next alpha.
- Commands.BundleDefaultMessageNamesCurrent, Commands.MessageText, Propagation.NextVersion and Propagation.MergeMessage: `semver.inc` is taken to return a new version and leave the `SemVer` it is given unchanged. Some semver releases change that argument in place. With those, the bundle's default message would name the next version as the library's does, and the library's merge and dev-commit messages would name the prepatch of the current version even for a pre-release. The semver release the tool runs with is not part of this model.
- Action.Verify, Action.TryBump, Action.TryPublish, Action.TryMerge, Action.Prebuild, Action.Postbuild, Action.Entry and Propagation.MergeCallSpec: these decide with the intended resolver `Resolve`. When the current minor is 10 or more, or the head ref names a two-digit minor, the program decides with the decimal comparison of `ResolveAsWritten` and can differ (see Findings).
- Text.ReplaceFirst: its contract states only the case where the removed text starts the ref. That is the case for every ref the resolver sees without a `refs/heads/` prefix.
- Action.Prebuild, Action.Postbuild, Action.Setup, Action.Teardown, Action.RunAction, Action.Entry and the `Session` methods state their new state by their step functions. What those steps promise is in the lemmas beside them.

## Findings

| source | as written | input that shows it | evidently intended | confidence | as-written member | corrected member |
|---|---|---|---|---|---|---|
| lib.js:50-95 | the line window compares `Number("M.m")` with `Number` of a head capture holding one minor digit | current `1.9.0`, pull request `release/v1/v1.9` into `main`: `verify` accepts it and the preminor bump gives `1.10.0-alpha.0`. `tryMerge` then reads `Number("1.10")` as `1.1` and the head's `1.9` as ahead of it, and throws | compare the head's line with the current line on whole major and minor numbers | not executed | Resolver.LenientAfterBumpFailsAsWritten | Resolver.LenientAfterBump |
| dist/index.js:402-427 | the bundle's `resetDefaultBranch` sends a query with one closing brace too many, and reads `lastDevName` outside the loop that declares it | any bundled `mergeCall` that gets past its merges | point the default branch at the newest dev branch, as lib.js:408-432 does | not executed | Propagation.BundleMergeCallFails | Propagation.MergeCallMerges |
