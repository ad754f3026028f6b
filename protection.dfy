/**
 * Branch protection: the map from rule pattern to rule id the tool builds
 * (`getBranchProtectionRulesMap`), and the settings it writes to each rule
 * when it restores protection (`ensureBranchesProtection`) or lifts it around
 * its own pushes (`suspendBranchesProtection`).
 */
module Protection {
  import opened Outcomes
  import opened Text

  /** The four branch patterns the tool keeps protected. */
  const ProtectedPatterns: seq<string> := ["main", "release/*/*", "alpha/*/*", "dev/*/*"]

  /** A node of the repository's protection-rule query. */
  datatype Rule = Rule(pattern: string, id: string)

  /**
   * The fields of `updateBranchProtectionRule`; the status-check contexts are
   * None when the update leaves them as they are.
   */
  datatype Settings = Settings(
    requiresApprovingReviews: bool,
    requiredApprovingReviewCount: nat,
    dismissesStaleReviews: bool,
    restrictsReviewDismissals: bool,
    requiresStatusChecks: bool,
    requiredStatusCheckContexts: Option<seq<string>>,
    requiresStrictStatusChecks: bool,
    requiresConversationResolution: bool,
    isAdminEnforced: bool,
    restrictsPushes: bool,
    allowsForcePushes: bool,
    allowsDeletions: bool)

  /** A rule's settings after an update: every field the update gives is replaced. */
  function Apply(current: Settings, update: Settings): Settings {
    if update.requiredStatusCheckContexts.Some? then update
    else update.(requiredStatusCheckContexts := current.requiredStatusCheckContexts)
  }

  /** Whether `ensureBranchesProtection` restricts a pattern: every one but the `dev` channel's. */
  predicate Restricts(pattern: string) {
    FirstSegment(pattern) != "dev"
  }

  /** The update `ensureBranchesProtection` sends for a pattern. */
  function EnsureUpdate(pattern: string): Settings {
    var r := Restricts(pattern);
    Settings(r, if r then 1 else 0, true, true, true, Some(if r then ["verify"] else []),
             true, true, true, r, false, false)
  }

  /** The update `suspendBranchesProtection` sends, whatever the pattern. */
  const SuspendUpdate: Settings :=
    Settings(false, 0, false, false, false, None, false, false, true, false, true, false)

  /**
   * Restoring protection fixes every field of the rule: the rule ends the same
   * whatever state it was in before, and in particular whatever a suspension
   * left behind.
   */
  lemma EnsureDeterminesRule(x: Settings, y: Settings, pattern: string)
    ensures Apply(x, EnsureUpdate(pattern)) == Apply(y, EnsureUpdate(pattern)) == EnsureUpdate(pattern)
  {
  }

  /** Suspending and then restoring a rule is the same as restoring it. */
  lemma EnsureUndoesSuspend(x: Settings, pattern: string)
    ensures Apply(Apply(x, SuspendUpdate), EnsureUpdate(pattern)) == Apply(x, EnsureUpdate(pattern))
  {
  }

  /**
   * A suspended rule lets the tool force-push without reviews or checks, keeps
   * its status-check contexts, and still refuses deletion and binds admins.
   */
  lemma SuspendRelaxes(x: Settings)
    ensures var s := Apply(x, SuspendUpdate);
            && s.allowsForcePushes && !s.restrictsPushes
            && !s.requiresApprovingReviews && s.requiredApprovingReviewCount == 0 && !s.requiresStatusChecks
            && s.isAdminEnforced && !s.allowsDeletions
            && s.requiredStatusCheckContexts == x.requiredStatusCheckContexts
  {
  }

  /**
   * A restored rule never allows force pushes or deletion; push restriction,
   * one approving review and the `verify` check apply exactly outside `dev`.
   */
  lemma EnsureRestrictsOutsideDev(pattern: string)
    ensures var s := EnsureUpdate(pattern);
            && !s.allowsForcePushes && !s.allowsDeletions && s.isAdminEnforced
            && (s.restrictsPushes <==> FirstSegment(pattern) != "dev")
            && (s.requiresApprovingReviews <==> s.restrictsPushes)
            && (s.requiredApprovingReviewCount == 1 <==> s.restrictsPushes)
            && (s.requiredStatusCheckContexts == Some(["verify"]) <==> s.restrictsPushes)
  {
  }

  /** Of the four protected patterns, `main`, `release`, `alpha` are restricted and `dev` is not. */
  lemma ProtectedPatternRestrictions()
    ensures Restricts("main") && Restricts("release/*/*") && Restricts("alpha/*/*")
    ensures !Restricts("dev/*/*")
  {
    FirstSegmentOfComposed("dev", "/*/*");
    assert "dev" + "/*/*" == "dev/*/*";
    FirstSegmentOfComposed("alpha", "/*/*");
    assert "alpha" + "/*/*" == "alpha/*/*";
    FirstSegmentOfComposed("release", "/*/*");
    assert "release" + "/*/*" == "release/*/*";
    FirstSegmentOfComposed("main", "");
    assert "main" + "" == "main";
  }

  /** The patterns of the rule nodes, in query order. */
  function Patterns(nodes: seq<Rule>): (ps: seq<string>)
    ensures |ps| == |nodes| && forall i :: 0 <= i < |nodes| ==> ps[i] == nodes[i].pattern
  {
    seq(|nodes|, i requires 0 <= i < |nodes| => nodes[i].pattern)
  }

  /** The distinct elements of `s` in the order they first appear: the key order of a JS object. */
  function FirstOccurrences(s: seq<string>): seq<string> {
    if s == [] then [] else
      var d := FirstOccurrences(s[..|s| - 1]);
      if s[|s| - 1] in d then d else d + [s[|s| - 1]]
  }

  predicate Distinct(s: seq<string>) {
    forall i, j :: 0 <= i < j < |s| ==> s[i] != s[j]
  }

  /** The id the map ends with for a pattern of the nodes: the last node's, as later writes win. */
  function LastIdOf(nodes: seq<Rule>, pattern: string): string
    requires pattern in Patterns(nodes)
  {
    var last := nodes[|nodes| - 1];
    if last.pattern == pattern then last.id
    else
      assert Patterns(nodes) == Patterns(nodes[..|nodes| - 1]) + [last.pattern];
      LastIdOf(nodes[..|nodes| - 1], pattern)
  }

  /** The elements of `ps` that are not in `present`, in order. */
  function Missing(ps: seq<string>, present: set<string>): (m: seq<string>)
    ensures forall x :: x in m <==> x in ps && x !in present
  {
    if ps == [] then [] else
      (if ps[0] in present then [] else [ps[0]]) + Missing(ps[1..], present)
  }

  /** The patterns of the nodes, as a set: the keys of the map the first loop builds. */
  function PatternSet(nodes: seq<Rule>): (ps: set<string>)
    ensures forall p :: p in ps <==> p in Patterns(nodes)
  {
    set p | p in Patterns(nodes)
  }

  /** The protected patterns no node has: the rules the tool creates. */
  function MissingProtected(nodes: seq<Rule>): seq<string> {
    Missing(ProtectedPatterns, PatternSet(nodes))
  }

  /** The nodes for rules created with the given ids. */
  function CreatedRules(patterns: seq<string>, newId: string -> string): (rs: seq<Rule>)
    ensures |rs| == |patterns| && forall i :: 0 <= i < |rs| ==> rs[i] == Rule(patterns[i], newId(patterns[i]))
  {
    seq(|patterns|, i requires 0 <= i < |patterns| => Rule(patterns[i], newId(patterns[i])))
  }

  /** The key order holds exactly the patterns of the nodes. */
  lemma {:induction false} FirstOccurrencesMembers(s: seq<string>)
    ensures forall x :: x in FirstOccurrences(s) <==> x in s
  {
    if s != [] {
      FirstOccurrencesMembers(s[..|s| - 1]);
      assert s == s[..|s| - 1] + [s[|s| - 1]];
    }
  }

  /** The key order holds each pattern once, and exactly the patterns of the nodes. */
  lemma {:induction false} FirstOccurrencesDistinct(s: seq<string>)
    ensures Distinct(FirstOccurrences(s))
    ensures forall x :: x in FirstOccurrences(s) <==> x in s
  {
    FirstOccurrencesMembers(s);
    if s != [] {
      FirstOccurrencesDistinct(s[..|s| - 1]);
    }
  }

  lemma {:induction false} MissingDistinct(ps: seq<string>, present: set<string>)
    requires Distinct(ps)
    ensures Distinct(Missing(ps, present))
  {
    if ps != [] {
      MissingDistinct(ps[1..], present);
    }
  }

  lemma DistinctSnoc(s: seq<string>, x: string)
    requires Distinct(s) && x !in s
    ensures Distinct(s + [x])
  {
  }

  /** Appending a node: its pattern joins the key order unless already there. */
  lemma FirstOccurrencesSnoc(s: seq<string>, x: string)
    ensures FirstOccurrences(s + [x]) == if x in FirstOccurrences(s) then FirstOccurrences(s) else FirstOccurrences(s) + [x]
  {
    assert (s + [x])[..|s|] == s;
  }

  lemma PatternsSnoc(nodes: seq<Rule>, r: Rule)
    ensures Patterns(nodes + [r]) == Patterns(nodes) + [r.pattern]
  {
    assert (nodes + [r])[..|nodes|] == nodes;
  }

  /** Appending a node: it decides the id of its own pattern and leaves the others. */
  lemma LastIdOfSnoc(nodes: seq<Rule>, r: Rule, p: string)
    requires p in Patterns(nodes + [r])
    ensures p == r.pattern ==> LastIdOf(nodes + [r], p) == r.id
    ensures p != r.pattern ==> p in Patterns(nodes) && LastIdOf(nodes + [r], p) == LastIdOf(nodes, p)
  {
    PatternsSnoc(nodes, r);
    assert (nodes + [r])[..|nodes|] == nodes;
  }

  /**
   * The first loop of `getBranchProtectionRulesMap`: every node's id is
   * recorded under its pattern, a later node of the same pattern overwriting
   * an earlier one; `order` is the key order of the object built.
   */
  method RecordRules(nodes: seq<Rule>) returns (order: seq<string>, ids: map<string, string>)
    ensures order == FirstOccurrences(Patterns(nodes))
    ensures forall p :: p in ids <==> p in order
    ensures forall p :: p in Patterns(nodes) ==> p in ids && ids[p] == LastIdOf(nodes, p)
  {
    order, ids := [], map[];
    var i := 0;
    while i < |nodes|
      invariant 0 <= i <= |nodes|
      invariant order == FirstOccurrences(Patterns(nodes[..i]))
      invariant forall p :: p in ids <==> p in order
      invariant forall p :: p in Patterns(nodes[..i]) ==> p in ids && ids[p] == LastIdOf(nodes[..i], p)
    {
      var rule := nodes[i];
      ghost var done, next := nodes[..i], nodes[..i + 1];
      assert next == done + [rule];
      PatternsSnoc(done, rule);
      FirstOccurrencesSnoc(Patterns(done), rule.pattern);
      var ids' := ids[rule.pattern := rule.id];
      forall p | p in Patterns(next)
        ensures p in ids' && LastIdOf(next, p) == ids'[p]
      {
        LastIdOfSnoc(done, rule, p);
      }
      if rule.pattern !in ids {
        order := order + [rule.pattern];
      }
      ids := ids';
      i := i + 1;
    }
    assert nodes[..|nodes|] == nodes;
  }

  /** The patterns of created rules are the patterns they were created for. */
  lemma PatternsOfCreated(patterns: seq<string>, newId: string -> string)
    ensures Patterns(CreatedRules(patterns, newId)) == patterns
  {
  }

  lemma PatternsAppend(a: seq<Rule>, b: seq<Rule>)
    ensures Patterns(a + b) == Patterns(a) + Patterns(b)
  {
  }

  /** Appending patterns that are new and distinct extends the key order by them, in order. */
  lemma {:induction false} FirstOccurrencesAppend(s: seq<string>, t: seq<string>)
    requires Distinct(t) && forall x :: x in t ==> x !in s
    ensures FirstOccurrences(s + t) == FirstOccurrences(s) + t
  {
    if t == [] {
      assert s + t == s;
    } else {
      var u := t[..|t| - 1];
      var x := t[|t| - 1];
      assert t == u + [x];
      assert x !in u by {
        forall i | 0 <= i < |u|
          ensures u[i] != x
        {
          assert u[i] == t[i];
        }
      }
      FirstOccurrencesAppend(s, u);
      assert s + t == (s + u) + [x];
      FirstOccurrencesMembers(s + u);
      FirstOccurrencesSnoc(s + u, x);
    }
  }

  /** After more rules are appended, a pattern's id is the last appended one's, if any. */
  lemma {:induction false} LastIdOfAppend(nodes: seq<Rule>, rs: seq<Rule>, p: string)
    requires p in Patterns(nodes + rs)
    ensures p in Patterns(rs) || p in Patterns(nodes)
    ensures LastIdOf(nodes + rs, p) == if p in Patterns(rs) then LastIdOf(rs, p) else LastIdOf(nodes, p)
  {
    PatternsAppend(nodes, rs);
    if rs == [] {
      assert nodes + rs == nodes;
    } else {
      var front := rs[..|rs| - 1];
      var r := rs[|rs| - 1];
      assert rs == front + [r];
      assert nodes + rs == (nodes + front) + [r];
      PatternsSnoc(front, r);
      if p != r.pattern {
        LastIdOfSnoc(nodes + front, r, p);
        LastIdOfAppend(nodes, front, p);
        if p in Patterns(rs) {
          LastIdOfSnoc(front, r, p);
        }
      }
    }
  }

  /** When every rule's id is a function of its pattern, so is the id the map ends with. */
  lemma {:induction false} LastIdOfUniform(nodes: seq<Rule>, newId: string -> string, p: string)
    requires forall i :: 0 <= i < |nodes| ==> nodes[i].id == newId(nodes[i].pattern)
    requires p in Patterns(nodes)
    ensures LastIdOf(nodes, p) == newId(p)
  {
    var last := nodes[|nodes| - 1];
    if last.pattern != p {
      PatternsSnoc(nodes[..|nodes| - 1], last);
      assert nodes == nodes[..|nodes| - 1] + [last];
      LastIdOfUniform(nodes[..|nodes| - 1], newId, p);
    }
  }

  /**
   * The second loop of `getBranchProtectionRulesMap`: a rule is created for
   * each missing pattern, in turn, and its id recorded under a new key.
   */
  method CreateRules(order0: seq<string>, ids0: map<string, string>, missing: seq<string>, newId: string -> string)
    returns (order: seq<string>, ids: map<string, string>)
    requires Distinct(order0) && Distinct(missing)
    requires forall p :: p in ids0 <==> p in order0
    requires forall p :: p in missing ==> p !in ids0
    ensures order == order0 + missing && Distinct(order)
    ensures forall p :: p in ids <==> p in order
    ensures forall p :: p in ids0 ==> ids[p] == ids0[p]
    ensures forall p :: p in missing ==> ids[p] == newId(p)
  {
    order, ids := order0, ids0;
    var j := 0;
    while j < |missing|
      invariant 0 <= j <= |missing|
      invariant order == order0 + missing[..j] && Distinct(order)
      invariant forall p :: p in ids <==> p in order
      invariant forall p :: p in ids0 ==> p in ids && ids[p] == ids0[p]
      invariant forall k :: 0 <= k < j ==> missing[k] in ids && ids[missing[k]] == newId(missing[k])
    {
      var pattern := missing[j];
      assert pattern !in order;
      DistinctSnoc(order, pattern);
      assert missing[..j + 1] == missing[..j] + [pattern];
      order := order + [pattern];
      ids := ids[pattern := newId(pattern)];
      j := j + 1;
    }
    assert missing[..|missing|] == missing;
  }

  /**
   * `getBranchProtectionRulesMap`: the recorded ids, then a rule created, with
   * the id the creation returns, for each protected pattern still missing.
   * `order` is the key order of the resulting object and `created` the
   * patterns whose rules were created, in the order they were created.
   */
  method RulesMap(nodes: seq<Rule>, newId: string -> string) returns (order: seq<string>, ids: map<string, string>, created: seq<string>)
    ensures order == FirstOccurrences(Patterns(nodes)) + created && Distinct(order)
    ensures created == MissingProtected(nodes)
    ensures forall p :: p in ids <==> p in order
    ensures forall p :: p in Patterns(nodes) ==> p in ids && ids[p] == LastIdOf(nodes, p)
    ensures forall p :: p in created ==> p in ids && ids[p] == newId(p)
    ensures var all := nodes + CreatedRules(created, newId);
            order == FirstOccurrences(Patterns(all)) &&
            forall p :: p in order ==> p in Patterns(all) && ids[p] == LastIdOf(all, p)
  {
    var recorded, known := RecordRules(nodes);
    FirstOccurrencesDistinct(Patterns(nodes));
    ghost var present := PatternSet(nodes);
    assert known.Keys == present;
    created := Missing(ProtectedPatterns, known.Keys);
    MissingDistinct(ProtectedPatterns, present);
    order, ids := CreateRules(recorded, known, created, newId);
    IdsOfAllRules(nodes, newId, order, ids);
  }

  /** Ids kept for the recorded patterns and taken from the creations are the last ids of the whole rule list. */
  lemma IdsOfAllRules(nodes: seq<Rule>, newId: string -> string, order: seq<string>, ids: map<string, string>)
    requires order == FirstOccurrences(Patterns(nodes)) + MissingProtected(nodes)
    requires forall p :: p in Patterns(nodes) ==> p in ids && ids[p] == LastIdOf(nodes, p)
    requires forall p :: p in MissingProtected(nodes) ==> p in ids && ids[p] == newId(p)
    ensures var all := nodes + CreatedRules(MissingProtected(nodes), newId);
            order == FirstOccurrences(Patterns(all)) &&
            forall p :: p in order ==> p in Patterns(all) && ids[p] == LastIdOf(all, p)
  {
    CreatedRulesLayout(nodes, newId);
    FirstOccurrencesMembers(Patterns(nodes));
  }

  /**
   * The rule list once the missing rules are created: its key order is the
   * recorded order followed by the created patterns, and each pattern's last
   * id is the recorded one or the newly created one.
   */
  lemma CreatedRulesLayout(nodes: seq<Rule>, newId: string -> string)
    ensures var created := MissingProtected(nodes);
            var all := nodes + CreatedRules(created, newId);
            && FirstOccurrences(Patterns(all)) == FirstOccurrences(Patterns(nodes)) + created
            && (forall p :: p in Patterns(nodes) ==> p in Patterns(all) && LastIdOf(all, p) == LastIdOf(nodes, p))
            && (forall p :: p in created ==> p in Patterns(all) && LastIdOf(all, p) == newId(p))
  {
    var created := MissingProtected(nodes);
    CreatedOrder(nodes, created, newId);
    forall p | p in Patterns(nodes)
      ensures p in Patterns(nodes + CreatedRules(created, newId))
      ensures LastIdOf(nodes + CreatedRules(created, newId), p) == LastIdOf(nodes, p)
    {
      KeptId(nodes, created, newId, p);
    }
    forall p | p in created
      ensures p in Patterns(nodes + CreatedRules(created, newId))
      ensures LastIdOf(nodes + CreatedRules(created, newId), p) == newId(p)
    {
      CreatedId(nodes, created, newId, p);
    }
  }

  lemma CreatedOrder(nodes: seq<Rule>, created: seq<string>, newId: string -> string)
    requires created == MissingProtected(nodes)
    ensures FirstOccurrences(Patterns(nodes + CreatedRules(created, newId))) == FirstOccurrences(Patterns(nodes)) + created
  {
    PatternsOfCreated(created, newId);
    PatternsAppend(nodes, CreatedRules(created, newId));
    MissingDistinct(ProtectedPatterns, PatternSet(nodes));
    FirstOccurrencesAppend(Patterns(nodes), created);
  }

  lemma KeptId(nodes: seq<Rule>, created: seq<string>, newId: string -> string, p: string)
    requires created == MissingProtected(nodes) && p in Patterns(nodes)
    ensures p in Patterns(nodes + CreatedRules(created, newId))
    ensures LastIdOf(nodes + CreatedRules(created, newId), p) == LastIdOf(nodes, p)
  {
    PatternsOfCreated(created, newId);
    PatternsAppend(nodes, CreatedRules(created, newId));
    LastIdOfAppend(nodes, CreatedRules(created, newId), p);
  }

  lemma CreatedId(nodes: seq<Rule>, created: seq<string>, newId: string -> string, p: string)
    requires p in created
    ensures p in Patterns(nodes + CreatedRules(created, newId))
    ensures LastIdOf(nodes + CreatedRules(created, newId), p) == newId(p)
  {
    var rs := CreatedRules(created, newId);
    PatternsOfCreated(created, newId);
    PatternsAppend(nodes, rs);
    LastIdOfAppend(nodes, rs, p);
    LastIdOfUniform(rs, newId, p);
  }

  /** Once the missing rules are created, a second pass finds none missing. */
  lemma CreationCompletes(nodes: seq<Rule>, newId: string -> string)
    ensures MissingProtected(nodes + CreatedRules(MissingProtected(nodes), newId)) == []
  {
    var created := MissingProtected(nodes);
    var all := nodes + CreatedRules(created, newId);
    PatternsOfCreated(created, newId);
    PatternsAppend(nodes, CreatedRules(created, newId));
    NoneMissing(ProtectedPatterns, PatternSet(all));
  }

  lemma {:induction false} NoneMissing(ps: seq<string>, present: set<string>)
    requires forall p :: p in ps ==> p in present
    ensures Missing(ps, present) == []
  {
    if ps != [] {
      NoneMissing(ps[1..], present);
    }
  }
}
