/** What a run of the command guarantees, stated over the reference
    specification in module Plan (which the command class is proved to follow). */
module Properties {
  import opened Sequences
  import opened TableNames
  import opened Resources
  import opened Plan

  // ----- Building blocks -----

  lemma {:induction false} ApplyEachAppend(action: Action, a: seq<string>, b: seq<string>)
    ensures ApplyEach(action, a + b) == ApplyEach(action, a) + ApplyEach(action, b)
    decreases |a|
  {
    if a == [] {
      assert a + b == b;
    } else {
      assert (a + b)[0] == a[0] && (a + b)[1..] == a[1..] + b;
      ApplyEachAppend(action, a[1..], b);
      // Regrouping hint: the solver is slow to reassociate these concatenations unaided.
      Regroup3([Apply(action, a[0])], ApplyEach(action, a[1..]), ApplyEach(action, b));
    }
  }

  /** Every effect of ApplyEach is the given action on one of the given names. */
  lemma {:induction false} ApplyEachContents(action: Action, names: seq<string>, e: Effect)
    ensures e in ApplyEach(action, names) <==> e.Apply? && e.action == action && e.table in names
    decreases |names|
  {
    if names != [] {
      ApplyEachContents(action, names[1..], e);
      assert names == [names[0]] + names[1..];
    }
  }

  /** The group loop keeps exactly the names that are not falsy. */
  lemma {:induction false} TruthyContents(names: seq<string>, t: string)
    ensures t in Truthy(names) <==> t in names && !Falsy(t)
    decreases |names|
  {
    if names != [] {
      TruthyContents(names[1..], t);
      assert names == [names[0]] + names[1..];
    }
  }

  // ----- The opening question -----

  /** Without initialisation, or when the operator declines the opening
      question, nothing reaches the database: no snapshot, no foreign-key
      toggle, no truncate or drop; at most the question itself is asked. */
  lemma DeclinedRunTouchesNothing(initialized: bool, force: bool, resolver: map<string, string>,
                                  groups: seq<ResourceGroup>, database: seq<string>, replies: seq<bool>)
    requires !Started(initialized, force, replies)
    ensures Run(initialized, force, resolver, groups, database, replies).effects
         == if initialized then [Ask(Proceed)] else []
  {
  }

  // ----- Replies are consumed in order -----

  /** The group phase takes its answers from the front of the replies and
      invents none: what it leaves is a suffix of what it was given. */
  lemma {:induction false} GroupsRunUnanswered(force: bool, resolver: map<string, string>,
                                               groups: seq<ResourceGroup>, replies: seq<bool>)
    ensures Unanswered(GroupsRun(force, resolver, groups, replies).replies, replies)
    decreases |groups|
  {
    if groups == [] {
      assert replies[|replies| - |replies|..] == replies;
    } else {
      var first := GroupRun(force, resolver, groups[0], replies);
      GroupsRunUnanswered(force, resolver, groups[1..], first.replies);
      if Resolve(resolver, groups[0].members) == [] {
        assert first.replies == replies;
      } else {
        assert first.replies == Confirm(force, ConfirmTables(groups[0].name, Truncate, Rows(Resolve(resolver, groups[0].members))), replies).replies;
      }
      assert Unanswered(first.replies, replies) by {
        assert replies[|replies| - |replies|..] == replies;
      }
      UnansweredTrans(GroupsRun(force, resolver, groups[1..], first.replies).replies, first.replies, replies);
    }
  }

  /** The rule phase takes its answers from the front of the replies. */
  lemma {:induction false} RulesRunUnanswered(force: bool, snapshot: seq<string>, rules: seq<Rule>, replies: seq<bool>)
    ensures Unanswered(RulesRun(force, snapshot, rules, replies).replies, replies)
    decreases |rules|
  {
    if rules == [] {
      assert replies[|replies| - |replies|..] == replies;
    } else {
      var first := RuleRun(force, snapshot, rules[0], replies);
      RulesRunUnanswered(force, snapshot, rules[1..], first.replies);
      if Grep(rules[0].pattern, snapshot) == [] {
        assert first.replies == replies;
      } else {
        var names := Grep(rules[0].pattern, snapshot);
        assert first.replies == Confirm(force, ConfirmTables(rules[0].title, rules[0].action, Rows(names)), replies).replies;
      }
      assert Unanswered(first.replies, replies) by {
        assert replies[|replies| - |replies|..] == replies;
      }
      UnansweredTrans(RulesRun(force, snapshot, rules[1..], first.replies).replies, first.replies, replies);
    }
  }

  /** A whole run answers its questions from the front of the replies, in the
      order it asks them; what it leaves is a suffix of what it was given. */
  lemma RunUnanswered(initialized: bool, force: bool, resolver: map<string, string>,
                      groups: seq<ResourceGroup>, database: seq<string>, replies: seq<bool>)
    ensures Unanswered(Run(initialized, force, resolver, groups, database, replies).replies, replies)
  {
    assert replies[|replies| - |replies|..] == replies;
    if Started(initialized, force, replies) {
      var start := Confirm(force, Proceed, replies);
      var cleaned := GroupsRun(force, resolver, groups, start.replies);
      var matched := RulesRun(force, database, Rules(), cleaned.replies);
      GroupsRunUnanswered(force, resolver, groups, start.replies);
      RulesRunUnanswered(force, database, Rules(), cleaned.replies);
      UnansweredTrans(matched.replies, cleaned.replies, start.replies);
      UnansweredTrans(matched.replies, start.replies, replies);
    }
  }

  // ----- Forced runs -----

  /** Reference for the forced group phase: every non-falsy resolved table of
      every group, in group order and member order. */
  function GroupTargets(resolver: map<string, string>, groups: seq<ResourceGroup>): seq<string>
    decreases |groups|
  {
    if groups == [] then []
    else Truthy(Resolve(resolver, groups[0].members)) + GroupTargets(resolver, groups[1..])
  }

  lemma {:induction false} ForcedGroupsRun(resolver: map<string, string>, groups: seq<ResourceGroup>, replies: seq<bool>)
    ensures GroupsRun(true, resolver, groups, replies)
         == Outcome(ApplyEach(Truncate, GroupTargets(resolver, groups)), replies)
    decreases |groups|
  {
    if groups != [] {
      var names := Resolve(resolver, groups[0].members);
      var first := GroupRun(true, resolver, groups[0], replies);
      assert first == Outcome(ApplyEach(Truncate, Truthy(names)), replies) by {
        if names != [] {
          assert [] + ApplyEach(Truncate, Truthy(names)) == ApplyEach(Truncate, Truthy(names));
        }
      }
      ForcedGroupsRun(resolver, groups[1..], replies);
      ApplyEachAppend(Truncate, Truthy(names), GroupTargets(resolver, groups[1..]));
    }
  }

  /** A forced run asks nothing and consumes no reply; it truncates every
      non-falsy resolved table of every group, then truncates every changelog
      table, drops every category-flat table and drops every product-flat
      table of the snapshot, in that order, between the two foreign-key
      statements. */
  lemma ForcedRun(resolver: map<string, string>, groups: seq<ResourceGroup>, database: seq<string>, replies: seq<bool>)
    ensures Run(true, true, resolver, groups, database, replies)
         == Outcome([ShowTables, ForeignKeyChecks(false)]
                    + ApplyEach(Truncate, GroupTargets(resolver, groups))
                    + ApplyEach(Truncate, Grep(ChangelogSuffix, database))
                    + ApplyEach(Drop, Grep(CategoryFlat, database))
                    + ApplyEach(Drop, Grep(ProductFlat, database))
                    + [ForeignKeyChecks(true)], replies)
  {
    var targets := ApplyEach(Truncate, GroupTargets(resolver, groups));
    var changelog := ApplyEach(Truncate, Grep(ChangelogSuffix, database));
    var category := ApplyEach(Drop, Grep(CategoryFlat, database));
    var product := ApplyEach(Drop, Grep(ProductFlat, database));
    ForcedGroupsRun(resolver, groups, replies);
    ForcedRulesRun(database, replies);
    var work := Maintenance(true, resolver, groups, database, replies);
    var bracket := [ShowTables, ForeignKeyChecks(false)];
    assert work.effects == bracket + targets + (changelog + category + product) + [ForeignKeyChecks(true)];
    // Regrouping hint: the solver is slow to reassociate these concatenations unaided.
    Regroup(bracket + targets, changelog, category, product);
  }

  /** No question is put to the operator in a forced run. */
  lemma ForcedRunAsksNothing(resolver: map<string, string>, groups: seq<ResourceGroup>, database: seq<string>, replies: seq<bool>)
    ensures forall e :: e in Run(true, true, resolver, groups, database, replies).effects ==> !e.Ask?
  {
    ForcedRun(resolver, groups, database, replies);
    OnlyApplies(Truncate, GroupTargets(resolver, groups));
    OnlyApplies(Truncate, Grep(ChangelogSuffix, database));
    OnlyApplies(Drop, Grep(CategoryFlat, database));
    OnlyApplies(Drop, Grep(ProductFlat, database));
    WritesBetweenChecks(ApplyEach(Truncate, GroupTargets(resolver, groups)),
                        ApplyEach(Truncate, Grep(ChangelogSuffix, database)),
                        ApplyEach(Drop, Grep(CategoryFlat, database)),
                        ApplyEach(Drop, Grep(ProductFlat, database)));
  }

  /** A bracketed trace of writes holds no question. */
  lemma WritesBetweenChecks(a: seq<Effect>, b: seq<Effect>, c: seq<Effect>, d: seq<Effect>)
    requires forall e :: e in a ==> e.Apply?
    requires forall e :: e in b ==> e.Apply?
    requires forall e :: e in c ==> e.Apply?
    requires forall e :: e in d ==> e.Apply?
    ensures forall e :: e in [ShowTables, ForeignKeyChecks(false)] + a + b + c + d + [ForeignKeyChecks(true)] ==> !e.Ask?
  {
  }

  lemma OnlyApplies(action: Action, names: seq<string>)
    ensures forall e :: e in ApplyEach(action, names) ==> e.Apply?
  {
    forall e | e in ApplyEach(action, names) ensures e.Apply? {
      ApplyEachContents(action, names, e);
    }
  }

  /** The three rules of a forced run: every match acted on, nothing asked. */
  lemma ForcedRulesRun(database: seq<string>, replies: seq<bool>)
    ensures RulesRun(true, database, Rules(), replies)
         == Outcome(ApplyEach(Truncate, Grep(ChangelogSuffix, database))
                    + ApplyEach(Drop, Grep(CategoryFlat, database))
                    + ApplyEach(Drop, Grep(ProductFlat, database)), replies)
  {
    RulesRunInOrder(true, database, Rules(), replies);
    ForcedRuleRun(database, Rules()[0], replies);
    ForcedRuleRun(database, Rules()[1], replies);
    ForcedRuleRun(database, Rules()[2], replies);
  }

  lemma ForcedRuleRun(database: seq<string>, rule: Rule, replies: seq<bool>)
    ensures RuleRun(true, database, rule, replies) == Outcome(ApplyEach(rule.action, Grep(rule.pattern, database)), replies)
  {
    var names := Grep(rule.pattern, database);
    if names != [] {
      assert [] + ApplyEach(rule.action, names) == ApplyEach(rule.action, names);
    }
  }

  // ----- Groups -----

  /** A group issues nothing exactly when none of its members resolves, or
      when the run is forced and every resolved name is falsy. In particular
      a group whose members all fail to resolve is skipped without a question. */
  lemma GroupSilentIff(force: bool, resolver: map<string, string>, group: ResourceGroup, replies: seq<bool>)
    ensures GroupRun(force, resolver, group, replies).effects == []
        <==> (forall i :: 0 <= i < |group.members| ==> group.members[i] !in resolver)
             || (force && Truthy(Resolve(resolver, group.members)) == [])
    ensures (forall i :: 0 <= i < |group.members| ==> group.members[i] !in resolver)
            ==> GroupRun(force, resolver, group, replies) == Outcome([], replies)
  {
    ResolveEmptyIffNoneFound(resolver, group.members);
    var names := Resolve(resolver, group.members);
    if force && names != [] {
      if Truthy(names) != [] {
        assert ApplyEach(Truncate, Truthy(names))[0] == Apply(Truncate, Truthy(names)[0]);
      }
    }
  }

  /** A group that is confirmed (or forced) truncates exactly its resolved
      tables that are not falsy, and nothing else. */
  lemma GrantedGroupTruncatesExactly(force: bool, resolver: map<string, string>, group: ResourceGroup,
                                     replies: seq<bool>, e: Effect)
    requires force || Reply(replies)
    requires e.Apply?
    ensures e in GroupRun(force, resolver, group, replies).effects
        <==> e.action == Truncate && e.table in Resolve(resolver, group.members) && !Falsy(e.table)
  {
    var names := Resolve(resolver, group.members);
    ApplyEachContents(Truncate, Truthy(names), e);
    TruthyContents(names, e.table);
    if names == [] {
      assert e.table !in names;
    }
  }

  /** Running two lists of groups one after the other is running their concatenation. */
  lemma {:induction false} GroupsRunAppend(force: bool, resolver: map<string, string>,
                                           a: seq<ResourceGroup>, b: seq<ResourceGroup>, replies: seq<bool>)
    ensures var first := GroupsRun(force, resolver, a, replies);
            var rest := GroupsRun(force, resolver, b, first.replies);
            GroupsRun(force, resolver, a + b, replies) == Outcome(first.effects + rest.effects, rest.replies)
    decreases |a|
  {
    if a == [] {
      assert a + b == b;
    } else {
      assert (a + b)[0] == a[0] && (a + b)[1..] == a[1..] + b;
      var first := GroupRun(force, resolver, a[0], replies);
      var middle := GroupsRun(force, resolver, a[1..], first.replies);
      var rest := GroupsRun(force, resolver, b, middle.replies);
      GroupsRunAppend(force, resolver, a[1..], b, first.replies);
      // Regrouping hint: the solver is slow to reassociate these concatenations unaided.
      Regroup3(first.effects, middle.effects, rest.effects);
    }
  }

  /** Declining the question for one group issues only that question for it:
      no truncation of its tables. The groups before it are unaffected and the
      groups after it run exactly as they would on the remaining replies. */
  lemma DeclinedGroupSkipsOnlyIt(resolver: map<string, string>, before: seq<ResourceGroup>, group: ResourceGroup,
                                 after: seq<ResourceGroup>, replies: seq<bool>)
    requires Resolve(resolver, group.members) != []
    requires !Reply(GroupsRun(false, resolver, before, replies).replies)
    ensures var prior := GroupsRun(false, resolver, before, replies);
            var question := Ask(ConfirmTables(group.name, Truncate, Rows(Resolve(resolver, group.members))));
            var later := GroupsRun(false, resolver, after, Remaining(prior.replies));
            GroupsRun(false, resolver, before + [group] + after, replies)
              == Outcome(prior.effects + [question] + later.effects, later.replies)
  {
    var prior := GroupsRun(false, resolver, before, replies);
    var later := GroupsRun(false, resolver, after, Remaining(prior.replies));
    var question := Ask(ConfirmTables(group.name, Truncate, Rows(Resolve(resolver, group.members))));
    GroupsRunAppend(false, resolver, before, [group] + after, replies);
    // Regrouping hint: the solver is slow to reassociate these concatenations unaided.
    Regroup3(before, [group], after);
    assert ([group] + after)[0] == group && ([group] + after)[1..] == after;
    assert GroupRun(false, resolver, group, prior.replies) == Outcome([question], Remaining(prior.replies)) by {
      assert [question] + [] == [question];
    }
    // Regrouping hint: the solver is slow to reassociate these concatenations unaided.
    Regroup3(prior.effects, [question], later.effects);
  }

  // ----- Rules -----

  /** A rule that is confirmed (or forced) applies its action to exactly the
      snapshot tables its pattern accepts, and to nothing else. */
  lemma GrantedRuleActsOnExactlyMatches(force: bool, snapshot: seq<string>, rule: Rule, replies: seq<bool>, e: Effect)
    requires force || Reply(replies)
    requires e.Apply?
    ensures e in RuleRun(force, snapshot, rule, replies).effects
        <==> e.action == rule.action && e.table in snapshot && rule.pattern.Accepts(e.table)
  {
    var names := Grep(rule.pattern, snapshot);
    ApplyEachContents(rule.action, names, e);
    GrepContents(rule.pattern, snapshot, e.table);
    if names == [] {
      assert e.table !in names;
    }
  }

  lemma {:induction false} RulesRunAppend(force: bool, snapshot: seq<string>, a: seq<Rule>, b: seq<Rule>, replies: seq<bool>)
    ensures var first := RulesRun(force, snapshot, a, replies);
            var rest := RulesRun(force, snapshot, b, first.replies);
            RulesRun(force, snapshot, a + b, replies) == Outcome(first.effects + rest.effects, rest.replies)
    decreases |a|
  {
    if a == [] {
      assert a + b == b;
    } else {
      assert (a + b)[0] == a[0] && (a + b)[1..] == a[1..] + b;
      var first := RuleRun(force, snapshot, a[0], replies);
      var middle := RulesRun(force, snapshot, a[1..], first.replies);
      var rest := RulesRun(force, snapshot, b, middle.replies);
      RulesRunAppend(force, snapshot, a[1..], b, first.replies);
      // Regrouping hint: the solver is slow to reassociate these concatenations unaided.
      Regroup3(first.effects, middle.effects, rest.effects);
    }
  }

  /** Declining the question for one rule issues only that question for it,
      and the rules after it run as they would on the remaining replies. */
  lemma DeclinedRuleSkipsOnlyIt(snapshot: seq<string>, before: seq<Rule>, rule: Rule, after: seq<Rule>, replies: seq<bool>)
    requires Grep(rule.pattern, snapshot) != []
    requires !Reply(RulesRun(false, snapshot, before, replies).replies)
    ensures var prior := RulesRun(false, snapshot, before, replies);
            var question := Ask(ConfirmTables(rule.title, rule.action, Rows(Grep(rule.pattern, snapshot))));
            var later := RulesRun(false, snapshot, after, Remaining(prior.replies));
            RulesRun(false, snapshot, before + [rule] + after, replies)
              == Outcome(prior.effects + [question] + later.effects, later.replies)
  {
    var prior := RulesRun(false, snapshot, before, replies);
    var later := RulesRun(false, snapshot, after, Remaining(prior.replies));
    var question := Ask(ConfirmTables(rule.title, rule.action, Rows(Grep(rule.pattern, snapshot))));
    RulesRunAppend(false, snapshot, before, [rule] + after, replies);
    // Regrouping hint: the solver is slow to reassociate these concatenations unaided.
    Regroup3(before, [rule], after);
    assert ([rule] + after)[0] == rule && ([rule] + after)[1..] == after;
    assert RuleRun(false, snapshot, rule, prior.replies) == Outcome([question], Remaining(prior.replies)) by {
      assert [question] + [] == [question];
    }
    // Regrouping hint: the solver is slow to reassociate these concatenations unaided.
    Regroup3(prior.effects, [question], later.effects);
  }

  // ----- The foreign-key bracket -----

  lemma {:induction false} GroupsRunAsksAndWrites(force: bool, resolver: map<string, string>,
                                                  groups: seq<ResourceGroup>, replies: seq<bool>)
    ensures forall e :: e in GroupsRun(force, resolver, groups, replies).effects ==> e.Ask? || (e.Apply? && e.action == Truncate)
    decreases |groups|
  {
    if groups != [] {
      var first := GroupRun(force, resolver, groups[0], replies);
      GroupsRunAsksAndWrites(force, resolver, groups[1..], first.replies);
      var names := Resolve(resolver, groups[0].members);
      forall e | e in ApplyEach(Truncate, Truthy(names)) ensures e.Apply? && e.action == Truncate {
        ApplyEachContents(Truncate, Truthy(names), e);
      }
    }
  }

  lemma {:induction false} RulesRunAsksAndWrites(force: bool, snapshot: seq<string>, rules: seq<Rule>, replies: seq<bool>)
    ensures forall e :: e in RulesRun(force, snapshot, rules, replies).effects ==> e.Ask? || e.Apply?
    decreases |rules|
  {
    if rules != [] {
      var first := RuleRun(force, snapshot, rules[0], replies);
      RulesRunAsksAndWrites(force, snapshot, rules[1..], first.replies);
      var names := Grep(rules[0].pattern, snapshot);
      forall e | e in ApplyEach(rules[0].action, names) ensures e.Apply? {
        ApplyEachContents(rules[0].action, names, e);
      }
    }
  }

  /** Where the entries of a bracketed trace sit: questions before the
      snapshot, questions and writes between the two foreign-key statements. */
  lemma BracketShape(es: seq<Effect>, pre: seq<Effect>, cleaned: seq<Effect>, matched: seq<Effect>)
    requires forall e :: e in pre ==> e.Ask?
    requires forall e :: e in cleaned ==> e.Ask? || e.Apply?
    requires forall e :: e in matched ==> e.Ask? || e.Apply?
    requires es == pre + ([ShowTables, ForeignKeyChecks(false)] + cleaned + matched + [ForeignKeyChecks(true)])
    ensures var off := |pre| + 1;
            && |es| == off + 2 + |cleaned| + |matched|
            && es[off - 1] == ShowTables
            && es[off] == ForeignKeyChecks(false)
            && es[|es| - 1] == ForeignKeyChecks(true)
            && (forall i :: 0 <= i < |es| && es[i].ForeignKeyChecks? ==> i == off || i == |es| - 1)
            && (forall i :: 0 <= i < |es| && es[i].ShowTables? ==> i == off - 1)
            && (forall i :: 0 <= i < |es| && es[i].Apply? ==> off < i < |es| - 1)
  {
    var off := |pre| + 1;
    forall i | 0 <= i < |es|
      ensures i < off - 1 ==> es[i].Ask?
      ensures off < i < |es| - 1 ==> es[i].Ask? || es[i].Apply?
    {
      if i < off - 1 {
        assert es[i] == pre[i] && pre[i] in pre;
      } else if off < i < off + 1 + |cleaned| {
        assert es[i] == cleaned[i - off - 1] && cleaned[i - off - 1] in cleaned;
      } else if off + 1 + |cleaned| <= i < |es| - 1 {
        assert es[i] == matched[i - off - 1 - |cleaned|] && matched[i - off - 1 - |cleaned|] in matched;
      }
    }
  }

  /** In a run that passes the opening question, the snapshot is taken once,
      then foreign-key checks are turned off once, every truncate and drop
      comes after that, and the checks are turned back on once, last. */
  lemma ForeignKeyBracket(force: bool, resolver: map<string, string>, groups: seq<ResourceGroup>,
                          database: seq<string>, replies: seq<bool>)
    requires Started(true, force, replies)
    ensures var es := Run(true, force, resolver, groups, database, replies).effects;
            var off := if force then 1 else 2;
            && |es| >= off + 2
            && es[off - 1] == ShowTables
            && es[off] == ForeignKeyChecks(false)
            && es[|es| - 1] == ForeignKeyChecks(true)
            && (forall i :: 0 <= i < |es| && es[i].ForeignKeyChecks? ==> i == off || i == |es| - 1)
            && (forall i :: 0 <= i < |es| && es[i].ShowTables? ==> i == off - 1)
            && (forall i :: 0 <= i < |es| && es[i].Apply? ==> off < i < |es| - 1)
  {
    var start := Confirm(force, Proceed, replies);
    var cleaned := GroupsRun(force, resolver, groups, start.replies);
    var matched := RulesRun(force, database, Rules(), cleaned.replies);
    var es := Run(true, force, resolver, groups, database, replies).effects;
    var work := Maintenance(force, resolver, groups, database, start.replies);
    assert es == start.effects + work.effects;
    assert work.effects == [ShowTables, ForeignKeyChecks(false)] + cleaned.effects + matched.effects + [ForeignKeyChecks(true)];
    GroupsRunAsksAndWrites(force, resolver, groups, start.replies);
    RulesRunAsksAndWrites(force, database, Rules(), cleaned.replies);
    assert start.effects == if force then [] else [Ask(Proceed)];
    BracketShape(es, start.effects, cleaned.effects, matched.effects);
  }

  // ----- What may be truncated or dropped -----

  /** A write the command may issue: a non-falsy name that is either a resolved
      table of a configured group (truncated), or a snapshot table that ends in
      `_cl` (truncated) or contains `_category_flat_` or `_product_flat_` (dropped). */
  ghost predicate Permitted(resolver: map<string, string>, groups: seq<ResourceGroup>, snapshot: seq<string>, e: Effect) {
    e.Apply? ==>
      && !Falsy(e.table)
      && ((e.action == Truncate && exists g :: g in groups && e.table in Resolve(resolver, g.members))
          || (e.table in snapshot
              && if e.action == Truncate then ChangelogSuffix.Accepts(e.table)
                 else CategoryFlat.Accepts(e.table) || ProductFlat.Accepts(e.table)))
  }

  lemma {:induction false} GroupsRunWrites(force: bool, resolver: map<string, string>, groups: seq<ResourceGroup>,
                                           replies: seq<bool>, all: seq<ResourceGroup>, snapshot: seq<string>)
    requires forall g :: g in groups ==> g in all
    ensures forall e :: e in GroupsRun(force, resolver, groups, replies).effects ==> Permitted(resolver, all, snapshot, e)
    decreases |groups|
  {
    if groups != [] {
      var first := GroupRun(force, resolver, groups[0], replies);
      GroupsRunWrites(force, resolver, groups[1..], first.replies, all, snapshot);
      var names := Resolve(resolver, groups[0].members);
      forall e | e in ApplyEach(Truncate, Truthy(names)) ensures Permitted(resolver, all, snapshot, e) {
        ApplyEachContents(Truncate, Truthy(names), e);
        TruthyContents(names, e.table);
        assert groups[0] in all;
      }
    }
  }

  lemma {:induction false} RulesRunWrites(force: bool, snapshot: seq<string>, rules: seq<Rule>, replies: seq<bool>)
    ensures forall e :: e in RulesRun(force, snapshot, rules, replies).effects && e.Apply? ==>
              e.table in snapshot && exists r :: r in rules && r.action == e.action && r.pattern.Accepts(e.table)
    decreases |rules|
  {
    if rules != [] {
      var first := RuleRun(force, snapshot, rules[0], replies);
      RulesRunWrites(force, snapshot, rules[1..], first.replies);
      var names := Grep(rules[0].pattern, snapshot);
      forall e | e in ApplyEach(rules[0].action, names)
        ensures e.Apply? && e.table in snapshot && rules[0].action == e.action && rules[0].pattern.Accepts(e.table)
      {
        ApplyEachContents(rules[0].action, names, e);
        GrepContents(rules[0].pattern, snapshot, e.table);
      }
      forall e | e in RulesRun(force, snapshot, rules[1..], first.replies).effects && e.Apply?
        ensures exists r :: r in rules && r.action == e.action && r.pattern.Accepts(e.table)
      {
        var r :| r in rules[1..] && r.action == e.action && r.pattern.Accepts(e.table);
        assert r in rules;
      }
    }
  }

  /** The writes of the three rules are permitted: no rule matches a falsy name. */
  lemma RulesPermitted(force: bool, resolver: map<string, string>, groups: seq<ResourceGroup>,
                       database: seq<string>, replies: seq<bool>)
    ensures forall e :: e in RulesRun(force, database, Rules(), replies).effects ==> Permitted(resolver, groups, database, e)
  {
    var rules := Rules();
    RulesRunWrites(force, database, rules, replies);
    forall e | e in RulesRun(force, database, rules, replies).effects
      ensures Permitted(resolver, groups, database, e)
    {
      if e.Apply? {
        var r :| r in rules && r.action == e.action && r.pattern.Accepts(e.table);
        assert r == rules[0] || r == rules[1] || r == rules[2];
        FalsyNeverMatched(r.pattern, e.table);
      }
    }
  }

  /** A bracketed trace is permitted when its questions and writes are. */
  lemma PermittedBracket(resolver: map<string, string>, groups: seq<ResourceGroup>, database: seq<string>,
                         pre: seq<Effect>, cleaned: seq<Effect>, matched: seq<Effect>)
    requires forall e :: e in pre ==> e.Ask?
    requires forall e :: e in cleaned ==> Permitted(resolver, groups, database, e)
    requires forall e :: e in matched ==> Permitted(resolver, groups, database, e)
    ensures forall e :: e in pre + ([ShowTables, ForeignKeyChecks(false)] + cleaned + matched + [ForeignKeyChecks(true)])
              ==> Permitted(resolver, groups, database, e)
  {
  }

  /** Every truncate or drop of any run is permitted: a falsy name is never
      written, group truncations touch only resolved group tables, and the
      rules touch only snapshot tables their pattern matches, with the rule's
      own action. */
  lemma EveryWriteIsPermitted(initialized: bool, force: bool, resolver: map<string, string>,
                              groups: seq<ResourceGroup>, database: seq<string>, replies: seq<bool>)
    ensures forall e :: e in Run(initialized, force, resolver, groups, database, replies).effects
              ==> Permitted(resolver, groups, database, e)
  {
    if Started(initialized, force, replies) {
      var start := Confirm(force, Proceed, replies);
      var cleaned := GroupsRun(force, resolver, groups, start.replies);
      var matched := RulesRun(force, database, Rules(), cleaned.replies);
      GroupsRunWrites(force, resolver, groups, start.replies, groups, database);
      RulesPermitted(force, resolver, groups, database, cleaned.replies);
      PermittedBracket(resolver, groups, database, start.effects, cleaned.effects, matched.effects);
    }
  }

  // ----- The snapshot is not refreshed -----

  /** A table whose name contains both flat substrings is dropped twice by a
      forced run: once by the category-flat rule and once by the
      product-flat rule, since both grep the same snapshot. */
  lemma BothFlatNamesDroppedTwice(resolver: map<string, string>, groups: seq<ResourceGroup>, t: string, replies: seq<bool>)
    requires CategoryFlat.Accepts(t) && ProductFlat.Accepts(t)
    ensures Run(true, true, resolver, groups, [t], replies).effects
         == [ShowTables, ForeignKeyChecks(false)]
            + ApplyEach(Truncate, GroupTargets(resolver, groups))
            + ApplyEach(Truncate, Grep(ChangelogSuffix, [t]))
            + [Apply(Drop, t)]
            + [Apply(Drop, t)]
            + [ForeignKeyChecks(true)]
  {
    ForcedRun(resolver, groups, [t], replies);
    assert [t][1..] == [];
    var none: seq<string> := [];
    assert Grep(CategoryFlat, [t]) == [t] + none == [t];
    assert Grep(ProductFlat, [t]) == [t] + none == [t];
    var act: seq<Effect> := [];
    assert ApplyEach(Drop, [t]) == [Apply(Drop, t)] + act == [Apply(Drop, t)];
  }

  /** A name built around a needle contains it. */
  lemma InfixContained(before: string, needle: string, after: string)
    ensures Contains(before + needle + after, needle)
  {
    var s := before + needle + after;
    assert s[|before|..|before| + |needle|] == needle;
    assert OccursAt(s, needle, |before|);
  }

  /** `_category_flat_product_flat_` holds both flat substrings, sharing one underscore. */
  lemma FlatNamesOverlap()
    ensures "_category_flat_product_flat_" == "_category_flat_" + "product_flat_"
    ensures "_category_flat_product_flat_" == "_category_flat" + "_product_flat_"
  {
  }

  /** Such names exist: any name with `_category_flat_product_flat_` in it. */
  lemma BothFlatNameExample(before: string, after: string)
    ensures CategoryFlat.Accepts(before + "_category_flat_product_flat_" + after)
    ensures ProductFlat.Accepts(before + "_category_flat_product_flat_" + after)
  {
    // The two splittings of the shared literal, which the solver does not find itself.
    FlatNamesOverlap();
    InfixContained(before, "_category_flat_", "product_flat_" + after);
    // Regrouping hint: the solver is slow to reassociate these concatenations unaided.
    Regroup3(before, "_category_flat_", "product_flat_" + after);
    Regroup3("_category_flat_", "product_flat_", after);
    Regroup3(before, "_category_flat_" + "product_flat_", after);
    InfixContained(before + "_category_flat", "_product_flat_", after);
    // Regrouping hint: the solver is slow to reassociate these concatenations unaided.
    Regroup3(before, "_category_flat", "_product_flat_");
  }

  // ----- Worked scenarios -----

  /** A forced group with one member that resolves and one that does not
      (`core/cache` found, `core/cache_tag` missing) truncates exactly the one
      resolved table. */
  lemma OneResolvingMemberScenario(name: string, found: string, missing: string,
                                   resolver: map<string, string>, replies: seq<bool>)
    requires found in resolver && missing !in resolver && !Falsy(resolver[found])
    ensures Run(true, true, resolver, [ResourceGroup(name, [found, missing])], [], replies)
         == Outcome([ShowTables, ForeignKeyChecks(false), Apply(Truncate, resolver[found]), ForeignKeyChecks(true)], replies)
  {
    var group := ResourceGroup(name, [found, missing]);
    var none: seq<string> := [];
    assert [found, missing][1..] == [missing] && [missing][1..] == none;
    assert Resolve(resolver, [missing]) == none + none;
    assert Resolve(resolver, [found, missing]) == [resolver[found]] + none;
    assert [resolver[found]][1..] == none;
    assert Truthy([resolver[found]]) == [resolver[found]] + none;
    assert [group][1..] == [];
    assert GroupTargets(resolver, [group]) == [resolver[found]] + none;
    ForcedRunOfOneTarget(resolver, [group], resolver[found], replies);
  }

  /** A forced run over an empty snapshot whose groups leave one table to truncate. */
  lemma ForcedRunOfOneTarget(resolver: map<string, string>, groups: seq<ResourceGroup>, target: string, replies: seq<bool>)
    requires GroupTargets(resolver, groups) == [target]
    ensures Run(true, true, resolver, groups, [], replies)
         == Outcome([ShowTables, ForeignKeyChecks(false), Apply(Truncate, target), ForeignKeyChecks(true)], replies)
  {
    var none: seq<string> := [];
    ForcedRun(resolver, groups, none, replies);
    var act: seq<Effect> := [];
    assert ApplyEach(Truncate, [target]) == [Apply(Truncate, target)] + act;
    assert Grep(ChangelogSuffix, none) == none && Grep(CategoryFlat, none) == none && Grep(ProductFlat, none) == none;
    OneWriteTrace(ApplyEach(Truncate, [target]), ApplyEach(Truncate, none), ApplyEach(Drop, none), ApplyEach(Drop, none),
                  Apply(Truncate, target));
  }

  /** A bracketed trace whose only write is `x`. */
  lemma OneWriteTrace(a: seq<Effect>, b: seq<Effect>, c: seq<Effect>, d: seq<Effect>, x: Effect)
    requires a == [x] && b == [] && c == [] && d == []
    ensures [ShowTables, ForeignKeyChecks(false)] + a + b + c + d + [ForeignKeyChecks(true)]
         == [ShowTables, ForeignKeyChecks(false), x, ForeignKeyChecks(true)]
  {
  }

  /** A forced run over a snapshot holding one changelog table and one table
      no rule matches (`sales_flat_cl` and `foo`) truncates the changelog
      table only. */
  lemma ChangelogOnlyScenario(changelog: string, other: string, replies: seq<bool>)
    requires ChangelogSuffix.Accepts(changelog) && !CategoryFlat.Accepts(changelog) && !ProductFlat.Accepts(changelog)
    requires !ChangelogSuffix.Accepts(other) && !CategoryFlat.Accepts(other) && !ProductFlat.Accepts(other)
    ensures Run(true, true, map[], [], [changelog, other], replies)
         == Outcome([ShowTables, ForeignKeyChecks(false), Apply(Truncate, changelog), ForeignKeyChecks(true)], replies)
  {
    var database := [changelog, other];
    ForcedRun(map[], [], database, replies);
    var none: seq<string> := [];
    assert database[1..] == [other] && [other][1..] == none;
    assert Grep(ChangelogSuffix, [other]) == none + none;
    assert Grep(ChangelogSuffix, database) == [changelog] + none;
    assert Grep(CategoryFlat, [other]) == none + none;
    assert Grep(CategoryFlat, database) == none + none;
    assert Grep(ProductFlat, [other]) == none + none;
    assert Grep(ProductFlat, database) == none + none;
    var act: seq<Effect> := [];
    assert ApplyEach(Truncate, [changelog]) == [Apply(Truncate, changelog)] + act;
  }

  /** The snapshot of the scenario above meets its requirements. */
  lemma ChangelogScenarioNames()
    ensures ChangelogSuffix.Accepts("sales_flat_cl")
    ensures !CategoryFlat.Accepts("sales_flat_cl") && !ProductFlat.Accepts("sales_flat_cl")
    ensures !ChangelogSuffix.Accepts("foo") && !CategoryFlat.Accepts("foo") && !ProductFlat.Accepts("foo")
  {
    var foo := "foo";
    assert foo[|foo| - 3..][0] == 'f';
  }
}
