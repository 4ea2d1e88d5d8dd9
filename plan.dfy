/** What one run of `db:maintain:clean-tables` issues, as a pure function of
    its inputs: the force flag, the operator's replies, the table-name
    resolver, the group configuration and the tables `SHOW TABLES` lists.
    The command class in module Command is proved to issue exactly this. */
module Plan {
  import opened Sequences
  import opened TableNames
  import opened Resources

  datatype Action = Truncate | Drop

  /** A yes/no question put to the operator; a table question also shows the
      rendered one-column rows of the tables it is about. */
  datatype Prompt =
    | Proceed
    | ConfirmTables(title: string, action: Action, rows: seq<seq<string>>)

  /** One thing the command does to the outside world, in order. */
  datatype Effect =
    | Ask(prompt: Prompt)                 // a confirmation question to the operator
    | ShowTables                          // reading the `SHOW TABLES` snapshot on the read connection
    | ForeignKeyChecks(enabled: bool)     // `SET foreign_key_checks = 0/1` on the write connection
    | Apply(action: Action, table: string) // `truncateTable` / `dropTable` on the write connection

  /** A pattern rule of `cleanMatch`: the pattern, its title and what is done to its matches. */
  datatype Rule = Rule(pattern: Pattern, title: string, action: Action)

  /** The three rules, in the order the command runs them. */
  function Rules(): (rules: seq<Rule>)
    ensures forall k :: 0 <= k < |rules| ==> !rules[k].pattern.Accepts("") && !rules[k].pattern.Accepts("0")
  {
    [ Rule(ChangelogSuffix, "Changelog", Truncate),
      Rule(CategoryFlat, "Category Flat", Drop),
      Rule(ProductFlat, "Product Flat", Drop) ]
  }

  /** The effects issued by a step and the replies left for the next one. */
  datatype Outcome = Outcome(effects: seq<Effect>, replies: seq<bool>)

  /** The operator's reply to the next question. Every question defaults to
      "no", which is also the reply once the given replies run out. */
  function Reply(replies: seq<bool>): bool {
    replies != [] && replies[0]
  }

  function Remaining(replies: seq<bool>): seq<bool> {
    if replies == [] then [] else replies[1..]
  }

  datatype Confirmation = Confirmation(granted: bool, effects: seq<Effect>, replies: seq<bool>)

  /** `rest` is what remains of `replies` once some questions were answered:
      replies are consumed from the front, and none is invented. */
  predicate Unanswered(rest: seq<bool>, replies: seq<bool>) {
    |rest| <= |replies| && rest == replies[|replies| - |rest|..]
  }

  lemma UnansweredTrans(c: seq<bool>, b: seq<bool>, a: seq<bool>)
    requires Unanswered(c, b) && Unanswered(b, a)
    ensures Unanswered(c, a)
  {
    assert a[|a| - |b|..][|b| - |c|..] == a[|a| - |c|..];
  }

  /** A forced run grants without asking; otherwise the question is asked and
      one reply is consumed. */
  function Confirm(force: bool, prompt: Prompt, replies: seq<bool>): (c: Confirmation)
    ensures c.granted <==> force || (replies != [] && replies[0])
    ensures c.effects == [] <==> force
    ensures |c.effects| <= 1 && Unanswered(c.replies, replies)
    ensures force ==> c.replies == replies
  {
    if force then Confirmation(true, [], replies)
    else Confirmation(Reply(replies), [Ask(prompt)], Remaining(replies))
  }

  /** `prepareArrayForTableOutput` over a list: each name becomes a one-column row. */
  function Rows(names: seq<string>): seq<seq<string>> {
    if names == [] then [] else [[names[0]]] + Rows(names[1..])
  }

  /** What the loops read back from the rows: their first column. */
  function FirstColumn(rows: seq<seq<string>>): (names: seq<string>)
    requires forall i :: 0 <= i < |rows| ==> rows[i] != []
    ensures |names| == |rows| && forall i :: 0 <= i < |rows| ==> names[i] == rows[i][0]
  {
    if rows == [] then [] else [rows[0][0]] + FirstColumn(rows[1..])
  }

  /** Rendering names as rows loses nothing: the first column gives them back. */
  lemma {:induction false} RowsRoundTrip(names: seq<string>)
    ensures forall i :: 0 <= i < |Rows(names)| ==> Rows(names)[i] != []
    ensures FirstColumn(Rows(names)) == names
    decreases |names|
  {
    if names != [] {
      RowsRoundTrip(names[1..]);
    }
  }

  /** The names the group loop truncates: the non-falsy ones, in order. */
  function Truthy(names: seq<string>): seq<string> {
    if names == [] then []
    else (if Falsy(names[0]) then [] else [names[0]]) + Truthy(names[1..])
  }

  /** The action applied to each name, in order. */
  function ApplyEach(action: Action, names: seq<string>): seq<Effect> {
    if names == [] then [] else [Apply(action, names[0])] + ApplyEach(action, names[1..])
  }

  /** Unfolding the group truncations at position `j` of the resolved names. */
  lemma TruncateFrom(names: seq<string>, j: nat)
    requires j < |names|
    ensures ApplyEach(Truncate, Truthy(names[j..]))
         == (if Falsy(names[j]) then [] else [Apply(Truncate, names[j])]) + ApplyEach(Truncate, Truthy(names[j + 1..]))
  {
    assert names[j..][0] == names[j] && names[j..][1..] == names[j + 1..];
    var later := Truthy(names[j + 1..]);
    if Falsy(names[j]) {
      assert Truthy(names[j..]) == later;
    } else {
      assert Truthy(names[j..]) == [names[j]] + later;
      assert ([names[j]] + later)[0] == names[j] && ([names[j]] + later)[1..] == later;
    }
  }

  /** Unfolding the rule actions at position `j` of the matched names. */
  lemma ApplyEachFrom(action: Action, names: seq<string>, j: nat)
    requires j < |names|
    ensures ApplyEach(action, names[j..]) == [Apply(action, names[j])] + ApplyEach(action, names[j + 1..])
  {
    assert names[j..][0] == names[j] && names[j..][1..] == names[j + 1..];
  }

  /** One iteration of `truncateResourceGroups`. */
  function GroupRun(force: bool, resolver: map<string, string>, group: ResourceGroup, replies: seq<bool>): (r: Outcome)
    ensures |r.replies| <= |replies| && (force ==> r.replies == replies)
  {
    var names := Resolve(resolver, group.members);
    if names == [] then Outcome([], replies)
    else
      var c := Confirm(force, ConfirmTables(group.name, Truncate, Rows(names)), replies);
      Outcome(c.effects + (if c.granted then ApplyEach(Truncate, Truthy(names)) else []), c.replies)
  }

  /** `truncateResourceGroups`: the groups one after the other. */
  function GroupsRun(force: bool, resolver: map<string, string>, groups: seq<ResourceGroup>, replies: seq<bool>): (r: Outcome)
    ensures |r.replies| <= |replies| && (force ==> r.replies == replies)
    decreases |groups|
  {
    if groups == [] then Outcome([], replies)
    else
      var first := GroupRun(force, resolver, groups[0], replies);
      var rest := GroupsRun(force, resolver, groups[1..], first.replies);
      Outcome(first.effects + rest.effects, rest.replies)
  }

  /** Unfolding GroupsRun at group `i`. */
  lemma GroupsRunFrom(force: bool, resolver: map<string, string>, groups: seq<ResourceGroup>, i: nat, replies: seq<bool>)
    requires i < |groups|
    ensures var first := GroupRun(force, resolver, groups[i], replies);
            var rest := GroupsRun(force, resolver, groups[i + 1..], first.replies);
            GroupsRun(force, resolver, groups[i..], replies) == Outcome(first.effects + rest.effects, rest.replies)
  {
    assert groups[i..][0] == groups[i] && groups[i..][1..] == groups[i + 1..];
  }

  /** One call of `cleanMatch` against the table snapshot. */
  function RuleRun(force: bool, snapshot: seq<string>, rule: Rule, replies: seq<bool>): (r: Outcome)
    ensures |r.replies| <= |replies| && (force ==> r.replies == replies)
  {
    var names := Grep(rule.pattern, snapshot);
    if names == [] then Outcome([], replies)
    else
      var c := Confirm(force, ConfirmTables(rule.title, rule.action, Rows(names)), replies);
      Outcome(c.effects + (if c.granted then ApplyEach(rule.action, names) else []), c.replies)
  }

  /** Rules run one after the other against the same snapshot. */
  function RulesRun(force: bool, snapshot: seq<string>, rules: seq<Rule>, replies: seq<bool>): (r: Outcome)
    ensures |r.replies| <= |replies| && (force ==> r.replies == replies)
    decreases |rules|
  {
    if rules == [] then Outcome([], replies)
    else
      var first := RuleRun(force, snapshot, rules[0], replies);
      var rest := RulesRun(force, snapshot, rules[1..], first.replies);
      Outcome(first.effects + rest.effects, rest.replies)
  }

  /** Three rules run one after the other (Rules() has three). */
  lemma RulesRunInOrder(force: bool, snapshot: seq<string>, rules: seq<Rule>, replies: seq<bool>)
    requires |rules| == 3
    ensures var first := RuleRun(force, snapshot, rules[0], replies);
            var second := RuleRun(force, snapshot, rules[1], first.replies);
            var third := RuleRun(force, snapshot, rules[2], second.replies);
            RulesRun(force, snapshot, rules, replies)
              == Outcome(first.effects + second.effects + third.effects, third.replies)
  {
    assert rules[1..][0] == rules[1] && rules[1..][1..][0] == rules[2] && rules[1..][1..][1..] == [];
    var first := RuleRun(force, snapshot, rules[0], replies);
    var second := RuleRun(force, snapshot, rules[1], first.replies);
    var third := RuleRun(force, snapshot, rules[2], second.replies);
    var none: seq<Effect> := [];
    assert RulesRun(force, snapshot, rules[1..][1..][1..], third.replies) == Outcome(none, third.replies);
    assert third.effects + none == third.effects;
    assert RulesRun(force, snapshot, rules[1..][1..], second.replies) == Outcome(third.effects, third.replies);
    var tail := RulesRun(force, snapshot, rules[1..], first.replies);
    assert tail == Outcome(second.effects + third.effects, third.replies);
    assert RulesRun(force, snapshot, rules, replies) == Outcome(first.effects + (second.effects + third.effects), third.replies);
    // Regrouping hint: the solver is slow to reassociate these concatenations unaided.
    Regroup3(first.effects, second.effects, third.effects);
  }

  /** The run passes the opening confirmation and does database work. */
  predicate Started(initialized: bool, force: bool, replies: seq<bool>) {
    initialized && Confirm(force, Proceed, replies).granted
  }

  /** The database work of `execute`: the snapshot, foreign-key checks off,
      the groups, the three rules against the snapshot, checks back on. */
  function Maintenance(force: bool, resolver: map<string, string>, groups: seq<ResourceGroup>,
                       database: seq<string>, replies: seq<bool>): (r: Outcome)
    ensures |r.replies| <= |replies| && (force ==> r.replies == replies)
  {
    var cleaned := GroupsRun(force, resolver, groups, replies);
    var matched := RulesRun(force, database, Rules(), cleaned.replies);
    Outcome([ShowTables, ForeignKeyChecks(false)] + cleaned.effects + matched.effects + [ForeignKeyChecks(true)],
            matched.replies)
  }

  /** `execute`: nothing when the application did not initialise; the opening
      question; the database work only when it is granted. */
  function Run(initialized: bool, force: bool, resolver: map<string, string>, groups: seq<ResourceGroup>,
               database: seq<string>, replies: seq<bool>): (r: Outcome)
    ensures |r.replies| <= |replies| && (force ==> r.replies == replies)
    ensures r.effects != [] ==> initialized
    ensures ShowTables in r.effects <==> Started(initialized, force, replies)
  {
    if !initialized then Outcome([], replies)
    else
      var start := Confirm(force, Proceed, replies);
      if !start.granted then Outcome(start.effects, start.replies)
      else
        var work := Maintenance(force, resolver, groups, database, start.replies);
        Outcome(start.effects + work.effects, work.replies)
  }

  /** The trace of Maintain as it is appended, regrouped as Maintenance builds it. */
  lemma Bracket(before: seq<Effect>, cleaned: seq<Effect>, matched: seq<Effect>)
    ensures before + [ShowTables] + [ForeignKeyChecks(false)] + cleaned + matched + [ForeignKeyChecks(true)]
         == before + ([ShowTables, ForeignKeyChecks(false)] + cleaned + matched + [ForeignKeyChecks(true)])
  {
  }
}
