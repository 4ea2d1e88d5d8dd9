/** The `db:maintain:clean-tables` console command as an object. The dialog
    helper is the list of replies the operator has yet to give; the read and
    write connections are the log of what the command issued through them. */
module Command {
  import opened Sequences
  import opened TableNames
  import opened Resources
  import opened Plan

  class CleanCommand {
    /** Whether `--force` was given: no question is asked. */
    var force: bool
    /** The resource groups to truncate (`$groups`). */
    var groups: seq<ResourceGroup>
    /** The table snapshot taken once by `execute`. */
    var tables: seq<string>
    /** The operator's replies still to come, in order. */
    var replies: seq<bool>
    /** The registry's table-name lookup; a missing id does not resolve. */
    const resolver: map<string, string>
    /** The table names `SHOW TABLES` lists. */
    const database: seq<string>
    /** Everything issued so far to the operator and the database, in order. */
    var log: seq<Effect>

    constructor (replies: seq<bool>, resolver: map<string, string>, database: seq<string>)
      ensures this.replies == replies && this.resolver == resolver && this.database == database
      ensures groups == DefaultGroups() && tables == [] && log == [] && !force
    {
      this.replies := replies;
      this.resolver := resolver;
      this.database := database;
      force := false;
      groups := DefaultGroups();
      tables := [];
      log := [];
    }

    /** `execute`; `initialized` is whether the application bootstrapped. */
    method Execute(initialized: bool, forceOption: bool)
      modifies this`force, this`replies, this`tables, this`log
      ensures force == if initialized then forceOption else old(force)
      ensures var run := Run(initialized, forceOption, resolver, groups, database, old(replies));
              log == old(log) + run.effects && replies == run.replies
      ensures groups == old(groups)
      ensures tables == if Started(initialized, forceOption, old(replies)) then database else old(tables)
    {
      if !initialized {
        return;
      }
      force := forceOption;
      ghost var start := Confirm(force, Proceed, replies);
      var proceed := PreExecuteWarning();
      if !proceed {
        return;
      }
      Maintain();
      // Regrouping hint: the solver is slow to reassociate these concatenations unaided.
      Regroup3(old(log), start.effects, Maintenance(force, resolver, groups, database, start.replies).effects);
    }

    /** The database work of `execute`, once the run is granted. */
    method Maintain()
      modifies this`replies, this`tables, this`log
      ensures var work := Maintenance(force, resolver, groups, database, old(replies));
              log == old(log) + work.effects && replies == work.replies
      ensures tables == database
    {
      tables := GetTables();
      SetForeignKeyChecks(false);
      ghost var cleaned := GroupsRun(force, resolver, groups, replies);
      TruncateResourceGroups();
      ghost var matched := RulesRun(force, tables, Rules(), replies);
      CleanMatches();
      SetForeignKeyChecks(true);
      // The log was appended one piece at a time; Maintenance groups the pieces differently.
      Bracket(old(log), cleaned.effects, matched.effects);
    }

    /** The three `cleanMatch` calls of `execute`, in their fixed order. */
    method CleanMatches()
      modifies this`replies, this`log
      ensures var matched := RulesRun(force, tables, Rules(), old(replies));
              log == old(log) + matched.effects && replies == matched.replies
    {
      ghost var changelog := RuleRun(force, tables, Rules()[0], replies);
      ghost var category := RuleRun(force, tables, Rules()[1], changelog.replies);
      ghost var product := RuleRun(force, tables, Rules()[2], category.replies);
      RulesRunInOrder(force, tables, Rules(), replies);
      assert Rules()[0] == Rule(ChangelogSuffix, "Changelog", Truncate);
      assert Rules()[1] == Rule(CategoryFlat, "Category Flat", Drop);
      assert Rules()[2] == Rule(ProductFlat, "Product Flat", Drop);
      CleanMatch(ChangelogSuffix, "Changelog", Truncate);
      CleanMatch(CategoryFlat, "Category Flat", Drop);
      CleanMatch(ProductFlat, "Product Flat", Drop);
      // Regrouping hint: the solver is slow to reassociate these concatenations unaided.
      Regroup(old(log), changelog.effects, category.effects, product.effects);
    }

    /** `preExecuteWarning`: the opening question, unless forced. */
    method PreExecuteWarning() returns (proceed: bool)
      modifies this`replies, this`log
      ensures var c := Confirm(force, Proceed, old(replies));
              proceed == c.granted && log == old(log) + c.effects && replies == c.replies
    {
      if !force {
        proceed := AskConfirmation(Proceed);
        return;
      }
      proceed := true;
    }

    /** The dialog helper's `askConfirmation` with default answer "no". */
    method AskConfirmation(prompt: Prompt) returns (yes: bool)
      modifies this`replies, this`log
      ensures yes == Reply(old(replies)) && replies == Remaining(old(replies))
      ensures log == old(log) + [Ask(prompt)]
    {
      if replies == [] {
        yes := false;
      } else {
        yes := replies[0];
        replies := replies[1..];
      }
      log := log + [Ask(prompt)];
    }

    /** `getTables`: the snapshot, read once. */
    method GetTables() returns (names: seq<string>)
      modifies this`log
      ensures names == database && log == old(log) + [ShowTables]
    {
      log := log + [ShowTables];
      names := database;
    }

    method SetForeignKeyChecks(enabled: bool)
      modifies this`log
      ensures log == old(log) + [ForeignKeyChecks(enabled)]
    {
      log := log + [ForeignKeyChecks(enabled)];
    }

    method TruncateTable(name: string)
      modifies this`log
      ensures log == old(log) + [Apply(Truncate, name)]
    {
      log := log + [Apply(Truncate, name)];
    }

    method DropTable(name: string)
      modifies this`log
      ensures log == old(log) + [Apply(Drop, name)]
    {
      log := log + [Apply(Drop, name)];
    }

    /** The write connection's `<action>Table` call. */
    method ApplyAction(action: Action, name: string)
      modifies this`log
      ensures log == old(log) + [Apply(action, name)]
    {
      match action
      case Truncate => TruncateTable(name);
      case Drop => DropTable(name);
    }

    /** `truncateResourceGroups`. */
    method TruncateResourceGroups()
      modifies this`replies, this`log
      ensures var run := GroupsRun(force, resolver, groups, old(replies));
              log == old(log) + run.effects && replies == run.replies
    {
      ghost var all := GroupsRun(force, resolver, groups, replies);
      for i := 0 to |groups|
        invariant log + GroupsRun(force, resolver, groups[i..], replies).effects == old(log) + all.effects
        invariant GroupsRun(force, resolver, groups[i..], replies).replies == all.replies
      {
        GroupsRunFrom(force, resolver, groups, i, replies);
        ghost var first := GroupRun(force, resolver, groups[i], replies);
        ghost var before := log;
        TruncateGroup(groups[i]);
        // Regrouping hint: the solver is slow to reassociate these concatenations unaided.
        Regroup3(before, first.effects, GroupsRun(force, resolver, groups[i + 1..], replies).effects);
      }
      assert groups[|groups|..] == [];
    }

    /** One iteration of `truncateResourceGroups`: resolve the members, skip an
        empty group, confirm unless forced, truncate every non-falsy table. */
    method TruncateGroup(group: ResourceGroup)
      modifies this`replies, this`log
      ensures var run := GroupRun(force, resolver, group, old(replies));
              log == old(log) + run.effects && replies == run.replies
    {
      var resources := PrepareResources(group.members);
      if resources == [] {
        return;
      }
      var rows := PrepareArrayForTableOutput(resources);
      ghost var question := Confirm(force, ConfirmTables(group.name, Truncate, rows), replies);
      if !force {
        var confirm := AskConfirmation(ConfirmTables(group.name, Truncate, rows));
        if !confirm {
          return;
        }
      }
      RowsRoundTrip(resources);
      TruncateRows(rows);
      // Regrouping hint: the solver is slow to reassociate these concatenations unaided.
      Regroup3(old(log), question.effects, ApplyEach(Truncate, Truthy(resources)));
    }

    /** The inner loop of `truncateResourceGroups`: truncate the table named in
        each row's first column, skipping falsy names. */
    method TruncateRows(rows: seq<seq<string>>)
      requires forall k :: 0 <= k < |rows| ==> rows[k] != []
      modifies this`log
      ensures log == old(log) + ApplyEach(Truncate, Truthy(FirstColumn(rows)))
    {
      ghost var names := FirstColumn(rows);
      for j := 0 to |rows|
        invariant log + ApplyEach(Truncate, Truthy(names[j..])) == old(log) + ApplyEach(Truncate, Truthy(names))
      {
        TruncateFrom(names, j);
        if Falsy(rows[j][0]) {
          continue;
        }
        // Regrouping hint: the solver is slow to reassociate these concatenations unaided.
        Regroup3(log, [Apply(Truncate, names[j])], ApplyEach(Truncate, Truthy(names[j + 1..])));
        TruncateTable(rows[j][0]);
      }
      assert names[|rows|..] == [];
    }

    /** `prepareResources`: the resolved table names of the ids that resolve, in order. */
    method PrepareResources(resources: seq<string>) returns (resolved: seq<string>)
      ensures resolved == Resolve(resolver, resources)
    {
      resolved := [];
      for k := 0 to |resources|
        invariant resolved + Resolve(resolver, resources[k..]) == Resolve(resolver, resources)
      {
        assert resources[k..][0] == resources[k] && resources[k..][1..] == resources[k + 1..];
        if resources[k] in resolver {
          resolved := resolved + [resolver[resources[k]]];
        }
      }
      assert resources[|resources|..] == [];
    }

    /** `prepareArrayForTableOutput` applied to every element: one-column rows. */
    method PrepareArrayForTableOutput(values: seq<string>) returns (rows: seq<seq<string>>)
      ensures rows == Rows(values)
      ensures |rows| == |values| && forall k :: 0 <= k < |rows| ==> rows[k] == [values[k]]
    {
      rows := [];
      for k := 0 to |values|
        invariant |rows| == k && forall m :: 0 <= m < k ==> rows[m] == [values[m]]
        invariant rows + Rows(values[k..]) == Rows(values)
      {
        assert values[k..][0] == values[k] && values[k..][1..] == values[k + 1..];
        rows := rows + [[values[k]]];
      }
      assert values[|values|..] == [];
    }

    /** `cleanMatch`: grep the snapshot, confirm unless forced, act on every match. */
    method CleanMatch(pattern: Pattern, title: string, action: Action)
      modifies this`replies, this`log
      ensures var run := RuleRun(force, tables, Rule(pattern, title, action), old(replies));
              log == old(log) + run.effects && replies == run.replies
    {
      var matched := Grep(pattern, tables);
      if matched == [] {
        return;
      }
      var rows := PrepareArrayForTableOutput(matched);
      ghost var question := Confirm(force, ConfirmTables(title, action, rows), replies);
      if !force {
        var confirm := AskConfirmation(ConfirmTables(title, action, rows));
        if !confirm {
          return;
        }
      }
      RowsRoundTrip(matched);
      ApplyRows(action, rows);
      // Regrouping hint: the solver is slow to reassociate these concatenations unaided.
      Regroup3(old(log), question.effects, ApplyEach(action, matched));
    }

    /** The loop of `cleanMatch`: apply the action to the table named in each
        row's first column. */
    method ApplyRows(action: Action, rows: seq<seq<string>>)
      requires forall k :: 0 <= k < |rows| ==> rows[k] != []
      modifies this`log
      ensures log == old(log) + ApplyEach(action, FirstColumn(rows))
    {
      ghost var names := FirstColumn(rows);
      for k := 0 to |rows|
        invariant log + ApplyEach(action, names[k..]) == old(log) + ApplyEach(action, names)
      {
        ApplyEachFrom(action, names, k);
        ApplyAction(action, rows[k][0]);
      }
      assert names[|rows|..] == [];
    }
  }

}
