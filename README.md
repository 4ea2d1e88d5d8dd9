# Clean-tables command, modelled in Dafny

This project models `db:maintain:clean-tables`, the console command in
`src/Dbclean/Magento/Command/Database/Maintain/CleanCommand.php`. The command
empties a Magento database of transient data:

1. It asks the operator one opening question, unless `--force` is given.
2. It takes one snapshot of the table list with `SHOW TABLES`.
3. It turns foreign-key checks off.
4. It works through eight configured resource groups (Cache, Session,
   Dataflow, Enterprise Admin Logs, Index, Logs, Reports, Quotes). For each
   group it resolves the members' logical ids to table names, skips a group
   where nothing resolves, asks about the group unless forced, then truncates
   each table.
5. It applies three name rules to the table list taken in step 2: tables
   ending in `_cl` are truncated, and tables containing `_category_flat_` or
   `_product_flat_` are dropped. Each rule asks its own question unless forced.
6. It turns foreign-key checks back on.

The command is modelled twice:

- **The class.** `Command.CleanCommand` has the source's fields and one method
  per source function, with the same loops and early returns. Everything the
  command sends to the operator or the database goes into an effect log
  (`log`). Each method is proved to append exactly what the matching
  specification function computes.
- **The specification.** Module `Plan` defines the trace of a whole run as
  pure functions of the inputs: whether the application initialised, the
  force flag, the operator's replies, the id-to-table resolver and the listed
  tables. Module `Properties` proves what that trace guarantees.

Modelling choices:

- The operator's replies are a sequence of booleans, consumed in order. Once
  the replies run out, every question gets its default answer, "no".
- The resolver is a map. An id missing from the map is one whose lookup
  failed.
- The class's `database` is what `SHOW TABLES` returns, and the log's one
  `ShowTables` entry stands for reading that snapshot. Truncate and drop are
  log entries; the table list is not updated by them.
- A table name counts as empty the way PHP's `!` decides it: both `""` and
  `"0"` are falsy. The group loop skips falsy names; the rule loop has no such
  test, and `TableNames.FalsyNeverMatched` shows it needs none.
- `/_cl$/` is a suffix test. PCRE's `$` without the `D` modifier also matches
  just before a final newline, so a name ending in `"_cl\n"` is accepted too.
  The two flat expressions are substring tests.

Modules:

- `Sequences`: two associativity lemmas for concatenation. They model nothing in the command; the proofs call them where the solver would otherwise search too long for a regrouping.
- `TableNames`: falsy names, the three patterns, `preg_grep`.
- `Resources`: the group configuration and id resolution.
- `Plan`: the effect trace and the specification of a run.
- `Command`: the class.
- `Properties`: the proved guarantees.

## Model

| member | source | states |
|---|---|---|
| Command.CleanCommand.constructor | src/Dbclean/Magento/Command/Database/Maintain/CleanCommand.php:65-112 | A new command holds the eight configured groups, no table list, an empty log and no force flag |
| Command.CleanCommand.Execute | src/Dbclean/Magento/Command/Database/Maintain/CleanCommand.php:140-162 | The log grows by exactly `Plan.Run` of the inputs and the replies left are those `Run` leaves. `force` is set only after a successful initialisation. The groups are unchanged. The table list is taken exactly when the run starts database work |
| Command.CleanCommand.Maintain | src/Dbclean/Magento/Command/Database/Maintain/CleanCommand.php:155-161 | The database part of `execute` appends `Plan.Maintenance`: snapshot, checks off, groups, the three rules, checks on. The snapshot equals the database's table list |
| Command.CleanCommand.CleanMatches | src/Dbclean/Magento/Command/Database/Maintain/CleanCommand.php:158-160 | The three `cleanMatch` calls append `Plan.RulesRun` of `Plan.Rules()` over the snapshot |
| Command.CleanCommand.PreExecuteWarning | src/Dbclean/Magento/Command/Database/Maintain/CleanCommand.php:169-179 | Forced: grants without asking. Otherwise: asks the opening question, consumes one reply and returns it |
| Command.CleanCommand.AskConfirmation | src/Dbclean/Magento/Command/Database/Maintain/CleanCommand.php:172-176 | One question is logged and one reply consumed. The answer is the next reply, or "no" once the replies run out |
| Command.CleanCommand.GetTables | src/Dbclean/Magento/Command/Database/Maintain/CleanCommand.php:186-192 | Returns the database's table list and logs one snapshot read (`ShowTables`) |
| Command.CleanCommand.SetForeignKeyChecks | src/Dbclean/Magento/Command/Database/Maintain/CleanCommand.php:156 | Logs one foreign-key statement with the given setting |
| Command.CleanCommand.TruncateTable | src/Dbclean/Magento/Command/Database/Maintain/CleanCommand.php:226 | Logs one truncate of the given table |
| Command.CleanCommand.DropTable | src/Dbclean/Magento/Command/Database/Maintain/CleanCommand.php:300 | Logs one drop of the given table |
| Command.CleanCommand.ApplyAction | src/Dbclean/Magento/Command/Database/Maintain/CleanCommand.php:300 | The `{$action}Table` dispatch logs the given action on the given table |
| Command.CleanCommand.TruncateResourceGroups | src/Dbclean/Magento/Command/Database/Maintain/CleanCommand.php:199-230 | The loop over the groups appends `Plan.GroupsRun` and leaves its remaining replies. The loop invariant relates the log to the groups still to run |
| Command.CleanCommand.TruncateGroup | src/Dbclean/Magento/Command/Database/Maintain/CleanCommand.php:201-229 | One group appends `Plan.GroupRun`: nothing when nothing resolves; otherwise the question (unless forced) and, if granted, a truncate per non-falsy resolved table |
| Command.CleanCommand.TruncateRows | src/Dbclean/Magento/Command/Database/Maintain/CleanCommand.php:222-228 | Truncates the first column of each row, in order, skipping falsy names |
| Command.CleanCommand.PrepareResources | src/Dbclean/Magento/Command/Database/Maintain/CleanCommand.php:239-254 | The loop leaves exactly `Resources.Resolve` of the ids: the table names of the ids that resolve, in id order |
| Command.CleanCommand.PrepareArrayForTableOutput | src/Dbclean/Magento/Command/Database/Maintain/CleanCommand.php:263-266 | Wraps every value in a one-column row, in order: same length and `rows[k] == [values[k]]` |
| Command.CleanCommand.CleanMatch | src/Dbclean/Magento/Command/Database/Maintain/CleanCommand.php:277-303 | One rule appends `Plan.RuleRun`: nothing when no snapshot table matches; otherwise the question (unless forced) and, if granted, the action on every match in snapshot order |
| Command.CleanCommand.ApplyRows | src/Dbclean/Magento/Command/Database/Maintain/CleanCommand.php:299-302 | Applies the action to the first column of each row, in order, with no falsy test |
| Plan.Run | src/Dbclean/Magento/Command/Database/Maintain/CleanCommand.php:140-162 | A run never gains replies, and a forced run consumes none. It issues nothing unless the application initialised. The snapshot is read exactly when the run starts database work: initialised, and the opening question forced or granted |
| Plan.Maintenance | src/Dbclean/Magento/Command/Database/Maintain/CleanCommand.php:155-161 | The database part of a run never gains replies, and consumes none when forced |
| Plan.Confirm | src/Dbclean/Magento/Command/Database/Maintain/CleanCommand.php:169-179 | A question is granted exactly when forced or when the next reply is "yes". A question is issued exactly when not forced, and at most one. The replies left are a suffix of those given, and a forced confirmation consumes none |
| Plan.GroupRun | src/Dbclean/Magento/Command/Database/Maintain/CleanCommand.php:201-229 | One group never gains replies, and consumes none when forced |
| Plan.GroupsRun | src/Dbclean/Magento/Command/Database/Maintain/CleanCommand.php:199-230 | The group phase never gains replies, and consumes none when forced |
| Plan.Rules | src/Dbclean/Magento/Command/Database/Maintain/CleanCommand.php:158-160 | No rule of the command accepts a falsy name (`""` or `"0"`) |
| Plan.RuleRun | src/Dbclean/Magento/Command/Database/Maintain/CleanCommand.php:277-303 | One rule never gains replies, and consumes none when forced |
| Plan.RulesRun | src/Dbclean/Magento/Command/Database/Maintain/CleanCommand.php:158-160 | The rule phase never gains replies, and consumes none when forced |
| TableNames.Falsy | src/Dbclean/Magento/Command/Database/Maintain/CleanCommand.php:223 | A falsy name is at most one character long, and a one-character name is falsy exactly when it is `"0"` |
| TableNames.Pattern.Accepts | src/Dbclean/Magento/Command/Database/Maintain/CleanCommand.php:158-160 | A name `/_cl$/` accepts has at least three characters and ends in `l` or a newline. A name a flat expression accepts is at least as long as the expression |
| Properties.GroupsRunUnanswered | src/Dbclean/Magento/Command/Database/Maintain/CleanCommand.php:199-230 | The group phase answers its questions from the front of the replies: what it leaves is a suffix of what it was given |
| Properties.RulesRunUnanswered | src/Dbclean/Magento/Command/Database/Maintain/CleanCommand.php:277-303 | The rule phase answers its questions from the front of the replies: what it leaves is a suffix of what it was given |
| Properties.RunUnanswered | src/Dbclean/Magento/Command/Database/Maintain/CleanCommand.php:140-162 | A whole run answers its questions in the order it asks them, from the front of the replies; what it leaves is a suffix of what it was given |
| Resources.DefaultGroups | src/Dbclean/Magento/Command/Database/Maintain/CleanCommand.php:65-112 | There are eight groups and none of them is empty |
| Resources.Resolve | src/Dbclean/Magento/Command/Database/Maintain/CleanCommand.php:239-254 | Resolution never yields more tables than ids |
| Resources.ResolveContents | src/Dbclean/Magento/Command/Database/Maintain/CleanCommand.php:241-252 | A table is in the result exactly when some id resolves to it |
| Resources.ResolveAppend | src/Dbclean/Magento/Command/Database/Maintain/CleanCommand.php:241-253 | Resolution works id by id and distributes over concatenation, so id order is kept |
| Resources.ResolveAllFound | src/Dbclean/Magento/Command/Database/Maintain/CleanCommand.php:250-252 | When every id resolves, each is replaced in place by its table name and nothing is removed |
| Resources.ResolveEmptyIffNoneFound | src/Dbclean/Magento/Command/Database/Maintain/CleanCommand.php:203-205 | The resolved list is empty exactly when no member resolves |
| TableNames.Grep | src/Dbclean/Magento/Command/Database/Maintain/CleanCommand.php:279 | `preg_grep` never yields more names than it is given |
| TableNames.GrepContents | src/Dbclean/Magento/Command/Database/Maintain/CleanCommand.php:279 | A name is matched exactly when it is listed and the pattern accepts it |
| TableNames.GrepAppend | src/Dbclean/Magento/Command/Database/Maintain/CleanCommand.php:279 | Matching works name by name and distributes over concatenation, so snapshot order is kept |
| TableNames.FalsyNeverMatched | src/Dbclean/Magento/Command/Database/Maintain/CleanCommand.php:299-302 | No pattern of the command accepts `""` or `"0"`, so the rule loop never acts on a falsy name |
| Plan.FirstColumn | src/Dbclean/Magento/Command/Database/Maintain/CleanCommand.php:222-226 | Reading back the first column keeps the row count and takes each row's first cell |
| Plan.RowsRoundTrip | src/Dbclean/Magento/Command/Database/Maintain/CleanCommand.php:263-266 | Wrapping names as rows and reading back the first column gives the names back unchanged |
| Plan.RulesRunInOrder | src/Dbclean/Magento/Command/Database/Maintain/CleanCommand.php:158-160 | Three rules run one after the other, each on the replies the previous one left |
| Properties.DeclinedRunTouchesNothing | src/Dbclean/Magento/Command/Database/Maintain/CleanCommand.php:144-151 | A run that did not initialise does nothing. A declined run only asks the opening question: no snapshot, no foreign-key statement, no truncate or drop |
| Properties.ForcedGroupsRun | src/Dbclean/Magento/Command/Database/Maintain/CleanCommand.php:207-228 | A forced group phase consumes no reply and truncates `GroupTargets`: every non-falsy resolved table of every group, in order |
| Properties.ForcedRulesRun | src/Dbclean/Magento/Command/Database/Maintain/CleanCommand.php:284-302 | A forced rule phase consumes no reply and acts on every changelog, category-flat and product-flat match, in that order |
| Properties.ForcedRun | src/Dbclean/Magento/Command/Database/Maintain/CleanCommand.php:155-161 | The complete trace of a forced run: snapshot, checks off, all group tables, all changelog matches, all category-flat and product-flat matches, checks on. The replies are untouched |
| Properties.ForcedRunAsksNothing | src/Dbclean/Magento/Command/Database/Maintain/CleanCommand.php:171-178 | A forced run asks no question at all |
| Properties.GroupSilentIff | src/Dbclean/Magento/Command/Database/Maintain/CleanCommand.php:203-225 | A group issues nothing exactly when none of its members resolves, or when it is forced and every resolved name is falsy. A group with no resolvable member is skipped without a question |
| Properties.GrantedGroupTruncatesExactly | src/Dbclean/Magento/Command/Database/Maintain/CleanCommand.php:222-228 | A granted group truncates a table exactly when it is a non-falsy resolved member table |
| Properties.GroupsRunAppend | src/Dbclean/Magento/Command/Database/Maintain/CleanCommand.php:201 | Running two lists of groups in turn is running their concatenation |
| Properties.DeclinedGroupSkipsOnlyIt | src/Dbclean/Magento/Command/Database/Maintain/CleanCommand.php:218-220 | Declining a group's question issues only that question for it. The following groups run exactly as they would on the remaining replies |
| Properties.GrantedRuleActsOnExactlyMatches | src/Dbclean/Magento/Command/Database/Maintain/CleanCommand.php:279-302 | A granted rule applies its action to a table exactly when the table is in the snapshot and the pattern accepts it |
| Properties.RulesRunAppend | src/Dbclean/Magento/Command/Database/Maintain/CleanCommand.php:158-160 | Running two lists of rules in turn is running their concatenation |
| Properties.DeclinedRuleSkipsOnlyIt | src/Dbclean/Magento/Command/Database/Maintain/CleanCommand.php:295-297 | Declining a rule's question issues only that question for it. The following rules run as they would on the remaining replies |
| Properties.GroupsRunAsksAndWrites | src/Dbclean/Magento/Command/Database/Maintain/CleanCommand.php:199-230 | The group phase only asks questions and truncates |
| Properties.RulesRunAsksAndWrites | src/Dbclean/Magento/Command/Database/Maintain/CleanCommand.php:277-303 | The rule phase only asks questions and truncates or drops |
| Properties.ForeignKeyBracket | src/Dbclean/Magento/Command/Database/Maintain/CleanCommand.php:155-161 | In a started run the trace holds one snapshot read, then one checks-off statement. Every truncate and drop comes after it, and exactly one checks-on statement comes last. No other foreign-key statement appears |
| Properties.GroupsRunWrites | src/Dbclean/Magento/Command/Database/Maintain/CleanCommand.php:222-226 | Group truncations only touch non-falsy resolved tables of configured groups |
| Properties.RulesRunWrites | src/Dbclean/Magento/Command/Database/Maintain/CleanCommand.php:279-300 | Rule actions only touch snapshot tables that some rule's pattern accepts, with that rule's action |
| Properties.EveryWriteIsPermitted | src/Dbclean/Magento/Command/Database/Maintain/CleanCommand.php:199-303 | Any run writes only permitted names: never a falsy one; truncates only group tables and snapshot changelog tables; drops only snapshot flat tables |
| Properties.BothFlatNamesDroppedTwice | src/Dbclean/Magento/Command/Database/Maintain/CleanCommand.php:155-160 | The two flat rules both match the one snapshot, so a forced run drops a table holding both flat substrings twice |
| Properties.BothFlatNameExample | src/Dbclean/Magento/Command/Database/Maintain/CleanCommand.php:159-160 | Any name containing `_category_flat_product_flat_` is accepted by both flat patterns |
| Properties.OneResolvingMemberScenario | src/Dbclean/Magento/Command/Database/Maintain/CleanCommand.php:239-254 | A forced group with one resolving and one missing member truncates exactly the one resolved table |
| Properties.ChangelogOnlyScenario | src/Dbclean/Magento/Command/Database/Maintain/CleanCommand.php:158-160 | A forced run over one changelog table and one unmatched table truncates only the changelog table |
| Properties.ChangelogScenarioNames | src/Dbclean/Magento/Command/Database/Maintain/CleanCommand.php:158-160 | `sales_flat_cl` is only a changelog name and `foo` matches no rule |

## Left out

- Magento bootstrap (`detectMagento`, `initMagento`) is a foreign framework call. Its outcome is the `initialized` parameter of `Execute`, and a failed start issues nothing.
- The `\Mage::getSingleton` lookups of the resource model and the two connections are not modelled. The resolver and the table list are fixed inputs of the class, and both connections write to the one effect log.
- `configure()` (option registration) is not modelled. `--force` is the `forceOption` parameter of `Execute`.
- The operator's dialog is a sequence of yes/no replies. Reading and parsing a typed answer is not modelled.
- The answer once the operator's input is exhausted is decided by the console dialog helper, which is not part of this model. The model answers "no" there, the question's default. It does not model a dialog that aborts the command instead; like a database error, such an abort part-way through a run would leave foreign-key checks off.
- Symfony `Table` rendering and the `writeln` progress lines are output only. They are not modelled; a question carries its title, its action and the rendered rows.
- The SQL meaning of `SHOW TABLES`, truncate and drop is not modelled. They are log entries, and the table list never changes during a run.
- A general PCRE engine is not modelled, only the three fixed expressions.
- Command.CleanCommand.GetTables: logs one snapshot read, while `getTables` runs `SHOW TABLES` twice on the read connection: `query()` already executes the statement and `execute()` runs it again before `fetchAll` (lines 188-189). Both runs read, and the model keeps only the one result the command uses.
- The exception raised by a failed table-name lookup is not modelled. A missing map key stands for it.
- Database errors part-way through a run are external I/O failures and are not modelled; in the source they leave foreign-key checks off.
- PHP array keys after `unset` are not modelled. Only iteration order matters to the command, and the model keeps it.
- Two details of the source that are easy to miss, and that the model keeps:
  - `/_cl$/` also accepts a name ending in `_cl` followed by one newline.
  - Besides the empty string, `"0"` is also a falsy name that the group loop skips.
