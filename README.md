# data-guard validation core in Dafny

data-guard is a data-quality service. It checks batches of records against a
source's schema and a list of rules. A rule names a field, an optional guard
(`when`) and a list of checks, each check an operator with a value. A run
produces a `ValidationResult` with status PASS or FAIL, failure counts and one
error detail per failure. Rules whose operators SQL can express can also be
pushed down to the database as one "failure query" that selects the failing
rows. After each run, an alert manager notifies when a source starts failing
or recovers. An in-memory store keeps the runs and the alert states.

This project models that core:

- `wrappers.dfy` holds `Option` and `Result`.
- `domain.dfy` holds the shared types. A dynamically typed Go value is a
  `Value` (nil, bool, `int`, `int64`, `float64`, string, `[]interface{}`,
  `[]string`). Records and schemas are maps.
- `operators.dfy` is the operator registry (module `Operators`): seven pure
  check functions and the numeric coercion `ToFloat`.
- `engine.dfy` is the executor (module `Engine`).
  - Specification functions say which errors a run accumulates, in which
    order.
  - `Validate` is the source's nested loop over records, rules and checks.
    Its counters are proved to equal those functions.
- `planner.dfy` (module `Planner`) splits rules into a push-down bucket and an
  in-memory bucket.
- `sql_builder.dfy` (module `SqlBuilder`) builds the failure query with
  numbered placeholders. A structured, numbered form of the conditions states
  the numbering properties.
- `consistency.dfy` (module `Consistency`) relates the two execution paths of a
  rule. On numeric field values with numeric thresholds they agree for `gt`
  and `lt`, and `not_null` agrees on every value. On a nil field a `gt`, `lt`
  or non-nil `eq` check fails in memory, while its SQL failure condition
  selects no NULL row. A non-numeric threshold, such as the string "10", makes
  `gt` and `lt` fail every record in memory with "threshold is not a number",
  while the SQL condition still binds it; no lemma states that case. They
  disagree for `gte` and `lte` on every value.
- `manager.dfy` (module `Alerting`) is the alert state machine. It is a class
  holding the state table and the log of sent notifications.
- `memory.dfy` (module `Storage`) is the in-memory store, a class with the run
  list and the state map. `GetRecentRuns` filters, sorts newest first (stable)
  and truncates.

Environment inputs are parameters:

- the regular-expression engine behind `regexp.MatchString`: `engine` returns
  whether the pattern matches, or the compile error;
- the clock reading `now`;
- the order in which Go's `range` visits the schema map: `orders`, one order
  per record;
- whether a state lookup, a notification send or a state update fails.

## Model

| member | source | states |
|---|---|---|
| `Operators.Get` | internal/operators/registry.go:14-28 | an operator is found exactly for `not_null`, `eq`, `neq`, `gt`, `lt`, `regex`, `enum`; `gte`, `lte` and every other name are not found; each found name gives its own function: `not_null` NotNull, `eq` Equal, `neq` NotEqual, `gt` GreaterThan, `lt` LessThan, `regex` RegexMatch, `enum` EnumMatch |
| `Operators.GetIsInjective` | internal/operators/registry.go:14-22 | no two names map to the same check function |
| `Operators.ToFloat` | internal/operators/registry.go:126-137 | coercion succeeds exactly for `int`, `int64` and `float64` values; strings, bools, nil and lists are not coerced |
| `Operators.NotNull` | internal/operators/registry.go:32-37 | fails exactly on nil, with reason "value is null"; the check value plays no part |
| `Operators.Equal` | internal/operators/registry.go:39-44 | passes exactly when the value equals the check value under interface equality (dynamic type and value) |
| `Operators.NotEqual` | internal/operators/registry.go:46-51 | passes exactly when the value differs from the check value |
| `Operators.NotEqualIsComplementOfEqual` | internal/operators/registry.go:39-51 | on the same inputs, `neq` passes exactly when `eq` fails |
| `Operators.GreaterThan` | internal/operators/registry.go:53-66 | passes exactly when both operands coerce and v > t; a non-numeric value fails with "value is not a number" before the threshold is looked at; a non-numeric threshold fails with "threshold is not a number" |
| `Operators.GreaterThanIsStrict` | internal/operators/registry.go:62-65 | equal magnitudes fail `gt`, and the reason carries both magnitudes |
| `Operators.LessThan` | internal/operators/registry.go:68-81 | passes exactly when both operands coerce and v < t, with the same two type errors as `gt` |
| `Operators.LessThanMirrorsGreaterThan` | internal/operators/registry.go:53-81 | `lt` on (v, t) passes exactly when `gt` on (t, v) passes |
| `Operators.GreaterThanZeroBoundary` | internal/operators/registry.go:53-66 | `gt 0` fails on 0, passes on 0.0000001, and rejects the string "0" as not a number |
| `Operators.EqualIsRepresentationSensitive` | internal/operators/registry.go:39-44 | 10 as `int` is not `eq` to 10 as `int64` or 10.0 as `float64`, though `gt` sees equal magnitudes |
| `Operators.RegexMatch` | internal/operators/registry.go:83-100 | a non-string value fails with "value is not a string" and a non-string pattern with "pattern is not a string", both before matching; otherwise it passes exactly when the engine reports a match; a pattern the engine rejects fails with "invalid regex: " and the engine's error |
| `Operators.ListContains` | internal/operators/registry.go:117-121 | the search over a `[]interface{}` list finds the value exactly when it is an element |
| `Operators.StrListContains` | internal/operators/registry.go:106-111 | the search over a `[]string` list finds the value exactly when it is a string in the list |
| `Operators.EnumMatch` | internal/operators/registry.go:102-123 | passes exactly when the value is an element of a `[]interface{}` list or a string of a `[]string` list; any other list shape fails with "enum list must be an array"; a miss reports the list |
| `Operators.Apply` | internal/engine/executor.go:66 | calling the function the registry returns: each operator runs its own check function on the value and the check. `Get`'s per-name ensures fix which function each of the seven names runs, so `Engine.CheckError` states the outcome of every registered check through those functions' contracts |
| `Operators.RegistryTableEquality` | internal/operators/registry_test.go:17-24 | whatever the regex engine, the `not_null` and `eq` rows of the registry's table test have the outcomes the test expects |
| `Operators.RegistryTableOrdering` | internal/operators/registry_test.go:26-33 | the `gt` and `lt` rows of the table test have the expected outcomes, with `int` and `float64` operands |
| `Operators.RegistryTableEnum` | internal/operators/registry_test.go:39-41 | the `enum` rows of the table test: "active" is in the `[]string` list and "deleted" is not |
| `Engine.FieldViolation` | internal/engine/executor.go:87-109 | one schema entry: a missing field gives "field missing"; the tags "string", "number" (through `ToFloat`) and "boolean" fail exactly on a value of the wrong type, with "expected string", "expected number" and "expected boolean" respectively; every other tag passes |
| `Engine.FieldValue` | internal/engine/executor.go:47-52 | the value a check sees: the record's value, or nil when the field is absent. The guard lookup at executor.go:120-123 is the same, as `GuardOnMissingFieldSeesNull` states |
| `Engine.ValidateSchema` | internal/engine/executor.go:85-112 | the schema loop for a given visiting order, returning at the first violation. `ValidateSchemaFindsFirstViolation` and `SchemaGateIsOrderIndependentInOutcome` state its result |
| `Engine.ValidateSchemaFindsFirstViolation` | internal/engine/executor.go:85-112 | the schema loop reports nothing exactly when no visited entry is violated; otherwise it reports the first violation in visiting order, as an error with no rule id and no value |
| `Engine.SchemaGateIsOrderIndependentInOutcome` | internal/engine/executor.go:85-112 | for any order that visits each schema entry once, the record passes exactly when no declared field is violated; a reported error is the violation of some declared field, with one of the four reason texts |
| `Engine.EvaluateCondition` | internal/engine/executor.go:115-133 | a missing guard always applies; an unknown guard operator never does; otherwise the guard applies exactly when its operator passes on the field's value, nil when the field is missing |
| `Engine.GuardOnMissingFieldSeesNull` | internal/engine/executor.go:120-123 | a guard on a field absent from the record behaves as on the record with nil in that field |
| `Engine.CheckError` | internal/engine/executor.go:47-76 | an unknown operator gives exactly one "unknown operator: <op>" error without a value; a registered operator gives no error exactly when it passes, and otherwise one error carrying the value and the operator's reason |
| `Engine.RunCheck` | internal/engine/executor.go:54-76 | one check appends exactly the error `CheckError` reports, if any, and keeps the counter equal to the number of errors and the status FAIL exactly when it is positive |
| `Engine.RunChecks` | internal/engine/executor.go:46-77 | the check loop appends exactly the errors of the rule's checks in order, and keeps the counter equal to the number of errors and the status FAIL exactly when it is positive |
| `Engine.RunRules` | internal/engine/executor.go:39-78 | the rule loop appends, rule by rule, the errors of every rule whose guard holds, with the same counter and status invariant |
| `Engine.RunRule` | internal/engine/executor.go:40-77 | one rule appends exactly its checks' errors when its guard holds and nothing otherwise, with the same invariant |
| `Engine.RunRecord` | internal/engine/executor.go:29-78 | one record adds its schema error alone, with the counter incremented and status FAIL, or else the errors of its rules |
| `Engine.Validate` | internal/engine/executor.go:20-82 | the result carries the source id and clock reading; `RecordsChecked` is the number of records; the errors are those of every record, then rule, then check, in order; `RulesFailed` equals the number of errors; the status is FAIL exactly when `RulesFailed` > 0 |
| `Engine.SchemaFailureIsSingleError` | internal/engine/executor.go:31-36 | a record failing the schema contributes exactly one error, with an empty rule id, naming a violated schema field, and no rule or check errors |
| `Engine.ChecksErrorsAppend` | internal/engine/executor.go:46-77 | no short-circuit: the errors of two runs of checks are the errors of the first, then the errors of the second |
| `Engine.ChecksErrorsBound` | internal/engine/executor.go:46-77 | each check adds at most one error |
| `Engine.ChecksErrorsEmptyIffAllPass` | internal/engine/executor.go:46-77 | a rule's checks add no error exactly when every operator is registered and passes |
| `Engine.UnknownOperatorDoesNotAbort` | internal/engine/executor.go:54-63 | an unknown operator in the middle of a rule's checks adds exactly its one error, and the checks before and after it still run |
| `Engine.SkippedRuleAddsNothing` | internal/engine/executor.go:41-43 | a rule whose guard operator is unknown adds no error and no count |
| `Engine.RunErrorsIsConcat` | internal/engine/executor.go:29-79 | the errors of a run are the errors of each record, concatenated in record order |
| `Engine.RunErrorsAppend` | internal/engine/executor.go:29-79 | the errors of a batch of records are the errors of its first part, then those of its second part |
| `Engine.RunPassesIffEveryRecordClean` | internal/engine/executor.go:29-79 | a run records no failure exactly when no record contributes an error |
| `Engine.EmptyBatchPasses` | internal/engine/executor.go:21-27 | a run with no records has no errors |
| `Engine.ExecutorTableRuleCases` | internal/engine/executor_test.go:41-58 | in the executor's table test, whatever the schema visiting order, a record with status "active" and an `int` amount adds no failure when the amount is positive (the valid record) and exactly one otherwise (the negative amount) |
| `Engine.ExecutorTableSchemaCases` | internal/engine/executor_test.go:59-75 | in the same test, any record whose `amount` is missing or does not coerce to a number, such as the string amount, adds exactly one failure |
| `Engine.CreditRuleOnRecord` | internal/engine/executor_test.go:99-108 | the guarded rule `credit_positive` adds one error exactly when the record's type is "credit" and its amount is not positive, and none otherwise |
| `Engine.ConditionalRuleScenario` | internal/engine/executor_test.go:95-127 | whatever order visits the schema {amount: number, type: string}, a record with a string type and an `int` amount passes the schema and then adds one error exactly when it is a credit with an amount that is not positive. So the credit of 100 gives PASS, the credit of -10 gives FAIL and the debit of -10 gives PASS, since `Validate`'s status is FAIL exactly when errors were added |
| `Planner.ChecksSafe` | internal/engine/optimizer/planner.go:38-45 | the check loop accepts exactly when every check operator is in the safe set |
| `Planner.Plan` | internal/engine/optimizer/planner.go:12-27 | the loop builds the push-down bucket and the in-memory bucket, each equal to the input rules of that decision, in input order |
| `Planner.PartitionIsTotal` | internal/engine/optimizer/planner.go:12-27 | the two buckets together hold every input rule exactly once: their sizes add up and their multisets add up to the input's |
| `Planner.BucketMembership` | internal/engine/optimizer/planner.go:18-24 | a rule is in a bucket exactly when it is an input rule with that bucket's decision |
| `Planner.BucketIndicesAreTheMatchingPositions` | internal/engine/optimizer/planner.go:18-24 | the positions a bucket picks are exactly the input positions whose decision is that bucket's |
| `Planner.BucketIsOrderedSelection` | internal/engine/optimizer/planner.go:18-24 | each bucket is the input restricted to those positions, in ascending order, so input order is kept |
| `Planner.IsOpSafe` | internal/engine/optimizer/planner.go:48-56 | an operator is safe exactly when it is one of not_null, eq, neq, gt, lt, gte, lte; `PushdownDecision` and `UnsafeOperatorGoesToMemory` state this |
| `Planner.IsSQLPushdownSafe` | internal/engine/optimizer/planner.go:30-46 | the guard operator, when present, and then every check operator must be safe. `PushdownDecision` states the decision, and `ChecksSafe` states the check loop |
| `Planner.PushdownDecision` | internal/engine/optimizer/planner.go:30-55 | a rule is pushed down exactly when its guard operator (if any) and every check operator are in {not_null, eq, neq, gt, lt, gte, lte} |
| `Planner.UnsafeOperatorGoesToMemory` | internal/engine/optimizer/planner.go:48-55 | a `regex`, `enum` or unrecognised operator in a check or the guard puts the rule in the in-memory bucket and not in the push-down one |
| `Planner.DecisionDependsOnlyOnOperators` | internal/engine/optimizer/planner.go:30-46 | rules with the same guard operator and the same check operators get the same decision |
| `Planner.EmptyRuleIsSafe` | internal/engine/optimizer/planner.go:30-46 | a rule without guard and without checks is pushed down |
| `Planner.PlanScenario` | internal/engine/optimizer/planner_test.go:9-50 | the planner's test gives two push-down rules and one in-memory rule, `memory_only` |
| `SqlBuilder.NatToDecimal` | internal/engine/optimizer/sql_builder.go:29 | the placeholder number is written as at least one decimal digit; it has more than one digit exactly from 10 on; its first digit is '0' only for 0 itself, so there are no leading zeros |
| `SqlBuilder.DecimalRoundTrip` | internal/engine/optimizer/sql_builder.go:29 | the written digits read back as the number, so distinct numbers give distinct placeholders |
| `SqlBuilder.InvertCheckToSQL` | internal/engine/optimizer/sql_builder.go:59-85 | the condition is empty exactly for the operators the planner does not push down; `not_null` gives "<field> IS NULL" with no argument; each comparison gives the field and the SQL complement of the operator, binding the check value: `eq` gives "<field> !=", `neq` "<field> =", `gt` "<field> <=", `lt` "<field> >=", `gte` "<field> <" and `lte` "<field> >"; anything else gives ("", nil) |
| `SqlBuilder.AppendCondition` | internal/engine/optimizer/sql_builder.go:26-34 | one translated check moves the rendered conditions, the arguments and the counter from the state of the conditions so far to the state of those conditions plus that check's `Emit`: nothing for an empty condition, a numbered condition and its argument for a non-nil value, a bare condition for nil |
| `SqlBuilder.BuildConditions` | internal/engine/optimizer/sql_builder.go:22-36 | the inner loop renders exactly one rule's numbered conditions, appends exactly their arguments and advances the counter by their number |
| `SqlBuilder.Join` | internal/engine/optimizer/sql_builder.go:43 | `strings.Join`: "" for no elements, the element for one, otherwise the elements with the separator between neighbours. `JoinPair` states the two-element case the query's shape rests on |
| `SqlBuilder.FailureQuery` | internal/engine/optimizer/sql_builder.go:48-55 | the query and arguments as a function of the table and the rules. `BuildFailureQuery` proves the method computes it, and `QueryShape` states its shape |
| `SqlBuilder.BuildFailureQuery` | internal/engine/optimizer/sql_builder.go:12-56 | no rules, or no clause at all, gives ("", nil); otherwise "SELECT * FROM <table> WHERE " followed by the rules' parenthesised, OR-joined conditions joined with " OR ", and the arguments in order |
| `SqlBuilder.CheckSlotsConsecutive` | internal/engine/optimizer/sql_builder.go:24-36 | within a rule, the placeholders are numbered consecutively from the counter, one per bound argument |
| `SqlBuilder.PlaceholdersAreConsecutiveFromOne` | internal/engine/optimizer/sql_builder.go:19-46 | across the query, the placeholders in textual order are exactly $1 .. $n, where n is the number of arguments |
| `SqlBuilder.ArgsAreTheComparisonValues` | internal/engine/optimizer/sql_builder.go:24-36 | the arguments are the non-nil values of the comparison checks, rule by rule then check by check |
| `SqlBuilder.NoConditionIffNothingTranslatable` | internal/engine/optimizer/sql_builder.go:24-36 | a rule contributes conditions exactly when one of its checks uses a translatable operator |
| `SqlBuilder.UnsupportedCheckContributesNothing` | internal/engine/optimizer/sql_builder.go:82-83 | a check with an unsupported operator adds neither a condition nor an argument |
| `SqlBuilder.NoClauseIffNothingTranslatable` | internal/engine/optimizer/sql_builder.go:41-50 | no clause results exactly when no check of any rule is translatable |
| `SqlBuilder.QueryShape` | internal/engine/optimizer/sql_builder.go:12-56 | the query is empty (and the arguments nil) exactly when no check of any rule is translatable, the empty rule list included; otherwise it starts with "SELECT * FROM <table> WHERE " |
| `SqlBuilder.GuardIsIgnored` | internal/engine/optimizer/sql_builder.go:21-46 | rules with the same fields and checks give the same query and arguments, whatever their guards |
| `SqlBuilder.NilComparisonValueHasNoPlaceholder` | internal/engine/optimizer/sql_builder.go:26-34 | an `eq` check with a nil value renders as the bare "<field> !=" and binds nothing |
| `SqlBuilder.QueryScenario` | internal/engine/optimizer/sql_builder_test.go:9-56 | the builder's test gives "SELECT * FROM orders WHERE " followed by the fragments "(amount IS NULL OR amount <= $1)" and "(status != $2)" joined by " OR ", with arguments 0 and "active" |
| `Consistency.OrderingInversionIsComplement` | internal/engine/optimizer/sql_builder.go:70-81 | for numbers, the failure condition of `gt`, `lt`, `gte` and `lte` holds exactly when the check does not, and for `gt` and `lt` exactly when the registered operator fails |
| `Consistency.NotNullInversionIsNullTest` | internal/engine/optimizer/sql_builder.go:61-63 | the IS NULL condition selects exactly the values on which `not_null` fails |
| `Consistency.NullFieldDivergesForComparisons` | internal/engine/optimizer/sql_builder.go:64-75 | on a nil field, an `eq` check against a non-nil value, a `gt` check or a `lt` check fails in memory, yet its failure condition is a comparison that selects no NULL row; only the IS NULL test does |
| `Consistency.GteLteDivergeBetweenPaths` | internal/engine/optimizer/planner.go:48-55 | `gte` and `lte` are pushed down and translated, yet not registered: in memory such a check always adds "unknown operator" and such a guard always skips the rule |
| `Consistency.GteRuleIsPushedDown` | internal/engine/optimizer/planner.go:30-46 | a rule with one `gte` check is placed in the push-down bucket, while in memory it always adds exactly one "unknown operator: gte" error |
| `Alerting.EffectiveLastState` | internal/alerting/manager.go:40-44 | an error from the state lookup counts as last state PASS; a successful lookup is used as it is |
| `Alerting.Transition` | internal/alerting/manager.go:48-69 | the state machine as a function of the last and current states. `TransitionFiresIffStateChanges` states when it fires, what it stores and which alert it sends |
| `Alerting.TransitionFiresIffStateChanges` | internal/alerting/manager.go:48-69 | an alert fires exactly when the state goes from PASS to FAIL or from FAIL to PASS; it stores the current state; it is the failure alert exactly when the current state is FAIL |
| `Alerting.UnrecognisedLastStateIsSilent` | internal/alerting/manager.go:68-69 | a last state other than PASS and FAIL, the empty one included, never fires |
| `Alerting.RepeatedResultIsSuppressed` | internal/alerting/manager.go:48-69 | once a transition has stored the current state, the same status again fires nothing |
| `Alerting.Manager.LastState` | internal/storage/postgres.go:60-71 | the collaborator's lookup: the stored state, or for an unknown source an error (Postgres repository) or "" (in-memory store), or a lookup error |
| `Alerting.Manager.constructor` | internal/alerting/manager.go:31-36 | a manager starts from the collaborator's table with nothing sent |
| `Alerting.Manager.ProcessResult` | internal/alerting/manager.go:39-70 | with no transition, nothing is sent or stored; on a transition, a failed send returns its error, sends nothing and stores nothing; a successful send logs exactly one notification of the right kind and then stores the new state, unless the update fails, whose error is returned |
| `Alerting.UnknownSourceOutcome` | internal/alerting/manager.go:40-44 | a source the collaborator does not know is taken as PASS when the lookup errors, and fires nothing for any status when it answers "" |
| `Alerting.ManagerScenario` | internal/alerting/manager_test.go:33-65 | from PASS, the results FAIL, FAIL, PASS give cumulative alert counts 1, 1, 2 and leave the state PASS |
| `Storage.MemoryStore.constructor` | internal/storage/memory.go:18-23 | a new store has no runs and no states |
| `Storage.MemoryStore.SaveResult` | internal/storage/memory.go:25-31 | appends exactly the one run at the end and leaves the alert states unchanged |
| `Storage.MemoryStore.GetLastState` | internal/storage/memory.go:33-41 | never reports an error; answers the stored state, or "" for a source without one |
| `Storage.MemoryStore.UpdateState` | internal/storage/memory.go:43-48 | afterwards the source's state is the given one, every other source's is unchanged, and the runs are untouched |
| `Storage.MemoryStore.GetRecentRuns` | internal/storage/memory.go:50-73 | leaves the store unchanged and returns the first `limit` runs of the stable newest-first order of the runs of the source (of all runs for "") |
| `Storage.StoreIsTheManagersCollaborator` | internal/storage/memory.go:33-41 | a manager over the store's state map, answering "" for an unknown source, looks up exactly the state the store's `GetLastState` answers |
| `Storage.Filter` | internal/storage/memory.go:55-60 | the filter loop as a function: the runs of the source, or every run for "". `FilterKeepsTheSourceRuns` and `FilterIsOrderedSelection` state its result |
| `Storage.FilterKeepsTheSourceRuns` | internal/storage/memory.go:56-60 | a run is kept exactly when it is stored and belongs to the source, and "" keeps every run in order |
| `Storage.FilterIsOrderedSelection` | internal/storage/memory.go:55-60 | for every source ID, the kept runs are the stored runs at exactly the positions holding a run of that source (every position for ""), in ascending order, so insertion order is kept |
| `Storage.SortNewestFirst` | internal/storage/memory.go:63-65 | the stable sort by "timestamp is after" as a function, by insertion. `SortIsOrderedPermutation`, `SortIsStable` and `SortMatchesAnyStableSort` state its result |
| `Storage.SortIsOrderedPermutation` | internal/storage/memory.go:63-65 | the sorted runs are ordered newest first and are a permutation of the input |
| `Storage.SortIsStable` | internal/storage/memory.go:63-65 | the runs sharing a timestamp keep their input order |
| `Storage.StableNewestFirstIsUnique` | internal/storage/memory.go:63-65 | two newest-first orders that keep every timestamp's runs in the same order are equal |
| `Storage.SortMatchesAnyStableSort` | internal/storage/memory.go:63-65 | any newest-first order of the runs that keeps input order among equal timestamps is the modelled sort, so any stable sort yields it |
| `Storage.Take` | internal/storage/memory.go:68-70 | the truncation is a prefix of length min(limit, n) |
| `Storage.RecentRunsShape` | internal/storage/memory.go:50-73 | the answer has at most `limit` runs, exactly min(limit, matching runs), is newest first, is a prefix of the whole matching history in that order, and holds only runs of the source |

## Left out

- Interface comparison: Go's `==` on two `interface{}` values holding slices of
  the same type panics. The model compares `Value`s structurally and never
  panics, for `eq`, `neq` and the elements of a `[]interface{}` enum list.
- Numbers: `float64` is modelled as `real`, so NaN, infinities, rounding and the
  precision lost converting a large `int` to `float64` are not modelled.
- `regexp.MatchString` is the `engine` parameter. The pattern syntax and matching
  are not modelled.
- Reason texts: the ones Go formats with `%v` (`eq`, `neq`, `gt`, `lt`, enum
  misses) are reasons that keep the formatted values, not strings. Fixed texts
  and `%s` texts are kept as strings. The `invalid regex: %v` text concatenates
  the engine's error string.
- `time.Now()` in `Validate` is the `now` parameter, and timestamps are integers
  (nanoseconds). Go's "time is after" is `>` on them.
- Map iteration order: Go's random order over the schema map is the explicit
  `orders` parameter, one order per record. The properties of the schema gate
  hold for every order.
- `Validate`'s loop body is split into the methods `RunRecord`, `RunRules`,
  `RunRule`, `RunChecks` and `RunCheck`, and `BuildFailureQuery`'s into
  `BuildConditions` and `AppendCondition`. Each updates the same three
  accumulators the source updates in place. `RunChecks` looks the field up
  again for each check, as the source does. The specification function
  `RuleErrors` reads it once, since every lookup gives the same value.
- The `sync.RWMutex` of the in-memory store: operations are sequential.
- `sort.SliceStable` is library code. `GetRecentRuns` calls its result, the
  function `SortNewestFirst`, instead of sorting the slice in place.
  `SortMatchesAnyStableSort` shows that every stable sort by "timestamp is
  after" returns that result.
- The nil result slice of `GetRecentRuns` and the nil args of
  `BuildFailureQuery` are the empty sequence.
- Alert message texts, titles and colours: a notification records only its kind
  (failure or recovery), the source, the failure count and the timestamp.
- The notifier and the state collaborator are the manager's `sent` log and
  `states` map. Their failures are the `lookupFails`, `sendFails` and
  `updateFails` parameters of `ProcessResult`. Whether an unknown source counts
  as an error (Postgres repository) or as "" (in-memory store) is fixed at
  construction.
- Not part of this model:
  - database access: internal/storage/postgres.go and
    internal/ingest/postgres/client.go;
  - HTTP handlers and process start-up: internal/api/ and cmd/server/;
  - the Slack webhook client;
  - the web UI;
  - the logger;
  - the storage interface, which declares no logic.
