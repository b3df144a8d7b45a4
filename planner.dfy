/**
 * The execution planner (internal/engine/optimizer/planner.go): rules whose
 * guard and checks use only operators a SQL WHERE clause can express go to the
 * push-down bucket, all others to the in-memory bucket, in input order.
 */
module Planner {
  import opened Wrappers
  import opened Domain

  /** The two buckets of a plan. */
  datatype ExecutionPlan = ExecutionPlan(sqlRules: seq<Rule>, memoryRules: seq<Rule>)

  /** The operators the optimizer accepts for push-down; `regex`, `enum` and unknown names are not among them. */
  const SafeOps: set<string> := {"not_null", "eq", "neq", "gt", "lt", "gte", "lte"}

  predicate IsOpSafe(op: string) {
    op in SafeOps
  }

  /** The loop over the checks with its early return: every check operator is safe. */
  function ChecksSafe(checks: seq<Check>): (r: bool)
    ensures r <==> forall i :: 0 <= i < |checks| ==> IsOpSafe(checks[i].op)
  {
    if checks == [] then true
    else IsOpSafe(checks[0].op) && ChecksSafe(checks[1..])
  }

  /** A present guard must use a safe operator, and so must every check. */
  predicate IsSQLPushdownSafe(rule: Rule) {
    (rule.when.Some? ==> IsOpSafe(rule.when.value.op)) && ChecksSafe(rule.checks)
  }

  /** The rules of `rules` whose push-down decision is `safe`, in input order. */
  function Bucket(rules: seq<Rule>, safe: bool): seq<Rule>
    decreases |rules|
  {
    if rules == [] then []
    else
      var last := rules[|rules| - 1];
      Bucket(rules[..|rules| - 1], safe) + (if IsSQLPushdownSafe(last) == safe then [last] else [])
  }

  /** The positions in `rules` that `Bucket(rules, safe)` picks, ascending. */
  ghost function BucketIndices(rules: seq<Rule>, safe: bool): seq<int>
    decreases |rules|
  {
    if rules == [] then []
    else
      var n := |rules| - 1;
      BucketIndices(rules[..n], safe) + (if IsSQLPushdownSafe(rules[n]) == safe then [n] else [])
  }

  /** The loop of `Plan`, appending each rule to the bucket its decision names. */
  method Plan(rules: seq<Rule>) returns (plan: ExecutionPlan)
    ensures plan.sqlRules == Bucket(rules, true)
    ensures plan.memoryRules == Bucket(rules, false)
  {
    plan := ExecutionPlan([], []);
    var i := 0;
    while i < |rules|
      invariant 0 <= i <= |rules|
      invariant plan.sqlRules == Bucket(rules[..i], true)
      invariant plan.memoryRules == Bucket(rules[..i], false)
    {
      var rule := rules[i];
      assert rules[..i + 1][..i] == rules[..i];
      if IsSQLPushdownSafe(rule) {
        plan := plan.(sqlRules := plan.sqlRules + [rule]);
      } else {
        plan := plan.(memoryRules := plan.memoryRules + [rule]);
      }
      i := i + 1;
    }
    assert rules[..i] == rules;
  }

  // ---- Properties of the partition ----

  lemma {:induction false} BucketsSplitMultiset(rules: seq<Rule>)
    ensures multiset(Bucket(rules, true)) + multiset(Bucket(rules, false)) == multiset(rules)
    decreases |rules|
  {
    if rules != [] {
      var n := |rules| - 1;
      var pre, last := rules[..n], rules[n];
      BucketsSplitMultiset(pre);
      SplitLast(Bucket(pre, true), Bucket(pre, false), rules);
      if IsSQLPushdownSafe(last) {
        assert Bucket(rules, true) == Bucket(pre, true) + [last];
        assert Bucket(rules, false) == Bucket(pre, false);
      } else {
        assert Bucket(rules, true) == Bucket(pre, true);
        assert Bucket(rules, false) == Bucket(pre, false) + [last];
      }
    }
  }

  /** Two lists that split a prefix still split the whole list when its last element joins either. */
  lemma SplitLast<T>(a: seq<T>, b: seq<T>, s: seq<T>)
    requires s != []
    requires multiset(a) + multiset(b) == multiset(s[..|s| - 1])
    ensures multiset(a + [s[|s| - 1]]) + multiset(b) == multiset(s)
    ensures multiset(a) + multiset(b + [s[|s| - 1]]) == multiset(s)
  {
    assert s == s[..|s| - 1] + [s[|s| - 1]];
  }

  /** Total and disjoint: the buckets together hold every rule exactly once. */
  lemma PartitionIsTotal(rules: seq<Rule>)
    ensures |Bucket(rules, true)| + |Bucket(rules, false)| == |rules|
    ensures multiset(Bucket(rules, true)) + multiset(Bucket(rules, false)) == multiset(rules)
  {
    BucketsSplitMultiset(rules);
    assert |multiset(Bucket(rules, true)) + multiset(Bucket(rules, false))| == |multiset(rules)|;
  }

  /** A rule is in a bucket iff it is an input rule whose decision is that bucket's. */
  lemma {:induction false} BucketMembership(rules: seq<Rule>, safe: bool, rule: Rule)
    ensures rule in Bucket(rules, safe) <==> rule in rules && IsSQLPushdownSafe(rule) == safe
    decreases |rules|
  {
    if rules != [] {
      var n := |rules| - 1;
      BucketMembership(rules[..n], safe, rule);
      assert rules == rules[..n] + [rules[n]];
    }
  }

  /** The picked positions are exactly those whose decision is the bucket's, and all lie in range. */
  lemma {:induction false} BucketIndicesAreTheMatchingPositions(rules: seq<Rule>, safe: bool)
    ensures forall k :: 0 <= k < |BucketIndices(rules, safe)| ==> 0 <= BucketIndices(rules, safe)[k] < |rules|
    ensures forall i :: 0 <= i < |rules| ==> (i in BucketIndices(rules, safe) <==> IsSQLPushdownSafe(rules[i]) == safe)
    decreases |rules|
  {
    if rules != [] {
      var n := |rules| - 1;
      var pre := rules[..n];
      var idx := BucketIndices(pre, safe);
      BucketIndicesAreTheMatchingPositions(pre, safe);
      var tail := if IsSQLPushdownSafe(rules[n]) == safe then [n] else [];
      assert BucketIndices(rules, safe) == idx + tail;
      forall i | 0 <= i < |rules|
        ensures i in BucketIndices(rules, safe) <==> IsSQLPushdownSafe(rules[i]) == safe
      {
        if i < n {
          assert rules[i] == pre[i];
          assert i !in tail;
        } else {
          assert i !in idx;
        }
      }
    }
  }

  /**
   * Each bucket is the subsequence of the input at exactly the positions whose
   * decision is that bucket's, in ascending order: input order is kept.
   */
  lemma {:induction false} BucketIsOrderedSelection(rules: seq<Rule>, safe: bool)
    ensures SelectsInOrder(Bucket(rules, safe), rules, BucketIndices(rules, safe))
    ensures forall i :: 0 <= i < |rules| ==> (i in BucketIndices(rules, safe) <==> IsSQLPushdownSafe(rules[i]) == safe)
    decreases |rules|
  {
    BucketIndicesAreTheMatchingPositions(rules, safe);
    if rules != [] {
      var n := |rules| - 1;
      var pre := rules[..n];
      BucketIsOrderedSelection(pre, safe);
      assert rules == pre + [rules[n]];
      SelectsInOrderExtend(Bucket(pre, safe), pre, BucketIndices(pre, safe), rules[n]);
    }
  }

  /** A rule is pushed down iff its guard (when present) and every check use an operator from the safe set. */
  lemma PushdownDecision(rule: Rule)
    ensures IsSQLPushdownSafe(rule) <==>
              (rule.when.Some? ==> rule.when.value.op in SafeOps)
              && (forall i :: 0 <= i < |rule.checks| ==> rule.checks[i].op in SafeOps)
  {
  }

  /** A `regex`, `enum` or unrecognised operator in a check or in the guard sends the rule to memory. */
  lemma UnsafeOperatorGoesToMemory(rules: seq<Rule>, rule: Rule, op: string)
    requires rule in rules
    requires op !in SafeOps
    requires (exists i :: 0 <= i < |rule.checks| && rule.checks[i].op == op) || (rule.when.Some? && rule.when.value.op == op)
    ensures rule in Bucket(rules, false) && rule !in Bucket(rules, true)
  {
    BucketMembership(rules, false, rule);
    BucketMembership(rules, true, rule);
  }

  /** The decision reads only operator names: rules with the same guard operator and check operators land together. */
  lemma DecisionDependsOnlyOnOperators(a: Rule, b: Rule)
    requires a.when.Some? <==> b.when.Some?
    requires a.when.Some? ==> a.when.value.op == b.when.value.op
    requires |a.checks| == |b.checks|
    requires forall i :: 0 <= i < |a.checks| ==> a.checks[i].op == b.checks[i].op
    ensures IsSQLPushdownSafe(a) == IsSQLPushdownSafe(b)
  {
  }

  /** A rule without guard and without checks is pushed down. */
  lemma EmptyRuleIsSafe(rule: Rule)
    requires rule.when.None? && rule.checks == []
    ensures IsSQLPushdownSafe(rule)
  {
  }

  /** Each of three rules lands in the bucket its own decision names, in input order. */
  lemma BucketOfThree(a: Rule, b: Rule, c: Rule, safe: bool)
    ensures Bucket([a, b, c], safe)
            == (if IsSQLPushdownSafe(a) == safe then [a] else [])
             + (if IsSQLPushdownSafe(b) == safe then [b] else [])
             + (if IsSQLPushdownSafe(c) == safe then [c] else [])
  {
    var rules := [a, b, c];
    assert rules[..2] == [a, b] && rules[..2][..1] == [a] && rules[..2][..1][..0] == [];
    var pa := if IsSQLPushdownSafe(a) == safe then [a] else [];
    assert Bucket([a], safe) == [] + pa == pa;
    assert Bucket([a, b], safe) == pa + (if IsSQLPushdownSafe(b) == safe then [b] else []);
  }

  /** The rules of the planner's test: two push-down rules (one guarded by `eq`) and one in memory. */
  const PlanRules: seq<Rule> := [
    Rule("sql_safe", "amount", None, [Check("gt", Int(10))], ""),
    Rule("memory_only", "email", None, [Check("unknown_op", Str("foo"))], ""),
    Rule("sql_safe_conditional", "status", Some(Condition("type", "eq", Str("new"))),
         [Check("eq", Str("active"))], "")]

  lemma PlanRulesDecisions()
    ensures IsSQLPushdownSafe(PlanRules[0]) && !IsSQLPushdownSafe(PlanRules[1]) && IsSQLPushdownSafe(PlanRules[2])
  {
  }

  /** The planner's test: two rules pushed down and one, `memory_only`, kept in memory. */
  lemma PlanScenario()
    ensures |Bucket(PlanRules, true)| == 2 && |Bucket(PlanRules, false)| == 1
    ensures Bucket(PlanRules, false)[0].id == "memory_only"
  {
    PlanRulesDecisions();
    BucketOfThree(PlanRules[0], PlanRules[1], PlanRules[2], true);
    BucketOfThree(PlanRules[0], PlanRules[1], PlanRules[2], false);
    assert PlanRules == [PlanRules[0], PlanRules[1], PlanRules[2]];
  }
}
