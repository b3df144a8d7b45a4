/**
 * How the two execution paths of a rule relate: the in-memory path (the
 * operator registry through the executor) and the push-down path (the planner
 * and the failure-query builder). The SQL side is given its meaning on
 * non-null numbers by `SqlCompare`.
 */
module Consistency {
  import opened Wrappers
  import opened Domain
  import opened Operators
  import Engine
  import Planner
  import SqlBuilder

  /** What a SQL comparison operator means on two non-null numbers. */
  predicate SqlCompare(sym: string, a: real, b: real) {
    match sym
    case "<=" => a <= b
    case ">=" => a >= b
    case "<" => a < b
    case ">" => a > b
    case _ => false
  }

  /** The comparison each ordering check is meant to assert; `gte` and `lte` have no registered function. */
  predicate OrderingHolds(op: string, v: real, t: real) {
    match op
    case "gt" => v > t
    case "lt" => v < t
    case "gte" => v >= t
    case "lte" => v <= t
    case _ => false
  }

  /** The SQL symbol that follows the field in each ordering check's failure condition. */
  function NegatedOrdering(op: string): string {
    match op
    case "gt" => "<="
    case "lt" => ">="
    case "gte" => "<"
    case "lte" => ">"
    case _ => ""
  }

  /**
   * For numbers, the failure condition of an ordering check selects exactly the
   * values for which the check does not hold, and for `gt` and `lt` that is
   * exactly when the registered operator fails.
   */
  lemma OrderingInversionIsComplement(engine: RegexEngine, field: string, check: Check, value: Value)
    requires check.op in {"gt", "lt", "gte", "lte"}
    requires ToFloat(value).Some? && ToFloat(check.value).Some?
    ensures SqlBuilder.InvertCheckToSQL(field, check) == (field + " " + NegatedOrdering(check.op), check.value)
    ensures SqlCompare(NegatedOrdering(check.op), ToFloat(value).value, ToFloat(check.value).value)
            <==> !OrderingHolds(check.op, ToFloat(value).value, ToFloat(check.value).value)
    ensures check.op in {"gt", "lt"} ==>
              (OrderingHolds(check.op, ToFloat(value).value, ToFloat(check.value).value)
               <==> Apply(Get(check.op).value, engine, value, check).passed)
  {
    var sym := NegatedOrdering(check.op);
    assert field + " " + sym == field + (" " + sym);
    if check.op == "gt" {
      assert " " + sym == " <=";
    } else if check.op == "lt" {
      assert " " + sym == " >=";
    } else if check.op == "gte" {
      assert " " + sym == " <";
    } else {
      assert " " + sym == " >";
    }
  }

  /** `not_null` fails exactly on nil, and its failure condition is the IS NULL test with no argument. */
  lemma NotNullInversionIsNullTest(field: string, check: Check, value: Value)
    requires check.op == "not_null"
    ensures SqlBuilder.InvertCheckToSQL(field, check) == (field + " IS NULL", Null)
    ensures !NotNull(value, check).passed <==> value == Null
  {
  }

  /**
   * Which of the builder's failure conditions a row whose field is NULL satisfies:
   * every SQL comparison with NULL is unknown, so only the IS NULL test holds.
   */
  predicate SelectsNullRow(field: string, cond: string) {
    cond == field + " IS NULL"
  }

  /**
   * On a nil field the paths part for comparisons: an `eq` check against a
   * non-nil value, a `gt` or a `lt` check fails in memory, while its failure
   * condition selects no NULL row. Only `not_null` catches such a row in SQL.
   */
  lemma NullFieldDivergesForComparisons(engine: RegexEngine, field: string, check: Check)
    requires check.op in {"gt", "lt"} || (check.op == "eq" && check.value != Null)
    ensures Get(check.op).Some? && !Apply(Get(check.op).value, engine, Null, check).passed
    ensures !SelectsNullRow(field, SqlBuilder.InvertCheckToSQL(field, check).0)
  {
    var cond := SqlBuilder.InvertCheckToSQL(field, check).0;
    assert |cond| == |field| + 3;
  }

  /**
   * `gte` and `lte` are pushed down and translated, yet unknown to the registry:
   * in memory, such a check adds an "unknown operator" error and such a guard skips the rule.
   */
  lemma GteLteDivergeBetweenPaths(engine: RegexEngine, rule: Rule, check: Check, val: Value,
                                  record: Record, cond: Condition)
    requires check.op in {"gte", "lte"} && cond.op in {"gte", "lte"}
    ensures Planner.IsOpSafe(check.op) && Planner.IsOpSafe(cond.op)
    ensures SqlBuilder.InvertCheckToSQL(rule.field, check).0 != ""
    ensures Get(check.op).None?
    ensures Engine.CheckError(engine, rule, check, val)
            == Some(ErrorDetail(rule.id, rule.field, Null, Text("unknown operator: " + check.op), ""))
    ensures !Engine.EvaluateCondition(engine, record, Some(cond))
  {
  }

  /** A rule with one `gte` check lands in the push-down bucket, though in memory the same check always fails. */
  lemma GteRuleIsPushedDown(engine: RegexEngine, rules: seq<Rule>, rule: Rule, val: Value)
    requires rule in rules && rule.when.None? && rule.checks == [Check("gte", Int(0))]
    ensures rule in Planner.Bucket(rules, true)
    ensures Engine.ChecksErrors(engine, rule, rule.checks, val)
            == [ErrorDetail(rule.id, rule.field, Null, Text("unknown operator: gte"), "")]
  {
    Planner.BucketMembership(rules, true, rule);
    Engine.ChecksErrorsStep(engine, rule, rule.checks, 0, val);
    assert rule.checks[..0] == [] && rule.checks[..0 + 1] == rule.checks;
    assert "unknown operator: " + "gte" == "unknown operator: gte";
    assert Engine.CheckError(engine, rule, rule.checks[0], val)
        == Some(ErrorDetail(rule.id, rule.field, Null, Text("unknown operator: gte"), ""));
  }
}
