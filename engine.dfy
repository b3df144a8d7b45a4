/**
 * The rule evaluator (internal/engine/executor.go): a schema gate per record,
 * an optional guard per rule, then every check of the rule in order. The
 * functions below are the specification of what `Validate` accumulates; the
 * method itself is the nested loop of the source.
 */
module Engine {
  import opened Wrappers
  import opened Domain
  import opened Operators

  /** A field missing from the record reads as nil. */
  function FieldValue(record: Record, field: string): Value {
    if field in record then record[field] else Null
  }

  // ---- Schema gate ----

  /** One iteration of the schema loop: the violation of `field`, if any. */
  function FieldViolation(record: Record, field: string, tag: string): (r: Option<Reason>)
    ensures r == Some(Text("field missing")) <==> field !in record
    ensures field in record && tag == "string" ==> (r.None? <==> record[field].Str?)
    ensures field in record && tag == "number" ==> (r.None? <==> ToFloat(record[field]).Some?)
    ensures field in record && tag == "boolean" ==> (r.None? <==> record[field].Bool?)
    ensures field in record && tag !in {"string", "number", "boolean"} ==> r.None?
    ensures field in record && tag == "string" && !record[field].Str? ==> r == Some(Text("expected string"))
    ensures field in record && tag == "number" && ToFloat(record[field]).None? ==> r == Some(Text("expected number"))
    ensures field in record && tag == "boolean" && !record[field].Bool? ==> r == Some(Text("expected boolean"))
  {
    if field !in record then Some(Text("field missing"))
    else
      var val := record[field];
      if tag == "string" then (if val.Str? then None else Some(Text("expected string")))
      else if tag == "number" then (if ToFloat(val).Some? then None else Some(Text("expected number")))
      else if tag == "boolean" then (if val.Bool? then None else Some(Text("expected boolean")))
      else None
  }

  /** A schema error names the field and carries no rule id, no value and no record id. */
  function SchemaError(field: string, reason: Reason): ErrorDetail {
    ErrorDetail("", field, Null, reason, "")
  }

  /**
   * The order in which one `range schema` loop visits the schema's (field, tag)
   * entries. Go leaves this order unspecified and may choose a new one on every loop.
   */
  type Visits = seq<(string, string)>

  /** `visits` lists every entry of the schema exactly once. */
  predicate IsEnumerationOf(visits: Visits, schema: Schema) {
    && (forall f :: f in schema ==> exists k :: 0 <= k < |visits| && visits[k].0 == f)
    && (forall k :: 0 <= k < |visits| ==> visits[k].0 in schema && schema[visits[k].0] == visits[k].1)
    && (forall i, j :: 0 <= i < j < |visits| ==> visits[i].0 != visits[j].0)
  }

  /** The schema loop visiting the entries in the order `visits`; it returns on the first violation. */
  function ValidateSchema(record: Record, visits: Visits): Option<ErrorDetail> {
    if visits == [] then None
    else
      match FieldViolation(record, visits[0].0, visits[0].1)
      case Some(reason) => Some(SchemaError(visits[0].0, reason))
      case None => ValidateSchema(record, visits[1..])
  }

  /**
   * The schema loop reports nothing iff no visited entry is violated, and otherwise
   * the error of the first violated entry in visiting order.
   */
  lemma {:induction false} ValidateSchemaFindsFirstViolation(record: Record, visits: Visits)
    ensures ValidateSchema(record, visits).None? <==>
              forall k :: 0 <= k < |visits| ==> FieldViolation(record, visits[k].0, visits[k].1).None?
    ensures ValidateSchema(record, visits).Some? ==>
              var e := ValidateSchema(record, visits).value;
              exists k :: && 0 <= k < |visits|
                          && FieldViolation(record, visits[k].0, visits[k].1) == Some(e.reason)
                          && e == SchemaError(visits[k].0, e.reason)
                          && forall j :: 0 <= j < k ==> FieldViolation(record, visits[j].0, visits[j].1).None?
  {
    if visits != [] && FieldViolation(record, visits[0].0, visits[0].1).None? {
      var rest := visits[1..];
      ValidateSchemaFindsFirstViolation(record, rest);
      assert forall k :: 0 <= k < |rest| ==> rest[k] == visits[k + 1];
      if ValidateSchema(record, rest).Some? {
        var e := ValidateSchema(record, rest).value;
        var k :| && 0 <= k < |rest|
                 && FieldViolation(record, rest[k].0, rest[k].1) == Some(e.reason)
                 && e == SchemaError(rest[k].0, e.reason)
                 && forall j :: 0 <= j < k ==> FieldViolation(record, rest[j].0, rest[j].1).None?;
        assert FieldViolation(record, visits[k + 1].0, visits[k + 1].1) == Some(e.reason);
        assert forall j :: 0 <= j < k + 1 ==> FieldViolation(record, visits[j].0, visits[j].1).None? by {
          forall j | 0 <= j < k + 1 ensures FieldViolation(record, visits[j].0, visits[j].1).None? {
            if j > 0 { assert visits[j] == rest[j - 1]; }
          }
        }
      }
    }
  }

  /**
   * Whatever order the schema is visited in: the record passes iff no declared
   * field is in violation, and a reported error is the violation of some declared field.
   */
  lemma SchemaGateIsOrderIndependentInOutcome(record: Record, schema: Schema, visits: Visits)
    requires IsEnumerationOf(visits, schema)
    ensures ValidateSchema(record, visits).None? <==>
              forall f :: f in schema ==> FieldViolation(record, f, schema[f]).None?
    ensures ValidateSchema(record, visits).Some? ==>
              var e := ValidateSchema(record, visits).value;
              && e.field in schema
              && FieldViolation(record, e.field, schema[e.field]) == Some(e.reason)
              && e.ruleID == "" && e.value == Null
              && e.reason in {Text("field missing"), Text("expected string"),
                              Text("expected number"), Text("expected boolean")}
  {
    ValidateSchemaFindsFirstViolation(record, visits);
    var r := ValidateSchema(record, visits);
    if r.None? {
      forall f | f in schema ensures FieldViolation(record, f, schema[f]).None? {
        var k :| 0 <= k < |visits| && visits[k].0 == f;
      }
    } else {
      var k :| && 0 <= k < |visits|
               && FieldViolation(record, visits[k].0, visits[k].1) == Some(r.value.reason)
               && r.value == SchemaError(visits[k].0, r.value.reason);
      var f := visits[k].0;
      assert f in schema && schema[f] == visits[k].1;
      ViolationReasons(record, f, schema[f]);
    }
  }

  /** The reasons the schema loop can give. */
  lemma ViolationReasons(record: Record, field: string, tag: string)
    ensures FieldViolation(record, field, tag).Some? ==>
              FieldViolation(record, field, tag).value in {Text("field missing"), Text("expected string"),
                                                           Text("expected number"), Text("expected boolean")}
  {
  }

  // ---- Guards ----

  /** Whether a rule's guard holds for a record; an unknown guard operator fails closed. */
  function EvaluateCondition(engine: RegexEngine, record: Record, when: Option<Condition>): (r: bool)
    ensures when.None? ==> r
    ensures when.Some? && Get(when.value.op).None? ==> !r
    ensures when.Some? && Get(when.value.op).Some? ==>
              r == Apply(Get(when.value.op).value, engine, FieldValue(record, when.value.field),
                         Check(when.value.op, when.value.value)).passed
  {
    match when
    case None => true
    case Some(cond) =>
      var val := FieldValue(record, cond.field);
      match Get(cond.op)
      case None => false
      case Some(o) => Apply(o, engine, val, Check(cond.op, cond.value)).passed
  }

  /** A guard on a field absent from the record behaves as on a record holding nil there. */
  lemma GuardOnMissingFieldSeesNull(engine: RegexEngine, record: Record, cond: Condition)
    requires cond.field !in record
    ensures EvaluateCondition(engine, record, Some(cond)) ==
            EvaluateCondition(engine, record[cond.field := Null], Some(cond))
  {
  }

  // ---- Checks ----

  /** The error one check adds, if any: an unknown operator, or a registered operator that fails. */
  function CheckError(engine: RegexEngine, rule: Rule, check: Check, val: Value): (r: Option<ErrorDetail>)
    ensures Get(check.op).None? ==>
              r == Some(ErrorDetail(rule.id, rule.field, Null, Text("unknown operator: " + check.op), ""))
    ensures Get(check.op).Some? ==>
              (r.None? <==> Apply(Get(check.op).value, engine, val, check).passed)
    ensures Get(check.op).Some? && r.Some? ==>
              r.value == ErrorDetail(rule.id, rule.field, val, Apply(Get(check.op).value, engine, val, check).reason, "")
  {
    match Get(check.op)
    case None => Some(ErrorDetail(rule.id, rule.field, Null, Text("unknown operator: " + check.op), ""))
    case Some(o) =>
      var out := Apply(o, engine, val, check);
      if out.passed then None else Some(ErrorDetail(rule.id, rule.field, val, out.reason, ""))
  }

  /** The errors one check adds: none, or the one `CheckError` reports. */
  function CheckErrorList(engine: RegexEngine, rule: Rule, check: Check, val: Value): seq<ErrorDetail> {
    var e := CheckError(engine, rule, check, val);
    if e.Some? then [e.value] else []
  }

  function CheckErrorsOf(engine: RegexEngine, rule: Rule, val: Value): Check -> seq<ErrorDetail> {
    c => CheckErrorList(engine, rule, c, val)
  }

  /** The errors of a list of checks, in check order. */
  function ChecksErrors(engine: RegexEngine, rule: Rule, checks: seq<Check>, val: Value): seq<ErrorDetail> {
    FlatMap(CheckErrorsOf(engine, rule, val), checks)
  }

  /** The errors one rule adds to a record that passed the schema gate. */
  function RuleErrors(engine: RegexEngine, record: Record, rule: Rule): seq<ErrorDetail> {
    if !EvaluateCondition(engine, record, rule.when) then []
    else ChecksErrors(engine, rule, rule.checks, FieldValue(record, rule.field))
  }

  /** The errors of all rules on one record, in rule order. */
  function RulesErrors(engine: RegexEngine, record: Record, rules: seq<Rule>): seq<ErrorDetail>
    decreases |rules|
  {
    if rules == [] then []
    else RulesErrors(engine, record, rules[..|rules| - 1]) + RuleErrors(engine, record, rules[|rules| - 1])
  }

  /** The errors one record contributes: its schema error alone, or the errors of its rules. */
  function RecordErrors(engine: RegexEngine, visits: Visits, rules: seq<Rule>, record: Record): seq<ErrorDetail> {
    match ValidateSchema(record, visits)
    case Some(e) => [e]
    case None => RulesErrors(engine, record, rules)
  }

  /** Every record has its own, complete, schema visiting order. */
  predicate EnumerationsFor(orders: seq<Visits>, schema: Schema, records: seq<Record>) {
    |orders| == |records| && forall i :: 0 <= i < |orders| ==> IsEnumerationOf(orders[i], schema)
  }

  /** The errors of a whole run, ordered by record, then rule, then check; `orders[i]` belongs to `records[i]`. */
  function RunErrors(engine: RegexEngine, orders: seq<Visits>, rules: seq<Rule>, records: seq<Record>): seq<ErrorDetail>
    requires |orders| == |records|
    decreases |records|
  {
    if records == [] then []
    else
      var n := |records| - 1;
      RunErrors(engine, orders[..n], rules, records[..n]) + RecordErrors(engine, orders[n], rules, records[n])
  }

  lemma ChecksErrorsStep(engine: RegexEngine, rule: Rule, checks: seq<Check>, k: nat, val: Value)
    requires k < |checks|
    ensures ChecksErrors(engine, rule, checks[..k + 1], val) ==
              ChecksErrors(engine, rule, checks[..k], val)
              + (var e := CheckError(engine, rule, checks[k], val); if e.Some? then [e.value] else [])
  {
    FlatMapStep(CheckErrorsOf(engine, rule, val), checks, k);
  }

  lemma RulesErrorsStep(engine: RegexEngine, record: Record, rules: seq<Rule>, j: nat)
    requires j < |rules|
    ensures RulesErrors(engine, record, rules[..j + 1]) ==
              RulesErrors(engine, record, rules[..j]) + RuleErrors(engine, record, rules[j])
  {
    assert rules[..j + 1][..j] == rules[..j];
  }

  lemma RunErrorsStep(engine: RegexEngine, orders: seq<Visits>, rules: seq<Rule>, records: seq<Record>, i: nat)
    requires |orders| == |records| && i < |records|
    ensures RunErrors(engine, orders[..i + 1], rules, records[..i + 1]) ==
              RunErrors(engine, orders[..i], rules, records[..i]) + RecordErrors(engine, orders[i], rules, records[i])
  {
    assert orders[..i + 1][..i] == orders[..i] && records[..i + 1][..i] == records[..i];
  }

  /** The body of the check loop: look up the operator, run it, and record a failure. */
  method RunCheck(engine: RegexEngine, rule: Rule, check: Check, val: Value,
                  status0: string, rulesFailed0: int, errors0: seq<ErrorDetail>)
    returns (status: string, rulesFailed: int, errors: seq<ErrorDetail>)
    requires rulesFailed0 == |errors0| && status0 == (if rulesFailed0 > 0 then StatusFail else StatusPass)
    ensures var e := CheckError(engine, rule, check, val);
            errors == errors0 + (if e.Some? then [e.value] else [])
    ensures rulesFailed == |errors| && status == (if rulesFailed > 0 then StatusFail else StatusPass)
  {
    status, rulesFailed, errors := status0, rulesFailed0, errors0;
    var found := Get(check.op);
    if found.None? {
      status := StatusFail;
      rulesFailed := rulesFailed + 1;
      errors := errors + [ErrorDetail(rule.id, rule.field, Null, Text("unknown operator: " + check.op), "")];
    } else {
      var out := Apply(found.value, engine, val, check);
      if !out.passed {
        status := StatusFail;
        rulesFailed := rulesFailed + 1;
        errors := errors + [ErrorDetail(rule.id, rule.field, val, out.reason, "")];
      } else {
        assert errors0 + [] == errors0;
      }
    }
  }

  /**
   * The check loop of one rule whose guard holds, adding to the run's accumulators
   * (`status`, `rulesFailed`, `errors`) as the source does in place.
   */
  method RunChecks(engine: RegexEngine, record: Record, rule: Rule,
                   status0: string, rulesFailed0: int, errors0: seq<ErrorDetail>)
    returns (status: string, rulesFailed: int, errors: seq<ErrorDetail>)
    requires rulesFailed0 == |errors0| && status0 == (if rulesFailed0 > 0 then StatusFail else StatusPass)
    ensures errors == errors0 + ChecksErrors(engine, rule, rule.checks, FieldValue(record, rule.field))
    ensures rulesFailed == |errors| && status == (if rulesFailed > 0 then StatusFail else StatusPass)
  {
    status, rulesFailed, errors := status0, rulesFailed0, errors0;
    var k := 0;
    while k < |rule.checks|
      invariant 0 <= k <= |rule.checks|
      invariant errors == errors0 + ChecksErrors(engine, rule, rule.checks[..k], FieldValue(record, rule.field))
      invariant rulesFailed == |errors|
      invariant status == (if rulesFailed > 0 then StatusFail else StatusPass)
    {
      var check := rule.checks[k];
      var val := if rule.field in record then record[rule.field] else Null;
      ghost var added := CheckError(engine, rule, check, val);
      ChecksErrorsStep(engine, rule, rule.checks, k, val);
      AppendAssoc(errors0, ChecksErrors(engine, rule, rule.checks[..k], val), if added.Some? then [added.value] else []);
      status, rulesFailed, errors := RunCheck(engine, rule, check, val, status, rulesFailed, errors);
      k := k + 1;
    }
    assert rule.checks[..k] == rule.checks;
  }

  /** The body of the rule loop: the guard, then the rule's checks if it holds. */
  method RunRule(engine: RegexEngine, record: Record, rule: Rule,
                 status0: string, rulesFailed0: int, errors0: seq<ErrorDetail>)
    returns (status: string, rulesFailed: int, errors: seq<ErrorDetail>)
    requires rulesFailed0 == |errors0| && status0 == (if rulesFailed0 > 0 then StatusFail else StatusPass)
    ensures errors == errors0 + RuleErrors(engine, record, rule)
    ensures rulesFailed == |errors| && status == (if rulesFailed > 0 then StatusFail else StatusPass)
  {
    if EvaluateCondition(engine, record, rule.when) {
      status, rulesFailed, errors := RunChecks(engine, record, rule, status0, rulesFailed0, errors0);
    } else {
      status, rulesFailed, errors := status0, rulesFailed0, errors0;
      assert errors0 + [] == errors0;
    }
  }

  /** The rule loop of one record that passed the schema gate. */
  method RunRules(engine: RegexEngine, record: Record, rules: seq<Rule>,
                  status0: string, rulesFailed0: int, errors0: seq<ErrorDetail>)
    returns (status: string, rulesFailed: int, errors: seq<ErrorDetail>)
    requires rulesFailed0 == |errors0| && status0 == (if rulesFailed0 > 0 then StatusFail else StatusPass)
    ensures errors == errors0 + RulesErrors(engine, record, rules)
    ensures rulesFailed == |errors| && status == (if rulesFailed > 0 then StatusFail else StatusPass)
  {
    status, rulesFailed, errors := status0, rulesFailed0, errors0;
    var j := 0;
    while j < |rules|
      invariant 0 <= j <= |rules|
      invariant errors == errors0 + RulesErrors(engine, record, rules[..j])
      invariant rulesFailed == |errors|
      invariant status == (if rulesFailed > 0 then StatusFail else StatusPass)
    {
      RulesErrorsStep(engine, record, rules, j);
      AppendAssoc(errors0, RulesErrors(engine, record, rules[..j]), RuleErrors(engine, record, rules[j]));
      status, rulesFailed, errors := RunRule(engine, record, rules[j], status, rulesFailed, errors);
      j := j + 1;
    }
    assert rules[..j] == rules;
  }

  /** The body of the record loop: the schema gate, then the rules if the gate passes. */
  method RunRecord(engine: RegexEngine, record: Record, visits: Visits, rules: seq<Rule>,
                   status0: string, rulesFailed0: int, errors0: seq<ErrorDetail>)
    returns (status: string, rulesFailed: int, errors: seq<ErrorDetail>)
    requires rulesFailed0 == |errors0| && status0 == (if rulesFailed0 > 0 then StatusFail else StatusPass)
    ensures errors == errors0 + RecordErrors(engine, visits, rules, record)
    ensures rulesFailed == |errors| && status == (if rulesFailed > 0 then StatusFail else StatusPass)
  {
    var schemaErr := ValidateSchema(record, visits);
    if schemaErr.Some? {
      status := StatusFail;
      rulesFailed := rulesFailed0 + 1;
      errors := errors0 + [schemaErr.value];
    } else {
      status, rulesFailed, errors := RunRules(engine, record, rules, status0, rulesFailed0, errors0);
    }
  }

  /**
   * Validation of a batch of records. `orders[i]` is the order in which the schema
   * is visited for `records[i]`; `now` is the clock reading.
   */
  method Validate(engine: RegexEngine, sourceID: string, schema: Schema, rules: seq<Rule>,
                  records: seq<Record>, orders: seq<Visits>, now: int)
    returns (result: ValidationResult)
    requires EnumerationsFor(orders, schema, records)
    ensures result.sourceID == sourceID && result.timestamp == now
    ensures result.recordsChecked == |records|
    ensures result.errors == RunErrors(engine, orders, rules, records)
    ensures result.rulesFailed == |result.errors|
    ensures result.status == (if result.rulesFailed > 0 then StatusFail else StatusPass)
  {
    var status := StatusPass;
    var rulesFailed := 0;
    var errors: seq<ErrorDetail> := [];
    var i := 0;
    while i < |records|
      invariant 0 <= i <= |records|
      invariant errors == RunErrors(engine, orders[..i], rules, records[..i])
      invariant rulesFailed == |errors|
      invariant status == (if rulesFailed > 0 then StatusFail else StatusPass)
    {
      RunErrorsStep(engine, orders, rules, records, i);
      status, rulesFailed, errors := RunRecord(engine, records[i], orders[i], rules, status, rulesFailed, errors);
      i := i + 1;
    }
    assert orders[..i] == orders && records[..i] == records;
    result := ValidationResult(sourceID, status, |records|, rulesFailed, errors, now);
  }

  // ---- Properties of a run ----

  /** A record failing the schema contributes exactly its one schema error, with no rule id, and nothing from any rule. */
  lemma SchemaFailureIsSingleError(engine: RegexEngine, schema: Schema, visits: Visits, rules: seq<Rule>, record: Record)
    requires IsEnumerationOf(visits, schema)
    requires ValidateSchema(record, visits).Some?
    ensures |RecordErrors(engine, visits, rules, record)| == 1
    ensures var e := RecordErrors(engine, visits, rules, record)[0];
            e.ruleID == "" && e.field in schema && FieldViolation(record, e.field, schema[e.field]) == Some(e.reason)
  {
    SchemaGateIsOrderIndependentInOutcome(record, schema, visits);
  }

  /** No short-circuit: the errors of a concatenation of checks are the errors of each part, in order. */
  lemma ChecksErrorsAppend(engine: RegexEngine, rule: Rule, a: seq<Check>, b: seq<Check>, val: Value)
    ensures ChecksErrors(engine, rule, a + b, val) == ChecksErrors(engine, rule, a, val) + ChecksErrors(engine, rule, b, val)
  {
    FlatMapAppend(CheckErrorsOf(engine, rule, val), a, b);
  }

  /** Each check adds at most one error, so a rule adds no more errors than it has checks. */
  lemma ChecksErrorsBound(engine: RegexEngine, rule: Rule, checks: seq<Check>, val: Value)
    ensures |ChecksErrors(engine, rule, checks, val)| <= |checks|
  {
    FlatMapBound(CheckErrorsOf(engine, rule, val), checks);
  }

  /** The checks add no error exactly when every operator is registered and passes. */
  lemma ChecksErrorsEmptyIffAllPass(engine: RegexEngine, rule: Rule, checks: seq<Check>, val: Value)
    ensures ChecksErrors(engine, rule, checks, val) == [] <==>
              forall k :: 0 <= k < |checks| ==>
                Get(checks[k].op).Some? && Apply(Get(checks[k].op).value, engine, val, checks[k]).passed
  {
    FlatMapEmptyIff(CheckErrorsOf(engine, rule, val), checks);
  }

  /** An unknown check operator adds exactly its one error, and the following checks still run. */
  lemma UnknownOperatorDoesNotAbort(engine: RegexEngine, rule: Rule, a: seq<Check>, c: Check, b: seq<Check>, val: Value)
    requires Get(c.op).None?
    ensures ChecksErrors(engine, rule, a + [c] + b, val) ==
              ChecksErrors(engine, rule, a, val)
              + [ErrorDetail(rule.id, rule.field, Null, Text("unknown operator: " + c.op), "")]
              + ChecksErrors(engine, rule, b, val)
  {
    ChecksErrorsAppend(engine, rule, a + [c], b, val);
    ChecksErrorsAppend(engine, rule, a, [c], val);
    assert [c][..0] == [];
  }

  /** A rule whose guard does not hold, in particular one whose guard operator is unknown, adds nothing. */
  lemma SkippedRuleAddsNothing(engine: RegexEngine, record: Record, rule: Rule)
    requires rule.when.Some? && Get(rule.when.value.op).None?
    ensures RuleErrors(engine, record, rule) == []
  {
  }

  // ---- The batch as a concatenation of per-record results ----

  /** The concatenation of a list of error lists, in order. */
  function Concat(parts: seq<seq<ErrorDetail>>): seq<ErrorDetail>
    decreases |parts|
  {
    if parts == [] then [] else Concat(parts[..|parts| - 1]) + parts[|parts| - 1]
  }

  lemma {:induction false} ConcatAppend(a: seq<seq<ErrorDetail>>, b: seq<seq<ErrorDetail>>)
    ensures Concat(a + b) == Concat(a) + Concat(b)
    decreases |b|
  {
    if b == [] {
      assert a + b == a;
    } else {
      var n := |b| - 1;
      assert (a + b)[..|a + b| - 1] == a + b[..n];
      ConcatAppend(a, b[..n]);
      AppendAssoc(Concat(a), Concat(b[..n]), b[n]);
    }
  }

  lemma {:induction false} ConcatEmptyIff(parts: seq<seq<ErrorDetail>>)
    ensures Concat(parts) == [] <==> forall i :: 0 <= i < |parts| ==> parts[i] == []
    decreases |parts|
  {
    if parts != [] {
      var n := |parts| - 1;
      ConcatEmptyIff(parts[..n]);
      assert forall i :: 0 <= i < n ==> parts[..n][i] == parts[i];
    }
  }

  /** The errors of each record of a batch, one list per record. */
  function RecordErrorLists(engine: RegexEngine, orders: seq<Visits>, rules: seq<Rule>, records: seq<Record>)
    : (r: seq<seq<ErrorDetail>>)
    requires |orders| == |records|
    ensures |r| == |records|
    ensures forall i :: 0 <= i < |records| ==> r[i] == RecordErrors(engine, orders[i], rules, records[i])
  {
    seq(|records|, i requires 0 <= i < |records| => RecordErrors(engine, orders[i], rules, records[i]))
  }

  /** The errors of a run are its records' errors, concatenated in record order. */
  lemma {:induction false} RunErrorsIsConcat(engine: RegexEngine, orders: seq<Visits>, rules: seq<Rule>, records: seq<Record>)
    requires |orders| == |records|
    ensures RunErrors(engine, orders, rules, records) == Concat(RecordErrorLists(engine, orders, rules, records))
    decreases |records|
  {
    if records != [] {
      var n := |records| - 1;
      RunErrorsIsConcat(engine, orders[..n], rules, records[..n]);
      var all := RecordErrorLists(engine, orders, rules, records);
      assert RecordErrorLists(engine, orders[..n], rules, records[..n]) == all[..n];
    }
  }

  /** The errors of a batch are the errors of its parts: each record is evaluated independently. */
  lemma RunErrorsAppend(engine: RegexEngine, rules: seq<Rule>,
                        ra: seq<Record>, oa: seq<Visits>, rb: seq<Record>, ob: seq<Visits>)
    requires |oa| == |ra| && |ob| == |rb|
    ensures RunErrors(engine, oa + ob, rules, ra + rb) ==
              RunErrors(engine, oa, rules, ra) + RunErrors(engine, ob, rules, rb)
  {
    RunErrorsIsConcat(engine, oa + ob, rules, ra + rb);
    RunErrorsIsConcat(engine, oa, rules, ra);
    RunErrorsIsConcat(engine, ob, rules, rb);
    RecordErrorListsAppend(engine, rules, ra, oa, rb, ob);
    ConcatAppend(RecordErrorLists(engine, oa, rules, ra), RecordErrorLists(engine, ob, rules, rb));
  }

  lemma RecordErrorListsAppend(engine: RegexEngine, rules: seq<Rule>,
                               ra: seq<Record>, oa: seq<Visits>, rb: seq<Record>, ob: seq<Visits>)
    requires |oa| == |ra| && |ob| == |rb|
    ensures RecordErrorLists(engine, oa + ob, rules, ra + rb) ==
              RecordErrorLists(engine, oa, rules, ra) + RecordErrorLists(engine, ob, rules, rb)
  {
    var l := RecordErrorLists(engine, oa + ob, rules, ra + rb);
    var la, lb := RecordErrorLists(engine, oa, rules, ra), RecordErrorLists(engine, ob, rules, rb);
    forall i | 0 <= i < |l|
      ensures l[i] == (la + lb)[i]
    {
      if i < |ra| {
        assert (ra + rb)[i] == ra[i] && (oa + ob)[i] == oa[i];
      } else {
        assert (ra + rb)[i] == rb[i - |ra|] && (oa + ob)[i] == ob[i - |ra|];
      }
    }
  }

  /** A run passes exactly when no record contributes an error. */
  lemma RunPassesIffEveryRecordClean(engine: RegexEngine, orders: seq<Visits>,
                                     rules: seq<Rule>, records: seq<Record>)
    requires |orders| == |records|
    ensures RunErrors(engine, orders, rules, records) == [] <==>
              forall i :: 0 <= i < |records| ==> RecordErrors(engine, orders[i], rules, records[i]) == []
  {
    RunErrorsIsConcat(engine, orders, rules, records);
    ConcatEmptyIff(RecordErrorLists(engine, orders, rules, records));
  }

  /** A run with no records passes (`Validate` then reports PASS with zero failures). */
  lemma EmptyBatchPasses(engine: RegexEngine, rules: seq<Rule>)
    ensures RunErrors(engine, [], rules, []) == []
  {
  }

  // ---- The executor's tests ----

  const TestSchema: Schema := map["amount" := "number", "status" := "string"]

  const TestRules: seq<Rule> := [
    Rule("amount_positive", "amount", None, [Check("not_null", Null), Check("gt", Int(0))], ""),
    Rule("status_enum", "status", None, [Check("enum", StrList(["active", "pending", "failed"]))], "")]

  lemma AmountRuleOnActiveRecord(engine: RegexEngine, amount: I64)
    ensures |RuleErrors(engine, map["amount" := Int(amount), "status" := Str("active")], TestRules[0])|
            == if amount > 0 then 0 else 1
  {
    var rule, val := TestRules[0], Int(amount);
    var c1 := rule.checks;
    ChecksErrorsStep(engine, rule, c1, 0, val);
    ChecksErrorsStep(engine, rule, c1, 1, val);
    assert c1[..0] == [] && c1[..1 + 1] == c1;
    assert CheckError(engine, rule, c1[0], val).None?;
  }

  lemma StatusRuleOnActiveRecord(engine: RegexEngine, amount: I64)
    ensures RuleErrors(engine, map["amount" := Int(amount), "status" := Str("active")], TestRules[1]) == []
  {
    var c2 := TestRules[1].checks;
    assert c2[..0] == [];
    assert "active" in ["active", "pending", "failed"];
  }

  lemma TestRulesOnActiveRecord(engine: RegexEngine, amount: I64)
    ensures |RulesErrors(engine, map["amount" := Int(amount), "status" := Str("active")], TestRules)|
            == if amount > 0 then 0 else 1
  {
    var record := map["amount" := Int(amount), "status" := Str("active")];
    assert TestRules[..1][..0] == [] && TestRules[..1] == TestRules[..|TestRules| - 1];
    AmountRuleOnActiveRecord(engine, amount);
    StatusRuleOnActiveRecord(engine, amount);
  }

  /**
   * The executor's table test, for every order of visiting the schema, records
   * passing the schema: an active record with an integer amount adds no failure
   * when the amount is positive (the row with 100) and exactly one otherwise
   * (the row with -10).
   */
  lemma ExecutorTableRuleCases(engine: RegexEngine, visits: Visits, amount: I64)
    requires IsEnumerationOf(visits, TestSchema)
    ensures |RecordErrors(engine, visits, TestRules, map["amount" := Int(amount), "status" := Str("active")])|
            == if amount > 0 then 0 else 1
  {
    var record := map["amount" := Int(amount), "status" := Str("active")];
    SchemaGateIsOrderIndependentInOutcome(record, TestSchema, visits);
    TestRulesOnActiveRecord(engine, amount);
  }

  /**
   * The same test's schema cases: a record whose amount is missing (the row
   * with only a status) or not a number (the row with "not_a_number") adds
   * exactly one failure, whatever else it holds.
   */
  lemma ExecutorTableSchemaCases(engine: RegexEngine, visits: Visits, record: Record)
    requires IsEnumerationOf(visits, TestSchema)
    requires "amount" !in record || ToFloat(record["amount"]).None?
    ensures |RecordErrors(engine, visits, TestRules, record)| == 1
  {
    SchemaGateIsOrderIndependentInOutcome(record, TestSchema, visits);
    assert FieldViolation(record, "amount", TestSchema["amount"]).Some?;
  }

  const CreditRule := Rule("credit_positive", "amount", Some(Condition("type", "eq", Str("credit"))),
                           [Check("gt", Int(0))], "")

  /** The schema of the executor's guarded-rule test. */
  const CreditSchema: Schema := map["amount" := "number", "type" := "string"]

  /** The guarded rule fails a record only when its guard holds (a credit) and the amount is not positive. */
  lemma CreditRuleOnRecord(engine: RegexEngine, kind: string, amount: I64)
    ensures |RuleErrors(engine, map["type" := Str(kind), "amount" := Int(amount)], CreditRule)|
            == if kind == "credit" && amount <= 0 then 1 else 0
  {
    var checks := CreditRule.checks;
    assert checks[..0] == [] && checks[..0 + 1] == checks;
    ChecksErrorsStep(engine, CreditRule, checks, 0, Int(amount));
    assert Str(kind) == Str("credit") <==> kind == "credit";
  }

  /**
   * The executor's guarded-rule test, for every order of visiting its schema:
   * a record with a string type and an integer amount passes the schema, and then
   * fails exactly when it is a credit whose amount is not positive. So the credit
   * with 100 passes, the credit with -10 fails once, and the debit with -10 passes.
   */
  lemma ConditionalRuleScenario(engine: RegexEngine, visits: Visits, kind: string, amount: I64)
    requires IsEnumerationOf(visits, CreditSchema)
    ensures |RecordErrors(engine, visits, [CreditRule], map["type" := Str(kind), "amount" := Int(amount)])|
            == if kind == "credit" && amount <= 0 then 1 else 0
  {
    var record := map["type" := Str(kind), "amount" := Int(amount)];
    CreditRecordPassesSchema(visits, kind, amount);
    SingleRuleErrors(engine, record, CreditRule);
    CreditRuleOnRecord(engine, kind, amount);
  }

  lemma CreditRecordPassesSchema(visits: Visits, kind: string, amount: I64)
    requires IsEnumerationOf(visits, CreditSchema)
    ensures ValidateSchema(map["type" := Str(kind), "amount" := Int(amount)], visits).None?
  {
    var record := map["type" := Str(kind), "amount" := Int(amount)];
    SchemaGateIsOrderIndependentInOutcome(record, CreditSchema, visits);
    assert FieldViolation(record, "amount", "number").None?;
    assert FieldViolation(record, "type", "string").None?;
  }

  lemma SingleRuleErrors(engine: RegexEngine, record: Record, rule: Rule)
    ensures RulesErrors(engine, record, [rule]) == RuleErrors(engine, record, rule)
  {
    assert [rule][..0] == [];
  }
}
