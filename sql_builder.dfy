/**
 * The failure-query builder (internal/engine/optimizer/sql_builder.go). Each
 * check is inverted into the SQL condition under which a row FAILS it; the
 * conditions of one rule are OR-ed inside parentheses, the rule clauses are
 * OR-ed together, and every check value becomes the next numbered placeholder
 * `$1, $2, ...` with the value appended to the argument list.
 *
 * The functions below number the conditions as structured values (`Cond`) and
 * render them; `BuildFailureQuery` is the source's nested loop building the
 * strings directly with its running `argCounter`.
 */
module SqlBuilder {
  import opened Wrappers
  import opened Domain
  import Planner

  // ---- Decimal rendering of placeholder numbers (`%d`) ----

  function Digit(d: nat): char
    requires d < 10
  {
    "0123456789"[d]
  }

  /** The decimal digits of `n`, most significant first, without leading zeros. */
  function NatToDecimal(n: nat): (r: string)
    ensures |r| >= 1
    ensures forall i :: 0 <= i < |r| ==> '0' <= r[i] <= '9'
    ensures n >= 10 <==> |r| > 1
    ensures r[0] == '0' <==> n == 0
    decreases n
  {
    if n < 10 then [Digit(n)] else NatToDecimal(n / 10) + [Digit(n % 10)]
  }

  /** The number a string of decimal digits denotes. */
  function DecimalValue(s: string): int
    decreases |s|
  {
    if s == [] then 0 else DecimalValue(s[..|s| - 1]) * 10 + (s[|s| - 1] as int - '0' as int)
  }

  /** Rendering is invertible, so distinct placeholder numbers give distinct placeholders. */
  lemma {:induction false} DecimalRoundTrip(n: nat)
    ensures DecimalValue(NatToDecimal(n)) == n
    decreases n
  {
    var r := NatToDecimal(n);
    if n < 10 {
      DigitValue(n);
      assert r == [Digit(n)] && r[..0] == [];
    } else {
      var q, d := n / 10, n % 10;
      DecimalRoundTrip(q);
      DigitValue(d);
      assert r == NatToDecimal(q) + [Digit(d)];
      assert r[..|r| - 1] == NatToDecimal(q) && r[|r| - 1] == Digit(d);
      assert DecimalValue(r) == q * 10 + d;
    }
  }

  lemma DigitValue(d: nat)
    requires d < 10
    ensures Digit(d) as int - '0' as int == d
  {
  }

  // ---- strings.Join ----

  /** The elements of `xs` with `sep` between each neighbouring pair. */
  function Join(xs: seq<string>, sep: string): string
    decreases |xs|
  {
    if |xs| == 0 then ""
    else if |xs| == 1 then xs[0]
    else Join(xs[..|xs| - 1], sep) + sep + xs[|xs| - 1]
  }

  // ---- invertCheckToSQL ----

  /** The comparison operators that take the check value as an argument. */
  const ComparisonOps: set<string> := {"eq", "neq", "gt", "lt", "gte", "lte"}

  /**
   * The failure condition of one check and the value it binds. `not_null` binds
   * nothing; every comparison binds the check value, nil included; other
   * operators translate to nothing.
   */
  function InvertCheckToSQL(field: string, check: Check): (r: (string, Value))
    ensures r.0 == "" <==> !Planner.IsOpSafe(check.op)
    ensures check.op == "not_null" ==> r == (field + " IS NULL", Null)
    ensures check.op in ComparisonOps ==> r.1 == check.value
    ensures check.op == "eq" ==> r == (field + " !=", check.value)
    ensures check.op == "neq" ==> r == (field + " =", check.value)
    ensures check.op == "gt" ==> r == (field + " <=", check.value)
    ensures check.op == "lt" ==> r == (field + " >=", check.value)
    ensures check.op == "gte" ==> r == (field + " <", check.value)
    ensures check.op == "lte" ==> r == (field + " >", check.value)
    ensures !Planner.IsOpSafe(check.op) ==> r == ("", Null)
  {
    match check.op
    case "not_null" => (field + " IS NULL", Null)
    case "eq" => (field + " !=", check.value)
    case "neq" => (field + " =", check.value)
    case "gt" => (field + " <=", check.value)
    case "lt" => (field + " >=", check.value)
    case "gte" => (field + " <", check.value)
    case "lte" => (field + " >", check.value)
    case _ => ("", Null)
  }

  // ---- Numbered conditions ----

  /** A condition and the placeholder number it ends with, if any. */
  datatype Cond = Cond(text: string, slot: Option<nat>)

  /** `"%s $%d"` for a condition with a placeholder, the bare text otherwise. */
  function Render(c: Cond): string {
    if c.slot.Some? then c.text + " $" + NatToDecimal(c.slot.value) else c.text
  }

  function RenderAll(cs: seq<Cond>): (r: seq<string>)
    ensures |r| == |cs|
    decreases |cs|
  {
    if cs == [] then [] else RenderAll(cs[..|cs| - 1]) + [Render(cs[|cs| - 1])]
  }

  /** The conditions one rule's checks contribute and the arguments they bind. */
  datatype Emission = Emission(conds: seq<Cond>, args: seq<Value>)

  /**
   * The conditions of `checks` on `field`, numbering placeholders from `start`:
   * the next number is always `start` plus the arguments bound so far.
   */
  function CheckConds(field: string, checks: seq<Check>, start: nat): Emission
    decreases |checks|
  {
    if checks == [] then Emission([], [])
    else Emit(CheckConds(field, checks[..|checks| - 1], start), InvertCheckToSQL(field, checks[|checks| - 1]), start)
  }

  /** One translated check added to `e`: nothing, a numbered condition and its argument, or a bare condition. */
  function Emit(e: Emission, inv: (string, Value), start: nat): Emission {
    if inv.0 == "" then e
    else if inv.1 != Null then Emission(e.conds + [Cond(inv.0, Some(start + |e.args|))], e.args + [inv.1])
    else Emission(e.conds + [Cond(inv.0, None)], e.args)
  }

  /** The clauses of all rules (each a non-empty list of conditions) and all arguments, numbered from 1. */
  datatype Clauses = Clauses(clauses: seq<seq<Cond>>, args: seq<Value>)

  function RuleClauses(rules: seq<Rule>): Clauses
    decreases |rules|
  {
    if rules == [] then Clauses([], [])
    else
      var c := RuleClauses(rules[..|rules| - 1]);
      var rule := rules[|rules| - 1];
      var e := CheckConds(rule.field, rule.checks, 1 + |c.args|);
      Clauses(c.clauses + (if |e.conds| > 0 then [e.conds] else []), c.args + e.args)
  }

  /** One rule's clause: its conditions OR-ed inside parentheses. */
  function Parenthesised(conds: seq<string>): string {
    "(" + Join(conds, " OR ") + ")"
  }

  function RenderClauses(clauses: seq<seq<Cond>>): (r: seq<string>)
    ensures |r| == |clauses|
    decreases |clauses|
  {
    if clauses == [] then []
    else RenderClauses(clauses[..|clauses| - 1]) + [Parenthesised(RenderAll(clauses[|clauses| - 1]))]
  }

  /** The query and arguments `BuildFailureQuery` returns; `("", nil)` is `("", [])`. */
  function FailureQuery(tableName: string, rules: seq<Rule>): (string, seq<Value>) {
    var c := RuleClauses(rules);
    if |rules| == 0 || |c.clauses| == 0 then ("", [])
    else ("SELECT * FROM " + tableName + " WHERE " + Join(RenderClauses(c.clauses), " OR "), c.args)
  }

  // ---- The builder ----

  lemma RenderAllStep(cs: seq<Cond>, c: Cond)
    ensures RenderAll(cs + [c]) == RenderAll(cs) + [Render(c)]
  {
    assert (cs + [c])[..|cs|] == cs;
  }

  lemma RenderClausesStep(clauses: seq<seq<Cond>>, conds: seq<Cond>)
    ensures RenderClauses(clauses + [conds]) == RenderClauses(clauses) + [Parenthesised(RenderAll(conds))]
  {
    assert (clauses + [conds])[..|clauses|] == clauses;
  }

  lemma CheckCondsStep(field: string, checks: seq<Check>, j: nat, start: nat)
    requires j < |checks|
    ensures CheckConds(field, checks[..j + 1], start)
            == Emit(CheckConds(field, checks[..j], start), InvertCheckToSQL(field, checks[j]), start)
  {
    assert checks[..j + 1][..j] == checks[..j];
  }

  lemma RuleClausesStep(rules: seq<Rule>, i: nat)
    requires i < |rules|
    ensures var c := RuleClauses(rules[..i]);
            var e := CheckConds(rules[i].field, rules[i].checks, 1 + |c.args|);
            RuleClauses(rules[..i + 1]) == Clauses(c.clauses + (if |e.conds| > 0 then [e.conds] else []), c.args + e.args)
  {
    assert rules[..i + 1][..i] == rules[..i];
  }

  /** What one more translated check adds to the rendered conditions and to the arguments. */
  lemma EmitRendered(e: Emission, inv: (string, Value), start: nat)
    ensures var next := Emit(e, inv, start);
            && (inv.0 == "" ==> next == e)
            && (inv.0 != "" && inv.1 != Null ==>
                  && RenderAll(next.conds) == RenderAll(e.conds) + [inv.0 + " $" + NatToDecimal(start + |e.args|)]
                  && next.args == e.args + [inv.1])
            && (inv.0 != "" && inv.1 == Null ==>
                  RenderAll(next.conds) == RenderAll(e.conds) + [inv.0] && next.args == e.args)
  {
    if inv.0 != "" {
      if inv.1 != Null {
        RenderAllStep(e.conds, Cond(inv.0, Some(start + |e.args|)));
      } else {
        RenderAllStep(e.conds, Cond(inv.0, None));
      }
    }
  }

  /**
   * The body of the inner loop: from the state that renders `e`, one more
   * translated check `(cond, val)` leads to the state that renders
   * `Emit(e, (cond, val), start)`. An untranslatable check adds nothing, a
   * condition with a non-nil value adds its numbered text and its argument and
   * advances the counter, and one with a nil value adds its bare text.
   */
  method AppendCondition(cond: string, val: Value, ruleConditions0: seq<string>, args0: seq<Value>, argCounter0: nat,
                         ghost e: Emission, ghost base: seq<Value>, ghost start: nat)
    returns (ruleConditions: seq<string>, args: seq<Value>, argCounter: nat)
    requires ruleConditions0 == RenderAll(e.conds)
    requires args0 == base + e.args
    requires argCounter0 == start + |e.args|
    ensures ruleConditions == RenderAll(Emit(e, (cond, val), start).conds)
    ensures args == base + Emit(e, (cond, val), start).args
    ensures argCounter == start + |Emit(e, (cond, val), start).args|
  {
    EmitRendered(e, (cond, val), start);
    AppendAssoc(base, e.args, [val]);
    ruleConditions, args, argCounter := ruleConditions0, args0, argCounter0;
    if cond != "" {
      if val != Null {
        ruleConditions := ruleConditions + [cond + " $" + NatToDecimal(argCounter)];
        args := args + [val];
        argCounter := argCounter + 1;
      } else {
        ruleConditions := ruleConditions + [cond];
      }
    }
  }

  /** The inner loop: the conditions of one rule, appending bound values to `args` and advancing the counter. */
  method BuildConditions(field: string, checks: seq<Check>, argCounter0: nat, args0: seq<Value>)
    returns (ruleConditions: seq<string>, args: seq<Value>, argCounter: nat)
    ensures ruleConditions == RenderAll(CheckConds(field, checks, argCounter0).conds)
    ensures args == args0 + CheckConds(field, checks, argCounter0).args
    ensures argCounter == argCounter0 + |CheckConds(field, checks, argCounter0).args|
  {
    ruleConditions, args, argCounter := [], args0, argCounter0;
    for j := 0 to |checks|
      invariant ruleConditions == RenderAll(CheckConds(field, checks[..j], argCounter0).conds)
      invariant args == args0 + CheckConds(field, checks[..j], argCounter0).args
      invariant argCounter == argCounter0 + |CheckConds(field, checks[..j], argCounter0).args|
    {
      var inv := InvertCheckToSQL(field, checks[j]);
      CheckCondsStep(field, checks, j, argCounter0);
      ruleConditions, args, argCounter :=
        AppendCondition(inv.0, inv.1, ruleConditions, args, argCounter, CheckConds(field, checks[..j], argCounter0), args0, argCounter0);
    }
    assert checks[..|checks|] == checks;
  }

  /** The builder: one clause per rule with a translatable check, OR-ed into one SELECT. */
  method BuildFailureQuery(tableName: string, rules: seq<Rule>) returns (query: string, args: seq<Value>)
    ensures (query, args) == FailureQuery(tableName, rules)
  {
    if |rules| == 0 {
      return "", [];
    }
    var whereClauses: seq<string> := [];
    args := [];
    var argCounter: nat := 1;
    for i := 0 to |rules|
      invariant whereClauses == RenderClauses(RuleClauses(rules[..i]).clauses)
      invariant args == RuleClauses(rules[..i]).args
      invariant argCounter == 1 + |args|
    {
      var rule := rules[i];
      ghost var c := RuleClauses(rules[..i]);
      ghost var e := CheckConds(rule.field, rule.checks, argCounter);
      RuleClausesStep(rules, i);
      var ruleConditions;
      ruleConditions, args, argCounter := BuildConditions(rule.field, rule.checks, argCounter, args);
      if |ruleConditions| > 0 {
        RenderClausesStep(c.clauses, e.conds);
        assert RuleClauses(rules[..i + 1]).clauses == c.clauses + [e.conds];
        whereClauses := whereClauses + [Parenthesised(ruleConditions)];
      } else {
        assert RuleClauses(rules[..i + 1]).clauses == c.clauses;
      }
    }
    assert rules[..|rules|] == rules;
    ghost var all := RuleClauses(rules);
    assert whereClauses == RenderClauses(all.clauses) && args == all.args;
    if |whereClauses| == 0 {
      return "", [];
    }
    query := "SELECT * FROM " + tableName + " WHERE " + Join(whereClauses, " OR ");
  }

  // ---- Placeholder numbering ----

  /** The placeholder numbers of `conds`, in textual order. */
  function Slots(conds: seq<Cond>): seq<nat>
    decreases |conds|
  {
    if conds == [] then []
    else
      var c := conds[|conds| - 1];
      Slots(conds[..|conds| - 1]) + (if c.slot.Some? then [c.slot.value] else [])
  }

  /** All conditions of all clauses, in query order. */
  function Flatten(clauses: seq<seq<Cond>>): seq<Cond>
    decreases |clauses|
  {
    if clauses == [] then [] else Flatten(clauses[..|clauses| - 1]) + clauses[|clauses| - 1]
  }

  /** `start, start + 1, ..., start + k - 1`. */
  function Consecutive(start: nat, k: nat): seq<nat> {
    seq(k, i => start + i)
  }

  lemma {:induction false} SlotsAppend(a: seq<Cond>, b: seq<Cond>)
    ensures Slots(a + b) == Slots(a) + Slots(b)
    decreases |b|
  {
    if b != [] {
      var n := |b| - 1;
      assert (a + b)[..|a + b| - 1] == a + b[..n];
      SlotsAppend(a, b[..n]);
    } else {
      assert a + b == a;
    }
  }

  /** Within one rule, the placeholders are `start ..` with one number per bound argument. */
  lemma {:induction false} CheckSlotsConsecutive(field: string, checks: seq<Check>, start: nat)
    ensures Slots(CheckConds(field, checks, start).conds) == Consecutive(start, |CheckConds(field, checks, start).args|)
    decreases |checks|
  {
    if checks != [] {
      var n := |checks| - 1;
      var e := CheckConds(field, checks[..n], start);
      CheckSlotsConsecutive(field, checks[..n], start);
      var inv := InvertCheckToSQL(field, checks[n]);
      if inv.0 != "" {
        var c := if inv.1 != Null then Cond(inv.0, Some(start + |e.args|)) else Cond(inv.0, None);
        assert (e.conds + [c])[..|e.conds|] == e.conds;
        if inv.1 != Null {
          assert Consecutive(start, |e.args|) + [start + |e.args|] == Consecutive(start, |e.args| + 1);
        }
      }
    }
  }

  lemma {:induction false} ConsecutiveAppend(start: nat, k: nat, m: nat)
    ensures Consecutive(start, k) + Consecutive(start + k, m) == Consecutive(start, k + m)
  {
  }

  /** Adding a rule's conditions as a clause, when there are any, appends their slots. */
  lemma FlattenSlotsStep(clauses: seq<seq<Cond>>, conds: seq<Cond>)
    ensures Slots(Flatten(clauses + (if |conds| > 0 then [conds] else []))) == Slots(Flatten(clauses)) + Slots(conds)
  {
    if |conds| > 0 {
      assert (clauses + [conds])[..|clauses|] == clauses;
      assert Flatten(clauses + [conds]) == Flatten(clauses) + conds;
      SlotsAppend(Flatten(clauses), conds);
    } else {
      assert clauses + [] == clauses;
    }
  }

  /**
   * Across the whole query the placeholders are `$1 .. $n` in textual order,
   * where n is the number of arguments: one distinct placeholder per argument.
   */
  lemma {:induction false} PlaceholdersAreConsecutiveFromOne(rules: seq<Rule>)
    ensures Slots(Flatten(RuleClauses(rules).clauses)) == Consecutive(1, |RuleClauses(rules).args|)
    decreases |rules|
  {
    if rules != [] {
      var n := |rules| - 1;
      var c := RuleClauses(rules[..n]);
      PlaceholdersAreConsecutiveFromOne(rules[..n]);
      CheckSlotsConsecutive(rules[n].field, rules[n].checks, 1 + |c.args|);
      RuleClausesStep(rules, n);
      assert rules[..n + 1] == rules;
      ConsecutiveClauseStep(c, CheckConds(rules[n].field, rules[n].checks, 1 + |c.args|));
    }
  }

  /** A clause numbered on from the clauses before it keeps the numbering consecutive from 1. */
  lemma ConsecutiveClauseStep(c: Clauses, e: Emission)
    requires Slots(Flatten(c.clauses)) == Consecutive(1, |c.args|)
    requires Slots(e.conds) == Consecutive(1 + |c.args|, |e.args|)
    ensures Slots(Flatten(c.clauses + (if |e.conds| > 0 then [e.conds] else []))) == Consecutive(1, |c.args + e.args|)
  {
    ConsecutiveAppend(1, |c.args|, |e.args|);
    FlattenSlotsStep(c.clauses, e.conds);
  }

  // ---- The argument list ----

  /** The values a list of checks binds: the check value of each comparison whose value is not nil. */
  function CheckArgs(checks: seq<Check>): seq<Value>
    decreases |checks|
  {
    if checks == [] then []
    else
      var c := checks[|checks| - 1];
      CheckArgs(checks[..|checks| - 1]) + (if c.op in ComparisonOps && c.value != Null then [c.value] else [])
  }

  /** The bound values of all rules, rule by rule and check by check. */
  function EmittedArgs(rules: seq<Rule>): seq<Value>
    decreases |rules|
  {
    if rules == [] then [] else EmittedArgs(rules[..|rules| - 1]) + CheckArgs(rules[|rules| - 1].checks)
  }

  lemma {:induction false} CheckCondsArgs(field: string, checks: seq<Check>, start: nat)
    ensures CheckConds(field, checks, start).args == CheckArgs(checks)
    decreases |checks|
  {
    if checks != [] {
      CheckCondsArgs(field, checks[..|checks| - 1], start);
    }
  }

  /** The argument list is the non-nil comparison values, in rule order then check order. */
  lemma {:induction false} ArgsAreTheComparisonValues(rules: seq<Rule>)
    ensures RuleClauses(rules).args == EmittedArgs(rules)
    decreases |rules|
  {
    if rules != [] {
      var n := |rules| - 1;
      ArgsAreTheComparisonValues(rules[..n]);
      CheckCondsArgs(rules[n].field, rules[n].checks, 1 + |RuleClauses(rules[..n]).args|);
    }
  }

  // ---- Clauses and the query ----

  /** A rule contributes conditions iff one of its checks uses a translatable operator. */
  lemma {:induction false} NoConditionIffNothingTranslatable(field: string, checks: seq<Check>, start: nat)
    ensures |CheckConds(field, checks, start).conds| == 0 <==>
              forall j :: 0 <= j < |checks| ==> !Planner.IsOpSafe(checks[j].op)
    decreases |checks|
  {
    if checks != [] {
      var n := |checks| - 1;
      NoConditionIffNothingTranslatable(field, checks[..n], start);
      assert forall j :: 0 <= j < n ==> checks[..n][j] == checks[j];
    }
  }

  /** An unsupported check adds neither a condition nor an argument. */
  lemma UnsupportedCheckContributesNothing(field: string, checks: seq<Check>, c: Check, start: nat)
    requires !Planner.IsOpSafe(c.op)
    ensures CheckConds(field, checks + [c], start) == CheckConds(field, checks, start)
  {
    assert (checks + [c])[..|checks|] == checks;
  }

  /** There is no clause at all iff no check of any rule is translatable. */
  lemma {:induction false} NoClauseIffNothingTranslatable(rules: seq<Rule>)
    ensures |RuleClauses(rules).clauses| == 0 <==>
              forall i, j :: 0 <= i < |rules| && 0 <= j < |rules[i].checks| ==> !Planner.IsOpSafe(rules[i].checks[j].op)
    decreases |rules|
  {
    if rules != [] {
      var n := |rules| - 1;
      var c := RuleClauses(rules[..n]);
      NoClauseIffNothingTranslatable(rules[..n]);
      NoConditionIffNothingTranslatable(rules[n].field, rules[n].checks, 1 + |c.args|);
      assert forall i :: 0 <= i < n ==> rules[..n][i] == rules[i];
    }
  }

  /**
   * The query is empty (and the arguments nil) iff no check of any rule is
   * translatable, an empty rule list included; otherwise it is a SELECT over the table.
   */
  lemma QueryShape(tableName: string, rules: seq<Rule>)
    ensures FailureQuery(tableName, rules).0 == "" <==>
              forall i, j :: 0 <= i < |rules| && 0 <= j < |rules[i].checks| ==> !Planner.IsOpSafe(rules[i].checks[j].op)
    ensures FailureQuery(tableName, rules).0 == "" ==> FailureQuery(tableName, rules).1 == []
    ensures FailureQuery(tableName, rules).0 != "" ==>
              "SELECT * FROM " + tableName + " WHERE " <= FailureQuery(tableName, rules).0
  {
    NoClauseIffNothingTranslatable(rules);
  }

  /** The guard of a rule plays no part: rules with the same fields and checks give the same query. */
  lemma {:induction false} GuardIsIgnored(a: seq<Rule>, b: seq<Rule>)
    requires |a| == |b|
    requires forall i :: 0 <= i < |a| ==> a[i].field == b[i].field && a[i].checks == b[i].checks
    ensures RuleClauses(a) == RuleClauses(b)
    ensures forall t :: FailureQuery(t, a) == FailureQuery(t, b)
    decreases |a|
  {
    if a != [] {
      var n := |a| - 1;
      GuardIsIgnored(a[..n], b[..n]);
    }
  }

  /** A comparison whose value is nil renders as its bare text, such as `"<field> !="`, and binds nothing. */
  lemma NilComparisonValueHasNoPlaceholder(field: string, start: nat)
    ensures RenderAll(CheckConds(field, [Check("eq", Null)], start).conds) == [field + " !="]
    ensures CheckConds(field, [Check("eq", Null)], start).args == []
  {
    assert [Check("eq", Null)][..0] == [];
    assert InvertCheckToSQL(field, Check("eq", Null)) == (field + " !=", Null);
    assert CheckConds(field, [Check("eq", Null)], start) == Emission([Cond(field + " !=", None)], []);
    assert Render(Cond(field + " !=", None)) == field + " !=";
  }

  /** The rules of the builder's test. */
  const TestRules: seq<Rule> := [
    Rule("r1", "amount", None, [Check("not_null", Null), Check("gt", Int(0))], ""),
    Rule("r2", "status", None, [Check("eq", Str("active"))], "")]

  const TestConds1: seq<Cond> := [Cond("amount IS NULL", None), Cond("amount <=", Some(1))]
  const TestConds2: seq<Cond> := [Cond("status !=", Some(2))]

  lemma TestRule1Conds()
    ensures CheckConds("amount", TestRules[0].checks, 1) == Emission(TestConds1, [Int(0)])
  {
    var c1 := TestRules[0].checks;
    assert c1[..1] == [Check("not_null", Null)] && c1[..1][..0] == [];
    assert "amount" + " IS NULL" == "amount IS NULL" && "amount" + " <=" == "amount <=";
    assert InvertCheckToSQL("amount", c1[0]) == ("amount IS NULL", Null);
    assert InvertCheckToSQL("amount", c1[1]) == ("amount <=", Int(0));
    assert CheckConds("amount", c1[..1], 1) == Emission([Cond("amount IS NULL", None)], []);
  }

  lemma TestRule2Conds()
    ensures CheckConds("status", TestRules[1].checks, 2) == Emission(TestConds2, [Str("active")])
  {
    var c2 := TestRules[1].checks;
    assert c2[..0] == [];
    assert "status" + " !=" == "status !=";
    assert InvertCheckToSQL("status", c2[0]) == ("status !=", Str("active"));
  }

  lemma TestRuleClauses()
    ensures RuleClauses(TestRules) == Clauses([TestConds1, TestConds2], [Int(0), Str("active")])
  {
    TestRule1Conds();
    TestRule2Conds();
    assert TestRules[..1][..0] == [] && TestRules[..1] == TestRules[..|TestRules| - 1];
    assert RuleClauses(TestRules[..1]) == Clauses([TestConds1], [Int(0)]);
  }

  lemma TestRenderedConditions()
    ensures RenderAll(TestConds1) == ["amount IS NULL", "amount <= $1"]
    ensures RenderAll(TestConds2) == ["status != $2"]
  {
    assert NatToDecimal(1) == "1" && NatToDecimal(2) == "2";
    assert Render(TestConds1[0]) == "amount IS NULL";
    assert Render(TestConds1[1]) == "amount <=" + " $" + "1" == "amount <= $1";
    assert Render(TestConds2[0]) == "status !=" + " $" + "2" == "status != $2";
    assert TestConds1[..1] == [TestConds1[0]] && TestConds1[..1][..0] == [] && TestConds2[..0] == [];
  }

  lemma JoinPair(a: string, b: string, sep: string)
    ensures Join([a, b], sep) == a + sep + b
  {
    assert [a, b][..1] == [a];
  }

  lemma RenderClausesPair(x: seq<Cond>, y: seq<Cond>)
    ensures RenderClauses([x, y]) == [Parenthesised(RenderAll(x)), Parenthesised(RenderAll(y))]
  {
    assert [x, y][..1] == [x] && [x, y][..1][..0] == [];
  }

  /** The two clauses of the builder's test, as the fragments the test looks for. */
  const TestClause1: string := "(" + "amount IS NULL" + " OR " + "amount <= $1" + ")"
  const TestClause2: string := "(" + "status != $2" + ")"

  lemma TestRendering()
    ensures RenderClauses([TestConds1, TestConds2]) == [TestClause1, TestClause2]
  {
    RenderClausesPair(TestConds1, TestConds2);
    TestRenderedConditions();
    JoinPair("amount IS NULL", "amount <= $1", " OR ");
    AppendAssoc("(", "amount IS NULL", " OR ");
    AppendAssoc("(", "amount IS NULL" + " OR ", "amount <= $1");
  }

  /**
   * The builder's test: two rules, three conditions, two placeholders numbered in
   * order; the query is the test's fragments joined in sequence.
   */
  lemma QueryScenario()
    ensures FailureQuery("orders", TestRules)
            == ("SELECT * FROM " + "orders" + " WHERE " + TestClause1 + " OR " + TestClause2, [Int(0), Str("active")])
  {
    TestRuleClauses();
    TestRendering();
    JoinPair(TestClause1, TestClause2, " OR ");
    var head := "SELECT * FROM " + "orders" + " WHERE ";
    AppendAssoc(head, TestClause1, " OR ");
    AppendAssoc(head, TestClause1 + " OR ", TestClause2);
  }
}
