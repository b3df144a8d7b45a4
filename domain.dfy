/**
 * The shared data types of the validation service (internal/domain/models.go).
 * Records and schemas are maps; every dynamically typed Go value becomes a Value.
 */
module Domain {
  import opened Wrappers

  /** Go's `int` on a 64-bit platform and `int64` have the same range. */
  newtype I64 = x: int | -0x8000_0000_0000_0000 <= x < 0x8000_0000_0000_0000

  /**
   * A dynamically typed value as it can sit in an `interface{}`: nil, a bool,
   * a Go `int`, an `int64`, a `float64`, a string, a `[]interface{}` or a `[]string`.
   * The two integer constructors are different dynamic types (10 as `int` is not
   * equal to 10 as `int64` under Go's interface comparison).
   */
  datatype Value =
    | Null
    | Bool(b: bool)
    | Int(i: I64)
    | Int64(i64: I64)
    | Float(f: real)
    | Str(s: string)
    | List(items: seq<Value>)
    | StrList(strs: seq<string>)

  /** One validation subject: field name to value. */
  type Record = map<string, Value>

  /** Field name to expected type tag ("string", "number", "boolean", anything else). */
  type Schema = map<string, string>

  /** The optional guard of a rule. */
  datatype Condition = Condition(field: string, op: string, value: Value)

  /** One assertion of a rule; an omitted value is Null. */
  datatype Check = Check(op: string, value: Value)

  /** A rule: `when` is the optional guard, nil when the rule has none. */
  datatype Rule = Rule(id: string, field: string, when: Option<Condition>, checks: seq<Check>, severity: string)

  /**
   * Why a check failed. Fixed reason texts (and those formatted with `%s` from
   * strings only) are kept as `Text`; the ones that print values with `%v`
   * keep the printed values instead of their rendering.
   */
  datatype Reason =
    | Text(text: string)
    | ExpectedEqual(want: Value, got: Value)       // "expected %v, got %v"
    | ExpectedNotEqual(want: Value, got: Value)    // "expected not %v, got %v"
    | NotGreater(v: real, t: real)                 // "value %v is not greater than %v"
    | NotLess(v: real, t: real)                    // "value %v is not less than %v"
    | NotInEnum(list: Value)                       // "value %v not in enum list"

  datatype ErrorDetail = ErrorDetail(ruleID: string, field: string, value: Value, reason: Reason, recordID: string)

  /** The outcome of one validation run; the timestamp is a clock reading in nanoseconds. */
  datatype ValidationResult = ValidationResult(
    sourceID: string,
    status: string,
    recordsChecked: int,
    rulesFailed: int,
    errors: seq<ErrorDetail>,
    timestamp: int)

  const StatusPass := "PASS"
  const StatusFail := "FAIL"

  /** Concatenation regrouped; stated once so that proofs need not re-derive it element by element. */
  lemma AppendAssoc<T>(a: seq<T>, b: seq<T>, c: seq<T>)
    ensures a + b + c == a + (b + c)
  {
  }

  /** `sub` is the selection of `xs` at the ascending positions `idx`. */
  ghost predicate SelectsInOrder<T>(sub: seq<T>, xs: seq<T>, idx: seq<int>) {
    && |idx| == |sub|
    && (forall k :: 0 <= k < |idx| ==> 0 <= idx[k] < |xs| && sub[k] == xs[idx[k]])
    && (forall k, l :: 0 <= k < l < |idx| ==> idx[k] < idx[l])
  }

  /** A selection of a prefix stays one of the extended input, and may take the new last position. */
  lemma SelectsInOrderExtend<T>(sub: seq<T>, pre: seq<T>, idx: seq<int>, last: T)
    requires SelectsInOrder(sub, pre, idx)
    ensures SelectsInOrder(sub, pre + [last], idx)
    ensures SelectsInOrder(sub + [last], pre + [last], idx + [|pre|])
  {
    var xs := pre + [last];
    assert forall k :: 0 <= k < |idx| ==> xs[idx[k]] == pre[idx[k]];
  }

  /** `f` applied to each element of `xs`, the results concatenated in order. */
  function FlatMap<T, U>(f: T -> seq<U>, xs: seq<T>): seq<U>
    decreases |xs|
  {
    if xs == [] then [] else FlatMap(f, xs[..|xs| - 1]) + f(xs[|xs| - 1])
  }

  lemma FlatMapStep<T, U>(f: T -> seq<U>, xs: seq<T>, k: nat)
    requires k < |xs|
    ensures FlatMap(f, xs[..k + 1]) == FlatMap(f, xs[..k]) + f(xs[k])
  {
    assert xs[..k + 1][..k] == xs[..k];
  }

  lemma {:induction false} FlatMapAppend<T, U>(f: T -> seq<U>, a: seq<T>, b: seq<T>)
    ensures FlatMap(f, a + b) == FlatMap(f, a) + FlatMap(f, b)
    decreases |b|
  {
    if b == [] {
      assert a + b == a;
    } else {
      var n := |b| - 1;
      assert (a + b)[..|a + b| - 1] == a + b[..n];
      FlatMapAppend(f, a, b[..n]);
      AppendAssoc(FlatMap(f, a), FlatMap(f, b[..n]), f(b[n]));
    }
  }

  lemma {:induction false} FlatMapEmptyIff<T, U>(f: T -> seq<U>, xs: seq<T>)
    ensures FlatMap(f, xs) == [] <==> forall k :: 0 <= k < |xs| ==> f(xs[k]) == []
    decreases |xs|
  {
    if xs != [] {
      var n := |xs| - 1;
      FlatMapEmptyIff(f, xs[..n]);
      assert forall k :: 0 <= k < n ==> xs[..n][k] == xs[k];
    }
  }

  lemma {:induction false} FlatMapBound<T, U>(f: T -> seq<U>, xs: seq<T>)
    requires forall k :: 0 <= k < |xs| ==> |f(xs[k])| <= 1
    ensures |FlatMap(f, xs)| <= |xs|
    decreases |xs|
  {
    if xs != [] {
      var n := |xs| - 1;
      assert forall k :: 0 <= k < n ==> xs[..n][k] == xs[k];
      FlatMapBound(f, xs[..n]);
    }
  }
}
