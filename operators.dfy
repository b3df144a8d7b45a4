/**
 * The operator registry (internal/operators/registry.go): a fixed table from
 * operator names to pure check functions, and the numeric coercion they share.
 * Every operator maps a value and a check to a pass flag and a reason.
 */
module Operators {
  import opened Wrappers
  import opened Domain

  /**
   * The regular expression engine, `regexp.MatchString(pattern, s)`: either whether
   * `pattern` matches somewhere in `s`, or the text of the pattern's compile error.
   */
  type RegexEngine = (string, string) -> Result<bool, string>

  /** What an operator returns: the pass flag and, on failure, why. */
  datatype OpResult = OpResult(passed: bool, reason: Reason)

  /** A passing check carries the empty reason. */
  const Pass := OpResult(true, Text(""))

  function Fail(reason: Reason): OpResult {
    OpResult(false, reason)
  }

  /** The registered check functions. */
  datatype Operator = NotNullOp | EqualOp | NotEqualOp | GreaterThanOp | LessThanOp | RegexOp | EnumOp

  /** The read-only registry; `gte` and `lte` are not in it. */
  const Registry: map<string, Operator> := map[
    "not_null" := NotNullOp,
    "eq" := EqualOp,
    "neq" := NotEqualOp,
    "gt" := GreaterThanOp,
    "lt" := LessThanOp,
    "regex" := RegexOp,
    "enum" := EnumOp
  ]

  /** Looks an operator up by name. */
  function Get(op: string): (r: Option<Operator>)
    ensures r.Some? <==> op in {"not_null", "eq", "neq", "gt", "lt", "regex", "enum"}
    ensures op == "not_null" ==> r == Some(NotNullOp)
    ensures op == "eq" ==> r == Some(EqualOp)
    ensures op == "neq" ==> r == Some(NotEqualOp)
    ensures op == "gt" ==> r == Some(GreaterThanOp)
    ensures op == "lt" ==> r == Some(LessThanOp)
    ensures op == "regex" ==> r == Some(RegexOp)
    ensures op == "enum" ==> r == Some(EnumOp)
  {
    if op in Registry then Some(Registry[op]) else None
  }

  /** Numeric coercion: only `int`, `int64` and `float64` convert; strings, bools, nil and lists do not. */
  function ToFloat(v: Value): (r: Option<real>)
    ensures r.Some? <==> v.Int? || v.Int64? || v.Float?
  {
    match v
    case Int(i) => Some(i as real)
    case Int64(i) => Some(i as real)
    case Float(f) => Some(f)
    case _ => None
  }

  function NotNull(value: Value, check: Check): (r: OpResult)
    ensures r.passed <==> value != Null
    ensures !r.passed ==> r.reason == Text("value is null")
  {
    if value == Null then Fail(Text("value is null")) else Pass
  }

  function Equal(value: Value, check: Check): (r: OpResult)
    ensures r.passed <==> value == check.value
  {
    if value == check.value then Pass else Fail(ExpectedEqual(check.value, value))
  }

  function NotEqual(value: Value, check: Check): (r: OpResult)
    ensures r.passed <==> value != check.value
  {
    if value != check.value then Pass else Fail(ExpectedNotEqual(check.value, value))
  }

  function GreaterThan(value: Value, check: Check): (r: OpResult)
    ensures r.passed <==> ToFloat(value).Some? && ToFloat(check.value).Some?
                          && ToFloat(value).value > ToFloat(check.value).value
    ensures ToFloat(value).None? ==> r == Fail(Text("value is not a number"))
    ensures ToFloat(value).Some? && ToFloat(check.value).None? ==> r == Fail(Text("threshold is not a number"))
  {
    match ToFloat(value)
    case None => Fail(Text("value is not a number"))
    case Some(v) =>
      match ToFloat(check.value)
      case None => Fail(Text("threshold is not a number"))
      case Some(t) => if v > t then Pass else Fail(NotGreater(v, t))
  }

  function LessThan(value: Value, check: Check): (r: OpResult)
    ensures r.passed <==> ToFloat(value).Some? && ToFloat(check.value).Some?
                          && ToFloat(value).value < ToFloat(check.value).value
    ensures ToFloat(value).None? ==> r == Fail(Text("value is not a number"))
    ensures ToFloat(value).Some? && ToFloat(check.value).None? ==> r == Fail(Text("threshold is not a number"))
  {
    match ToFloat(value)
    case None => Fail(Text("value is not a number"))
    case Some(v) =>
      match ToFloat(check.value)
      case None => Fail(Text("threshold is not a number"))
      case Some(t) => if v < t then Pass else Fail(NotLess(v, t))
  }

  /** Type gates first; the engine is consulted only for a string value and a string pattern. */
  function RegexMatch(engine: RegexEngine, value: Value, check: Check): (r: OpResult)
    ensures !value.Str? ==> r == Fail(Text("value is not a string"))
    ensures value.Str? && !check.value.Str? ==> r == Fail(Text("pattern is not a string"))
    ensures value.Str? && check.value.Str? ==>
              (r.passed <==> engine(check.value.s, value.s) == Success(true))
    ensures value.Str? && check.value.Str? && engine(check.value.s, value.s).Failure? ==>
              r == Fail(Text("invalid regex: " + engine(check.value.s, value.s).error))
  {
    match value
    case Str(s) =>
      (match check.value
       case Str(pattern) =>
         (match engine(pattern, s)
          case Failure(err) => Fail(Text("invalid regex: " + err))
          case Success(matched) =>
            if matched then Pass
            else Fail(Text("value " + s + " does not match pattern " + pattern)))
       case _ => Fail(Text("pattern is not a string")))
    case _ => Fail(Text("value is not a string"))
  }

  /** The search over a `[]interface{}` enum list. */
  function ListContains(items: seq<Value>, value: Value): (r: bool)
    ensures r <==> value in items
  {
    if items == [] then false
    else items[0] == value || ListContains(items[1..], value)
  }

  /** The search over a `[]string` enum list: an element equals the value only when the value is that string. */
  function StrListContains(strs: seq<string>, value: Value): (r: bool)
    ensures r <==> value.Str? && value.s in strs
  {
    if strs == [] then false
    else Str(strs[0]) == value || StrListContains(strs[1..], value)
  }

  function EnumMatch(value: Value, check: Check): (r: OpResult)
    ensures r.passed <==> (check.value.List? && value in check.value.items)
                          || (check.value.StrList? && value.Str? && value.s in check.value.strs)
    ensures !check.value.List? && !check.value.StrList? ==> r == Fail(Text("enum list must be an array"))
    ensures (check.value.List? || check.value.StrList?) && !r.passed ==> r.reason == NotInEnum(check.value)
  {
    match check.value
    case List(items) =>
      if ListContains(items, value) then Pass else Fail(NotInEnum(check.value))
    case StrList(strs) =>
      if StrListContains(strs, value) then Pass else Fail(NotInEnum(check.value))
    case _ => Fail(Text("enum list must be an array"))
  }

  /** Calls a registered operator. */
  function Apply(o: Operator, engine: RegexEngine, value: Value, check: Check): OpResult {
    match o
    case NotNullOp => NotNull(value, check)
    case EqualOp => Equal(value, check)
    case NotEqualOp => NotEqual(value, check)
    case GreaterThanOp => GreaterThan(value, check)
    case LessThanOp => LessThan(value, check)
    case RegexOp => RegexMatch(engine, value, check)
    case EnumOp => EnumMatch(value, check)
  }

  // ---- Properties of the registry ----

  /** Each registered function is registered under exactly one name. */
  lemma GetIsInjective(a: string, b: string)
    requires Get(a).Some? && Get(a) == Get(b)
    ensures a == b
  {
  }

  /** `neq` passes exactly when `eq` fails on the same inputs, and vice versa. */
  lemma NotEqualIsComplementOfEqual(value: Value, check: Check)
    ensures NotEqual(value, check).passed == !Equal(value, check).passed
  {
  }

  /** `gt` is strict: equal magnitudes fail, whatever numeric representation carries them. */
  lemma GreaterThanIsStrict(value: Value, check: Check)
    requires ToFloat(value).Some? && ToFloat(value) == ToFloat(check.value)
    ensures !GreaterThan(value, check).passed
    ensures GreaterThan(value, check).reason == NotGreater(ToFloat(value).value, ToFloat(value).value)
  {
  }

  /** `lt` on (v, t) is `gt` on (t, v) for numeric operands, and both fail on either operand being non-numeric. */
  lemma LessThanMirrorsGreaterThan(v: Value, t: Value, opGt: string, opLt: string)
    ensures LessThan(v, Check(opLt, t)).passed == GreaterThan(t, Check(opGt, v)).passed
  {
  }

  /** Numeric boundary of `gt 0`: 0 fails, 0.0000001 passes, the string "0" fails as not a number. */
  lemma GreaterThanZeroBoundary()
    ensures !GreaterThan(Int(0), Check("gt", Int(0))).passed
    ensures GreaterThan(Float(0.0000001), Check("gt", Int(0))).passed
    ensures GreaterThan(Str("0"), Check("gt", Int(0))) == Fail(Text("value is not a number"))
  {
  }

  /** The `not_null` and `eq` rows of the registry's table test; none of its rows depends on the regex engine. */
  lemma RegistryTableEquality(engine: RegexEngine)
    ensures Apply(Get("not_null").value, engine, Str("foo"), Check("", Null)).passed
    ensures !Apply(Get("not_null").value, engine, Null, Check("", Null)).passed
    ensures Apply(Get("eq").value, engine, Str("hello"), Check("", Str("hello"))).passed
    ensures !Apply(Get("eq").value, engine, Str("hello"), Check("", Str("world"))).passed
    ensures Apply(Get("eq").value, engine, Int(10), Check("", Int(10))).passed
  {
    RegistryNames();
  }

  /** The ordering rows of the registry's table test. */
  lemma RegistryTableOrdering(engine: RegexEngine)
    ensures Apply(Get("gt").value, engine, Int(15), Check("", Int(10))).passed
    ensures !Apply(Get("gt").value, engine, Int(5), Check("", Int(10))).passed
    ensures Apply(Get("gt").value, engine, Float(10.5), Check("", Float(10.0))).passed
    ensures Apply(Get("lt").value, engine, Int(5), Check("", Int(10))).passed
    ensures !Apply(Get("lt").value, engine, Int(15), Check("", Int(10))).passed
  {
    RegistryNames();
  }

  /** The enum rows of the registry's table test. */
  lemma RegistryTableEnum(engine: RegexEngine)
    ensures Apply(Get("enum").value, engine, Str("active"), Check("", StrList(["active", "inactive"]))).passed
    ensures !Apply(Get("enum").value, engine, Str("deleted"), Check("", StrList(["active", "inactive"]))).passed
  {
    RegistryNames();
    assert Str("active") == Str(["active", "inactive"][0]);
  }

  /** The function each name of the table test is registered with. */
  lemma RegistryNames()
    ensures Get("not_null") == Some(NotNullOp) && Get("eq") == Some(EqualOp) && Get("gt") == Some(GreaterThanOp)
    ensures Get("lt") == Some(LessThanOp) && Get("enum") == Some(EnumOp)
    ensures Get("neq") == Some(NotEqualOp) && Get("regex") == Some(RegexOp)
  {
  }

  /** An `int` and an `int64` of equal magnitude are not equal under `eq`, yet equal in magnitude for `gt`. */
  lemma EqualIsRepresentationSensitive()
    ensures !Equal(Int(10), Check("eq", Int64(10))).passed
    ensures !Equal(Int(10), Check("eq", Float(10.0))).passed
    ensures !GreaterThan(Int(10), Check("gt", Float(10.0))).passed
  {
  }
}
