/**
 * The part of Python's data model that the agents, the orchestrator and the
 * web handler touch: the values `json.loads` produces, the exceptions the code
 * can raise, and the few operators applied to those values (`dict.get`,
 * truthiness, `x * 100`, `f"{x * 100:.1f}"` and `x >= bound`).
 */
module Python {
  import opened Wrappers

  /** A value produced by `json.loads`. Floats are their exact decimal value. */
  datatype Value =
    | Null
    | Bool(b: bool)
    | Int(i: int)
    | Float(r: real)
    | Str(s: string)
    | List(items: seq<Value>)
    | Dict(fields: map<string, Value>)

  /** A JSON object as Python sees it: a dict with string keys. */
  type Object = map<string, Value>

  /** The Python exception classes the modelled code can raise. */
  datatype ErrorKind =
    | APIError         // anything the OpenAI client raises (network, auth, quota)
    | JSONDecodeError
    | TypeError
    | AttributeError
    | ValueError
    | OverflowError

  /** An exception; `message` is what `str(e)` gives. */
  datatype Error = Error(kind: ErrorKind, message: string)

  /** `type(v).__name__` */
  function TypeName(v: Value): string {
    match v
    case Null => "NoneType"
    case Bool(_) => "bool"
    case Int(_) => "int"
    case Float(_) => "float"
    case Str(_) => "str"
    case List(_) => "list"
    case Dict(_) => "dict"
  }

  /** `d.get(key, default)` */
  function Get(d: Object, key: string, default: Value): Value {
    if key in d then d[key] else default
  }

  /** Python truthiness: `bool(v)`. */
  predicate Truthy(v: Value) {
    match v
    case Null => false
    case Bool(b) => b
    case Int(i) => i != 0
    case Float(r) => r != 0.0
    case Str(s) => s != ""
    case List(items) => items != []
    case Dict(fields) => fields != map[]
  }

  /** The values that take part in arithmetic and ordered comparison with a float. */
  predicate IsNumber(v: Value) {
    v.Bool? || v.Int? || v.Float?
  }

  /** The numeric value of a number (`True` counts as 1). */
  function NumberValue(v: Value): real
    requires IsNumber(v)
  {
    match v
    case Bool(b) => if b then 1.0 else 0.0
    case Int(i) => i as real
    case Float(r) => r
  }

  /**
   * The error raised by evaluating `v * 100`, if any. Strings and lists are
   * repeated, numbers are multiplied; None and dicts raise.
   */
  function TimesHundredError(v: Value): Option<Error> {
    if v.Null? || v.Dict? then
      Some(Error(TypeError, "unsupported operand type(s) for *: '" + TypeName(v) + "' and 'int'"))
    else
      None
  }

  /**
   * 2^1024 - 2^970: the least magnitude that `float()` rounds to infinity, so
   * converting an int at least this large raises OverflowError.
   */
  const FloatOverflowBound: int := 0xFFFFFFFFFFFFFC00000000000000000000000000000000000000000000000000000000000000000000000000000000000000000000000000000000000000000000000000000000000000000000000000000000000000000000000000000000000000000000000000000000000000000000000000000000000000000000000000

  predicate TooLargeForFloat(n: int) {
    n >= FloatOverflowBound || n <= -FloatOverflowBound
  }

  /**
   * The error raised by evaluating `f"{v * 100:.1f}"`, if any: the product
   * must exist and accept the fixed-point format code, and an int product is
   * converted to a float first.
   */
  function PercentFormatError(v: Value): Option<Error> {
    match v
    case Null => TimesHundredError(v)
    case Dict(_) => TimesHundredError(v)
    case Str(_) => Some(Error(ValueError, "Unknown format code 'f' for object of type 'str'"))
    case List(_) => Some(Error(TypeError, "unsupported format string passed to list.__format__"))
    case Int(i) =>
      if TooLargeForFloat(i * 100) then Some(Error(OverflowError, "int too large to convert to float")) else None
    case _ => None
  }

  /** `v >= bound` for a float literal `bound`: only numbers can be ordered against it. */
  function AtLeast(v: Value, bound: real): (r: Result<bool, Error>)
    ensures r.Success? <==> IsNumber(v)
    ensures r.Success? ==> (r.value <==> NumberValue(v) >= bound)
    ensures r.Failure? ==> r.error.kind == TypeError
  {
    if IsNumber(v) then
      Success(NumberValue(v) >= bound)
    else
      Failure(Error(TypeError, "'>=' not supported between instances of '" + TypeName(v) + "' and 'float'"))
  }

  /**
   * Formatting a percentage succeeds exactly on numbers whose product with 100
   * a float can hold, and then multiplying by 100 succeeds as well.
   */
  lemma PercentFormatOnlyOnNumbers(v: Value)
    ensures PercentFormatError(v).None? <==> IsNumber(v) && !(v.Int? && TooLargeForFloat(v.i * 100))
    ensures PercentFormatError(v).None? ==> TimesHundredError(v).None?
    ensures v.Int? && TooLargeForFloat(v.i * 100) ==> PercentFormatError(v).value.kind == OverflowError
  {
  }

  /** A JSON int of 307 digits is a number, yet its percentage cannot be formatted. */
  lemma LargeIntPercentOverflows()
    ensures IsNumber(Int(FloatOverflowBound / 100 + 1))
    ensures PercentFormatError(Int(FloatOverflowBound / 100 + 1)).value.kind == OverflowError
  {
  }
}
