/** Operands of the calculator and the host numerics it delegates to. */
module Values {
  import opened Base

  /** A floating-point number, abstracted to the quantity it denotes. */
  datatype Float = Finite(r: real) | Infinity(negative: bool) | NaN

  /** A stack operand: an exact integer or a float. */
  datatype Value = Int(i: int) | NonInt(f: Float)

  /** What an operation returns before it is pushed: an integer, a boolean
      (comparisons and logical operators) or a float. */
  datatype Raw = RawInt(i: int) | RawBool(b: bool) | RawFloat(f: Float)

  /** The host's float numerics and library calls, which the model keeps
      abstract: float parsing, float rendering, the constants `e`, `pi` and
      `rand`, and every operation the command table does not define itself. */
  datatype Library = Library(
    parseFloat: string -> Option<Float>,
    showFloat: Float -> string,
    constant: string -> Raw,
    unary: (string, Value) -> Result<Raw>,
    binary: (string, Value, Value) -> Result<Raw>)

  predicate IsWhole(r: real) {
    r.Floor as real == r
  }

  /** `f < k` as Python compares a float with an integer. */
  predicate FloatBelow(f: Float, k: int) {
    match f
    case Finite(r) => r < k as real
    case Infinity(negative) => negative
    case NaN => false
  }

  /** `f > k` as Python compares a float with an integer. */
  predicate FloatAbove(f: Float, k: int) {
    match f
    case Finite(r) => r > k as real
    case Infinity(negative) => !negative
    case NaN => false
  }

  predicate IsFiniteRaw(raw: Raw) {
    !raw.RawFloat? || raw.f.Finite?
  }

  predicate IsFiniteValue(v: Value) {
    v.Int? || v.f.Finite?
  }

  /** The number a finite raw result stands for; booleans count as 0 and 1. */
  function RawNumber(raw: Raw): real
    requires IsFiniteRaw(raw)
  {
    match raw
    case RawInt(i) => i as real
    case RawBool(b) => if b then 1.0 else 0.0
    case RawFloat(f) => f.r
  }

  function ValueNumber(v: Value): real
    requires IsFiniteValue(v)
  {
    match v
    case Int(i) => i as real
    case NonInt(f) => f.r
  }

  /** A value normalisation can produce: whole numbers are always integers. */
  predicate IsNormal(v: Value) {
    v.Int? || (v.f.Finite? && !IsWhole(v.f.r))
  }

  /** An operand viewed as an operation result. */
  function AsRaw(v: Value): Raw {
    match v
    case Int(i) => RawInt(i)
    case NonInt(f) => RawFloat(f)
  }

  /** The normalisation applied to every operation result before it is
      pushed: a result whose floor equals itself becomes an integer.
      Taking the floor of an infinity or of NaN fails. */
  function Normalize(raw: Raw): (r: Result<Value>)
    ensures r.Err? <==> !IsFiniteRaw(raw)
    ensures r.Err? ==> r.error == NotPossible
    ensures r.Ok? ==> IsNormal(r.value) && ValueNumber(r.value) == RawNumber(raw)
  {
    match raw
    case RawInt(i) => Ok(Int(i))
    case RawBool(b) => Ok(Int(if b then 1 else 0))
    case RawFloat(f) =>
      match f
      case Finite(x) => if IsWhole(x) then Ok(Int(x.Floor)) else Ok(NonInt(f))
      case Infinity(_) => Err(NotPossible)
      case NaN => Err(NotPossible)
  }

  /** Normalisation changes nothing that is already normal. */
  lemma NormalizeFixesNormal(v: Value)
    requires IsNormal(v)
    ensures Normalize(AsRaw(v)) == Ok(v)
  {
  }

  /** Normalisation is idempotent. */
  lemma NormalizeIdempotent(raw: Raw)
    requires Normalize(raw).Ok?
    ensures Normalize(AsRaw(Normalize(raw).value)) == Normalize(raw)
  {
    NormalizeFixesNormal(Normalize(raw).value);
  }
}
