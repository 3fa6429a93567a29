/** The `Decimal` coercion that both dataclasses run on their money fields after construction. */
module Decimals {
  import opened Common

  /** A Python value handed to a `Decimal`-typed dataclass field. A float is carried as the
      value of its shortest decimal rendering, since `Decimal(str(f))` reads that rendering and
      not the binary value of `f`. */
  datatype PyValue =
    | DecimalValue(d: real)
    | FloatValue(f: real)
    | IntValue(i: int)
    | StrValue(s: string)

  /** `x if isinstance(x, Decimal) else Decimal(str(x))`. `parse` is Decimal's string
      grammar; `None` stands for the `InvalidOperation` it raises on a malformed string. */
  function ToDecimal(x: PyValue, parse: string -> Option<real>): Option<real>
  {
    match x
    case DecimalValue(d) => Some(d)
    case FloatValue(f) => Some(f)
    case IntValue(i) => Some(i as real)
    case StrValue(s) => parse(s)
  }
}
