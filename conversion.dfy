/** The conversion service `convert(kind, value, **context)`. Its bodies are not
    part of this model: a converter is any function from a kind, a raw value
    and keyword context to a normalised value or a raised error. */
module Conversion {
  import opened Python

  /** The kinds of domain value the managers ask to have normalised. */
  datatype Kind =
    | Vendor
    | Country
    | Exchange
    | Curncy
    | SecurityType
    | BondDate
    | Collateral
    | BondClass

  type Converter = (Kind, Value, Kwargs) -> Result<Value>

  /** `convert(kind, value)` with no keyword context. */
  function Convert(conv: Converter, kind: Kind, v: Value): Result<Value> {
    conv(kind, v, map[])
  }
}
