/**
 * The fixed-point adapter. Wei values are modelled as exact rationals (`real`),
 * and the decimal-string parse of the Wei library is a parameter of type
 * `Parser`: nothing is assumed about how it reads a non-empty string.
 */
module FixedPoint {
  import opened Wrappers

  /** The library's `wei(s)` constructor on a decimal string. */
  type Parser = string -> real

  /** JavaScript falsiness of an optional string field: absent or empty. */
  predicate IsBlank(t: Option<string>) {
    t.None? || t.value == ""
  }

  /**
   * `toWei`: a blank input gives the zero value; anything else goes through
   * the parser. The zero default is the assumed behaviour of the helper.
   */
  function ToWei(wei: Parser, t: Option<string>): (r: real)
    ensures IsBlank(t) ==> r == 0.0
    ensures !IsBlank(t) ==> r == wei(t.value)
  {
    if IsBlank(t) then 0.0 else wei(t.value)
  }
}
