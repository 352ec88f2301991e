/** The fixed-width Rust integer types the model needs. Values outside a type's
    range are not representable, so an operation that would leave the range (a
    Rust panic in debug builds) has to be excluded by a precondition. */
module Primitives {
  /** Rust `i16`: the payload of `TokenKind::Integer`. */
  newtype i16 = x: int | -0x8000 <= x < 0x8000

  const I64_MIN: int := -0x8000_0000_0000_0000
  const I64_MAX: int := 0x7FFF_FFFF_FFFF_FFFF

  /** Rust `i64`: the payload of `LiteralValue::Integer` and `Object::Integer`. */
  newtype i64 = x: int | I64_MIN <= x <= I64_MAX
}
