/** Machine integer ranges, the program's error codes and the Option/Result wrappers. */
module Types {

  const U8_MAX: int := 0xFF
  const U32_MAX: int := 0xFFFF_FFFF
  const U64_MAX: int := 0xFFFF_FFFF_FFFF_FFFF
  const I64_MIN: int := -0x8000_0000_0000_0000
  const I64_MAX: int := 0x7FFF_FFFF_FFFF_FFFF

  type U8 = x: int | 0 <= x <= U8_MAX
  type U32 = x: int | 0 <= x <= U32_MAX
  type U64 = x: int | 0 <= x <= U64_MAX
  type I64 = x: int | I64_MIN <= x <= I64_MAX

  datatype Option<+T> = None | Some(value: T)

  /** The strategy program's custom error codes. */
  datatype StrategyError =
    | InvalidStrategyParams
    | EdgeMustBeNonZero
    | InvalidPhoenixProgram
    | FailedToDeserializePhoenixMarket

  /** The outcome of an instruction or of a fallible step inside one. */
  datatype Result<+T> = Ok(value: T) | Err(error: StrategyError)
}
