/** Small types and functions that several components share. */
module Basics {

  datatype Option<+T> = None | Some(value: T)

  datatype Result<+T, +E> = Ok(value: T) | Err(error: E)

  type u32 = x: int | 0 <= x < 0x1_0000_0000

  const U32_MAX: u32 := 0xFFFF_FFFF

  function SaturatingAdd(a: u32, b: u32): u32 { if a + b > U32_MAX then U32_MAX else a + b }

  /** Addition that wraps around. */
  function WrappingAdd(a: u32, b: u32): u32 { (a + b) % 0x1_0000_0000 }

  function Min(a: int, b: int): int { if a < b then a else b }

  function Max(a: int, b: int): int { if a < b then b else a }

  function SaturatingSub(a: nat, b: nat): nat { if a < b then 0 else a - b }
}
