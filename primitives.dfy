/** Value types of the .NET runtime that the customer service relies on. */
module Primitives {

  /** `Some(v)` is a present value, `None` stands for C#'s `null`. */
  datatype Option<+T> = None | Some(value: T)

  /** A reference-typed `string`, which may be `null`. */
  type NString = Option<string>

  /** C#'s `int` (System.Int32). */
  newtype int32 = x: int | -0x8000_0000 <= x < 0x8000_0000

  const Int32Max: int32 := 0x7fff_ffff
}
