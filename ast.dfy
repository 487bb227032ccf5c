/**
 * The instruction tree the interpreter walks, as the parser and optimizer of
 * the `bfc_ir` crate hand it over, together with the fixed-width integer types
 * its fields carry. Machine integers are bounded subsets of `int`; every place
 * where the interpreter could leave their range is checked explicitly in the
 * semantics.
 */
module Ast {

  const I8_MIN: int := -0x80
  const I8_MAX: int := 0x7F
  const ISIZE_MIN: int := -0x8000_0000_0000_0000
  const ISIZE_MAX: int := 0x7FFF_FFFF_FFFF_FFFF
  const U64_MAX: int := 0xFFFF_FFFF_FFFF_FFFF

  /** Rust's `u8`, the payload of a tape cell (`Wrapping<u8>`). */
  newtype U8 = x: int | 0 <= x < 0x100

  /** Rust's `i8` (the payload of `Wrapping<i8>`). */
  newtype I8 = x: int | -0x80 <= x < 0x80

  /** Rust's `isize` on a 64-bit target. */
  newtype ISize = x: int | -0x8000_0000_0000_0000 <= x < 0x8000_0000_0000_0000

  /** Rust's `u64`. */
  newtype U64 = x: int | 0 <= x < 0x1_0000_0000_0000_0000

  /** One instruction of an already parsed (and possibly optimized) program. */
  datatype AstNode =
    | Increment(amount: I8, offset: ISize)      // add `amount` to the cell at cursor + offset
    | PointerIncrement(distance: ISize)         // move the cursor (the source names this field `amount`)
    | Read                                      // take one input byte into the current cell
    | Write                                     // send the current cell to the output
    | Loop(body: seq<AstNode>)                  // repeat `body` while the current cell is nonzero
    | Set(amount: I8, offset: ISize)            // store `amount` in the cell at cursor + offset
    | MultiplyMove(changes: seq<(ISize, I8)>)   // add current * factor at each offset, then clear
}
