/** Primitive types shared by the sokol-app side and the egui side of the bridge. */
module Common {

  datatype Option<+T> = None | Some(value: T)

  /** Rust's fixed-width integers, as their value ranges. */
  newtype U32 = x: int | 0 <= x < 0x1_0000_0000
  newtype U64 = x: int | 0 <= x < 0x1_0000_0000_0000_0000
  newtype I32 = x: int | -0x8000_0000 <= x < 0x8000_0000

  /** The families of keys that sokol-app and egui both number in a row:
      the digit keys 0-9, the letter keys A-Z and the function keys F1-F25
      (egui's own function keys stop at F20). */
  type Digit = d: nat | d <= 9
  type Letter = c: char | 'A' <= c <= 'Z' witness 'A'
  type FunctionNumber = n: nat | 1 <= n <= 25 witness 1

  /** An `f32`, kept as its IEEE-754 bit pattern. The bridge never computes on
      floats (positions, scroll deltas, dpi, frame time, force): it only carries
      them from one side to the other, so no arithmetic is modelled. */
  datatype F32 = F32(bits: bv32)

  /** `0.0_f32` */
  const Zero: F32 := F32(0)
}
