/** Signed 64-bit integers. */
module MachineInts {

  /** The number of 64-bit words. */
  const WORD: nat := 0x1_0000_0000_0000_0000

  predicate IsInt64(x: int) {
    -0x8000_0000_0000_0000 <= x < 0x8000_0000_0000_0000
  }

  /** The low 64 bits of `x`, read as a signed number: what Go's `int64` arithmetic and
      `big.Int.Int64` leave of a value that may not fit. */
  function Int64(x: int): int {
    var y := x % WORD;
    if y < 0x8000_0000_0000_0000 then y else y - WORD
  }

  function Abs(x: int): nat {
    if x < 0 then -x else x
  }
}
