/** An optional value: `None` stands for an absent key, an undefined node or a
    conversion that throws. */
module Wrappers {
  datatype Option<+T> = None | Some(value: T)
}

/** The C++ integer widths the descriptor uses. */
module MachineInts {
  /** `int` and `int32_t` */
  newtype int32 = x: int | -0x8000_0000 <= x < 0x8000_0000

  /** `size_t` on a 64-bit target */
  type uint64 = x: int | 0 <= x < 0x1_0000_0000_0000_0000
}
