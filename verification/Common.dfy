/** Shared vocabulary: optional values, machine-word bounds and reactor time. */
module Common {

  datatype Option<+T> = None | Some(value: T)

  /** `u64::MAX`; `usize` is sixty-four bits wide throughout the model. */
  const U64_MAX: nat := 0xFFFF_FFFF_FFFF_FFFF
  const USIZE_MAX: nat := U64_MAX
  const U32_MAX: nat := 0xFFFF_FFFF
  const I32_MAX: nat := 0x7FFF_FFFF

  /** Nanoseconds on the reactor clock. */
  type Moment = nat

  /** `checked_add` on a sixty-four-bit unsigned word. */
  function CheckedAdd(a: nat, b: nat): Option<nat> {
    if a + b <= U64_MAX then Some(a + b) else None
  }
}
