/** Machine integers of the simulator and the saturating arithmetic it uses on them. */
module Numbers {

  const MAX64: nat := 0xFFFF_FFFF_FFFF_FFFF
  const MAX32: nat := 0xFFFF_FFFF

  type u64 = n: nat | n <= MAX64
  type u32 = n: nat | n <= MAX32

  datatype Option<+T> = None | Some(value: T)

  function Cap(n: nat): u64 {
    if n <= MAX64 then n else MAX64
  }

  function Max(a: nat, b: nat): nat {
    if a < b then b else a
  }

  /** Rust's `max` on two 64-bit values. */
  function Later(a: u64, b: u64): u64 {
    if a < b then b else a
  }

  function SatAdd(a: u64, b: u64): u64 {
    Cap(a + b)
  }

  function SatSub(a: u64, b: u64): u64 {
    if a < b then 0 else a - b
  }

  function SatMul(a: u64, b: u64): u64 {
    Cap(a * b)
  }

  lemma SatMulMonotone(a: u64, b: u64, c: u64, d: u64)
    requires a <= c && b <= d
    ensures SatMul(a, b) <= SatMul(c, d)
  {
    assert a * b <= c * b <= c * d;
  }

  lemma SatMulAtLeast(a: u64, b: u64)
    requires 1 <= b
    ensures a <= SatMul(a, b)
  {
    assert a * 1 <= a * b;
  }
}
