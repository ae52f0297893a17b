/** Option and Result, the two failure-carrying shapes the Rust code returns. */
module Wrappers {

  datatype Option<T> = None | Some(value: T)

  datatype Result<T, E> = Ok(value: T) | Err(error: E)

  /** Nanoseconds in the largest `i64`, where the serializers saturate. */
  const I64_MAX: int := 0x7fff_ffff_ffff_ffff

  /** `u128 -> i64` saturating conversion (`try_into().unwrap_or(i64::MAX)`, `.min(i64::MAX)`). */
  function SaturateI64(n: nat): (r: nat)
    ensures r <= I64_MAX
    ensures r == n <==> n <= I64_MAX
    ensures n > I64_MAX ==> r == I64_MAX
  {
    if n <= I64_MAX then n else I64_MAX
  }
}
