/** Small shared vocabulary: options, results and the fixed-width bounds of the source. */
module Primitives {

  datatype Option<+T> = None | Some(value: T)

  datatype Result<+R, +E> = Success(value: R) | Failure(error: E)

  /** The source runs on 64-bit targets: `usize` and `u64` share this bound. */
  const U64_MAX := 0xFFFF_FFFF_FFFF_FFFF
  const U32_MODULUS := 0x1_0000_0000

  type Byte = b: int | 0 <= b < 256
  type U32 = k: int | 0 <= k < U32_MODULUS
  type U64 = k: int | 0 <= k <= U64_MAX

  /** Fixed-width addition that reports overflow. */
  function CheckedAdd(a: nat, b: nat): (r: Option<nat>)
    ensures r.Some? ==> r.value <= U64_MAX
  {
    if a + b <= U64_MAX then Some(a + b) else None
  }

  /** Unsigned subtraction that reports underflow. */
  function CheckedSub(a: nat, b: nat): (r: Option<nat>)
    ensures r.None? <==> a < b
  {
    if b <= a then Some(a - b) else None
  }

  /** The sequence without the element at position `i`. */
  function RemoveAt<T>(s: seq<T>, i: nat): (r: seq<T>)
    requires i < |s|
    ensures |r| == |s| - 1
    ensures forall j :: 0 <= j < i ==> r[j] == s[j]
    ensures forall j :: i <= j < |r| ==> r[j] == s[j + 1]
  {
    s[..i] + s[i + 1..]
  }
}
