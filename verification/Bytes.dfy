/** The unit of every file, buffer and arena in the project. */
module Bytes {
  type Byte = b: int | 0 <= b < 256

  /** Direct I/O works in whole pages. */
  const ALIGN := 4096

  /** Bytes, or sums that have yet to begin. */
  function Zeros(n: nat): (z: seq<Byte>)
    ensures |z| == n && forall i :: 0 <= i < n ==> z[i] == 0
  {
    seq(n, _ => 0)
  }
}
