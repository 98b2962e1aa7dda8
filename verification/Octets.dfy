/** Octets, as the typed arrays of the wire formats hold them, and powers of two. */
module Octets {
  type byte = x: int | 0 <= x < 256

  function TwoTo(k: nat): (r: nat)
    ensures r > 0
  {
    if k == 0 then 1 else 2 * TwoTo(k - 1)
  }
}
