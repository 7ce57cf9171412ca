/** Types and small helpers shared by every part of the UDP relay model. */
module Common {

  /** One octet of a datagram. */
  type byte = bv8

  /** Size of every datagram buffer the relay allocates (64 KiB). */
  const UdpBufSize: nat := 64 * 1024

  /** Go's nil for pointers, slices and interfaces. */
  datatype Option<+T> = None | Some(value: T)

  function Min(a: nat, b: nat): (r: nat)
    ensures r <= a && r <= b && (r == a || r == b)
  {
    if a <= b then a else b
  }

  /** No element occurs twice. */
  ghost predicate NoDup<T>(s: seq<T>) {
    forall i, j :: 0 <= i < j < |s| ==> s[i] != s[j]
  }
}
