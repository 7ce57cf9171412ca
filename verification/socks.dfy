/**
 * The SOCKS target-address codec (`socks.ParseAddr`, `socks.SplitAddr`) that the
 * relay consumes. Its wire format is not part of this model: the two functions are
 * parameters, constrained only by what the relay relies on.
 */
module Socks {
  import opened Common

  /**
   * `parse` is `ParseAddr` on an address's text form; the empty sequence stands for
   * nil. `split` is `SplitAddr` on a datagram: None for nil, otherwise the address
   * prefix it recognised.
   */
  datatype AddrCodec = AddrCodec(parse: string -> seq<byte>, split: seq<byte> -> Option<seq<byte>>)

  /** `SplitAddr(b)` returns nil or a prefix of `b` (it slices `b`). */
  ghost predicate SplitsPrefix(c: AddrCodec) {
    forall b :: c.split(b).Some? ==> c.split(b).value <= b
  }

  type Codec = c: AddrCodec | SplitsPrefix(c) witness AddrCodec(_ => [], _ => None)

  /**
   * The address prefix is self-describing: `a` is a non-nil encoded address, and
   * `SplitAddr` recognises exactly `a` at the head of any datagram that starts with it.
   */
  ghost predicate Delimits(c: Codec, a: seq<byte>) {
    a != [] && forall b :: a <= b ==> c.split(b) == Some(a)
  }

  /** Number of leading bytes `SplitAddr` claims; `len(nil)` is 0. */
  function SplitLen(c: Codec, b: seq<byte>): (k: nat)
    ensures k <= |b|
    ensures c.split(b).Some? ==> b == c.split(b).value + b[k..]
    ensures c.split(b).None? ==> k == 0
  {
    match c.split(b)
    case None => 0
    case Some(p) => |p|
  }
}
