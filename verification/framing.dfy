/**
 * Per-role framing of datagrams: which bytes each hop of the relay writes.
 * The functions say what is written; the methods do it in a buffer, as
 * udp.go does, and are proved to produce what the functions say.
 */
module Framing {
  import opened Common
  import opened Socks

  /** The return-path roles of `timedCopy`. */
  datatype Mode = RemoteServer | RelayClient | SocksClient

  /** The datagram handed to `WriteTo`, or a Go runtime panic (slice out of range). */
  datatype Framed = Write(bytes: seq<byte>) | Panic

  /** What the drain loop of `udpRemote` does with one queued datagram. */
  datatype Forward =
    | Forwarded(target: seq<byte>, payload: seq<byte>)  // WriteTo(payload, target)
    | Unsplittable                                      // SplitAddr returned nil
    | Unresolvable                                      // ResolveUDPAddr failed

  /** The bytes `ReadFrom` leaves in a buffer of `cap` bytes: a longer datagram is cut. */
  function Truncate(data: seq<byte>, cap: nat): (r: seq<byte>)
    ensures r <= data && |r| == Min(|data|, cap)
  {
    data[..Min(|data|, cap)]
  }

  // ---------------------------------------------------------------------------
  // Return path: the role switch of timedCopy

  /** The datagram `timedCopy` writes for `payload` (= buf[:n]) read from `source`. */
  function ReturnFrame(c: Codec, role: Mode, source: string, payload: seq<byte>): (r: Framed)
    ensures r.Panic? <==> role == RemoteServer && |c.parse(source)| + |payload| > UdpBufSize
    ensures role == RemoteServer && r.Write? ==>
      |r.bytes| <= UdpBufSize && r.bytes == c.parse(source) + payload
    ensures role == RelayClient ==>
      r.Write? && |r.bytes| <= |payload| && r.bytes == payload[|payload| - |r.bytes|..]
    ensures role == SocksClient ==>
      r.Write? && |r.bytes| == 3 + |payload| && r.bytes[3..] == payload && r.bytes[..3] == [0, 0, 0]
  {
    match role
    case RemoteServer =>
      var a := c.parse(source);
      if |a| + |payload| <= UdpBufSize then Write(a + payload) else Panic
    case RelayClient => Write(payload[SplitLen(c, payload)..])
    case SocksClient => Write([0, 0, 0] + payload)
  }

  /** remoteServer tags the reply with its source address and keeps the payload intact. */
  lemma RemoteServerFraming(c: Codec, source: string, payload: seq<byte>)
    ensures var r := ReturnFrame(c, RemoteServer, source, payload);
            var a := c.parse(source);
            && (r.Write? <==> |a| + |payload| <= UdpBufSize)
            && (r.Write? ==> |r.bytes| == |a| + |payload| && r.bytes[..|a|] == a && r.bytes[|a|..] == payload)
            && (a == [] && |payload| <= UdpBufSize ==> r == Write(payload))
  {
  }

  /** relayClient drops exactly the prefix SplitAddr recognises, and nothing when it is nil. */
  lemma RelayClientFraming(c: Codec, source: string, payload: seq<byte>)
    ensures var r := ReturnFrame(c, RelayClient, source, payload);
            && r.Write?
            && (c.split(payload).Some? ==> payload == c.split(payload).value + r.bytes)
            && (c.split(payload).None? ==> r.bytes == payload)
  {
  }

  /** socksClient puts RSV = 0, FRAG = 0 in front of the payload. */
  lemma SocksClientFraming(c: Codec, source: string, payload: seq<byte>)
    ensures var r := ReturnFrame(c, SocksClient, source, payload);
            && r.Write? && |r.bytes| == 3 + |payload|
            && r.bytes[..3] == [0, 0, 0] && r.bytes[3..] == payload
  {
  }

  /** A SOCKS5 client receiving "ab" gets 00 00 00 61 62. */
  lemma SocksClientExample(c: Codec, source: string)
    ensures ReturnFrame(c, SocksClient, source, [0x61, 0x62]) == Write([0, 0, 0, 0x61, 0x62])
  {
  }

  /**
   * The two ends of the tunnel's return path agree: what udpRemote's copy loop sends
   * (remoteServer) is turned back into the bare reply by udpLocal's (relayClient).
   */
  lemma ReturnRoundTrip(c: Codec, source: string, reply: seq<byte>, sink: string)
    requires Delimits(c, c.parse(source))
    requires |c.parse(source)| + |reply| <= UdpBufSize
    ensures ReturnFrame(c, RemoteServer, source, reply).Write?
    ensures ReturnFrame(c, RelayClient, sink, ReturnFrame(c, RemoteServer, source, reply).bytes) == Write(reply)
  {
  }

  // ---------------------------------------------------------------------------
  // Outbound path

  /** The datagram udpLocal queues: the fixed target prefix, then what ReadFrom put after it. */
  function LocalDatagram(tgt: seq<byte>, data: seq<byte>): (r: seq<byte>)
    requires |tgt| <= UdpBufSize
    ensures |tgt| <= |r| <= UdpBufSize
    ensures r[..|tgt|] == tgt && r[|tgt|..] <= data
    ensures |tgt| + |data| <= UdpBufSize ==> r == tgt + data
  {
    tgt + Truncate(data, UdpBufSize - |tgt|)
  }

  /** One iteration of udpRemote's drain loop on a queued datagram `d`. */
  function RemoteForward(c: Codec, d: seq<byte>, resolveOk: bool): (r: Forward)
    ensures r.Forwarded? ==> d == r.target + r.payload && c.split(d) == Some(r.target)
    ensures c.split(d).None? <==> r.Unsplittable?
    ensures c.split(d).Some? ==> (r.Unresolvable? <==> !resolveOk)
  {
    match c.split(d)
    case None => Unsplittable
    case Some(a) => if resolveOk then Forwarded(a, d[|a|..]) else Unresolvable
  }

  /**
   * The two ends of the tunnel's outbound path agree: udpRemote's drain loop forwards
   * exactly the application's payload to exactly the target udpLocal was configured with.
   */
  lemma OutboundRoundTrip(c: Codec, tgt: seq<byte>, data: seq<byte>)
    requires Delimits(c, tgt)
    requires |tgt| + |data| <= UdpBufSize
    ensures RemoteForward(c, LocalDatagram(tgt, data), true) == Forwarded(tgt, data)
  {
  }

  /** udpSocksLocal's `buf[3:n]` as written: Go panics when n < 3. */
  function SocksPayloadAsWritten(d: seq<byte>): (r: Framed)
    ensures r.Panic? <==> |d| < 3
    ensures r.Write? ==> d == d[..3] + r.bytes
  {
    if |d| < 3 then Panic else Write(d[3..])
  }

  /** A two-byte datagram from a SOCKS5 client crashes the relay as written. */
  lemma ShortSocksDatagramPanics()
    ensures SocksPayloadAsWritten([0, 0]) == Panic
  {
  }

  /**
   * The SOCKS5 UDP request with its RSV and FRAG bytes removed, as udpSocksLocal forwards
   * it; a datagram too short to hold them is malformed and is dropped.
   */
  function SocksPayload(d: seq<byte>): (r: Option<seq<byte>>)
    ensures r.None? <==> |d| < 3
    ensures r.Some? ==> d == d[..3] + r.value && SocksPayloadAsWritten(d) == Write(r.value)
  {
    if |d| < 3 then None else Some(d[3..])
  }

  // ---------------------------------------------------------------------------
  // The same transforms done in a buffer, as udp.go does them

  /** `ReadFrom(buf)`: the datagram is copied to the front of `buf`, cut at its length. */
  method ReadInto(buf: array<byte>, data: seq<byte>) returns (n: nat)
    modifies buf
    ensures n == Min(|data|, buf.Length)
    ensures buf[..n] == Truncate(data, buf.Length)
    ensures buf[n..] == old(buf[n..])
  {
    n := Min(|data|, buf.Length);
    forall i | 0 <= i < n {
      buf[i] := data[i];
    }
  }

  /** `copy(buf[k:], buf[:n])`: an overlapping copy, done from the top down. */
  method ShiftRight(buf: array<byte>, n: nat, k: nat)
    requires k + n <= buf.Length
    modifies buf
    ensures buf[k..k + n] == old(buf[..n])
    ensures buf[..k] == old(buf[..k])
    ensures buf[k + n..] == old(buf[k + n..])
  {
    var i := n;
    while i > 0
      invariant 0 <= i <= n
      invariant forall j :: i <= j < n ==> buf[k + j] == old(buf[j])
      invariant forall j :: 0 <= j < k + i ==> buf[j] == old(buf[j])
      invariant forall j :: k + n <= j < buf.Length ==> buf[j] == old(buf[j])
    {
      i := i - 1;
      buf[k + i] := buf[i];
    }
  }

  /**
   * The remoteServer case: shift buf[:n] right by len(srcAddr), copy srcAddr in front.
   * `ok` is false when `buf[:len(srcAddr)+n]` would be out of range, where Go panics
   * (what the truncated copies left in the buffer then no longer matters).
   */
  method PrependInPlace(buf: array<byte>, n: nat, srcAddr: seq<byte>) returns (ok: bool)
    requires n <= buf.Length
    modifies buf
    ensures ok <==> |srcAddr| + n <= buf.Length
    ensures ok ==> buf[..|srcAddr| + n] == srcAddr + old(buf[..n])
  {
    var k := |srcAddr|;
    if k + n > buf.Length {
      return false;
    }
    ShiftRight(buf, n, k);
    forall i | 0 <= i < k {
      buf[i] := srcAddr[i];
    }
    assert buf[k..k + n] == old(buf[..n]);
    assert buf[..k] == srcAddr;
    assert buf[..k + n] == buf[..k] + buf[k..k + n];
    ok := true;
  }

  /** udpLocal fills one buffer: `copy(buf, tgt)`, then `ReadFrom(buf[len(tgt):])`. */
  method FillLocal(buf: array<byte>, tgt: seq<byte>, data: seq<byte>) returns (n: nat)
    requires buf.Length == UdpBufSize && |tgt| <= UdpBufSize
    modifies buf
    ensures |tgt| + n <= buf.Length
    ensures buf[..|tgt| + n] == LocalDatagram(tgt, data)
  {
    var k := |tgt|;
    forall i | 0 <= i < k {
      buf[i] := tgt[i];
    }
    n := Min(|data|, buf.Length - k);
    forall i | k <= i < k + n {
      buf[i] := data[i - k];
    }
    assert buf[..k] == tgt;
    assert buf[k..k + n] == Truncate(data, UdpBufSize - k);
    assert buf[..k + n] == buf[..k] + buf[k..k + n];
  }
}
