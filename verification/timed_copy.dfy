/**
 * `timedCopy`: the return-path loop of a session. It reads from the forwarding
 * socket into one 64 KiB buffer, frames each datagram for its role and writes it,
 * until a read fails (an error or the idle deadline) or a write fails.
 */
module TimedCopy {
  import opened Common
  import opened Socks
  import opened Framing

  /** One `ReadFrom` on the source socket and whether the `WriteTo` after it succeeds. */
  datatype Incoming =
    | Datagram(source: string, data: seq<byte>, writeOk: bool)
    | ReadFailed  // any read error, the expired idle deadline included

  /** Why the loop stopped; `Exhausted` means the given reads ran out while it still waits. */
  datatype Exit = ReadError | WriteError | Panicked | Exhausted

  /** The datagrams handed to `WriteTo`, in order, and how the loop ended. */
  datatype Copy = Copy(sent: seq<seq<byte>>, exit: Exit)

  function Prefixed(sent: seq<seq<byte>>, rest: Copy): Copy {
    Copy(sent + rest.sent, rest.exit)
  }

  lemma PrefixedTwice(sent: seq<seq<byte>>, out: seq<seq<byte>>, rest: Copy)
    ensures Prefixed(sent, Prefixed(out, rest)) == Prefixed(sent + out, rest)
  {
    assert sent + (out + rest.sent) == (sent + out) + rest.sent;
  }

  /** The framed datagram for one read, cut to the buffer as `ReadFrom` cuts it. */
  function FrameOf(c: Codec, role: Mode, e: Incoming): Framed
    requires e.Datagram?
  {
    ReturnFrame(c, role, e.source, Truncate(e.data, UdpBufSize))
  }

  /** After this read the loop goes round again. */
  predicate Continues(c: Codec, role: Mode, e: Incoming) {
    e.Datagram? && e.writeOk && FrameOf(c, role, e).Write?
  }

  /** What the loop does with the reads `events[i..]`. */
  function CopyFrom(c: Codec, role: Mode, events: seq<Incoming>, i: nat): (r: Copy)
    requires i <= |events|
    ensures |r.sent| <= |events| - i
    ensures r.exit == Exhausted ==> |r.sent| == |events| - i
    decreases |events| - i
  {
    if i == |events| then Copy([], Exhausted)
    else match events[i]
      case ReadFailed => Copy([], ReadError)
      case Datagram(_, _, writeOk) =>
        match FrameOf(c, role, events[i])
        case Panic => Copy([], Panicked)
        case Write(out) =>
          if writeOk then Prefixed([out], CopyFrom(c, role, events, i + 1))
          else Copy([out], WriteError)
  }

  /** What the loop does with the reads `events`. */
  function CopySpec(c: Codec, role: Mode, events: seq<Incoming>): (r: Copy)
    ensures |r.sent| <= |events|
    ensures r.exit == Exhausted ==> |r.sent| == |events|
    ensures events == [] ==> r == Copy([], Exhausted)
    ensures events != [] && events[0].ReadFailed? ==> r == Copy([], ReadError)
  {
    CopyFrom(c, role, events, 0)
  }

  /** After a read that lets the loop go round, the rest of the run follows its write. */
  lemma CopyContinues(c: Codec, role: Mode, events: seq<Incoming>, i: nat)
    requires i < |events| && Continues(c, role, events[i])
    ensures CopyFrom(c, role, events, i)
         == Prefixed([FrameOf(c, role, events[i]).bytes], CopyFrom(c, role, events, i + 1))
  {
  }

  /** A read after which the loop stops ends the run there. */
  lemma CopyStopsAt(c: Codec, role: Mode, events: seq<Incoming>, i: nat)
    requires i < |events| && !Continues(c, role, events[i])
    ensures events[i].ReadFailed? ==> CopyFrom(c, role, events, i) == Copy([], ReadError)
    ensures events[i].Datagram? && FrameOf(c, role, events[i]).Panic? ==> CopyFrom(c, role, events, i) == Copy([], Panicked)
    ensures events[i].Datagram? && FrameOf(c, role, events[i]).Write? ==>
      CopyFrom(c, role, events, i) == Copy([FrameOf(c, role, events[i]).bytes], WriteError)
  {
  }

  /** The loop writes one framed datagram per read, in order. */
  lemma {:induction false} CopyFromWrites(c: Codec, role: Mode, events: seq<Incoming>, i: nat)
    requires i <= |events|
    ensures var r := CopyFrom(c, role, events, i);
      && i + |r.sent| <= |events|
      && (forall j :: i <= j < i + |r.sent| ==> events[j].Datagram? && FrameOf(c, role, events[j]) == Write(r.sent[j - i]))
      && (forall j :: i <= j < i + |r.sent| - 1 ==> Continues(c, role, events[j]))
    decreases |events| - i
  {
    if i < |events| && Continues(c, role, events[i]) {
      CopyContinues(c, role, events, i);
      CopyFromWrites(c, role, events, i + 1);
    }
  }

  /**
   * The loop stops at the first read error, write error or panic and nowhere else;
   * when it stops on a failed read or a panic, every read before went round.
   */
  lemma {:induction false} CopyFromStops(c: Codec, role: Mode, events: seq<Incoming>, i: nat)
    requires i <= |events|
    ensures var r := CopyFrom(c, role, events, i);
      var k := i + |r.sent|;
      && (r.exit == Exhausted ==> k == |events| && forall j :: i <= j < |events| ==> Continues(c, role, events[j]))
      && (r.exit == ReadError ==> k < |events| && events[k].ReadFailed?)
      && (r.exit == Panicked ==> k < |events| && events[k].Datagram? && FrameOf(c, role, events[k]).Panic?)
      && (r.exit == WriteError ==> i < k <= |events| && events[k - 1].Datagram? && !events[k - 1].writeOk)
      && (r.exit == ReadError || r.exit == Panicked ==> forall j :: i <= j < k ==> Continues(c, role, events[j]))
    decreases |events| - i
  {
    if i < |events| && Continues(c, role, events[i]) {
      CopyContinues(c, role, events, i);
      CopyFromStops(c, role, events, i + 1);
    }
  }

  /** The framed datagrams of reads that all go round. */
  function Frames(c: Codec, role: Mode, events: seq<Incoming>): (r: seq<seq<byte>>)
    requires forall j :: 0 <= j < |events| ==> Continues(c, role, events[j])
    ensures |r| == |events|
    ensures forall j :: 0 <= j < |events| ==> Continues(c, role, events[j]) && Write(r[j]) == FrameOf(c, role, events[j])
  {
    seq(|events|, j requires 0 <= j < |events| =>
      assert Continues(c, role, events[j]); FrameOf(c, role, events[j]).bytes)
  }

  /** When every read goes round, the loop writes all their frames and keeps waiting. */
  lemma {:induction false} CopyAllContinue(c: Codec, role: Mode, events: seq<Incoming>, i: nat)
    requires i <= |events|
    requires forall j :: 0 <= j < |events| ==> Continues(c, role, events[j])
    ensures CopyFrom(c, role, events, i) == Copy(Frames(c, role, events)[i..], Exhausted)
    decreases |events| - i
  {
    if i < |events| {
      CopyContinues(c, role, events, i);
      CopyAllContinue(c, role, events, i + 1);
      var fs := Frames(c, role, events);
      assert fs[i..] == [fs[i]] + fs[i + 1..];
    }
  }

  /** One read into `buf` and the role's framing of it, done in the buffer. */
  method ReadAndFrame(c: Codec, role: Mode, buf: array<byte>, e: Incoming) returns (f: Framed)
    requires e.Datagram? && buf.Length == UdpBufSize
    modifies buf
    ensures f == FrameOf(c, role, e)
  {
    var n := ReadInto(buf, e.data);
    match role {
      case RemoteServer =>
        var srcAddr := c.parse(e.source);
        var ok := PrependInPlace(buf, n, srcAddr);
        f := if ok then Write(buf[..|srcAddr| + n]) else Panic;
      case RelayClient =>
        var k := SplitLen(c, buf[..n]);
        assert buf[k..n] == buf[..n][k..];
        f := Write(buf[k..n]);
      case SocksClient =>
        f := Write([0, 0, 0] + buf[..n]);
    }
  }

  /**
   * One round of the loop: read `events[i]`, frame it, write it. `out` is what it
   * writes and `stop` whether the loop ends here; `exit` says why only when `stop`
   * holds, and is `Exhausted` otherwise.
   */
  method CopyOne(c: Codec, role: Mode, buf: array<byte>, events: seq<Incoming>, i: nat)
      returns (out: seq<seq<byte>>, stop: bool, exit: Exit)
    requires i < |events| && buf.Length == UdpBufSize
    modifies buf
    ensures stop ==> CopyFrom(c, role, events, i) == Copy(out, exit)
    ensures !stop ==> CopyFrom(c, role, events, i) == Prefixed(out, CopyFrom(c, role, events, i + 1))
  {
    var ev := events[i];
    if ev.ReadFailed? {
      CopyStopsAt(c, role, events, i);
      return [], true, ReadError;
    }
    var f := ReadAndFrame(c, role, buf, ev);
    if f.Panic? {
      CopyStopsAt(c, role, events, i);
      return [], true, Panicked;
    }
    if !ev.writeOk {
      CopyStopsAt(c, role, events, i);
      return [f.bytes], true, WriteError;
    }
    CopyContinues(c, role, events, i);
    return [f.bytes], false, Exhausted;
  }

  /** `timedCopy` on the reads `events`, with the framing done in its own buffer. */
  method TimedCopy(c: Codec, role: Mode, events: seq<Incoming>) returns (sent: seq<seq<byte>>, exit: Exit)
    ensures Copy(sent, exit) == CopySpec(c, role, events)
  {
    var buf := new byte[UdpBufSize];
    sent := [];
    var i := 0;
    while i < |events|
      invariant 0 <= i <= |events|
      invariant buf.Length == UdpBufSize
      invariant CopySpec(c, role, events) == Prefixed(sent, CopyFrom(c, role, events, i))
    {
      var out, stop, e := CopyOne(c, role, buf, events, i);
      if stop {
        return sent + out, e;
      }
      PrefixedTwice(sent, out, CopyFrom(c, role, events, i + 1));
      sent := sent + out;
      i := i + 1;
    }
    PrefixedTwice(sent, [], Copy([], Exhausted));
    return sent, Exhausted;
  }

  // ---------------------------------------------------------------------------
  // The return path through the tunnel, end to end

  /** The reads at the client end when every datagram in `sent` arrives intact from `server`. */
  function Arrivals(sent: seq<seq<byte>>, server: string): (r: seq<Incoming>)
    ensures |r| == |sent|
    ensures forall j :: 0 <= j < |sent| ==> r[j] == Datagram(server, sent[j], true)
  {
    seq(|sent|, j requires 0 <= j < |sent| => Datagram(server, sent[j], true))
  }

  /** The payloads of a run of datagrams. */
  function Payloads(events: seq<Incoming>): (r: seq<seq<byte>>)
    requires forall j :: 0 <= j < |events| ==> events[j].Datagram?
    ensures |r| == |events|
    ensures forall j :: 0 <= j < |events| ==> r[j] == events[j].data
  {
    seq(|events|, j requires 0 <= j < |events| => events[j].data)
  }

  /** One reply: tagged at the server end, untagged at the client end. */
  lemma ReturnPathOne(c: Codec, e: Incoming, server: string)
    requires e.Datagram? && e.writeOk
    requires Delimits(c, c.parse(e.source)) && |c.parse(e.source)| + |e.data| <= UdpBufSize
    ensures Continues(c, RemoteServer, e)
    ensures var tagged := FrameOf(c, RemoteServer, e).bytes;
      && Continues(c, RelayClient, Datagram(server, tagged, true))
      && FrameOf(c, RelayClient, Datagram(server, tagged, true)) == Write(e.data)
  {
  }

  /**
   * Replies from targets that fit the buffer with their address and whose address the
   * codec delimits, tagged by udpRemote's copy loop (remoteServer) and untagged by
   * udpLocal's (relayClient), reach the application as they left the targets, in order.
   */
  lemma ReturnPathDeliversReplies(c: Codec, events: seq<Incoming>, server: string)
    requires forall j :: 0 <= j < |events| ==> events[j].Datagram? && events[j].writeOk
    requires forall j :: 0 <= j < |events| ==>
      Delimits(c, c.parse(events[j].source)) && |c.parse(events[j].source)| + |events[j].data| <= UdpBufSize
    ensures var remote := CopySpec(c, RemoteServer, events);
      && remote.exit == Exhausted
      && CopySpec(c, RelayClient, Arrivals(remote.sent, server)) == Copy(Payloads(events), Exhausted)
  {
    forall j | 0 <= j < |events|
      ensures Continues(c, RemoteServer, events[j])
    {
      ReturnPathOne(c, events[j], server);
    }
    var tagged := Frames(c, RemoteServer, events);
    CopyAllContinue(c, RemoteServer, events, 0);
    assert tagged[0..] == tagged;
    var arrivals := Arrivals(tagged, server);
    forall j | 0 <= j < |arrivals|
      ensures Continues(c, RelayClient, arrivals[j])
      ensures FrameOf(c, RelayClient, arrivals[j]) == Write(events[j].data)
    {
      ReturnPathOne(c, events[j], server);
    }
    CopyAllContinue(c, RelayClient, arrivals, 0);
    var untagged := Frames(c, RelayClient, arrivals);
    assert untagged[0..] == untagged;
    assert untagged == Payloads(events);
  }
}
