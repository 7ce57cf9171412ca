/**
 * The listener and drain loops of `udpLocal` (application side) and `udpRemote`
 * (target side), one iteration at a time, over the shared session table.
 */
module Relays {
  import opened Common
  import opened Socks
  import opened Framing
  import opened Sessions

  /**
   * One iteration of udpLocal's listener: fill a buffer with the target prefix and the
   * datagram read after it, then look up or create the peer's session and offer it.
   */
  method LocalListen(table: SessionTable, tgt: seq<byte>, key: string, data: seq<byte>, socketOk: bool)
    returns (e: Event)
    requires Valid(table.State()) && |tgt| <= UdpBufSize
    modifies table
    ensures Valid(table.State())
    ensures Stepped(table.State(), e) == ReceiveStep(old(table.State()), key, LocalDatagram(tgt, data), socketOk)
  {
    var buf := new byte[UdpBufSize];
    var n := FillLocal(buf, tgt, data);
    e := table.Receive(key, buf[..|tgt| + n], socketOk);
  }

  /** One receive of udpLocal's drain loop; what it takes goes to the server unchanged. */
  method LocalDrain(table: SessionTable, id: nat) returns (e: Event, toServer: Option<seq<byte>>)
    requires Valid(table.State())
    modifies table
    ensures Valid(table.State())
    ensures Stepped(table.State(), e) == DrainStep(old(table.State()), id)
    ensures toServer.Some? <==> e.Delivered?
    ensures e.Delivered? ==> toServer.value == e.dgram
  {
    e := table.Drain(id);
    toServer := if e.Delivered? then Some(e.dgram) else None;
  }

  /** One iteration of udpRemote's listener: read the (decrypted) datagram and offer it. */
  method RemoteListen(table: SessionTable, key: string, data: seq<byte>, socketOk: bool) returns (e: Event)
    requires Valid(table.State())
    modifies table
    ensures Valid(table.State())
    ensures Stepped(table.State(), e) == ReceiveStep(old(table.State()), key, Truncate(data, UdpBufSize), socketOk)
  {
    var buf := new byte[UdpBufSize];
    var n := ReadInto(buf, data);
    e := table.Receive(key, buf[..n], socketOk);
  }

  /**
   * One receive of udpRemote's drain loop: split off the target address and forward the
   * rest, or drop a datagram it cannot split or resolve; the loop carries on either way.
   */
  method RemoteDrain(table: SessionTable, c: Codec, id: nat, resolveOk: bool)
    returns (e: Event, fwd: Option<Forward>)
    requires Valid(table.State())
    modifies table
    ensures Valid(table.State())
    ensures Stepped(table.State(), e) == DrainStep(old(table.State()), id)
    ensures fwd.Some? <==> e.Delivered?
    ensures e.Delivered? ==> fwd.value == RemoteForward(c, e.dgram, resolveOk)
  {
    e := table.Drain(id);
    fwd := if e.Delivered? then Some(RemoteForward(c, e.dgram, resolveOk)) else None;
  }

  /** What a receive enqueues, the next drain of that channel delivers. */
  lemma EnqueuedIsDelivered(t: Table, key: string, d: seq<byte>, socketOk: bool)
    requires Valid(t)
    ensures var r := ReceiveStep(t, key, d, socketOk);
      r.event.Enqueued? ==> DrainStep(r.table, r.event.ch).event == Delivered(r.event.ch, d)
  {
  }

  /**
   * The outbound path end to end: a datagram the application sends to udpLocal, once
   * enqueued and drained there, carried to udpRemote, enqueued and drained again, is
   * forwarded as the application's payload to the configured target.
   */
  lemma TunnelDeliversPayload(c: Codec, tgt: seq<byte>, data: seq<byte>,
                              local: Table, lkey: string, lok: bool,
                              remote: Table, rkey: string, rok: bool)
    requires Valid(local) && Valid(remote)
    requires Delimits(c, tgt) && |tgt| + |data| <= UdpBufSize
    ensures var l1 := ReceiveStep(local, lkey, LocalDatagram(tgt, data), lok);
      l1.event.Enqueued? ==>
        var l2 := DrainStep(l1.table, l1.event.ch);
        && l2.event == Delivered(l1.event.ch, tgt + data)
        && var r1 := ReceiveStep(remote, rkey, Truncate(l2.event.dgram, UdpBufSize), rok);
           r1.event.Enqueued? ==>
             var r2 := DrainStep(r1.table, r1.event.ch);
             r2.event.Delivered? && RemoteForward(c, r2.event.dgram, true) == Forwarded(tgt, data)
  {
  }
}
