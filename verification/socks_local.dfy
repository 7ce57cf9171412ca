/**
 * `udpSocksLocal` and the return-path reaper started by `natmap.Add`: sessions are
 * created inline by the listener and torn down by `Del` when the copy loop ends.
 */
module SocksRelay {
  import opened Common
  import opened Framing
  import opened Nat

  /** What one listener iteration does with an inbound datagram. */
  datatype Outcome =
    | Malformed                              // shorter than the RSV and FRAG bytes: dropped
    | NoSocket                               // ListenPacket failed: dropped
    | Wrote(pc: Conn, payload: seq<byte>)    // WriteTo(buf[3:n], srvAddr) on pc

  class SocksLocal {
    const nm: NatMap
    /** Identity of the next socket `ListenPacket` opens; every socket is new. */
    var nextConn: nat
    /** The connections `Close`d by reapers, in order. */
    var closed: seq<Conn>
    /** Every `WriteTo` towards the server, in order. */
    var writes: seq<(Conn, seq<byte>)>

    /**
     * Every registered connection is open and belongs to one peer, and no connection
     * has been closed twice.
     */
    ghost predicate Valid()
      reads this, nm
    {
      && NoDup(closed)
      && (forall i :: 0 <= i < |closed| ==> closed[i].id < nextConn)
      && (forall k :: k in nm.m ==> nm.m[k] !in closed && nm.m[k].id < nextConn)
      && (forall k1, k2 :: k1 in nm.m && k2 in nm.m && nm.m[k1] == nm.m[k2] ==> k1 == k2)
    }

    constructor (timeout: int)
      ensures Valid() && fresh(nm)
      ensures nm.m == map[] && nm.timeout == timeout
      ensures closed == [] && writes == []
    {
      nm := new NatMap(timeout);
      nextConn := 0;
      closed := [];
      writes := [];
    }

    /** One iteration of the listener loop on a datagram `data` from `raddr`. */
    method Receive(raddr: string, data: seq<byte>, listenOk: bool) returns (r: Outcome)
      requires Valid()
      modifies this, nm
      ensures Valid()
      ensures closed == old(closed) && nm.timeout == old(nm.timeout)
      ensures var d := Truncate(data, UdpBufSize);
        && (|d| < 3 ==> r == Malformed)
        && (|d| >= 3 && raddr in old(nm.m) ==> r == Wrote(old(nm.m)[raddr], d[3..]))
        && (|d| >= 3 && raddr !in old(nm.m) && listenOk ==> r == Wrote(Conn(old(nextConn)), d[3..]))
        && (|d| >= 3 && raddr !in old(nm.m) && !listenOk ==> r == NoSocket)
      ensures r.Wrote? && raddr !in old(nm.m)
        ==> nm.m == old(nm.m)[raddr := r.pc] && nextConn == old(nextConn) + 1
      ensures !(r.Wrote? && raddr !in old(nm.m)) ==> nm.m == old(nm.m) && nextConn == old(nextConn)
      ensures writes == if r.Wrote? then old(writes) + [(r.pc, r.payload)] else old(writes)
    {
      var d := Truncate(data, UdpBufSize);
      var payload := SocksPayload(d);
      if payload.None? {
        return Malformed;
      }
      var pc := nm.Get(raddr);
      if pc.None? {
        if !listenOk {
          return NoSocket;
        }
        pc := Some(Conn(nextConn));
        nextConn := nextConn + 1;
        nm.Add(raddr, pc.value);
      }
      writes := writes + [(pc.value, payload.value)];
      r := Wrote(pc.value, payload.value);
    }

    /**
     * The end of the goroutine started by `Add` once its copy loop has returned:
     * `Del` the peer and close the connection only if `Del` removed one.
     */
    method Reap(raddr: string) returns (pc: Option<Conn>)
      requires Valid()
      modifies this, nm
      ensures Valid()
      ensures pc.Some? <==> raddr in old(nm.m)
      ensures pc.Some? ==> pc.value == old(nm.m)[raddr]
      ensures nm.m == old(nm.m) - {raddr}
      ensures closed == if pc.Some? then old(closed) + [pc.value] else old(closed)
      ensures nextConn == old(nextConn) && writes == old(writes) && nm.timeout == old(nm.timeout)
    {
      pc := nm.Del(raddr);
      assert nm.m == old(nm.m) - {raddr};
      if pc.Some? {
        closed := closed + [pc.value];
      }
    }
  }

  /** Two reapers for one peer: the second finds nothing and closes nothing. */
  method ReapTwice(s: SocksLocal, raddr: string) returns (first: Option<Conn>, second: Option<Conn>)
    requires s.Valid() && raddr in s.nm.m
    modifies s, s.nm
    ensures s.Valid()
    ensures first == Some(old(s.nm.m)[raddr]) && second == None
    ensures s.closed == old(s.closed) + [first.value]
  {
    first := s.Reap(raddr);
    second := s.Reap(raddr);
  }
}
