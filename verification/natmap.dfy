/** The packet NAT table `natmap` used by the SOCKS5 local relay. */
module Nat {
  import opened Common

  /** A forwarding packet connection, as an opaque token. */
  datatype Conn = Conn(id: nat)

  /** A map from a peer's address text to its forwarding connection; absent is nil. */
  class NatMap {
    var m: map<string, Conn>
    var timeout: int

    /** `newNATmap`: an empty table with the given idle timeout. */
    constructor (timeout: int)
      ensures m == map[] && this.timeout == timeout
    {
      m := map[];
      this.timeout := timeout;
    }

    /** The connection registered for `key`, or nil; nothing changes. */
    method Get(key: string) returns (pc: Option<Conn>)
      ensures pc.Some? <==> key in m
      ensures pc.Some? ==> pc.value == m[key]
    {
      pc := if key in m then Some(m[key]) else None;
    }

    /** Overwrites the entry for `key`; every other entry stays. */
    method Set(key: string, pc: Conn)
      modifies this
      ensures m == old(m)[key := pc] && timeout == old(timeout)
    {
      m := m[key := pc];
    }

    /** Removes the entry for `key` and returns what it removed, or nil if there was none. */
    method Del(key: string) returns (pc: Option<Conn>)
      modifies this
      ensures pc.Some? <==> key in old(m)
      ensures pc.Some? ==> pc.value == old(m)[key]
      ensures m.Keys == old(m).Keys - {key}
      ensures forall k :: k in m ==> m[k] == old(m)[k]
      ensures timeout == old(timeout)
    {
      if key in m {
        pc := Some(m[key]);
        m := m - {key};
      } else {
        pc := None;
      }
    }

    /**
     * The synchronous half of `Add`: `src` is registered under the peer's address
     * before the return-path loop starts. The teardown half is `SocksRelay.SocksLocal.Reap`.
     */
    method Add(peer: string, src: Conn)
      modifies this
      ensures m == old(m)[peer := src] && timeout == old(timeout)
    {
      Set(peer, src);
    }
  }

  /** Set, then Get, then Del twice: the table behaves as a map and Del is idempotent. */
  method SetGetDel(nm: NatMap, key: string, other: string, pc: Conn)
    returns (got: Option<Conn>, first: Option<Conn>, second: Option<Conn>)
    requires other != key
    modifies nm
    ensures got == Some(pc) && first == Some(pc) && second == None
    ensures key !in nm.m
    ensures other in nm.m <==> other in old(nm.m)
    ensures other in nm.m ==> nm.m[other] == old(nm.m)[other]
  {
    nm.Set(key, pc);
    got := nm.Get(key);
    first := nm.Del(key);
    second := nm.Del(key);
  }
}
