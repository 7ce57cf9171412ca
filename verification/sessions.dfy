/**
 * The session table of `udpLocal` and `udpRemote`: per peer key, a channel of
 * capacity one (the mailbox) feeding that session's drain goroutine. Each section
 * that udp.go runs under the table's lock is one atomic step here.
 */
module Sessions {
  import opened Common

  /** A `chan []byte` of capacity 1: its one slot and whether it has been closed. */
  datatype Channel = Channel(slot: Option<seq<byte>>, closed: bool)

  /**
   * The map `m` from peer key to channel, and every channel ever made, numbered in
   * order of creation (a channel outlives its key: its drain loop still empties it).
   */
  datatype Table = Table(m: map<string, nat>, chans: seq<Channel>)

  /** The three things that happen to the table. */
  datatype Op =
    | Receive(key: string, dgram: seq<byte>, socketOk: bool)  // listener got a datagram from key
    | Drain(ch: nat)                                           // drain loop of channel ch receives
    | Teardown(key: string)                                    // copy loop for key has returned

  datatype Event =
    | Enqueued(ch: nat)                     // `ch <- buf` succeeded
    | DroppedFull(ch: nat)                  // slot taken: `default`, buffer back to the pool
    | DroppedNoSocket                       // ListenPacket failed: send on nil channel, `default`
    | Delivered(ch: nat, dgram: seq<byte>)  // the drain loop took `dgram`
    | Waiting(ch: nat)                      // the drain loop blocks: empty, open (or no such channel)
    | Finished(ch: nat)                     // `range` ends: channel closed and empty
    | Closed(ch: nat)                       // teardown closed the key's channel
    | Absent                                // teardown found no channel for the key
    | Panic                                 // send on, or close of, a closed channel

  datatype Stepped = Stepped(table: Table, event: Event)
  datatype Trace = Trace(table: Table, events: seq<Event>)

  /**
   * Every key's channel exists and is open, and no channel serves two keys: at most
   * one mailbox per peer.
   */
  ghost predicate Valid(t: Table) {
    && (forall k :: k in t.m ==> t.m[k] < |t.chans| && !t.chans[t.m[k]].closed)
    && (forall k1, k2 :: k1 in t.m && k2 in t.m && t.m[k1] == t.m[k2] ==> k1 == k2)
  }

  /** The non-blocking `select` send of `d` on channel `id`. */
  function Offer(t: Table, id: nat, d: seq<byte>): (r: Stepped)
    ensures r.event == Panic <==> id >= |t.chans| || t.chans[id].closed
    ensures r.event.Enqueued? <==> id < |t.chans| && !t.chans[id].closed && t.chans[id].slot.None?
    ensures r.event == Panic || r.event == DroppedFull(id) || r.event == Enqueued(id)
    ensures !r.event.Enqueued? ==> r.table == t
    ensures r.event.Enqueued? ==>
      && r.table.m == t.m && |r.table.chans| == |t.chans|
      && r.table.chans[id] == Channel(Some(d), false)
      && (forall j :: 0 <= j < |t.chans| && j != id ==> r.table.chans[j] == t.chans[j])
  {
    if id >= |t.chans| || t.chans[id].closed then Stepped(t, Panic)
    else if t.chans[id].slot.Some? then Stepped(t, DroppedFull(id))
    else Stepped(t.(chans := t.chans[id := Channel(Some(d), false)]), Enqueued(id))
  }

  /**
   * The listener: under the lock, look the key up and, if it has no channel and a new
   * forwarding socket opened, create and insert one; then offer the datagram.
   */
  function ReceiveStep(t: Table, key: string, d: seq<byte>, socketOk: bool): (r: Stepped)
    ensures r.event.Enqueued? || r.event.DroppedFull? || r.event == DroppedNoSocket || r.event == Panic
    ensures !r.event.Enqueued? ==> r.table == t
    ensures r.event == DroppedNoSocket <==> key !in t.m && !socketOk
    ensures key in t.m ==> r == Offer(t, t.m[key], d)
    ensures key in t.m ==> r.table.m == t.m && |r.table.chans| == |t.chans|
    ensures key !in t.m && socketOk ==>
      r == Stepped(Table(t.m[key := |t.chans|], t.chans + [Channel(Some(d), false)]), Enqueued(|t.chans|))
    ensures r.event.Enqueued? ==>
      key in r.table.m && r.table.m[key] == r.event.ch
      && r.event.ch < |r.table.chans| && r.table.chans[r.event.ch].slot == Some(d)
  {
    if key in t.m then Offer(t, t.m[key], d)
    else if !socketOk then Stepped(t, DroppedNoSocket)
    else Offer(Table(t.m[key := |t.chans|], t.chans + [Channel(None, false)]), |t.chans|, d)
  }

  /** One receive of the drain loop `for buf := range ch`. */
  function DrainStep(t: Table, id: nat): (r: Stepped)
    ensures r.table.m == t.m && |r.table.chans| == |t.chans|
    ensures r.event.Delivered? <==> id < |t.chans| && t.chans[id].slot.Some?
    ensures r.event.Delivered? ==>
      && r.event == Delivered(id, t.chans[id].slot.value)
      && r.table.chans[id] == Channel(None, t.chans[id].closed)
      && (forall j :: 0 <= j < |t.chans| && j != id ==> r.table.chans[j] == t.chans[j])
    ensures r.event == Finished(id) <==> id < |t.chans| && t.chans[id] == Channel(None, true)
    ensures !r.event.Delivered? ==> r.table == t && (r.event == Finished(id) || r.event == Waiting(id))
  {
    if id >= |t.chans| then Stepped(t, Waiting(id))
    else match t.chans[id].slot
      case Some(d) => Stepped(t.(chans := t.chans[id := t.chans[id].(slot := None)]), Delivered(id, d))
      case None => if t.chans[id].closed then Stepped(t, Finished(id)) else Stepped(t, Waiting(id))
  }

  /** Teardown under the lock: close the key's channel if there is one, delete the key. */
  function TeardownStep(t: Table, key: string): (r: Stepped)
    ensures r.event == Absent <==> key !in t.m
    ensures r.event == Absent || r.event == Panic || r.event.Closed?
    ensures !r.event.Closed? ==> r.table == t
    ensures Valid(t) ==> r.event != Panic
    ensures r.event.Closed? ==>
      && key in t.m && r.event.ch == t.m[key]
      && r.table.m == t.m - {key} && key !in r.table.m
      && |r.table.chans| == |t.chans| && r.event.ch < |t.chans|
      && !t.chans[r.event.ch].closed && r.table.chans[r.event.ch].closed
      && r.table.chans[r.event.ch].slot == t.chans[r.event.ch].slot
      && (forall j :: 0 <= j < |t.chans| && j != r.event.ch ==> r.table.chans[j] == t.chans[j])
  {
    if key !in t.m then Stepped(t, Absent)
    else
      var id := t.m[key];
      if id >= |t.chans| || t.chans[id].closed then Stepped(t, Panic)
      else Stepped(Table(t.m - {key}, t.chans[id := t.chans[id].(closed := true)]), Closed(id))
  }

  function Step(t: Table, op: Op): Stepped {
    match op
    case Receive(key, d, ok) => ReceiveStep(t, key, d, ok)
    case Drain(id) => DrainStep(t, id)
    case Teardown(key) => TeardownStep(t, key)
  }

  function Run(t: Table, ops: seq<Op>): (r: Trace)
    ensures |r.events| == |ops|
    decreases |ops|
  {
    if ops == [] then Trace(t, [])
    else
      var s := Step(t, ops[0]);
      var rest := Run(s.table, ops[1..]);
      Trace(rest.table, [s.event] + rest.events)
  }

  // ---------------------------------------------------------------------------
  // The invariant

  lemma ReceivePreservesValid(t: Table, key: string, d: seq<byte>, socketOk: bool)
    requires Valid(t)
    ensures Valid(ReceiveStep(t, key, d, socketOk).table)
    ensures ReceiveStep(t, key, d, socketOk).event != Panic
  {
  }

  lemma TeardownPreservesValid(t: Table, key: string)
    requires Valid(t)
    ensures Valid(TeardownStep(t, key).table)
    ensures TeardownStep(t, key).event != Panic
  {
  }

  /** Every step keeps one open channel per key, and from a valid table none panics. */
  lemma StepPreservesValid(t: Table, op: Op)
    requires Valid(t)
    ensures Valid(Step(t, op).table)
    ensures Step(t, op).event != Panic
  {
    match op
    case Receive(key, d, ok) => ReceivePreservesValid(t, key, d, ok);
    case Drain(id) =>
    case Teardown(key) => TeardownPreservesValid(t, key);
  }

  lemma {:induction false} RunPreservesValid(t: Table, ops: seq<Op>)
    requires Valid(t)
    ensures Valid(Run(t, ops).table)
    ensures Panic !in Run(t, ops).events
    decreases |ops|
  {
    if ops != [] {
      StepPreservesValid(t, ops[0]);
      RunPreservesValid(Step(t, ops[0]).table, ops[1..]);
    }
  }

  /**
   * Every open channel is some key's channel. Teardown closes the key's channel as it
   * deletes the key, so no drain loop is left waiting on a channel nobody can close.
   */
  ghost predicate Owned(t: Table) {
    forall id :: 0 <= id < |t.chans| && !t.chans[id].closed ==> id in t.m.Values
  }

  lemma StepKeepsOwned(t: Table, op: Op)
    requires Valid(t) && Owned(t)
    ensures Owned(Step(t, op).table)
  {
    match op
    case Receive(key, d, ok) => ReceiveKeepsOwned(t, key, d, ok);
    case Drain(id) =>
      var s := DrainStep(t, id).table;
      forall j | 0 <= j < |s.chans| && !s.chans[j].closed
        ensures j in s.m.Values
      {
        var k :| k in t.m && t.m[k] == j;
        assert k in s.m && s.m[k] == j;
      }
    case Teardown(key) => TeardownKeepsOwned(t, key);
  }

  lemma ReceiveKeepsOwned(t: Table, key: string, d: seq<byte>, socketOk: bool)
    requires Valid(t) && Owned(t)
    ensures Owned(ReceiveStep(t, key, d, socketOk).table)
  {
    var s := ReceiveStep(t, key, d, socketOk).table;
    forall j | 0 <= j < |s.chans| && !s.chans[j].closed
      ensures j in s.m.Values
    {
      if j < |t.chans| {
        var k :| k in t.m && t.m[k] == j;
        assert k in s.m && s.m[k] == j;
      } else {
        assert key in s.m && s.m[key] == j;
      }
    }
  }

  lemma TeardownKeepsOwned(t: Table, key: string)
    requires Valid(t) && Owned(t)
    ensures Owned(TeardownStep(t, key).table)
  {
    var s := TeardownStep(t, key).table;
    forall j | 0 <= j < |s.chans| && !s.chans[j].closed
      ensures j in s.m.Values
    {
      var k :| k in t.m && t.m[k] == j;
      if k != key {
        assert k in s.m && s.m[k] == j;
      }
    }
  }

  /** From a valid table where every open channel is owned, every run keeps it so. */
  lemma {:induction false} RunKeepsOwned(t: Table, ops: seq<Op>)
    requires Valid(t) && Owned(t)
    ensures Owned(Run(t, ops).table)
    decreases |ops|
  {
    if ops != [] {
      StepPreservesValid(t, ops[0]);
      StepKeepsOwned(t, ops[0]);
      RunKeepsOwned(Step(t, ops[0]).table, ops[1..]);
    }
  }

  // ---------------------------------------------------------------------------
  // Session creation, drop on full, teardown

  /**
   * A key gets a new channel only when it has none and its socket opened; a failed
   * socket leaves the table as it was and the datagram is dropped.
   */
  lemma SessionCreatedOnlyWhenAbsent(t: Table, key: string, d: seq<byte>, socketOk: bool)
    requires Valid(t)
    ensures var r := ReceiveStep(t, key, d, socketOk);
      && |r.table.chans| == |t.chans| + (if key !in t.m && socketOk then 1 else 0)
      && (key in t.m ==> r.table.m == t.m)
      && (key !in t.m && !socketOk ==> r == Stepped(t, DroppedNoSocket))
      && (key !in t.m && socketOk ==> r.table.m == t.m[key := |t.chans|] && r.event == Enqueued(|t.chans|))
  {
  }

  /** A full mailbox drops the new datagram and keeps the older one. */
  lemma DropOnFull(t: Table, key: string, d: seq<byte>, socketOk: bool)
    requires Valid(t) && key in t.m && t.chans[t.m[key]].slot.Some?
    ensures ReceiveStep(t, key, d, socketOk) == Stepped(t, DroppedFull(t.m[key]))
  {
  }

  /**
   * Two datagrams from a new peer before its drain loop runs: one channel is made,
   * the first datagram waits in it, the second is dropped.
   */
  lemma Backpressure(t: Table, key: string, d1: seq<byte>, d2: seq<byte>, socketOk: bool)
    requires Valid(t) && key !in t.m
    ensures var r1 := ReceiveStep(t, key, d1, true);
      var r2 := ReceiveStep(r1.table, key, d2, socketOk);
      && r1.event == Enqueued(|t.chans|)
      && r2 == Stepped(r1.table, DroppedFull(|t.chans|))
      && |r2.table.chans| == |t.chans| + 1
      && r2.table.chans[|t.chans|].slot == Some(d1)
  {
  }

  /** A second teardown for the same key finds nothing and closes nothing. */
  lemma TeardownIdempotent(t: Table, key: string)
    requires Valid(t)
    ensures var r1 := TeardownStep(t, key);
      && key !in r1.table.m
      && (key in t.m ==> r1.event == Closed(t.m[key]) && r1.table.m == t.m - {key})
      && TeardownStep(r1.table, key) == Stepped(r1.table, Absent)
  {
  }

  /**
   * After teardown, the next datagram from the same peer gets a new, open channel;
   * the closed one is never handed out again.
   */
  lemma FreshAfterTeardown(t: Table, key: string, d: seq<byte>)
    requires Valid(t) && key in t.m
    ensures var old_id := t.m[key];
      var t1 := TeardownStep(t, key).table;
      var r := ReceiveStep(t1, key, d, true);
      && r.event == Enqueued(|t.chans|) && |t.chans| != old_id
      && r.table.m[key] == |t.chans|
      && r.table.chans[old_id].closed && !r.table.chans[|t.chans|].closed
  {
  }

  /**
   * A burst of datagrams from one peer, with the sessions' drain loops running in
   * between, is served by at most one new channel, and every datagram enqueued or
   * dropped for it went to the channel the key ends up with.
   */
  lemma {:induction false} BurstUsesOneChannel(t: Table, key: string, ops: seq<Op>)
    requires Valid(t)
    requires forall i :: 0 <= i < |ops| ==> (ops[i].Receive? && ops[i].key == key) || ops[i].Drain?
    ensures var r := Run(t, ops);
      && |t.chans| <= |r.table.chans| <= |t.chans| + 1
      && (key in t.m ==> r.table.m == t.m && |r.table.chans| == |t.chans|)
      && (forall i :: 0 <= i < |r.events| && (r.events[i].Enqueued? || r.events[i].DroppedFull?)
            ==> key in r.table.m && r.events[i].ch == r.table.m[key])
    decreases |ops|
  {
    if ops != [] {
      var s := Step(t, ops[0]);
      BurstStep(t, key, ops[0]);
      BurstUsesOneChannel(s.table, key, ops[1..]);
      var rest := Run(s.table, ops[1..]);
      var r := Run(t, ops);
      assert r.events == [s.event] + rest.events;
      forall i | 1 <= i < |r.events|
        ensures r.events[i] == rest.events[i - 1]
      {
      }
    }
  }

  /** One step of such a burst: a datagram from the peer, or a drain. */
  lemma BurstStep(t: Table, key: string, op: Op)
    requires Valid(t) && ((op.Receive? && op.key == key) || op.Drain?)
    ensures var s := Step(t, op);
      && Valid(s.table)
      && |t.chans| <= |s.table.chans| <= |t.chans| + 1
      && (key in t.m ==> s.table.m == t.m && |s.table.chans| == |t.chans|)
      && (key !in s.table.m ==> s.table.m == t.m && |s.table.chans| == |t.chans|)
      && (s.event.Enqueued? || s.event.DroppedFull? ==> key in s.table.m && s.event.ch == s.table.m[key])
  {
    StepPreservesValid(t, op);
  }

  /**
   * Whatever else happens (other peers' datagrams and teardowns, every drain loop), as
   * long as the peer's own session is not torn down it keeps its channel, the channel
   * stays open, and every datagram of the peer that is enqueued or dropped went to it:
   * at most one channel is used for the peer.
   */
  lemma {:induction false} SessionKeepsChannel(t: Table, key: string, ops: seq<Op>)
    requires Valid(t)
    requires forall i :: 0 <= i < |ops| ==> ops[i] != Teardown(key)
    ensures var r := Run(t, ops);
      && (key in t.m ==> key in r.table.m && r.table.m[key] == t.m[key])
      && (key in r.table.m ==> r.table.m[key] < |r.table.chans| && !r.table.chans[r.table.m[key]].closed)
      && (forall i :: 0 <= i < |ops| && ops[i].Receive? && ops[i].key == key
            && (r.events[i].Enqueued? || r.events[i].DroppedFull?)
            ==> key in r.table.m && r.events[i].ch == r.table.m[key])
    decreases |ops|
  {
    RunPreservesValid(t, ops);
    if ops != [] {
      var s := Step(t, ops[0]);
      KeyStep(t, key, ops[0]);
      SessionKeepsChannel(s.table, key, ops[1..]);
      var rest := Run(s.table, ops[1..]);
      var r := Run(t, ops);
      assert r.events == [s.event] + rest.events;
      forall i | 1 <= i < |ops|
        ensures ops[i] == ops[1..][i - 1] && r.events[i] == rest.events[i - 1]
      {
      }
    }
  }

  /** One step that is not the peer's own teardown keeps the peer's channel. */
  lemma KeyStep(t: Table, key: string, op: Op)
    requires Valid(t) && op != Teardown(key)
    ensures var s := Step(t, op);
      && Valid(s.table)
      && (key in t.m ==> key in s.table.m && s.table.m[key] == t.m[key])
      && ((op.Receive? && op.key == key && (s.event.Enqueued? || s.event.DroppedFull?))
            ==> key in s.table.m && s.event.ch == s.table.m[key])
  {
    StepPreservesValid(t, op);
  }

  // ---------------------------------------------------------------------------
  // Every datagram is accounted for

  function SlotCount(c: Channel): nat {
    if c.slot.Some? then 1 else 0
  }

  /** Datagrams waiting in mailboxes. */
  function Pending(chans: seq<Channel>): nat
    decreases |chans|
  {
    if chans == [] then 0 else SlotCount(chans[0]) + Pending(chans[1..])
  }

  lemma {:induction false} PendingUpdate(chans: seq<Channel>, i: nat, c: Channel)
    requires i < |chans|
    ensures Pending(chans[i := c]) + SlotCount(chans[i]) == Pending(chans) + SlotCount(c)
    decreases |chans|
  {
    if i > 0 {
      PendingUpdate(chans[1..], i - 1, c);
      assert chans[i := c][1..] == chans[1..][i - 1 := c];
    } else {
      assert chans[i := c][1..] == chans[1..];
    }
  }

  lemma {:induction false} PendingAppend(chans: seq<Channel>, c: Channel)
    ensures Pending(chans + [c]) == Pending(chans) + SlotCount(c)
    decreases |chans|
  {
    if chans == [] {
      assert [c][1..] == [];
    } else {
      PendingAppend(chans[1..], c);
      assert (chans + [c])[1..] == chans[1..] + [c];
    }
  }

  function Receipts(ops: seq<Op>): nat
    decreases |ops|
  {
    if ops == [] then 0 else (if ops[0].Receive? then 1 else 0) + Receipts(ops[1..])
  }

  function Enqueues(es: seq<Event>): nat
    decreases |es|
  {
    if es == [] then 0 else (if es[0].Enqueued? then 1 else 0) + Enqueues(es[1..])
  }

  /** Datagrams whose buffer went straight back to the pool. */
  function Drops(es: seq<Event>): nat
    decreases |es|
  {
    if es == [] then 0 else (if es[0].DroppedFull? || es[0].DroppedNoSocket? then 1 else 0) + Drops(es[1..])
  }

  function Deliveries(es: seq<Event>): nat
    decreases |es|
  {
    if es == [] then 0 else (if es[0].Delivered? then 1 else 0) + Deliveries(es[1..])
  }

  lemma StepAccounting(t: Table, op: Op)
    requires Valid(t)
    ensures var s := Step(t, op);
      && Pending(s.table.chans) + (if s.event.Delivered? then 1 else 0)
         == Pending(t.chans) + (if s.event.Enqueued? then 1 else 0)
      && (op.Receive? <==> s.event.Enqueued? || s.event.DroppedFull? || s.event.DroppedNoSocket?)
  {
    StepPreservesValid(t, op);
    match op
    case Receive(key, d, ok) =>
      if key in t.m {
        var id := t.m[key];
        if t.chans[id].slot.None? {
          PendingUpdate(t.chans, id, Channel(Some(d), false));
        }
      } else if ok {
        var id := |t.chans|;
        var grown := t.chans + [Channel(None, false)];
        PendingAppend(t.chans, Channel(None, false));
        PendingUpdate(grown, id, Channel(Some(d), false));
      }
    case Drain(id) =>
      if id < |t.chans| && t.chans[id].slot.Some? {
        PendingUpdate(t.chans, id, t.chans[id].(slot := None));
      }
    case Teardown(key) =>
      if key in t.m {
        var id := t.m[key];
        PendingUpdate(t.chans, id, t.chans[id].(closed := true));
      }
  }

  /**
   * Over any run from a valid table, every received datagram is either enqueued or
   * dropped, and every enqueued one is either delivered to the drain loop or still
   * waiting in its mailbox: no datagram and no buffer is lost or handled twice.
   */
  lemma {:induction false} RunAccounting(t: Table, ops: seq<Op>)
    requires Valid(t)
    ensures var r := Run(t, ops);
      && Receipts(ops) == Enqueues(r.events) + Drops(r.events)
      && Pending(r.table.chans) + Deliveries(r.events) == Pending(t.chans) + Enqueues(r.events)
    decreases |ops|
  {
    if ops != [] {
      var s := Step(t, ops[0]);
      StepAccounting(t, ops[0]);
      StepPreservesValid(t, ops[0]);
      RunAccounting(s.table, ops[1..]);
      var r := Run(t, ops);
      assert r.events[1..] == Run(s.table, ops[1..]).events;
    }
  }

  // ---------------------------------------------------------------------------
  // Channels are closed at most once

  function ClosedIds(es: seq<Event>): seq<nat>
    decreases |es|
  {
    if es == [] then [] else (if es[0].Closed? then [es[0].ch] else []) + ClosedIds(es[1..])
  }

  /** Channels are never destroyed and a closed channel stays closed. */
  lemma {:induction false} RunKeepsClosed(t: Table, ops: seq<Op>)
    ensures var r := Run(t, ops);
      && |t.chans| <= |r.table.chans|
      && forall i :: 0 <= i < |t.chans| && t.chans[i].closed ==> r.table.chans[i].closed
    decreases |ops|
  {
    if ops != [] {
      RunKeepsClosed(Step(t, ops[0]).table, ops[1..]);
    }
  }

  /** Every channel a run closes was open until then, and is closed at the end. */
  lemma {:induction false} RunClosesOpenChannels(t: Table, ops: seq<Op>)
    ensures var r := Run(t, ops);
      forall id :: id in ClosedIds(r.events) ==>
        id < |r.table.chans| && r.table.chans[id].closed && (id < |t.chans| ==> !t.chans[id].closed)
    decreases |ops|
  {
    if ops != [] {
      var s := Step(t, ops[0]);
      var rest := Run(s.table, ops[1..]);
      var r := Run(t, ops);
      RunClosesOpenChannels(s.table, ops[1..]);
      RunKeepsClosed(s.table, ops[1..]);
      RunKeepsClosed(t, ops);
      assert r.events[1..] == rest.events;
      assert ClosedIds(r.events) == (if s.event.Closed? then [s.event.ch] else []) + ClosedIds(rest.events);
      assert |t.chans| <= |s.table.chans|;
      assert forall i :: 0 <= i < |t.chans| && t.chans[i].closed ==> s.table.chans[i].closed;
    }
  }

  /**
   * No run records a second close of a channel. A second `close` in Go panics, and the
   * step records it as `Panic`, not as `Closed`, so this holds from any table; that no
   * such panic happens from a valid table is `RunPreservesValid`.
   */
  lemma {:induction false} CloseAtMostOnce(t: Table, ops: seq<Op>)
    ensures NoDup(ClosedIds(Run(t, ops).events))
    decreases |ops|
  {
    if ops != [] {
      var s := Step(t, ops[0]);
      var rest := Run(s.table, ops[1..]);
      var r := Run(t, ops);
      CloseAtMostOnce(s.table, ops[1..]);
      RunClosesOpenChannels(s.table, ops[1..]);
      assert r.events[1..] == rest.events;
      var head := if s.event.Closed? then [s.event.ch] else [];
      assert ClosedIds(r.events) == head + ClosedIds(rest.events);
      if s.event.Closed? {
        var id := s.event.ch;
        assert id < |s.table.chans| && s.table.chans[id].closed;
        assert id !in ClosedIds(rest.events);
      }
    }
  }

  // ---------------------------------------------------------------------------
  // The table as udp.go keeps it: two variables the listener and teardown update

  class SessionTable {
    var m: map<string, nat>
    var chans: seq<Channel>

    function State(): Table
      reads this
    {
      Table(m, chans)
    }

    /** `make(map[string]chan []byte)` */
    constructor ()
      ensures State() == Table(map[], []) && Valid(State())
    {
      m := map[];
      chans := [];
    }

    method Receive(key: string, dgram: seq<byte>, socketOk: bool) returns (e: Event)
      requires Valid(State())
      modifies this
      ensures Valid(State()) && e != Panic
      ensures Stepped(State(), e) == ReceiveStep(old(State()), key, dgram, socketOk)
    {
      StepPreservesValid(State(), Op.Receive(key, dgram, socketOk));
      var id: nat;
      if key in m {
        id := m[key];
      } else {
        if !socketOk {
          return DroppedNoSocket;
        }
        id := |chans|;
        chans := chans + [Channel(None, false)];
        m := m[key := id];
      }
      if chans[id].slot.None? {
        chans := chans[id := Channel(Some(dgram), false)];
        e := Enqueued(id);
      } else {
        e := DroppedFull(id);
      }
    }

    method Drain(id: nat) returns (e: Event)
      requires Valid(State())
      modifies this
      ensures Valid(State())
      ensures Stepped(State(), e) == DrainStep(old(State()), id)
    {
      StepPreservesValid(State(), Op.Drain(id));
      if id >= |chans| {
        return Waiting(id);
      }
      var c := chans[id];
      if c.slot.Some? {
        chans := chans[id := c.(slot := None)];
        e := Delivered(id, c.slot.value);
      } else if c.closed {
        e := Finished(id);
      } else {
        e := Waiting(id);
      }
    }

    method Teardown(key: string) returns (e: Event)
      requires Valid(State())
      modifies this
      ensures Valid(State()) && e != Panic
      ensures Stepped(State(), e) == TeardownStep(old(State()), key)
    {
      StepPreservesValid(State(), Op.Teardown(key));
      if key in m {
        var id := m[key];
        chans := chans[id := chans[id].(closed := true)];
        e := Closed(id);
      } else {
        e := Absent;
      }
      m := m - {key};
    }
  }
}
