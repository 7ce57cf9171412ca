# UDP relay of a shadowsocks proxy, modelled in Dafny

This project models the sequential logic of `udp.go`, the UDP relay of a shadowsocks
proxy. The relay has three deployments:

- `udpLocal` tunnels datagrams from a local application to one fixed target, through the
  encrypted server.
- `udpRemote` is the server side. It forwards the datagrams it decrypts to their real
  targets.
- `udpSocksLocal` is the local side for SOCKS5 UDP clients.

Each deployment keeps a table of sessions, one per peer. A return-path loop, `timedCopy`,
copies replies back and reframes them for its role.

Modules, one per part of the file:

- `Common` (common.dfy): bytes, the 64 KiB buffer size, Option (nil).
- `Socks` (socks.dfy): the SOCKS address codec, which the relay uses but which is not shown.
  - `parse` (`ParseAddr`) and `split` (`SplitAddr`) are parameters. An empty parse result and
    a `None` split stand for nil.
  - The subset type `Codec` holds the codec's one promise: a split result is a prefix of its
    argument.
  - The round-trip lemmas also require `Delimits(c, a)`: `a` is a non-nil address, and `split`
    finds exactly `a` at the head of any datagram that starts with it.
- `Framing` (framing.dfy): which bytes each hop writes.
  - Functions state what is written.
  - Methods do the writing inside a buffer, as udp.go does: the overlapping right shift of
    the `remoteServer` case, and the single buffer `udpLocal` fills with the target prefix
    followed by the datagram.
  - Each method is proved to produce what its function states.
- `TimedCopy` (timed_copy.dfy): the return-path loop, proved against a specification
  function over the sequence of reads it makes.
- `Nat` (natmap.dfy): `natmap`, as a class whose map field its methods update.
- `SocksRelay` (socks_local.dfy): the `udpSocksLocal` listener, and the reaper goroutine
  started by `natmap.Add`. Their class invariant says no connection is closed twice.
- `Sessions` (sessions.dfy): the session table and capacity-1 mailboxes of `udpLocal` and
  `udpRemote`.
  - One value type, `Table`, with step functions for receive, drain and teardown. Each
    lock-guarded section is one atomic step.
  - Lemmas about single runs and whole traces.
  - The class `SessionTable` updates the two variables in place.
- `Relays` (relays.dfy): one iteration each of the listener and drain loops of `udpLocal`
  and `udpRemote`, and the outbound path from end to end.

Go's runtime panics appear as explicit outcomes: `Panic` of `Framing.Framed`, and `Panic`
of `Sessions.Event`. They cover a slice out of range, a send on a closed channel and the
close of a closed channel. The model proves the following about them:

- No step of the session table sends on or closes a closed channel when it starts from
  a valid table. See `Sessions.RunPreservesValid` and `Sessions.TeardownStep`.
- relayClient's slice `buf[len(srcAddr):n]` never panics, because `SplitAddr` returns a
  prefix of its input (`Framing.RelayClientFraming`).
- remoteServer's `buf[:len(srcAddr)+n]` (udp.go:308) panics exactly when `len(srcAddr)+n`
  exceeds 65536 bytes (`Framing.RemoteServerFraming`). An IPv6 source address of 19 bytes
  with a read of more than 65517 bytes is one such case.
- udpSocksLocal's `buf[3:n]` (udp.go:147) panics exactly when `n < 3`. See "## Findings".

The roles follow the comments at udp.go:304 and udp.go:309:

- `remoteServer` ("server -> client: add original packet source") is the return path of
  `udpRemote`.
- `relayClient` ("client -> user: strip original packet source") is the return path of
  `udpLocal`.

`TimedCopy.ReturnPathDeliversReplies` composes the two in that order. The calls at
udp.go:83 and udp.go:215 do not match the signature at udp.go:293: they pass `(raddr, c,
…, bool)` where it takes `(dst, target, …, role)`. The model takes the three roles from the
`switch` at udp.go:303-314.

## Model

| member | source | states |
|---|---|---|
| `Socks.SplitLen` | udp.go:309-311 | `len(srcAddr)` of a split result: at most the datagram's length; the datagram is the prefix followed by the rest; 0 when `SplitAddr` returns nil |
| `Framing.Truncate` | udp.go:298 | `ReadFrom` into a buffer keeps a prefix of the datagram of length min(datagram, buffer) |
| `Framing.ReturnFrame` | udp.go:303-314 | the role switch: only remoteServer can panic, and it panics exactly when `len(srcAddr)+n` exceeds the 64 KiB buffer, otherwise writing `srcAddr ++ buf[:n]`; relayClient always writes a suffix of the payload; socksClient always writes `00 00 00` followed by the payload |
| `Framing.RemoteServerFraming` | udp.go:304-308 | remoteServer writes `srcAddr ++ buf[0..n)`: the length is `len(srcAddr)+n`, the address comes first and the payload follows unchanged. It writes exactly when `len(srcAddr)+n` fits the 64 KiB buffer and panics otherwise. A nil address leaves the payload as it is |
| `Framing.RelayClientFraming` | udp.go:309-311 | relayClient always writes; the datagram is the recognised prefix followed by what is written; with a nil split all bytes are written unchanged |
| `Framing.SocksClientFraming` | udp.go:312-313 | socksClient writes `[0,0,0]` followed by the payload, `3+n` bytes |
| `Framing.SocksClientExample` | udp.go:312-313 | payload `61 62` is delivered to the SOCKS5 client as `00 00 00 61 62` |
| `Framing.ReturnRoundTrip` | udp.go:304-311 | when the codec delimits the source address and the tagged datagram fits, stripping (relayClient) what remoteServer tagged gives back the reply |
| `Framing.LocalDatagram` | udp.go:51-53 | udpLocal's datagram starts with the target prefix, what follows is a prefix of the application's datagram, the whole fits the buffer, and it is exactly `tgt ++ payload` when that fits |
| `Framing.RemoteForward` | udp.go:193-210 | the drain forwards `buf[len(tgtAddr):]` to the split-off target, with the datagram equal to target followed by payload; it drops exactly the datagrams it cannot split, and among the splittable ones exactly those it cannot resolve |
| `Framing.OutboundRoundTrip` | udp.go:193-205 | udpRemote's drain of udpLocal's `tgt ++ payload` forwards exactly `payload` to `tgt` |
| `Framing.SocksPayloadAsWritten` | udp.go:147 | `buf[3:n]` as written: panics exactly when `n < 3`, otherwise forwards the datagram minus its first three bytes |
| `Framing.ShortSocksDatagramPanics` | udp.go:147 | a 2-byte datagram makes `buf[3:n]` panic |
| `Framing.SocksPayload` | udp.go:147 | corrected: a datagram shorter than 3 bytes is dropped; otherwise the forwarded bytes are the datagram minus RSV and FRAG, the same as the code as written |
| `Framing.ReadInto` | udp.go:298 | after a read, the buffer's first `n = min(len, cap)` bytes are the datagram's, and the rest of the buffer is untouched |
| `Framing.ShiftRight` | udp.go:306 | the overlapping `copy(buf[k:], buf[:n])` moves the old first `n` bytes to `[k, k+n)` and leaves the bytes before `k` and after `k+n` alone |
| `Framing.PrependInPlace` | udp.go:305-308 | the in-place shift followed by `copy(buf, srcAddr)` leaves `srcAddr ++ old buf[0..n)` in `buf[0..len(srcAddr)+n)`; it fails exactly when that slice is out of range |
| `Framing.FillLocal` | udp.go:51-53 | `copy(buf, tgt)` followed by `ReadFrom(buf[len(tgt):])` leaves exactly `LocalDatagram(tgt, data)` in `buf[:len(tgt)+n]` |
| `TimedCopy.CopyFrom` | udp.go:296-319 | the loop from a given read on: at most one write per remaining read, and exactly one per read when the reads run out while it still waits |
| `TimedCopy.CopySpec` | udp.go:293-320 | the whole loop: at most one write per read; no reads means nothing written and still waiting; a failing first read returns its error with nothing written |
| `TimedCopy.ReadAndFrame` | udp.go:298-314 | reading into the shared 64 KiB buffer and framing in place leave exactly `ReturnFrame` of the read, cut to the buffer |
| `TimedCopy.TimedCopy` | udp.go:293-320 | the loop, running over one reused 64 KiB buffer, writes and stops exactly as `CopySpec` says |
| `TimedCopy.CopyOne` | udp.go:297-319 | one round of the loop, run in the shared buffer, either ends the run with what `CopySpec` ends it with or writes the one frame after which `CopySpec` goes on from the next read |
| `TimedCopy.CopyStopsAt` | udp.go:297-319 | a failed read ends the run with nothing written; a frame that panics ends it with nothing written; a failed write ends it right after that frame |
| `TimedCopy.CopyFromWrites` | udp.go:296-319 | from any read on, the loop writes one framed datagram per read, in order, and every read before the last one written went round |
| `TimedCopy.CopyFromStops` | udp.go:296-319 | the loop stops at the first read error, write error or panic and nowhere else; a loop that ran out of reads had all of them go round |
| `TimedCopy.CopyAllContinue` | udp.go:296-319 | when every read succeeds and is written, the loop writes every framed datagram, in order, and keeps waiting |
| `TimedCopy.ReturnPathDeliversReplies` | udp.go:303-311 | replies tagged by udpRemote's loop (remoteServer) and untagged by udpLocal's (relayClient) reach the application unchanged and in order |
| `Nat.NatMap.constructor` | udp.go:249-254 | `newNATmap` makes an empty table with the given timeout |
| `Nat.NatMap.Get` | udp.go:256-260 | returns the entry for the key, or nil when there is none; changes nothing |
| `Nat.NatMap.Set` | udp.go:262-267 | overwrites the key's entry; every other key and the timeout are unchanged |
| `Nat.NatMap.Del` | udp.go:269-279 | removes exactly that key and returns its old value; an absent key returns nil and changes nothing |
| `Nat.NatMap.Add` | udp.go:281-282 | `src` is registered under the peer's address before the return loop starts |
| `Nat.SetGetDel` | udp.go:262-279 | after `Set(k, pc)`, `Get(k)` gives `pc` and the first `Del(k)` gives `pc`; a second `Del(k)` gives nil, and other keys are untouched |
| `SocksRelay.SocksLocal.constructor` | udp.go:125 | the listener starts with an empty NAT table, nothing written and nothing closed |
| `SocksRelay.SocksLocal.Receive` | udp.go:128-152 | a new connection is opened and registered only for an unknown peer whose `ListenPacket` succeeded; the datagram minus its 3-byte header is written on the peer's connection; a failed socket or a short datagram changes nothing. Nothing is closed, and the invariant is kept |
| `SocksRelay.SocksLocal.Reap` | udp.go:284-289 | `Del` the peer; close the connection only if `Del` returned it; no connection is ever closed twice |
| `SocksRelay.ReapTwice` | udp.go:286-288 | two reapers for one peer: the first closes its connection, the second finds nil and closes nothing |
| `Sessions.Offer` | udp.go:102-106 | the non-blocking send: it panics exactly on a closed channel; it enqueues exactly into an open, empty slot and touches no other channel; otherwise it drops the datagram and leaves the table as it was |
| `Sessions.ReceiveStep` | udp.go:59-106 | a known peer's datagram is exactly `Offer` on its channel, so the map, the other channels and the channel's open state are unchanged; an unknown peer whose socket fails is dropped and nothing changes; an unknown peer with a socket gets a new channel, registered under its key, holding the datagram (the same code is udp.go:177-238) |
| `Sessions.DrainStep` | udp.go:73 | `range` takes the slot's datagram exactly when there is one, closed channel or not, and ends exactly on a closed, empty channel; otherwise it waits; the map and the other channels are untouched (udp.go:193 likewise) |
| `Sessions.TeardownStep` | udp.go:91-96 | a missing key is `Absent` and changes nothing; otherwise the key's open channel is closed, its queued datagram kept, every other channel left as it was, and only that key deleted; from a valid table it never panics (udp.go:223-228 likewise) |
| `Sessions.StepPreservesValid` | udp.go:59-106 | receive, drain and teardown keep at most one open channel per key, and none of them panics |
| `Sessions.RunPreservesValid` | udp.go:59-106 | over any sequence of steps the table keeps one open channel per key and never panics |
| `Sessions.StepKeepsOwned` | udp.go:59-96 | no step leaves an open channel that no key maps to, so a teardown, which closes the key's channel as it deletes the key, ends every drain loop that would otherwise wait forever |
| `Sessions.RunKeepsOwned` | udp.go:59-96 | over any run from a valid table whose open channels all belong to keys, every open channel still belongs to a key |
| `Sessions.SessionCreatedOnlyWhenAbsent` | udp.go:59-70 | a channel is created only for an absent key, and only when its socket opened; a failed socket adds no entry and drops the datagram |
| `Sessions.DropOnFull` | udp.go:102-106 | a full mailbox drops the new datagram and keeps the table, the older datagram included |
| `Sessions.Backpressure` | udp.go:234-238 | two datagrams from a new peer before its drain runs: one channel, the first datagram queued, the second dropped |
| `Sessions.TeardownIdempotent` | udp.go:91-96 | teardown closes the key's channel and deletes the key; a second teardown finds nothing |
| `Sessions.FreshAfterTeardown` | udp.go:222-228 | after teardown the next datagram from that peer gets a new open channel, and the closed one stays closed |
| `Sessions.BurstUsesOneChannel` | udp.go:177-187 | a burst of datagrams from one peer, interleaved with any drain loop's receives, creates at most one channel, and every datagram queued, or dropped because the mailbox was full, went to that channel |
| `Sessions.SessionKeepsChannel` | udp.go:59-96 | whatever other peers and the drain loops do, a peer whose session is not torn down keeps its channel, the channel stays open, and every datagram of the peer that is queued, or dropped because the mailbox was full, went to that one channel |
| `Sessions.StepAccounting` | udp.go:102-106 | each step changes the queued count by enqueued minus delivered; a receive is either enqueued or dropped |
| `Sessions.RunAccounting` | udp.go:73-106 | over any run from a valid table, datagrams received = enqueued + dropped, and the datagrams queued at the end plus those delivered equal those queued at the start plus those enqueued |
| `Sessions.RunKeepsClosed` | udp.go:92-95 | channels are never forgotten and a closed channel stays closed |
| `Sessions.RunClosesOpenChannels` | udp.go:92-95 | every channel a run closes was open until then |
| `Sessions.CloseAtMostOnce` | udp.go:92-95 | no run closes a channel twice |
| `Sessions.SessionTable.constructor` | udp.go:46 | the session map starts empty and valid |
| `Sessions.SessionTable.Receive` | udp.go:59-106 | the listener's update of `m` and the send on the channel are one atomic receive step |
| `Sessions.SessionTable.Drain` | udp.go:73 | one receive of the drain loop is one drain step |
| `Sessions.SessionTable.Teardown` | udp.go:91-96 | the teardown under the lock is one teardown step, and it never closes a closed channel |
| `Relays.LocalListen` | udp.go:50-106 | udpLocal's iteration offers exactly `LocalDatagram(tgt, data)` to the peer's session |
| `Relays.LocalDrain` | udp.go:72-80 | the datagram the drain takes is handed unchanged to the `WriteTo` toward the server; whether that write succeeds is not modelled |
| `Relays.RemoteListen` | udp.go:169-238 | udpRemote's iteration offers the datagram as read into the buffer |
| `Relays.RemoteDrain` | udp.go:189-212 | each datagram the drain takes is split and handed to `WriteTo` toward its target, or dropped, as `RemoteForward` says; whether that write succeeds is not modelled |
| `Relays.EnqueuedIsDelivered` | udp.go:73-103 | a datagram placed in a mailbox is what the next drain of that channel takes |
| `Relays.TunnelDeliversPayload` | udp.go:51-210 | once queued and drained at both ends with no teardown in between, the application's datagram is handed unchanged to the `WriteTo` toward the configured target |

## Left out

- Sockets, address resolution and listener setup are not modelled (udp.go:26-43, 112-123, 157-163):
  - reads are given byte sequences, and writes are recorded or returned;
  - the outcome of `ListenPacket` for a new session, and of `ResolveUDPAddr` in udpRemote's drain, is a boolean parameter;
  - udpLocal's start-up check that the target parses (udp.go:32-37) is not an operation here. The listener is given the parsed prefix, and the round trips require `Delimits`, which excludes nil.
- Goroutines, `sync.Mutex`/`RWMutex` and blocking channel operations become atomic sequential steps. In udp.go the listener releases the lock before its `select` send, so a teardown that closes the channel in between makes the send panic (udp.go:93 against 103, udp.go:225 against 235). That race cannot be expressed in this model, and nothing here claims it is absent.
- Idle timeouts and read deadlines: an expired deadline is one of the read failures (`ReadFailed`). The timeout value is only stored.
- `sync.Pool`: a buffer taken from the pool is a new array. Returning it shows up only as the drop and delivery events.
- The `shadow` encryption wrapper is treated as transparent. Its internals, and those of the `socks` codec, are not part of this model.
- Logging, `net.Error` timeout classification and `config.UDPTimeout` are left out.
- `pc.Close()` of the forwarding socket at udp.go:90 and udp.go:222 is not modelled. Both run unconditionally, once per session goroutine. The model covers the channel close that follows them.
- `Relays.LocalDrain`: `toServer` is what is handed to `WriteTo` (udp.go:75), not what reaches the server. After its session's teardown the drain still takes a queued datagram, but `pc.Close()` (udp.go:90) has already closed the socket, so in udp.go that write fails and the datagram is lost.
- `Relays.RemoteDrain`: `fwd` is what is handed to `WriteTo` (udp.go:205), not what reaches the target. A datagram taken after its session's teardown meets a socket already closed at udp.go:222, so in udp.go that write fails and the datagram is lost.
- `TimedCopy.TimedCopy` runs over a finite sequence of reads. When the sequence runs out, the exit is `Exhausted`, which stands for a loop still waiting.
- `Framing.PrependInPlace` does not model what the truncated copies leave in the buffer before Go panics on an oversized datagram. The process ends at that point anyway.
- `Relays.LocalListen` requires the target prefix to fit the 64 KiB buffer. Otherwise `buf[len(tgt):]` panics; an encoded SOCKS address is at most a few hundred bytes.
- `SocksRelay.SocksLocal.Receive` uses the corrected short-datagram check listed under Findings. As written, the code would register the session before panicking.

## Findings

| source | as written | input that shows it | evidently intended | confidence | as-written member | corrected member |
|---|---|---|---|---|---|---|
| udp.go:147 | `pc.WriteTo(buf[3:n], srvAddr)` slices without checking `n >= 3` | a 2-byte datagram from a SOCKS5 client (`n = 2`): `buf[3:2]` panics | drop a datagram too short to hold RSV and FRAG, as other malformed input is dropped | high; not executed | `Framing.ShortSocksDatagramPanics` | `Framing.SocksPayload` |
