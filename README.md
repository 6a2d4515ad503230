# pysocks5 reverse SOCKS5 tunnel — a Dafny model

pysocks5 carries SOCKS5 traffic over one TCP connection opened from the
inside of a network (the *agent*, `RTunnel`) to a public host (the *proxy*,
`LTunnel`). Every client that connects to the proxy becomes a *stream*. The
stream's id is the client socket's descriptor. Its bytes travel through the
tunnel as frames `uint16 BE length | uint32 BE id | payload`, and an empty
payload means "close this stream". The agent answers the SOCKS5 greeting and
CONNECT request of each new stream itself. It then dials the target and
relays the stream's bytes. Everything runs on one single-threaded
`select` loop, and every connection is an `AsynSocket` with a read buffer, a
FIFO write queue and a write-then-close flag.

The model follows the program's own layering:

| file | module | models |
|---|---|---|
| `bytes.dfy` | `Options`, `Bytes` | byte strings, `struct.pack('>H' / '>I')` fields, `''.join` |
| `eventloop.dfy` | `Events` | `EventLoop`: the three callback tables, the timer list, one dispatch pass and one timer scan of `run` |
| `sockserver.dfy` | `SockServer` | `AsynSocket`: `Send`, `Close`, and the read, write, error, remote-close, close and destroy handlers |
| `framing.dfy` | `Framing` | `pack`, `unpack`, and the frame-by-frame split of `LTunnel.on_data` |
| `socks5.dfy` | `Socks5` | the byte-level decisions of `RTunnel._stage0` and `_stage1` (RFC 1928 sections 3 to 6, the subset the agent speaks) |
| `relay.dfy` | `Relay` | the stream table as a value: what each delivered frame and each stream-connection event does to it |
| `rsocks5.dfy` | `RSocks5` | the class `Tunnel`: `LTunnel` and `RTunnel` with `src_map`, `SrcSocket` connections and `UnformedSrc` records, proved step by step against `Relay` |

The operating system is replaced by arguments. A `recv` is a `RecvResult`
(bytes, no bytes, or an error). A `send` is a `SendResult` (the number of
bytes accepted, or an error). `Connect((host, port))` is a function
`Connector` from the address to a descriptor or to failure. `select`'s
answer is an arbitrary `Ready` value, and the clock is an integer. The
`Tunnel` invariant `Valid()` ties `src_map` to the value `Model()`, which
also holds the frames queued on the tunnel connection, the set of open
descriptors and the loop's registrations. Each `UnformedSrc` is the same
handshake record, and each `SrcSocket` is a live, valid connection of the
tunnel's own, on its own open descriptor, registered with the loop, that
serves exactly that stream. Every stream-connection and frame handler of
`Tunnel` is proved to move `Model()` exactly as the matching `Relay` function
says. The exceptions are the exit branch of `TunnelRead` (the process ends)
and the steps that have no `Relay` counterpart of their own: `TunnelWrite`,
`TunnelReceive`, `TunnelRetain`, `StoreRecord`, `Refresh`, `SrcSend`,
`SrcRetain`, `SrcTake` and `SrcWrite`, whose contracts state the new state
directly. The properties are proved once about the `Relay` functions:
framing round trips, reassembly across reads, fragmented and pipelined
handshakes, and the well-formedness of the table.

Three behaviours of the code a reader might not expect:

- A close frame for a connected stream calls `Close()`. When that stream's
  queue is empty, this destroys the connection, and its `on_destroy`
  removes the stream from `src_map` at once, without a close frame back
  (`Relay.ForwardClose`). `src_map` therefore does change.
- On the agent, a frame for an unknown id always creates a stage-0 record,
  even when it is a close frame (`Relay.AgentCloseUnknown`). That record is
  never removed unless more bytes arrive, so a stream id can exist without
  a client.
- A `SrcSocket`'s `on_destroy` sends a close frame unless that connection
  was closed locally (`closed`). It does not look at whether the tunnel is
  still there.

## Model

| member | source | states |
|---|---|---|
| Bytes.BE16 | pysocks5/rsocks5.py:182 | the two bytes of a 16-bit field read back as the same number |
| Bytes.BE32 | pysocks5/rsocks5.py:182 | the four bytes of a 32-bit field read back as the same number |
| Bytes.BE32OfRead | pysocks5/rsocks5.py:185 | reading a 32-bit field and encoding it again gives the same four bytes |
| Bytes.ConcatAppend | pysocks5/sockserver.py:56 | joining two queues one after the other is joining each and concatenating |
| Framing.Pack | pysocks5/rsocks5.py:181-182 | a frame is a 6-byte header followed by the payload itself |
| Framing.PackHeader | pysocks5/rsocks5.py:181-182 | the header of a frame reads back as the payload length and the stream id |
| Framing.CloseFrame | pysocks5/rsocks5.py:62-65 | the close signal is a bare header whose length field is 0 |
| Framing.Unpack | pysocks5/rsocks5.py:184-189 | a decoded frame's payload fits 16 bits, and the rest is exactly the suffix after it |
| Framing.UnpackIncomplete | pysocks5/rsocks5.py:185-187 | unpacking fails exactly when the header or the announced payload is incomplete |
| Framing.UnpackPack | pysocks5/rsocks5.py:181-189 | round trip: a packed frame followed by anything unpacks to its id, its payload and that rest |
| Framing.UnpackIsPacked | pysocks5/rsocks5.py:184-189 | converse round trip: what unpacking splits off is exactly `pack` of its id and payload |
| Framing.UnpackExtends | pysocks5/rsocks5.py:184-189 | bytes appended after a complete frame do not change the frame, only its rest |
| Framing.SplitRestIncomplete | pysocks5/rsocks5.py:36-40 | the buffer `on_data` keeps never starts with a complete frame |
| Framing.SplitJoins | pysocks5/rsocks5.py:35-42 | the dispatched frames, packed in order, followed by the kept rest, give back the input |
| Framing.SplitPacks | pysocks5/rsocks5.py:35-42 | frames followed by an incomplete tail are dispatched as exactly those frames, in order, keeping that tail |
| Framing.SplitStreaming | pysocks5/rsocks5.py:35-42 | splitting across reads gives the same frames and the same rest as splitting the bytes at once |
| Framing.SplitNext | pysocks5/rsocks5.py:37-42 | one loop step of `on_data` extends the dispatched frames by the next frame of the input |
| Framing.SplitDone | pysocks5/rsocks5.py:39-40 | when `unpack` fails, the loop has dispatched every frame and returns the buffer unchanged |
| Socks5.ConnectReply | pysocks5/rsocks5.py:164-174 | the CONNECT reply is `05 rep 00 01`, bound address 0.0.0.0, then the proxy port in big-endian order |
| Socks5.ParseGreeting | pysocks5/rsocks5.py:111-131 | an accepted greeting keeps as rest a proper suffix of the buffer, after at least three bytes |
| Socks5.GreetingAccepts | pysocks5/rsocks5.py:122-131 | a greeting that offers "no authentication" is accepted, with whatever follows it as the rest |
| Socks5.GreetingRefuses | pysocks5/rsocks5.py:124-127 | a complete greeting that does not offer "no authentication" is refused |
| Socks5.GreetingWrongVersion | pysocks5/rsocks5.py:124-127 | a complete greeting whose version byte is not 5 is refused |
| Socks5.GreetingPrefixWaits | pysocks5/rsocks5.py:114-120 | every proper prefix of a greeting makes stage 0 wait |
| Socks5.GreetingExtends | pysocks5/rsocks5.py:111-131 | once decided, a greeting stays decided, with the same rest plus the new bytes |
| Socks5.ParseRequest | pysocks5/rsocks5.py:136-162 | a parsed CONNECT has a 4-byte IPv4 address or a domain name shorter than 256 bytes, after at least 7 bytes |
| Socks5.RequestConnects | pysocks5/rsocks5.py:142-162 | round trip: a CONNECT request, whatever its reserved byte, parses back to its host and port, with what follows as the rest |
| Socks5.RequestRejects | pysocks5/rsocks5.py:144-146 | a wrong version, a command other than CONNECT or another address type makes the request invalid |
| Socks5.RequestPrefixWaits | pysocks5/rsocks5.py:139-158 | every proper prefix of a CONNECT request, whatever its reserved byte, makes stage 1 wait |
| Socks5.RequestExtends | pysocks5/rsocks5.py:136-162 | once decided, a request stays decided, with the same rest plus the new bytes |
| Socks5.AdvanceIncremental | pysocks5/rsocks5.py:103-134 | a handshake split into two buffers sends the same replies and ends in the same place as one buffer |
| Socks5.AdvanceWholeHandshake | pysocks5/rsocks5.py:129-162 | a greeting, a request with any reserved byte and data in one buffer give one `05 00` reply and a dial that is handed the data |
| Events.Tables.With | pysocks5/eventloop.py:38-39 | setting `(k, fd)` changes only that entry of that table |
| Events.Tables.Without | pysocks5/eventloop.py:41-42 | removing `(k, fd)` changes only that table, and changes nothing when the entry is absent |
| Events.ScanPartitions | pysocks5/eventloop.py:29-36 | a scan fires only due timers and keeps only undue ones, and together they are exactly the timers scanned |
| Events.ScanLater | pysocks5/eventloop.py:29-36 | two scans at increasing times keep what one scan at the later time keeps |
| Events.DispatchedAppend | pysocks5/eventloop.py:23-27 | dispatching two runs of slots is dispatching the first, then the second from the tables the first left |
| Events.DispatchedFromSlots | pysocks5/eventloop.py:23-27 | only descriptors `select` reported fire, each for a kind it was reported for |
| Events.DispatchKindOrder | pysocks5/eventloop.py:23-27 | callbacks fire in kind order: reads, then writes, then errors |
| Events.DispatchSkipsUnregistered | pysocks5/eventloop.py:25-27 | a descriptor with no registration left fires nothing, even when reported ready |
| Events.EventLoop.constructor | pysocks5/eventloop.py:10-12 | a new loop has three empty tables and no timers |
| Events.EventLoop.Register | pysocks5/eventloop.py:38-39 | sets `(k, fd)`, overwriting any earlier callback, and changes nothing else |
| Events.EventLoop.Unregister | pysocks5/eventloop.py:41-42 | removes only `(k, fd)`, and changes nothing when it is absent |
| Events.EventLoop.UnregisterAll | pysocks5/eventloop.py:44-46 | removes `fd` from all three tables, leaves every other descriptor's entries, and leaves `fd` unregistered |
| Events.EventLoop.IsRegistered | pysocks5/eventloop.py:48-49 | true exactly when `fd` is registered for `k` |
| Events.EventLoop.AddTimeout | pysocks5/eventloop.py:51-53 | appends one timer due `timeout` after now at the end of the list |
| Events.EventLoop.ScanTimers | pysocks5/eventloop.py:29-36 | fires the due timers in list order and keeps the others in order |
| Events.EventLoop.Dispatch | pysocks5/eventloop.py:16-27 | runs each reported descriptor's callback if it is registered at that moment, in kind order, as `Dispatched` |
| Events.EventLoop.DispatchKind | pysocks5/eventloop.py:24-27 | the inner loop over one kind's ready descriptors extends the dispatch by their slots |
| Events.Pass | pysocks5/eventloop.py:16-36 | one pass keeps only timers not yet due, adds none, and leaves a loop with no work as it is |
| Events.EventLoop.RunOnce | pysocks5/eventloop.py:16-36 | one pass dispatches only while some table is non-empty and scans only while some timer waits, moving the loop as `Pass` |
| Events.FollowsSnoc | pysocks5/eventloop.py:14-36 | a pass that starts with work and moves the loop as `Pass` extends a trace of `run` by one state (`Follows`) |
| Events.EventLoop.Run | pysocks5/eventloop.py:14-36 | the ghost `trace` satisfies `Follows`: every pass starts while some table is non-empty or some timer waits and moves the loop as `Pass` on its tick; stopping before the ticks run out means no work was left, and a loop without work runs no pass and is left unchanged |
| SockServer.Drain | pysocks5/sockserver.py:54-69 | the sent prefix and the requeued tail are together the joined queue; at most one non-empty chunk is requeued, and only if not all was sent |
| SockServer.WithSocket | pysocks5/sockserver.py:35-37 | the three registrations of `__init__` make `fd` a watched, reading connection and leave every other descriptor's entries |
| SockServer.AsynSocket.constructor | pysocks5/sockserver.py:25-39 | empty buffers, open, and registered for read, write and error |
| SockServer.AsynSocket.Send | pysocks5/sockserver.py:96-98 | queues `data` exactly when the connection is open and `data` is non-empty, and keeps the byte-order invariant |
| SockServer.AsynSocket.Destroy | pysocks5/sockserver.py:100-103 | every registration of the descriptor is dropped, then `on_destroy` runs as the last hook; nothing stops a second call on a connection already destroyed |
| SockServer.AsynSocket.HandleClose | pysocks5/sockserver.py:84-87 | `on_close`, then destroy, whether or not the connection was destroyed before |
| SockServer.AsynSocket.HandleError | pysocks5/sockserver.py:74-77 | `on_error`, then destroy, keeping the invariant |
| SockServer.AsynSocket.HandleRemoteClose | pysocks5/sockserver.py:79-82 | `on_remote_close`, then destroy, keeping the invariant |
| SockServer.AsynSocket.Close | pysocks5/sockserver.py:89-94 | marks closed; destroys at once exactly when nothing is queued, otherwise only stops reading |
| SockServer.AsynSocket.OnRead | pysocks5/sockserver.py:41-52 | new bytes go to `on_data` with the extended buffer; no bytes is a remote close and a failed `recv` an error, both destroying |
| SockServer.AsynSocket.Retain | pysocks5/sockserver.py:50 | the read buffer becomes what `on_data` returned, or empty |
| SockServer.AsynSocket.OnWrite | pysocks5/sockserver.py:54-72 | `on_sent` gets exactly the sent prefix, the unsent tail stays queued, and a closed connection is destroyed once its queue is empty; a failed send runs `on_error` and destroys, and on a closed connection goes on to `on_close` and a second destroy |
| SockServer.FailedSendHooks | pysocks5/sockserver.py:59-60 | after a failed send `on_error` and `on_destroy` come first and `on_destroy` last, and `on_close` runs exactly when the connection was closed |
| SockServer.FailedSendDestroysTwice | pysocks5/sockserver.py:59-72 | a failed send on a closed connection runs `on_destroy` twice; on an open one it runs once, exactly when it had not run before |
| SockServer.AsynSocket.OnWriteIntended | pysocks5/sockserver.py:54-72 | `_on_write` returning after `on_error`: the same draining, and `on_destroy` at most once and `on_close` only with nothing left to send are kept |
| Relay.AgentDeliverNew | pysocks5/rsocks5.py:103-109 | a frame for an unknown stream starts a stage-0 record holding its payload |
| Relay.AgentCloseUnknown | pysocks5/rsocks5.py:103-109 | a close frame for an unknown stream leaves an empty stage-0 record and sends nothing |
| Relay.AgentDeliverHeld | pysocks5/rsocks5.py:103-109 | a frame for a stream that is not connected runs the record's stage on the record's bytes plus the payload |
| Relay.ProxyIgnoresUnknown | pysocks5/rsocks5.py:48-51 | a frame for a stream the proxy does not know changes nothing |
| Relay.ForwardData | pysocks5/rsocks5.py:53-54 | data for a connected stream is queued on its connection unless it is closing; no other stream changes and nothing goes back |
| Relay.ForwardClose | pysocks5/rsocks5.py:55-56 | a close frame forgets an idle stream silently, closing its descriptor and dropping all its registrations, and otherwise marks it closing with its queue kept and its read registration dropped |
| Relay.SourceGoneNotifies | pysocks5/rsocks5.py:82-83 | a destroyed stream is forgotten, its descriptor closed and unregistered, and a close frame goes out exactly when it was not closed locally |
| Relay.SourceGoneKeepsWellFormed | pysocks5/rsocks5.py:82-83 | forgetting a connected stream, with or without telling the peer, keeps the table well formed |
| Relay.RemoveForgotten | pysocks5/rsocks5.py:62-65 | `DelSrc(id, notify=False)` for a stream already forgotten changes nothing, so a second `on_destroy` of its connection has no effect |
| Relay.SourceWriteCloses | pysocks5/sockserver.py:54-72 | a closing stream is forgotten, silently, exactly when a write empties its queue |
| Relay.ForwardKeepsWellFormed | pysocks5/rsocks5.py:53-56 | forwarding to a stream keeps the table well formed |
| Relay.DeliverKeepsWellFormed | pysocks5/rsocks5.py:47-56 | delivering a frame keeps the table well formed on either end |
| Relay.DeliverAllKeepsWellFormed | pysocks5/rsocks5.py:35-42 | delivering the frames of one `on_data` call keeps the table well formed |
| Relay.SourceEventsKeepWellFormed | pysocks5/rsocks5.py:79-83 | a stream connection's read, write and destroy keep the table well formed |
| Relay.AcceptKeepsWellFormed | pysocks5/rsocks5.py:58-60 | adding a source connection keeps the table well formed, adds its id, and sends nothing |
| Relay.DeliverAllAppend | pysocks5/rsocks5.py:36-42 | delivering two runs of frames is delivering the first, then the second |
| Relay.DeliverAllSnoc | pysocks5/rsocks5.py:36-42 | delivering one more frame after some frames |
| Relay.OnDataStreaming | pysocks5/rsocks5.py:35-42 | delivering across two reads has the same effect, and keeps the same tail, as delivering the joined bytes |
| Relay.AgentGreetingPrefix | pysocks5/rsocks5.py:103-120 | a frame holding part of a greeting opens a waiting record and sends nothing |
| Relay.AgentRefusesGreeting | pysocks5/rsocks5.py:124-127 | a greeting without "no authentication" gets `05 FF` and a close frame, and the stream is gone |
| Relay.AgentWholeHandshake | pysocks5/rsocks5.py:129-179 | a whole handshake in one frame, with any reserved byte, gives `05 00`, then either the success reply and a connected stream holding the data, or "host unreachable" and a close frame |
| Relay.HandshakeDials | pysocks5/rsocks5.py:160-179 | an accepted greeting and a parsed request in one step give both replies, then a connected stream or a removed one |
| Relay.AgentFragments | pysocks5/rsocks5.py:103-134 | a handshake split over two frames ends exactly as if its bytes had come in one frame |
| Relay.HandshakePending | pysocks5/rsocks5.py:114-120 | a waiting handshake step stores its record, sends its replies and touches no other stream |
| Relay.HandshakeSameRecord | pysocks5/rsocks5.py:109 | a handshake step depends only on the other streams, the record's bytes and the output |
| Relay.HandshakeIgnoresEntry | pysocks5/rsocks5.py:104-109 | the entry a stream holds before its stage runs does not matter to the stage |
| Relay.RequestSettles | pysocks5/rsocks5.py:136-162 | stage 1 sends nothing before its outcome: the stream settles on what the request parse decides |
| Relay.HandshakeContinues | pysocks5/rsocks5.py:129-134 | accepting the greeting, storing the stage-1 record and running stage 1 on the rest is the stage-0 step |
| RSocks5.Tunnel.constructor | pysocks5/rsocks5.py:31-33 | a new tunnel has no streams and nothing queued, its descriptor is the only open one it knows, it is registered for all three kinds, and the timers are unchanged |
| RSocks5.Tunnel.Send | pysocks5/rsocks5.py:67-68 | one frame `pack(id, data)` is queued on the tunnel connection |
| RSocks5.Tunnel.DelSrc | pysocks5/rsocks5.py:62-65 | only `id` leaves `src_map`, a close frame is queued exactly when `notify`, and a destroyed connection's descriptor leaves the open set (as `Relay.Remove`) |
| RSocks5.Tunnel.StoreRecord | pysocks5/rsocks5.py:103-107 | stores the handshake record under `id` and keeps every other stream tracked |
| RSocks5.Tunnel.Attach | pysocks5/rsocks5.py:175-176 | a new `SrcSocket` on a descriptor not yet open, registered for all three kinds, becomes stream `id` with nothing queued; the timers are unchanged |
| RSocks5.Tunnel.Adopt | pysocks5/rsocks5.py:59-60 | a registered connection with nothing queued becomes the `src_map` value of `id`, its descriptor joining the open set |
| RSocks5.Tunnel.AddSrc | pysocks5/rsocks5.py:58-60 | the accepted connection becomes the stream keyed by its descriptor, as `Relay.Accept` |
| RSocks5.Tunnel.SrcSend | pysocks5/rsocks5.py:53-54 | `src.Send(data)`: the data is queued on that stream's connection only |
| RSocks5.Tunnel.SrcRetain | pysocks5/rsocks5.py:79-80 | `SrcSocket.on_data` returns nothing, so that connection's read buffer is emptied |
| RSocks5.Tunnel.CloseSrc | pysocks5/rsocks5.py:55-56 | `src.Close()`: with nothing queued the stream is forgotten silently and its connection released and unregistered; otherwise it is kept closing, with only its read registration dropped |
| RSocks5.Tunnel.ForwardToSrc | pysocks5/rsocks5.py:53-56 | the `SrcSocket` branch of `send_to_src`, as `Relay.Forward`; a stream it forgets has its connection released and unregistered |
| RSocks5.Tunnel.ProxySendToSrc | pysocks5/rsocks5.py:47-56 | `LTunnel.send_to_src`, as `Relay.ProxyDeliver`; a stream it forgets has its connection released and unregistered |
| RSocks5.Tunnel.Stage0 | pysocks5/rsocks5.py:111-134 | `_stage0` moves the table as the stage-0 `Relay.Handshake`: wait, refuse with `05 FF`, or accept |
| RSocks5.Tunnel.RefuseGreeting | pysocks5/rsocks5.py:124-127 | `05 FF` and a close frame, and the stream is dropped, as the stage-0 `Relay.Handshake` of a refused greeting |
| RSocks5.Tunnel.AcceptGreeting | pysocks5/rsocks5.py:129-134 | `05 00`, the record moves to stage 1, and stage 1 runs on any remaining bytes |
| RSocks5.Tunnel.Stage1 | pysocks5/rsocks5.py:136-158 | `_stage1` moves the table as the stage-1 `Relay.Handshake`: wait, drop with only a close frame, or dial |
| RSocks5.Tunnel.DialTarget | pysocks5/rsocks5.py:160-179 | a failed dial sends "host unreachable" and drops the stream; a successful one goes on as `Open` |
| RSocks5.Tunnel.Open | pysocks5/rsocks5.py:174-179 | the success reply, then the new connection becomes the stream's and is sent the bytes after the request |
| RSocks5.Tunnel.AgentSendToSrc | pysocks5/rsocks5.py:94-109 | `RTunnel.send_to_src`, as `Relay.AgentDeliver`; a stream it forgets has its connection released and unregistered |
| RSocks5.Tunnel.RunStage | pysocks5/rsocks5.py:103-109 | the record `UnformedSrc(stage, buf)` is stored and its stage runs, as `Relay.Handshake` |
| RSocks5.Tunnel.SendToSrc | pysocks5/rsocks5.py:47-56 | `send_to_src` of the tunnel's role, as `Relay.Deliver`; a stream it forgets has its connection released and unregistered |
| RSocks5.Tunnel.OnData | pysocks5/rsocks5.py:35-42 | delivers exactly the frames of the buffer, in order, and returns the incomplete rest; every connection whose stream it forgot is released |
| RSocks5.Tunnel.SourceRead | pysocks5/rsocks5.py:79-83 | a stream connection's bytes go into the tunnel as one frame; its loss forgets the stream, notifying unless it was closed locally, and releases and unregisters the connection |
| RSocks5.Tunnel.SrcReceive | pysocks5/sockserver.py:41-52 | received bytes go into the tunnel as one frame of that stream, as `Relay.SourceData`, and the stream stays |
| RSocks5.Tunnel.SrcTake | pysocks5/sockserver.py:46-50 | the connection's read handler hands `on_data` exactly the received bytes and changes no stream |
| RSocks5.Tunnel.SrcHangUp | pysocks5/sockserver.py:41-52 | no bytes or a failed `recv` destroys the connection, releases and unregisters it, and forgets the stream as `Relay.SourceGone` |
| RSocks5.Tunnel.SourceWrite | pysocks5/sockserver.py:54-72 | a stream connection's write handler, with both `on_destroy` calls of a failed send on a closed connection, moves the table as `Relay.SourceWrite`; a destroyed connection is released and unregistered, and otherwise the registrations are unchanged |
| RSocks5.Tunnel.SrcWrite | pysocks5/sockserver.py:54-72 | the queue drains; when that destroys the connection, all its registrations are gone and the stream is left for `on_destroy` to forget |
| RSocks5.Tunnel.SourceError | pysocks5/rsocks5.py:82-83 | a stream connection's error destroys it, releasing and unregistering it, and its `on_destroy` forgets the stream |
| RSocks5.Tunnel.TunnelRead | pysocks5/rsocks5.py:35-45 | new bytes deliver the buffer's whole frames and keep the rest; no bytes or an error drops the tunnel's registrations and ends the process |
| RSocks5.Tunnel.TunnelReceive | pysocks5/sockserver.py:41-52 | the tunnel's read handler hands `on_data` its buffer plus the new bytes exactly when `recv` returned some, and is otherwise destroyed |
| RSocks5.Tunnel.TunnelRetain | pysocks5/sockserver.py:50 | the tunnel's read buffer becomes the rest `on_data` returned, and nothing else changes |
| RSocks5.Tunnel.TunnelWrite | pysocks5/rsocks5.py:44-45 | the tunnel connection's queue drains; a failed send destroys it, dropping its registrations, and ends the process |
| RSocks5.Tunnel.ModelWellFormed | pysocks5/rsocks5.py:89-109 | a valid tunnel's table is well formed: connections on open, registered, pairwise distinct descriptors, and the proxy end never holds handshake records |

## Findings

| source | as written | input that shows it | evidently intended | confidence | as-written member | corrected member |
|---|---|---|---|---|---|---|
| pysocks5/sockserver.py:54-72 | after a failed `send`, `_on_write` calls `_on_error` and does not return, so the test `if self.closed` at its end still runs `_on_close` | a closed connection with bytes still queued whose `send` raises: the hooks run `on_error`, `on_destroy`, `on_close`, `on_destroy`, so `on_destroy` runs twice and `on_close` runs with bytes unsent | return after `_on_error`: `on_destroy` at most once, `on_close` only with nothing left to send | high, not executed | SockServer.AsynSocket.OnWrite, SockServer.FailedSendDestroysTwice | SockServer.AsynSocket.OnWriteIntended |

The tunnel uses `OnWrite` as written, because that is what the program does. For a `SrcSocket` the second `on_destroy` is `DelSrc(id, notify=False)` on a stream already gone. `Relay.RemoveForgotten` proves that call changes nothing, so the tunnel's table moves exactly as with the intended handler. The tunnel connection itself is never closed, so it never takes this path.

## Left out

- pysocks5/asyn.py, pysocks5/logger.py, setup.py, pysocks5/test.py and the `config` module are not part of this model. Logging calls are no-ops. `config.proxy_port` is the constant field `proxyPort`.
- `Server`, `TunnelServer`, `ProxyServer`, `Connect`'s socket setup, the `test_client`/`test_server` demos and the command-line entry points are not modelled. These are listening, accepting and process start-up, all I/O. `AddSrc` and the constructor take the descriptor they would produce.
- `recv`, `send`, `connect_ex`, `select.select`, `sock.close()` and `time.time()` are arguments, not behaviour. The clock is an integer, not a float.
- `sys.exit(1)` in `LTunnel.on_destroy` is the result `exited` of the tunnel connection's handlers. Nothing is said about the table after it. The tunnel connection's error handler has no method of its own, since it is the same destroy-and-exit path.
- `socket.inet_ntoa` and `socket.inet_aton` are left out. An IPv4 host is its four raw bytes, a domain name its raw bytes, and `0.0.0.0` four zero bytes.
- The wiring of each connection's handlers into `EventLoop` callbacks is not modelled. The tables record which of the three handlers of the descriptor's connection a registration calls. `Dispatch` takes the effect of a callback on the tables as an argument. The tunnel handlers (`TunnelRead`, `SourceRead`, …) are separate methods, which such a callback would call.
- Events.EventLoop.ScanTimers: a fired timer's callback is returned in order but not run. A callback that adds a timer during the scan is not modelled.
- Events.EventLoop.Dispatch: a callback's effect (`Reaction`) is a change to the tables only. A source callback may also call `add_timeout`, which a `Reaction` cannot express.
- Events.EventLoop.Run: runs at most one pass per element of `ticks`, because `run` itself may never return. The sequence of states between passes is a ghost `trace`.
- An `UnformedSrc` is modelled as a value (`Peer.Unformed`) that `_stage0`/`_stage1` replace in `src_map`, not as an object updated in place. Nothing else holds a reference to it.
- The tunnel's connection is a field `sock` of `Tunnel`, not a base class. The `SrcSocket` subclass is an `AsynSocket` whose `on_data`/`on_destroy` reactions the tunnel runs when the connection's handler returns.
- RSocks5.Tunnel.AddSrc: requires the proxy role and a descriptor that is not open. Only `LTunnel` accepts clients, and the operating system never returns a descriptor that is still open.
- RSocks5.Tunnel.Open: requires the dialled descriptor not to be open, for the same reason. `Relay.Connector` carries the same promise.
- RSocks5.Tunnel.OnData: states only that a connection whose stream a frame forgot has been released, not that it stays unregistered. A later frame of the same buffer may dial and receive the same descriptor back, which the system may reuse once it is closed; the registrations are stated exactly by the `Model()` equation.
- RSocks5.Tunnel.AddSrc: requires the descriptor to be below 2^32. A larger one would make `pack` raise `struct.error` on its first frame, and that path is not modelled.
- RSocks5.Tunnel.SourceRead, RSocks5.Tunnel.TunnelRead and SockServer.AsynSocket.OnRead: a received chunk is at most 4096 bytes, the `recv` size. This keeps every re-framed chunk within the 16-bit length field.
- Stream-connection handlers require that the connection has not been destroyed. A destroyed connection has no registrations left, so the loop never calls them (`Events.DispatchSkipsUnregistered`).
- Socks5.ParseRequest: states the bounds of a parsed request but not that `rest` is the suffix after the port. The exact rest is stated by `Socks5.RequestConnects` for well-formed requests.
- The `on_sent`, `on_error`, `on_remote_close` and `on_close` hooks do nothing in this program. They appear only as entries of the ghost trace `hooks`.
