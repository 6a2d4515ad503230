/**
 * The stream table of the tunnel in pysocks5/rsocks5.py as a state machine
 * over values: which streams exist, what each holds (a handshake record on
 * the agent side, or the state of its connection), and the frames queued on
 * the tunnel connection. `LTunnel` (the proxy end) and `RTunnel` (the agent
 * end) differ only in how a frame is delivered to its stream. The class
 * `RSocks5.Tunnel` is proved to follow these functions step by step.
 */
module Relay {
  import opened Options
  import opened Bytes
  import opened Framing
  import opened Socks5
  import opened Events
  import opened SockServer

  /** `LTunnel` runs on the proxy, `RTunnel` on the agent. */
  datatype Role = Proxy | Agent

  /** What the tunnel can see of a stream's connection: descriptor, write queue, `closed`. */
  datatype Link = Link(fd: Fd, writeBuf: seq<bytes>, closed: bool)

  /** A `src_map` entry: an agent-side `UnformedSrc` record, or a `SrcSocket`. */
  datatype Stream = Handshaking(stage: Stage, buf: bytes) | Connected(link: Link)

  /**
   * The stream table, the tunnel connection's write queue, the descriptors
   * that are open (the tunnel connection's and those of the stream
   * connections not yet destroyed) and the registrations of the event loop.
   */
  datatype State = State(streams: map<uint32, Stream>, out: seq<bytes>, open: set<Fd>, tables: Tables)

  /**
   * `Connect(addr)` while the descriptors `open` are in use: the descriptor
   * of the new connection, or `None` when it raised. The operating system
   * never hands out a descriptor that is still open.
   */
  type Connector = f: (Host, uint16, set<Fd>) -> Option<Fd> | forall h, port, open :: f(h, port, open).Some? ==> f(h, port, open).value !in open
    witness (h: Host, port: uint16, open: set<Fd>) => None

  // --------------------------------------------------------- stream table

  /** `LTunnel.Send(id, data)`: one frame queued on the tunnel connection. */
  function Emit(s: State, id: uint32, data: bytes): State
    requires |data| <= MaxPayload
  {
    s.(out := s.out + [Pack(id, data)])
  }

  /**
   * `DelSrc(id, notify)`: the stream is forgotten, and the peer told with a
   * close frame if `notify`. A connected stream is forgotten only from its
   * connection's `on_destroy`, so by then its descriptor has been
   * unregistered from the loop and closed.
   */
  function Remove(s: State, id: uint32, notify: bool): State
  {
    var out := if notify then s.out + [CloseFrame(id)] else s.out;
    if id in s.streams && s.streams[id].Connected? then
      var fd := s.streams[id].link.fd;
      State(s.streams - {id}, out, s.open - {fd}, s.tables.WithoutAll(fd))
    else
      s.(streams := s.streams - {id}, out := out)
  }

  /**
   * A second `on_destroy` of a connection whose stream is already forgotten
   * (`DelSrc(id, notify=False)` once more) changes nothing.
   */
  lemma RemoveForgotten(s: State, id: uint32)
    requires id !in s.streams
    ensures Remove(s, id, false) == s
  {
    assert s.streams - {id} == s.streams;
  }

  /** `AsynSocket.Send` on a stream's connection. */
  function Queue(l: Link, data: bytes): Link
  {
    if !l.closed && data != [] then l.(writeBuf := l.writeBuf + [data]) else l
  }

  /**
   * `Close()` on a stream's connection. With nothing queued it is destroyed
   * at once, and its `on_destroy` forgets the stream without a close frame,
   * as the connection is already marked closed; otherwise it stays, closing,
   * and stops reading.
   */
  function CloseLink(s: State, id: uint32, l: Link): State
  {
    if l.writeBuf == [] then Remove(s, id, false)
    else s.(streams := s.streams[id := Connected(l.(closed := true))], tables := s.tables.Without(Read, l.fd))
  }

  /** The `SrcSocket` branch of `send_to_src`: data is queued, an empty payload closes. */
  function Forward(s: State, id: uint32, l: Link, payload: bytes): State
  {
    if payload != [] then s.(streams := s.streams[id := Connected(Queue(l, payload))])
    else CloseLink(s, id, l)
  }

  /**
   * `LTunnel.send_to_src`: a frame for an unknown stream is dropped. (The
   * proxy end never holds handshake records, so the last case does not arise.)
   */
  function ProxyDeliver(s: State, f: Frame): State
  {
    if f.id !in s.streams then s
    else
      match s.streams[f.id]
      case Connected(l) => Forward(s, f.id, l, f.payload)
      case Handshaking(_, _) => s
  }

  /** The frames carrying `replies` on stream `id`, in order. */
  function Packed(id: uint32, replies: seq<Payload>): seq<bytes>
  {
    if replies == [] then [] else [Pack(id, replies[0])] + Packed(id, replies[1..])
  }

  lemma {:induction false} PackedAppend(id: uint32, a: seq<Payload>, b: seq<Payload>)
    ensures Packed(id, a + b) == Packed(id, a) + Packed(id, b)
  {
    if a == [] {
      assert a + b == b;
    } else {
      assert (a + b)[1..] == a[1..] + b;
      PackedAppend(id, a[1..], b);
    }
  }

  lemma PackedSingle(id: uint32, r: Payload)
    ensures Packed(id, [r]) == [Pack(id, r)]
  {
    assert [r][1..] == [];
  }

  /**
   * `_stage0` / `_stage1` on the record of stream `id` holding `buf`: the
   * SOCKS replies go out as frames; then the record is kept, or the stream
   * is dropped with a close frame, or the target is dialled.
   */
  function Handshake(s: State, id: uint32, stage: Stage, buf: bytes, connect: Connector, proxyPort: uint16): State
  {
    var step := Advance(stage, buf);
    Settle(s.(out := s.out + Packed(id, step.replies)), id, step.next, connect, proxyPort)
  }

  /** The end of a handshake step, once its replies are queued: keep the record, drop the stream, or dial. */
  function Settle(s: State, id: uint32, next: Next, connect: Connector, proxyPort: uint16): State
  {
    match next
    case Pending(st, b) => s.(streams := s.streams[id := Handshaking(st, b)])
    case Drop => Remove(s, id, true)
    case Dial(h, port, rest) => Dialled(s, id, h, port, rest, connect, proxyPort)
  }

  /** Stage 1 sends no reply of its own: the stream settles on the outcome of the request. */
  lemma RequestSettles(s: State, id: uint32, buf: bytes, connect: Connector, proxyPort: uint16)
    ensures Handshake(s, id, 1, buf, connect, proxyPort) == Settle(s, id, RequestStep(buf).next, connect, proxyPort)
  {
    assert s.(out := s.out + Packed(id, [])) == s;
  }

  /**
   * Dialling the target of a CONNECT request on stream `id`: a failed dial
   * answers "host unreachable" and drops the stream; a successful one
   * answers "succeeded" and makes the stream connected, with the bytes that
   * followed the request already queued towards the target.
   */
  function Dialled(s: State, id: uint32, h: Host, port: uint16, rest: bytes, connect: Connector, proxyPort: uint16): State
  {
    match connect(h, port, s.open)
    case None => Remove(Emit(s, id, ConnectReply(RepHostUnreachable, proxyPort)), id, true)
    case Some(fd) => Opened(s, id, fd, rest, proxyPort)
  }

  /** A successful dial on `fd`: the "succeeded" reply, and the stream connected with `rest` queued. */
  function Opened(s: State, id: uint32, fd: Fd, rest: bytes, proxyPort: uint16): State
  {
    var u := Emit(s, id, ConnectReply(RepSucceeded, proxyPort));
    u.(streams := u.streams[id := Connected(Queue(Link(fd, [], false), rest))], open := u.open + {fd},
       tables := WithSocket(u.tables, fd))
  }

  /** The stage and buffer the agent works on for `id`: its record, or a new stage-0 record. */
  function Record(s: State, id: uint32): (Stage, bytes)
    requires id !in s.streams || s.streams[id].Handshaking?
  {
    if id in s.streams then (s.streams[id].stage, s.streams[id].buf) else (0, [])
  }

  /**
   * `RTunnel.send_to_src`: a connected stream is served like on the proxy;
   * otherwise the payload is appended to the stream's record (created at
   * stage 0 if the id is new, even for an empty payload) and the record's
   * current stage runs.
   */
  function AgentDeliver(s: State, f: Frame, connect: Connector, proxyPort: uint16): State
  {
    if f.id in s.streams && s.streams[f.id].Connected? then
      Forward(s, f.id, s.streams[f.id].link, f.payload)
    else
      var (stage, buf) := Record(s, f.id);
      Handshake(s, f.id, stage, buf + f.payload, connect, proxyPort)
  }

  /** A frame for a stream the agent does not know starts a stage-0 record with its payload. */
  lemma AgentDeliverNew(s: State, f: Frame, connect: Connector, proxyPort: uint16)
    requires f.id !in s.streams
    ensures AgentDeliver(s, f, connect, proxyPort) == Handshake(s, f.id, 0, f.payload, connect, proxyPort)
  {
    assert [] + f.payload == f.payload;
  }

  /**
   * A close frame for a stream the agent does not know is not ignored: it
   * leaves an empty stage-0 record behind, and sends nothing.
   */
  lemma AgentCloseUnknown(s: State, id: uint32, connect: Connector, proxyPort: uint16)
    requires id !in s.streams
    ensures AgentDeliver(s, Frame(id, []), connect, proxyPort) == s.(streams := s.streams[id := Handshaking(0, [])])
  {
    AgentDeliverNew(s, Frame(id, []), connect, proxyPort);
    assert ParseGreeting([]) == GreetingWait;
  }

  /** `send_to_src` of the tunnel's own class. */
  function Deliver(role: Role, s: State, f: Frame, connect: Connector, proxyPort: uint16): State
  {
    if role == Proxy then ProxyDeliver(s, f) else AgentDeliver(s, f, connect, proxyPort)
  }

  /** The frames of one `on_data` call delivered one after the other. */
  function DeliverAll(role: Role, s: State, frames: seq<Frame>, connect: Connector, proxyPort: uint16): State
    decreases |frames|
  {
    if frames == [] then s
    else DeliverAll(role, Deliver(role, s, frames[0], connect, proxyPort), frames[1..], connect, proxyPort)
  }

  // ---------------------------------------------------------- source side

  /** `LTunnel.AddSrc`: a new connection becomes a connected stream under its id, with nothing queued. */
  function Accept(s: State, id: uint32, fd: Fd): State
  {
    s.(streams := s.streams[id := Connected(Link(fd, [], false))], open := s.open + {fd},
       tables := WithSocket(s.tables, fd))
  }


  /** `SrcSocket.on_data`: what a stream's connection received goes into the tunnel as one frame. */
  function SourceData(s: State, id: uint32, data: bytes): State
    requires |data| <= MaxPayload
  {
    Emit(s, id, data)
  }

  /** `SrcSocket.on_destroy`: the stream is forgotten; the peer is told unless the stream was closed locally. */
  function SourceGone(s: State, id: uint32, closed: bool): State
  {
    Remove(s, id, !closed)
  }

  /** The read handler of a stream's connection, by what `recv` did. */
  function SourceRead(s: State, id: uint32, r: RecvResult): State
    requires id in s.streams && s.streams[id].Connected?
    requires r.Received? ==> |r.data| <= RecvSize
  {
    if r.Received? && r.data != [] then SourceData(s, id, r.data)
    else SourceGone(s, id, s.streams[id].link.closed)
  }

  /**
   * The write handler of a stream's connection, by what `send` did: the
   * queue drains; a failed send is an error; a closing connection whose
   * queue has emptied finishes closing.
   */
  function SourceWrite(s: State, id: uint32, res: SendResult): State
    requires id in s.streams && s.streams[id].Connected?
  {
    var l := s.streams[id].link;
    if l.writeBuf != [] && res.SendFailed? then SourceGone(s, id, l.closed)
    else
      var queue := if l.writeBuf == [] then [] else Drain(l.writeBuf, res.n).rest;
      if queue == [] && l.closed then SourceGone(s, id, true)
      else s.(streams := s.streams[id := Connected(l.(writeBuf := queue))])
  }

  // ----------------------------------------------------------- properties

  /** A connection's invariant, as the tunnel sees it: no empty chunk queued, and not closed with nothing to send. */
  predicate LinkOk(l: Link)
  {
    (forall c :: c in l.writeBuf ==> c != []) && !(l.closed && l.writeBuf == [])
  }

  /** The descriptor of stream `id`'s connection, if it has one. */
  function FdOf(s: State, id: uint32): Option<Fd>
  {
    if id in s.streams && s.streams[id].Connected? then Some(s.streams[id].link.fd) else None
  }

  /** A connected stream's link: `LinkOk`, on an open descriptor, registered as a live connection that is closed or not. */
  predicate LinkWellFormed(s: State, l: Link)
  {
    LinkOk(l) && l.fd in s.open && Watched(s.tables, l.fd, !l.closed)
  }

  /**
   * Every connected stream's link is well formed and its descriptor belongs
   * to no other stream; on the proxy every stream is connected.
   */
  predicate WellFormed(role: Role, s: State)
  {
    && (forall id :: id in s.streams ==>
          (s.streams[id].Connected? ==> LinkWellFormed(s, s.streams[id].link))
          && (role == Proxy ==> s.streams[id].Connected?))
    && (forall i, j :: FdOf(s, i).Some? && FdOf(s, i) == FdOf(s, j) ==> i == j)
  }

  /**
   * A change confined to the entry of stream `id` keeps the table well
   * formed when the other streams' descriptors stay open and the new entry
   * is well formed, on a descriptor that is open and no other stream's.
   */
  lemma WellFormedAt(role: Role, s: State, t: State, id: uint32)
    requires WellFormed(role, s)
    requires forall j :: j != id ==> (j in t.streams <==> j in s.streams) && (j in s.streams ==> t.streams[j] == s.streams[j])
    requires forall j :: j != id && FdOf(s, j).Some? ==> FdOf(s, j).value in t.open && SameAt(s.tables, t.tables, FdOf(s, j).value)
    requires id in t.streams && role == Proxy ==> t.streams[id].Connected?
    requires FdOf(t, id).Some? ==> && LinkWellFormed(t, t.streams[id].link)
                                   && forall j :: j != id ==> FdOf(s, j) != FdOf(t, id)
    ensures WellFormed(role, t)
  {
    forall j | j != id
      ensures FdOf(t, j) == FdOf(s, j)
    {
    }
    forall j | j in t.streams && t.streams[j].Connected?
      ensures LinkWellFormed(t, t.streams[j].link)
    {
      assert FdOf(t, j) == Some(t.streams[j].link.fd);
    }
  }

  /** A connected stream changes its link, on the same descriptor, or is forgotten. */
  lemma ForwardKeepsWellFormed(role: Role, s: State, id: uint32, l: Link, payload: bytes)
    requires WellFormed(role, s) && id in s.streams && s.streams[id] == Connected(l)
    ensures WellFormed(role, Forward(s, id, l, payload))
  {
    var t := Forward(s, id, l, payload);
    forall j | j != id && FdOf(s, j).Some?
      ensures FdOf(s, j).value in t.open
    {
      assert FdOf(s, j) != FdOf(s, id);
    }
    if id in t.streams {
      assert FdOf(t, id) == FdOf(s, id);
      forall j | j != id
        ensures FdOf(s, j) != FdOf(t, id)
      {
      }
    }
    WellFormedAt(role, s, t, id);
  }

  /** On the agent, a handshake step on a stream that is not connected keeps the table well formed. */
  lemma HandshakeKeepsWellFormed(s: State, id: uint32, stage: Stage, buf: bytes, connect: Connector, proxyPort: uint16)
    requires WellFormed(Agent, s) && Unconnected(s, id)
    ensures WellFormed(Agent, Handshake(s, id, stage, buf, connect, proxyPort))
  {
    var step := Advance(stage, buf);
    var u := s.(out := s.out + Packed(id, step.replies));
    var t := Handshake(s, id, stage, buf, connect, proxyPort);
    if step.next.Dial? {
      var dialled := connect(step.next.host, step.next.port, u.open);
      if dialled.Some? {
        forall j | j != id
          ensures FdOf(s, j) != FdOf(t, id)
        {
        }
      }
    }
    WellFormedAt(Agent, s, t, id);
  }

  /** Delivering a frame keeps the table well formed, on either end. */
  lemma DeliverKeepsWellFormed(role: Role, s: State, f: Frame, connect: Connector, proxyPort: uint16)
    requires WellFormed(role, s)
    ensures WellFormed(role, Deliver(role, s, f, connect, proxyPort))
  {
    if f.id in s.streams && s.streams[f.id].Connected? {
      ForwardKeepsWellFormed(role, s, f.id, s.streams[f.id].link, f.payload);
    } else if role == Agent {
      var (stage, buf) := Record(s, f.id);
      HandshakeKeepsWellFormed(s, f.id, stage, buf + f.payload, connect, proxyPort);
    }
  }

  lemma {:induction false} DeliverAllKeepsWellFormed(role: Role, s: State, frames: seq<Frame>, connect: Connector, proxyPort: uint16)
    requires WellFormed(role, s)
    ensures WellFormed(role, DeliverAll(role, s, frames, connect, proxyPort))
    decreases |frames|
  {
    if frames != [] {
      DeliverKeepsWellFormed(role, s, frames[0], connect, proxyPort);
      DeliverAllKeepsWellFormed(role, Deliver(role, s, frames[0], connect, proxyPort), frames[1..], connect, proxyPort);
    }
  }

  /** Forgetting a connected stream keeps the table well formed, whether or not the peer is told. */
  lemma SourceGoneKeepsWellFormed(role: Role, s: State, id: uint32, closed: bool)
    requires WellFormed(role, s) && id in s.streams && s.streams[id].Connected?
    ensures WellFormed(role, SourceGone(s, id, closed))
  {
    var l := s.streams[id].link;
    forall j | j != id && FdOf(s, j).Some?
      ensures FdOf(s, j).value in s.open - {l.fd}
    {
      assert FdOf(s, j) != FdOf(s, id);
    }
    WellFormedAt(role, s, SourceGone(s, id, closed), id);
  }

  /** The handlers of a stream's connection keep the table well formed. */
  lemma SourceEventsKeepWellFormed(role: Role, s: State, id: uint32, r: RecvResult, res: SendResult)
    requires WellFormed(role, s) && id in s.streams && s.streams[id].Connected?
    requires r.Received? ==> |r.data| <= RecvSize
    ensures WellFormed(role, SourceRead(s, id, r))
    ensures WellFormed(role, SourceWrite(s, id, res))
    ensures WellFormed(role, SourceGone(s, id, s.streams[id].link.closed))
  {
    var l := s.streams[id].link;
    SourceGoneKeepsWellFormed(role, s, id, l.closed);
    SourceGoneKeepsWellFormed(role, s, id, true);
    if r.Received? && r.data != [] {
      var t := SourceRead(s, id, r);
      assert t.streams == s.streams && t.open == s.open && t.tables == s.tables;
      forall i
        ensures FdOf(t, i) == FdOf(s, i)
      {
      }
    }
    var t := SourceWrite(s, id, res);
    if id in t.streams {
      assert FdOf(t, id) == FdOf(s, id);
      WellFormedAt(role, s, t, id);
    }
  }

  /** A newly accepted connection keeps the table well formed and queues nothing on the tunnel. */
  lemma AcceptKeepsWellFormed(role: Role, s: State, id: uint32, fd: Fd)
    requires WellFormed(role, s) && fd !in s.open && Unconnected(s, id)
    ensures WellFormed(role, Accept(s, id, fd))
    ensures Accept(s, id, fd).out == s.out && Accept(s, id, fd).streams.Keys == s.streams.Keys + {id}
  {
    WellFormedAt(role, s, Accept(s, id, fd), id);
  }

  /** Delivering `a + b` is delivering `a`, then `b`. */
  lemma {:induction false} DeliverAllAppend(role: Role, s: State, a: seq<Frame>, b: seq<Frame>, connect: Connector, proxyPort: uint16)
    ensures DeliverAll(role, s, a + b, connect, proxyPort)
         == DeliverAll(role, DeliverAll(role, s, a, connect, proxyPort), b, connect, proxyPort)
    decreases |a|
  {
    if a == [] {
      assert a + b == b;
    } else {
      assert (a + b)[1..] == a[1..] + b;
      DeliverAllAppend(role, Deliver(role, s, a[0], connect, proxyPort), a[1..], b, connect, proxyPort);
    }
  }

  /** Delivering one more frame after `frames`. */
  lemma DeliverAllSnoc(role: Role, s: State, frames: seq<Frame>, f: Frame, connect: Connector, proxyPort: uint16)
    ensures DeliverAll(role, s, frames + [f], connect, proxyPort)
         == Deliver(role, DeliverAll(role, s, frames, connect, proxyPort), f, connect, proxyPort)
  {
    DeliverAllAppend(role, s, frames, [f], connect, proxyPort);
    assert [f][1..] == [];
  }

  /**
   * Reassembly across reads: handling the frames of `x`, keeping the
   * incomplete tail, and handling the frames of that tail followed by the
   * next bytes `y` has the same effect as handling `x + y` in one go, and
   * leaves the same tail.
   */
  lemma OnDataStreaming(role: Role, s: State, x: bytes, y: bytes, connect: Connector, proxyPort: uint16)
    ensures var first := Split(x);
            var second := Split(first.rest + y);
            DeliverAll(role, DeliverAll(role, s, first.frames, connect, proxyPort), second.frames, connect, proxyPort)
              == DeliverAll(role, s, Split(x + y).frames, connect, proxyPort)
            && second.rest == Split(x + y).rest
  {
    SplitStreaming(x, y);
    DeliverAllAppend(role, s, Split(x).frames, Split(Split(x).rest + y).frames, connect, proxyPort);
  }

  /** A frame for a stream the proxy does not know changes nothing. */
  lemma ProxyIgnoresUnknown(s: State, f: Frame, connect: Connector, proxyPort: uint16)
    requires f.id !in s.streams
    ensures Deliver(Proxy, s, f, connect, proxyPort) == s
  {
  }

  /**
   * Data for a connected stream is queued on its connection, unless that
   * connection is closing; nothing else changes and nothing is sent back.
   */
  lemma ForwardData(role: Role, s: State, f: Frame, connect: Connector, proxyPort: uint16)
    requires f.id in s.streams && s.streams[f.id].Connected? && f.payload != []
    ensures var l := s.streams[f.id].link;
            var t := Deliver(role, s, f, connect, proxyPort);
            t.out == s.out && t.open == s.open && t.tables == s.tables && t.streams.Keys == s.streams.Keys
            && (forall j :: j in s.streams && j != f.id ==> t.streams[j] == s.streams[j])
            && t.streams[f.id] == Connected(if l.closed then l else l.(writeBuf := l.writeBuf + [f.payload]))
  {
  }

  /**
   * A close frame for a connected stream: with nothing queued the stream is
   * forgotten at once and no close frame goes back; otherwise it is marked
   * closing and keeps its queue.
   */
  lemma ForwardClose(role: Role, s: State, f: Frame, connect: Connector, proxyPort: uint16)
    requires f.id in s.streams && s.streams[f.id].Connected? && f.payload == []
    ensures var l := s.streams[f.id].link;
            var t := Deliver(role, s, f, connect, proxyPort);
            t.out == s.out
            && (l.writeBuf == [] ==> t.streams == s.streams - {f.id} && t.open == s.open - {l.fd}
                                     && t.tables == s.tables.WithoutAll(l.fd))
            && (l.writeBuf != [] ==> t.streams == s.streams[f.id := Connected(l.(closed := true))] && t.open == s.open
                                     && t.tables == s.tables.Without(Read, l.fd))
  {
  }

  /**
   * A stream whose connection went away is forgotten, and its descriptor is
   * no longer open; the peer gets a close frame iff it was not closed locally.
   */
  lemma SourceGoneNotifies(s: State, id: uint32, closed: bool)
    ensures id !in SourceGone(s, id, closed).streams
    ensures SourceGone(s, id, closed).out == s.out + (if closed then [] else [CloseFrame(id)])
    ensures FdOf(s, id).Some? ==> && SourceGone(s, id, closed).open == s.open - {FdOf(s, id).value}
                                  && SourceGone(s, id, closed).tables == s.tables.WithoutAll(FdOf(s, id).value)
  {
  }

  /**
   * A closing stream is forgotten, silently, exactly when a write empties
   * its queue; a partial write keeps it with the unsent tail as one chunk.
   */
  lemma SourceWriteCloses(s: State, id: uint32, n: nat)
    requires id in s.streams && s.streams[id].Connected?
    requires s.streams[id].link.closed && s.streams[id].link.writeBuf != []
    ensures var l := s.streams[id].link;
            var t := SourceWrite(s, id, Accepted(n));
            t.out == s.out
            && (n >= |Concat(l.writeBuf)| ==> t.streams == s.streams - {id})
            && (n < |Concat(l.writeBuf)| ==> t.streams == s.streams[id := Connected(l.(writeBuf := [Concat(l.writeBuf)[n..]]))])
  {
  }

  /** On the agent, a frame whose bytes are a proper prefix of a greeting opens a waiting record and sends nothing. */
  lemma AgentGreetingPrefix(s: State, id: uint32, methods: bytes, k: nat, connect: Connector, proxyPort: uint16)
    requires id !in s.streams
    requires |methods| < 0x100 && k < |GreetingBytes(methods)|
    ensures var p := GreetingBytes(methods)[..k];
            Deliver(Agent, s, Frame(id, p), connect, proxyPort) == s.(streams := s.streams[id := Handshaking(0, p)])
  {
    var p := GreetingBytes(methods)[..k];
    GreetingPrefixWaits(methods, k);
    assert [] + p == p;
  }

  /** On the agent, a complete greeting without "no authentication" is refused and the stream closed. */
  lemma AgentRefusesGreeting(s: State, id: uint32, methods: bytes, tail: bytes, connect: Connector, proxyPort: uint16)
    requires id !in s.streams
    requires |methods| < 0x100 && MethodNoAuth !in methods && |methods| + |tail| >= 1
    requires |GreetingBytes(methods) + tail| <= MaxPayload
    ensures Deliver(Agent, s, Frame(id, GreetingBytes(methods) + tail), connect, proxyPort)
         == s.(out := s.out + [Pack(id, GreetingRefused), CloseFrame(id)])
  {
    var p := GreetingBytes(methods) + tail;
    AgentDeliverNew(s, Frame(id, p), connect, proxyPort);
    assert Advance(0, p) == HandshakeStep([GreetingRefused], Drop) by {
      GreetingRefuses(methods, tail);
    }
    PackedSingle(id, GreetingRefused);
    assert s.streams - {id} == s.streams;
  }

  /**
   * On the agent, a greeting, a CONNECT request and application bytes in one
   * frame: `05 00`, then — if the dial succeeds — the success reply and a
   * connected stream that already queues the application bytes; if it
   * fails, the "host unreachable" reply and a close frame.
   */
  lemma AgentWholeHandshake(s: State, id: uint32, methods: bytes, rsv: byte, h: Host, port: uint16, tail: bytes,
                            connect: Connector, proxyPort: uint16)
    requires id !in s.streams
    requires |methods| < 0x100 && MethodNoAuth in methods && WellFormedHost(h)
    requires |GreetingBytes(methods) + RequestBytes(rsv, h, port) + tail| <= MaxPayload
    ensures var t := Deliver(Agent, s, Frame(id, GreetingBytes(methods) + RequestBytes(rsv, h, port) + tail), connect, proxyPort);
            var dialled := connect(h, port, s.open);
            && (dialled.Some? ==>
                  t == State(s.streams[id := Connected(Link(dialled.value, if tail == [] then [] else [tail], false))],
                             s.out + [Pack(id, GreetingOk), Pack(id, ConnectReply(RepSucceeded, proxyPort))],
                             s.open + {dialled.value}, WithSocket(s.tables, dialled.value)))
            && (dialled.None? ==>
                  t == s.(out := s.out + [Pack(id, GreetingOk), Pack(id, ConnectReply(RepHostUnreachable, proxyPort)), CloseFrame(id)]))
  {
    var p := GreetingBytes(methods) + RequestBytes(rsv, h, port) + tail;
    AgentDeliverNew(s, Frame(id, p), connect, proxyPort);
    assert Advance(0, p) == HandshakeStep([GreetingOk], Dial(h, port, tail)) by {
      AdvanceWholeHandshake(methods, rsv, h, port, tail);
    }
    HandshakeDials(s, id, p, h, port, tail, connect, proxyPort);
  }

  /** A greeting accepted and a request parsed in one step: the two replies, then connected or dropped. */
  lemma HandshakeDials(s: State, id: uint32, buf: bytes, h: Host, port: uint16, tail: bytes,
                       connect: Connector, proxyPort: uint16)
    requires id !in s.streams
    requires Advance(0, buf) == HandshakeStep([GreetingOk], Dial(h, port, tail))
    ensures var t := Handshake(s, id, 0, buf, connect, proxyPort);
            var dialled := connect(h, port, s.open);
            && (dialled.Some? ==>
                  t == State(s.streams[id := Connected(Link(dialled.value, if tail == [] then [] else [tail], false))],
                             s.out + [Pack(id, GreetingOk), Pack(id, ConnectReply(RepSucceeded, proxyPort))],
                             s.open + {dialled.value}, WithSocket(s.tables, dialled.value)))
            && (dialled.None? ==>
                  t == s.(out := s.out + [Pack(id, GreetingOk), Pack(id, ConnectReply(RepHostUnreachable, proxyPort)), CloseFrame(id)]))
  {
    PackedSingle(id, GreetingOk);
    assert s.streams - {id} == s.streams;
    assert [] + [tail] == [tail];
  }

  /** Stream `id` is not connected: it holds a handshake record, or is unknown. */
  predicate Unconnected(s: State, id: uint32)
  {
    id in s.streams ==> s.streams[id].Handshaking?
  }

  /** Stream `id` holds the handshake record `(stage, buf)`, or is unknown and so starts from `(0, [])`. */
  predicate Holds(s: State, id: uint32, stage: Stage, buf: bytes)
  {
    if id in s.streams then s.streams[id] == Handshaking(stage, buf) else stage == 0 && buf == []
  }

  /** On the agent, a frame for a stream that is not connected runs the handshake on the record and the payload. */
  lemma AgentDeliverHeld(s: State, f: Frame, stage: Stage, buf: bytes, connect: Connector, proxyPort: uint16)
    requires Holds(s, f.id, stage, buf)
    ensures AgentDeliver(s, f, connect, proxyPort) == Handshake(s, f.id, stage, buf + f.payload, connect, proxyPort)
  {
    assert [] + f.payload == f.payload;
  }

  /**
   * On the agent, a handshake split over two frames ends exactly as if its
   * bytes had come in one: the same replies, in the same order, and the
   * same record, connection or removal. This holds whenever the first
   * frame leaves the handshake waiting for more bytes.
   */
  lemma AgentFragments(s: State, id: uint32, stage: Stage, buf: bytes, p1: Payload, p2: Payload,
                       connect: Connector, proxyPort: uint16)
    requires Holds(s, id, stage, buf)
    requires Advance(stage, buf + p1).next.Pending?
    ensures AgentDeliver(AgentDeliver(s, Frame(id, p1), connect, proxyPort), Frame(id, p2), connect, proxyPort)
         == Handshake(s, id, stage, buf + p1 + p2, connect, proxyPort)
  {
    var t := AgentDeliver(s, Frame(id, p1), connect, proxyPort);
    assert t == Handshake(s, id, stage, buf + p1, connect, proxyPort) by {
      AgentDeliverHeld(s, Frame(id, p1), stage, buf, connect, proxyPort);
    }
    var first := Advance(stage, buf + p1);
    assert t.streams - {id} == s.streams - {id} && t.open == s.open && t.tables == s.tables
           && t.out == s.out + Packed(id, first.replies)
           && Holds(t, id, first.next.stage, first.next.buf) by {
      HandshakePending(s, id, stage, buf + p1, connect, proxyPort);
    }
    var second := Advance(first.next.stage, first.next.buf + p2);
    var whole := Advance(stage, buf + p1 + p2);
    assert first.replies + second.replies == whole.replies && second.next == whole.next by {
      AdvanceIncremental(stage, buf + p1, p2);
    }
    assert t.out + Packed(id, second.replies) == s.out + Packed(id, whole.replies) by {
      PackedAppend(id, first.replies, second.replies);
    }
    assert AgentDeliver(t, Frame(id, p2), connect, proxyPort)
        == Handshake(t, id, first.next.stage, first.next.buf + p2, connect, proxyPort) by {
      AgentDeliverHeld(t, Frame(id, p2), first.next.stage, first.next.buf, connect, proxyPort);
    }
    assert Handshake(t, id, first.next.stage, first.next.buf + p2, connect, proxyPort)
        == Handshake(s, id, stage, buf + p1 + p2, connect, proxyPort) by {
      HandshakeSameRecord(s, t, id, first.next.stage, first.next.buf + p2, stage, buf + p1 + p2, connect, proxyPort);
    }
  }

  /** A handshake step that waits for more bytes has stored the step's record and sent its replies. */
  lemma HandshakePending(s: State, id: uint32, stage: Stage, buf: bytes, connect: Connector, proxyPort: uint16)
    requires Advance(stage, buf).next.Pending?
    ensures var step := Advance(stage, buf);
            var t := Handshake(s, id, stage, buf, connect, proxyPort);
            && t.streams - {id} == s.streams - {id} && t.open == s.open && t.tables == s.tables
            && t.out == s.out + Packed(id, step.replies)
            && Holds(t, id, step.next.stage, step.next.buf)
  {
    var step := Advance(stage, buf);
    var x := Handshaking(step.next.stage, step.next.buf);
    assert s.streams[id := x] - {id} == s.streams - {id};
  }

  /**
   * Running a handshake step from two states that differ only in the entry
   * for `id` and in queued output that the step's replies make equal.
   */
  lemma HandshakeSameRecord(s: State, t: State, id: uint32, st1: Stage, b1: bytes, st2: Stage, b2: bytes,
                            connect: Connector, proxyPort: uint16)
    requires t.streams - {id} == s.streams - {id} && t.open == s.open && t.tables == s.tables
    requires Unconnected(s, id) && Unconnected(t, id)
    requires Advance(st1, b1).next == Advance(st2, b2).next
    requires t.out + Packed(id, Advance(st1, b1).replies) == s.out + Packed(id, Advance(st2, b2).replies)
    ensures Handshake(t, id, st1, b1, connect, proxyPort) == Handshake(s, id, st2, b2, connect, proxyPort)
  {
    match Advance(st1, b1).next
    case Pending(st, b) =>
      UpdateSame(t.streams, s.streams, id, Handshaking(st, b));
    case Drop =>
    case Dial(h, port, rest) =>
      if connect(h, port, s.open).Some? {
        UpdateSame(t.streams, s.streams, id, Connected(Queue(Link(connect(h, port, s.open).value, [], false), rest)));
      }
  }

  /** The entry that stream `id` holds before a handshake step does not matter to the step. */
  lemma HandshakeIgnoresEntry(s: State, id: uint32, x: Stream, stage: Stage, buf: bytes,
                              connect: Connector, proxyPort: uint16)
    requires Unconnected(s, id) && x.Handshaking?
    ensures Handshake(s.(streams := s.streams[id := x]), id, stage, buf, connect, proxyPort)
         == Handshake(s, id, stage, buf, connect, proxyPort)
  {
    assert s.streams[id := x] - {id} == s.streams - {id};
    HandshakeSameRecord(s, s.(streams := s.streams[id := x]), id, stage, buf, stage, buf, connect, proxyPort);
  }

  /**
   * An accepted greeting followed by request bytes: sending `05 00`,
   * storing the stage-1 record and running stage 1 on the rest is the
   * stage-0 step on the whole buffer.
   */
  lemma HandshakeContinues(s: State, id: uint32, buf: bytes, rest: bytes, connect: Connector, proxyPort: uint16)
    requires ParseGreeting(buf) == GreetingAccepted(rest) && rest != [] && Unconnected(s, id)
    ensures Handshake(Emit(s, id, GreetingOk).(streams := s.streams[id := Handshaking(1, rest)]), id, 1, rest, connect, proxyPort)
         == Handshake(s, id, 0, buf, connect, proxyPort)
  {
    var t := Emit(s, id, GreetingOk);
    var u := t.(streams := s.streams[id := Handshaking(1, rest)]);
    assert u.streams - {id} == s.streams - {id};
    PackedSingle(id, GreetingOk);
    assert u.out + Packed(id, []) == u.out;
    HandshakeSameRecord(s, u, id, 1, rest, 0, buf, connect, proxyPort);
  }

  /** Setting an entry twice keeps the second value. */
  lemma UpdateTwice(m: map<uint32, Stream>, id: uint32, a: Stream, b: Stream)
    ensures m[id := a][id := b] == m[id := b]
  {
  }

  /** Setting an entry to what it holds changes nothing. */
  lemma UpdateKept(m: map<uint32, Stream>, id: uint32)
    requires id in m
    ensures m[id := m[id]] == m
  {
  }

  /** Two tables that agree away from `id` agree once `id` is set to the same entry. */
  lemma UpdateSame(a: map<uint32, Stream>, b: map<uint32, Stream>, id: uint32, x: Stream)
    requires a - {id} == b - {id}
    ensures a[id := x] == b[id := x]
  {
    forall k | k != id
      ensures (k in a <==> k in b) && (k in a ==> a[k] == b[k])
    {
      assert (k in a <==> k in a - {id}) && (k in b <==> k in b - {id});
      if k in a {
        assert a[k] == (a - {id})[k];
        assert b[k] == (b - {id})[k];
      }
    }
    assert a[id := x].Keys == b[id := x].Keys;
  }
}
