/**
 * The tunnel of pysocks5/rsocks5.py: one `AsynSocket` carrying framed
 * streams, and `src_map`, which maps a stream id to the stream's
 * `SrcSocket` or, on the agent before the SOCKS5 handshake is over, to its
 * `UnformedSrc` record. `LTunnel` (the proxy end) and `RTunnel` (the agent
 * end) are one class with a `role`; the tunnel's own connection is the
 * field `sock` rather than a base class, and a `SrcSocket` is an
 * `AsynSocket` stored under its id, whose `on_data` and `on_destroy`
 * reactions the tunnel runs when the connection's handler returns.
 *
 * `Model()` is the tunnel as a value of module Relay: its streams, the
 * frames queued on the tunnel connection, the open descriptors and the
 * event loop's registrations. Each handler of a frame or of a stream
 * connection's event is proved to change `Model()` as the matching Relay
 * function says.
 */
module RSocks5 {
  import opened Options
  import opened Bytes
  import opened Framing
  import opened Socks5
  import opened Events
  import opened SockServer
  import opened Relay

  /** A `src_map` value: an `UnformedSrc(stage, cmd_buf)` record, or the `SrcSocket` of a connected stream. */
  datatype Peer = Unformed(stage: Stage, cmdBuf: bytes) | Src(conn: AsynSocket)

  /** What the tunnel sees of a stream connection. */
  ghost function LinkOf(c: AsynSocket): Link
    reads c
  {
    Link(c.fd, c.writeBuf, c.closed)
  }

  class Tunnel {
    const role: Role
    /** The tunnel connection itself. */
    const sock: AsynSocket
    const loop: EventLoop
    /** `config.proxy_port`, the port the agent reports in its CONNECT replies. */
    const proxyPort: uint16
    var srcMap: map<uint32, Peer>
    /**
     * The descriptors the operating system holds open for the process: the
     * tunnel connection's and those of the stream connections not yet
     * destroyed. A new connection never gets one of them.
     */
    var open: set<Fd>
    /** The tunnel connection and every stream connection the tunnel has made. */
    ghost var Repr: set<AsynSocket>
    /** The streams as values, kept in step with `srcMap` by the invariant. */
    ghost var streams: map<uint32, Stream>
    /** The stream each connection was made for; an entry never changes once made. */
    ghost var owner: map<AsynSocket, uint32>
    /** The stream each descriptor was last given to. */
    ghost var fdOf: map<Fd, uint32>

    /** The tunnel as a value: its streams, the frames queued on the tunnel connection, the open descriptors and the loop's registrations. */
    ghost function Model(): State
      reads this, sock, loop
    {
      State(streams, sock.writeBuf, open, loop.tables)
    }

    /**
     * `c` is a live connection of the tunnel's own, made for stream `id`,
     * on the tunnel's loop, whose open descriptor belongs to `id` alone
     * (and is the id itself on the proxy) and is registered for writing
     * and errors, and for reading unless the connection is closed.
     */
    ghost predicate Serves(id: uint32, c: AsynSocket)
      reads this, c, loop
    {
      && c != sock && c in owner && owner[c] == id
      && c.fd != sock.fd && c.fd in open && c.fd in fdOf && fdOf[c.fd] == id
      && (role == Proxy ==> c.fd == id as Fd)
      && c.loop == loop && c.Valid() && !c.released
      && Watched(loop.tables, c.fd, !c.closed)
    }

    /**
     * Stream `id` is what `streams` says: the same handshake record (only on
     * the agent), or a connection that serves it, whose queue and `closed`
     * flag are those of the stream.
     */
    ghost predicate Tracks(id: uint32)
      reads this, Repr, loop
    {
      && id in srcMap && id in streams
      && match srcMap[id]
         case Unformed(stage, buf) => role == Agent && streams[id] == Handshaking(stage, buf)
         case Src(c) => c in Repr && Serves(id, c) && streams[id] == Connected(LinkOf(c))
    }

    /** Every stream connection not yet destroyed is still stored under the stream it was made for. */
    ghost predicate Accounted()
      reads this, Repr
    {
      forall c :: c in Repr && c != sock && !c.released ==> c in owner && owner[c] in srcMap && srcMap[owner[c]] == Src(c)
    }

    /** No connection has changed the stream it was made for since `o`. */
    ghost predicate Keeps(o: map<AsynSocket, uint32>)
      reads this
    {
      forall c :: c in o ==> c in owner && owner[c] == o[c]
    }

    /** Connection `c` has been destroyed: `_destroy` ran and its descriptor has no registration left. */
    ghost predicate Destroyed(c: AsynSocket)
      reads c, loop
    {
      c.released && Unregistered(loop.tables, c.fd)
    }

    /**
     * The tunnel's invariant, except for the streams in `gone`, whose
     * connections may already have been destroyed (their `on_destroy` is
     * about to forget them): the tunnel connection is valid, open,
     * registered for all three kinds and on the tunnel's loop, `streams`
     * has the ids of `srcMap`, every stream not in `gone` is tracked, and
     * every live stream connection is stored.
     */
    ghost predicate ValidExcept(gone: set<uint32>)
      reads this, Repr, loop
    {
      && sock in Repr && sock.loop == loop && sock.Valid() && !sock.closed && !sock.released
      && sock.fd in open && Watched(loop.tables, sock.fd, true)
      && streams.Keys == srcMap.Keys
      && (forall id :: id in srcMap && id !in gone ==> Tracks(id))
      && Accounted()
    }

    ghost predicate Valid()
      reads this, Repr, loop
    {
      ValidExcept({})
    }

    /**
     * Stream `id`, if stored, may be forgotten: a record, or a connection
     * made for it that has been destroyed.
     */
    ghost predicate Retiring(id: uint32)
      reads this, Repr, loop
    {
      id in srcMap ==>
        && id in streams
        && match srcMap[id]
           case Unformed(_, _) => streams[id].Handshaking?
           case Src(c) =>
             && c in Repr && c != sock && c.released && c in owner && owner[c] == id
             && c.fd != sock.fd && c.fd in fdOf && fdOf[c.fd] == id
             && streams[id].Connected? && streams[id].link.fd == c.fd && Unregistered(loop.tables, c.fd)
    }

    /** `LTunnel.__init__` / `RTunnel.__init__`: the tunnel connection on `fd`, registered for all three kinds, and no streams. */
    constructor(role: Role, fd: Fd, loop: EventLoop, proxyPort: uint16)
      modifies loop
      ensures Valid() && fresh(Repr)
      ensures this.role == role && this.loop == loop && this.proxyPort == proxyPort && sock.fd == fd
      ensures Model() == State(map[], [], {fd}, WithSocket(old(loop.tables), fd))
      ensures loop.timers == old(loop.timers)
    {
      this.role := role;
      this.loop := loop;
      this.proxyPort := proxyPort;
      var s := new AsynSocket(fd, loop);
      sock := s;
      srcMap := map[];
      open := {fd};
      Repr := {s};
      streams := map[];
      owner := map[];
      fdOf := map[];
    }

    /** `LTunnel.Send(id, data)`: the frame is queued on the tunnel connection. */
    method Send(id: uint32, data: bytes)
      requires Valid() && |data| <= MaxPayload
      modifies sock
      ensures Valid()
      ensures Model() == Emit(old(Model()), id, data)
    {
      sock.Send(Pack(id, data));
    }

    /** `DelSrc(id, notify)`: forgets the stream, and sends a close frame if `notify`. */
    method DelSrc(id: uint32, notify: bool)
      requires ValidExcept({id}) && Retiring(id)
      modifies this, sock
      ensures Valid() && Repr == old(Repr) && srcMap == old(srcMap) - {id} && owner == old(owner)
      ensures Model() == Remove(old(Model()), id, notify)
    {
      if id in srcMap && srcMap[id].Src? {
        var fd := srcMap[id].conn.fd;
        open := open - {fd};
        NothingToDrop(loop.tables, fd);
      }
      srcMap := srcMap - {id};
      streams := streams - {id};
      Forgot(id);
      if notify {
        Send(id, []);
      }
    }

    /** Forgetting a stream that may be forgotten, and closing its descriptor if it had one, leaves the tunnel valid. */
    twostate lemma Forgot(id: uint32)
      requires old(ValidExcept({id}) && Retiring(id))
      requires srcMap == old(srcMap) - {id} && streams == old(streams) - {id} && Repr == old(Repr)
      requires owner == old(owner) && fdOf == old(fdOf)
      requires open == if old(id in srcMap && srcMap[id].Src?) then old(open) - {old(srcMap[id].conn.fd)} else old(open)
      requires unchanged(loop) && forall o: AsynSocket :: o in Repr ==> unchanged(o)
      ensures Valid()
    {
      forall j | j in srcMap
        ensures Tracks(j)
      {
        assert old(Tracks(j));
      }
    }

    /** Stores the handshake record `UnformedSrc(stage, buf)` as the `src_map` value of stream `id`, which has no connection. */
    method StoreRecord(id: uint32, stage: Stage, buf: bytes)
      requires ValidExcept({id}) && role == Agent && (id in srcMap ==> srcMap[id].Unformed?)
      modifies this
      ensures Valid() && srcMap == old(srcMap)[id := Unformed(stage, buf)] && Repr == old(Repr) && owner == old(owner)
      ensures Model() == old(Model()).(streams := old(streams)[id := Handshaking(stage, buf)])
    {
      ghost var m := srcMap;
      srcMap := srcMap[id := Unformed(stage, buf)];
      streams := streams[id := Handshaking(stage, buf)];
      forall j | j in m && j != id
        ensures Tracks(j)
      {
        assert old(Tracks(j));
      }
    }

    /** Brings the value of stream `id` up to date after its connection changed. */
    ghost method Refresh(id: uint32)
      requires ValidExcept({id}) && id in srcMap && srcMap[id].Src?
      requires srcMap[id].conn in Repr && Serves(id, srcMap[id].conn)
      modifies this
      ensures Valid() && srcMap == old(srcMap) && Repr == old(Repr) && owner == old(owner)
      ensures Model() == old(Model()).(streams := old(streams)[id := Connected(LinkOf(srcMap[id].conn))])
    {
      streams := streams[id := Connected(LinkOf(srcMap[id].conn))];
      Refreshed(id);
    }

    /** Setting the value of stream `id` to its connection's link re-establishes the invariant. */
    twostate lemma Refreshed(id: uint32)
      requires old(ValidExcept({id})) && id in srcMap && srcMap[id].Src?
      requires srcMap[id].conn in Repr && Serves(id, srcMap[id].conn)
      requires srcMap == old(srcMap) && Repr == old(Repr) && owner == old(owner) && fdOf == old(fdOf) && open == old(open)
      requires streams == old(streams)[id := Connected(LinkOf(srcMap[id].conn))]
      requires unchanged(loop) && forall o: AsynSocket :: o in Repr ==> unchanged(o)
      ensures Valid()
    {
      forall j | j in srcMap && j != id
        ensures Tracks(j)
      {
        assert old(Tracks(j));
      }
    }

    /**
     * `SrcSocket(sock, addr, id, loop, tunnel)` on the new descriptor `fd`,
     * stored in `src_map` under `id` in place of any record: a new
     * connection, registered with the loop for all three kinds, with
     * nothing queued.
     */
    method Attach(id: uint32, fd: Fd) returns (c: AsynSocket)
      requires Valid() && fd !in open && (id in srcMap ==> srcMap[id].Unformed?)
      requires role == Proxy ==> fd == id as Fd
      modifies this, loop
      ensures Valid() && Repr == old(Repr) + {c} && fresh(c) && Keeps(old(owner))
      ensures srcMap == old(srcMap)[id := Src(c)]
      ensures Model() == old(Model()).(streams := old(streams)[id := Connected(Link(fd, [], false))],
                                       open := old(open) + {fd}, tables := WithSocket(old(loop.tables), fd))
      ensures loop.timers == old(loop.timers)
    {
      c := new AsynSocket(fd, loop);
      LoopGrew(fd);
      Adopt(id, c);
    }

    /** Registering a descriptor that is not open leaves a valid tunnel valid. */
    twostate lemma LoopGrew(fd: Fd)
      requires old(Valid()) && fd !in open
      requires unchanged(this) && forall o: AsynSocket :: o in Repr ==> unchanged(o)
      requires SameElsewhere(old(loop.tables), loop.tables, fd)
      ensures Valid()
    {
      WatchedElsewhere(old(loop.tables), loop.tables, fd, sock.fd, true);
      forall j | j in srcMap
        ensures Tracks(j)
      {
        assert old(Tracks(j));
        if srcMap[j].Src? {
          var d := srcMap[j].conn;
          assert d in Repr;
          assert d.closed == old(d.closed);
          assert old(Serves(j, d));
          assert Watched(old(loop.tables), d.fd, !old(d.closed));
          WatchedElsewhere(old(loop.tables), loop.tables, fd, d.fd, !d.closed);
        }
      }
    }

    /** Stores the new connection `c`, registered and with nothing queued, as the `src_map` value of stream `id`. */
    method Adopt(id: uint32, c: AsynSocket)
      requires Valid() && c !in Repr && c !in owner && c.fd !in open && (id in srcMap ==> srcMap[id].Unformed?)
      requires role == Proxy ==> c.fd == id as Fd
      requires c.loop == loop && c.Valid() && !c.released && !c.closed && c.writeBuf == [] && Watched(loop.tables, c.fd, true)
      modifies this
      ensures Valid() && Repr == old(Repr) + {c} && Keeps(old(owner))
      ensures srcMap == old(srcMap)[id := Src(c)]
      ensures Model() == old(Model()).(streams := old(streams)[id := Connected(Link(c.fd, [], false))], open := old(open) + {c.fd})
    {
      srcMap := srcMap[id := Src(c)];
      Repr := Repr + {c};
      owner := owner[c := id];
      fdOf := fdOf[c.fd := id];
      open := open + {c.fd};
      streams := streams[id := Connected(LinkOf(c))];
      Stored(id);
    }

    /** Storing a new, registered connection on a descriptor that was not open keeps the tunnel valid. */
    twostate lemma Stored(id: uint32)
      requires old(Valid()) && id in srcMap && srcMap[id].Src?
      requires var c := srcMap[id].conn;
               && c !in old(Repr) && c !in old(owner) && c.fd !in old(open)
               && old(id in srcMap ==> srcMap[id].Unformed?) && (role == Proxy ==> c.fd == id as Fd)
               && c.loop == loop && c.Valid() && !c.released && Watched(loop.tables, c.fd, !c.closed)
               && srcMap == old(srcMap)[id := Src(c)] && Repr == old(Repr) + {c} && owner == old(owner)[c := id]
               && fdOf == old(fdOf)[c.fd := id] && open == old(open) + {c.fd} && streams == old(streams)[id := Connected(LinkOf(c))]
      requires unchanged(loop) && forall o: AsynSocket :: o in old(Repr) ==> unchanged(o)
      ensures Valid()
    {
      forall j | j in old(srcMap) && j != id
        ensures Tracks(j)
      {
        assert old(Tracks(j));
      }
    }

    /**
     * `LTunnel.AddSrc`: a newly accepted connection on `fd` becomes the
     * stream with that id (`clt_sock.fileno()`). The descriptor is not one
     * already open, and only the proxy end accepts.
     */
    method AddSrc(fd: Fd)
      requires Valid() && role == Proxy && fd < 0x1_0000_0000 && fd !in open
      modifies this, loop
      ensures Valid() && fresh(Repr - old(Repr)) && old(Repr) <= Repr && Keeps(old(owner))
      ensures Model() == Accept(old(Model()), fd as uint32, fd)
      ensures loop.timers == old(loop.timers)
    {
      var id := fd as uint32;
      assert id in srcMap ==> Tracks(id);
      var c := Attach(id, fd);
    }

    /** A change to the connection of stream `id` alone leaves every other stream tracked. */
    twostate lemma OthersTracked(id: uint32)
      requires old(Valid()) && id in old(srcMap) && old(srcMap[id]).Src?
      requires unchanged(this)
      requires forall o: AsynSocket :: o in Repr && o != srcMap[id].conn ==> unchanged(o)
      requires SameElsewhere(old(loop.tables), loop.tables, srcMap[id].conn.fd)
      ensures ValidExcept({id})
    {
      assert old(Tracks(id));
      var fd := srcMap[id].conn.fd;
      WatchedElsewhere(old(loop.tables), loop.tables, fd, sock.fd, true);
      forall j | j in srcMap && j != id
        ensures Tracks(j)
      {
        assert old(Tracks(j));
        if srcMap[j].Src? {
          var d := srcMap[j].conn;
          assert d in Repr;
          assert d.closed == old(d.closed);
          assert old(Serves(j, d));
          assert Watched(old(loop.tables), d.fd, !old(d.closed));
          WatchedElsewhere(old(loop.tables), loop.tables, fd, d.fd, !d.closed);
        }
      }
    }

    /** `src.Send(data)` on the connection of stream `id`. */
    method SrcSend(id: uint32, data: bytes)
      requires Valid() && id in srcMap && srcMap[id].Src?
      modifies srcMap[id].conn, this
      ensures Valid() && Repr == old(Repr) && srcMap == old(srcMap) && owner == old(owner)
      ensures Model() == old(Model()).(streams := old(streams)[id := Connected(Queue(old(streams)[id].link, data))])
    {
      var c := srcMap[id].conn;
      assert Tracks(id);
      c.Send(data);
      OthersTracked(id);
      Refresh(id);
    }

    /** The end of `_on_read` on the connection of stream `id`: `SrcSocket.on_data` returns nothing, so the read buffer is emptied. */
    method SrcRetain(id: uint32)
      requires Valid() && id in srcMap && srcMap[id].Src?
      modifies srcMap[id].conn, this
      ensures Valid() && Repr == old(Repr) && srcMap == old(srcMap) && owner == old(owner) && Model() == old(Model())
      ensures srcMap[id].conn.readBuf == []
    {
      var c := srcMap[id].conn;
      assert Tracks(id);
      c.Retain(None);
      OthersTracked(id);
      Refresh(id);
      UpdateKept(old(streams), id);
    }

    /**
     * `src.Close()` on the connection of stream `id`: with nothing queued it
     * is destroyed and its `on_destroy` forgets the stream; otherwise it
     * only stops reading.
     */
    method CloseSrc(id: uint32)
      requires Valid() && id in srcMap && srcMap[id].Src?
      modifies this, Repr, loop
      ensures Valid() && Repr == old(Repr) && owner == old(owner)
      ensures Model() == CloseLink(old(Model()), id, old(Model()).streams[id].link)
      ensures id !in srcMap ==> Destroyed(old(srcMap[id].conn))
      ensures id in srcMap ==> srcMap[id] == old(srcMap[id]) && loop.tables == old(loop.tables).Without(Read, srcMap[id].conn.fd)
      ensures loop.timers == old(loop.timers)
    {
      var c := srcMap[id].conn;
      assert Tracks(id);
      var destroyed := c.Close();
      OthersTracked(id);
      if destroyed {
        DelSrc(id, !c.closed);
      } else {
        Refresh(id);
      }
    }

    /** The `SrcSocket` branch of `send_to_src`: the payload is sent on the stream's connection, and an empty one closes it. */
    method ForwardToSrc(id: uint32, data: bytes)
      requires Valid() && id in srcMap && srcMap[id].Src?
      modifies this, Repr, loop
      ensures Valid() && Repr == old(Repr) && owner == old(owner)
      ensures Model() == Forward(old(Model()), id, old(Model()).streams[id].link, data)
      ensures id !in srcMap ==> Destroyed(old(srcMap[id].conn))
      ensures loop.timers == old(loop.timers)
    {
      if data != [] {
        SrcSend(id, data);
      } else {
        CloseSrc(id);
      }
    }

    /** `LTunnel.send_to_src`: a frame for an unknown stream is dropped. */
    method ProxySendToSrc(id: uint32, data: Payload)
      requires Valid() && role == Proxy
      modifies this, Repr, loop
      ensures Valid() && Repr == old(Repr) && owner == old(owner)
      ensures Model() == ProxyDeliver(old(Model()), Frame(id, data))
      ensures id in old(srcMap) && old(srcMap[id]).Src? && id !in srcMap ==> Destroyed(old(srcMap[id].conn))
      ensures loop.timers == old(loop.timers)
    {
      if id in srcMap {
        assert Tracks(id);
        ForwardToSrc(id, data);
      }
    }

    /**
     * `_stage0` on the record of stream `id`, holding `buf`: waits for the
     * whole greeting; refuses it, and drops the stream, unless it is version
     * 5 and offers "no authentication"; otherwise accepts it, moves the
     * record to stage 1 and runs stage 1 on any bytes that followed.
     */
    method Stage0(id: uint32, buf: bytes, connect: Connector)
      requires Valid() && role == Agent && id in srcMap && srcMap[id] == Unformed(0, buf)
      modifies this, Repr, loop
      ensures Valid() && fresh(Repr - old(Repr)) && old(Repr) <= Repr && Keeps(old(owner))
      ensures Model() == Handshake(old(Model()), id, 0, buf, connect, proxyPort)
      ensures loop.timers == old(loop.timers)
    {
      assert Tracks(id);
      match ParseGreeting(buf)
      case GreetingWait =>
        UpdateKept(streams, id);
      case GreetingRejected =>
        RefuseGreeting(id, buf, connect);
      case GreetingAccepted(rest) =>
        AcceptGreeting(id, buf, rest, connect);
    }

    /** The end of `_stage0` for a refused greeting: `05 FF`, and the stream is dropped with a close frame. */
    method RefuseGreeting(id: uint32, buf: bytes, connect: Connector)
      requires Valid() && role == Agent && id in srcMap && srcMap[id].Unformed?
      requires ParseGreeting(buf) == GreetingRejected
      modifies this, sock
      ensures Valid() && Repr == old(Repr) && owner == old(owner)
      ensures Model() == Handshake(old(Model()), id, 0, buf, connect, proxyPort)
    {
      assert Tracks(id);
      Send(id, GreetingRefused);
      DelSrc(id, true);
      PackedSingle(id, GreetingRefused);
    }

    /** The end of `_stage0` for an accepted greeting: `05 00`, the record moves to stage 1, which runs on any bytes that followed. */
    method AcceptGreeting(id: uint32, buf: bytes, rest: bytes, connect: Connector)
      requires Valid() && role == Agent && id in srcMap && srcMap[id].Unformed?
      requires ParseGreeting(buf) == GreetingAccepted(rest)
      modifies this, Repr, loop
      ensures Valid() && fresh(Repr - old(Repr)) && old(Repr) <= Repr && Keeps(old(owner))
      ensures Model() == Handshake(old(Model()), id, 0, buf, connect, proxyPort)
      ensures loop.timers == old(loop.timers)
    {
      assert Tracks(id);
      Send(id, GreetingOk);
      StoreRecord(id, 1, rest);
      if rest != [] {
        Stage1(id, rest, connect);
        HandshakeContinues(old(Model()), id, buf, rest, connect, proxyPort);
      } else {
        PackedSingle(id, GreetingOk);
      }
    }

    /**
     * `_stage1` on the stage-1 record of stream `id`, holding `buf`: waits
     * for the whole request; drops the stream if it is not a version-5
     * CONNECT to an IPv4 address or a domain name; otherwise dials the
     * target.
     */
    method Stage1(id: uint32, buf: bytes, connect: Connector)
      requires Valid() && role == Agent && id in srcMap && srcMap[id] == Unformed(1, buf)
      modifies this, Repr, loop
      ensures Valid() && fresh(Repr - old(Repr)) && old(Repr) <= Repr && Keeps(old(owner))
      ensures Model() == Handshake(old(Model()), id, 1, buf, connect, proxyPort)
      ensures loop.timers == old(loop.timers)
    {
      assert Tracks(id);
      RequestSettles(old(Model()), id, buf, connect, proxyPort);
      match ParseRequest(buf)
      case RequestWait =>
        UpdateKept(streams, id);
      case RequestInvalid =>
        DelSrc(id, true);
      case RequestConnect(h, port, rest) =>
        DialTarget(id, h, port, rest, connect);
    }

    /**
     * The end of `_stage1`: `Connect((host, port))`; if that fails, the
     * "host unreachable" reply and the stream is dropped; otherwise the
     * "succeeded" reply, the new connection becomes the stream's, and the
     * bytes that followed the request are sent on it.
     */
    method DialTarget(id: uint32, h: Host, port: uint16, rest: bytes, connect: Connector)
      requires Valid() && role == Agent && id in srcMap && srcMap[id].Unformed?
      modifies this, Repr, loop
      ensures Valid() && fresh(Repr - old(Repr)) && old(Repr) <= Repr && Keeps(old(owner))
      ensures Model() == Dialled(old(Model()), id, h, port, rest, connect, proxyPort)
      ensures loop.timers == old(loop.timers)
    {
      assert Tracks(id);
      var dialled := connect(h, port, open);
      if dialled.None? {
        Send(id, ConnectReply(RepHostUnreachable, proxyPort));
        DelSrc(id, true);
      } else {
        Open(id, dialled.value, rest);
      }
    }

    /** The success path of the dial: `05 00 00 01` and the bound address, then the new `SrcSocket` is stored and sent `rest`. */
    method Open(id: uint32, fd: Fd, rest: bytes)
      requires Valid() && role == Agent && id in srcMap && srcMap[id].Unformed? && fd !in open
      modifies this, Repr, loop
      ensures Valid() && fresh(Repr - old(Repr)) && old(Repr) <= Repr && Keeps(old(owner))
      ensures Model() == Opened(old(Model()), id, fd, rest, proxyPort)
      ensures loop.timers == old(loop.timers)
    {
      Send(id, ConnectReply(RepSucceeded, proxyPort));
      ghost var u := Model();
      var c := Attach(id, fd);
      SrcSend(id, rest);
      UpdateTwice(u.streams, id, Connected(Link(fd, [], false)), Connected(Queue(Link(fd, [], false), rest)));
    }

    /**
     * `RTunnel.send_to_src`: a connected stream is served as on the proxy;
     * otherwise the payload extends the stream's record, created at stage 0
     * for a new id, and the record's stage runs.
     */
    method AgentSendToSrc(id: uint32, data: Payload, connect: Connector)
      requires Valid() && role == Agent
      modifies this, Repr, loop
      ensures Valid() && fresh(Repr - old(Repr)) && old(Repr) <= Repr && Keeps(old(owner))
      ensures Model() == AgentDeliver(old(Model()), Frame(id, data), connect, proxyPort)
      ensures id in old(srcMap) && old(srcMap[id]).Src? && id !in srcMap ==> Destroyed(old(srcMap[id].conn))
      ensures loop.timers == old(loop.timers)
    {
      if id in srcMap && srcMap[id].Src? {
        ForwardToSrc(id, data);
        return;
      }
      var stage: Stage := 0;
      var held: bytes := [];
      if id in srcMap {
        assert Tracks(id);
        stage, held := srcMap[id].stage, srcMap[id].cmdBuf;
      }
      AgentDeliverHeld(Model(), Frame(id, data), stage, held, connect, proxyPort);
      RunStage(id, stage, held + data, connect);
    }

    /** The record of stream `id` becomes `UnformedSrc(stage, buf)`, and its stage runs. */
    method RunStage(id: uint32, stage: Stage, buf: bytes, connect: Connector)
      requires Valid() && role == Agent && (id in srcMap ==> srcMap[id].Unformed?)
      modifies this, Repr, loop
      ensures Valid() && fresh(Repr - old(Repr)) && old(Repr) <= Repr && Keeps(old(owner))
      ensures Model() == Handshake(old(Model()), id, stage, buf, connect, proxyPort)
      ensures loop.timers == old(loop.timers)
    {
      assert id in srcMap ==> Tracks(id);
      ghost var s := Model();
      StoreRecord(id, stage, buf);
      HandshakeIgnoresEntry(s, id, Handshaking(stage, buf), stage, buf, connect, proxyPort);
      if stage == 1 {
        Stage1(id, buf, connect);
      } else {
        Stage0(id, buf, connect);
      }
    }

    /** `send_to_src` of the tunnel's own end. */
    method SendToSrc(id: uint32, data: Payload, connect: Connector)
      requires Valid()
      modifies this, Repr, loop
      ensures Valid() && fresh(Repr - old(Repr)) && old(Repr) <= Repr && Keeps(old(owner))
      ensures Model() == Deliver(role, old(Model()), Frame(id, data), connect, proxyPort)
      ensures id in old(srcMap) && old(srcMap[id]).Src? && id !in srcMap ==> Destroyed(old(srcMap[id].conn))
      ensures loop.timers == old(loop.timers)
    {
      if role == Proxy {
        ProxySendToSrc(id, data);
      } else {
        AgentSendToSrc(id, data, connect);
      }
    }

    /**
     * `LTunnel.on_data`: unpacks and delivers frames from the front of
     * `all` until what is left is not a whole frame, and returns that rest.
     * A connection whose stream was forgotten or replaced on the way has
     * been destroyed.
     */
    method OnData(all: bytes, connect: Connector) returns (rest: bytes)
      requires Valid()
      modifies this, Repr, loop
      ensures Valid() && fresh(Repr - old(Repr)) && old(Repr) <= Repr && Keeps(old(owner))
      ensures rest == Split(all).rest
      ensures Model() == DeliverAll(role, old(Model()), Split(all).frames, connect, proxyPort)
      ensures forall id :: id in old(srcMap) && old(srcMap[id]).Src? && (id !in srcMap || srcMap[id] != old(srcMap[id])) ==>
                old(srcMap[id].conn).released
      ensures loop.timers == old(loop.timers)
    {
      var buf := all;
      ghost var done: seq<Frame> := [];
      while true
        invariant Valid() && fresh(Repr - old(Repr)) && old(Repr) <= Repr && Keeps(old(owner))
        invariant done + Split(buf).frames == Split(all).frames && Split(buf).rest == Split(all).rest
        invariant Model() == DeliverAll(role, old(Model()), done, connect, proxyPort)
        invariant loop.timers == old(loop.timers)
        decreases |buf|
      {
        var u := Unpack(buf);
        if u.None? {
          SplitDone(all, buf, done);
          rest := buf;
          break;
        }
        var f := Frame(u.value.id, u.value.payload);
        SplitNext(all, buf, done);
        DeliverAllSnoc(role, old(Model()), done, f, connect, proxyPort);
        SendToSrc(f.id, f.payload, connect);
        done := done + [f];
        buf := u.value.rest;
      }
      forall id | id in old(srcMap) && old(srcMap[id]).Src? && (id !in srcMap || srcMap[id] != old(srcMap[id]))
        ensures old(srcMap[id].conn).released
      {
        assert old(Tracks(id));
      }
    }

    /**
     * The read handler of stream `id`'s connection: bytes received go into
     * the tunnel as one frame (`SrcSocket.on_data`); a closed or failed
     * connection is destroyed and its `on_destroy` forgets the stream,
     * telling the peer unless the stream was closed locally.
     */
    method SourceRead(id: uint32, r: RecvResult)
      requires Valid() && id in srcMap && srcMap[id].Src?
      requires r.Received? ==> |r.data| <= RecvSize
      modifies this, Repr, loop
      ensures Valid() && Repr == old(Repr) && owner == old(owner)
      ensures Model() == Relay.SourceRead(old(Model()), id, r)
      ensures id !in srcMap <==> !(r.Received? && r.data != [])
      ensures id !in srcMap ==> Destroyed(old(srcMap[id].conn))
      ensures loop.timers == old(loop.timers)
    {
      if r.Received? && r.data != [] {
        SrcReceive(id, r.data);
      } else {
        SrcHangUp(id, r);
      }
    }

    /**
     * `_on_read` of stream `id`'s connection when bytes arrived:
     * `SrcSocket.on_data` sends them into the tunnel as one frame, and the
     * read buffer is emptied.
     */
    method SrcReceive(id: uint32, data: bytes)
      requires Valid() && id in srcMap && srcMap[id].Src? && data != [] && |data| <= RecvSize
      modifies this, sock, srcMap[id].conn, loop
      ensures Valid() && Repr == old(Repr) && srcMap == old(srcMap) && owner == old(owner)
      ensures Model() == Relay.SourceData(old(Model()), id, data)
      ensures loop.timers == old(loop.timers)
    {
      var d := SrcTake(id, data);
      Send(id, d);
      SrcRetain(id);
    }

    /** `_on_read` of stream `id`'s connection up to `on_data`, when bytes arrived: they are handed on. */
    method SrcTake(id: uint32, data: bytes) returns (d: bytes)
      requires Valid() && id in srcMap && srcMap[id].Src? && data != [] && |data| <= RecvSize
      modifies srcMap[id].conn, loop, this
      ensures Valid() && Repr == old(Repr) && srcMap == old(srcMap) && owner == old(owner) && Model() == old(Model())
      ensures loop.timers == old(loop.timers) && d == data
    {
      var c := srcMap[id].conn;
      assert Tracks(id);
      var delivery := c.OnRead(Received(data));
      OthersTracked(id);
      Refresh(id);
      UpdateKept(old(streams), id);
      d := delivery.value.data;
    }

    /**
     * `_on_read` of stream `id`'s connection when the peer closed or `recv`
     * failed: the connection is destroyed and its `on_destroy` forgets the
     * stream.
     */
    method SrcHangUp(id: uint32, r: RecvResult)
      requires Valid() && id in srcMap && srcMap[id].Src? && !(r.Received? && r.data != [])
      modifies this, Repr, loop
      ensures Valid() && Repr == old(Repr) && owner == old(owner)
      ensures Model() == SourceGone(old(Model()), id, old(Model()).streams[id].link.closed)
      ensures id !in srcMap && Destroyed(old(srcMap[id].conn))
      ensures loop.timers == old(loop.timers)
    {
      var c := srcMap[id].conn;
      assert Tracks(id);
      var delivery := c.OnRead(r);
      OthersTracked(id);
      DelSrc(id, !c.closed);
    }

    /**
     * The write handler of stream `id`'s connection: its queue drains; when
     * that destroys the connection (a failed send, or the last bytes of a
     * closing one) its `on_destroy` forgets the stream.
     */
    method SourceWrite(id: uint32, res: SendResult)
      requires Valid() && id in srcMap && srcMap[id].Src?
      modifies this, Repr, loop
      ensures Valid() && Repr == old(Repr) && owner == old(owner)
      ensures Model() == Relay.SourceWrite(old(Model()), id, res)
      ensures id !in srcMap ==> Destroyed(old(srcMap[id].conn))
      ensures id in srcMap ==> srcMap[id] == old(srcMap[id]) && loop.tables == old(loop.tables)
      ensures loop.timers == old(loop.timers)
    {
      var c := srcMap[id].conn;
      assert Tracks(id);
      var destroyed := SrcWrite(id, res);
      if destroyed {
        DelSrc(id, !c.closed);
        if c.closed && res.SendFailed? {
          // `_on_write` goes on from `_on_error` to `_on_close`, whose `_destroy` runs `on_destroy` again
          ghost var s := Model();
          DelSrc(id, !c.closed);
          RemoveForgotten(s, id);
        }
      }
    }

    /** `_on_write` of stream `id`'s connection, up to its `on_destroy`. */
    method SrcWrite(id: uint32, res: SendResult) returns (destroyed: bool)
      requires Valid() && id in srcMap && srcMap[id].Src?
      modifies srcMap[id].conn, loop, this
      ensures srcMap == old(srcMap) && Repr == old(Repr) && owner == old(owner) && loop.timers == old(loop.timers)
      ensures srcMap[id].conn.closed == old(srcMap[id].conn.closed)
      ensures !destroyed ==> Valid() && Model() == Relay.SourceWrite(old(Model()), id, res) && loop.tables == old(loop.tables)
      ensures destroyed ==> && ValidExcept({id}) && Retiring(id)
                            && Relay.SourceWrite(old(Model()), id, res) == SourceGone(old(Model()), id, srcMap[id].conn.closed)
                            && Model() == old(Model()).(tables := old(loop.tables).WithoutAll(srcMap[id].conn.fd))
    {
      var c := srcMap[id].conn;
      assert Tracks(id);
      destroyed := c.OnWrite(res);
      OthersTracked(id);
      if !destroyed {
        Refresh(id);
      }
    }

    /** The error handler of stream `id`'s connection: destroyed, and the stream forgotten. */
    method SourceError(id: uint32)
      requires Valid() && id in srcMap && srcMap[id].Src?
      modifies this, Repr, loop
      ensures Valid() && Repr == old(Repr) && owner == old(owner)
      ensures Model() == SourceGone(old(Model()), id, old(Model()).streams[id].link.closed)
      ensures id !in srcMap && Destroyed(old(srcMap[id].conn))
      ensures loop.timers == old(loop.timers)
    {
      var c := srcMap[id].conn;
      assert Tracks(id);
      c.HandleError();
      OthersTracked(id);
      DelSrc(id, !c.closed);
    }

    /**
     * The read handler of the tunnel connection: the bytes received extend
     * its read buffer, the whole frames at its front are delivered and the
     * rest is kept. No bytes, or a failed `recv`, destroys the tunnel
     * connection, whose `on_destroy` ends the process (`exited`).
     */
    method TunnelRead(r: RecvResult, connect: Connector) returns (exited: bool)
      requires Valid() && (r.Received? ==> |r.data| <= RecvSize)
      modifies this, Repr, loop
      ensures exited <==> !(r.Received? && r.data != [])
      ensures exited ==> sock.released && loop.tables == old(loop.tables).WithoutAll(sock.fd)
      ensures !exited ==> && Valid() && fresh(Repr - old(Repr)) && old(Repr) <= Repr && Keeps(old(owner))
                          && sock.readBuf == Split(old(sock.readBuf) + r.data).rest
                          && Model() == DeliverAll(role, old(Model()), Split(old(sock.readBuf) + r.data).frames, connect, proxyPort)
      ensures loop.timers == old(loop.timers)
    {
      var delivery := TunnelReceive(r);
      if delivery.None? {
        return true;
      }
      var rest := OnData(delivery.value.all, connect);
      TunnelRetain(rest);
      exited := false;
    }

    /** `_on_read` of the tunnel connection, up to its `on_data`. */
    method TunnelReceive(r: RecvResult) returns (delivery: Option<Delivery>)
      requires Valid() && (r.Received? ==> |r.data| <= RecvSize)
      modifies sock, loop
      ensures delivery.Some? <==> r.Received? && r.data != []
      ensures delivery.Some? ==> && Valid() && delivery.value.all == old(sock.readBuf) + r.data
                                 && sock.readBuf == old(sock.readBuf) && Model() == old(Model())
      ensures delivery.None? ==> sock.released && loop.tables == old(loop.tables).WithoutAll(sock.fd)
      ensures loop.timers == old(loop.timers)
    {
      delivery := sock.OnRead(r);
    }

    /** The end of `_on_read` of the tunnel connection: the read buffer becomes what `on_data` left. */
    method TunnelRetain(rest: bytes)
      requires Valid()
      modifies sock
      ensures Valid() && Model() == old(Model()) && sock.readBuf == rest
    {
      sock.Retain(Some(rest));
    }

    /**
     * The write handler of the tunnel connection: the queued frames drain;
     * a failed send destroys it and ends the process (`exited`).
     */
    method TunnelWrite(res: SendResult) returns (exited: bool)
      requires Valid()
      modifies sock, loop
      ensures exited <==> old(sock.writeBuf) != [] && res.SendFailed?
      ensures exited ==> sock.released && loop.tables == old(loop.tables).WithoutAll(sock.fd)
      ensures !exited ==> && Valid() && streams == old(streams) && loop.tables == old(loop.tables)
                          && sock.writeBuf == (if old(sock.writeBuf) == [] then [] else Drain(old(sock.writeBuf), res.n).rest)
      ensures loop.timers == old(loop.timers)
    {
      exited := sock.OnWrite(res);
    }

    /**
     * A valid tunnel's streams are well formed: connections are `LinkOk`,
     * open and registered as live, no two share a descriptor, and the proxy
     * end holds no records.
     */
    lemma ModelWellFormed()
      requires Valid()
      ensures WellFormed(role, Model())
    {
      var s := Model();
      forall id | id in streams
        ensures (streams[id].Connected? ==> LinkWellFormed(s, streams[id].link)) && (role == Proxy ==> streams[id].Connected?)
      {
        assert Tracks(id);
      }
      forall i, j | FdOf(s, i).Some? && FdOf(s, i) == FdOf(s, j)
        ensures i == j
      {
        assert Tracks(i) && Tracks(j);
      }
    }
  }
}
