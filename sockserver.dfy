/**
 * `AsynSocket` of pysocks5/sockserver.py: a non-blocking connection driven
 * by the event loop, with a read-accumulation buffer, a FIFO queue of byte
 * strings waiting to be written, and a `closed` flag that defers the close
 * until the queue has drained.
 *
 * The operating-system socket is replaced by the results of its calls:
 * `recv` is a `RecvResult` and `send` a `SendResult`, both arguments of the
 * handler that would have made the call. The overridable hooks (`on_data`,
 * `on_sent`, `on_error`, `on_remote_close`, `on_close`, `on_destroy`) are
 * recorded, in the order they would run, in the ghost trace `hooks`; a
 * subclass's reaction to `on_data` or `on_destroy` is run by its owner on
 * what the handler returns (module RSocks5), as each is the last thing the
 * handler does apart from storing the `on_data` result.
 */
module SockServer {
  import opened Options
  import opened Bytes
  import opened Events

  /** The `recv` size of `_on_read`. */
  const RecvSize: nat := 4096

  /** What `sock.recv(4096)` did: returned bytes (none at all on an orderly shutdown) or raised. */
  datatype RecvResult = Received(data: bytes) | RecvFailed

  /** What `sock.send(data)` did: accepted the first `n` bytes, or raised. */
  datatype SendResult = Accepted(n: nat) | SendFailed

  /** The hook calls of a connection, in order. */
  datatype Hook =
    | OnSent(data: bytes)
    | OnData(data: bytes, all: bytes)
    | OnError
    | OnRemoteClose
    | OnClose
    | OnDestroy

  /** A chunk that `on_data` is given: the new bytes, and the read buffer with them appended. */
  datatype Delivery = Delivery(data: bytes, all: bytes)

  /** The outcome of one drained write: what `on_sent` got and what stays queued. */
  datatype Drained = Drained(sent: bytes, rest: seq<bytes>)

  function Min(a: nat, b: nat): nat
  {
    if a <= b then a else b
  }

  /**
   * One writable event with `n` bytes accepted: the queue is joined, its
   * first `n` bytes are sent, and any unsent tail is queued again as a
   * single chunk.
   */
  function Drain(queue: seq<bytes>, n: nat): (d: Drained)
    ensures d.sent + Concat(d.rest) == Concat(queue)
    ensures |d.sent| == Min(n, |Concat(queue)|)
    ensures |d.rest| <= 1 && (forall c :: c in d.rest ==> c != [])
    ensures d.rest == [] <==> n >= |Concat(queue)|
  {
    var data := Concat(queue);
    if n >= |data| then
      Drained(data, [])
    else
      ConcatSingle(data[n..]);
      Drained(data[..n], [data[n..]])
  }

  /** `on_destroy` has run at most once, and then as the last hook. */
  predicate DestroysOnce(h: seq<Hook>)
  {
    OnDestroy in h ==> h[|h| - 1] == OnDestroy && OnDestroy !in h[..|h| - 1]
  }

  /**
   * The hooks `_on_write` runs after a failed `send`, as it is written:
   * `_on_error`, which destroys, and then, since the handler goes on to its
   * last test, `_on_close` as well when the connection is closed.
   */
  function FailedSendHooks(closed: bool): (h: seq<Hook>)
    ensures |h| >= 2 && h[..2] == [OnError, OnDestroy] && h[|h| - 1] == OnDestroy
    ensures OnClose in h <==> closed
  {
    [OnError, OnDestroy] + (if closed then [OnClose, OnDestroy] else [])
  }

  /**
   * After a failed `send` on a closed connection `on_destroy` runs twice;
   * on an open one it runs once, when it had not run before.
   */
  lemma FailedSendDestroysTwice(h: seq<Hook>)
    ensures !DestroysOnce(h + FailedSendHooks(true))
    ensures DestroysOnce(h + FailedSendHooks(false)) <==> OnDestroy !in h
  {
    var g := h + FailedSendHooks(true);
    assert g[..|g| - 1][|h| + 1] == OnDestroy;
    var e := h + FailedSendHooks(false);
    assert e[..|e| - 1] == h + [OnError];
  }

  /**
   * The registrations of a connection on `fd` that has not been destroyed:
   * its write and error handlers always, and its read handler exactly while
   * it is not closed (`__init__` registers all three, `Close` drops the read
   * one, `_destroy` drops them all).
   */
  predicate Watched(t: Tables, fd: Fd, reading: bool)
  {
    && fd in t.write && t.write[fd] == SocketWrite
    && fd in t.error && t.error[fd] == SocketError
    && (fd in t.read <==> reading) && (reading ==> t.read[fd] == SocketRead)
  }

  /** The tables once `AsynSocket.__init__` has registered the three handlers of `fd`. */
  function WithSocket(t: Tables, fd: Fd): (u: Tables)
    ensures Watched(u, fd, true) && SameElsewhere(t, u, fd)
  {
    AddedElsewhere(t, fd, SocketRead, SocketWrite, SocketError);
    t.With(Read, fd, SocketRead).With(Write, fd, SocketWrite).With(Error, fd, SocketError)
  }

  /** The registrations of a descriptor other than `fd` survive a change that touches only `fd`'s. */
  lemma WatchedElsewhere(t: Tables, u: Tables, fd: Fd, x: Fd, reading: bool)
    requires SameElsewhere(t, u, fd) && x != fd && Watched(t, x, reading)
    ensures Watched(u, x, reading)
  {
    assert SameAt(t, u, x);
  }

  /** Dropping the read registration of a live connection leaves it registered as a closed one. */
  lemma StopReading(t: Tables, fd: Fd, reading: bool)
    requires Watched(t, fd, reading)
    ensures Watched(t.Without(Read, fd), fd, false)
  {
  }

  class AsynSocket {
    const fd: Fd
    const loop: EventLoop
    var readBuf: bytes
    var writeBuf: seq<bytes>
    var closed: bool
    /** The descriptor has been given back: `_destroy` has run. */
    var released: bool
    /** Every hook call so far. */
    ghost var hooks: seq<Hook>
    /** Every byte `Send` has queued, in order. */
    ghost var accepted: bytes
    /** Every byte handed to `on_sent`, in order. */
    ghost var delivered: bytes

    /**
     * The connection's invariant: the bytes sent and the bytes queued are
     * together exactly the bytes accepted, in order; queued chunks are never
     * empty; `on_close` runs only on a closed connection, and only once
     * everything accepted has been sent unless an error came first (the
     * failed `send` of `_on_write`); a destroyed connection's last hook is
     * `on_destroy`; and a closed connection with nothing left to send has
     * been destroyed.
     */
    ghost predicate Valid()
      reads this
    {
      && delivered + Concat(writeBuf) == accepted
      && (forall c :: c in writeBuf ==> c != [])
      && (OnClose in hooks ==> closed && (OnError in hooks || (writeBuf == [] && delivered == accepted)))
      && (released <==> OnDestroy in hooks)
      && (released ==> hooks[|hooks| - 1] == OnDestroy)
      && (closed && writeBuf == [] ==> released)
    }

    /**
     * What the design intends beyond `Valid()`: `on_destroy` runs at most
     * once, and `on_close` only once everything accepted has been sent.
     */
    ghost predicate Orderly()
      reads this
    {
      DestroysOnce(hooks) && (OnClose in hooks ==> writeBuf == [] && delivered == accepted)
    }

    /** `AsynSocket.__init__`: empty buffers, open, and registered for all three kinds. */
    constructor(fd: Fd, loop: EventLoop)
      modifies loop
      ensures this.fd == fd && this.loop == loop
      ensures readBuf == [] && writeBuf == [] && !closed && !released
      ensures hooks == [] && accepted == [] && delivered == []
      ensures Valid()
      ensures loop.tables == WithSocket(old(loop.tables), fd)
      ensures loop.timers == old(loop.timers)
    {
      this.fd := fd;
      this.loop := loop;
      readBuf := [];
      writeBuf := [];
      closed := false;
      released := false;
      hooks := [];
      accepted := [];
      delivered := [];
      new;
      loop.Register(fd, Read, SocketRead);
      loop.Register(fd, Write, SocketWrite);
      loop.Register(fd, Error, SocketError);
      TablesExt(loop.tables, WithSocket(old(loop.tables), fd));
    }

    /** `Send(data)`: queues `data` unless the connection is closed or `data` is empty. */
    method Send(data: bytes)
      requires Valid()
      modifies this
      ensures Valid()
      ensures !old(closed) && data != [] ==> writeBuf == old(writeBuf) + [data] && accepted == old(accepted) + data
      ensures old(closed) || data == [] ==> writeBuf == old(writeBuf) && accepted == old(accepted)
      ensures readBuf == old(readBuf) && closed == old(closed) && released == old(released)
      ensures hooks == old(hooks) && delivered == old(delivered)
    {
      if !closed && data != [] {
        ConcatAppend(writeBuf, [data]);
        ConcatSingle(data);
        AppendAssoc(delivered, Concat(writeBuf), data);
        writeBuf := writeBuf + [data];
        accepted := accepted + data;
      }
    }

    /**
     * `_destroy`: drops every registration of the descriptor, then
     * `on_destroy`. Nothing stops it from running on a connection already
     * destroyed; the registrations are then already gone.
     */
    method Destroy()
      modifies this, loop
      ensures released && hooks == old(hooks) + [OnDestroy]
      ensures readBuf == old(readBuf) && writeBuf == old(writeBuf) && closed == old(closed)
      ensures accepted == old(accepted) && delivered == old(delivered)
      ensures loop.tables == old(loop.tables).WithoutAll(fd) && SameElsewhere(old(loop.tables), loop.tables, fd)
      ensures loop.timers == old(loop.timers)
    {
      loop.UnregisterAll(fd);
      DroppedElsewhere(old(loop.tables), fd);
      released := true;
      hooks := hooks + [OnDestroy];
    }

    /** `_on_close`: `on_close`, then destroy, whether or not the connection was destroyed before. */
    method HandleClose()
      modifies this, loop
      ensures released && hooks == old(hooks) + [OnClose, OnDestroy]
      ensures readBuf == old(readBuf) && writeBuf == old(writeBuf) && closed == old(closed)
      ensures accepted == old(accepted) && delivered == old(delivered)
      ensures loop.tables == old(loop.tables).WithoutAll(fd) && SameElsewhere(old(loop.tables), loop.tables, fd)
      ensures loop.timers == old(loop.timers)
    {
      hooks := hooks + [OnClose];
      Destroy();
    }

    /** `_on_error`: `on_error`, then destroy; also the error handler registered with the loop. */
    method HandleError()
      requires Valid() && !released
      modifies this, loop
      ensures Valid()
      ensures released && hooks == old(hooks) + [OnError, OnDestroy]
      ensures readBuf == old(readBuf) && writeBuf == old(writeBuf) && closed == old(closed)
      ensures accepted == old(accepted) && delivered == old(delivered)
      ensures loop.tables == old(loop.tables).WithoutAll(fd) && SameElsewhere(old(loop.tables), loop.tables, fd)
      ensures loop.timers == old(loop.timers)
    {
      hooks := hooks + [OnError];
      Destroy();
    }

    /** `_on_remote_close`: `on_remote_close`, then destroy. */
    method HandleRemoteClose()
      requires Valid() && !released
      modifies this, loop
      ensures Valid()
      ensures released && hooks == old(hooks) + [OnRemoteClose, OnDestroy]
      ensures readBuf == old(readBuf) && writeBuf == old(writeBuf) && closed == old(closed)
      ensures accepted == old(accepted) && delivered == old(delivered)
      ensures loop.tables == old(loop.tables).WithoutAll(fd) && SameElsewhere(old(loop.tables), loop.tables, fd)
      ensures loop.timers == old(loop.timers)
    {
      hooks := hooks + [OnRemoteClose];
      Destroy();
    }

    /**
     * `Close()`: marks the connection closed; with nothing queued it closes
     * and destroys at once, otherwise it only stops reading and leaves the
     * queue to the write handler. Reports whether it destroyed.
     */
    method Close() returns (destroyed: bool)
      requires Valid() && !released
      modifies this, loop
      ensures Valid() && closed
      ensures destroyed <==> old(writeBuf) == []
      ensures destroyed ==> released && hooks == old(hooks) + [OnClose, OnDestroy]
                            && loop.tables == old(loop.tables).WithoutAll(fd)
      ensures !destroyed ==> !released && hooks == old(hooks)
                             && loop.tables == old(loop.tables).Without(Read, fd)
                             && (Watched(old(loop.tables), fd, !old(closed)) ==> Watched(loop.tables, fd, false))
      ensures SameElsewhere(old(loop.tables), loop.tables, fd)
      ensures readBuf == old(readBuf) && writeBuf == old(writeBuf)
      ensures accepted == old(accepted) && delivered == old(delivered)
      ensures loop.timers == old(loop.timers)
    {
      closed := true;
      if writeBuf == [] {
        HandleClose();
        destroyed := true;
      } else {
        loop.Unregister(fd, Read);
        TablesExt(loop.tables, old(loop.tables).Without(Read, fd));
        if Watched(old(loop.tables), fd, !old(closed)) {
          StopReading(old(loop.tables), fd, !old(closed));
        }
        destroyed := false;
      }
    }

    /**
     * `_on_read`, up to the call of `on_data`: new bytes are returned for
     * the owner's `on_data`, with the read buffer they extend; no bytes
     * means the peer closed, and a failed `recv` is an error; both destroy.
     */
    method OnRead(r: RecvResult) returns (delivery: Option<Delivery>)
      requires Valid() && !released
      requires r.Received? ==> |r.data| <= RecvSize
      modifies this, loop
      ensures Valid()
      ensures r.Received? && r.data != [] ==>
                delivery == Some(Delivery(r.data, old(readBuf) + r.data))
                && hooks == old(hooks) + [OnData(r.data, old(readBuf) + r.data)]
                && !released && loop.tables == old(loop.tables)
      ensures r == Received([]) ==> delivery == None && released && hooks == old(hooks) + [OnRemoteClose, OnDestroy]
      ensures r == RecvFailed ==> delivery == None && released && hooks == old(hooks) + [OnError, OnDestroy]
      ensures delivery == None ==> loop.tables == old(loop.tables).WithoutAll(fd)
      ensures SameElsewhere(old(loop.tables), loop.tables, fd)
      ensures readBuf == old(readBuf) && writeBuf == old(writeBuf) && closed == old(closed)
      ensures accepted == old(accepted) && delivered == old(delivered)
      ensures loop.timers == old(loop.timers)
    {
      match r
      case RecvFailed =>
        HandleError();
        delivery := None;
      case Received(data) =>
        if data != [] {
          var all := readBuf + data;
          hooks := hooks + [OnData(data, all)];
          delivery := Some(Delivery(data, all));
        } else {
          HandleRemoteClose();
          delivery := None;
        }
    }

    /** The end of `_on_read`: the read buffer becomes what `on_data` returned, or empty for nothing. */
    method Retain(kept: Option<bytes>)
      requires Valid()
      modifies this
      ensures Valid()
      ensures readBuf == (if kept.Some? then kept.value else [])
      ensures writeBuf == old(writeBuf) && closed == old(closed) && released == old(released)
      ensures hooks == old(hooks) && accepted == old(accepted) && delivered == old(delivered)
    {
      readBuf := if kept.Some? then kept.value else [];
    }

    /**
     * `_on_write`: with something queued, sends the joined queue; the sent
     * prefix goes to `on_sent` and an unsent tail is queued again as one
     * chunk, in which case the handler stops there. A failed send is an
     * error, and the handler then goes on: once nothing is queued, or after
     * that error, a closed connection closes and is destroyed (again, after
     * an error). Reports whether it destroyed.
     */
    method OnWrite(res: SendResult) returns (destroyed: bool)
      requires Valid() && !released
      modifies this, loop
      ensures Valid()
      ensures old(writeBuf) == [] ==> !destroyed && writeBuf == [] && hooks == old(hooks)
                                      && delivered == old(delivered) && loop.tables == old(loop.tables)
      ensures old(writeBuf) != [] && res.SendFailed? ==>
                destroyed && writeBuf == old(writeBuf) && delivered == old(delivered)
                && hooks == old(hooks) + FailedSendHooks(closed)
      ensures old(writeBuf) != [] && res.Accepted? ==>
                var d := Drain(old(writeBuf), res.n);
                var sentHooks := if res.n > 0 then [OnSent(d.sent)] else [];
                writeBuf == d.rest && delivered == old(delivered) + d.sent
                && (destroyed <==> d.rest == [] && closed)
                && hooks == old(hooks) + sentHooks + (if destroyed then [OnClose, OnDestroy] else [])
      ensures destroyed ==> released && loop.tables == old(loop.tables).WithoutAll(fd)
      ensures !destroyed ==> !released && loop.tables == old(loop.tables)
      ensures SameElsewhere(old(loop.tables), loop.tables, fd)
      ensures readBuf == old(readBuf) && closed == old(closed) && accepted == old(accepted)
      ensures loop.timers == old(loop.timers)
    {
      destroyed := false;
      if writeBuf != [] {
        match res
        case SendFailed =>
          HandleError();
          destroyed := true;
        case Accepted(n) =>
          var d := Drain(writeBuf, n);
          AppendAssoc(delivered, d.sent, Concat(d.rest));
          if n > 0 {
            hooks := hooks + [OnSent(d.sent)];
          }
          delivered := delivered + d.sent;
          writeBuf := d.rest;
          if writeBuf != [] {
            return false;
          }
      }
      if closed {
        HandleClose();
        DroppedElsewhere(old(loop.tables), fd);
        destroyed := true;
      }
    }

    /**
     * `_on_write` as evidently intended: the same, except that the handler
     * returns after a failed send. `on_destroy` then runs at most once and
     * `on_close` only with nothing left to send.
     */
    method OnWriteIntended(res: SendResult) returns (destroyed: bool)
      requires Valid() && Orderly() && !released
      modifies this, loop
      ensures Valid() && Orderly()
      ensures old(writeBuf) == [] ==> !destroyed && writeBuf == [] && hooks == old(hooks)
                                      && delivered == old(delivered) && loop.tables == old(loop.tables)
      ensures old(writeBuf) != [] && res.SendFailed? ==>
                destroyed && writeBuf == old(writeBuf) && delivered == old(delivered)
                && hooks == old(hooks) + [OnError, OnDestroy]
      ensures old(writeBuf) != [] && res.Accepted? ==>
                var d := Drain(old(writeBuf), res.n);
                var sentHooks := if res.n > 0 then [OnSent(d.sent)] else [];
                writeBuf == d.rest && delivered == old(delivered) + d.sent
                && (destroyed <==> d.rest == [] && closed)
                && hooks == old(hooks) + sentHooks + (if destroyed then [OnClose, OnDestroy] else [])
      ensures destroyed ==> released && loop.tables == old(loop.tables).WithoutAll(fd)
      ensures !destroyed ==> !released && loop.tables == old(loop.tables)
      ensures readBuf == old(readBuf) && closed == old(closed) && accepted == old(accepted)
      ensures loop.timers == old(loop.timers)
    {
      destroyed := false;
      if writeBuf != [] {
        match res
        case SendFailed =>
          HandleError();
          return true;
        case Accepted(n) =>
          var d := Drain(writeBuf, n);
          AppendAssoc(delivered, d.sent, Concat(d.rest));
          if n > 0 {
            hooks := hooks + [OnSent(d.sent)];
          }
          delivered := delivered + d.sent;
          writeBuf := d.rest;
          if writeBuf != [] {
            return false;
          }
      }
      if closed {
        HandleClose();
        destroyed := true;
      }
    }
  }
}
