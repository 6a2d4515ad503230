/**
 * The subset of SOCKS version 5 (RFC 1928) that the agent speaks inside a
 * tunnel stream before the stream has a target connection: the
 * method-selection greeting of section 3, the CONNECT request of section 4
 * with the IPv4 and domain-name address types of section 5, and the replies
 * of section 6. These are the byte-level decisions of `RTunnel._stage0` and
 * `RTunnel._stage1` (pysocks5/rsocks5.py); the effects on the stream table
 * are in module RSocks5.
 */
module Socks5 {
  import opened Bytes
  import opened Framing

  const Version: byte := 0x05
  const MethodNoAuth: byte := 0x00
  const MethodNoAcceptable: byte := 0xFF
  const CmdConnect: byte := 0x01
  const Reserved: byte := 0x00
  const AtypIPv4: byte := 0x01
  const AtypDomain: byte := 0x03
  const RepSucceeded: byte := 0x00
  const RepHostUnreachable: byte := 0x04

  /** Method-selection replies: "no authentication" and "no acceptable methods". */
  const GreetingOk: bytes := [Version, MethodNoAuth]
  const GreetingRefused: bytes := [Version, MethodNoAcceptable]

  /**
   * The CONNECT reply `VER REP RSV ATYP BND.ADDR BND.PORT`, always with the
   * placeholder bound address 0.0.0.0 and the proxy's own listening port.
   */
  function ConnectReply(rep: byte, proxyPort: uint16): (r: bytes)
    ensures |r| == 10 && r[1] == rep && Uint16At(r, 8) == proxyPort
    ensures r[..4] == [Version, rep, Reserved, AtypIPv4] && r[4..8] == [0, 0, 0, 0]
  {
    [Version, rep, Reserved, AtypIPv4] + [0, 0, 0, 0] + BE16(proxyPort)
  }

  // ---------------------------------------------------------------- greeting

  /** Outcome of `_stage0` on its buffer: wait for more bytes, refuse, or accept. */
  datatype Greeting = GreetingWait | GreetingRejected | GreetingAccepted(rest: bytes)

  /**
   * `VER NMETHODS METHODS`: at least three bytes and all announced methods
   * must be buffered; the version must be 5 and "no authentication" must be
   * offered. On acceptance, `rest` is what follows the methods.
   */
  function ParseGreeting(buf: bytes): (g: Greeting)
    ensures g.GreetingAccepted? ==> |g.rest| + 3 <= |buf| && g.rest == buf[|buf| - |g.rest|..]
  {
    if |buf| < 3 then GreetingWait
    else
      var nMethods := buf[1];
      if |buf| - 2 < nMethods then GreetingWait
      else if buf[0] != Version || MethodNoAuth !in buf[2..2 + nMethods] then GreetingRejected
      else GreetingAccepted(buf[2 + nMethods..])
  }

  /** The greeting a client sends when it offers `methods`. */
  function GreetingBytes(methods: bytes): bytes
    requires |methods| < 0x100
  {
    [Version, |methods|] + methods
  }

  /** A greeting that offers "no authentication" is accepted, whatever follows it. */
  lemma GreetingAccepts(methods: bytes, tail: bytes)
    requires |methods| < 0x100 && MethodNoAuth in methods
    ensures ParseGreeting(GreetingBytes(methods) + tail) == GreetingAccepted(tail)
  {
    var buf := GreetingBytes(methods) + tail;
    assert buf[2..2 + |methods|] == methods;
    assert buf[2 + |methods|..] == tail;
  }

  /** A complete greeting that does not offer "no authentication" is refused. */
  lemma GreetingRefuses(methods: bytes, tail: bytes)
    requires |methods| < 0x100 && MethodNoAuth !in methods
    requires |methods| + |tail| >= 1
    ensures ParseGreeting(GreetingBytes(methods) + tail) == GreetingRejected
  {
    var buf := GreetingBytes(methods) + tail;
    assert buf[2..2 + |methods|] == methods;
  }

  /** A complete greeting whose version byte is not 5 is refused. */
  lemma GreetingWrongVersion(buf: bytes)
    requires |buf| >= 3 && |buf| - 2 >= buf[1] && buf[0] != Version
    ensures ParseGreeting(buf) == GreetingRejected
  {
  }

  /** Fragmentation: every proper prefix of a greeting makes `_stage0` wait. */
  lemma GreetingPrefixWaits(methods: bytes, k: nat)
    requires |methods| < 0x100 && k < |GreetingBytes(methods)|
    ensures ParseGreeting(GreetingBytes(methods)[..k]) == GreetingWait
  {
    var buf := GreetingBytes(methods)[..k];
    if |buf| >= 3 {
      assert buf[1] == |methods|;
    }
  }

  /** A decided greeting stays decided, and keeps its remainder, when more bytes arrive. */
  lemma GreetingExtends(buf: bytes, more: bytes)
    requires !ParseGreeting(buf).GreetingWait?
    ensures ParseGreeting(buf).GreetingRejected? ==> ParseGreeting(buf + more) == GreetingRejected
    ensures ParseGreeting(buf).GreetingAccepted? ==>
              ParseGreeting(buf + more) == GreetingAccepted(ParseGreeting(buf).rest + more)
  {
    var n := buf[1];
    assert (buf + more)[..2 + n] == buf[..2 + n];
    assert (buf + more)[2..2 + n] == buf[2..2 + n];
    assert (buf + more)[2 + n..] == buf[2 + n..] + more;
  }

  // ----------------------------------------------------------------- request

  /** The destination of a CONNECT request: four raw IPv4 octets or a domain name. */
  datatype Host = IPv4(octets: bytes) | DomainName(name: bytes)

  predicate WellFormedHost(h: Host)
  {
    match h
    case IPv4(octets) => |octets| == 4
    case DomainName(name) => |name| < 0x100
  }

  /** Outcome of `_stage1` on its buffer, before the connection attempt. */
  datatype Request = RequestWait | RequestInvalid | RequestConnect(host: Host, port: uint16, rest: bytes)

  /**
   * `VER CMD RSV ATYP DST.ADDR DST.PORT`: at least seven bytes, then
   * version 5, command CONNECT and an IPv4 or domain address type, then the
   * whole address and port; `rest` is what follows the port.
   */
  function ParseRequest(buf: bytes): (q: Request)
    ensures q.RequestConnect? ==> |q.rest| + 7 <= |buf| && WellFormedHost(q.host)
  {
    if |buf| < 7 then RequestWait
    else if buf[0] != Version || buf[1] != CmdConnect || (buf[3] != AtypIPv4 && buf[3] != AtypDomain) then
      RequestInvalid
    else if buf[3] == AtypIPv4 then
      if |buf| < 10 then RequestWait
      else RequestConnect(IPv4(buf[4..8]), Uint16At(buf, 8), buf[10..])
    else
      var lenHost := buf[4] as int;
      if |buf| < lenHost + 7 then RequestWait
      else
        var i := lenHost + 5;
        RequestConnect(DomainName(buf[5..i]), Uint16At(buf, i), buf[i + 2..])
  }

  /** The address part `ATYP DST.ADDR` of a request. */
  function AddressBytes(h: Host): bytes
    requires WellFormedHost(h)
  {
    match h
    case IPv4(octets) => [AtypIPv4] + octets
    case DomainName(name) => [AtypDomain, |name|] + name
  }

  /**
   * The CONNECT request a client sends for `host:port`, with `rsv` in the
   * reserved position (clients send 0, and `_stage1` never looks at it).
   */
  function RequestBytes(rsv: byte, h: Host, port: uint16): bytes
    requires WellFormedHost(h)
  {
    [Version, CmdConnect, rsv] + AddressBytes(h) + BE16(port)
  }

  /** Round trip: a CONNECT request parses back to its host and port, whatever follows it. */
  lemma RequestConnects(rsv: byte, h: Host, port: uint16, tail: bytes)
    requires WellFormedHost(h)
    ensures ParseRequest(RequestBytes(rsv, h, port) + tail) == RequestConnect(h, port, tail)
  {
    var buf := RequestBytes(rsv, h, port) + tail;
    var i := |RequestBytes(rsv, h, port)| - 2;
    assert buf[i..i + 2] == BE16(port);
    assert Uint16At(buf, i) == Uint16At(BE16(port), 0);
    assert buf[i + 2..] == tail;
    match h
    case IPv4(octets) =>
      assert buf[4..8] == octets;
    case DomainName(name) =>
      assert buf[4] == |name|;
      assert buf[5..i] == name;
  }

  /** A request with a wrong version, a command other than CONNECT or another address type is invalid. */
  lemma RequestRejects(buf: bytes)
    requires |buf| >= 7
    requires buf[0] != Version || buf[1] != CmdConnect || (buf[3] != AtypIPv4 && buf[3] != AtypDomain)
    ensures ParseRequest(buf) == RequestInvalid
  {
  }

  /** Fragmentation: every proper prefix of a request makes `_stage1` wait. */
  lemma RequestPrefixWaits(rsv: byte, h: Host, port: uint16, k: nat)
    requires WellFormedHost(h) && k < |RequestBytes(rsv, h, port)|
    ensures ParseRequest(RequestBytes(rsv, h, port)[..k]) == RequestWait
  {
    var whole := RequestBytes(rsv, h, port);
    var buf := whole[..k];
    if |buf| >= 7 {
      assert buf[0] == Version && buf[1] == CmdConnect && buf[3] == whole[3];
      if h.DomainName? {
        assert buf[4] == |h.name|;
      }
    }
  }

  /** A decided request stays decided, and keeps its remainder, when more bytes arrive. */
  lemma RequestExtends(buf: bytes, more: bytes)
    requires !ParseRequest(buf).RequestWait?
    ensures ParseRequest(buf).RequestInvalid? ==> ParseRequest(buf + more) == RequestInvalid
    ensures ParseRequest(buf).RequestConnect? ==>
              var q := ParseRequest(buf);
              ParseRequest(buf + more) == RequestConnect(q.host, q.port, q.rest + more)
  {
    var all := buf + more;
    assert all[..|buf|] == buf;
    if buf[3] == AtypIPv4 && |buf| >= 10 {
      assert all[4..8] == buf[4..8];
      assert all[10..] == buf[10..] + more;
    } else if buf[3] == AtypDomain && |buf| >= buf[4] as int + 7 {
      var i := buf[4] as int + 5;
      assert all[5..i] == buf[5..i];
      assert all[i + 2..] == buf[i + 2..] + more;
    }
  }

  // --------------------------------------------------------------- handshake

  /** `UnformedSrc.stage`: 0 while awaiting the greeting, 1 while awaiting the request. */
  type Stage = s: int | 0 <= s <= 1

  /** Where a stream's handshake stands after the agent has looked at its buffer. */
  datatype Next =
    | Pending(stage: Stage, buf: bytes)          // keep the record, with this stage and buffer
    | Drop                                       // remove the stream and send a close frame
    | Dial(host: Host, port: uint16, rest: bytes) // attempt the connection; `rest` goes to the target

  /** The SOCKS replies sent on the stream, in order, and where the handshake then stands. */
  datatype HandshakeStep = HandshakeStep(replies: seq<Payload>, next: Next)

  /** Stage 1 on `buf`: the request decides between waiting, dropping and dialling. */
  function RequestStep(buf: bytes): HandshakeStep
  {
    match ParseRequest(buf)
    case RequestWait => HandshakeStep([], Pending(1, buf))
    case RequestInvalid => HandshakeStep([], Drop)
    case RequestConnect(h, port, rest) => HandshakeStep([], Dial(h, port, rest))
  }

  /**
   * Running the record's current stage on its buffer, as `RTunnel.send_to_src`
   * does: stage 0 may accept the greeting and then run stage 1 at once on
   * whatever bytes follow it.
   */
  function Advance(stage: Stage, buf: bytes): HandshakeStep
  {
    if stage == 1 then RequestStep(buf)
    else
      match ParseGreeting(buf)
      case GreetingWait => HandshakeStep([], Pending(0, buf))
      case GreetingRejected => HandshakeStep([GreetingRefused], Drop)
      case GreetingAccepted(rest) =>
        if rest == [] then HandshakeStep([GreetingOk], Pending(1, []))
        else HandshakeStep([GreetingOk], RequestStep(rest).next)
  }

  /**
   * Fragmented input is handled like whole input: advancing on `x`, keeping
   * the pending record and advancing it on `y` sends the same replies and
   * ends in the same place as advancing on `x + y` at once.
   */
  lemma AdvanceIncremental(stage: Stage, x: bytes, y: bytes)
    requires Advance(stage, x).next.Pending?
    ensures var first := Advance(stage, x);
            var second := Advance(first.next.stage, first.next.buf + y);
            first.replies + second.replies == Advance(stage, x + y).replies
            && second.next == Advance(stage, x + y).next
  {
    if stage == 0 && ParseGreeting(x).GreetingAccepted? {
      var rest := ParseGreeting(x).rest;
      GreetingExtends(x, y);
      if rest != [] {
        assert ParseRequest(rest).RequestWait?;
      } else {
        assert [] + y == y;
      }
    }
  }

  /**
   * Pipelining: a greeting that offers "no authentication", a CONNECT
   * request and the first application bytes, all in one buffer, lead to one
   * `05 00` reply and a connection attempt that will be handed those bytes.
   */
  lemma AdvanceWholeHandshake(methods: bytes, rsv: byte, h: Host, port: uint16, tail: bytes)
    requires |methods| < 0x100 && MethodNoAuth in methods && WellFormedHost(h)
    ensures Advance(0, GreetingBytes(methods) + RequestBytes(rsv, h, port) + tail)
         == HandshakeStep([GreetingOk], Dial(h, port, tail))
  {
    var req := RequestBytes(rsv, h, port) + tail;
    assert GreetingBytes(methods) + RequestBytes(rsv, h, port) + tail == GreetingBytes(methods) + req;
    GreetingAccepts(methods, req);
    RequestConnects(rsv, h, port, tail);
  }
}
