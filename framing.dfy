/**
 * The tunnel's wire format: `uint16 BE length | uint32 BE stream id | payload`,
 * built by `pack` and parsed by `unpack` in pysocks5/rsocks5.py, and the
 * frame-by-frame split that `LTunnel.on_data` performs on its read buffer.
 */
module Framing {
  import opened Options
  import opened Bytes

  const HeaderSize: nat := 6
  const MaxPayload: nat := 0xFFFF

  /** A payload whose length fits the 16-bit length field. */
  type Payload = p: bytes | |p| <= MaxPayload

  /** One decoded frame; an empty payload is the "close this stream" signal. */
  datatype Frame = Frame(id: uint32, payload: Payload)

  /** `pack(pkg_id, pkg_data)`: length field, id field, then the payload. */
  function Pack(id: uint32, payload: bytes): (r: bytes)
    requires |payload| <= MaxPayload
    ensures |r| == HeaderSize + |payload| && r[HeaderSize..] == payload
  {
    BE16(|payload|) + BE32(id) + payload
  }

  /** The header of a packed frame reads back as the payload length and the id. */
  lemma PackHeader(id: uint32, payload: bytes)
    requires |payload| <= MaxPayload
    ensures Uint16At(Pack(id, payload), 0) == |payload| && Uint32At(Pack(id, payload), 2) == id
  {
    var r := Pack(id, payload);
    assert r[..2] == BE16(|payload|);
    assert r[2..6] == BE32(id);
  }

  /** A close frame for stream `id`: `pack(id, '')`. */
  function CloseFrame(id: uint32): (r: bytes)
    ensures |r| == HeaderSize && Uint16At(r, 0) == 0
  {
    Pack(id, [])
  }

  /** What `unpack` returns: `(pkg_id, pkg_data, remain)`. */
  datatype Unpacked = Unpacked(id: uint32, payload: bytes, rest: bytes)

  /**
   * `unpack(pkg)`: `None` stands for the `struct.error` raised when the
   * buffer is shorter than the header or than the header plus the length.
   */
  function Unpack(buf: bytes): (r: Option<Unpacked>)
    ensures r.Some? ==> |r.value.payload| <= MaxPayload
                        && |buf| == HeaderSize + |r.value.payload| + |r.value.rest|
                        && r.value.rest == buf[HeaderSize + |r.value.payload|..]
  {
    if |buf| < HeaderSize then None
    else
      var len := Uint16At(buf, 0);
      var id := Uint32At(buf, 2);
      if |buf| < HeaderSize + len then None
      else
        Some(Unpacked(id, buf[HeaderSize..HeaderSize + len], buf[HeaderSize + len..]))
  }

  /** Unpack fails exactly when the header, or the payload its length field announces, is incomplete. */
  lemma UnpackIncomplete(buf: bytes)
    ensures Unpack(buf).None? <==> |buf| < HeaderSize || |buf| < HeaderSize + Uint16At(buf, 0)
  {
  }

  /** The other direction of the round trip: what `Unpack` splits off is exactly a packed frame. */
  lemma UnpackIsPacked(buf: bytes)
    requires Unpack(buf).Some?
    ensures buf == Pack(Unpack(buf).value.id, Unpack(buf).value.payload) + Unpack(buf).value.rest
  {
    var u := Unpack(buf).value;
    BE16OfRead(buf, 0);
    BE32OfRead(buf, 2);
    assert buf == buf[..2] + buf[2..6] + u.payload + u.rest;
  }

  /** Round trip: a packed frame followed by anything unpacks to that frame and the rest. */
  lemma UnpackPack(id: uint32, payload: bytes, rest: bytes)
    requires |payload| <= MaxPayload
    ensures Unpack(Pack(id, payload) + rest) == Some(Unpacked(id, payload, rest))
  {
    var buf := Pack(id, payload) + rest;
    PackHeader(id, payload);
    assert buf[..HeaderSize] == Pack(id, payload)[..HeaderSize];
    assert Uint16At(buf, 0) == |payload| && Uint32At(buf, 2) == id;
    assert buf[HeaderSize..HeaderSize + |payload|] == payload;
    assert buf[HeaderSize + |payload|..] == rest;
  }

  /** Appending bytes after a complete frame does not change the frame. */
  lemma UnpackExtends(buf: bytes, more: bytes)
    requires Unpack(buf).Some?
    ensures Unpack(buf + more) == Some(Unpack(buf).value.(rest := Unpack(buf).value.rest + more))
  {
    var u := Unpack(buf).value;
    UnpackIsPacked(buf);
    assert buf + more == Pack(u.id, u.payload) + (u.rest + more);
    UnpackPack(u.id, u.payload, u.rest + more);
  }

  /** The bytes of a sequence of frames, one `pack` after the other. */
  function Packs(frames: seq<Frame>): bytes
  {
    if frames == [] then [] else Pack(frames[0].id, frames[0].payload) + Packs(frames[1..])
  }

  lemma PacksCons(f: Frame, frames: seq<Frame>)
    ensures Packs([f] + frames) == Pack(f.id, f.payload) + Packs(frames)
  {
    assert ([f] + frames)[1..] == frames;
  }

  /** The complete frames at the head of a buffer and the incomplete tail after them. */
  datatype Deframed = Deframed(frames: seq<Frame>, rest: bytes)

  /** The frames `LTunnel.on_data` dispatches, in order, and the buffer it returns. */
  function Split(buf: bytes): Deframed
    decreases |buf|
  {
    match Unpack(buf)
    case None => Deframed([], buf)
    case Some(u) =>
      var tail := Split(u.rest);
      Deframed([Frame(u.id, u.payload)] + tail.frames, tail.rest)
  }

  /** One step of `Split`: a complete frame at the head becomes its first frame. */
  lemma SplitCons(buf: bytes)
    requires Unpack(buf).Some?
    ensures var u := Unpack(buf).value;
            Split(buf) == Deframed([Frame(u.id, u.payload)] + Split(u.rest).frames, Split(u.rest).rest)
  {
  }

  /** The remainder `Split` leaves never starts with a complete frame. */
  lemma {:induction false} SplitRestIncomplete(buf: bytes)
    ensures Unpack(Split(buf).rest).None?
    decreases |buf|
  {
    if Unpack(buf).Some? {
      var u := Unpack(buf).value;
      SplitRestIncomplete(u.rest);
      SplitCons(buf);
    }
  }

  /** Nothing is lost or duplicated: the frames, re-packed, and the remainder give back the input. */
  lemma {:induction false} SplitJoins(buf: bytes)
    ensures Packs(Split(buf).frames) + Split(buf).rest == buf
    decreases |buf|
  {
    if Unpack(buf).Some? {
      var u := Unpack(buf).value;
      var f := Frame(u.id, u.payload);
      var tail := Split(u.rest);
      var head := Pack(u.id, u.payload);
      assert buf == head + u.rest by {
        UnpackIsPacked(buf);
      }
      assert Packs(tail.frames) + tail.rest == u.rest by {
        SplitJoins(u.rest);
      }
      assert Packs(Split(buf).frames) == head + Packs(tail.frames) && Split(buf).rest == tail.rest by {
        SplitCons(buf);
        PacksCons(f, tail.frames);
      }
      AppendAssoc(head, Packs(tail.frames), tail.rest);
    }
  }

  /** Frames followed by an incomplete tail split back into those frames and that tail. */
  lemma {:induction false} SplitPacks(frames: seq<Frame>, rest: bytes)
    requires Unpack(rest).None?
    ensures Split(Packs(frames) + rest) == Deframed(frames, rest)
  {
    if frames != [] {
      var f := frames[0];
      var tail := frames[1..];
      assert frames == [f] + tail;
      PacksCons(f, tail);
      assert Packs(frames) + rest == Pack(f.id, f.payload) + (Packs(tail) + rest);
      UnpackPack(f.id, f.payload, Packs(tail) + rest);
      SplitPacks(tail, rest);
      SplitCons(Packs(frames) + rest);
    }
  }

  /**
   * Reassembly across reads: splitting `x`, keeping its remainder and splitting
   * that remainder with the next chunk `y` gives the same frames, in the same
   * order, and the same remainder as splitting `x + y` at once.
   */
  lemma {:induction false} SplitStreaming(x: bytes, y: bytes)
    ensures Split(x).frames + Split(Split(x).rest + y).frames == Split(x + y).frames
    ensures Split(Split(x).rest + y).rest == Split(x + y).rest
    decreases |x|
  {
    if Unpack(x).Some? {
      var u := Unpack(x).value;
      assert |u.rest| < |x|;
      SplitStreaming(u.rest, y);
      SplitStreamingStep(x, y);
    }
  }

  /** The inductive step of `SplitStreaming`, for a buffer that starts with a complete frame. */
  lemma SplitStreamingStep(x: bytes, y: bytes)
    requires Unpack(x).Some?
    requires var r := Unpack(x).value.rest;
             && Split(r).frames + Split(Split(r).rest + y).frames == Split(r + y).frames
             && Split(Split(r).rest + y).rest == Split(r + y).rest
    ensures Split(x).frames + Split(Split(x).rest + y).frames == Split(x + y).frames
    ensures Split(Split(x).rest + y).rest == Split(x + y).rest
  {
    var u := Unpack(x).value;
    var f := Frame(u.id, u.payload);
    var a, c := Split(u.rest), Split(u.rest + y);
    var b := Split(a.rest + y);
    assert Split(x).frames == [f] + a.frames && Split(x).rest == a.rest by {
      SplitCons(x);
    }
    assert Split(x + y).frames == [f] + c.frames && Split(x + y).rest == c.rest by {
      SplitConsAppend(x, y);
    }
    assert Split(Split(x).rest + y) == b;
    ConsAssoc(f, a.frames, b.frames, c.frames);
  }

  lemma ConsAssoc(f: Frame, a: seq<Frame>, b: seq<Frame>, c: seq<Frame>)
    requires a + b == c
    ensures ([f] + a) + b == [f] + c
  {
  }

  /** A complete frame at the head of `x` is still the first frame once more bytes follow. */
  lemma SplitConsAppend(x: bytes, y: bytes)
    requires Unpack(x).Some?
    ensures var u := Unpack(x).value;
            Split(x + y) == Deframed([Frame(u.id, u.payload)] + Split(u.rest + y).frames, Split(u.rest + y).rest)
  {
    UnpackExtends(x, y);
    SplitCons(x + y);
  }

  /** `on_data`'s loop: once `done` is dispatched from `all`, unpacking the next frame of what is left extends `done` by it. */
  lemma SplitNext(all: bytes, buf: bytes, done: seq<Frame>)
    requires done + Split(buf).frames == Split(all).frames && Split(buf).rest == Split(all).rest
    requires Unpack(buf).Some?
    ensures var u := Unpack(buf).value;
            && (done + [Frame(u.id, u.payload)]) + Split(u.rest).frames == Split(all).frames
            && Split(u.rest).rest == Split(all).rest
  {
    var u := Unpack(buf).value;
    SplitCons(buf);
    assert (done + [Frame(u.id, u.payload)]) + Split(u.rest).frames == done + Split(buf).frames;
  }

  /** `on_data`'s loop ends on a buffer that holds no whole frame: what was dispatched is all of it. */
  lemma SplitDone(all: bytes, buf: bytes, done: seq<Frame>)
    requires done + Split(buf).frames == Split(all).frames
    requires Unpack(buf).None?
    ensures done == Split(all).frames && Split(buf).rest == buf
  {
    assert done + [] == done;
  }
}
