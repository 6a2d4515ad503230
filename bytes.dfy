/** The usual optional value. */
module Options {
  datatype Option<+T> = None | Some(value: T)
}

/**
 * Byte strings and the big-endian unsigned fields of the wire formats
 * (Python 2 `str` values and `struct.pack('>H' / '>I', ...)`).
 */
module Bytes {
  type byte = b: int | 0 <= b < 0x100
  type bytes = seq<byte>
  type uint16 = n: int | 0 <= n < 0x1_0000
  type uint32 = n: int | 0 <= n < 0x1_0000_0000

  /** The two bytes `struct.pack('>H', n)`. */
  function BE16(n: uint16): (r: bytes)
    ensures |r| == 2 && Uint16At(r, 0) == n
  {
    [n / 0x100, n % 0x100]
  }

  /** The big-endian 16-bit value at offset `i`, as `struct.unpack('>H', b[i:i+2])`. */
  function Uint16At(b: bytes, i: nat): uint16
    requires i + 2 <= |b|
  {
    (b[i] as int) * 0x100 + b[i + 1] as int
  }

  /** The four bytes `struct.pack('>I', n)`. */
  function BE32(n: uint32): (r: bytes)
    ensures |r| == 4 && Uint32At(r, 0) == n
  {
    var hi := n / 0x1_0000;
    var lo := n % 0x1_0000;
    assert n == hi * 0x1_0000 + lo;
    [hi / 0x100, hi % 0x100, lo / 0x100, lo % 0x100]
  }

  /** The big-endian 32-bit value at offset `i`, as `struct.unpack('>I', b[i:i+4])`. */
  function Uint32At(b: bytes, i: nat): uint32
    requires i + 4 <= |b|
  {
    Uint16At(b, i) * 0x1_0000 + Uint16At(b, i + 2)
  }

  /** Reading a 16-bit field back and re-encoding it gives the same two bytes. */
  lemma BE16OfRead(b: bytes, i: nat)
    requires i + 2 <= |b|
    ensures BE16(Uint16At(b, i)) == b[i..i + 2]
  {
  }

  /** Reading a 32-bit field back and re-encoding it gives the same four bytes. */
  lemma BE32OfRead(b: bytes, i: nat)
    requires i + 4 <= |b|
    ensures BE32(Uint32At(b, i)) == b[i..i + 4]
  {
    var n := Uint32At(b, i);
    var hi, lo := Uint16At(b, i), Uint16At(b, i + 2);
    assert n / 0x1_0000 == hi && n % 0x1_0000 == lo;
  }

  /** Concatenation of byte strings is associative. */
  lemma AppendAssoc(a: bytes, b: bytes, c: bytes)
    ensures (a + b) + c == a + (b + c)
  {
  }

  /** `''.join(chunks)`. */
  function Concat(chunks: seq<bytes>): bytes
  {
    if chunks == [] then [] else chunks[0] + Concat(chunks[1..])
  }

  /** Joining two queues one after the other is joining each and concatenating. */
  lemma {:induction false} ConcatAppend(a: seq<bytes>, b: seq<bytes>)
    ensures Concat(a + b) == Concat(a) + Concat(b)
  {
    if a == [] {
      assert a + b == b;
    } else {
      assert (a + b)[1..] == a[1..] + b;
      ConcatAppend(a[1..], b);
    }
  }

  /** A queue of one chunk joins to that chunk. */
  lemma ConcatSingle(c: bytes)
    ensures Concat([c]) == c
  {
    assert [c][1..] == [];
  }
}
