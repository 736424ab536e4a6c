/** Bytes and the big-endian 32-bit integers of encoding/binary. */
module Bytes {

  type Byte = b: nat | b < 256

  const U32: nat := 0x1_0000_0000

  datatype Option<T> = None | Some(value: T)

  /** uint32(v) in big-endian order; larger values lose their high bits. */
  function PutUint32(v: nat): (r: seq<Byte>)
    ensures |r| == 4
  {
    [v / 0x100_0000 % 256, v / 0x1_0000 % 256, v / 0x100 % 256, v % 256]
  }

  function Uint32(b: seq<Byte>): (v: nat)
    requires |b| >= 4
    ensures v < U32
  {
    (b[0] as int) * 0x100_0000 + (b[1] as int) * 0x1_0000 + (b[2] as int) * 0x100 + b[3]
  }

  lemma Uint32RoundTrip(v: nat)
    ensures Uint32(PutUint32(v)) == v % U32
  {
    var a := v / 0x100;
    var b := a / 0x100;
    var c := b / 0x100;
    assert v == a * 0x100 + v % 0x100;
    assert a == b * 0x100 + a % 0x100;
    assert b == c * 0x100 + b % 0x100;
    assert c == c / 0x100 * 0x100 + c % 0x100;
    assert v / 0x1_0000 == b && v / 0x100_0000 == c;
    assert v == (c / 0x100) * U32 + Uint32(PutUint32(v));
  }

  /** A buffer that starts with the encoding of v reads as v. */
  lemma Uint32At(b: seq<Byte>, v: nat)
    requires |b| >= 4 && b[..4] == PutUint32(v) && v < U32
    ensures Uint32(b) == v
  {
    Uint32RoundTrip(v);
    assert forall i :: 0 <= i < 4 ==> b[i] == b[..4][i];
  }

  /** Every four bytes are the encoding of the number they read as. */
  lemma PutUint32Inverse(b: seq<Byte>)
    requires |b| == 4
    ensures PutUint32(Uint32(b)) == b
  {
    var v, b0, b1, b2, b3 := Uint32(b), b[0] as int, b[1] as int, b[2] as int, b[3] as int;
    assert v == ((b0 * 0x100 + b1) * 0x100 + b2) * 0x100 + b3;
    assert v / 0x100 == (b0 * 0x100 + b1) * 0x100 + b2 && v % 0x100 == b3;
    assert v / 0x1_0000 == v / 0x100 / 0x100 == b0 * 0x100 + b1;
    assert v / 0x100_0000 == v / 0x1_0000 / 0x100 == b0;
  }
}
