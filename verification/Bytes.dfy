/** Bytes and the big-endian integer fields that `struct.pack("!...")` writes. */
module Bytes {
  type byte = x: int | 0 <= x < 256 witness 0

  const U16 := 0x1_0000
  const U32 := 0x1_0000_0000

  function Repeat<T>(x: T, n: nat): (s: seq<T>)
    ensures |s| == n && forall i :: 0 <= i < n ==> s[i] == x
  {
    seq(n, _ => x)
  }

  function PackU16(v: int): (b: seq<byte>)
    requires 0 <= v < U16
    ensures |b| == 2
  {
    [v / 256, v % 256]
  }

  function UnpackU16(b: seq<byte>): (v: int)
    requires |b| == 2
    ensures 0 <= v < U16
  {
    b[0] as int * 256 + b[1]
  }

  function PackU32(v: int): (b: seq<byte>)
    requires 0 <= v < U32
    ensures |b| == 4
  {
    [v / 0x100_0000, v / 0x1_0000 % 256, v / 256 % 256, v % 256]
  }

  function UnpackU32(b: seq<byte>): (v: int)
    requires |b| == 4
    ensures 0 <= v < U32
  {
    b[0] as int * 0x100_0000 + b[1] as int * 0x1_0000 + b[2] as int * 256 + b[3]
  }

  lemma U16RoundTrip(v: int)
    requires 0 <= v < U16
    ensures UnpackU16(PackU16(v)) == v
  {
  }

  /** A 32-bit field survives the wire: nothing is truncated and no byte is swapped. */
  lemma U32RoundTrip(v: int)
    requires 0 <= v < U32
    ensures UnpackU32(PackU32(v)) == v
  {
    assert v / 0x1_0000 == v / 0x100_0000 * 256 + v / 0x1_0000 % 256;
    assert v / 256 == v / 0x1_0000 * 256 + v / 256 % 256;
  }

  /** The four bytes are determined by the number they encode. */
  lemma U32BytesRoundTrip(b: seq<byte>)
    requires |b| == 4
    ensures PackU32(UnpackU32(b)) == b
  {
    var v := UnpackU32(b);
    assert v / 256 == b[0] as int * 0x1_0000 + b[1] as int * 256 + b[2];
    assert v / 0x1_0000 == b[0] as int * 256 + b[1];
    assert v / 0x100_0000 == b[0];
  }

  function Zeros(n: nat): (z: seq<byte>)
    ensures |z| == n
    ensures forall i :: 0 <= i < n ==> z[i] == 0
  {
    seq(n, _ => 0)
  }
}
