/** Cutting raw codec audio into 20 ms frames: `bell/audio.py:37-44` and `bell/audio.py:135-146`. */
module AudioFrames {
  import opened Wrappers
  import opened Bytes

  datatype CodecSpec = CodecSpec(payloadType: byte, rtpClockRate: nat, frameBytes: nat, paddingByte: Option<byte>)

  const PCMU := CodecSpec(0, 8000, 160, Some(0xFF))
  const PCMA := CodecSpec(8, 8000, 160, Some(0xD5))
  /** 16 kHz audio on an 8 kHz RTP clock, as section 4.5.2 of RFC 3551 requires. */
  const G722 := CodecSpec(9, 8000, 160, None)

  const CODECS := [PCMU, PCMA, G722]

  function Concat(frames: seq<seq<byte>>): seq<byte> {
    if frames == [] then [] else Concat(frames[..|frames| - 1]) + frames[|frames| - 1]
  }

  function Min(a: int, b: int): int {
    if a < b then a else b
  }

  /** The audio a listener gets: padded to whole frames, or cut to whole frames when the codec has no padding byte. */
  function WholeFrames(raw: seq<byte>, frameBytes: nat, paddingByte: Option<byte>): seq<byte>
    requires frameBytes > 0
  {
    var rest := |raw| % frameBytes;
    if rest == 0 then raw
    else if paddingByte.None? then raw[..|raw| - rest]
    else raw + Repeat(paddingByte.value, frameBytes - rest)
  }

  /**
   * Whole frames, and nothing of the raw audio but a last part of a frame is lost: it is filled up with the padding
   * byte, or dropped if the codec has none.
   */
  lemma WholeFramesExactly(raw: seq<byte>, frameBytes: nat, paddingByte: Option<byte>)
    requires frameBytes > 0
    ensures var whole := WholeFrames(raw, frameBytes, paddingByte);
            && |whole| % frameBytes == 0
            && match paddingByte
               case Some(b) =>
                 && raw <= whole && |whole| < |raw| + frameBytes
                 && (forall i :: |raw| <= i < |whole| ==> whole[i] == b)
               case None => whole <= raw && |raw| < |whole| + frameBytes
  {
    var q, rest := |raw| / frameBytes, |raw| % frameBytes;
    assert |raw| == q * frameBytes + rest;
    Remainder(q, frameBytes, 0);
    Remainder(q + 1, frameBytes, 0);
    assert (q + 1) * frameBytes == q * frameBytes + frameBytes;
  }

  /** `load_frames`: reads a chunk at a time, pads a short last chunk or stops at it. */
  method LoadFrames(raw: seq<byte>, frameBytes: nat, paddingByte: Option<byte>) returns (frames: seq<seq<byte>>)
    requires frameBytes > 0
    ensures forall i :: 0 <= i < |frames| ==> |frames[i]| == frameBytes
    ensures Concat(frames) == WholeFrames(raw, frameBytes, paddingByte)
  {
    frames := [];
    var position := 0;
    while position < |raw|
      invariant 0 <= position <= |raw|
      invariant position == |raw| || position % frameBytes == 0
      invariant forall i :: 0 <= i < |frames| ==> |frames[i]| == frameBytes
      invariant position < |raw| || |raw| % frameBytes == 0 ==> Concat(frames) == raw[..position]
      invariant position == |raw| && |raw| % frameBytes != 0 ==>
                  Concat(frames) == WholeFrames(raw, frameBytes, paddingByte)
    {
      var next := Min(position + frameBytes, |raw|);
      var chunk := raw[position..next];
      LastChunk(|raw|, position, frameBytes);
      if |chunk| < frameBytes && paddingByte.None? {
        assert raw[..position] == WholeFrames(raw, frameBytes, paddingByte);
        return;
      }
      if paddingByte.Some? {
        chunk := chunk + Repeat(paddingByte.value, frameBytes - |chunk|);
      }
      assert (frames + [chunk])[..|frames|] == frames;
      assert raw[..position] + raw[position..next] == raw[..next];
      if next < position + frameBytes {
        assert raw[..position] + chunk == raw + Repeat(paddingByte.value, frameBytes - |raw| % frameBytes);
      }
      frames := frames + [chunk];
      position := next;
    }
    assert raw[..|raw|] == raw;
  }

  lemma LastChunk(length: nat, position: nat, frameBytes: nat)
    requires frameBytes > 0 && position < length && position % frameBytes == 0
    ensures (position + frameBytes) % frameBytes == 0
    ensures position + frameBytes > length ==> length % frameBytes == length - position
    ensures position + frameBytes == length ==> length % frameBytes == 0
  {
    var q := position / frameBytes;
    assert position == q * frameBytes;
    assert (q + 1) * frameBytes == position + frameBytes;
    Remainder(q + 1, frameBytes, 0);
    if length - position < frameBytes {
      Remainder(q, frameBytes, length - position);
    }
  }

  lemma Remainder(q: int, n: nat, r: nat)
    requires r < n
    ensures (q * n + r) % n == r
  {
    var x := q * n + r;
    var d := x / n - q;
    assert d * n == x / n * n - q * n == r - x % n;
    MultipleGrows(d, n);
  }

  lemma MultipleGrows(d: int, n: int)
    requires n >= 0
    ensures d >= 1 ==> d * n >= n
    ensures d <= -1 ==> d * n <= -n
  {
    assert d >= 1 ==> (d - 1) * n >= 0;
    assert d <= -1 ==> (d + 1) * n <= 0;
  }

  /** Frames of one size are determined by their concatenation, so `LoadFrames` has one possible result. */
  lemma {:induction false} FramesDetermined(a: seq<seq<byte>>, b: seq<seq<byte>>, frameBytes: nat)
    requires frameBytes > 0
    requires forall i :: 0 <= i < |a| ==> |a[i]| == frameBytes
    requires forall i :: 0 <= i < |b| ==> |b[i]| == frameBytes
    requires Concat(a) == Concat(b)
    ensures a == b
  {
    if a == [] || b == [] {
      assert a == [] ==> |Concat(b)| == 0;
      assert b == [] ==> |Concat(a)| == 0;
    } else {
      var a', b' := a[..|a| - 1], b[..|b| - 1];
      var n := |Concat(a)| - frameBytes;
      assert Concat(a)[..n] == Concat(a') && Concat(b)[..n] == Concat(b');
      assert Concat(a)[n..] == a[|a| - 1] && Concat(b)[n..] == b[|b| - 1];
      FramesDetermined(a', b', frameBytes);
      assert a == a' + [a[|a| - 1]] && b == b' + [b[|b| - 1]];
    }
  }
}
