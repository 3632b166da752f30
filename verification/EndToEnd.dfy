/** From raw audio through a lossy network to the listener: audio, sender, wire and parser together. */
module EndToEnd {
  import opened Wrappers
  import opened Bytes
  import opened Wire
  import opened AudioFrames
  import opened Transmit

  const SAMPLES_PER_FRAME := 160
  const MAX_FRAMES := 0x800_0000  // 2^27

  /** The sample count of frame k when the first frame has count `start`. */
  function CountOf(start: int, k: nat): int {
    (start + k * SAMPLES_PER_FRAME) % U32
  }

  /** A listener: keeps the frames of each packet by sample count; the redundant frame is one frame older. */
  function Collect(received: seq<Packet>, payloadType: int): map<int, Frame> {
    if received == [] then map[]
    else Hear(Collect(received[..|received| - 1], payloadType), received[|received| - 1], payloadType)
  }

  function Hear(known: map<int, Frame>, packet: Packet, payloadType: int): map<int, Frame> {
    match ParsePolyTransmit(packet, payloadType)
    case Err(_) => known
    case Ok(p) => Store(known, p.sampleCount, p.audio)
  }

  function Store(known: map<int, Frame>, count: int, audio: seq<byte>): map<int, Frame> {
    if |audio| == FRAME_BYTES then known[count := audio]
    else if |audio| == 2 * FRAME_BYTES then
      known[(count - SAMPLES_PER_FRAME) % U32 := audio[..FRAME_BYTES]][count := audio[FRAME_BYTES..]]
    else known
  }

  function Playback(known: map<int, Frame>, start: int, n: nat): seq<byte>
    requires forall k :: 0 <= k < n ==> CountOf(start, k) in known
  {
    if n == 0 then [] else Playback(known, start, n - 1) + known[CountOf(start, n - 1)]
  }

  /** A target that never sent before, on a calibrated Poly page, in a session that fits the sample counter. */
  ghost predicate FreshSession(page: PolyPage, channel: int, v: View, frames: seq<Frame>) {
    && page.Valid() && Encodable(Poly(page), channel, frames)
    && v.previous.None? && 0 <= v.stream.timestamp < U32 && v.stream.step == SAMPLES_PER_FRAME
    && |frames| <= MAX_FRAMES
  }

  ghost function SessionOf(page: PolyPage, channel: int, v: View, frames: seq<Frame>): seq<Packet>
    requires FreshSession(page, channel, v, frames)
  {
    IdealSession(Poly(page), channel, v, frames)
  }

  ghost predicate Arrives(delivered: seq<nat>, k: nat) {
    ALERT_COUNT + k in delivered
  }

  /** Frame k reaches the listener in its own packet or, redundantly, in the next one. */
  ghost predicate Reaches(delivered: seq<nat>, n: nat, k: nat) {
    Arrives(delivered, k) || (k + 1 < n && Arrives(delivered, k + 1))
  }

  // ---------- Sample counts tell frames apart ----------

  lemma NotAMultiple(d: int, q: int)
    requires 0 < d < MAX_FRAMES
    ensures SAMPLES_PER_FRAME * d != q * U32
  {
    // dividing by 32, it is enough that 5 d is not a multiple of 2^27
    if q >= 5 {
      assert q * MAX_FRAMES >= 5 * MAX_FRAMES;
    }
    assert 5 * d != q * MAX_FRAMES;
  }

  /** Up to 2^27 frames the sample counts are distinct: 160 d is a multiple of 2^32 only if 2^27 divides d. */
  lemma CountsDistinct(start: int, a: nat, b: nat)
    requires a < b < MAX_FRAMES
    ensures CountOf(start, a) != CountOf(start, b)
  {
    var q := (start + b * SAMPLES_PER_FRAME) / U32 - (start + a * SAMPLES_PER_FRAME) / U32;
    assert SAMPLES_PER_FRAME * (b - a) == q * U32 + CountOf(start, b) - CountOf(start, a);
    NotAMultiple(b - a, q);
  }

  /** The bound is sharp: one frame more and two frames share a count. */
  lemma CountsCollide(start: int)
    ensures CountOf(start, 0) == CountOf(start, MAX_FRAMES)
  {
    ModShift(start, SAMPLES_PER_FRAME * MAX_FRAMES / U32, U32);
  }

  lemma PreviousCount(start: int, k: nat)
    requires k > 0
    ensures (CountOf(start, k) - SAMPLES_PER_FRAME) % U32 == CountOf(start, k - 1)
  {
    ModStep(start + k * SAMPLES_PER_FRAME, -SAMPLES_PER_FRAME, U32);
  }

  // ---------- What one delivered packet tells ----------

  lemma ControlIsNoAudio(page: PolyPage, channel: int, v: View, frames: seq<Frame>, d: nat)
    requires FreshSession(page, channel, v, frames) && d < |SessionOf(page, channel, v, frames)|
    requires !(ALERT_COUNT <= d < ALERT_COUNT + |frames|)
    ensures ParsePolyTransmit(SessionOf(page, channel, v, frames)[d], page.payloadType).Err?
  {
    assert |SessionOf(page, channel, v, frames)[d]| == CONTROL_HEADER_BYTES;
  }

  lemma AudioPacketTells(page: PolyPage, channel: int, v: View, frames: seq<Frame>, k: nat)
    requires FreshSession(page, channel, v, frames) && k < |frames|
    ensures var parsed := ParsePolyTransmit(SessionOf(page, channel, v, frames)[ALERT_COUNT + k], page.payloadType);
            && parsed.Ok?
            && parsed.value.sampleCount == CountOf(v.stream.timestamp, k)
            && parsed.value.audio == (if k == 0 then [] else frames[k - 1]) + frames[k]
  {
    var wire := Poly(page);
    var packet := AudioPacket(wire, channel, v, frames, k);
    assert SessionOf(page, channel, v, frames)[ALERT_COUNT + k] == packet.value;
    var s := StreamAt(v.stream, k);
    ParseOfBuild(page, frames[k], s.timestamp, s.ssrc, channel, if k == 0 then None else Some(frames[k - 1]));
    ModStep(v.stream.timestamp + k * SAMPLES_PER_FRAME, 0, U32);
  }

  // ---------- What the listener knows ----------

  /** The map holds exactly the frames that reach the listener, each under its own count. */
  ghost predicate Knows(known: map<int, Frame>, start: int, frames: seq<Frame>, delivered: seq<nat>) {
    && (forall k :: 0 <= k < |frames| && Reaches(delivered, |frames|, k) ==>
          CountOf(start, k) in known && known[CountOf(start, k)] == frames[k])
    && (forall c :: c in known ==>
          exists k :: 0 <= k < |frames| && Reaches(delivered, |frames|, k) && CountOf(start, k) == c)
  }

  lemma KnowsMore(known: map<int, Frame>, start: int, frames: seq<Frame>, delivered: seq<nat>, j: nat)
    requires |frames| <= MAX_FRAMES && forall i :: 0 <= i < |frames| ==> |frames[i]| == FRAME_BYTES
    requires Knows(known, start, frames, delivered) && j < |frames|
    ensures Knows(Store(known, CountOf(start, j), (if j == 0 then [] else frames[j - 1]) + frames[j]),
                  start, frames, delivered + [ALERT_COUNT + j])
  {
    var audio := (if j == 0 then [] else frames[j - 1]) + frames[j];
    var more := Store(known, CountOf(start, j), audio);
    var after := delivered + [ALERT_COUNT + j];
    if j == 0 {
      assert audio == frames[0];
    } else {
      PreviousCount(start, j);
      assert audio[..FRAME_BYTES] == frames[j - 1] && audio[FRAME_BYTES..] == frames[j];
    }
    forall k | 0 <= k < |frames| && Reaches(after, |frames|, k)
      ensures CountOf(start, k) in more && more[CountOf(start, k)] == frames[k]
    {
      if k != j {
        CountsDistinct(start, if k < j then k else j, if k < j then j else k);
      }
      if k != j && k != j - 1 {
        if j > 0 {
          CountsDistinct(start, if k < j - 1 then k else j - 1, if k < j - 1 then j - 1 else k);
        }
        assert Reaches(delivered, |frames|, k);
      }
    }
    forall c | c in more
      ensures exists k :: 0 <= k < |frames| && Reaches(after, |frames|, k) && CountOf(start, k) == c
    {
      if c == CountOf(start, j) {
        assert Reaches(after, |frames|, j);
      } else if j > 0 && c == CountOf(start, j - 1) {
        assert Reaches(after, |frames|, j - 1);
      } else {
        var k :| 0 <= k < |frames| && Reaches(delivered, |frames|, k) && CountOf(start, k) == c;
        assert Reaches(after, |frames|, k);
      }
    }
  }

  lemma KnowsSame(known: map<int, Frame>, start: int, frames: seq<Frame>, delivered: seq<nat>, d: nat)
    requires Knows(known, start, frames, delivered)
    requires !(ALERT_COUNT <= d < ALERT_COUNT + |frames|)
    ensures Knows(known, start, frames, delivered + [d])
  {
    var after := delivered + [d];
    forall k | 0 <= k < |frames| ensures Reaches(after, |frames|, k) <==> Reaches(delivered, |frames|, k) {
    }
    forall c | c in known
      ensures exists k :: 0 <= k < |frames| && Reaches(after, |frames|, k) && CountOf(start, k) == c
    {
      var k :| 0 <= k < |frames| && Reaches(delivered, |frames|, k) && CountOf(start, k) == c;
      assert Reaches(after, |frames|, k);
    }
  }

  ghost function Received(session: seq<Packet>, delivered: seq<nat>): (r: seq<Packet>)
    requires forall i :: 0 <= i < |delivered| ==> delivered[i] < |session|
    ensures |r| == |delivered|
  {
    seq(|delivered|, i requires 0 <= i < |delivered| => session[delivered[i]])
  }

  lemma HearsAudio(packet: Packet, payloadType: int, known: map<int, Frame>, start: int, frames: seq<Frame>,
                   delivered: seq<nat>, k: nat)
    requires |frames| <= MAX_FRAMES && forall i :: 0 <= i < |frames| ==> |frames[i]| == FRAME_BYTES
    requires Knows(known, start, frames, delivered) && k < |frames|
    requires ParsePolyTransmit(packet, payloadType).Ok?
    requires ParsePolyTransmit(packet, payloadType).value.sampleCount == CountOf(start, k)
    requires ParsePolyTransmit(packet, payloadType).value.audio == (if k == 0 then [] else frames[k - 1]) + frames[k]
    ensures Knows(Hear(known, packet, payloadType), start, frames, delivered + [ALERT_COUNT + k])
  {
    KnowsMore(known, start, frames, delivered, k);
  }

  lemma HearsOne(page: PolyPage, channel: int, v: View, frames: seq<Frame>, known: map<int, Frame>,
                 delivered: seq<nat>, d: nat)
    requires FreshSession(page, channel, v, frames) && d < |SessionOf(page, channel, v, frames)|
    requires Knows(known, v.stream.timestamp, frames, delivered)
    ensures Knows(Hear(known, SessionOf(page, channel, v, frames)[d], page.payloadType),
                  v.stream.timestamp, frames, delivered + [d])
  {
    var packet := SessionOf(page, channel, v, frames)[d];
    if ALERT_COUNT <= d < ALERT_COUNT + |frames| {
      AudioPacketTells(page, channel, v, frames, d - ALERT_COUNT);
      HearsAudio(packet, page.payloadType, known, v.stream.timestamp, frames, delivered, d - ALERT_COUNT);
    } else {
      ControlIsNoAudio(page, channel, v, frames, d);
      KnowsSame(known, v.stream.timestamp, frames, delivered, d);
    }
  }

  /** Whatever is delivered, in any order and with repetitions, the listener knows exactly the frames that reach it. */
  lemma {:induction false} ListenerKnows(page: PolyPage, channel: int, v: View, frames: seq<Frame>,
                                         session: seq<Packet>, delivered: seq<nat>)
    requires FreshSession(page, channel, v, frames) && session == SessionOf(page, channel, v, frames)
    requires forall i :: 0 <= i < |delivered| ==> delivered[i] < |session|
    ensures Knows(Collect(Received(session, delivered), page.payloadType), v.stream.timestamp, frames, delivered)
    decreases |delivered|
  {
    if delivered == [] {
    } else {
      var n := |delivered| - 1;
      ListenerKnows(page, channel, v, frames, session, delivered[..n]);
      assert Received(session, delivered)[..n] == Received(session, delivered[..n]);
      HearsOne(page, channel, v, frames, Collect(Received(session, delivered[..n]), page.payloadType),
               delivered[..n], delivered[n]);
      assert delivered == delivered[..n] + [delivered[n]];
    }
  }

  /** No two neighbouring audio packets are lost and the last one arrives. */
  ghost predicate NoTwoAdjacentLost(delivered: seq<nat>, n: nat) {
    && (forall k :: 0 <= k && k + 1 < n ==> Arrives(delivered, k) || Arrives(delivered, k + 1))
    && (n > 0 ==> Arrives(delivered, n - 1))
  }

  lemma {:induction false} PlaybackIsConcat(known: map<int, Frame>, start: int, frames: seq<Frame>, n: nat)
    requires n <= |frames|
    requires forall k :: 0 <= k < n ==> CountOf(start, k) in known && known[CountOf(start, k)] == frames[k]
    ensures Playback(known, start, n) == Concat(frames[..n])
  {
    if n > 0 {
      PlaybackIsConcat(known, start, frames, n - 1);
      assert frames[..n][..n - 1] == frames[..n - 1];
    }
  }

  ghost predicate Complete(known: map<int, Frame>, start: int, n: nat) {
    forall k :: 0 <= k < n ==> CountOf(start, k) in known
  }

  lemma CompleteReaches(known: map<int, Frame>, start: int, frames: seq<Frame>, delivered: seq<nat>, k: nat)
    requires |frames| <= MAX_FRAMES && Knows(known, start, frames, delivered)
    requires k < |frames| && CountOf(start, k) in known
    ensures Reaches(delivered, |frames|, k)
  {
    var j :| 0 <= j < |frames| && Reaches(delivered, |frames|, j) && CountOf(start, j) == CountOf(start, k);
    if j < k {
      CountsDistinct(start, j, k);
    } else if k < j {
      CountsDistinct(start, k, j);
    }
  }

  lemma HoleFreeIffNoTwoAdjacentLost(known: map<int, Frame>, start: int, frames: seq<Frame>, delivered: seq<nat>)
    requires |frames| <= MAX_FRAMES && Knows(known, start, frames, delivered)
    ensures Complete(known, start, |frames|) <==> NoTwoAdjacentLost(delivered, |frames|)
  {
    var n := |frames|;
    if NoTwoAdjacentLost(delivered, n) {
      forall k | 0 <= k < n ensures CountOf(start, k) in known {
        assert Reaches(delivered, n, k);
      }
    }
    if Complete(known, start, n) {
      forall k | 0 <= k && k + 1 < n ensures Arrives(delivered, k) || Arrives(delivered, k + 1) {
        assert CountOf(start, k) in known;
        CompleteReaches(known, start, frames, delivered, k);
      }
      if n > 0 {
        assert CountOf(start, n - 1) in known;
        CompleteReaches(known, start, frames, delivered, n - 1);
      }
    }
  }

  lemma PlaybackOfAll(known: map<int, Frame>, start: int, frames: seq<Frame>, delivered: seq<nat>)
    requires Knows(known, start, frames, delivered) && NoTwoAdjacentLost(delivered, |frames|)
    ensures forall k :: 0 <= k < |frames| ==> CountOf(start, k) in known
    ensures Playback(known, start, |frames|) == Concat(frames)
  {
    forall k | 0 <= k < |frames| ensures Reaches(delivered, |frames|, k) {
    }
    PlaybackIsConcat(known, start, frames, |frames|);
    assert frames[..|frames|] == frames;
  }

  /**
   * The whole path. A listener can fill every sample count exactly when no two adjacent audio packets are lost
   * and the last one arrives; it then plays the raw audio padded or cut to whole frames.
   */
  lemma AudioSurvivesLoss(page: PolyPage, channel: int, v: View, frames: seq<Frame>, delivered: seq<nat>,
                          raw: seq<byte>, paddingByte: Option<byte>)
    requires FreshSession(page, channel, v, frames)
    requires Concat(frames) == WholeFrames(raw, FRAME_BYTES, paddingByte)
    requires forall i :: 0 <= i < |delivered| ==> delivered[i] < |SessionOf(page, channel, v, frames)|
    ensures var known := Collect(Received(SessionOf(page, channel, v, frames), delivered), page.payloadType);
            var start := v.stream.timestamp;
            && (Complete(known, start, |frames|) <==> NoTwoAdjacentLost(delivered, |frames|))
            && (NoTwoAdjacentLost(delivered, |frames|) ==>
                  Playback(known, start, |frames|) == WholeFrames(raw, FRAME_BYTES, paddingByte))
  {
    var session := SessionOf(page, channel, v, frames);
    var known := Collect(Received(session, delivered), page.payloadType);
    ListenerKnows(page, channel, v, frames, session, delivered);
    HoleFreeIffNoTwoAdjacentLost(known, v.stream.timestamp, frames, delivered);
    if NoTwoAdjacentLost(delivered, |frames|) {
      PlaybackOfAll(known, v.stream.timestamp, frames, delivered);
    }
  }

  /** The same for each codec of the table that Poly pages take: its padding, its frame size and its RTP clock. */
  lemma PolyCodecsSurviveLoss(spec: CodecSpec, page: PolyPage, channel: int, v: View, frames: seq<Frame>,
                              delivered: seq<nat>, raw: seq<byte>)
    requires spec in CODECS && IsPolyCodec(spec.payloadType) && page.payloadType == spec.payloadType
    requires page.Valid() && Encodable(Poly(page), channel, frames) && v.previous.None? && |frames| <= MAX_FRAMES
    requires 0 <= v.stream.timestamp < U32 && v.stream.step == spec.rtpClockRate / 50
    requires Concat(frames) == WholeFrames(raw, spec.frameBytes, spec.paddingByte)
    requires NoTwoAdjacentLost(delivered, |frames|)
    requires forall i :: 0 <= i < |delivered| ==> delivered[i] < |SessionOf(page, channel, v, frames)|
    ensures var known := Collect(Received(SessionOf(page, channel, v, frames), delivered), page.payloadType);
            && (forall k :: 0 <= k < |frames| ==> CountOf(v.stream.timestamp, k) in known)
            && Playback(known, v.stream.timestamp, |frames|)
               == if spec == PCMU then WholeFrames(raw, 160, Some(0xFF)) else WholeFrames(raw, 160, None)
  {
    assert spec == PCMU || spec == G722;
    AudioSurvivesLoss(page, channel, v, frames, delivered, raw, spec.paddingByte);
  }
}
