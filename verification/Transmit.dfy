/** The sender: `bell/wire/base.py:27-44` and `bell/transmit.py:41-219`. */
module Transmit {
  import opened Wrappers
  import opened Bytes
  import opened Wire

  datatype WireFormat = Plain(payloadType: byte) | Poly(page: PolyPage) {
    ghost predicate Valid() {
      match this
      case Plain(pt) => pt < 128
      case Poly(page) => page.Valid()
    }
  }

  type Frame = seq<byte>

  function Build(wire: WireFormat, frame: Frame, seqNumber: int, timestamp: int, ssrc: int, marker: bool, channel: int,
                 previous: Option<Frame>): Result<Packet, WireError>
    requires wire.Valid()
  {
    match wire
    case Plain(pt) => BuildPlain(pt, frame, seqNumber, timestamp, ssrc, marker, channel)
    case Poly(page) => BuildPoly(page, frame, timestamp, ssrc, channel, previous)
  }

  // ---------- What one target does, seen from its own send results ----------

  /** RTP counters as values. */
  datatype Stream = Stream(seqNumber: int, timestamp: int, ssrc: int, step: int)

  function Advance(s: Stream): Stream {
    s.(seqNumber := (s.seqNumber + 1) % U16, timestamp := (s.timestamp + s.step) % U32)
  }

  /** One socket: whether it failed, what it accepted in this session, and how often it was called in its life. */
  datatype Line = Line(failed: bool, sent: seq<Packet>, calls: nat)

  datatype View = View(stream: Stream, previous: Option<Frame>, line: Line)

  /** The outcome of the n-th `sendto` on a socket: true when the whole datagram was accepted. */
  type Socket = nat -> bool

  function Offer(line: Line, socket: Socket, packet: Packet): Line {
    if line.failed then line
    else if socket(line.calls) then Line(false, line.sent + [packet], line.calls + 1)
    else Line(true, line.sent, line.calls + 1)
  }

  function OfferAll(line: Line, socket: Socket, packets: seq<Packet>): Line
    decreases |packets|
  {
    if packets == [] then line else OfferAll(Offer(line, socket, packets[0]), socket, packets[1..])
  }

  /** One frame for one target, as coded: a failed target is skipped before anything is built. */
  function AudioStep(v: View, socket: Socket, wire: WireFormat, channel: int, marker: bool, frame: Frame): View
    requires wire.Valid()
  {
    if v.line.failed then v
    else
      match Build(wire, frame, v.stream.seqNumber, v.stream.timestamp, v.stream.ssrc, marker, channel, v.previous)
      case Err(_) => v.(stream := Advance(v.stream))
      case Ok(packet) => View(Advance(v.stream), Some(frame), Offer(v.line, socket, packet))
  }

  function AudioSteps(v: View, socket: Socket, wire: WireFormat, channel: int, frames: seq<Frame>): View
    requires wire.Valid()
  {
    if frames == [] then v
    else AudioStep(AudioSteps(v, socket, wire, channel, frames[..|frames| - 1]), socket, wire, channel,
                   |frames| == 1, frames[|frames| - 1])
  }

  // ---------- The ideal session: what goes out when nothing fails ----------

  function Control(wire: WireFormat, opcode: byte, channel: int, ssrc: int): (r: Result<Packet, WireError>)
    requires wire.Poly? && wire.Valid()
    requires opcode == POLY_ALERT || opcode == POLY_END
    ensures r.Ok? <==> wire.page.calibrated && 1 <= channel <= 25
  {
    BuildControl(wire.page, opcode, channel, ssrc)
  }

  /** The counters of the k-th packet, in closed form. */
  function StreamAt(s: Stream, k: nat): Stream {
    if k == 0 then s
    else s.(seqNumber := (s.seqNumber + k) % U16, timestamp := (s.timestamp + k * s.step) % U32)
  }

  function AudioPacket(wire: WireFormat, channel: int, v: View, frames: seq<Frame>, k: nat): Result<Packet, WireError>
    requires wire.Valid() && k < |frames|
  {
    var s := StreamAt(v.stream, k);
    Build(wire, frames[k], s.seqNumber, s.timestamp, s.ssrc, k == 0, channel,
          if k == 0 then v.previous else Some(frames[k - 1]))
  }

  /** When the builders accept everything this session asks of them. */
  ghost predicate Encodable(wire: WireFormat, channel: int, frames: seq<Frame>) {
    match wire
    case Plain(_) => channel == 0
    case Poly(page) =>
      page.calibrated && 1 <= channel <= 25 && forall i :: 0 <= i < |frames| ==> |frames[i]| == FRAME_BYTES
  }

  ghost predicate FitsWire(wire: WireFormat, v: View) {
    wire.Poly? && v.previous.Some? ==> |v.previous.value| == FRAME_BYTES
  }

  ghost function AudioPackets(wire: WireFormat, channel: int, v: View, frames: seq<Frame>): (r: seq<Packet>)
    requires wire.Valid() && Encodable(wire, channel, frames) && FitsWire(wire, v)
    ensures |r| == |frames|
  {
    seq(|frames|, k requires 0 <= k < |frames| => AudioPacket(wire, channel, v, frames, k).value)
  }

  ghost function Controls(wire: WireFormat, opcode: byte, channel: int, ssrc: int, n: nat): seq<Packet>
    requires wire.Valid()
    requires opcode == POLY_ALERT || opcode == POLY_END
    requires wire.Poly? ==> wire.page.calibrated && 1 <= channel <= 25
  {
    if wire.Plain? then [] else Repeat(Control(wire, opcode, channel, ssrc).value, n)
  }

  /** ALERT 31 times, the audio, END 12 times; on plain RTP only the audio. */
  ghost function IdealSession(wire: WireFormat, channel: int, v: View, frames: seq<Frame>): seq<Packet>
    requires wire.Valid() && Encodable(wire, channel, frames) && FitsWire(wire, v)
  {
    Controls(wire, POLY_ALERT, channel, v.stream.ssrc, ALERT_COUNT)
    + AudioPackets(wire, channel, v, frames)
    + Controls(wire, POLY_END, channel, v.stream.ssrc, END_COUNT)
  }

  /** How many of `n` offers a socket takes before its first refusal. */
  function AcceptedCount(socket: Socket, from: nat, n: nat): (m: nat)
    ensures m <= n
    ensures forall i :: from <= i < from + m ==> socket(i)
    ensures m < n ==> !socket(from + m)
    decreases n
  {
    if n == 0 || !socket(from) then 0 else 1 + AcceptedCount(socket, from + 1, n - 1)
  }

  lemma {:induction false} OfferAllConcat(line: Line, socket: Socket, a: seq<Packet>, b: seq<Packet>)
    ensures OfferAll(line, socket, a + b) == OfferAll(OfferAll(line, socket, a), socket, b)
    decreases |a|
  {
    if a == [] {
      assert a + b == b;
    } else {
      OfferAllConcat(Offer(line, socket, a[0]), socket, a[1..], b);
      assert (a + b)[0] == a[0] && (a + b)[1..] == a[1..] + b;
    }
  }

  lemma {:induction false} FailedStaysSilent(line: Line, socket: Socket, packets: seq<Packet>)
    requires line.failed
    ensures OfferAll(line, socket, packets) == line
    decreases |packets|
  {
    if packets != [] {
      FailedStaysSilent(line, socket, packets[1..]);
    }
  }

  /** A socket gets a prefix of what is offered: everything up to its first refusal and nothing after it. */
  lemma {:induction false} OfferAllIsPrefix(line: Line, socket: Socket, packets: seq<Packet>)
    requires !line.failed
    ensures var m := AcceptedCount(socket, line.calls, |packets|);
            && OfferAll(line, socket, packets).sent == line.sent + packets[..m]
            && (OfferAll(line, socket, packets).failed <==> m < |packets|)
    decreases |packets|
  {
    if packets == [] {
    } else if socket(line.calls) {
      var next, rest := Offer(line, socket, packets[0]), packets[1..];
      OfferAllIsPrefix(next, socket, rest);
      var m := AcceptedCount(socket, next.calls, |rest|);
      assert AcceptedCount(socket, line.calls, |packets|) == m + 1;
      assert next.sent + rest[..m] == line.sent + packets[..m + 1];
    } else {
      FailedStaysSilent(Offer(line, socket, packets[0]), socket, packets[1..]);
    }
  }

  lemma StreamStep(s: Stream, k: nat)
    ensures Advance(StreamAt(s, k)) == StreamAt(s, k + 1)
  {
    if k > 0 {
      ModStep(s.seqNumber + k, 1, U16);
      ModStep(s.timestamp + k * s.step, s.step, U32);
      assert s.timestamp + k * s.step + s.step == s.timestamp + (k + 1) * s.step;
    }
  }

  /** The counters after `k` calls of `next`. */
  function AdvanceBy(s: Stream, k: nat): Stream {
    if k == 0 then s else Advance(AdvanceBy(s, k - 1))
  }

  /** `k` calls add up: the sequence number by k modulo 2^16, the timestamp by k steps modulo 2^32. */
  lemma {:induction false} CountersInClosedForm(s: Stream, k: nat)
    ensures AdvanceBy(s, k) == StreamAt(s, k)
  {
    if k > 0 {
      CountersInClosedForm(s, k - 1);
      StreamStep(s, k - 1);
    }
  }

  lemma ModStep(x: int, d: int, n: int)
    requires n > 0
    ensures (x % n + d) % n == (x + d) % n
  {
    var y := x % n + d;
    var q := x / n;
    assert x + d == q * n + y;
    ModShift(y, q, n);
  }

  lemma {:induction false} ModShift(y: int, q: int, n: int)
    requires n > 0
    ensures (y + q * n) % n == y % n
  {
    var z := y + q * n;
    var d := z / n - y / n - q;
    assert z == z / n * n + z % n && y == y / n * n + y % n;
    assert d * n == z / n * n - y / n * n - q * n == y % n - z % n;
    assert d >= 1 ==> (d - 1) * n >= 0;
    assert d <= -1 ==> (d + 1) * n <= 0;
  }

  /** Until it fails, a target is at the k-th counters and was offered exactly the first k audio packets. */
  lemma {:induction false} AudioStepsOffer(v: View, socket: Socket, wire: WireFormat, channel: int, frames: seq<Frame>)
    requires wire.Valid() && Encodable(wire, channel, frames) && FitsWire(wire, v)
    ensures var w := AudioSteps(v, socket, wire, channel, frames);
            && w.line == OfferAll(v.line, socket, AudioPackets(wire, channel, v, frames))
            && w.stream.ssrc == v.stream.ssrc
            && (!w.line.failed ==>
                  && w.stream == StreamAt(v.stream, |frames|)
                  && w.previous == if frames == [] then v.previous else Some(frames[|frames| - 1]))
  {
    if frames == [] {
    } else {
      var k := |frames| - 1;
      var init := frames[..k];
      AudioStepsOffer(v, socket, wire, channel, init);
      var packets := AudioPackets(wire, channel, v, frames);
      var before := AudioPackets(wire, channel, v, init);
      assert forall i :: 0 <= i < k ==>
        AudioPacket(wire, channel, v, frames, i) == AudioPacket(wire, channel, v, init, i);
      assert packets == before + [packets[k]];
      OfferAllConcat(v.line, socket, before, [packets[k]]);
      var w := AudioSteps(v, socket, wire, channel, init);
      assert OfferAll(w.line, socket, [packets[k]]) == Offer(w.line, socket, packets[k]);
      StreamStep(v.stream, k);
    }
  }

  /** One target after a burst of `n` control packets. */
  ghost function Bursted(v: View, socket: Socket, wire: WireFormat, opcode: byte, channel: int, n: nat): View
    requires wire.Valid()
    requires opcode == POLY_ALERT || opcode == POLY_END
    requires wire.Poly? ==> wire.page.calibrated && 1 <= channel <= 25
  {
    v.(line := OfferAll(v.line, socket, Controls(wire, opcode, channel, v.stream.ssrc, n)))
  }

  /** One packet of a burst. */
  ghost function Controlled(v: View, socket: Socket, wire: WireFormat, opcode: byte, channel: int): View
    requires wire.Valid() && wire.Poly? && wire.page.calibrated && 1 <= channel <= 25
    requires opcode == POLY_ALERT || opcode == POLY_END
  {
    v.(line := Offer(v.line, socket, Control(wire, opcode, channel, v.stream.ssrc).value))
  }

  lemma OneMoreControl(v: View, socket: Socket, wire: WireFormat, opcode: byte, channel: int, n: nat)
    requires wire.Valid() && wire.Poly? && wire.page.calibrated && 1 <= channel <= 25
    requires opcode == POLY_ALERT || opcode == POLY_END
    ensures Bursted(v, socket, wire, opcode, channel, n + 1)
         == Controlled(Bursted(v, socket, wire, opcode, channel, n), socket, wire, opcode, channel)
  {
    var packet := Control(wire, opcode, channel, v.stream.ssrc).value;
    assert Repeat(packet, n + 1) == Repeat(packet, n) + [packet];
    OfferAllConcat(v.line, socket, Repeat(packet, n), [packet]);
    var line := OfferAll(v.line, socket, Repeat(packet, n));
    assert OfferAll(line, socket, [packet]) == Offer(line, socket, packet);
  }

  /** What `send` does to one target. */
  ghost function Session(v: View, socket: Socket, wire: WireFormat, channel: int, frames: seq<Frame>): View
    requires wire.Valid() && Encodable(wire, channel, frames)
  {
    var alerted := Bursted(v, socket, wire, POLY_ALERT, channel, ALERT_COUNT);
    var played := AudioSteps(alerted, socket, wire, channel, frames);
    Bursted(played, socket, wire, POLY_END, channel, END_COUNT)
  }

  /** The session of a target depends on its own socket alone and is the ideal one up to its first refused packet. */
  lemma SessionIsPrefixOfIdeal(v: View, socket: Socket, wire: WireFormat, channel: int, frames: seq<Frame>)
    requires wire.Valid() && Encodable(wire, channel, frames) && FitsWire(wire, v)
    requires v.line.sent == []
    ensures var ideal := IdealSession(wire, channel, v, frames);
            var m := if v.line.failed then 0 else AcceptedCount(socket, v.line.calls, |ideal|);
            var line := Session(v, socket, wire, channel, frames).line;
            && line.sent == ideal[..m]
            && (line.failed <==> v.line.failed || m < |ideal|)
  {
    var alert := Controls(wire, POLY_ALERT, channel, v.stream.ssrc, ALERT_COUNT);
    var end := Controls(wire, POLY_END, channel, v.stream.ssrc, END_COUNT);
    var alerted := v.(line := OfferAll(v.line, socket, alert));
    AudioStepsOffer(alerted, socket, wire, channel, frames);
    var audio := AudioPackets(wire, channel, v, frames);
    assert forall i :: 0 <= i < |frames| ==>
                         AudioPacket(wire, channel, alerted, frames, i) == AudioPacket(wire, channel, v, frames, i);
    assert AudioPackets(wire, channel, alerted, frames) == audio;
    OfferAllConcat(v.line, socket, alert, audio);
    OfferAllConcat(v.line, socket, alert + audio, end);
    var ideal := IdealSession(wire, channel, v, frames);
    if v.line.failed {
      FailedStaysSilent(v.line, socket, ideal);
    } else {
      OfferAllIsPrefix(v.line, socket, ideal);
    }
  }

  /**
   * What a receiver of a Poly session reads: of the packets that reach it, the first 31 are ALERT, then one TRANSMIT
   * for each frame, then END up to the twelfth; all of one channel, serial and caller ID.
   */
  lemma PolySessionOnTheWire(page: PolyPage, channel: int, v: View, socket: Socket, frames: seq<Frame>, i: nat)
    requires page.Valid() && Encodable(Poly(page), channel, frames) && FitsWire(Poly(page), v) && v.line.sent == []
    ensures var sent := Session(v, socket, Poly(page), channel, frames).line.sent;
            && |sent| <= 31 + |frames| + 12
            && (v.line.failed || (forall n :: v.line.calls <= n < v.line.calls + 31 + |frames| + 12 ==> socket(n)) ==>
                  |sent| == if v.line.failed then 0 else 31 + |frames| + 12)
            && (i < |sent| ==>
                  ReadIdentity(sent[i])
                  == Some(Identity(if i < 31 then 0x0F else if i < 31 + |frames| then 0x10 else 0xFF, channel + 25,
                                   v.stream.ssrc % 0x1_0000_0000, 13, page.callerId)))
  {
    var wire, ideal := Poly(page), IdealSession(Poly(page), channel, v, frames);
    SessionIsPrefixOfIdeal(v, socket, wire, channel, frames);
    var sent := Session(v, socket, wire, channel, frames).line.sent;
    if i < |sent| {
      assert sent[i] == ideal[i];
      IdealPacketReads(page, channel, v, frames, i);
    }
  }

  lemma IdealPacketReads(page: PolyPage, channel: int, v: View, frames: seq<Frame>, i: nat)
    requires page.Valid() && Encodable(Poly(page), channel, frames) && FitsWire(Poly(page), v)
    requires i < 31 + |frames| + 12
    ensures var ideal := IdealSession(Poly(page), channel, v, frames);
            && |ideal| == 31 + |frames| + 12
            && ReadIdentity(ideal[i])
            == Some(Identity(if i < 31 then 0x0F else if i < 31 + |frames| then 0x10 else 0xFF, channel + 25,
                             v.stream.ssrc % 0x1_0000_0000, 13, page.callerId))
  {
    var wire, ideal := Poly(page), IdealSession(Poly(page), channel, v, frames);
    if 31 <= i < 31 + |frames| {
      var k := i - 31;
      var s := StreamAt(v.stream, k);
      assert ideal[i] == AudioPacket(wire, channel, v, frames, k).value;
      var previous := if k == 0 then v.previous else Some(frames[k - 1]);
      ReadOfBuildPoly(page, frames[k], s.timestamp, s.ssrc, channel, previous);
    } else {
      var opcode := if i < 31 then POLY_ALERT else POLY_END;
      assert ideal[i] == Control(wire, opcode, channel, v.stream.ssrc).value;
      ReadOfBuildControl(page, opcode, channel, v.stream.ssrc);
    }
  }

  /** On plain RTP the k-th packet of a session carries frame k, counters k steps on, and the marker only when first. */
  lemma PlainSessionOnTheWire(payloadType: byte, v: View, frames: seq<Frame>, k: nat)
    requires payloadType < 128 && k < |frames|
    ensures ReadRtp(AudioPackets(Plain(payloadType), 0, v, frames)[k])
         == Some((RtpHeader(2, false, false, 0, k == 0, payloadType, (v.stream.seqNumber + k) % U16,
                            (v.stream.timestamp + k * v.stream.step) % U32, v.stream.ssrc % U32), frames[k]))
  {
    var s := StreamAt(v.stream, k);
    ReadOfBuildPlain(payloadType, frames[k], s.seqNumber, s.timestamp, s.ssrc, k == 0);
    if k > 0 {
      ModStep(v.stream.seqNumber + k, 0, U16);
      ModStep(v.stream.timestamp + k * v.stream.step, 0, U32);
    }
  }

  // ---------- The objects ----------

  /** RTP counters of one destination; `Next` returns the current values and advances them. */
  class StreamState {
    var seqNumber: int
    var timestamp: int
    const ssrc: int
    const timestampStep: int

    constructor (seqNumber: int, timestamp: int, ssrc: int, timestampStep: int)
      ensures this.seqNumber == seqNumber % U16 && this.timestamp == timestamp % U32
      ensures this.ssrc == ssrc % U32 && this.timestampStep == timestampStep
    {
      this.seqNumber := seqNumber % U16;
      this.timestamp := timestamp % U32;
      this.ssrc := ssrc % U32;
      this.timestampStep := timestampStep;
    }

    function Counters(): Stream
      reads this
    {
      Stream(seqNumber, timestamp, ssrc, timestampStep)
    }

    method Next() returns (current: (int, int, int))
      modifies this
      ensures current == old((seqNumber, timestamp, ssrc))
      ensures Counters() == Advance(old(Counters()))
    {
      current := (seqNumber, timestamp, ssrc);
      seqNumber := (seqNumber + 1) % U16;
      timestamp := (timestamp + timestampStep) % U32;
    }
  }

  class Target {
    const name: string
    const socket: Socket
    const state: StreamState
    var previousPayload: Option<Frame>
    var failed: bool
    var calls: nat
    ghost var sent: seq<Packet>  // what the socket accepted in this session

    constructor (name: string, socket: Socket, state: StreamState)
      ensures this.name == name && this.socket == socket && this.state == state
      ensures !failed && previousPayload == None && sent == [] && calls == 0
    {
      this.name, this.socket, this.state := name, socket, state;
      previousPayload, failed, calls, sent := None, false, 0, [];
    }

    ghost function LineNow(): Line
      reads this
    {
      Line(failed, sent, calls)
    }

    ghost function Snapshot(): View
      reads this, state
    {
      View(state.Counters(), previousPayload, LineNow())
    }

    /** `_send_packet`, with the bytes it adds to the target's count. */
    method SendPacket(packet: Packet) returns (accepted: nat)
      modifies this
      ensures LineNow() == Offer(old(LineNow()), socket, packet)
      ensures previousPayload == old(previousPayload)
      ensures accepted == TotalBytes(sent) - old(TotalBytes(sent))
    {
      if failed {
        return 0;
      }
      calls := calls + 1;
      if !socket(calls - 1) {
        failed := true;
        return 0;
      }
      assert (sent + [packet])[..|sent|] == sent;
      sent := sent + [packet];
      return |packet|;
    }
  }

  function TotalBytes(packets: seq<Packet>): nat {
    if packets == [] then 0 else TotalBytes(packets[..|packets| - 1]) + |packets[|packets| - 1]|
  }

  /** The bytes of a socket's packets add up. */
  lemma TotalBytesExactly(sent: seq<Packet>, packet: Packet)
    ensures TotalBytes([]) == 0 && TotalBytes(sent + [packet]) == TotalBytes(sent) + |packet|
  {
    assert (sent + [packet])[..|sent|] == sent;
  }

  /** The bytes accepted by all sockets that share a destination name. */
  ghost function Tally(name: string, names: seq<string>, views: seq<View>): nat
    requires |names| == |views|
  {
    if names == [] then 0
    else (if names[0] == name then TotalBytes(views[0].line.sent) else 0) + Tally(name, names[1..], views[1..])
  }

  lemma {:induction false} TallyUpdate(name: string, names: seq<string>, views: seq<View>, i: nat, v: View)
    requires |names| == |views| && i < |views|
    ensures Tally(name, names, views[i := v])
         == Tally(name, names, views)
            + (if names[i] == name then TotalBytes(v.line.sent) - TotalBytes(views[i].line.sent) else 0)
  {
    var next := views[i := v];
    if i == 0 {
      assert next[1..] == views[1..];
    } else {
      TallyUpdate(name, names[1..], views[1..], i - 1, v);
      assert next[1..] == views[1..][i - 1 := v];
    }
  }

  lemma {:induction false} TallyOfNothing(name: string, names: seq<string>, views: seq<View>)
    requires |names| == |views| && forall i :: 0 <= i < |views| ==> views[i].line.sent == []
    ensures Tally(name, names, views) == 0
  {
    if names != [] {
      TallyOfNothing(name, names[1..], views[1..]);
    }
  }

  /** The frames played: all of them, or those before the cancellation was seen. */
  function Played(frames: seq<Frame>, cancelledBefore: bool, stopAt: nat): (played: seq<Frame>)
    ensures |played| <= |frames| && forall k :: 0 <= k < |played| ==> played[k] == frames[k]
    ensures |played| == if cancelledBefore then 0 else if stopAt < |frames| then stopAt else |frames|
  {
    if cancelledBefore then [] else if stopAt < |frames| then frames[..stopAt] else frames
  }

  datatype TransmitResult = TransmitResult(packetCount: nat, destinationBytes: map<string, nat>,
                                           failedDestinations: set<string>, cancelled: bool)

  /** After the frames: how many went out, whether the cancellation was seen, and the byte counts. */
  datatype Progress = Progress(packetCount: nat, cancelled: bool, counts: map<string, nat>)

  class Transmitter {
    const wire: WireFormat
    const targets: seq<Target>

    ghost predicate Valid() {
      && wire.Valid()
      && (forall i, j :: 0 <= i < j < |targets| ==> targets[i] != targets[j] && targets[i].state != targets[j].state)
    }

    constructor (wire: WireFormat, targets: seq<Target>)
      requires wire.Valid()
      requires forall i, j :: 0 <= i < j < |targets| ==>
                 targets[i] != targets[j] && targets[i].state != targets[j].state
      ensures Valid() && this.wire == wire && this.targets == targets
    {
      this.wire, this.targets := wire, targets;
    }

    ghost function Footprint(): set<object> {
      (set t | t in targets :: t as object) + (set t | t in targets :: t.state as object)
    }

    ghost function Views(): (v: seq<View>)
      reads Footprint()
      ensures |v| == |targets|
    {
      seq(|targets|, i requires 0 <= i < |targets| reads Footprint() =>
        assert targets[i] in targets && targets[i].state as object in (set t | t in targets :: t.state as object);
        targets[i].Snapshot())
    }

    ghost function Names(): (n: seq<string>)
      ensures |n| == |targets|
    {
      seq(|targets|, i requires 0 <= i < |targets| => targets[i].name)
    }

    /** Byte counts say, per destination name, what the sockets of that name accepted in this session. */
    ghost predicate CountsMatch(counts: map<string, nat>)
      reads Footprint()
    {
      && (forall n :: n in Names() <==> n in counts)
      && (forall n :: n in counts ==> counts[n] == Tally(n, Names(), Views()))
    }

    lemma Disjoint(i: nat, j: nat)
      requires Valid() && i < |targets| && j < |targets| && i != j
      ensures targets[i] != targets[j] && targets[i].state != targets[j].state
    {
    }

    lemma CountsKept(counts: map<string, nat>, before: seq<View>, i: nat, v: View)
      requires |before| == |targets| && i < |targets| && v.line.sent == before[i].line.sent
      requires Views() == before[i := v]
      requires forall n :: n in Names() <==> n in counts
      requires forall n :: n in counts ==> counts[n] == Tally(n, Names(), before)
      ensures CountsMatch(counts)
    {
      forall n | n in counts ensures counts[n] == Tally(n, Names(), Views()) {
        TallyUpdate(n, Names(), before, i, v);
      }
    }

    method SendTo(i: nat, packet: Packet, counts: map<string, nat>) returns (updated: map<string, nat>)
      requires Valid() && i < |targets| && CountsMatch(counts)
      modifies targets[i]
      ensures Views()
           == old(Views())[i := old(Views())[i].(line := Offer(old(Views())[i].line, targets[i].socket, packet))]
      ensures CountsMatch(updated)
    {
      var target := targets[i];
      ghost var before := Views();
      var accepted := target.SendPacket(packet);
      ghost var v := before[i].(line := Offer(before[i].line, target.socket, packet));
      forall j | 0 <= j < |targets| && j != i ensures Views()[j] == before[j] {
        Disjoint(i, j);
      }
      assert Views() == before[i := v];
      assert Names()[i] == target.name && target.name in Names();
      updated := counts[target.name := counts[target.name] + accepted];
      forall n | n in updated ensures updated[n] == Tally(n, Names(), Views()) {
        TallyUpdate(n, Names(), before, i, v);
      }
    }

    method NextCounters(i: nat, ghost counts: map<string, nat>) returns (current: (int, int, int))
      requires Valid() && i < |targets| && CountsMatch(counts)
      modifies targets[i].state
      ensures var s := old(Views())[i].stream;
              && current == (s.seqNumber, s.timestamp, s.ssrc)
              && Views() == old(Views())[i := old(Views())[i].(stream := Advance(s))]
      ensures CountsMatch(counts)
    {
      ghost var before := Views();
      current := targets[i].state.Next();
      ghost var v := before[i].(stream := Advance(before[i].stream));
      forall j | 0 <= j < |targets| && j != i ensures Views()[j] == before[j] {
        Disjoint(i, j);
      }
      assert Views() == before[i := v];
      CountsKept(counts, before, i, v);
    }

    method Remember(i: nat, frame: Frame, ghost counts: map<string, nat>)
      requires Valid() && i < |targets| && CountsMatch(counts)
      modifies targets[i]
      ensures Views() == old(Views())[i := old(Views())[i].(previous := Some(frame))]
      ensures CountsMatch(counts)
    {
      ghost var before := Views();
      targets[i].previousPayload := Some(frame);
      ghost var v := before[i].(previous := Some(frame));
      forall j | 0 <= j < |targets| && j != i ensures Views()[j] == before[j] {
        Disjoint(i, j);
      }
      assert Views() == before[i := v];
      CountsKept(counts, before, i, v);
    }

    /** Lines 177-191 for one target. */
    method SendAudio(i: nat, marker: bool, frame: Frame, channel: int, counts: map<string, nat>)
      returns (r: Result<map<string, nat>, WireError>)
      requires Valid() && i < |targets| && CountsMatch(counts)
      modifies targets[i], targets[i].state
      ensures r.Err? ==> !old(Views())[i].line.failed && !Buildable(old(Views())[i], marker, frame, channel)
      ensures r.Ok? ==> CountsMatch(r.value)
      ensures r.Ok? ==>
                var v := AudioStep(old(Views())[i], targets[i].socket, wire, channel, marker, frame);
                Views() == old(Views())[i := v]
    {
      var target := targets[i];
      ghost var before := Views();
      if target.failed {
        assert Views() == before[i := before[i]];
        return Ok(counts);
      }
      var current := NextCounters(i, counts);
      var (seqNumber, timestamp, ssrc) := current;
      var packet := Build(wire, frame, seqNumber, timestamp, ssrc, marker, channel, target.previousPayload);
      assert Views()[i].previous == before[i].previous;
      if packet.Err? {
        return Err(packet.error);
      }
      var updated := SendTo(i, packet.value, counts);
      Remember(i, frame, updated);
      return Ok(updated);
    }

    ghost predicate Buildable(v: View, marker: bool, frame: Frame, channel: int)
      requires wire.Valid()
    {
      Build(wire, frame, v.stream.seqNumber, v.stream.timestamp, v.stream.ssrc, marker, channel, v.previous).Ok?
    }

    /** Lines 119-124: one packet of a burst to every target. */
    method SendRound(opcode: byte, channel: int, counts: map<string, nat>)
      returns (r: Result<map<string, nat>, WireError>)
      requires Valid() && wire.Poly? && CountsMatch(counts)
      requires opcode == POLY_ALERT || opcode == POLY_END
      modifies Footprint()
      ensures r.Ok? ==> CountsMatch(r.value)
      ensures wire.page.calibrated && 1 <= channel <= 25 ==>
                && r.Ok?
                && forall i :: 0 <= i < |targets| ==>
                     Views()[i] == Controlled(old(Views())[i], targets[i].socket, wire, opcode, channel)
    {
      ghost var encodable := wire.page.calibrated && 1 <= channel <= 25;
      ghost var before := Views();
      var updated := counts;
      for i := 0 to |targets|
        invariant CountsMatch(updated)
        invariant encodable ==> forall j :: 0 <= j < i ==>
                    Views()[j] == Controlled(before[j], targets[j].socket, wire, opcode, channel)
        invariant forall j :: i <= j < |targets| ==> Views()[j] == before[j]
      {
        assert targets[i] in targets;
        assert Views()[i].stream.ssrc == targets[i].state.ssrc;
        var packet := Control(wire, opcode, channel, targets[i].state.ssrc);
        if packet.Err? {
          return Err(packet.error);
        }
        updated := SendTo(i, packet.value, updated);
      }
      return Ok(updated);
    }

    /** `_send_poly_controls`: a burst of `count` equal packets to every target. */
    method SendPolyControls(opcode: byte, channel: int, count: nat, counts: map<string, nat>)
      returns (r: Result<map<string, nat>, WireError>)
      requires Valid() && wire.Poly? && CountsMatch(counts)
      requires opcode == POLY_ALERT || opcode == POLY_END
      modifies Footprint()
      ensures r.Ok? ==> CountsMatch(r.value)
      ensures wire.page.calibrated && 1 <= channel <= 25 ==>
                && r.Ok?
                && forall i :: 0 <= i < |targets| ==>
                     Views()[i] == Bursted(old(Views())[i], targets[i].socket, wire, opcode, channel, count)
    {
      hide Control, Offer;
      ghost var encodable := wire.page.calibrated && 1 <= channel <= 25;
      ghost var before := Views();
      r := Ok(counts);
      for index := 0 to count
        invariant r.Ok? && CountsMatch(r.value)
        invariant encodable ==> forall i :: 0 <= i < |targets| ==>
                    Views()[i] == Bursted(before[i], targets[i].socket, wire, opcode, channel, index)
      {
        if encodable {
          forall i | 0 <= i < |targets|
            ensures Bursted(before[i], targets[i].socket, wire, opcode, channel, index + 1)
                 == Controlled(Views()[i], targets[i].socket, wire, opcode, channel)
          {
            OneMoreControl(before[i], targets[i].socket, wire, opcode, channel, index);
          }
        }
        r := SendRound(opcode, channel, r.value);
        if r.Err? { return; }
      }
    }

    /** Lines 177-191: one frame to every target that has not failed. */
    method SendFrame(marker: bool, frame: Frame, channel: int, counts: map<string, nat>)
      returns (r: Result<map<string, nat>, WireError>)
      requires Valid() && CountsMatch(counts)
      modifies Footprint()
      ensures r.Err? ==> exists v :: v in old(Views()) && !v.line.failed && !Buildable(v, marker, frame, channel)
      ensures r.Ok? ==>
                && CountsMatch(r.value)
                && forall i :: 0 <= i < |targets| ==>
                     Views()[i] == AudioStep(old(Views())[i], targets[i].socket, wire, channel, marker, frame)
    {
      ghost var before := Views();
      var updated := counts;
      for i := 0 to |targets|
        invariant CountsMatch(updated)
        invariant forall j :: 0 <= j < i ==>
                    Views()[j] == AudioStep(before[j], targets[j].socket, wire, channel, marker, frame)
        invariant forall j :: i <= j < |targets| ==> Views()[j] == before[j]
      {
        assert targets[i] in targets;
        var sent := SendAudio(i, marker, frame, channel, updated);
        if sent.Err? {
          assert before[i] in before;
          return Err(sent.error);
        }
        updated := sent.value;
      }
      return Ok(updated);
    }

    lemma StaysBuildable(v: View, socket: Socket, channel: int, frames: seq<Frame>, k: nat)
      requires wire.Valid() && Encodable(wire, channel, frames) && FitsWire(wire, v) && k < |frames|
      ensures var w := AudioSteps(v, socket, wire, channel, frames[..k]);
              w.line.failed || Buildable(w, k == 0, frames[k], channel)
    {
      AudioStepsOffer(v, socket, wire, channel, frames[..k]);
    }

    /** Frame `index` of those played. */
    method PlayFrame(index: nat, frame: Frame, channel: int, ghost before: seq<View>, ghost played: seq<Frame>,
                     counts: map<string, nat>)
      returns (r: Result<map<string, nat>, WireError>)
      requires Valid() && CountsMatch(counts) && |before| == |targets|
      requires index < |played| && frame == played[index]
      requires CanSend(before, channel, played) ==> Playing(before, channel, played[..index])
      modifies Footprint()
      ensures r.Ok? ==> CountsMatch(r.value)
      ensures CanSend(before, channel, played) ==> r.Ok? && Playing(before, channel, played[..index + 1])
    {
      ghost var good := CanSend(before, channel, played);
      if good {
        NextFrameBuildable(before, channel, played, index);
      }
      r := SendFrame(index == 0, frame, channel, counts);
      assert played[..index + 1][..index] == played[..index];
    }

    /** Lines 159-192: frames until the cancellation is seen. */
    method SendAudioFrames(frames: seq<Frame>, channel: int, cancelledBefore: bool, stopAt: nat,
                           counts: map<string, nat>)
      returns (r: Result<Progress, WireError>)
      requires Valid() && CountsMatch(counts)
      modifies Footprint()
      ensures CanSend(old(Views()), channel, Played(frames, cancelledBefore, stopAt)) ==>
                r.Ok? && Playing(old(Views()), channel, Played(frames, cancelledBefore, stopAt))
      ensures r.Ok? ==>
                && r.value.packetCount == |Played(frames, cancelledBefore, stopAt)|
                && (r.value.cancelled <==> cancelledBefore || stopAt < |frames|)
                && CountsMatch(r.value.counts)
    {
      ghost var before := Views();
      ghost var played := Played(frames, cancelledBefore, stopAt);
      ghost var good := CanSend(before, channel, played);
      var updated := counts;
      var cancelled := cancelledBefore;
      var index := 0;
      while index < |frames|
        invariant index <= |played|
        invariant CountsMatch(updated)
        invariant cancelled == cancelledBefore
        invariant good ==> Playing(before, channel, played[..index])
      {
        if cancelled || stopAt <= index {
          cancelled := true;
          break;
        }
        var sent := PlayFrame(index, frames[index], channel, before, played, updated);
        if sent.Err? {
          return Err(sent.error);
        }
        updated := sent.value;
        index := index + 1;
      }
      assert played[..index] == played;
      return Ok(Progress(index, cancelled, updated));
    }

    ghost function FailedNames(): set<string>
      reads Footprint()
    {
      set i | 0 <= i < |targets| && Views()[i].line.failed :: targets[i].name
    }

    /** A name is reported exactly if a target of that name failed. */
    lemma FailedNamesExactly(name: string)
      ensures name in FailedNames() <==> exists i :: 0 <= i < |targets| && targets[i].failed && targets[i].name == name
    {
    }

    /** `destination_errors`: the names of the targets that failed. */
    method Failures() returns (failures: set<string>)
      ensures failures == FailedNames()
    {
      failures := {};
      for i := 0 to |targets|
        invariant failures == set j | 0 <= j < i && Views()[j].line.failed :: targets[j].name
      {
        if targets[i].failed {
          failures := failures + {targets[i].name};
        }
      }
    }

    /** The alert or end burst, which plain RTP does not have. */
    method Burst(opcode: byte, channel: int, count: nat, counts: map<string, nat>)
      returns (r: Result<map<string, nat>, WireError>)
      requires Valid() && CountsMatch(counts)
      requires opcode == POLY_ALERT || opcode == POLY_END
      modifies Footprint()
      ensures r.Ok? ==> CountsMatch(r.value)
      ensures (wire.Poly? ==> wire.page.calibrated && 1 <= channel <= 25) ==>
                && r.Ok?
                && forall i :: 0 <= i < |targets| ==>
                     Views()[i] == Bursted(old(Views())[i], targets[i].socket, wire, opcode, channel, count)
    {
      if wire.Plain? {
        return Ok(counts);
      }
      r := SendPolyControls(opcode, channel, count, counts);
    }

    /**
     * `send`. The cancel event is seen set right after the alert burst when `afterAlert`, or else first at
     * frame `stopAt`. Each target's session is a function of that target's own view and socket.
     */
    method Send(frames: seq<Frame>, channel: int, afterAlert: bool, stopAt: nat)
      returns (r: Result<TransmitResult, WireError>)
      requires Valid()
      requires forall i :: 0 <= i < |targets| ==> targets[i].sent == []
      modifies Footprint()
      ensures CanSend(old(Views()), channel, Played(frames, wire.Poly? && afterAlert, stopAt)) ==>
                r.Ok? && Sessions(old(Views()), channel, Played(frames, wire.Poly? && afterAlert, stopAt))
      ensures r.Ok? ==>
                && r.value.packetCount == |Played(frames, wire.Poly? && afterAlert, stopAt)|
                && (r.value.cancelled <==> (wire.Poly? && afterAlert) || stopAt < |frames|)
                && CountsMatch(r.value.destinationBytes)
                && r.value.failedDestinations == FailedNames()
    {
      hide Bursted, AudioSteps, Session, Tally;
      ghost var before := Views();
      ghost var played := Played(frames, wire.Poly? && afterAlert, stopAt);
      var counts := ZeroCounts();
      var alerted := Burst(POLY_ALERT, channel, ALERT_COUNT, counts);
      if alerted.Err? {
        return Err(alerted.error);
      }
      ghost var alertedViews := Views();
      if CanSend(before, channel, played) {
        StillFits(before, alertedViews, channel, played);
      }
      var audio := SendAudioFrames(frames, channel, wire.Poly? && afterAlert, stopAt, alerted.value);
      if audio.Err? {
        return Err(audio.error);
      }
      ghost var playedViews := Views();
      var Progress(packetCount, cancelled, audioCounts) := audio.value;
      var ended := Burst(POLY_END, channel, END_COUNT, audioCounts);
      if ended.Err? {
        return Err(ended.error);
      }
      if CanSend(before, channel, played) {
        SessionsComposed(before, alertedViews, playedViews, channel, played);
      }
      var failures := Failures();
      return Ok(TransmitResult(packetCount, ended.value, failures, cancelled));
    }

    /** Every target went through its own session. */
    ghost predicate Sessions(before: seq<View>, channel: int, played: seq<Frame>)
      requires wire.Valid() && |before| == |targets| && Encodable(wire, channel, played)
      reads Footprint()
    {
      forall i :: 0 <= i < |targets| ==>
                    Views()[i] == Session(before[i], targets[i].socket, wire, channel, played)
    }

    lemma StillFits(before: seq<View>, alerted: seq<View>, channel: int, played: seq<Frame>)
      requires wire.Valid() && |before| == |alerted| == |targets| && CanSend(before, channel, played)
      requires forall i :: 0 <= i < |targets| ==>
                 alerted[i] == Bursted(before[i], targets[i].socket, wire, POLY_ALERT, channel, ALERT_COUNT)
      ensures CanSend(alerted, channel, played)
    {
      forall i | 0 <= i < |targets| ensures FitsWire(wire, alerted[i]) {
        assert before[i] in before;
      }
    }

    lemma SessionsComposed(before: seq<View>, alerted: seq<View>, audio: seq<View>, channel: int, played: seq<Frame>)
      requires wire.Valid() && |before| == |alerted| == |audio| == |targets| && CanSend(before, channel, played)
      requires forall i :: 0 <= i < |targets| ==>
                 alerted[i] == Bursted(before[i], targets[i].socket, wire, POLY_ALERT, channel, ALERT_COUNT)
      requires forall i :: 0 <= i < |targets| ==>
                 audio[i] == AudioSteps(alerted[i], targets[i].socket, wire, channel, played)
      requires forall i :: 0 <= i < |targets| ==>
                 Views()[i] == Bursted(audio[i], targets[i].socket, wire, POLY_END, channel, END_COUNT)
      ensures Sessions(before, channel, played)
    {
      forall i | 0 <= i < |targets|
        ensures Views()[i] == Session(before[i], targets[i].socket, wire, channel, played)
      {
        assert before[i] in before;
        AudioStepsOffer(alerted[i], targets[i].socket, wire, channel, played);
      }
    }

    /** The builders accept the whole session for every target. */
    ghost predicate CanSend(views: seq<View>, channel: int, played: seq<Frame>) {
      Encodable(wire, channel, played) && forall v :: v in views ==> FitsWire(wire, v)
    }

    ghost predicate Playing(alerted: seq<View>, channel: int, frames: seq<Frame>)
      requires wire.Valid() && |alerted| == |targets|
      reads Footprint()
    {
      forall i :: 0 <= i < |targets| ==>
                    Views()[i] == AudioSteps(alerted[i], targets[i].socket, wire, channel, frames)
    }

    method ZeroCounts() returns (counts: map<string, nat>)
      requires forall i :: 0 <= i < |targets| ==> targets[i].sent == []
      ensures CountsMatch(counts)
    {
      counts := map t | t in targets :: t.name := 0;
      forall n | n in counts ensures counts[n] == Tally(n, Names(), Views()) {
        TallyOfNothing(n, Names(), Views());
      }
      forall n ensures n in Names() <==> n in counts {
        if n in Names() {
          var i :| 0 <= i < |targets| && Names()[i] == n;
          assert targets[i] in targets && targets[i].name == n;
        }
        if n in counts {
          var i :| 0 <= i < |targets| && targets[i].name == n;
          assert Names()[i] == n;
        }
      }
    }

    lemma NextFrameBuildable(alerted: seq<View>, channel: int, played: seq<Frame>, k: nat)
      requires wire.Valid() && |alerted| == |targets| && k < |played| && CanSend(alerted, channel, played)
      requires Playing(alerted, channel, played[..k])
      ensures forall v :: v in Views() && !v.line.failed ==> Buildable(v, k == 0, played[k], channel)
    {
      forall i | 0 <= i < |targets|
        ensures Views()[i].line.failed || Buildable(Views()[i], k == 0, played[k], channel)
      {
        assert alerted[i] in alerted;
        StaysBuildable(alerted[i], targets[i].socket, channel, played, k);
      }
    }
  }
}
