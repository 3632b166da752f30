/** The two wire formats and the packet parser: `bell/wire` and `bell/calibration.py:54-111`. */
module Wire {
  import opened Wrappers
  import opened Bytes

  type Packet = seq<byte>

  // ---------- Poly Group Page ----------

  const POLY_ALERT: byte := 0x0F
  const POLY_TRANSMIT: byte := 0x10
  const POLY_END: byte := 0xFF
  const CALLER_ID_BYTES := 13
  const CONTROL_HEADER_BYTES := 20
  const AUDIO_HEADER_BYTES := 6
  const HEADER_BYTES := CONTROL_HEADER_BYTES + AUDIO_HEADER_BYTES
  const CHANNEL_BIAS := 25
  const FRAME_BYTES := 160
  const ALERT_COUNT := 31
  const END_COUNT := 12

  datatype WireError =
    | UnsupportedPayloadType
    | BadCallerId
    | NotCalibrated
    | BadChannel
    | BadOpcode
    | BadFrameSize
    | BadRedundantFrame
    | ChannelOnPlainRtp

  predicate IsPolyCodec(payloadType: int) {
    payloadType == 0 || payloadType == 9
  }

  predicate IsAscii(s: seq<byte>) {
    forall i :: 0 <= i < |s| ==> s[i] < 128
  }

  /** `PolySpec` has one admissible value, the +25 bias; `calibrated` says whether it is set. */
  datatype PolyPage = PolyPage(calibrated: bool, payloadType: byte, callerId: seq<byte>) {
    ghost predicate Valid() {
      IsPolyCodec(payloadType) && |callerId| == CALLER_ID_BYTES
    }
  }

  /** `_caller_id_field`: 1 to 13 ASCII bytes, padded with NUL on the right. */
  function CallerIdField(callerId: seq<byte>): (r: Result<seq<byte>, WireError>)
    ensures r.Ok? <==> IsAscii(callerId) && 1 <= |callerId| <= CALLER_ID_BYTES
    ensures r.Ok? ==> |r.value| == CALLER_ID_BYTES && callerId <= r.value
    ensures r.Ok? ==> forall i :: |callerId| <= i < CALLER_ID_BYTES ==> r.value[i] == 0
  {
    if !IsAscii(callerId) || callerId == [] || |callerId| > CALLER_ID_BYTES then Err(BadCallerId)
    else Ok(callerId + Zeros(CALLER_ID_BYTES - |callerId|))
  }

  function NewPolyPage(calibrated: bool, payloadType: byte, callerId: seq<byte>): (r: Result<PolyPage, WireError>)
    ensures r.Ok? ==> r.value.Valid()
  {
    if !IsPolyCodec(payloadType) then Err(UnsupportedPayloadType) else
    match CallerIdField(callerId)
    case Err(e) => Err(e)
    case Ok(field) => Ok(PolyPage(calibrated, payloadType, field))
  }

  function IdentityHeader(page: PolyPage, opcode: byte, channel: int, hostSerial: int): (r: Result<Packet, WireError>)
    requires page.Valid()
    ensures r.Ok? <==> page.calibrated && 1 <= channel <= 25
    ensures r.Ok? ==> |r.value| == CONTROL_HEADER_BYTES
  {
    if !page.calibrated then Err(NotCalibrated)
    else if !(1 <= channel <= 25) then Err(BadChannel)
    else Ok([opcode, channel + CHANNEL_BIAS] + PackU32(hostSerial % U32) + [CALLER_ID_BYTES] + page.callerId)
  }

  function BuildControl(page: PolyPage, opcode: byte, channel: int, hostSerial: int): (r: Result<Packet, WireError>)
    requires page.Valid()
  {
    if opcode != POLY_ALERT && opcode != POLY_END then Err(BadOpcode)
    else IdentityHeader(page, opcode, channel, hostSerial)
  }

  /** The 32-bit number at an offset, most significant byte first. */
  function Network32(packet: Packet, at: nat): (v: int)
    requires at + 4 <= |packet|
    ensures 0 <= v < 0x1_0000_0000
  {
    ((packet[at] as int * 256 + packet[at + 1]) * 256 + packet[at + 2]) * 256 + packet[at + 3]
  }

  /** What a receiver reads at the front of every Poly packet. */
  datatype Identity = Identity(opcode: byte, encodedChannel: byte, hostSerial: int, callerIdLength: byte,
                               callerId: seq<byte>)

  function ReadIdentity(packet: Packet): (r: Option<Identity>)
    ensures r.Some? <==> |packet| >= 20
  {
    if |packet| < 20 then None
    else Some(Identity(packet[0], packet[1], Network32(packet, 2), packet[6], packet[7..20]))
  }

  /** A packed number is read back where it was put. */
  lemma NetworkOrder(packet: Packet, at: nat, v: int)
    requires 0 <= v < U32 && at + 4 <= |packet| && packet[at..at + 4] == PackU32(v)
    ensures Network32(packet, at) == v
  {
    var b := PackU32(v);
    U32RoundTrip(v);
    assert b[0] == packet[at] && b[1] == packet[at + 1] && b[2] == packet[at + 2] && b[3] == packet[at + 3];
  }

  lemma HeaderReads(page: PolyPage, opcode: byte, channel: int, hostSerial: int, rest: seq<byte>)
    requires page.Valid() && page.calibrated && 1 <= channel <= 25
    ensures ReadIdentity(IdentityHeader(page, opcode, channel, hostSerial).value + rest)
         == Some(Identity(opcode, channel + 25, hostSerial % 0x1_0000_0000, 13, page.callerId))
  {
    var packet := IdentityHeader(page, opcode, channel, hostSerial).value + rest;
    assert packet[2..6] == PackU32(hostSerial % U32) && packet[7..20] == page.callerId;
    NetworkOrder(packet, 2, hostSerial % U32);
  }

  /** A control packet is 20 bytes: the opcode asked for, channel + 25, the serial modulo 2^32, 13 and the caller ID. */
  lemma ReadOfBuildControl(page: PolyPage, opcode: byte, channel: int, hostSerial: int)
    requires page.Valid()
    ensures var r := BuildControl(page, opcode, channel, hostSerial);
            && (r.Ok? <==> page.calibrated && 1 <= channel <= 25 && (opcode == 0x0F || opcode == 0xFF))
            && (r.Ok? ==> |r.value| == 20
                          && ReadIdentity(r.value)
                          == Some(Identity(opcode, channel + 25, hostSerial % 0x1_0000_0000, 13, page.callerId)))
  {
    if page.calibrated && 1 <= channel <= 25 && (opcode == POLY_ALERT || opcode == POLY_END) {
      HeaderReads(page, opcode, channel, hostSerial, []);
      assert BuildControl(page, opcode, channel, hostSerial).value + []
          == BuildControl(page, opcode, channel, hostSerial).value;
    }
  }

  function BuildPoly(page: PolyPage, payload: seq<byte>, timestamp: int, ssrc: int, channel: int,
                     previous: Option<seq<byte>>): (r: Result<Packet, WireError>)
    requires page.Valid()
    ensures r.Ok? <==> |payload| == FRAME_BYTES && (previous.Some? ==> |previous.value| == FRAME_BYTES)
                       && page.calibrated && 1 <= channel <= 25
  {
    if |payload| != FRAME_BYTES then Err(BadFrameSize)
    else if previous.Some? && |previous.value| != |payload| then Err(BadRedundantFrame)
    else
      match IdentityHeader(page, POLY_TRANSMIT, channel, ssrc)
      case Err(e) => Err(e)
      case Ok(header) =>
        var audioHeader := [page.payloadType, 0] + PackU32(timestamp % U32);
        var redundant := if previous.None? then [] else previous.value;
        Ok(header + audioHeader + redundant + payload)
  }

  /** An audio packet begins with the same fields. */
  lemma ReadOfBuildPoly(page: PolyPage, payload: seq<byte>, timestamp: int, ssrc: int, channel: int,
                        previous: Option<seq<byte>>)
    requires page.Valid() && BuildPoly(page, payload, timestamp, ssrc, channel, previous).Ok?
    ensures ReadIdentity(BuildPoly(page, payload, timestamp, ssrc, channel, previous).value)
         == Some(Identity(0x10, channel + 25, ssrc % 0x1_0000_0000, 13, page.callerId))
  {
    var header := IdentityHeader(page, POLY_TRANSMIT, channel, ssrc).value;
    var packet := BuildPoly(page, payload, timestamp, ssrc, channel, previous).value;
    assert packet == header + packet[CONTROL_HEADER_BYTES..];
    HeaderReads(page, POLY_TRANSMIT, channel, ssrc, packet[CONTROL_HEADER_BYTES..]);
  }

  // ---------- The parser ----------

  datatype PolyPacket = PolyPacket(opcode: byte, encodedChannel: byte, hostSerial: int, callerIdLength: byte,
                                   callerId: seq<byte>, codecType: byte, flags: byte, sampleCount: int,
                                   audio: seq<byte>)

  datatype ParseError = UnknownCodec | TooShort | NotTransmit | NotPagingChannel | BadCallerLength
                      | WrongCodec | BadFlags | BadAudioSize | HeaderOnlyCapture

  function ParsePolyTransmit(packet: Packet, expected: int): (r: Result<PolyPacket, ParseError>)
    ensures r.Ok? ==> IsPolyCodec(expected) && |packet| >= HEADER_BYTES && |r.value.callerId| == CALLER_ID_BYTES
                      && 0 <= r.value.hostSerial < U32 && 0 <= r.value.sampleCount < U32
                      && 26 <= r.value.encodedChannel <= 50
  {
    if !IsPolyCodec(expected) then Err(UnknownCodec)
    else if |packet| < HEADER_BYTES then Err(TooShort)
    else if packet[0] != POLY_TRANSMIT then Err(NotTransmit)
    else if !(26 <= packet[1] <= 50) then Err(NotPagingChannel)
    else if packet[6] as int != CALLER_ID_BYTES then Err(BadCallerLength)
    else if packet[20] as int != expected then Err(WrongCodec)
    else if packet[21] != 0 then Err(BadFlags)
    else
      var audio := packet[HEADER_BYTES..];
      if audio != [] && |audio| != FRAME_BYTES && |audio| != 2 * FRAME_BYTES then Err(BadAudioSize)
      else Ok(PolyPacket(packet[0], packet[1], UnpackU32(packet[2..6]), packet[6], packet[7..20],
                         packet[20], packet[21], UnpackU32(packet[22..26]), audio))
  }

  /** The 26 header bytes that a parsed packet stands for (`bell/calibration.py:204-214`). */
  function PackedHeader(p: PolyPacket): (h: Packet)
    requires 0 <= p.hostSerial < U32 && 0 <= p.sampleCount < U32
  {
    [p.opcode, p.encodedChannel] + PackU32(p.hostSerial) + [p.callerIdLength] + p.callerId
    + [p.codecType, p.flags] + PackU32(p.sampleCount)
  }

  /** Builder, then parser: every field, the redundant frame and the current frame come back. */
  lemma ParseOfBuild(page: PolyPage, payload: seq<byte>, timestamp: int, ssrc: int, channel: int,
                     previous: Option<seq<byte>>)
    requires page.Valid()
    requires BuildPoly(page, payload, timestamp, ssrc, channel, previous).Ok?
    ensures ParsePolyTransmit(BuildPoly(page, payload, timestamp, ssrc, channel, previous).value, page.payloadType)
         == Ok(PolyPacket(POLY_TRANSMIT, channel + CHANNEL_BIAS, ssrc % U32, CALLER_ID_BYTES, page.callerId,
                          page.payloadType, 0, timestamp % U32,
                          (if previous.Some? then previous.value else []) + payload))
  {
    var packet := BuildPoly(page, payload, timestamp, ssrc, channel, previous).value;
    var audio := (if previous.Some? then previous.value else []) + payload;
    assert packet[2..6] == PackU32(ssrc % U32);
    assert packet[7..20] == page.callerId;
    assert packet[22..26] == PackU32(timestamp % U32);
    assert packet[HEADER_BYTES..] == audio;
    U32RoundTrip(ssrc % U32);
    U32RoundTrip(timestamp % U32);
  }

  /** Parser, then packer: the parsed record determines all 26 header bytes. */
  lemma BuildOfParse(packet: Packet, expected: int)
    requires ParsePolyTransmit(packet, expected).Ok?
    ensures var p := ParsePolyTransmit(packet, expected).value;
            packet == PackedHeader(p) + p.audio
  {
    var p := ParsePolyTransmit(packet, expected).value;
    U32BytesRoundTrip(packet[2..6]);
    U32BytesRoundTrip(packet[22..26]);
    var h := PackedHeader(p);
    assert h[2..6] == packet[2..6];
    assert h[22..26] == packet[22..26];
    forall i | 0 <= i < HEADER_BYTES ensures h[i] == packet[i] {
      if 2 <= i < 6 {
        assert h[i] == h[2..6][i - 2] && packet[i] == packet[2..6][i - 2];
      } else if 22 <= i < 26 {
        assert h[i] == h[22..26][i - 22] && packet[i] == packet[22..26][i - 22];
      }
    }
    assert |h| == HEADER_BYTES;
  }

  ghost predicate IsBuilt(packet: Packet, expected: int, page: PolyPage, payload: seq<byte>, timestamp: int, ssrc: int,
                          channel: int, previous: Option<seq<byte>>) {
    && page.Valid() && page.payloadType as int == expected
    && BuildPoly(page, payload, timestamp, ssrc, channel, previous) == Ok(packet)
  }

  /** What a parsed packet is built from, given its audio as redundant and current frame. */
  lemma BuiltFromParsed(packet: Packet, expected: int, previous: Option<seq<byte>>, payload: seq<byte>)
    requires ParsePolyTransmit(packet, expected).Ok? && |payload| == FRAME_BYTES
    requires previous.Some? ==> |previous.value| == FRAME_BYTES
    requires ParsePolyTransmit(packet, expected).value.audio
          == (if previous.Some? then previous.value else []) + payload
    ensures var p := ParsePolyTransmit(packet, expected).value;
            IsBuilt(packet, expected, PolyPage(true, p.codecType, p.callerId), payload, p.sampleCount, p.hostSerial,
                    p.encodedChannel as int - CHANNEL_BIAS, previous)
  {
    var p := ParsePolyTransmit(packet, expected).value;
    BuildOfParse(packet, expected);
    assert p.hostSerial % U32 == p.hostSerial && p.sampleCount % U32 == p.sampleCount;
    var header := [p.opcode, p.encodedChannel] + PackU32(p.hostSerial) + [p.callerIdLength] + p.callerId;
    var audioHeader := [p.codecType, p.flags] + PackU32(p.sampleCount);
    assert PackedHeader(p) == header + audioHeader;
    assert packet == header + audioHeader + (if previous.Some? then previous.value else []) + payload;
  }

  /** The parser takes a packet with audio exactly if the builder makes it, for some page, frames and counters. */
  lemma ParsesExactlyTheBuilt(packet: Packet, expected: int)
    ensures (exists page, payload, timestamp, ssrc, channel, previous ::
               IsBuilt(packet, expected, page, payload, timestamp, ssrc, channel, previous))
            <==> ParsePolyTransmit(packet, expected).Ok? && ParsePolyTransmit(packet, expected).value.audio != []
  {
    var parsed := ParsePolyTransmit(packet, expected);
    if parsed.Ok? && parsed.value.audio != [] {
      var audio := parsed.value.audio;
      var split := |audio| - FRAME_BYTES;
      assert audio == audio[..split] + audio[split..];
      BuiltFromParsed(packet, expected, if split == 0 then None else Some(audio[..split]), audio[split..]);
    }
    forall page, payload, timestamp, ssrc, channel, previous |
      IsBuilt(packet, expected, page, payload, timestamp, ssrc, channel, previous)
      ensures ParsePolyTransmit(packet, expected).Ok? && ParsePolyTransmit(packet, expected).value.audio != []
    {
      ParseOfBuild(page, payload, timestamp, ssrc, channel, previous);
    }
  }

  // ---------- Plain RTP, section 5.1 of RFC 3550 ----------

  /** The fixed header fields in the order of section 5.1 of RFC 3550. */
  datatype RtpHeader = RtpHeader(version: int, padding: bool, extension: bool, csrcCount: int, marker: bool,
                                 payloadType: int, seqNumber: int, timestamp: int, ssrc: int)

  function BuildPlain(payloadType: byte, payload: seq<byte>, seqNumber: int, timestamp: int, ssrc: int, marker: bool,
                      channel: int): (r: Result<Packet, WireError>)
    requires payloadType < 128
    ensures r.Ok? <==> channel == 0
    ensures r.Ok? ==> |r.value| == 12 + |payload|
  {
    if channel != 0 then Err(ChannelOnPlainRtp)
    else
      var second: byte := (if marker then 0x80 else 0) + payloadType;
      Ok([0x80, second] + PackU16(seqNumber % U16) + PackU32(timestamp % U32) + PackU32(ssrc % U32) + payload)
  }

  /** What a receiver reads: the fields by their bit positions in RFC 3550, independent of the builder. */
  function ReadRtp(packet: Packet): (r: Option<(RtpHeader, seq<byte>)>)
    ensures r.Some? <==> |packet| >= 12
  {
    if |packet| < 12 then None
    else
      var first: int := packet[0];
      var second: int := packet[1];
      Some((RtpHeader(first / 64, first / 32 % 2 == 1, first / 16 % 2 == 1, first % 16, second / 128 == 1,
                      second % 128, packet[2] as int * 256 + packet[3], Network32(packet, 4), Network32(packet, 8)),
            packet[12..]))
  }

  /** A plain RTP packet is version 2 with no padding, extension or CSRC; its inputs are reduced to field width. */
  lemma ReadOfBuildPlain(payloadType: byte, payload: seq<byte>, seqNumber: int, timestamp: int, ssrc: int, marker: bool)
    requires payloadType < 128
    ensures ReadRtp(BuildPlain(payloadType, payload, seqNumber, timestamp, ssrc, marker, 0).value)
         == Some((RtpHeader(2, false, false, 0, marker, payloadType, seqNumber % U16, timestamp % U32, ssrc % U32),
                  payload))
  {
    var packet := BuildPlain(payloadType, payload, seqNumber, timestamp, ssrc, marker, 0).value;
    assert packet[2..4] == PackU16(seqNumber % U16);
    assert packet[4..8] == PackU32(timestamp % U32);
    assert packet[8..12] == PackU32(ssrc % U32);
    assert packet[12..] == payload;
    U16RoundTrip(seqNumber % U16);
    NetworkOrder(packet, 4, timestamp % U32);
    NetworkOrder(packet, 8, ssrc % U32);
  }
}
