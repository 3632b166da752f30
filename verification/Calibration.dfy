/** Acceptance of captures as site evidence: `bell/calibration.py:98-217`. */
module Calibration {
  import opened Wrappers
  import opened Bytes
  import opened Wire
  import opened Sorting

  const MIN_CHANNEL_CAPTURES := 3
  const MIN_PACKETS_PER_CHANNEL := 8

  datatype CalibrationError =
    | Unsupported
    | TooFewPackets
    | TooFewValidPackets
    | TooFewChannels
    | ChannelOutOfRange
    | MixedChannels
    | InconsistentBias
    | WrongBias
    | BadCapturedCallerId
    | BuilderMismatch

  /** The SHA-256 digest is kept as the headers it covers: equal digests stand for equal headers. */
  datatype CaptureEvidence = CaptureEvidence(channel: int, packetCount: nat, digested: seq<Packet>)

  // ---------- What acceptance means, over the packets the parser takes ----------

  /** The parse of one packet without its audio, if it is valid. */
  function ValidOf(packet: Packet, expected: int): (v: seq<PolyPacket>)
    ensures |v| <= 1
    ensures forall i :: 0 <= i < |v| ==> WellParsed(v[i], expected)
  {
    match ParsePolyTransmit(packet, expected)
    case Ok(p) => [p.(audio := [])]
    case Err(_) => []
  }

  /** The 26 header bytes of one packet, if it is valid. */
  function HeaderOf(packet: Packet, expected: int): (h: seq<Packet>)
    ensures |h| == |ValidOf(packet, expected)|
  {
    if ParsePolyTransmit(packet, expected).Ok? then [packet[..HEADER_BYTES]] else []
  }

  function ValidPackets(packets: seq<Packet>, expected: int): (v: seq<PolyPacket>)
    ensures |v| <= |packets|
    ensures forall i :: 0 <= i < |v| ==> WellParsed(v[i], expected)
  {
    if packets == [] then [] else ValidOf(packets[0], expected) + ValidPackets(packets[1..], expected)
  }

  function ValidHeaders(packets: seq<Packet>, expected: int): (h: seq<Packet>)
    ensures |h| == |ValidPackets(packets, expected)|
  {
    if packets == [] then [] else HeaderOf(packets[0], expected) + ValidHeaders(packets[1..], expected)
  }

  /** What the parser guarantees of every packet it takes. */
  ghost predicate WellParsed(p: PolyPacket, expected: int) {
    && IsPolyCodec(expected) && p.opcode == POLY_TRANSMIT && p.codecType as int == expected && p.flags == 0
    && p.callerIdLength as int == CALLER_ID_BYTES && |p.callerId| == CALLER_ID_BYTES && p.audio == []
    && 0 <= p.hostSerial < U32 && 0 <= p.sampleCount < U32
  }

  predicate UsableCallerId(callerId: seq<byte>) {
    IsAscii(callerId) && exists i :: 0 <= i < |callerId| && callerId[i] != 0
  }

  ghost predicate Proves(p: PolyPacket, channel: int) {
    p.encodedChannel == channel + CHANNEL_BIAS && UsableCallerId(p.callerId)
  }

  ghost predicate ChannelProven(packets: seq<Packet>, channel: int, expected: int) {
    var valid := ValidPackets(packets, expected);
    && 1 <= channel <= 25
    && |valid| >= MIN_PACKETS_PER_CHANNEL
    && forall i :: 0 <= i < |valid| ==> Proves(valid[i], channel)
  }

  ghost predicate Acceptable(captures: map<int, seq<Packet>>, expected: int) {
    && |captures| >= MIN_CHANNEL_CAPTURES
    && forall channel :: channel in captures ==> ChannelProven(captures[channel], channel, expected)
  }

  lemma {:induction false} ValidHeadersAppend(packets: seq<Packet>, packet: Packet, expected: int)
    ensures ValidHeaders(packets + [packet], expected) == ValidHeaders(packets, expected) + HeaderOf(packet, expected)
  {
    hide HeaderOf;
    var all := packets + [packet];
    if packets == [] {
      assert all[0] == packet && all[1..] == [];
    } else {
      ValidHeadersAppend(packets[1..], packet, expected);
      assert all[0] == packets[0] && all[1..] == packets[1..] + [packet];
    }
  }

  /** What is kept of a capture: packet by packet, in order, the first 26 bytes of those the parser takes. */
  lemma KeptExactly(packets: seq<Packet>, packet: Packet, expected: int)
    ensures ValidHeaders([], expected) == []
    ensures ValidHeaders(packets + [packet], expected)
         == ValidHeaders(packets, expected) + if ParsePolyTransmit(packet, expected).Ok? then [packet[..26]] else []
  {
    ValidHeadersAppend(packets, packet, expected);
  }

  /** What a packet proves of its channel: the bias of 25, and a caller ID that is ASCII and not all NUL. */
  lemma ProvesExactly(p: PolyPacket, channel: int)
    ensures Proves(p, channel) <==>
            && p.encodedChannel == channel + 25
            && (forall j :: 0 <= j < |p.callerId| ==> p.callerId[j] < 128)
            && (exists j :: 0 <= j < |p.callerId| && p.callerId[j] != 0)
  {
  }

  /** The conditions of acceptance, in numbers: on each channel from 1 to 25, eight valid packets, all proving it. */
  lemma ProvenExactly(packets: seq<Packet>, channel: int, expected: int)
    ensures var valid := ValidPackets(packets, expected);
            ChannelProven(packets, channel, expected) <==>
              1 <= channel <= 25 && |valid| >= 8 && forall i :: 0 <= i < |valid| ==> Proves(valid[i], channel)
  {
    hide Proves, ValidPackets;
  }

  /** And at least three channels. */
  lemma AcceptableExactly(captures: map<int, seq<Packet>>, expected: int)
    ensures Acceptable(captures, expected) <==>
            |captures| >= 3 && forall c :: c in captures ==> ChannelProven(captures[c], c, expected)
  {
    hide ChannelProven;
  }

  // ---------- Sanitizing a capture ----------

  /** Cutting off the audio keeps the parse of the header. */
  lemma HeaderParses(packet: Packet, expected: int)
    requires ParsePolyTransmit(packet, expected).Ok?
    ensures ParsePolyTransmit(packet[..HEADER_BYTES], expected)
         == Ok(ParsePolyTransmit(packet, expected).value.(audio := []))
  {
    var header := packet[..HEADER_BYTES];
    assert header[2..6] == packet[2..6];
    assert header[7..20] == packet[7..20];
    assert header[22..26] == packet[22..26];
  }

  function HeaderOnly(packet: Packet, expected: int): (r: Result<Packet, ParseError>)
  {
    match ParsePolyTransmit(packet, expected)
    case Err(e) => Err(e)
    case Ok(p) => if p.audio == [] then Err(HeaderOnlyCapture) else Ok(packet[..HEADER_BYTES])
  }

  lemma HeaderOfParses(packet: Packet, expected: int)
    requires HeaderOf(packet, expected) != []
    ensures ValidOf(packet, expected) != []
    ensures ParsePolyTransmit(HeaderOf(packet, expected)[0], expected) == Ok(ValidOf(packet, expected)[0])
  {
    HeaderParses(packet, expected);
  }

  /** The list of line 163: every header parsed again, the first failure raised. */
  function ParseAll(headers: seq<Packet>, expected: int): (r: Result<seq<PolyPacket>, ParseError>) {
    if headers == [] then Ok([]) else
    match ParsePolyTransmit(headers[0], expected)
    case Err(e) => Err(e)
    case Ok(first) =>
      match ParseAll(headers[1..], expected)
      case Err(e) => Err(e)
      case Ok(rest) => Ok([first] + rest)
  }

  /** The kept headers parse again, to exactly the valid packets. */
  lemma {:induction false} HeadersParse(packets: seq<Packet>, expected: int)
    ensures ParseAll(ValidHeaders(packets, expected), expected) == Ok(ValidPackets(packets, expected))
  {
    if packets != [] {
      HeadersParse(packets[1..], expected);
      var rest := ValidHeaders(packets[1..], expected);
      if HeaderOf(packets[0], expected) != [] {
        HeaderOfParses(packets[0], expected);
        assert ValidOf(packets[0], expected) == [ValidOf(packets[0], expected)[0]];
        assert (HeaderOf(packets[0], expected) + rest)[1..] == rest;
      } else {
        assert HeaderOf(packets[0], expected) + rest == rest;
        assert ValidOf(packets[0], expected) + ValidPackets(packets[1..], expected)
            == ValidPackets(packets[1..], expected);
      }
    }
  }

  /** The headers kept are exactly the valid packets without their audio, in order. */
  method SanitizeCapture(packets: seq<Packet>, expected: int) returns (r: Result<seq<Packet>, CalibrationError>)
    ensures r.Ok? <==> |ValidPackets(packets, expected)| >= MIN_PACKETS_PER_CHANNEL
    ensures r.Ok? ==> r.value == ValidHeaders(packets, expected)
    ensures r.Err? ==> r.error != BuilderMismatch
  {
    if !IsPolyCodec(expected) {
      assert |ValidPackets(packets, expected)| > 0 ==> WellParsed(ValidPackets(packets, expected)[0], expected);
      return Err(Unsupported);
    }
    if |packets| < MIN_PACKETS_PER_CHANNEL {
      return Err(TooFewPackets);
    }
    var headers: seq<Packet> := [];
    for n := 0 to |packets|
      invariant headers == ValidHeaders(packets[..n], expected)
    {
      var packet := packets[n];
      assert packets[..n + 1] == packets[..n] + [packet];
      ValidHeadersAppend(packets[..n], packet, expected);
      var parsed := ParsePolyTransmit(packet, expected);
      if parsed.Ok? {
        headers := headers + [packet[..HEADER_BYTES]];
        if parsed.value.audio != [] {
          headers := headers[|headers| - 1 := HeaderOnly(packet, expected).value];
        }
      }
    }
    assert packets[..|packets|] == packets;
    if |headers| < MIN_PACKETS_PER_CHANNEL {
      return Err(TooFewValidPackets);
    }
    return Ok(headers);
  }

  // ---------- The caller ID survives strip and pad ----------

  /** `rstrip(b"\0")`. */
  function RStrip(s: seq<byte>): (t: seq<byte>)
    ensures t <= s
  {
    if s == [] || s[|s| - 1] != 0 then s else RStrip(s[..|s| - 1])
  }

  lemma {:induction false} RStripPads(s: seq<byte>)
    ensures RStrip(s) + Zeros(|s| - |RStrip(s)|) == s
    ensures IsAscii(RStrip(s)) <==> IsAscii(s)
    ensures RStrip(s) == [] <==> forall i :: 0 <= i < |s| ==> s[i] == 0
  {
    if s == [] || s[|s| - 1] != 0 {
    } else {
      var front := s[..|s| - 1];
      RStripPads(front);
      assert s == front + [0];
      assert Zeros(|s| - |RStrip(s)|) == Zeros(|front| - |RStrip(front)|) + [0];
      assert RStrip(s) + Zeros(|s| - |RStrip(s)|) == (RStrip(front) + Zeros(|front| - |RStrip(front)|)) + [0];
      assert forall i :: 0 <= i < |front| ==> front[i] == s[i];
    }
  }

  /** A usable captured caller ID is rebuilt exactly; an unusable one is refused by the builder. */
  lemma CallerIdRebuilt(callerId: seq<byte>)
    requires |callerId| == CALLER_ID_BYTES
    ensures CallerIdField(RStrip(callerId)).Ok? <==> UsableCallerId(callerId)
    ensures UsableCallerId(callerId) ==> CallerIdField(RStrip(callerId)) == Ok(callerId)
  {
    RStripPads(callerId);
  }

  /** What lines 191-203 rebuild for one captured packet: `None` when the builder refuses the caller ID. */
  function Rebuilt(p: PolyPacket, channel: int): (h: Option<Packet>)
    requires |p.callerId| == CALLER_ID_BYTES
  {
    match NewPolyPage(true, p.codecType, RStrip(p.callerId))
    case Err(_) => None
    case Ok(page) =>
      match BuildPoly(page, Zeros(FRAME_BYTES), p.sampleCount, p.hostSerial, channel, None)
      case Err(_) => None
      case Ok(packet) => if |packet| < HEADER_BYTES then None else Some(packet[..HEADER_BYTES])
  }

  lemma PackedPrefix(p: PolyPacket, page: PolyPage, channel: int)
    requires page.Valid() && page.calibrated && p.codecType == page.payloadType && p.callerId == page.callerId
    requires p.opcode == POLY_TRANSMIT && p.flags == 0 && p.callerIdLength as int == CALLER_ID_BYTES
    requires 0 <= p.hostSerial < U32 && 0 <= p.sampleCount < U32
    requires 1 <= channel <= 25 && p.encodedChannel == channel + CHANNEL_BIAS
    ensures var packet := BuildPoly(page, Zeros(FRAME_BYTES), p.sampleCount, p.hostSerial, channel, None);
            packet.Ok? && |packet.value| >= HEADER_BYTES && packet.value[..HEADER_BYTES] == PackedHeader(p)
  {
    var packet := BuildPoly(page, Zeros(FRAME_BYTES), p.sampleCount, p.hostSerial, channel, None);
    assert p.hostSerial % U32 == p.hostSerial && p.sampleCount % U32 == p.sampleCount;
    assert packet.value == PackedHeader(p) + Zeros(FRAME_BYTES);
  }

  /** The builder reproduces a captured header byte for byte whenever it builds one at all. */
  lemma BuilderReproducesCapture(p: PolyPacket, channel: int, expected: int)
    requires WellParsed(p, expected)
    requires 1 <= channel <= 25 && p.encodedChannel == channel + CHANNEL_BIAS
    ensures Rebuilt(p, channel).Some? <==> UsableCallerId(p.callerId)
    ensures Rebuilt(p, channel).Some? ==> Rebuilt(p, channel).value == PackedHeader(p)
  {
    CallerIdRebuilt(p.callerId);
    if UsableCallerId(p.callerId) {
      var page := PolyPage(true, p.codecType, p.callerId);
      assert NewPolyPage(true, p.codecType, RStrip(p.callerId)) == Ok(page);
      PackedPrefix(p, page, channel);
    }
  }

  // ---------- Deriving the calibration ----------

  /** The evidence of one channel counts its valid packets and digests their headers. */
  function Evidence(channel: int, packets: seq<Packet>, expected: int): CaptureEvidence {
    CaptureEvidence(channel, |ValidPackets(packets, expected)|, ValidHeaders(packets, expected))
  }

  predicate IntLeq(a: int, b: int) {
    a <= b
  }

  /** The header check of lines 188-216 over one channel; every failure is a caller-ID failure. */
  method CheckRebuild(packets: seq<PolyPacket>, channel: int, expected: int) returns (failure: Option<CalibrationError>)
    requires 1 <= channel <= 25
    requires forall i :: 0 <= i < |packets| ==>
               WellParsed(packets[i], expected) && packets[i].encodedChannel == channel + CHANNEL_BIAS
    ensures failure.None? <==> forall i :: 0 <= i < |packets| ==> UsableCallerId(packets[i].callerId)
    ensures failure.Some? ==> failure.value == BadCapturedCallerId
  {
    for n := 0 to |packets|
      invariant forall i :: 0 <= i < n ==> UsableCallerId(packets[i].callerId)
    {
      var p := packets[n];
      BuilderReproducesCapture(p, channel, expected);
      var rebuilt := Rebuilt(p, channel);
      if rebuilt.None? {
        return Some(BadCapturedCallerId);
      }
      if rebuilt.value != PackedHeader(p) {
        return Some(BuilderMismatch);
      }
    }
    return None;
  }

  /** Lines 162-174 for one channel: its packets, all on one encoded channel, and its evidence. */
  method ReadChannel(channel: int, packets: seq<Packet>, expected: int)
    returns (r: Result<(CaptureEvidence, seq<PolyPacket>), CalibrationError>)
    ensures r.Ok? <==> Uniform(packets, expected)
    ensures r.Ok? ==> r.value.0 == Evidence(channel, packets, expected) && r.value.1 == ValidPackets(packets, expected)
    ensures r.Err? ==> r.error != BuilderMismatch
  {
    var sanitized := SanitizeCapture(packets, expected);
    if sanitized.Err? {
      return Err(sanitized.error);
    }
    var headers := sanitized.value;
    HeadersParse(packets, expected);
    var parsed := ParseAll(headers, expected).value;
    var encoded := EncodedChannels(parsed);
    EncodedOfUniform(packets, expected);
    if |encoded| != 1 {
      return Err(MixedChannels);
    }
    return Ok((CaptureEvidence(channel, |headers|, headers), parsed));
  }

  function Bias(packets: seq<PolyPacket>, channel: int): int
    requires |packets| > 0
  {
    packets[0].encodedChannel as int - channel
  }

  ghost predicate BiasesOf(biases: set<int>, parsed: map<int, seq<PolyPacket>>)
    requires forall c :: c in parsed ==> |parsed[c]| > 0
  {
    && (forall c :: c in parsed ==> Bias(parsed[c], c) in biases)
    && (forall b :: b in biases ==> exists c :: c in parsed && Bias(parsed[c], c) == b)
  }

  ghost predicate ParsedFrom(parsed: map<int, seq<PolyPacket>>, captures: map<int, seq<Packet>>, expected: int) {
    forall c :: c in parsed ==>
                  c in captures && parsed[c] == ValidPackets(captures[c], expected) && Uniform(captures[c], expected)
  }

  /** The evidence lists each captured channel once, in increasing order. */
  ghost predicate EvidenceOf(evidence: seq<CaptureEvidence>, captures: map<int, seq<Packet>>, expected: int) {
    && |evidence| == |captures|
    && (forall i, j :: 0 <= i < j < |evidence| ==> evidence[i].channel < evidence[j].channel)
    && (forall i :: 0 <= i < |evidence| ==>
          var c := evidence[i].channel;
          && c in captures
          && evidence[i].packetCount == |ValidPackets(captures[c], expected)|
          && evidence[i].digested == ValidHeaders(captures[c], expected))
  }

  /** The first `n` channels are collected. */
  ghost predicate EvidenceTo(n: nat, evidence: seq<CaptureEvidence>, channels: seq<int>,
                             captures: map<int, seq<Packet>>, expected: int)
    requires n <= |channels|
  {
    && |evidence| == n
    && forall i :: 0 <= i < n ==>
         channels[i] in captures && evidence[i] == Evidence(channels[i], captures[channels[i]], expected)
  }

  ghost predicate ParsedTo(n: nat, biases: set<int>, parsed: map<int, seq<PolyPacket>>, channels: seq<int>,
                           captures: map<int, seq<Packet>>, expected: int)
    requires n <= |channels|
  {
    && (forall c :: c in parsed.Keys <==> c in channels[..n])
    && ParsedFrom(parsed, captures, expected) && BiasesOf(biases, parsed)
  }

  ghost predicate Listed(channels: seq<int>, captures: map<int, seq<Packet>>) {
    && |channels| == |captures| && (forall c :: c in channels <==> c in captures)
    && (forall i, j :: 0 <= i < j < |channels| ==> channels[i] < channels[j])
  }

  lemma ParsedGrows(n: nat, biases: set<int>, parsed: map<int, seq<PolyPacket>>, channels: seq<int>,
                    captures: map<int, seq<Packet>>, expected: int)
    requires n < |channels| && Listed(channels, captures) && ParsedTo(n, biases, parsed, channels, captures, expected)
    requires channels[n] in captures && Uniform(captures[channels[n]], expected)
    ensures var channel, packets := channels[n], ValidPackets(captures[channels[n]], expected);
            && |packets| > 0
            && ParsedTo(n + 1, biases + {Bias(packets, channel)}, parsed[channel := packets], channels, captures,
                        expected)
  {
    var channel, packets := channels[n], ValidPackets(captures[channels[n]], expected);
    assert channels[..n + 1] == channels[..n] + [channel];
    assert channel !in channels[..n];
    AddBias(biases, parsed, channel, packets);
  }

  lemma AllCollected(evidence: seq<CaptureEvidence>, biases: set<int>, parsed: map<int, seq<PolyPacket>>,
                     channels: seq<int>, captures: map<int, seq<Packet>>, expected: int)
    requires Listed(channels, captures)
    requires EvidenceTo(|channels|, evidence, channels, captures, expected)
    requires ParsedTo(|channels|, biases, parsed, channels, captures, expected)
    ensures EvidenceOf(evidence, captures, expected) && parsed.Keys == captures.Keys
  {
    hide ParsedFrom, BiasesOf;
    assert channels[..|channels|] == channels;
    assert forall i :: 0 <= i < |evidence| ==> evidence[i].channel == channels[i];
    forall c ensures c in parsed.Keys <==> c in captures.Keys {
      assert c in channels <==> c in captures;
    }
  }

  /** Lines 158-174: one capture after another, in channel order. */
  method CollectEvidence(captures: map<int, seq<Packet>>, channels: seq<int>, expected: int)
    returns (r: Result<(seq<CaptureEvidence>, set<int>, map<int, seq<PolyPacket>>), CalibrationError>)
    requires Listed(channels, captures)
    ensures r.Err? ==> r.error != BuilderMismatch && !Acceptable(captures, expected)
    ensures r.Ok? ==>
              && EvidenceOf(r.value.0, captures, expected)
              && r.value.2.Keys == captures.Keys
              && ParsedFrom(r.value.2, captures, expected)
              && BiasesOf(r.value.1, r.value.2)
  {
    var evidence: seq<CaptureEvidence> := [];
    var biases: set<int> := {};
    var parsedByChannel: map<int, seq<PolyPacket>> := map[];
    for n := 0 to |channels|
      invariant EvidenceTo(n, evidence, channels, captures, expected)
      invariant ParsedTo(n, biases, parsedByChannel, channels, captures, expected)
    {
      var channel := channels[n];
      assert channel in captures;
      var read := ReadChannel(channel, captures[channel], expected);
      if read.Err? {
        OneBadChannel(captures, channel, expected);
        return Err(read.error);
      }
      var (item, parsed) := read.value;
      ParsedGrows(n, biases, parsedByChannel, channels, captures, expected);
      biases := biases + {Bias(parsed, channel)};
      parsedByChannel := parsedByChannel[channel := parsed];
      evidence := evidence + [item];
    }
    AllCollected(evidence, biases, parsedByChannel, channels, captures, expected);
    return Ok((evidence, biases, parsedByChannel));
  }

  lemma AddBias(biases: set<int>, parsed: map<int, seq<PolyPacket>>, channel: int, packets: seq<PolyPacket>)
    requires forall c :: c in parsed ==> |parsed[c]| > 0
    requires BiasesOf(biases, parsed) && channel !in parsed && |packets| > 0
    ensures BiasesOf(biases + {Bias(packets, channel)}, parsed[channel := packets])
  {
    var more := parsed[channel := packets];
    forall b | b in biases + {Bias(packets, channel)}
      ensures exists c :: c in more && Bias(more[c], c) == b
    {
      if b in biases {
        var c :| c in parsed && Bias(parsed[c], c) == b;
        assert c in more && Bias(more[c], c) == b;
      } else {
        assert channel in more && Bias(more[channel], channel) == b;
      }
    }
  }

  /** One capture passes on its own: enough valid packets, all on one encoded channel. */
  ghost predicate Uniform(packets: seq<Packet>, expected: int) {
    var valid := ValidPackets(packets, expected);
    && |valid| >= MIN_PACKETS_PER_CHANNEL
    && forall i :: 0 <= i < |valid| ==> valid[i].encodedChannel == valid[0].encodedChannel
  }

  lemma SingletonSet(s: set<int>, x: int)
    requires |s| == 1 && x in s
    ensures s == {x}
  {
    assert |s - {x}| == 0;
  }

  function EncodedChannels(parsed: seq<PolyPacket>): set<int> {
    set i | 0 <= i < |parsed| :: parsed[i].encodedChannel as int
  }

  lemma EncodedOfUniform(packets: seq<Packet>, expected: int)
    requires |ValidPackets(packets, expected)| >= MIN_PACKETS_PER_CHANNEL
    ensures Uniform(packets, expected) <==> |EncodedChannels(ValidPackets(packets, expected))| == 1
  {
    var valid := ValidPackets(packets, expected);
    var encoded := EncodedChannels(valid);
    var x := valid[0].encodedChannel as int;
    assert x in encoded;
    if |encoded| == 1 {
      SingletonSet(encoded, x);
      forall i | 0 <= i < |valid| ensures valid[i].encodedChannel == valid[0].encodedChannel {
        assert valid[i].encodedChannel as int in encoded;
      }
    }
    if Uniform(packets, expected) {
      assert forall c :: c in encoded ==> c == x;
      assert encoded == {x};
    }
  }

  /** With the common bias known to be +25, what is left of the evidence of a channel is its caller IDs. */
  lemma ProvenByCallerIds(packets: seq<Packet>, channel: int, expected: int)
    requires 1 <= channel <= 25 && Uniform(packets, expected)
    requires Bias(ValidPackets(packets, expected), channel) == CHANNEL_BIAS
    ensures var valid := ValidPackets(packets, expected);
            && (forall i :: 0 <= i < |valid| ==> valid[i].encodedChannel == channel + CHANNEL_BIAS)
            && (ChannelProven(packets, channel, expected)
                <==> forall i :: 0 <= i < |valid| ==> UsableCallerId(valid[i].callerId))
  {
    var valid := ValidPackets(packets, expected);
    assert forall i :: 0 <= i < |valid| ==> valid[i].encodedChannel == valid[0].encodedChannel;
    if ChannelProven(packets, channel, expected) {
      forall i | 0 <= i < |valid| ensures UsableCallerId(valid[i].callerId) {
        assert Proves(valid[i], channel);
      }
    }
  }

  /** Lines 188-216 over all channels, once the common bias is known to be +25. */
  method CheckAllRebuilds(ghost captures: map<int, seq<Packet>>, parsed: map<int, seq<PolyPacket>>, expected: int)
    returns (failure: Option<CalibrationError>)
    requires |captures| >= MIN_CHANNEL_CAPTURES
    requires forall c :: c in captures ==> 1 <= c <= 25
    requires parsed.Keys == captures.Keys && ParsedFrom(parsed, captures, expected)
    requires forall c :: c in parsed ==> Bias(parsed[c], c) == CHANNEL_BIAS
    ensures failure.None? <==> Acceptable(captures, expected)
    ensures failure.Some? ==> failure.value == BadCapturedCallerId
  {
    var rest := parsed.Keys;
    while rest != {}
      invariant rest <= parsed.Keys
      invariant forall c :: c in parsed.Keys && c !in rest ==> ChannelProven(captures[c], c, expected)
      decreases |rest|
    {
      var channel :| channel in rest;
      ProvenByCallerIds(captures[channel], channel, expected);
      failure := CheckRebuild(parsed[channel], channel, expected);
      if failure.Some? {
        assert !ChannelProven(captures[channel], channel, expected);
        return;
      }
      rest := rest - {channel};
    }
    return None;
  }

  /** Lines 176-216: one bias, the bias +25, and a builder that reproduces every header. */
  method CheckMapping(ghost captures: map<int, seq<Packet>>, biases: set<int>,
                      parsed: map<int, seq<PolyPacket>>, expected: int) returns (failure: Option<CalibrationError>)
    requires |captures| >= MIN_CHANNEL_CAPTURES
    requires forall c :: c in captures ==> 1 <= c <= 25
    requires parsed.Keys == captures.Keys && ParsedFrom(parsed, captures, expected) && BiasesOf(biases, parsed)
    ensures failure.None? <==> Acceptable(captures, expected)
    ensures failure.Some? ==> failure.value != BuilderMismatch
  {
    hide Acceptable, ParsedFrom;
    BiasesOfAcceptable(captures, expected, parsed, biases);
    if |biases| != 1 {
      return Some(InconsistentBias);
    }
    var bias :| bias in biases;
    SingletonSet(biases, bias);
    if bias != CHANNEL_BIAS {
      return Some(WrongBias);
    }
    failure := CheckAllRebuilds(captures, parsed, expected);
  }

  /** `sorted(captures)`: the channels in increasing order, once each. */
  method SortedChannels(captures: map<int, seq<Packet>>) returns (channels: seq<int>)
    ensures |channels| == |captures| && Distinct(channels)
    ensures forall c :: c in channels <==> c in captures
    ensures forall i, j :: 0 <= i < j < |channels| ==> channels[i] < channels[j]
  {
    var listing := Listing(captures.Keys);
    channels := StableSort(listing, IntLeq);
    SortKeepsElements(listing, IntLeq);
    SortSorts(listing, IntLeq);
    DistinctSort(listing, IntLeq);
    forall i, j | 0 <= i < j < |channels| ensures channels[i] < channels[j] {
      assert IntLeq(channels[i], channels[j]);
    }
  }

  lemma OneBadChannel(captures: map<int, seq<Packet>>, channel: int, expected: int)
    requires channel in captures && (!(1 <= channel <= 25) || !Uniform(captures[channel], expected))
    ensures !Acceptable(captures, expected)
  {
    ProvenIsUniform(captures[channel], channel, expected);
    assert !ChannelProven(captures[channel], channel, expected);
  }

  /** Lines 150-156: enough channels, all of them page channels. */
  method CheckChannels(captures: map<int, seq<Packet>>, ghost expected: int)
    returns (r: Result<seq<int>, CalibrationError>)
    ensures r.Err? ==> r.error != BuilderMismatch && !Acceptable(captures, expected)
    ensures r.Ok? ==>
              && |r.value| == |captures| >= MIN_CHANNEL_CAPTURES
              && (forall c :: c in r.value <==> c in captures)
              && (forall c :: c in r.value ==> 1 <= c <= 25)
              && (forall i, j :: 0 <= i < j < |r.value| ==> r.value[i] < r.value[j])
  {
    if |captures| < MIN_CHANNEL_CAPTURES {
      return Err(TooFewChannels);
    }
    var channels := SortedChannels(captures);
    if exists c | c in channels :: !(1 <= c <= 25) {
      ghost var c :| c in channels && !(1 <= c <= 25);
      OneBadChannel(captures, c, expected);
      return Err(ChannelOutOfRange);
    }
    return Ok(channels);
  }

  /** Captures are accepted exactly when they are acceptable, and the builder check never fails on its own. */
  method DerivePolyCalibration(captures: map<int, seq<Packet>>, expected: int)
    returns (r: Result<seq<CaptureEvidence>, CalibrationError>)
    ensures r.Ok? <==> Acceptable(captures, expected)
    ensures r.Err? ==> r.error != BuilderMismatch
    ensures r.Ok? ==> EvidenceOf(r.value, captures, expected)
  {
    var channels := CheckChannels(captures, expected);
    if channels.Err? {
      return Err(channels.error);
    }
    var collected := CollectEvidence(captures, channels.value, expected);
    if collected.Err? {
      return Err(collected.error);
    }
    var (evidence, biases, parsed) := collected.value;
    var failure := CheckMapping(captures, biases, parsed, expected);
    if failure.Some? {
      return Err(failure.value);
    }
    return Ok(evidence);
  }

  lemma ProvenIsUniform(packets: seq<Packet>, channel: int, expected: int)
    ensures ChannelProven(packets, channel, expected) ==> Uniform(packets, expected)
  {
    var valid := ValidPackets(packets, expected);
    if ChannelProven(packets, channel, expected) {
      forall i | 0 <= i < |valid| ensures valid[i].encodedChannel == valid[0].encodedChannel {
        assert Proves(valid[i], channel) && Proves(valid[0], channel);
      }
    }
  }

  lemma ProvenBias(packets: seq<Packet>, channel: int, expected: int)
    requires ChannelProven(packets, channel, expected)
    ensures Bias(ValidPackets(packets, expected), channel) == CHANNEL_BIAS
  {
    assert Proves(ValidPackets(packets, expected)[0], channel);
  }

  lemma BiasesOfAcceptable(captures: map<int, seq<Packet>>, expected: int,
                           parsed: map<int, seq<PolyPacket>>, biases: set<int>)
    requires |captures| >= MIN_CHANNEL_CAPTURES
    requires parsed.Keys == captures.Keys && ParsedFrom(parsed, captures, expected) && BiasesOf(biases, parsed)
    ensures Acceptable(captures, expected) ==> biases == {CHANNEL_BIAS}
  {
    hide ChannelProven, Bias, ValidPackets;
    if Acceptable(captures, expected) {
      forall c | c in parsed ensures Bias(parsed[c], c) == CHANNEL_BIAS {
        ProvenBias(captures[c], c, expected);
      }
      var keys := captures.Keys;
      assert |keys| == |captures|;
      var c :| c in keys;
      assert Bias(parsed[c], c) in biases;
      assert forall b :: b in biases ==> b == CHANNEL_BIAS;
    }
  }
}
