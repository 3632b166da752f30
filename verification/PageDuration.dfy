/**
 * Page admission against nominal pacing: `bell/service.py:298-373`, `bell/transmit.py:106-124` and `159-201`,
 * `bell/wire/poly_group_page.py:58-67`. Sends are instantaneous; only the waits take time. Seconds are reals.
 */
module PageDuration {
  import opened Wrappers

  const CONTROL_INTERVAL := 0.030
  const END_DELAY := 0.050
  const PACKET_SECONDS := 0.020
  const PRE_TONE_PAUSE := 0.10
  const ALERT_COUNT := 31
  const END_COUNT := 12
  const SESSION_OVERHEAD: real := 31.0 * CONTROL_INTERVAL + END_DELAY + 12.0 * CONTROL_INTERVAL
  const BYTES_PER_SECOND := 8000.0

  datatype PageError = SoundTooLong | PreToneTooLong | PageTooLong

  function Later(a: real, b: real): real {
    if a > b then a else b
  }

  /** `size / 8000.0`: the duration the admission check computes. */
  function Seconds(size: nat): real {
    size as real / BYTES_PER_SECOND
  }

  /** PCMU frames of 160 bytes, the last one padded. */
  function FrameCount(size: nat): nat {
    (size + 159) / 160
  }

  // ---------- The waits, as coded ----------

  /** `_send_poly_controls` on a nominal clock. */
  method ControlBurst(start: real, count: nat) returns (clock: real)
    ensures clock == start + Gaps(count) * CONTROL_INTERVAL
  {
    clock := start;
    for index := 0 to count
      invariant clock == start + Gaps(index) * CONTROL_INTERVAL
    {
      clock := Later(clock, start + index as real * CONTROL_INTERVAL);
    }
  }

  /** The gaps between `n` paced packets. */
  function Gaps(n: nat): real {
    if n == 0 then 0.0 else (n - 1) as real
  }

  /** The frame loop of `send` on a nominal clock. */
  method AudioTime(start: real, frames: nat) returns (clock: real)
    ensures clock == start + Gaps(frames) * PACKET_SECONDS
  {
    clock := start;
    for index := 0 to frames
      invariant clock == start + Gaps(index) * PACKET_SECONDS
    {
      clock := Later(clock, start + index as real * PACKET_SECONDS);
    }
  }

  /** `send` of one raw file. */
  method SendTime(start: real, size: nat, poly: bool) returns (clock: real)
    ensures clock == start + SendSeconds(size, poly)
  {
    clock := start;
    if poly {
      clock := ControlBurst(clock, ALERT_COUNT);
    }
    clock := AudioTime(clock, FrameCount(size));
    if poly {
      clock := clock + END_DELAY;
      clock := ControlBurst(clock, END_COUNT);
    }
  }

  function SendSeconds(size: nat, poly: bool): real {
    Gaps(FrameCount(size)) * PACKET_SECONDS
    + if poly then Gaps(ALERT_COUNT) * CONTROL_INTERVAL + END_DELAY + Gaps(END_COUNT) * CONTROL_INTERVAL else 0.0
  }

  datatype Event = Event(size: nat, preTone: Option<nat>, repeatCount: nat, repeatInterval: real)

  /** `total_duration` of the admission check. */
  function TotalDuration(e: Event, poly: bool): real {
    var pre := if e.preTone.Some? then Seconds(e.preTone.value) else 0.0;
    var transmissions := e.repeatCount + if e.preTone.Some? then 1 else 0;
    pre + Seconds(e.size) * e.repeatCount as real + e.repeatInterval * Gaps(e.repeatCount)
    + if poly then SESSION_OVERHEAD * transmissions as real else 0.0
  }

  predicate Admitted(e: Event, poly: bool, maxAudio: real, maxPage: real) {
    && Seconds(e.size) <= maxAudio
    && (e.preTone.Some? ==> Seconds(e.preTone.value) <= maxAudio)
    && TotalDuration(e, poly) <= maxPage
  }

  /**
   * Exactly the three limits: sound and pre-tone within `max_audio_seconds` of 8000 bytes each, and all repeats, the
   * pauses between them, the pre-tone and 1.34 s for each Poly session within `max_page_seconds`.
   */
  lemma AdmittedExactly(e: Event, poly: bool, maxAudio: real, maxPage: real)
    ensures var sessions := e.repeatCount + if e.preTone.Some? then 1 else 0;
            var bytes := e.size * e.repeatCount + if e.preTone.Some? then e.preTone.value else 0;
            var pauses := if e.repeatCount == 0 then 0 else e.repeatCount - 1;
            Admitted(e, poly, maxAudio, maxPage) <==>
              && e.size as real <= 8000.0 * maxAudio
              && (e.preTone.Some? ==> e.preTone.value as real <= 8000.0 * maxAudio)
              && bytes as real / 8000.0 + e.repeatInterval * pauses as real
                 + (if poly then 1.34 * sessions as real else 0.0) <= maxPage
  {
    var n := e.repeatCount;
    assert (e.size * n) as real == e.size as real * n as real;
    assert SESSION_OVERHEAD == 1.34;
    assert Seconds(e.size) * n as real == (e.size * n) as real / 8000.0 by {
      assert Seconds(e.size) * n as real * 8000.0 == (e.size * n) as real;
    }
  }

  /** The sum of all waits of a page that is not cancelled. */
  function Elapsed(e: Event, poly: bool): real {
    (if e.preTone.Some? then SendSeconds(e.preTone.value, poly) + PRE_TONE_PAUSE else 0.0)
    + Times(SendSeconds(e.size, poly), e.repeatCount)
    + Times(e.repeatInterval, Less1(e.repeatCount))
  }

  function Less1(n: nat): nat {
    if n == 0 then 0 else n - 1
  }

  /** `x` added up `n` times. */
  function Times(x: real, n: nat): real {
    if n == 0 then 0.0 else Times(x, n - 1) + x
  }

  lemma {:induction false} TimesIsProduct(x: real, n: nat)
    ensures Times(x, n) == x * n as real
    ensures x >= 0.0 ==> Times(x, n) >= 0.0
    ensures x >= 0.0 && n >= 1 ==> Times(x, n) >= x
  {
    if n > 0 {
      TimesIsProduct(x, n - 1);
      assert n as real == (n - 1) as real + 1.0;
      assert x * n as real == x * (n - 1) as real + x;
    }
  }

  lemma {:induction false} TimesSum(x: real, y: real, n: nat)
    ensures Times(x + y, n) == Times(x, n) + Times(y, n)
    ensures Times(x - y, n) == Times(x, n) - Times(y, n)
  {
    if n > 0 {
      TimesSum(x, y, n - 1);
    }
  }

  /** `transmit_event` from the admission check to the last repeat, on a nominal clock that starts at 0. */
  method TransmitEvent(e: Event, poly: bool, maxAudio: real, maxPage: real) returns (r: Result<real, PageError>)
    requires e.repeatInterval >= 0.0
    ensures r.Ok? <==> Admitted(e, poly, maxAudio, maxPage)
    ensures r.Ok? ==> r.value == Elapsed(e, poly)
    ensures r == Err(SoundTooLong) <==> Seconds(e.size) > maxAudio
    ensures r == Err(PreToneTooLong) <==>
              Seconds(e.size) <= maxAudio && e.preTone.Some? && Seconds(e.preTone.value) > maxAudio
  {
    var mainDuration := Seconds(e.size);
    var preDuration := if e.preTone.Some? then Seconds(e.preTone.value) else 0.0;
    if mainDuration > maxAudio {
      return Err(SoundTooLong);
    }
    if e.preTone.Some? && preDuration > maxAudio {
      return Err(PreToneTooLong);
    }
    if TotalDuration(e, poly) > maxPage {
      return Err(PageTooLong);
    }
    var clock := 0.0;
    if e.preTone.Some? {
      clock := SendTime(clock, e.preTone.value, poly);
      clock := clock + PRE_TONE_PAUSE;
    }
    clock := Repeats(clock, e, poly);
    return Ok(clock);
  }

  /** Lines 358-373: the repeats and the intervals between them. */
  method Repeats(start: real, e: Event, poly: bool) returns (clock: real)
    requires e.repeatInterval >= 0.0
    ensures clock == start + Times(SendSeconds(e.size, poly), e.repeatCount)
                     + Times(e.repeatInterval, Less1(e.repeatCount))
  {
    clock := start;
    ghost var one := SendSeconds(e.size, poly);
    for repeat := 0 to e.repeatCount
      invariant clock == start + Times(one, repeat)
                         + Times(e.repeatInterval, if repeat < e.repeatCount then repeat else Less1(repeat))
    {
      clock := SendTime(clock, e.size, poly);
      if repeat + 1 < e.repeatCount {
        clock := clock + e.repeatInterval;
      }
    }
  }

  // ---------- What the admission check is worth ----------

  /** The admission check counts every frame, the pacing only the gaps between them. */
  function Slack(size: nat): real {
    Seconds(size) - Gaps(FrameCount(size)) * PACKET_SECONDS
  }

  lemma SlackRange(size: nat)
    ensures 0.0 <= Slack(size) <= PACKET_SECONDS
    ensures size > 0 ==> Slack(size) > 0.0
  {
    var n := FrameCount(size);
    assert 160 * n >= size && (size > 0 ==> 160 * (n - 1) < size);
    assert Seconds(size) * BYTES_PER_SECOND == size as real;
  }

  /** The admitted total with its products written as sums. */
  function TotalAsSums(e: Event, poly: bool): real {
    var transmissions := e.repeatCount + if e.preTone.Some? then 1 else 0;
    (if e.preTone.Some? then Seconds(e.preTone.value) else 0.0)
    + Times(Seconds(e.size), e.repeatCount) + Times(e.repeatInterval, Less1(e.repeatCount))
    + if poly then Times(SESSION_OVERHEAD, transmissions) else 0.0
  }

  lemma TotalIsSums(e: Event, poly: bool)
    ensures TotalDuration(e, poly) == TotalAsSums(e, poly)
  {
    TimesIsProduct(Seconds(e.size), e.repeatCount);
    TimesIsProduct(e.repeatInterval, Less1(e.repeatCount));
    TimesIsProduct(SESSION_OVERHEAD, e.repeatCount + if e.preTone.Some? then 1 else 0);
  }

  lemma RepeatedSlack(size: nat, n: nat)
    ensures Times(SendSeconds(size, false), n) == Times(Seconds(size), n) - Times(Slack(size), n)
    ensures Times(SendSeconds(size, true), n)
         == Times(Seconds(size), n) - Times(Slack(size), n) + Times(SESSION_OVERHEAD, n) - Times(0.06, n)
  {
    TimesSum(Seconds(size), Slack(size), n);
    TimesSum(SendSeconds(size, false), SESSION_OVERHEAD - 0.06, n);
    TimesSum(SESSION_OVERHEAD, 0.06, n);
    assert SendSeconds(size, false) == Seconds(size) - Slack(size);
    assert SendSeconds(size, true) == SendSeconds(size, false) + (SESSION_OVERHEAD - 0.06);
  }

  /** Exactly how far the admitted duration is from the pacing. */
  lemma Margin(e: Event, poly: bool)
    ensures TotalDuration(e, poly) - Elapsed(e, poly)
         == (if e.preTone.Some? then Slack(e.preTone.value) - PRE_TONE_PAUSE else 0.0)
            + Times(Slack(e.size), e.repeatCount)
            + if poly then Times(0.06, e.repeatCount) + (if e.preTone.Some? then 0.06 else 0.0) else 0.0
  {
    TotalIsSums(e, poly);
    RepeatedSlack(e.size, e.repeatCount);
    if e.preTone.Some? {
      RepeatedSlack(e.preTone.value, 1);
      assert forall x: real :: Times(x, 1) == Times(x, 0) + x;
    }
  }

  /** A Poly page never outlasts what was admitted: the pause after the pre-tone fits in the slack of two sessions. */
  lemma PolyPageFits(e: Event)
    requires e.repeatCount >= 1
    ensures Elapsed(e, true) <= TotalDuration(e, true)
  {
    Margin(e, true);
    SlackRange(e.size);
    TimesIsProduct(Slack(e.size), e.repeatCount);
    TimesIsProduct(0.06, e.repeatCount);
    if e.preTone.Some? {
      SlackRange(e.preTone.value);
    }
  }

  /** Plain RTP has no session overhead: it stays within the pause of 0.10 s. */
  lemma PlainPageOvershoot(e: Event)
    ensures Elapsed(e, false) <= TotalDuration(e, false) + if e.preTone.Some? then PRE_TONE_PAUSE else 0.0
  {
    Margin(e, false);
    SlackRange(e.size);
    TimesIsProduct(Slack(e.size), e.repeatCount);
    if e.preTone.Some? {
      SlackRange(e.preTone.value);
    }
  }

  /** Exactly when a plain RTP page stays within what was admitted, from the file sizes alone. */
  lemma PlainPageFitsIff(e: Event)
    ensures Elapsed(e, false) <= TotalDuration(e, false)
            <==> e.preTone.None?
                 || Slack(e.preTone.value) + Slack(e.size) * e.repeatCount as real >= PRE_TONE_PAUSE
  {
    Margin(e, false);
    SlackRange(e.size);
    TimesIsProduct(Slack(e.size), e.repeatCount);
  }

  /** One second of sound after one second of pre-tone overruns its admitted two seconds by 0.06 s on plain RTP. */
  lemma PlainPageOverruns()
    ensures var e := Event(8000, Some(8000), 1, 0.0);
            && Admitted(e, false, 30.0, 2.0)
            && Elapsed(e, false) == 2.06
  {
  }
}
