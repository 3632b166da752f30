/**
 * Every run of the incident machine: any observations and acknowledgments, with non-decreasing positive times, the
 * configuration free to change from one to the next.
 */
module WatchRuns {
  import opened Wrappers
  import opened Watchdog

  datatype Input =
    | Probe(healthy: bool, detail: string, config: Config, now: real, identity: nat)
    | Acknowledge(identity: nat)

  /** What happened, in order; an event carries the configuration in force and the number of probes so far. */
  datatype Entry = Made(event: Event, config: Config, probes: nat) | Acked(incident: nat)

  /** `used` holds the ids of all incidents so far: ids are unique. */
  datatype Watched = Watched(doc: Document, log: seq<Entry>, probes: seq<bool>, used: set<nat>, now: real)

  predicate Enabled(w: Watched, input: Input) {
    match input
    case Probe(_, _, config, now, identity) => ValidConfig(config) && now > 0.0 && w.now <= now && identity !in w.used
    case Acknowledge(_) => true
  }

  /** The events an observation adds: at most one. */
  function Added(doc: Document, input: Input): seq<Event>
    requires input.Probe?
  {
    Observed(doc, input.healthy, input.detail, input.config, input.now, input.identity).pending[|doc.pending|..]
  }

  function Logged(events: seq<Event>, config: Config, probes: nat): seq<Entry> {
    if events == [] then [] else [Made(events[0], config, probes)]
  }

  function OpenIds(doc: Document): set<nat> {
    if doc.incident.Some? then {doc.incident.value.id} else {}
  }

  function Step(w: Watched, input: Input): Watched {
    match input
    case Probe(healthy, detail, config, now, identity) =>
      Watched(Observed(w.doc, healthy, detail, config, now, identity),
              w.log + Logged(Added(w.doc, input), config, |w.probes| + 1),
              w.probes + [healthy], w.used + OpenIds(Observed(w.doc, healthy, detail, config, now, identity)), now)
    case Acknowledge(identity) =>
      if w.doc.incident.Some? && w.doc.incident.value.id == identity
      then w.(doc := Acknowledged(w.doc, identity), log := w.log + [Acked(identity)])
      else w
  }

  function Run(w: Watched, inputs: seq<Input>): Watched {
    if inputs == [] then w
    else
      var before := Run(w, inputs[..|inputs| - 1]);
      if Enabled(before, inputs[|inputs| - 1]) then Step(before, inputs[|inputs| - 1]) else before
  }

  function Start(): Watched {
    Watched(Document(0, 0, None, None, []), [], [], {}, 0.0)
  }

  // ---------- The life of one incident, as an automaton over the log ----------

  datatype Phase = Unborn | Live(escalated: bool, acknowledged: bool, last: real) | Closed | Wrong

  function IncidentOf(entry: Entry): nat {
    match entry
    case Made(event, _, _) => event.incident
    case Acked(incident) => incident
  }

  function Next(phase: Phase, entry: Entry): Phase {
    match (phase, entry)
    case (Unborn, Made(event, _, _)) => if event.kind == Outage then Live(false, false, event.at) else Wrong
    case (Live(escalated, acknowledged, last), Made(event, config, _)) =>
      if event.at < last then Wrong
      else (match event.kind
        case Outage => Wrong
        case Escalation => if escalated then Wrong else Live(true, acknowledged, event.at)
        case Reminder =>
          if acknowledged || event.at - last < config.reminderSeconds || config.reminderSeconds < 60.0 then Wrong
          else Live(escalated, acknowledged, event.at)
        case Recovered => Closed)
    case (Live(escalated, _, last), Acked(_)) => Live(escalated, true, last)
    case _ => Wrong
  }

  function PhaseOf(log: seq<Entry>, incident: nat): Phase {
    if log == [] then Unborn
    else
      var before := PhaseOf(log[..|log| - 1], incident);
      if IncidentOf(log[|log| - 1]) == incident then Next(before, log[|log| - 1]) else before
  }

  /** How many of the last probes answered `healthy`, without a break. */
  function Streak(probes: seq<bool>, healthy: bool): nat {
    if probes == [] || probes[|probes| - 1] != healthy then 0 else Streak(probes[..|probes| - 1], healthy) + 1
  }

  // ---------- What always holds ----------

  /** The phase of every incident can be read off the document. */
  function Expected(w: Watched, incident: nat): Phase {
    if w.doc.incident.Some? && w.doc.incident.value.id == incident then
      var i := w.doc.incident.value;
      Live(i.escalated != 0.0, i.acknowledged, i.lastNotice)
    else if incident in w.used then Closed
    else Unborn
  }

  ghost predicate Lives(w: Watched) {
    && (forall id :: PhaseOf(w.log, id) == Expected(w, id))
    && (w.doc.incident.Some? ==> w.doc.incident.value.id in w.used && w.doc.incident.value.lastNotice <= w.now)
  }

  ghost predicate Counters(w: Watched) {
    w.doc.failures == Streak(w.probes, false) && w.doc.successes == Streak(w.probes, true)
  }

  predicate StreakUpTo(probes: seq<bool>, upTo: nat, length: nat, healthy: bool) {
    length <= upTo <= |probes| && Streak(probes[..upTo], healthy) >= length
  }

  /** An outage follows enough failures in a row, a recovery enough successes. */
  predicate Founded(entry: Entry, probes: seq<bool>) {
    entry.Made? ==>
      && ValidConfig(entry.config)
      && (entry.event.kind == Outage ==> StreakUpTo(probes, entry.probes, entry.config.failureThreshold, false))
      && (entry.event.kind == Recovered ==> StreakUpTo(probes, entry.probes, entry.config.recoveryThreshold, true))
  }

  ghost predicate AllFounded(w: Watched) {
    forall k :: 0 <= k < |w.log| ==> Founded(w.log[k], w.probes)
  }

  ghost predicate Sound(w: Watched) {
    Lives(w) && Counters(w) && AllFounded(w) && w.now >= 0.0
  }

  // ---------- Every step keeps it ----------

  lemma PhaseAfter(log: seq<Entry>, entry: Entry, incident: nat)
    ensures PhaseOf(log + [entry], incident) ==
              if IncidentOf(entry) == incident then Next(PhaseOf(log, incident), entry) else PhaseOf(log, incident)
  {
    assert (log + [entry])[..|log|] == log;
  }

  lemma StreakAfter(probes: seq<bool>, healthy: bool)
    ensures Streak(probes + [healthy], healthy) == Streak(probes, healthy) + 1
    ensures Streak(probes + [healthy], !healthy) == 0
  {
    assert (probes + [healthy])[..|probes|] == probes;
  }

  lemma {:induction false} StreakFits(probes: seq<bool>, healthy: bool)
    ensures Streak(probes, healthy) <= |probes|
    ensures forall k :: |probes| - Streak(probes, healthy) <= k < |probes| ==> probes[k] == healthy
  {
    if probes != [] && probes[|probes| - 1] == healthy {
      StreakFits(probes[..|probes| - 1], healthy);
    }
  }

  lemma FoundedStays(entry: Entry, probes: seq<bool>, healthy: bool)
    requires Founded(entry, probes)
    ensures Founded(entry, probes + [healthy])
  {
    if entry.Made? && entry.probes <= |probes| {
      assert (probes + [healthy])[..entry.probes] == probes[..entry.probes];
    }
  }

  /** One observation adds at most one event, and it is the decision's. */
  lemma AddedIsDecision(doc: Document, input: Input)
    requires input.Probe?
    ensures var decision := Decision(Counted(doc, input.healthy), input.healthy, input.config, input.now);
            Added(doc, input) ==
              match decision
              case None => []
              case Some(kind) =>
                [MakeEvent(kind, if kind == Outage then input.identity else doc.incident.value.id, input.detail,
                           input.config, input.now)]
  {
  }

  lemma ProbeKeepsLives(w: Watched, input: Input)
    requires Sound(w) && input.Probe? && Enabled(w, input)
    ensures Lives(Step(w, input))
  {
    var after := Step(w, input);
    AddedIsDecision(w.doc, input);
    var decision := Decision(Counted(w.doc, input.healthy), input.healthy, input.config, input.now);
    forall id ensures PhaseOf(after.log, id) == Expected(after, id) {
      assert PhaseOf(w.log, id) == Expected(w, id);
      if decision.Some? {
        PhaseAfter(w.log, after.log[|w.log|], id);
        assert after.log == w.log + [after.log[|w.log|]];
      } else {
        assert after.log == w.log;
      }
    }
  }

  lemma ProbeKeepsFounded(w: Watched, input: Input)
    requires Sound(w) && input.Probe? && Enabled(w, input)
    ensures AllFounded(Step(w, input)) && Counters(Step(w, input))
  {
    var after := Step(w, input);
    AddedIsDecision(w.doc, input);
    StreakAfter(w.probes, input.healthy);
    StreakFits(after.probes, input.healthy);
    assert after.probes[..|after.probes|] == after.probes;
    forall k | 0 <= k < |after.log| ensures Founded(after.log[k], after.probes) {
      if k < |w.log| {
        FoundedStays(w.log[k], w.probes, input.healthy);
      }
    }
  }

  lemma AckKeepsSound(w: Watched, identity: nat)
    requires Sound(w)
    ensures Sound(Step(w, Acknowledge(identity)))
  {
    var after := Step(w, Acknowledge(identity));
    if after != w {
      forall id ensures PhaseOf(after.log, id) == Expected(after, id) {
        assert PhaseOf(w.log, id) == Expected(w, id);
        PhaseAfter(w.log, Acked(identity), id);
      }
    }
  }

  lemma {:induction false} RunKeepsSound(w: Watched, inputs: seq<Input>)
    requires Sound(w)
    ensures Sound(Run(w, inputs))
  {
    if inputs != [] {
      var before, input := Run(w, inputs[..|inputs| - 1]), inputs[|inputs| - 1];
      RunKeepsSound(w, inputs[..|inputs| - 1]);
      if Enabled(before, input) {
        if input.Probe? {
          ProbeKeepsLives(before, input);
          ProbeKeepsFounded(before, input);
        } else {
          AckKeepsSound(before, input.identity);
        }
      }
    }
  }

  // ---------- The story each incident tells ----------

  /** What a later entry of an incident may be, after an earlier one. */
  predicate Follows(early: Entry, late: Entry) {
    && (late.Made? ==> late.event.kind != Outage)
    && (early.Made? ==> early.event.kind != Recovered)
    && (early.Acked? && late.Made? ==> late.event.kind != Reminder)
    && (early.Made? && late.Made? ==>
          && early.event.at <= late.event.at
          && !(early.event.kind == late.event.kind == Escalation)
          && (late.event.kind == Reminder ==> late.event.at - early.event.at >= late.config.reminderSeconds >= 60.0))
  }

  predicate Opens(entry: Entry, incident: nat) {
    entry.Made? && entry.event.kind == Outage && entry.event.incident == incident
  }

  /** One outage first, at most one escalation, a recovery only last; reminders spaced, and none once acknowledged. */
  ghost predicate WellTold(log: seq<Entry>) {
    && (forall j, k :: 0 <= j < k < |log| && IncidentOf(log[j]) == IncidentOf(log[k]) ==> Follows(log[j], log[k]))
    && (forall k :: 0 <= k < |log| && !Opens(log[k], IncidentOf(log[k])) ==>
          exists j :: 0 <= j < k && Opens(log[j], IncidentOf(log[k])))
  }

  ghost predicate PastIs(log: seq<Entry>, incident: nat, phase: Phase) {
    match phase
    case Unborn => forall j :: 0 <= j < |log| ==> IncidentOf(log[j]) != incident
    case Live(escalated, acknowledged, last) =>
      && (exists j :: 0 <= j < |log| && Opens(log[j], incident))
      && (forall j :: 0 <= j < |log| && IncidentOf(log[j]) == incident ==>
            match log[j]
            case Made(event, _, _) =>
              event.kind != Recovered && event.at <= last && (event.kind == Escalation ==> escalated)
            case Acked(_) => acknowledged)
    case _ => true
  }

  lemma PastGrows(front: seq<Entry>, entry: Entry, incident: nat, phase: Phase)
    requires PastIs(front, incident, phase)
    ensures PastIs(front + [entry], incident, if IncidentOf(entry) == incident then Next(phase, entry) else phase)
  {
    var log := front + [entry];
    if Opens(entry, incident) {
      assert Opens(log[|front|], incident);
    } else if phase.Live? {
      var j :| 0 <= j < |front| && Opens(front[j], incident);
      assert Opens(log[j], incident);
    }
  }

  lemma {:induction false} PastOf(log: seq<Entry>, incident: nat)
    ensures PastIs(log, incident, PhaseOf(log, incident))
  {
    if log != [] {
      var front, entry := log[..|log| - 1], log[|log| - 1];
      PastOf(front, incident);
      assert log == front + [entry];
      PastGrows(front, entry, incident, PhaseOf(front, incident));
    }
  }

  lemma {:induction false} NeverWrongBefore(log: seq<Entry>, incident: nat, n: nat)
    requires PhaseOf(log, incident) != Wrong && n <= |log|
    ensures PhaseOf(log[..n], incident) != Wrong
  {
    if n == |log| {
      assert log[..n] == log;
    } else {
      NeverWrongBefore(log[..|log| - 1], incident, n);
      assert log[..|log| - 1][..n] == log[..n];
    }
  }

  lemma EntryInPhase(log: seq<Entry>, k: nat)
    requires k < |log| && PhaseOf(log, IncidentOf(log[k])) != Wrong
    ensures var id := IncidentOf(log[k]);
            PastIs(log[..k], id, PhaseOf(log[..k], id)) && Next(PhaseOf(log[..k], id), log[k]) != Wrong
  {
    var id := IncidentOf(log[k]);
    PastOf(log[..k], id);
    NeverWrongBefore(log, id, k + 1);
    assert log[..k + 1][..k] == log[..k];
  }

  lemma NeverWrongIsWellTold(log: seq<Entry>)
    requires forall id :: PhaseOf(log, id) != Wrong
    ensures WellTold(log)
  {
    forall j, k | 0 <= j < k < |log| && IncidentOf(log[j]) == IncidentOf(log[k]) ensures Follows(log[j], log[k]) {
      EntryInPhase(log, k);
      assert log[..k][j] == log[j];
    }
    forall k | 0 <= k < |log| && !Opens(log[k], IncidentOf(log[k]))
      ensures exists j :: 0 <= j < k && Opens(log[j], IncidentOf(log[k]))
    {
      var id := IncidentOf(log[k]);
      EntryInPhase(log, k);
      var j :| 0 <= j < |log[..k]| && Opens(log[..k][j], id);
      assert Opens(log[j], id);
    }
  }

  /**
   * Over every sequence of observations: each incident tells one well-formed story; it opens only after
   * `failure_threshold` failures in a row and closes only after `recovery_threshold` successes in a row.
   */
  lemma EveryStoryIsWellTold(inputs: seq<Input>)
    ensures WellTold(Run(Start(), inputs).log)
    ensures AllFounded(Run(Start(), inputs))
  {
    RunKeepsSound(Start(), inputs);
    var w := Run(Start(), inputs);
    forall id ensures PhaseOf(w.log, id) != Wrong {
      assert PhaseOf(w.log, id) == Expected(w, id);
    }
    NeverWrongIsWellTold(w.log);
  }

  /** A well-founded outage really follows that many failures, all in a row up to it; and likewise a recovery. */
  lemma FoundedMeans(entry: Entry, probes: seq<bool>, k: nat)
    requires Founded(entry, probes) && entry.Made?
    ensures entry.event.kind == Outage ==> 1 <= entry.config.failureThreshold <= entry.probes <= |probes|
    ensures entry.event.kind == Outage && entry.probes - entry.config.failureThreshold <= k < entry.probes ==>
              !probes[k]
    ensures entry.event.kind == Recovered ==> 1 <= entry.config.recoveryThreshold <= entry.probes <= |probes|
    ensures entry.event.kind == Recovered && entry.probes - entry.config.recoveryThreshold <= k < entry.probes ==>
              probes[k]
  {
    if entry.probes <= |probes| {
      StreakFits(probes[..entry.probes], false);
      StreakFits(probes[..entry.probes], true);
    }
  }

  lemma DecisionOpensAndCloses(doc: Document, input: Input)
    requires input.Probe? && ValidConfig(input.config)
    ensures var seen, after := Counted(doc, input.healthy),
              Observed(doc, input.healthy, input.detail, input.config, input.now, input.identity);
            && (doc.incident.None? ==> (after.incident.Some? <==> seen.failures >= input.config.failureThreshold))
            && (doc.incident.Some? ==> (after.incident.None? <==> seen.successes >= input.config.recoveryThreshold))
  {
    var decision := Decision(Counted(doc, input.healthy), input.healthy, input.config, input.now);
    if decision.Some? {
      assert doc.incident.None? ==> decision.value == Outage;
      assert doc.incident.Some? ==> decision.value != Outage;
    }
  }

  /** Both ways: an incident opens, and closes, exactly when the streak reaches the threshold in force. */
  lemma OpensAndClosesExactly(w: Watched, input: Input)
    requires Sound(w) && input.Probe? && Enabled(w, input)
    ensures var after := Step(w, input);
            && (w.doc.incident.None? ==>
                  (after.doc.incident.Some? <==> Streak(after.probes, false) >= input.config.failureThreshold))
            && (w.doc.incident.Some? ==>
                  (after.doc.incident.None? <==> Streak(after.probes, true) >= input.config.recoveryThreshold))
  {
    StreakAfter(w.probes, input.healthy);
    DecisionOpensAndCloses(w.doc, input);
  }

  // ---------- Which notice is made, from the history alone ----------

  /** The log has a notice of this kind for this incident. */
  ghost predicate Noticed(log: seq<Entry>, incident: nat, kind: Kind) {
    exists k :: 0 <= k < |log| && log[k].Made? && log[k].event.incident == incident && log[k].event.kind == kind
  }

  /** It was made at this time. */
  ghost predicate NoticedAt(log: seq<Entry>, incident: nat, kind: Kind, at: real) {
    exists k :: 0 <= k < |log| && log[k].Made? && log[k].event.incident == incident && log[k].event.kind == kind
                && log[k].event.at == at
  }

  ghost predicate IsAcked(log: seq<Entry>, incident: nat) {
    exists k :: 0 <= k < |log| && log[k] == Acked(incident)
  }

  /** The last notice of the incident was made at this time. */
  ghost predicate LastNoticeAt(log: seq<Entry>, incident: nat, at: real) {
    exists k :: 0 <= k < |log| && log[k].Made? && log[k].event.incident == incident && log[k].event.at == at
                && forall j :: k < j < |log| ==> !(log[j].Made? && log[j].event.incident == incident)
  }

  /** The open incident is as the log tells it. */
  ghost predicate ToldOf(i: Incident, log: seq<Entry>) {
    && NoticedAt(log, i.id, Outage, i.since)
    && (i.escalated != 0.0 <==> Noticed(log, i.id, Escalation))
    && (i.acknowledged <==> IsAcked(log, i.id))
    && LastNoticeAt(log, i.id, i.lastNotice)
  }

  /** The ids drawn so far are those of the outages, and every entry is of one of them. */
  ghost predicate UsedTold(used: set<nat>, log: seq<Entry>) {
    && (forall id :: id in used <==> Noticed(log, id, Outage))
    && (forall k :: 0 <= k < |log| ==> IncidentOf(log[k]) in used)
  }

  /** The incident of a log: it had its outage and not yet its recovery. */
  ghost predicate IsOpen(log: seq<Entry>, incident: nat) {
    Noticed(log, incident, Outage) && !Noticed(log, incident, Recovered)
  }

  /** The document's incident is the open one. */
  ghost predicate OpenTold(ids: set<nat>, log: seq<Entry>) {
    forall id :: id in ids <==> IsOpen(log, id)
  }

  /** The document says of every incident what the log says. */
  ghost predicate Told(w: Watched) {
    && UsedTold(w.used, w.log) && OpenTold(OpenIds(w.doc), w.log)
    && (w.doc.incident.Some? ==> ToldOf(w.doc.incident.value, w.log))
  }

  lemma LogAfter(log: seq<Entry>, entry: Entry, incident: nat, kind: Kind, at: real)
    ensures var more := log + [entry];
            var same := entry.Made? && entry.event.incident == incident;
            && (Noticed(more, incident, kind) <==> Noticed(log, incident, kind) || (same && entry.event.kind == kind))
            && (NoticedAt(log, incident, kind, at) ==> NoticedAt(more, incident, kind, at))
            && (same && entry.event.kind == kind ==> NoticedAt(more, incident, kind, entry.event.at))
            && (IsAcked(more, incident) <==> IsAcked(log, incident) || entry == Acked(incident))
            && (same ==> LastNoticeAt(more, incident, entry.event.at))
            && (!same && LastNoticeAt(log, incident, at) ==> LastNoticeAt(more, incident, at))
  {
    var more := log + [entry];
    assert more[|log|] == entry;
    if Noticed(log, incident, kind) {
      var k :| 0 <= k < |log| && log[k].Made? && log[k].event.incident == incident && log[k].event.kind == kind;
      assert more[k] == log[k];
    }
    if NoticedAt(log, incident, kind, at) {
      var k :| 0 <= k < |log| && log[k].Made? && log[k].event.incident == incident && log[k].event.kind == kind
               && log[k].event.at == at;
      assert more[k] == log[k];
    }
    if IsAcked(log, incident) {
      var k :| 0 <= k < |log| && log[k] == Acked(incident);
      assert more[k] == log[k];
    }
    if LastNoticeAt(log, incident, at) {
      var k :| 0 <= k < |log| && log[k].Made? && log[k].event.incident == incident && log[k].event.at == at
               && forall j :: k < j < |log| ==> !(log[j].Made? && log[j].event.incident == incident);
      assert more[k] == log[k];
    }
  }

  lemma EveryLogAfter(log: seq<Entry>, entry: Entry)
    ensures var more := log + [entry];
            && (forall id, kind :: Noticed(more, id, kind) <==>
                  Noticed(log, id, kind) || (entry.Made? && entry.event.incident == id && entry.event.kind == kind))
            && (forall id :: IsAcked(more, id) <==> IsAcked(log, id) || entry == Acked(id))
  {
    forall id, kind
      ensures Noticed(log + [entry], id, kind) <==>
              Noticed(log, id, kind) || (entry.Made? && entry.event.incident == id && entry.event.kind == kind)
    {
      LogAfter(log, entry, id, kind, 0.0);
    }
    forall id ensures IsAcked(log + [entry], id) <==> IsAcked(log, id) || entry == Acked(id) {
      LogAfter(log, entry, id, Outage, 0.0);
    }
  }

  lemma ToldIsUsed(w: Watched, id: nat)
    requires Told(w)
    ensures (IsAcked(w.log, id) ==> id in w.used) && forall kind :: Noticed(w.log, id, kind) ==> id in w.used
  {
    if k :| 0 <= k < |w.log| && w.log[k] == Acked(id) {
      assert IncidentOf(w.log[k]) == id;
    }
    forall kind | Noticed(w.log, id, kind) ensures id in w.used {
      var k :| 0 <= k < |w.log| && w.log[k].Made? && w.log[k].event.incident == id && w.log[k].event.kind == kind;
      assert IncidentOf(w.log[k]) == id;
    }
  }

  /** An entry of a known incident, or the outage of a new one. */
  lemma UsedAfter(used: set<nat>, log: seq<Entry>, entry: Entry)
    requires UsedTold(used, log) && (IncidentOf(entry) in used || Opens(entry, IncidentOf(entry)))
    ensures UsedTold(used + {IncidentOf(entry)}, log + [entry])
  {
    EveryLogAfter(log, entry);
    hide Noticed;
  }

  /** An outage opens its incident, a recovery closes it, and nothing else changes which is open. */
  lemma OpenAfter(ids: set<nat>, log: seq<Entry>, entry: Entry)
    requires OpenTold(ids, log)
    requires Opens(entry, IncidentOf(entry)) ==> !Noticed(log, IncidentOf(entry), Recovered)
    ensures OpenTold(if Opens(entry, IncidentOf(entry)) then ids + {IncidentOf(entry)}
                     else if entry.Made? && entry.event.kind == Recovered then ids - {IncidentOf(entry)} else ids,
                     log + [entry])
  {
    EveryLogAfter(log, entry);
    hide Noticed;
  }

  lemma OutageKeepsTold(w: Watched, input: Input)
    requires Sound(w) && Told(w) && input.Probe? && Enabled(w, input)
    requires Decision(Counted(w.doc, input.healthy), input.healthy, input.config, input.now) == Some(Outage)
    ensures Told(Step(w, input))
  {
    var after := Step(w, input);
    AddedIsDecision(w.doc, input);
    var entry := after.log[|w.log|];
    assert after.log == w.log + [entry];
    ToldIsUsed(w, input.identity);
    UsedAfter(w.used, w.log, entry);
    OpenAfter({}, w.log, entry);
    EveryLogAfter(w.log, entry);
    LogAfter(w.log, entry, input.identity, Outage, input.now);
    hide Noticed, NoticedAt, IsAcked, LastNoticeAt, Decision, UsedTold, OpenTold;
    assert {} + {input.identity} == OpenIds(after.doc);
  }

  lemma LaterKeepsTold(w: Watched, input: Input, kind: Kind)
    requires Sound(w) && Told(w) && input.Probe? && Enabled(w, input) && kind != Outage
    requires Decision(Counted(w.doc, input.healthy), input.healthy, input.config, input.now) == Some(kind)
    ensures Told(Step(w, input))
  {
    var after, i := Step(w, input), w.doc.incident.value;
    AddedIsDecision(w.doc, input);
    var entry := after.log[|w.log|];
    assert after.log == w.log + [entry];
    assert i.id in OpenIds(w.doc) && IsOpen(w.log, i.id);
    UsedAfter(w.used, w.log, entry);
    OpenAfter(OpenIds(w.doc), w.log, entry);
    LaterToldOf(i, w.log, entry);
    hide UsedTold, OpenTold, ToldOf, Decision, Sound;
    assert after.used == w.used == w.used + {i.id};
    assert {i.id} - {i.id} == {};
  }

  /** A later notice of the open incident. */
  lemma LaterToldOf(i: Incident, log: seq<Entry>, entry: Entry)
    requires ToldOf(i, log) && entry.Made? && entry.event.incident == i.id && entry.event.kind != Outage
    ensures var at := entry.event.at;
            match entry.event.kind
            case Escalation => at != 0.0 ==> ToldOf(i.(escalated := at, lastNotice := at), log + [entry])
            case _ => ToldOf(i.(lastNotice := at), log + [entry])
  {
    EveryLogAfter(log, entry);
    LogAfter(log, entry, i.id, Outage, i.since);
    hide Noticed, NoticedAt, IsAcked, LastNoticeAt;
  }

  lemma StepKeepsTold(w: Watched, input: Input)
    requires Sound(w) && Told(w) && Enabled(w, input)
    ensures Told(Step(w, input))
  {
    if input.Probe? {
      AddedIsDecision(w.doc, input);
      match Decision(Counted(w.doc, input.healthy), input.healthy, input.config, input.now)
      case Some(kind) =>
        if kind == Outage {
          OutageKeepsTold(w, input);
        } else {
          LaterKeepsTold(w, input, kind);
        }
      case None => assert Step(w, input).log == w.log;
    } else if w.doc.incident.Some? && w.doc.incident.value.id == input.identity {
      AckKeepsTold(w);
    }
  }

  lemma AckKeepsTold(w: Watched)
    requires Told(w) && w.doc.incident.Some?
    ensures Told(Step(w, Acknowledge(w.doc.incident.value.id)))
  {
    var i := w.doc.incident.value;
    assert i.id in OpenIds(w.doc) && IsOpen(w.log, i.id);
    UsedAfter(w.used, w.log, Acked(i.id));
    OpenAfter(OpenIds(w.doc), w.log, Acked(i.id));
    AckedToldOf(i, w.log);
    hide UsedTold, OpenTold, ToldOf;
    assert w.used == w.used + {i.id};
  }

  lemma AckedToldOf(i: Incident, log: seq<Entry>)
    requires ToldOf(i, log)
    ensures ToldOf(i.(acknowledged := true), log + [Acked(i.id)])
  {
    EveryLogAfter(log, Acked(i.id));
    LogAfter(log, Acked(i.id), i.id, Outage, i.since);
    LogAfter(log, Acked(i.id), i.id, Outage, i.lastNotice);
    hide Noticed, NoticedAt, IsAcked, LastNoticeAt;
  }

  lemma {:induction false} RunIsTold(inputs: seq<Input>)
    ensures Told(Run(Start(), inputs))
  {
    if inputs != [] {
      var front, input := inputs[..|inputs| - 1], inputs[|inputs| - 1];
      RunIsTold(front);
      RunKeepsSound(Start(), front);
      if Enabled(Run(Start(), front), input) {
        StepKeepsTold(Run(Start(), front), input);
      }
    }
  }

  /** What a probe adds to the log: this one notice, made now, with the contacts in force. */
  ghost predicate Adds(before: Watched, after: Watched, input: Input, kind: Kind, incident: nat)
    requires input.Probe?
  {
    after.log == before.log + [Made(Event(kind, incident, input.now, input.detail, input.config.owner,
                                          input.config.contact), input.config, |before.probes| + 1)]
  }

  /**
   * In every history, exactly when a probe makes which notice for the open incident: a recovery once the streak of good
   * probes reaches the threshold; else the escalation, once, when `escalation_seconds` have passed since the outage;
   * else a reminder, when unacknowledged and `reminder_seconds` have passed since the last notice; and nothing else.
   */
  lemma NoticesExactly(inputs: seq<Input>, input: Input, incident: nat, openedAt: real, last: real)
    requires var w := Run(Start(), inputs);
             && input.Probe? && Enabled(w, input) && IsOpen(w.log, incident)
             && NoticedAt(w.log, incident, Outage, openedAt) && LastNoticeAt(w.log, incident, last)
    ensures var w, c := Run(Start(), inputs), input.config;
            var after := Step(w, input);
            var over := Streak(after.probes, true) >= c.recoveryThreshold;
            var escalates := !over && !Noticed(w.log, incident, Escalation)
                             && input.now - openedAt >= c.escalationSeconds;
            var reminds := !over && !escalates && !IsAcked(w.log, incident) && input.now - last >= c.reminderSeconds;
            && (Adds(w, after, input, Recovered, incident) <==> over)
            && (Adds(w, after, input, Escalation, incident) <==> escalates)
            && (Adds(w, after, input, Reminder, incident) <==> reminds)
            && (after.log == w.log <==> !over && !escalates && !reminds)
  {
    hide Told, Sound, IsOpen;
    var w := Run(Start(), inputs);
    EveryStoryIsWellTold(inputs);
    RunIsTold(inputs);
    RunKeepsSound(Start(), inputs);
    DocumentKnows(w, incident, openedAt, last);
    ProbeDecides(w, input);
    var after := Step(w, input);
    AddsOne(w, after, input, Recovered, Escalation, incident);
    AddsOne(w, after, input, Recovered, Reminder, incident);
    AddsOne(w, after, input, Escalation, Reminder, incident);
    hide Adds, Step, Noticed, IsAcked, NoticedAt, LastNoticeAt, WellTold;
  }

  /** A probe adds one notice, if any. */
  lemma AddsOne(before: Watched, after: Watched, input: Input, kind: Kind, other: Kind, incident: nat)
    requires input.Probe? && kind != other
    ensures !(Adds(before, after, input, kind, incident) && Adds(before, after, input, other, incident))
    ensures Adds(before, after, input, kind, incident) || Adds(before, after, input, other, incident) ==>
              after.log != before.log
  {
    if Adds(before, after, input, kind, incident) {
      assert after.log[|before.log|].event.kind == kind;
    }
  }

  /** The document of the open incident, from the log. */
  lemma DocumentKnows(w: Watched, incident: nat, openedAt: real, last: real)
    requires Told(w) && WellTold(w.log) && IsOpen(w.log, incident)
    requires NoticedAt(w.log, incident, Outage, openedAt) && LastNoticeAt(w.log, incident, last)
    ensures w.doc.incident.Some?
    ensures var i := w.doc.incident.value;
            && i.id == incident && i.since == openedAt && i.lastNotice == last
            && (i.escalated == 0.0 <==> !Noticed(w.log, incident, Escalation))
            && (i.acknowledged <==> IsAcked(w.log, incident))
  {
    assert incident in OpenIds(w.doc);
    OneOutage(w.log, incident, openedAt, w.doc.incident.value.since);
    OneLast(w.log, incident, last, w.doc.incident.value.lastNotice);
  }

  /** What a probe adds, from the document and the streaks. */
  lemma ProbeDecides(w: Watched, input: Input)
    requires Sound(w) && input.Probe? && Enabled(w, input) && w.doc.incident.Some?
    ensures var i, c, after := w.doc.incident.value, input.config, Step(w, input);
            var over := Streak(after.probes, true) >= c.recoveryThreshold;
            var escalates := !over && i.escalated == 0.0 && input.now - i.since >= c.escalationSeconds;
            var reminds := !over && !escalates && !i.acknowledged && input.now - i.lastNotice >= c.reminderSeconds;
            && (over ==> Adds(w, after, input, Recovered, i.id))
            && (escalates ==> Adds(w, after, input, Escalation, i.id))
            && (reminds ==> Adds(w, after, input, Reminder, i.id))
            && (!over && !escalates && !reminds ==> after.log == w.log)
  {
    StreakAfter(w.probes, input.healthy);
    AddedIsDecision(w.doc, input);
  }

  /** An incident has one outage. */
  lemma OneOutage(log: seq<Entry>, incident: nat, a: real, b: real)
    requires WellTold(log) && NoticedAt(log, incident, Outage, a) && NoticedAt(log, incident, Outage, b)
    ensures a == b
  {
    var j :| 0 <= j < |log| && log[j].Made? && log[j].event.incident == incident && log[j].event.kind == Outage
             && log[j].event.at == a;
    var k :| 0 <= k < |log| && log[k].Made? && log[k].event.incident == incident && log[k].event.kind == Outage
             && log[k].event.at == b;
    assert IncidentOf(log[j]) == IncidentOf(log[k]);
  }

  lemma OneLast(log: seq<Entry>, incident: nat, a: real, b: real)
    requires LastNoticeAt(log, incident, a) && LastNoticeAt(log, incident, b)
    ensures a == b
  {
    var j :| 0 <= j < |log| && log[j].Made? && log[j].event.incident == incident && log[j].event.at == a
             && forall i :: j < i < |log| ==> !(log[i].Made? && log[i].event.incident == incident);
    var k :| 0 <= k < |log| && log[k].Made? && log[k].event.incident == incident && log[k].event.at == b
             && forall i :: k < i < |log| ==> !(log[i].Made? && log[i].event.incident == incident);
  }

  /** The incident last closed is remembered as it was; nothing else touches it. */
  lemma LastIncidentExactly(w: Watched, input: Input)
    requires Sound(w) && Enabled(w, input)
    ensures Step(w, input).doc.lastIncident ==
              if w.doc.incident.Some? && Step(w, input).doc.incident.None? then w.doc.incident else w.doc.lastIncident
  {
  }

  /** With no open incident a probe makes an outage exactly when the streak of failures reaches the threshold. */
  lemma OutageExactly(inputs: seq<Input>, input: Input)
    requires var w := Run(Start(), inputs);
             input.Probe? && Enabled(w, input) && forall incident :: !IsOpen(w.log, incident)
    ensures var w := Run(Start(), inputs);
            var after := Step(w, input);
            && !Noticed(w.log, input.identity, Outage)
            && (Adds(w, after, input, Outage, input.identity) <==>
                  Streak(after.probes, false) >= input.config.failureThreshold)
            && (after.log == w.log <==> Streak(after.probes, false) < input.config.failureThreshold)
  {
    var w := Run(Start(), inputs);
    RunIsTold(inputs);
    RunKeepsSound(Start(), inputs);
    StreakAfter(w.probes, input.healthy);
    AddedIsDecision(w.doc, input);
    NoneOpen(w);
  }

  lemma NoneOpen(w: Watched)
    requires Told(w)
    ensures w.doc.incident.None? <==> forall incident :: !IsOpen(w.log, incident)
  {
    if w.doc.incident.Some? {
      assert w.doc.incident.value.id in OpenIds(w.doc);
    }
  }

  predicate SameKey(e: Event, f: Event) {
    e.kind == f.kind && e.incident == f.incident && e.at == f.at
  }

  /** No two events have the same deduplication key. */
  ghost predicate KeysDistinct(log: seq<Entry>) {
    forall j, k :: 0 <= j < k < |log| && log[j].Made? && log[k].Made? ==> !SameKey(log[j].event, log[k].event)
  }

  lemma KeysAreDistinct(log: seq<Entry>)
    requires WellTold(log)
    ensures KeysDistinct(log)
  {
    forall j, k | 0 <= j < k < |log| && log[j].Made? && log[k].Made? ensures !SameKey(log[j].event, log[k].event) {
      if IncidentOf(log[j]) == IncidentOf(log[k]) {
        FollowersDiffer(log[j], log[k]);
      }
    }
  }

  lemma FollowersDiffer(early: Entry, late: Entry)
    requires early.Made? && late.Made? && Follows(early, late)
    ensures !SameKey(early.event, late.event)
  {
  }
}
