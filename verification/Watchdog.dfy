/**
 * The incident machine of the independent monitor: `bell/watchdog.py:78-149`. The state document is changed in place
 * by `WatchState`; probes are inputs, and every incident id is fresh.
 */
module Watchdog {
  import opened Wrappers
  import opened Outbox

  datatype Kind = Outage | Escalation | Reminder | Recovered

  datatype Event = Event(kind: Kind, incident: nat, at: real, detail: string, owner: string, contact: string)

  /** `escalated` is 0 while the key is absent: the source tests it for truth. */
  datatype Incident = Incident(id: nat, since: real, lastNotice: real, acknowledged: bool, escalated: real)

  datatype Config = Config(owner: string, contact: string, failureThreshold: nat, recoveryThreshold: nat,
                           reminderSeconds: real, escalationSeconds: real)

  datatype Document = Document(failures: nat, successes: nat, incident: Option<Incident>,
                               lastIncident: Option<Incident>, pending: seq<Event>)

  predicate ValidConfig(c: Config) {
    && 1 <= c.failureThreshold <= 20 && 1 <= c.recoveryThreshold <= 20
    && 60.0 <= c.reminderSeconds <= 86400.0 && 120.0 <= c.escalationSeconds <= 86400.0
  }

  function Counted(doc: Document, healthy: bool): Document {
    doc.(failures := if healthy then 0 else doc.failures + 1, successes := if healthy then doc.successes + 1 else 0)
  }

  /** Which notice an observation makes, the counters being up to date. */
  function Decision(doc: Document, healthy: bool, c: Config, now: real): Option<Kind> {
    match doc.incident
    case None => if !healthy && doc.failures >= c.failureThreshold then Some(Outage) else None
    case Some(incident) =>
      if healthy && doc.successes >= c.recoveryThreshold then Some(Recovered)
      else if now - incident.since >= c.escalationSeconds && incident.escalated == 0.0 then Some(Escalation)
      else if !incident.acknowledged && now - incident.lastNotice >= c.reminderSeconds then Some(Reminder)
      else None
  }

  function MakeEvent(kind: Kind, incident: nat, detail: string, c: Config, now: real): Event {
    Event(kind, incident, now, detail, c.owner, c.contact)
  }

  function Announced(doc: Document, kind: Kind, detail: string, c: Config, now: real, id: nat): Document
    requires kind == Outage || doc.incident.Some?
  {
    var incident := if kind == Outage then Incident(id, now, now, false, 0.0) else doc.incident.value;
    var noted := match kind
      case Outage => doc.(incident := Some(incident))
      case Recovered => doc.(incident := None, lastIncident := Some(incident))
      case Escalation => doc.(incident := Some(incident.(escalated := now, lastNotice := now)))
      case Reminder => doc.(incident := Some(incident.(lastNotice := now)));
    noted.(pending := noted.pending + [MakeEvent(kind, incident.id, detail, c, now)])
  }

  function Observed(doc: Document, healthy: bool, detail: string, c: Config, now: real, id: nat): Document {
    var seen := Counted(doc, healthy);
    match Decision(seen, healthy, c, now)
    case None => seen
    case Some(kind) => Announced(seen, kind, detail, c, now, id)
  }

  function Acknowledged(doc: Document, identity: nat): Document {
    if doc.incident.Some? && doc.incident.value.id == identity
    then doc.(incident := Some(doc.incident.value.(acknowledged := true)))
    else doc
  }

  function Name(kind: Kind): string {
    match kind
    case Outage => "outage"
    case Escalation => "escalation"
    case Reminder => "reminder"
    case Recovered => "recovered"
  }

  /** The deduplication key `flush` offers an event under. */
  function KeyOf(event: Event): Key {
    External("external_" + Name(event.kind), event.incident, event.at)
  }

  predicate Refused(outcome: Outcome) {
    outcome == NotConfigured || outcome == Full
  }

  /** The events the outbox refused, in order. */
  function Remaining(events: seq<Event>, outcomes: seq<Outcome>): seq<Event>
    requires |events| == |outcomes|
  {
    if events == [] then []
    else
      var n := |events| - 1;
      Remaining(events[..n], outcomes[..n]) + if Refused(outcomes[n]) then [events[n]] else []
  }

  /** A flush keeps, in order, the events for which no webhook is set or the outbox is full; it starts from none. */
  lemma RemainingExactly(events: seq<Event>, outcomes: seq<Outcome>, event: Event, outcome: Outcome)
    requires |events| == |outcomes|
    ensures Remaining([], []) == []
    ensures Remaining(events + [event], outcomes + [outcome])
         == Remaining(events, outcomes) + if outcome == NotConfigured || outcome == Full then [event] else []
  {
    assert (events + [event])[..|events|] == events && (outcomes + [outcome])[..|outcomes|] == outcomes;
  }

  lemma NextRemains(events: seq<Event>, outcomes: seq<Outcome>, outcome: Outcome)
    requires |outcomes| < |events|
    ensures var i := |outcomes|;
            Remaining(events[..i + 1], outcomes + [outcome])
            == Remaining(events[..i], outcomes) + if Refused(outcome) then [events[i]] else []
  {
    hide Remaining;
    var i := |outcomes|;
    RemainingExactly(events[..i], outcomes, events[i], outcome);
    assert events[..i + 1] == events[..i] + [events[i]];
  }

  /** What the outbox queued of these events is pending there. */
  ghost predicate QueuedArePending(rows: Rows, events: seq<Event>, outcomes: seq<Outcome>)
    requires |outcomes| <= |events|
  {
    forall k :: 0 <= k < |outcomes| && outcomes[k] == Queued ==> HasPending(rows, KeyOf(events[k]))
  }

  lemma OneMoreQueued(before: Rows, after: Rows, events: seq<Event>, outcomes: seq<Outcome>, outcome: Outcome)
    requires |outcomes| < |events| && QueuedArePending(before, events, outcomes) && PendingKept(before, after)
    requires outcome == Queued ==> HasPending(after, KeyOf(events[|outcomes|]))
    ensures QueuedArePending(after, events, outcomes + [outcome])
  {
    hide HasPending, KeyOf;
  }

  class WatchState {
    var doc: Document

    constructor (saved: Document)
      ensures doc == saved
    {
      doc := saved;
    }

    method Observe(healthy: bool, detail: string, c: Config, now: real, identity: nat)
      modifies this
      ensures doc == Observed(old(doc), healthy, detail, c, now, identity)
    {
      doc := doc.(failures := if healthy then 0 else doc.failures + 1);
      doc := doc.(successes := if healthy then doc.successes + 1 else 0);
      var incident := doc.incident;
      var kind: Option<Kind> := None;
      if !healthy && incident.None? && doc.failures >= c.failureThreshold {
        incident := Some(Incident(identity, now, now, false, 0.0));
        doc := doc.(incident := incident);
        kind := Some(Outage);
      } else if healthy && incident.Some? && doc.successes >= c.recoveryThreshold {
        kind := Some(Recovered);
        doc := doc.(lastIncident := incident);
        doc := doc.(incident := None);
      } else if incident.Some? && now - incident.value.since >= c.escalationSeconds && incident.value.escalated == 0.0 {
        incident := Some(incident.value.(escalated := now));
        kind := Some(Escalation);
      } else if incident.Some? && !incident.value.acknowledged && now - incident.value.lastNotice >= c.reminderSeconds {
        kind := Some(Reminder);
      }
      if kind.Some? && incident.Some? {
        incident := Some(incident.value.(lastNotice := now));
        if doc.incident.Some? {
          doc := doc.(incident := incident);
        }
        doc := doc.(pending := doc.pending + [MakeEvent(kind.value, incident.value.id, detail, c, now)]);
      }
    }

    /** `acknowledge`; the answer says whether the note and the identity were accepted. */
    method Acknowledge(identity: nat, noteFits: bool) returns (ok: bool)
      modifies this
      ensures ok <==> noteFits && old(doc).incident.Some? && old(doc).incident.value.id == identity
      ensures doc == if ok then Acknowledged(old(doc), identity) else old(doc)
    {
      if !noteFits || doc.incident.None? || doc.incident.value.id != identity {
        return false;
      }
      doc := doc.(incident := Some(doc.incident.value.(acknowledged := true)));
      return true;
    }

    /** `flush` undisturbed: what the outbox accepts leaves the pending list, what it refuses stays, in order. */
    method Flush(alerts: AlertDispatcher, ids: seq<Id>, times: seq<real>)
      returns (ghost outcomes: seq<Outcome>)
      requires |ids| == |times| == |doc.pending|
      requires forall i :: 0 <= i < |ids| ==> ids[i] !in alerts.rows
      requires forall i, j :: 0 <= i < j < |ids| ==> ids[i] != ids[j]
      modifies this, alerts`rows
      ensures |outcomes| == |old(doc).pending|
      ensures doc == old(doc).(pending := Remaining(old(doc).pending, outcomes))
      ensures QueuedArePending(alerts.rows, old(doc).pending, outcomes)
      ensures alerts.url != "" ==> forall i :: 0 <= i < |outcomes| ==> outcomes[i] != NotConfigured
    {
      assert Remaining([], []) == [];
      hide Remaining, QueuedArePending, PendingKept;
      var events := doc.pending;
      var remaining: seq<Event> := [];
      outcomes := [];
      var i := 0;
      while i < |events|
        invariant 0 <= i <= |events| && |outcomes| == i
        invariant doc == old(doc) && alerts.url == old(alerts.url)
        invariant remaining == Remaining(events[..i], outcomes)
        invariant forall k :: i <= k < |ids| ==> ids[k] !in alerts.rows
        invariant QueuedArePending(alerts.rows, events, outcomes)
        invariant alerts.url != "" ==> forall k :: 0 <= k < i ==> outcomes[k] != NotConfigured
      {
        ghost var before := alerts.rows;
        var outcome := Offer(alerts, ids[i], KeyOf(events[i]), times[i]);
        OneMoreQueued(before, alerts.rows, events, outcomes, outcome);
        NextRemains(events, outcomes, outcome);
        outcomes := outcomes + [outcome];
        if outcome == NotConfigured || outcome == Full {
          remaining := remaining + [events[i]];
        }
        i := i + 1;
      }
      assert events[..i] == events;
      doc := doc.(pending := remaining);
    }
  }

  ghost predicate PendingKept(before: Rows, after: Rows) {
    forall key :: HasPending(before, key) ==> HasPending(after, key)
  }

  /** One event offered to the outbox: no pending notification goes, and a queued one is pending. */
  method Offer(alerts: AlertDispatcher, id: Id, key: Key, now: real) returns (outcome: Outcome)
    requires id !in alerts.rows
    modifies alerts`rows
    ensures alerts.rows.Keys <= old(alerts.rows).Keys + {id}
    ensures PendingKept(old(alerts.rows), alerts.rows)
    ensures outcome == Queued ==> HasPending(alerts.rows, key)
    ensures alerts.url != "" ==> outcome != NotConfigured
  {
    ghost var before := alerts.rows;
    var answer, newest := alerts.Enqueue(id, key, now, false);
    outcome := answer;
    forall k | HasPending(before, k) ensures HasPending(alerts.rows, k) {
      var kept :| kept in before && before[kept].key == k && before[kept].status == Pending;
      assert kept in alerts.rows && alerts.rows[kept].key == k;
    }
    if outcome == Queued {
      assert alerts.rows[id].key == key && alerts.rows[id].status == Pending;
    }
  }
}
