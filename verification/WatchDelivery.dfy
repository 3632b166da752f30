/**
 * From the monitor's database to its outbox: `bell/watchdog.py:136-149` with `bell/alerts.py:63-93`. The two commit
 * separately, so the process may die between any enqueue and the watcher's own commit. `flush` holds the watcher's
 * write lock, so no observation runs beside it; deliveries go on at any time.
 */
module WatchDelivery {
  import opened Wrappers
  import opened Watchdog
  import W = WatchRuns
  import O = Outbox
  import OutboxRuns

  /** A `flush` under way: events still to offer, and those refused so far. */
  datatype Flush = Flush(todo: seq<Event>, refused: seq<Event>)

  /** `queued` is the history: under each key, the event whose notification was inserted. */
  datatype System = System(watch: W.Watched, outbox: OutboxRuns.World, flush: Option<Flush>, queued: map<O.Key, Event>)

  datatype Action =
    | Watch(input: W.Input)
    | Begin
    | Offer(id: nat, url: string, stamp: real, newest: seq<nat>, since: real)
    | Commit
    | Crash
    | Deliver(step: OutboxRuns.Action)

  function Insertion(s: System, a: Action): OutboxRuns.Action
    requires a.Offer? && s.flush.Some? && s.flush.value.todo != []
  {
    OutboxRuns.Enqueue(a.id, KeyOf(s.flush.value.todo[0]), a.url, a.stamp, a.newest, false, a.since)
  }

  ghost predicate Enabled(s: System, a: Action) {
    match a
    case Watch(input) => s.flush.None? && W.Enabled(s.watch, input)
    case Begin => s.flush.None?
    case Offer(_, _, _, _, _) =>
      s.flush.Some? && s.flush.value.todo != [] && OutboxRuns.Enabled(s.outbox, Insertion(s, a))
    case Commit => s.flush.Some? && s.flush.value.todo == []
    case Crash => true
    case Deliver(step) => !step.Enqueue? && OutboxRuns.Enabled(s.outbox, step)
  }

  ghost function OfferStep(s: System, a: Action): System
    requires a.Offer? && Enabled(s, a)
  {
    var event := s.flush.value.todo[0];
    var key := KeyOf(event);
    var rest := s.flush.value.todo[1..];
    var taken := Some(Flush(rest, s.flush.value.refused));
    var refused := Some(Flush(rest, s.flush.value.refused + [event]));
    var outbox := OutboxRuns.Enqueued(s.outbox, Insertion(s, a));
    if a.url == "" then s.(flush := refused)
    else if O.HasPending(s.outbox.rows, key) || O.SentSince(s.outbox.rows, key, a.since) then s.(flush := taken)
    else if a.id in outbox.rows then s.(outbox := outbox, flush := taken, queued := s.queued[key := event])
    else s.(outbox := outbox, flush := refused)
  }

  ghost function Step(s: System, a: Action): System
    requires Enabled(s, a)
  {
    match a
    case Watch(input) => s.(watch := W.Step(s.watch, input))
    case Begin => s.(flush := Some(Flush(s.watch.doc.pending, [])))
    case Offer(_, _, _, _, _) => OfferStep(s, a)
    case Commit => s.(watch := s.watch.(doc := s.watch.doc.(pending := s.flush.value.refused)), flush := None)
    case Crash => s.(flush := None)
    case Deliver(step) => s.(outbox := OutboxRuns.Step(s.outbox, step))
  }

  ghost function Run(s: System, actions: seq<Action>): System {
    if actions == [] then s
    else
      var before := Run(s, actions[..|actions| - 1]);
      var a := actions[|actions| - 1];
      if Enabled(before, a) then Step(before, a) else before
  }

  function Start(clock: real): System {
    System(W.Start(), OutboxRuns.Start(clock), None, map[])
  }

  // ---------- What always holds ----------

  ghost predicate IsLogged(log: seq<W.Entry>, event: Event) {
    exists k :: 0 <= k < |log| && log[k].Made? && log[k].event == event
  }

  /** The outbox took this very event: its notification, not one of another event, was inserted under its key. */
  predicate Accepted(queued: map<O.Key, Event>, event: Event) {
    KeyOf(event) in queued && queued[KeyOf(event)] == event
  }

  ghost predicate KeptOrAccepted(pending: seq<Event>, queued: map<O.Key, Event>, event: Event) {
    event in pending || Accepted(queued, event)
  }

  ghost predicate NothingLost(w: W.Watched, queued: map<O.Key, Event>) {
    forall event :: IsLogged(w.log, event) ==> KeptOrAccepted(w.doc.pending, queued, event)
  }

  ghost predicate InFlush(f: Flush, queued: map<O.Key, Event>, event: Event) {
    event in f.todo || event in f.refused || Accepted(queued, event)
  }

  /** Mid-flush, every pending event is still to offer, refused, or accepted. */
  ghost predicate FlushCovers(w: W.Watched, f: Flush, queued: map<O.Key, Event>) {
    && (forall event :: event in w.doc.pending ==> InFlush(f, queued, event))
    && (forall event :: event in f.todo || event in f.refused ==> IsLogged(w.log, event))
  }

  /** Every notification in the outbox, and every key taken, belongs to an event of the log. */
  ghost predicate KeysKnown(w: W.Watched, rows: O.Rows, queued: map<O.Key, Event>) {
    && (forall id :: id in rows ==> rows[id].key in queued)
    && (forall key :: key in queued ==> KeyOf(queued[key]) == key && IsLogged(w.log, queued[key]))
  }

  ghost predicate Sound(s: System) {
    && LogDistinct(s.watch) && PendingLogged(s.watch)
    && NothingLost(s.watch, s.queued)
    && (s.flush.Some? ==> FlushCovers(s.watch, s.flush.value, s.queued))
    && KeysKnown(s.watch, s.outbox.rows, s.queued)
  }

  ghost predicate PendingLogged(w: W.Watched) {
    forall event :: event in w.doc.pending ==> IsLogged(w.log, event)
  }

  /** The watcher's part is what a run of observations and acknowledgments leaves, whatever is pending. */
  ghost predicate LogDistinct(w: W.Watched) {
    W.Sound(w) && W.KeysDistinct(w.log)
  }

  // ---------- The watcher's steps ----------

  lemma WatchKeepsDistinct(w: W.Watched, input: W.Input)
    requires LogDistinct(w) && W.Enabled(w, input)
    ensures LogDistinct(W.Step(w, input))
  {
    assert [input][..0] == [];
    assert W.Run(w, []) == w;
    assert W.Run(w, [input]) == W.Step(w, input);
    W.RunKeepsSound(w, [input]);
    var after := W.Step(w, input);
    forall id ensures W.PhaseOf(after.log, id) != W.Wrong {
      assert W.PhaseOf(after.log, id) == W.Expected(after, id);
    }
    W.NeverWrongIsWellTold(after.log);
    W.KeysAreDistinct(after.log);
  }

  lemma WatchAdds(w: W.Watched, input: W.Input)
    requires W.Enabled(w, input)
    ensures w.log <= W.Step(w, input).log
    ensures forall event :: IsLogged(w.log, event) ==> IsLogged(W.Step(w, input).log, event)
    ensures forall event :: event in W.Step(w, input).doc.pending ==>
              event in w.doc.pending || IsLogged(W.Step(w, input).log, event)
    ensures forall event :: event in w.doc.pending ==> event in W.Step(w, input).doc.pending
    ensures forall event :: IsLogged(W.Step(w, input).log, event) ==>
              IsLogged(w.log, event) || event in W.Step(w, input).doc.pending
  {
    var after := W.Step(w, input);
    if input.Probe? {
      W.AddedIsDecision(w.doc, input);
      assert after.doc.pending == w.doc.pending + W.Added(w.doc, input);
      if W.Added(w.doc, input) != [] {
        assert after.log[|w.log|].event == after.doc.pending[|w.doc.pending|];
      }
    }
    forall event | IsLogged(w.log, event) ensures IsLogged(after.log, event) {
      var k :| 0 <= k < |w.log| && w.log[k].Made? && w.log[k].event == event;
      assert after.log[k] == w.log[k];
    }
  }

  lemma WatchKeepsSound(s: System, input: W.Input)
    requires Sound(s) && Enabled(s, Watch(input))
    ensures Sound(Step(s, Watch(input)))
  {
    WatchKeepsDistinct(s.watch, input);
    WatchAdds(s.watch, input);
  }

  lemma CommitKeepsSound(s: System)
    requires Sound(s) && Enabled(s, Commit)
    ensures Sound(Step(s, Commit))
  {
    var after := Step(s, Commit);
    forall event | IsLogged(after.watch.log, event) ensures KeptOrAccepted(after.watch.doc.pending, s.queued, event) {
      assert KeptOrAccepted(s.watch.doc.pending, s.queued, event);
      if event in s.watch.doc.pending {
        assert InFlush(s.flush.value, s.queued, event);
      }
    }
  }

  // ---------- The outbox's steps ----------

  /** No step invents a key. */
  lemma RowsComeFromBefore(w: OutboxRuns.World, a: OutboxRuns.Action)
    requires OutboxRuns.Enabled(w, a) && !a.Enqueue?
    ensures forall id :: id in OutboxRuns.Step(w, a).rows ==>
              id in w.rows && OutboxRuns.Step(w, a).rows[id].key == w.rows[id].key
  {
  }

  lemma DeliverKeepsSound(s: System, step: OutboxRuns.Action)
    requires Sound(s) && Enabled(s, Deliver(step))
    ensures Sound(s.(outbox := OutboxRuns.Step(s.outbox, step)))
  {
    RowsComeFromBefore(s.outbox, step);
  }

  lemma KeysTellApart(e: Event, f: Event)
    requires KeyOf(e) == KeyOf(f)
    ensures W.SameKey(e, f)
  {
    var common := |"external_"|;
    assert ("external_" + Name(e.kind))[common..] == Name(e.kind);
    assert ("external_" + Name(f.kind))[common..] == Name(f.kind);
  }

  lemma OneEntry(log: seq<W.Entry>, j: nat, k: nat)
    requires W.KeysDistinct(log) && j < |log| && k < |log|
    requires log[j].Made? && log[k].Made? && W.SameKey(log[j].event, log[k].event)
    ensures j == k
  {
  }

  /** A known key is this event's own: no other event has it. */
  lemma KnownKeyIsOwn(s: System, event: Event)
    requires Sound(s)
    requires IsLogged(s.watch.log, event) && KeyOf(event) in s.queued
    ensures Accepted(s.queued, event)
  {
    var other := s.queued[KeyOf(event)];
    KeysTellApart(other, event);
    var j :| 0 <= j < |s.watch.log| && s.watch.log[j].Made? && s.watch.log[j].event == event;
    var k :| 0 <= k < |s.watch.log| && s.watch.log[k].Made? && s.watch.log[k].event == other;
    OneEntry(s.watch.log, j, k);
  }

  /** "already queued" and "duplicate suppressed" mean a row of that key, hence that the key is known. */
  lemma DuplicateIsKnown(s: System, key: O.Key, since: real)
    requires Sound(s)
    requires O.HasPending(s.outbox.rows, key) || O.SentSince(s.outbox.rows, key, since)
    ensures key in s.queued
  {
    if O.HasPending(s.outbox.rows, key) {
      var id :| id in s.outbox.rows && s.outbox.rows[id].key == key && s.outbox.rows[id].status == O.Pending;
    } else {
      var id :| id in s.outbox.rows && s.outbox.rows[id].key == key && s.outbox.rows[id].status == O.Sent
        && s.outbox.rows[id].updated > since;
    }
  }

  /** Taking a key again for the same event loses no other acceptance. */
  lemma AcceptanceStays(s: System, event: Event, other: Event)
    requires Sound(s) && IsLogged(s.watch.log, event)
    requires Accepted(s.queued, other)
    ensures Accepted(s.queued[KeyOf(event) := event], other)
  {
    if KeyOf(other) == KeyOf(event) {
      KnownKeyIsOwn(s, event);
    }
  }

  lemma QueuedKeepsNothingLost(s: System, event: Event)
    requires Sound(s) && IsLogged(s.watch.log, event)
    ensures NothingLost(s.watch, s.queued[KeyOf(event) := event])
    ensures s.flush.Some? ==> FlushCovers(s.watch, s.flush.value, s.queued[KeyOf(event) := event])
  {
    forall other | Accepted(s.queued, other) ensures Accepted(s.queued[KeyOf(event) := event], other) {
      AcceptanceStays(s, event, other);
    }
    forall other | IsLogged(s.watch.log, other)
      ensures KeptOrAccepted(s.watch.doc.pending, s.queued[KeyOf(event) := event], other)
    {
      assert KeptOrAccepted(s.watch.doc.pending, s.queued, other);
    }
    if s.flush.Some? {
      forall other | other in s.watch.doc.pending
        ensures InFlush(s.flush.value, s.queued[KeyOf(event) := event], other)
      {
        assert InFlush(s.flush.value, s.queued, other);
      }
    }
  }

  /** The head of the list moves: to the refused ones, or to the accepted ones. */
  lemma HeadMoves(w: W.Watched, f: Flush, g: Flush, queued: map<O.Key, Event>)
    requires f.todo != [] && g.todo == f.todo[1..] && FlushCovers(w, f, queued)
    requires g.refused == f.refused + [f.todo[0]] || (g.refused == f.refused && Accepted(queued, f.todo[0]))
    ensures FlushCovers(w, g, queued)
  {
    assert f.todo == [f.todo[0]] + f.todo[1..];
    assert f.todo[0] in f.todo;
    forall e | e in w.doc.pending ensures InFlush(g, queued, e) {
      assert InFlush(f, queued, e);
    }
  }

  lemma HeadIsLogged(w: W.Watched, f: Flush, queued: map<O.Key, Event>)
    requires f.todo != [] && FlushCovers(w, f, queued)
    ensures IsLogged(w.log, f.todo[0])
  {
    assert f.todo[0] in f.todo;
  }

  /** An insertion brings no key but its own. */
  lemma InsertionKeepsKnown(w: W.Watched, rows: O.Rows, newest: seq<nat>, id: nat, row: O.Row,
                            queued: map<O.Key, Event>, event: Event)
    requires KeysKnown(w, rows, queued) && IsLogged(w.log, event) && KeyOf(event) == row.key
    ensures KeysKnown(w, O.Inserted(rows, newest, id, row), queued[row.key := event])
    ensures id !in O.Inserted(rows, newest, id, row) ==> KeysKnown(w, O.Inserted(rows, newest, id, row), queued)
  {
  }

  /** The outbox inserts a notification of the head, or is full. */
  lemma InsertionKeepsSound(s: System, a: Action)
    requires a.Offer? && Enabled(s, a) && a.url != ""
    requires var key := KeyOf(s.flush.value.todo[0]);
             !O.HasPending(s.outbox.rows, key) && !O.SentSince(s.outbox.rows, key, a.since)
    requires Sound(s)
    ensures Sound(OfferStep(s, a))
  {
    hide NothingLost, FlushCovers, KeysKnown, PendingLogged, LogDistinct, IsLogged, KeyOf;
    hide O.Inserted, O.HasPending, O.SentSince, OutboxRuns.Enabled;
    var f, event := s.flush.value, s.flush.value.todo[0];
    HeadIsLogged(s.watch, f, s.queued);
    var row := O.NewRow(KeyOf(event), a.url, a.stamp);
    InsertionKeepsKnown(s.watch, s.outbox.rows, a.newest, a.id, row, s.queued, event);
    if a.id in O.Inserted(s.outbox.rows, a.newest, a.id, row) {
      QueuedKeepsNothingLost(s, event);
      HeadMoves(s.watch, f, Flush(f.todo[1..], f.refused), s.queued[KeyOf(event) := event]);
    } else {
      HeadMoves(s.watch, f, Flush(f.todo[1..], f.refused + [event]), s.queued);
    }
  }

  /**
   * Exactly when an offered event stays with the monitor: no webhook is set, or its key is neither pending nor sent
   * lately and 500 notifications are pending. Otherwise its notification is in the outbox, or was.
   */
  lemma OfferRefusesExactly(s: System, a: Action)
    requires OutboxRuns.Sound(s.outbox) && a.Offer? && Enabled(s, a)
    ensures var f, event := s.flush.value, s.flush.value.todo[0];
            var known := O.HasPending(s.outbox.rows, KeyOf(event)) || O.SentSince(s.outbox.rows, KeyOf(event), a.since);
            var full := |set id | id in s.outbox.rows && s.outbox.rows[id].status == O.Pending| >= 500;
            && OfferStep(s, a).flush
               == Some(Flush(f.todo[1..], if a.url == "" || (!known && full) then f.refused + [event] else f.refused))
            && (a.url != "" && !known && !full ==>
                  a.id in OfferStep(s, a).outbox.rows && OfferStep(s, a).outbox.rows[a.id].key == KeyOf(event))
            && (a.url == "" || known ==> OfferStep(s, a).outbox == s.outbox)
  {
    hide OutboxRuns.Sound, O.HasPending, O.SentSince;
    OutboxRuns.EnqueueExactly(s.outbox, Insertion(s, a));
  }

  /** A flush offers every pending event, from the first on, and its commit leaves exactly those refused. */
  lemma FlushExactly(s: System)
    ensures Enabled(s, Begin) <==> s.flush.None?
    ensures Enabled(s, Begin) ==> Step(s, Begin).flush == Some(Flush(s.watch.doc.pending, []))
    ensures Enabled(s, Commit) ==>
              Step(s, Commit).watch.doc.pending == s.flush.value.refused && Step(s, Commit).flush.None?
              && Step(s, Commit).watch.log == s.watch.log
  {
  }

  lemma OfferKeepsSound(s: System, a: Action)
    requires Sound(s) && a.Offer? && Enabled(s, a)
    ensures Sound(OfferStep(s, a))
  {
    var f, event := s.flush.value, s.flush.value.todo[0];
    assert event in f.todo;
    var key := KeyOf(event);
    if a.url == "" {
      HeadMoves(s.watch, f, Flush(f.todo[1..], f.refused + [event]), s.queued);
    } else if O.HasPending(s.outbox.rows, key) || O.SentSince(s.outbox.rows, key, a.since) {
      DuplicateIsKnown(s, key, a.since);
      KnownKeyIsOwn(s, event);
      HeadMoves(s.watch, f, Flush(f.todo[1..], f.refused), s.queued);
    } else {
      InsertionKeepsSound(s, a);
    }
  }

  lemma StepKeepsSound(s: System, a: Action)
    requires Sound(s) && Enabled(s, a)
    ensures Sound(Step(s, a))
  {
    match a
    case Watch(input) => WatchKeepsSound(s, input);
    case Offer(_, _, _, _, _) => OfferKeepsSound(s, a);
    case Commit => CommitKeepsSound(s);
    case Deliver(step) => DeliverKeepsSound(s, step);
    case Begin =>
    case Crash =>
  }

  /**
   * For any run, with a crash anywhere between an enqueue and the watcher's commit: every event ever made is still
   * pending in the monitor, or the outbox has taken a notification of exactly that event.
   */
  lemma {:induction false} NoEventIsLost(clock: real, actions: seq<Action>)
    ensures Sound(Run(Start(clock), actions))
    ensures NothingLost(Run(Start(clock), actions).watch, Run(Start(clock), actions).queued)
  {
    if actions != [] {
      var before := Run(Start(clock), actions[..|actions| - 1]);
      NoEventIsLost(clock, actions[..|actions| - 1]);
      if Enabled(before, actions[|actions| - 1]) {
        StepKeepsSound(before, actions[|actions| - 1]);
      }
    }
  }
}
