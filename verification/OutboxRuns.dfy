/**
 * Every run of the outbox: any number of dispatchers, crashing anywhere, over one table.
 *
 * One assumption, stated in `Enabled`: a live delivery writes its outcome before its 60 second lease ends, or dies.
 * The last section says what holds without it, and under which condition on each write-back.
 */
module OutboxRuns {
  import opened Outbox
  import opened Sets

  /** A delivery between its two transactions. */
  datatype Flight = Flight(id: Id, stamp: real, attempts: nat)

  /** `claims` is the whole history: under every identity ever drawn, the stamps of its claims. */
  datatype World = World(rows: Rows, flights: map<nat, Flight>, claims: map<Id, seq<real>>, clock: real,
                         forced: set<Key>)

  datatype Action =
    | Enqueue(id: Id, key: Key, url: string, stamp: real, newest: seq<Id>, force: bool, since: real)
    | Claim(flight: nat, id: Id, stamp: real, survives: bool)   // or the process dies with its claim
    | WriteBack(flight: nat, success: bool, terminal: bool, updated: real, read: real)
    | Die(flights: set<nat>)
    | Sweep(updated: real, stamp: real)
    | Tick(clock: real)

  /** What can happen at all; the clock never goes back. */
  ghost predicate Possible(w: World, a: Action) {
    match a
    case Enqueue(id, _, _, stamp, newest, _, _) =>
      id !in w.claims && stamp <= w.clock && FirstBy(newest, ByAge(w.rows), KEPT_LIMIT)
    case Claim(flight, id, stamp, _) => flight !in w.flights && stamp <= w.clock
    case WriteBack(flight, success, terminal, updated, read) =>
      && flight in w.flights && !(success && terminal)
      && w.flights[flight].stamp <= updated <= read <= w.clock
    case Die(_) => true
    case Sweep(updated, stamp) => updated <= stamp <= w.clock
    case Tick(clock) => w.clock <= clock
  }

  /** No delivery outlives its lease. */
  ghost predicate Enabled(w: World, a: Action) {
    && Possible(w, a)
    && (a.Tick? ==> forall f :: f in w.flights ==> a.clock < w.flights[f].stamp + LEASE_SECONDS)
    && (a.Claim? && a.survives ==> w.clock < a.stamp + LEASE_SECONDS)
  }

  ghost function Enqueued(w: World, a: Action): World
    requires a.Enqueue?
  {
    if !a.force && (HasPending(w.rows, a.key) || SentSince(w.rows, a.key, a.since)) then w
    else w.(rows := Inserted(w.rows, a.newest, a.id, NewRow(a.key, a.url, a.stamp)),
            claims := w.claims[a.id := []],
            forced := if a.force then w.forced + {a.key} else w.forced)
  }

  function ClaimStep(w: World, flight: nat, id: Id, stamp: real, survives: bool): World {
    if !Claimable(w.rows, id, stamp) then w
    else w.(rows := Claimed(w.rows, id, stamp),
            claims := w.claims[id := (if id in w.claims then w.claims[id] else []) + [stamp]],
            flights := if survives then w.flights[flight := Flight(id, stamp, w.rows[id].attempts + 1)] else w.flights)
  }

  function WriteStep(w: World, f: Flight, flight: nat, success: bool, terminal: bool, updated: real, read: real)
    : World
  {
    w.(rows := WrittenBack(w.rows, f.id, f.attempts, success, terminal, updated, read), flights := w.flights - {flight})
  }

  ghost function Step(w: World, a: Action): World
    requires Possible(w, a)
  {
    match a
    case Enqueue(_, _, _, _, _, _, _) => Enqueued(w, a)
    case Claim(flight, id, stamp, survives) => ClaimStep(w, flight, id, stamp, survives)
    case WriteBack(flight, success, terminal, updated, read) =>
      WriteStep(w, w.flights[flight], flight, success, terminal, updated, read)
    case Die(flights) => w.(flights := w.flights - flights)
    case Sweep(updated, stamp) => w.(rows := Swept(w.rows, updated, stamp))
    case Tick(clock) => w.(clock := clock)
  }

  ghost function Run(w: World, actions: seq<Action>): World {
    if actions == [] then w
    else
      var before := Run(w, actions[..|actions| - 1]);
      var a := actions[|actions| - 1];
      if Enabled(before, a) then Step(before, a) else before
  }

  function Start(clock: real): World {
    World(map[], map[], map[], clock, {})
  }

  // ---------- What always holds ----------

  /** The least time between claims k and k + 1. */
  function Gap(k: nat): real {
    if Doubling(k) < LEASE_SECONDS then Doubling(k) else LEASE_SECONDS
  }

  ghost predicate Spaced(stamps: seq<real>) {
    && |stamps| <= TRIES
    && forall k :: 1 <= k < |stamps| ==> stamps[k] - stamps[k - 1] >= Gap(k)
  }

  /** A pending row waits for the lease of its last claim, or for the back-off written after it. */
  ghost predicate Waits(row: Row, last: real, claims: nat) {
    row.lease == last + LEASE_SECONDS || row.due >= last + Backoff(claims)
  }

  ghost predicate RowAgrees(row: Row, stamps: seq<real>, clock: real) {
    && row.attempts == |stamps|
    && (stamps != [] ==> stamps[|stamps| - 1] <= clock)
    && (stamps != [] && row.status == Pending ==> Waits(row, stamps[|stamps| - 1], |stamps|))
  }

  ghost predicate History(rows: Rows, claims: map<Id, seq<real>>, clock: real) {
    && (forall id :: id in claims ==> Spaced(claims[id]))
    && (forall id :: id in rows ==> id in claims && RowAgrees(rows[id], claims[id], clock))
  }

  /** A delivery in flight holds the unexpired lease of a pending row, from that row's last claim. */
  ghost predicate Holds(rows: Rows, claims: map<Id, seq<real>>, clock: real, f: Flight) {
    && clock < f.stamp + LEASE_SECONDS
    && f.id in rows && rows[f.id].status == Pending
    && rows[f.id].lease == f.stamp + LEASE_SECONDS && rows[f.id].attempts == f.attempts
    && f.id in claims && claims[f.id] != [] && claims[f.id][|claims[f.id]| - 1] == f.stamp
  }

  ghost predicate FlightsHold(rows: Rows, claims: map<Id, seq<real>>, clock: real, flights: map<nat, Flight>) {
    forall f :: f in flights ==> Holds(rows, claims, clock, flights[f])
  }

  ghost predicate OneFlightEach(flights: map<nat, Flight>) {
    forall f, g :: f in flights && g in flights && f != g ==> flights[f].id != flights[g].id
  }

  ghost predicate Bounded(rows: Rows) {
    |PendingIds(rows)| <= PENDING_LIMIT && |rows| <= PENDING_LIMIT + KEPT_LIMIT
  }

  ghost predicate OnePerKey(rows: Rows, forced: set<Key>) {
    forall i, j :: i in rows && j in rows && rows[i].status == Pending && rows[j].status == Pending ==>
      rows[i].key == rows[j].key ==> i == j || rows[i].key in forced
  }

  ghost predicate Sound(w: World) {
    && History(w.rows, w.claims, w.clock)
    && FlightsHold(w.rows, w.claims, w.clock, w.flights) && OneFlightEach(w.flights)
    && Bounded(w.rows) && OnePerKey(w.rows, w.forced)
  }

  // ---------- Sizes ----------

  ghost function Elements(ids: seq<Id>): set<Id> {
    set id | id in ids
  }

  lemma {:induction false} FewElements(ids: seq<Id>)
    ensures |Elements(ids)| <= |ids|
  {
    if ids != [] {
      var last, front := ids[|ids| - 1], ids[..|ids| - 1];
      FewElements(front);
      assert ids == front + [last];
      assert Elements(ids) == Elements(front) + {last};
    }
  }

  /** After the prune, what is not pending is among the newest 500. */
  lemma PruneBounds(rows: Rows, newest: seq<Id>)
    requires |newest| <= KEPT_LIMIT
    ensures PendingIds(Pruned(rows, newest)) == PendingIds(rows)
    ensures |Pruned(rows, newest)| <= |PendingIds(rows)| + KEPT_LIMIT
    ensures |Pruned(rows, newest)| <= |rows|
  {
    var kept := Pruned(rows, newest);
    FewElements(newest);
    SmallerSet(kept.Keys, PendingIds(rows) + Elements(newest));
    SmallerSet(kept.Keys, rows.Keys);
    assert |kept| == |kept.Keys| && |rows| == |rows.Keys|;
  }

  lemma InsertBounds(rows: Rows, newest: seq<Id>, id: Id, row: Row)
    requires Bounded(rows) && FirstBy(newest, ByAge(rows), KEPT_LIMIT)
    requires id !in rows && row.status == Pending
    ensures Bounded(Inserted(rows, newest, id, row))
  {
    PruneBounds(rows, newest);
    var kept := Pruned(rows, newest);
    if |PendingIds(kept)| < PENDING_LIMIT {
      OneMoreRow(kept, id, row);
    }
  }

  lemma OneMoreRow(rows: Rows, id: Id, row: Row)
    requires id !in rows && row.status == Pending
    ensures |PendingIds(rows[id := row])| == |PendingIds(rows)| + 1 && |rows[id := row]| == |rows| + 1
  {
    assert PendingIds(rows[id := row]) == PendingIds(rows) + {id};
    assert rows[id := row].Keys == rows.Keys + {id};
    assert |rows[id := row]| == |rows[id := row].Keys| && |rows| == |rows.Keys|;
  }

  /** An update that creates no row and revives none. */
  lemma UpdateBounds(before: Rows, after: Rows)
    requires Bounded(before) && after.Keys == before.Keys
    requires PendingIds(after) <= PendingIds(before)
    ensures Bounded(after)
  {
    SmallerSet(PendingIds(after), PendingIds(before));
    assert |after| == |after.Keys| && |before| == |before.Keys|;
  }

  // ---------- One row changes ----------

  lemma RowKeepsHistory(rows: Rows, claims: map<Id, seq<real>>, clock: real, id: Id, row: Row, stamps: seq<real>)
    requires History(rows, claims, clock)
    requires Spaced(stamps) && RowAgrees(row, stamps, clock)
    ensures History(rows[id := row], claims[id := stamps], clock)
  {
  }

  lemma RowKeepsFlights(rows: Rows, claims: map<Id, seq<real>>, clock: real, flights: map<nat, Flight>, id: Id,
                        row: Row, stamps: seq<real>)
    requires FlightsHold(rows, claims, clock, flights)
    requires forall f :: f in flights ==> flights[f].id != id
    ensures FlightsHold(rows[id := row], claims[id := stamps], clock, flights)
  {
    forall f | f in flights ensures Holds(rows[id := row], claims[id := stamps], clock, flights[f]) {
      assert Holds(rows, claims, clock, flights[f]);
    }
  }

  /** An update that keeps the row's key and revives nothing. */
  lemma RowKeepsBounds(rows: Rows, forced: set<Key>, id: Id, row: Row)
    requires Bounded(rows) && OnePerKey(rows, forced)
    requires id in rows && row.key == rows[id].key && (row.status == Pending ==> rows[id].status == Pending)
    ensures Bounded(rows[id := row]) && OnePerKey(rows[id := row], forced)
  {
    assert rows[id := row].Keys == rows.Keys;
    UpdateBounds(rows, rows[id := row]);
  }

  // ---------- Every step keeps it ----------

  lemma PruneKeepsHistory(rows: Rows, newest: seq<Id>, claims: map<Id, seq<real>>, clock: real,
                          flights: map<nat, Flight>)
    requires History(rows, claims, clock) && FlightsHold(rows, claims, clock, flights)
    ensures History(Pruned(rows, newest), claims, clock) && FlightsHold(Pruned(rows, newest), claims, clock, flights)
  {
    forall f | f in flights ensures Holds(Pruned(rows, newest), claims, clock, flights[f]) {
      assert Holds(rows, claims, clock, flights[f]);
    }
  }

  lemma InsertKeepsOnePerKey(rows: Rows, newest: seq<Id>, id: Id, row: Row, force: bool, forced: set<Key>)
    requires OnePerKey(rows, forced) && id !in rows
    requires force || !HasPending(rows, row.key)
    ensures OnePerKey(Inserted(rows, newest, id, row), if force then forced + {row.key} else forced)
  {
  }

  /** Ids are fresh: no row and no delivery has this one. */
  lemma FreshId(w: World, id: Id)
    requires Sound(w) && id !in w.claims
    ensures id !in w.rows && forall f :: f in w.flights ==> w.flights[f].id != id
  {
    forall f | f in w.flights ensures w.flights[f].id != id {
      assert Holds(w.rows, w.claims, w.clock, w.flights[f]);
    }
  }

  /** An id that gets no row: the outbox is full. */
  lemma NewIdKeepsHistory(rows: Rows, claims: map<Id, seq<real>>, clock: real, flights: map<nat, Flight>, id: Id)
    requires History(rows, claims, clock) && FlightsHold(rows, claims, clock, flights)
    requires id !in claims && forall f :: f in flights ==> flights[f].id != id
    ensures History(rows, claims[id := []], clock) && FlightsHold(rows, claims[id := []], clock, flights)
  {
    forall f | f in flights ensures Holds(rows, claims[id := []], clock, flights[f]) {
      assert Holds(rows, claims, clock, flights[f]);
    }
  }

  lemma EnqueueKeepsSound(w: World, a: Action)
    requires Sound(w) && a.Enqueue? && Enabled(w, a)
    ensures Sound(Enqueued(w, a))
  {
    hide History, FlightsHold, HasPending, SentSince, OnePerKey, Bounded;
    if a.force || !(HasPending(w.rows, a.key) || SentSince(w.rows, a.key, a.since)) {
      var row := NewRow(a.key, a.url, a.stamp);
      var kept := Pruned(w.rows, a.newest);
      FreshId(w, a.id);
      InsertBounds(w.rows, a.newest, a.id, row);
      InsertKeepsOnePerKey(w.rows, a.newest, a.id, row, a.force, w.forced);
      PruneKeepsHistory(w.rows, a.newest, w.claims, w.clock, w.flights);
      NewIdKeepsHistory(kept, w.claims, w.clock, w.flights, a.id);
      RowKeepsHistory(kept, w.claims, w.clock, a.id, row, []);
      RowKeepsFlights(kept, w.claims, w.clock, w.flights, a.id, row, []);
    }
  }

  /** A claim comes at least the gap after the last: its lease is over, or its back-off. */
  lemma ClaimIsSpaced(row: Row, stamps: seq<real>, clock: real, stamp: real)
    requires Spaced(stamps) && RowAgrees(row, stamps, clock)
    requires row.status == Pending && row.attempts < TRIES && row.due <= stamp && row.lease <= stamp
    ensures Spaced(stamps + [stamp])
  {
    var now := stamps + [stamp];
    forall k | 1 <= k < |now| ensures now[k] - now[k - 1] >= Gap(k) {
      if k < |stamps| {
        assert now[k] == stamps[k] && now[k - 1] == stamps[k - 1];
      }
    }
  }

  /** A row that can be claimed is in nobody's hands: the lease of a delivery in flight has not run out. */
  lemma ClaimableIsFree(w: World, id: Id, stamp: real)
    requires Sound(w) && Claimable(w.rows, id, stamp) && stamp <= w.clock
    ensures forall f :: f in w.flights ==> w.flights[f].id != id
  {
    forall f | f in w.flights ensures w.flights[f].id != id {
      assert Holds(w.rows, w.claims, w.clock, w.flights[f]);
    }
  }

  lemma NewFlightHolds(rows: Rows, claims: map<Id, seq<real>>, clock: real, flights: map<nat, Flight>, n: nat,
                       f: Flight)
    requires FlightsHold(rows, claims, clock, flights) && OneFlightEach(flights)
    requires Holds(rows, claims, clock, f) && forall g :: g in flights ==> flights[g].id != f.id
    ensures FlightsHold(rows, claims, clock, flights[n := f]) && OneFlightEach(flights[n := f])
  {
  }

  lemma ClaimKeepsSound(w: World, flight: nat, id: Id, stamp: real, survives: bool)
    requires Sound(w) && Enabled(w, Claim(flight, id, stamp, survives))
    ensures Sound(ClaimStep(w, flight, id, stamp, survives))
  {
    if Claimable(w.rows, id, stamp) {
      var row := Claimed(w.rows, id, stamp)[id];
      var stamps := w.claims[id] + [stamp];
      ClaimIsSpaced(w.rows[id], w.claims[id], w.clock, stamp);
      ClaimableIsFree(w, id, stamp);
      RowKeepsHistory(w.rows, w.claims, w.clock, id, row, stamps);
      RowKeepsFlights(w.rows, w.claims, w.clock, w.flights, id, row, stamps);
      RowKeepsBounds(w.rows, w.forced, id, row);
      if survives {
        NewFlightHolds(w.rows[id := row], w.claims[id := stamps], w.clock, w.flights, flight,
                       Flight(id, stamp, row.attempts));
      }
    }
  }

  lemma OthersHold(w: World, flight: nat)
    requires Sound(w) && flight in w.flights
    ensures Holds(w.rows, w.claims, w.clock, w.flights[flight])
    ensures FlightsHold(w.rows, w.claims, w.clock, w.flights - {flight}) && OneFlightEach(w.flights - {flight})
    ensures forall f :: f in w.flights - {flight} ==> w.flights[f].id != w.flights[flight].id
  {
  }

  lemma WriteKeepsSound(w: World, flight: nat, success: bool, terminal: bool, updated: real, read: real)
    requires Sound(w) && Enabled(w, WriteBack(flight, success, terminal, updated, read))
    ensures Sound(WriteStep(w, w.flights[flight], flight, success, terminal, updated, read))
  {
    var f := w.flights[flight];
    OthersHold(w, flight);
    var stamps := w.claims[f.id];
    var row := WrittenBack(w.rows, f.id, f.attempts, success, terminal, updated, read)[f.id];
    assert RowAgrees(w.rows[f.id], stamps, w.clock);
    assert RowAgrees(row, stamps, w.clock);
    assert w.claims[f.id := stamps] == w.claims;
    RowKeepsHistory(w.rows, w.claims, w.clock, f.id, row, stamps);
    RowKeepsFlights(w.rows, w.claims, w.clock, w.flights - {flight}, f.id, row, stamps);
    RowKeepsBounds(w.rows, w.forced, f.id, row);
  }

  lemma SweepKeepsHistory(rows: Rows, claims: map<Id, seq<real>>, clock: real, flights: map<nat, Flight>,
                          updated: real, now: real)
    requires History(rows, claims, clock) && FlightsHold(rows, claims, clock, flights) && now <= clock
    ensures History(Swept(rows, updated, now), claims, clock)
    ensures FlightsHold(Swept(rows, updated, now), claims, clock, flights)
  {
    forall f | f in flights ensures Holds(Swept(rows, updated, now), claims, clock, flights[f]) {
      assert Holds(rows, claims, clock, flights[f]);
    }
    forall id | id in rows ensures id in claims && RowAgrees(Swept(rows, updated, now)[id], claims[id], clock) {
      assert RowAgrees(rows[id], claims[id], clock);
    }
  }

  lemma SweepKeepsSound(w: World, updated: real, stamp: real)
    requires Sound(w) && Enabled(w, Sweep(updated, stamp))
    ensures Sound(w.(rows := Swept(w.rows, updated, stamp)))
  {
    SweepKeepsHistory(w.rows, w.claims, w.clock, w.flights, updated, stamp);
    UpdateBounds(w.rows, Swept(w.rows, updated, stamp));
  }

  lemma StepKeepsSound(w: World, a: Action)
    requires Sound(w) && Enabled(w, a)
    ensures Sound(Step(w, a))
  {
    match a
    case Enqueue(_, _, _, _, _, _, _) => EnqueueKeepsSound(w, a);
    case Claim(flight, id, stamp, survives) => ClaimKeepsSound(w, flight, id, stamp, survives);
    case WriteBack(flight, success, terminal, updated, read) =>
      WriteKeepsSound(w, flight, success, terminal, updated, read);
    case Sweep(updated, stamp) => SweepKeepsSound(w, updated, stamp);
    case Die(flights) =>
    case Tick(clock) =>
  }

  lemma {:induction false} RunKeepsSound(w: World, actions: seq<Action>)
    requires Sound(w)
    ensures Sound(Run(w, actions))
  {
    if actions != [] {
      RunKeepsSound(w, actions[..|actions| - 1]);
      var before, a := Run(w, actions[..|actions| - 1]), actions[|actions| - 1];
      if Enabled(before, a) {
        StepKeepsSound(before, a);
      }
    }
  }

  /** In every reachable state: the table bounded, at most five spaced claims each, one delivery each in flight. */
  lemma EveryRunIsSound(clock: real, actions: seq<Action>)
    ensures var w := Run(Start(clock), actions); Sound(w)
  {
    assert PendingIds(map[]) == {};
    RunKeepsSound(Start(clock), actions);
  }

  // ---------- Final states ----------

  /** Over, or forgotten after being over. */
  ghost predicate Over(w: World, id: Id, row: Row) {
    && id in w.claims
    && (id in w.rows ==> w.rows[id] == row && row.status != Pending)
  }

  lemma StepKeepsOver(w: World, a: Action, id: Id, row: Row)
    requires Sound(w) && Enabled(w, a) && Over(w, id, row)
    ensures Over(Step(w, a), id, row)
    ensures Step(w, a).claims[id] == w.claims[id]
  {
    match a
    case WriteBack(flight, _, _, _, _) =>
      assert Holds(w.rows, w.claims, w.clock, w.flights[flight]);
    case _ =>
  }

  /** `sent` and `exhausted` are never left, and such a notification is never claimed again. */
  lemma {:induction false} FinalStaysFinal(w: World, actions: seq<Action>, id: Id)
    requires Sound(w) && id in w.rows && w.rows[id].status != Pending
    ensures Over(Run(w, actions), id, w.rows[id])
    ensures Run(w, actions).claims[id] == w.claims[id]
  {
    if actions != [] {
      var front, a := actions[..|actions| - 1], actions[|actions| - 1];
      FinalStaysFinal(w, front, id);
      RunKeepsSound(w, front);
      if Enabled(Run(w, front), a) {
        StepKeepsOver(Run(w, front), a, id, w.rows[id]);
      }
    }
  }

  lemma StepDropsNothingPending(w: World, a: Action, id: Id)
    requires Sound(w) && Enabled(w, a)
    requires id in w.rows && w.rows[id].status == Pending
    ensures id in Step(w, a).rows && Step(w, a).rows[id].key == w.rows[id].key
  {
  }

  /** At some point of the run the notification was sent, or its tries were used up. */
  ghost predicate Ended(w: World, actions: seq<Action>, id: Id) {
    exists n :: 0 <= n <= |actions|
                && id in Run(w, actions[..n]).rows && Run(w, actions[..n]).rows[id].status != Pending
  }

  /** Nothing pending is ever dropped: until it ends it stays, under its key. */
  lemma {:induction false} PendingIsNeverDropped(w: World, actions: seq<Action>, id: Id)
    requires Sound(w) && id in w.rows && w.rows[id].status == Pending
    ensures || Ended(w, actions, id)
            || (id in Run(w, actions).rows && Run(w, actions).rows[id].status == Pending
                && Run(w, actions).rows[id].key == w.rows[id].key)
  {
    if actions != [] {
      var front, a := actions[..|actions| - 1], actions[|actions| - 1];
      PendingIsNeverDropped(w, front, id);
      RunKeepsSound(w, front);
      if Ended(w, front, id) {
        var n :| 0 <= n <= |front| && id in Run(w, front[..n]).rows && Run(w, front[..n]).rows[id].status != Pending;
        assert front[..n] == actions[..n];
      } else {
        if Enabled(Run(w, front), a) {
          StepDropsNothingPending(Run(w, front), a, id);
        }
        assert actions[..|actions|] == actions;
      }
    }
  }

  // ---------- What single steps do ----------

  /** Exactly when an enqueue makes a row: forced, or no such key pending or sent since; and fewer than 500 pending. */
  lemma EnqueueExactly(w: World, a: Action)
    requires Sound(w) && Possible(w, a) && a.Enqueue?
    ensures var duplicate := HasPending(w.rows, a.key) || SentSince(w.rows, a.key, a.since);
            var v := Enqueued(w, a);
            && (a.id in v.rows <==>
                  (a.force || !duplicate) && |set id | id in w.rows && w.rows[id].status == Pending| < 500)
            && (!a.force && duplicate ==> v == w)
            && (a.id in v.rows ==> v.rows[a.id] == Row(a.key, a.url, 0, a.stamp, 0.0, Pending, a.stamp))
  {
    assert a.id !in w.rows;
    InsertedExactly(w.rows, a.newest, a.id, a.key, a.url, a.stamp);
    hide Inserted, Sound, HasPending, SentSince;
  }

  /**
   * Exactly how a pending notification ends: sent by a post that succeeds; exhausted by one that fails for good, or for
   * the fifth time, or by a sweep after five claims and the last lease.
   */
  lemma EndsExactly(w: World, a: Action, id: Id)
    requires Sound(w) && Enabled(w, a) && id in w.rows && w.rows[id].status == Pending
    ensures id in Step(w, a).rows
    ensures var tries := |w.claims[id]|;
            var own := a.WriteBack? && w.flights[a.flight].id == id;
            && (Step(w, a).rows[id].status == Sent <==> own && a.success)
            && (Step(w, a).rows[id].status == Exhausted <==>
                  || (own && !a.success && (a.terminal || tries == 5))
                  || (a.Sweep? && tries == 5 && w.rows[id].lease <= a.stamp))
  {
    match a
    case WriteBack(flight, _, _, _, _) =>
      assert Holds(w.rows, w.claims, w.clock, w.flights[flight]);
    case _ =>
  }

  /** When the next claim may come, if nobody holds the row. */
  function Ready(w: World, id: Id): real
    requires id in w.rows
  {
    var row := w.rows[id];
    if row.due >= row.lease && row.due >= w.clock then row.due
    else if row.lease >= w.clock then row.lease else w.clock
  }

  /** Every delivery dies and the time comes when the row can be claimed, or swept. */
  function Idle(w: World, id: Id): World
    requires id in w.rows
  {
    w.(flights := map[], clock := Ready(w, id))
  }

  lemma IdleIsReached(w: World, id: Id)
    requires Sound(w) && id in w.rows
    ensures Run(w, [Die(w.flights.Keys), Tick(Ready(w, id))]) == Idle(w, id)
  {
    var die, tick := Die(w.flights.Keys), Tick(Ready(w, id));
    assert w.flights - w.flights.Keys == map[];
    assert [die, tick][..1] == [die] && [die][..0] == [];
    assert Run(w, [die]) == w.(flights := map[]);
  }

  /** No notification is stuck: whatever died, one that has tries left can still be sent, and else a sweep ends it. */
  lemma PendingCanEnd(w: World, id: Id) returns (actions: seq<Action>)
    requires Sound(w) && id in w.rows && w.rows[id].status == Pending
    ensures id in Run(w, actions).rows
    ensures Run(w, actions).rows[id].status == if |w.claims[id]| < 5 then Sent else Exhausted
  {
    var v := Idle(w, id);
    var idle := [Die(w.flights.Keys), Tick(v.clock)];
    IdleIsReached(w, id);
    if |w.claims[id]| < 5 {
      var claim, send := Claim(0, id, v.clock, true), WriteBack(0, true, false, v.clock, v.clock);
      actions := idle + [claim] + [send];
      assert actions[..3] == idle + [claim] && (idle + [claim])[..2] == idle;
      assert Run(w, idle + [claim]) == Step(v, claim);
    } else {
      actions := idle + [Sweep(v.clock, v.clock)];
      assert actions[..2] == idle;
    }
  }

  // ---------- Without the lease assumption ----------

  /** A run in which deliveries may outlive their leases. */
  ghost function FreeRun(w: World, actions: seq<Action>): World {
    if actions == [] then w
    else
      var before := FreeRun(w, actions[..|actions| - 1]);
      var a := actions[|actions| - 1];
      if Possible(before, a) then Step(before, a) else before
  }

  lemma FreeRunOne(w: World, actions: seq<Action>, a: Action)
    ensures var before := FreeRun(w, actions);
            FreeRun(w, actions + [a]) == if Possible(before, a) then Step(before, a) else before
  {
    assert (actions + [a])[..|actions|] == actions;
  }

  /** One delivery outlives its lease, a second one sends, and the first then writes its failure. */
  function Late(): seq<Action> {
    [Enqueue(0, Plain("bell", "late"), "url", 0.0, [], false, 0.0), Claim(1, 0, 0.0, true), Tick(60.0),
     Claim(2, 0, 60.0, true), WriteBack(2, true, false, 60.0, 60.0), WriteBack(1, false, false, 60.0, 60.0)]
  }

  function LateRow(attempts: nat, due: real, lease: real, status: Status, updated: real): Row {
    Row(Plain("bell", "late"), "url", attempts, due, lease, status, updated)
  }

  lemma LateQueued()
    ensures Possible(Start(0.0), Late()[0])
    ensures Step(Start(0.0), Late()[0])
         == World(map[0 := LateRow(0, 0.0, 0.0, Pending, 0.0)], map[], map[0 := []], 0.0, {})
  {
    assert ByAge(map[]) == map[];
    assert FirstBy([], ByAge(map[]), KEPT_LIMIT);
    assert Pruned(map[], []) == map[] && PendingIds(map[]) == {};
  }

  /** The first delivery under way. */
  function OneInFlight(clock: real): World {
    World(map[0 := LateRow(1, 0.0, 60.0, Pending, 0.0)], map[1 := Flight(0, 0.0, 1)], map[0 := [0.0]], clock, {})
  }

  lemma FirstClaims()
    ensures var w := World(map[0 := LateRow(0, 0.0, 0.0, Pending, 0.0)], map[], map[0 := []], 0.0, {});
            Possible(w, Late()[1]) && Step(w, Late()[1]) == OneInFlight(0.0)
  {
    assert Late()[1] == Claim(1, 0, 0.0, true);
    assert [] + [0.0] == [0.0];
  }

  lemma LateBegins()
    ensures FreeRun(Start(0.0), Late()[..2]) == OneInFlight(0.0)
  {
    var w, a := Start(0.0), Late();
    LateQueued();
    assert a[..1] == [] + [a[0]] && a[..2] == a[..1] + [a[1]];
    FreeRunOne(w, [], a[0]);
    FirstClaims();
    FreeRunOne(w, a[..1], a[1]);
  }

  /** Both deliveries under way at 60 seconds. */
  function TwoInFlight(): World {
    World(map[0 := LateRow(2, 0.0, 120.0, Pending, 0.0)], map[1 := Flight(0, 0.0, 1), 2 := Flight(0, 60.0, 2)],
          map[0 := [0.0, 60.0]], 60.0, {})
  }

  /** At 60 seconds the lease of the first delivery is over, so a second one may claim. */
  lemma SecondClaims()
    ensures Possible(OneInFlight(60.0), Late()[3])
    ensures Step(OneInFlight(60.0), Late()[3]) == TwoInFlight()
  {
    var w := OneInFlight(60.0);
    assert Late()[3] == Claim(2, 0, 60.0, true);
    assert w.claims[0] + [60.0] == [0.0, 60.0];
    assert ClaimStep(w, 2, 0, 60.0, true).rows == TwoInFlight().rows;
  }

  lemma LateDoubles()
    ensures FreeRun(Start(0.0), Late()[..4]) == TwoInFlight()
  {
    var w, a := Start(0.0), Late();
    LateBegins();
    assert a[..3] == a[..2] + [a[2]] && a[..4] == a[..3] + [a[3]];
    FreeRunOne(w, a[..2], a[2]);
    assert FreeRun(w, a[..3]) == OneInFlight(60.0);
    SecondClaims();
    FreeRunOne(w, a[..3], a[3]);
  }

  /** A run of the code, from the empty table, that reopens a sent notification and forgets a try. */
  lemma LateWriteBreaksTheBudget()
    ensures var sent, after := FreeRun(Start(0.0), Late()[..5]), FreeRun(Start(0.0), Late());
            && 0 in sent.rows && sent.rows[0].status == Sent && sent.rows[0].attempts == 2
            && 0 in after.rows && after.rows[0].status == Pending && after.rows[0].attempts == 1
            && 0 in after.claims && |after.claims[0]| == 2
  {
    var w, a := Start(0.0), Late();
    LateDoubles();
    assert a[..5] == a[..4] + [a[4]] && a == a[..5] + [a[5]];
    FreeRunOne(w, a[..4], a[4]);
    FreeRunOne(w, a[..5], a[5]);
  }

  /** The row is still pending, from this delivery's own claim: what the update does not ask. */
  predicate StillItsOwn(rows: Rows, f: Flight) {
    f.id in rows ==> rows[f.id].status == Pending && rows[f.id].attempts == f.attempts
  }

  /** A final state stays, and no try is forgotten. */
  predicate Honours(before: Row, after: Row) {
    (before.status != Pending ==> after.status == before.status) && after.attempts == before.attempts
  }

  /** Whatever its outcome and its times, a write-back honours the row if and only if the row is still its own. */
  lemma WriteBackHonoursExactlyWhen(rows: Rows, f: Flight)
    requires f.id in rows
    ensures (forall success, terminal, updated, read :: !(success && terminal) ==>
               Honours(rows[f.id], WrittenBack(rows, f.id, f.attempts, success, terminal, updated, read)[f.id]))
            <==> StillItsOwn(rows, f)
  {
    var row := rows[f.id];
    var exhausted := row.status == Exhausted;
    var spoiled := WrittenBack(rows, f.id, f.attempts, exhausted, !exhausted, 0.0, 0.0)[f.id];
    assert spoiled.status != row.status && spoiled.attempts == f.attempts;
  }

  /** With the lease assumption every write-back finds its row still its own. */
  lemma LeaseKeepsItsOwn(w: World, flight: nat)
    requires Sound(w) && flight in w.flights
    ensures StillItsOwn(w.rows, w.flights[flight])
  {
    assert Holds(w.rows, w.claims, w.clock, w.flights[flight]);
  }

  /** Every write-back of the run found its row still its own, or gone. */
  ghost predicate AllItsOwn(w: World, actions: seq<Action>) {
    actions != [] ==>
      var front, a := actions[..|actions| - 1], actions[|actions| - 1];
      && AllItsOwn(w, front)
      && (a.WriteBack? && Possible(FreeRun(w, front), a) ==>
            StillItsOwn(FreeRun(w, front).rows, FreeRun(w, front).flights[a.flight]))
  }

  /** A delivery knows the stamp of the claim it counts. */
  ghost predicate Recorded(claims: map<Id, seq<real>>, f: Flight) {
    f.id in claims && 1 <= f.attempts <= |claims[f.id]| && claims[f.id][f.attempts - 1] == f.stamp
  }

  ghost predicate FlightsRecorded(w: World) {
    forall n :: n in w.flights ==> Recorded(w.claims, w.flights[n])
  }

  /** What does not need the lease: budget, spacing, bounds and keys. */
  ghost predicate Counted(w: World) {
    History(w.rows, w.claims, w.clock) && FlightsRecorded(w) && Bounded(w.rows) && OnePerKey(w.rows, w.forced)
  }

  lemma NewIdKeepsRecorded(w: World, id: Id)
    requires FlightsRecorded(w) && id !in w.claims
    ensures forall n :: n in w.flights ==> Recorded(w.claims[id := []], w.flights[n])
  {
    forall n | n in w.flights ensures Recorded(w.claims[id := []], w.flights[n]) {
      assert Recorded(w.claims, w.flights[n]);
    }
  }

  lemma EnqueueKeepsCounted(w: World, a: Action)
    requires Counted(w) && a.Enqueue? && Possible(w, a)
    ensures Counted(Enqueued(w, a))
  {
    assert a.id !in w.rows;
    hide History, HasPending, SentSince;
    if a.force || !(HasPending(w.rows, a.key) || SentSince(w.rows, a.key, a.since)) {
      var row := NewRow(a.key, a.url, a.stamp);
      InsertBounds(w.rows, a.newest, a.id, row);
      InsertKeepsOnePerKey(w.rows, a.newest, a.id, row, a.force, w.forced);
      PruneKeepsHistory(w.rows, a.newest, w.claims, w.clock, map[]);
      NewIdKeepsHistory(Pruned(w.rows, a.newest), w.claims, w.clock, map[], a.id);
      RowKeepsHistory(Pruned(w.rows, a.newest), w.claims, w.clock, a.id, row, []);
      NewIdKeepsRecorded(w, a.id);
    }
  }

  lemma ClaimKeepsCounted(w: World, flight: nat, id: Id, stamp: real, survives: bool)
    requires Counted(w) && Possible(w, Claim(flight, id, stamp, survives))
    ensures Counted(ClaimStep(w, flight, id, stamp, survives))
  {
    if Claimable(w.rows, id, stamp) {
      var row := Claimed(w.rows, id, stamp)[id];
      var stamps := w.claims[id] + [stamp];
      ClaimIsSpaced(w.rows[id], w.claims[id], w.clock, stamp);
      RowKeepsHistory(w.rows, w.claims, w.clock, id, row, stamps);
      RowKeepsBounds(w.rows, w.forced, id, row);
      forall n | n in w.flights ensures Recorded(w.claims[id := stamps], w.flights[n]) {
        assert Recorded(w.claims, w.flights[n]);
      }
    }
  }

  lemma WriteKeepsCounted(w: World, a: Action)
    requires Counted(w) && a.WriteBack? && Possible(w, a) && StillItsOwn(w.rows, w.flights[a.flight])
    ensures Counted(Step(w, a))
  {
    var f := w.flights[a.flight];
    assert Recorded(w.claims, f);
    if f.id in w.rows {
      var stamps := w.claims[f.id];
      var row := WrittenBack(w.rows, f.id, f.attempts, a.success, a.terminal, a.updated, a.read)[f.id];
      assert RowAgrees(w.rows[f.id], stamps, w.clock);
      assert w.claims[f.id := stamps] == w.claims;
      RowKeepsHistory(w.rows, w.claims, w.clock, f.id, row, stamps);
      RowKeepsBounds(w.rows, w.forced, f.id, row);
    }
  }

  lemma SweepKeepsCounted(w: World, updated: real, stamp: real)
    requires Counted(w) && updated <= stamp <= w.clock
    ensures Counted(w.(rows := Swept(w.rows, updated, stamp)))
  {
    SweepKeepsHistory(w.rows, w.claims, w.clock, map[], updated, stamp);
    UpdateBounds(w.rows, Swept(w.rows, updated, stamp));
  }

  lemma StepKeepsCounted(w: World, a: Action)
    requires Counted(w) && Possible(w, a) && (a.WriteBack? ==> StillItsOwn(w.rows, w.flights[a.flight]))
    ensures Counted(Step(w, a))
  {
    match a
    case Enqueue(_, _, _, _, _, _, _) => EnqueueKeepsCounted(w, a);
    case Claim(flight, id, stamp, survives) => ClaimKeepsCounted(w, flight, id, stamp, survives);
    case WriteBack(_, _, _, _, _) => WriteKeepsCounted(w, a);
    case Sweep(updated, stamp) => SweepKeepsCounted(w, updated, stamp);
    case Die(_) =>
    case Tick(_) =>
  }

  /** However late the deliveries: if every write-back finds its row still its own, budget, spacing and bounds hold. */
  lemma {:induction false} ItsOwnKeepsTheBudget(clock: real, actions: seq<Action>)
    requires AllItsOwn(Start(clock), actions)
    ensures Counted(FreeRun(Start(clock), actions))
  {
    if actions == [] {
      assert PendingIds(map[]) == {};
    } else {
      var front, a := actions[..|actions| - 1], actions[|actions| - 1];
      ItsOwnKeepsTheBudget(clock, front);
      if Possible(FreeRun(Start(clock), front), a) {
        StepKeepsCounted(FreeRun(Start(clock), front), a);
      }
    }
  }

  lemma FreeStepKeepsOver(w: World, a: Action, id: Id, row: Row)
    requires Counted(w) && Possible(w, a) && (a.WriteBack? ==> StillItsOwn(w.rows, w.flights[a.flight]))
    requires Over(w, id, row)
    ensures Over(Step(w, a), id, row)
    ensures Step(w, a).claims[id] == w.claims[id]
  {
  }

  /** And `sent` and `exhausted` are never left. */
  lemma {:induction false} ItsOwnKeepsFinal(w: World, actions: seq<Action>, id: Id)
    requires Counted(w) && id in w.rows && w.rows[id].status != Pending && AllItsOwn(w, actions)
    ensures Counted(FreeRun(w, actions)) && Over(FreeRun(w, actions), id, w.rows[id])
    ensures FreeRun(w, actions).claims[id] == w.claims[id]
  {
    if actions != [] {
      var front, a := actions[..|actions| - 1], actions[|actions| - 1];
      ItsOwnKeepsFinal(w, front, id);
      if Possible(FreeRun(w, front), a) {
        StepKeepsCounted(FreeRun(w, front), a);
        FreeStepKeepsOver(FreeRun(w, front), a, id, w.rows[id]);
      }
    }
  }
}
