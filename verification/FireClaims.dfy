/**
 * At most one transmission per claim and per cap: `bell/scheduler.py:100-214` and `382-432`. Each SQLite
 * transaction is one atomic step; `evaluate_fire` is an uninterpreted decision.
 */
module FireClaims {
  import opened Sets

  datatype Claim = Claim(day: int, key: string)

  datatype Status = Started | Blocked | Missed | Failed | Succeeded

  type Table = map<Claim, Status>

  // ---------- The transactions ----------

  function OnDay(claims: set<Claim>, day: int): set<Claim> {
    set c | c in claims && c.day == day
  }

  function AttemptsOn(table: Table, day: int): nat {
    |OnDay(table.Keys, day)|
  }

  /** `record_once`: the cap check and the insert in one transaction; an existing row is never replaced. */
  predicate Inserts(table: Table, claim: Claim, capped: bool, maxAttempts: nat) {
    claim !in table && (capped ==> AttemptsOn(table, claim.day) < maxAttempts)
  }

  function Recorded(table: Table, claim: Claim, status: Status, capped: bool, maxAttempts: nat): Table {
    if Inserts(table, claim, capped, maxAttempts) then table[claim := status] else table
  }

  function Updated(table: Table, claim: Claim, status: Status): Table {
    if claim in table then table[claim := status] else table
  }

  /** The purge at every start: the rows written more than 400 days ago go. */
  function Purged(table: Table, expired: set<Claim>): Table {
    table - expired
  }

  /** `FireState`: one durable table, shared by every process. */
  class FireState {
    var rows: Table

    constructor (saved: Table, expired: set<Claim>)
      ensures rows == Purged(saved, expired)
    {
      rows := Purged(saved, expired);
    }

    method HasAttempt(claim: Claim) returns (found: bool)
      ensures found == (claim in rows)
    {
      found := claim in rows;
    }

    /** `COUNT(*)`, row by row. */
    method AttemptCount(day: int) returns (count: nat)
      ensures count == AttemptsOn(rows, day)
    {
      count := 0;
      var rest := rows.Keys;
      assert OnDay(rows.Keys - rest, day) == {};
      while rest != {}
        invariant rest <= rows.Keys
        invariant count == |OnDay(rows.Keys - rest, day)|
        decreases |rest|
      {
        var c :| c in rest;
        ghost var seen := OnDay(rows.Keys - rest, day);
        rest := rest - {c};
        if c.day == day {
          assert OnDay(rows.Keys - rest, day) == seen + {c};
          count := count + 1;
        } else {
          assert OnDay(rows.Keys - rest, day) == seen;
        }
      }
      assert rows.Keys - rest == rows.Keys;
    }

    method RecordOnce(claim: Claim, status: Status, capped: bool, maxAttempts: nat) returns (inserted: bool)
      modifies this
      ensures inserted == Inserts(old(rows), claim, capped, maxAttempts)
      ensures rows == Recorded(old(rows), claim, status, capped, maxAttempts)
    {
      if capped {
        var count := AttemptCount(claim.day);
        if count >= maxAttempts {
          return false;
        }
      }
      if claim in rows {
        return false;
      }
      rows := rows[claim := status];
      return true;
    }

    method UpdateResult(claim: Claim, status: Status)
      modifies this
      ensures rows == Updated(old(rows), claim, status)
    {
      if claim in rows {
        rows := rows[claim := status];
      }
    }

    /** `fire` run alone, from the restore marker to the result; `allows` stands for `evaluate_fire`. */
    method Fire(claim: Claim, restorePending: bool, configChanged: bool, late: bool, allows: nat -> bool,
                maxAttempts: nat, transmitSucceeds: bool) returns (transmitted: bool, allowed: bool)
      modifies this
      ensures transmitted <==>
                && !restorePending && !configChanged && !late
                && claim !in old(rows)
                && allows(AttemptsOn(old(rows), claim.day)) && AttemptsOn(old(rows), claim.day) < maxAttempts
      ensures allowed <==> transmitted && transmitSucceeds
      ensures restorePending || configChanged || claim in old(rows) ==> rows == old(rows)
      ensures claim !in old(rows) && !restorePending && !configChanged ==>
                rows == if transmitted then old(rows)[claim := if transmitSucceeds then Succeeded else Failed]
                        else if late then old(rows)[claim := Missed]
                        else if !allows(AttemptsOn(old(rows), claim.day)) then old(rows)[claim := Blocked]
                        else old(rows)
    {
      if restorePending || configChanged {
        return false, false;
      }
      if late {
        var _ := RecordOnce(claim, Missed, false, 0);
        return false, false;
      }
      var attempted := HasAttempt(claim);
      if attempted {
        return false, false;
      }
      var count := AttemptCount(claim.day);
      if !allows(count) {
        var _ := RecordOnce(claim, Blocked, false, 0);
        return false, false;
      }
      var claimed := RecordOnce(claim, Started, true, maxAttempts);
      if !claimed {
        return false, false;
      }
      UpdateResult(claim, if transmitSucceeds then Succeeded else Failed);
      return true, transmitSucceeds;
    }
  }

  // ---------- All interleavings of concurrent calls, crashes and restarts ----------

  /** Where a `fire` call is: before each of its transactions, and around the transmission. */
  datatype Call =
    | RecordsMissed(claim: Claim)
    | Looks(claim: Claim, cap: nat)         // before `has_attempt`
    | Evaluates(claim: Claim, cap: nat)     // before `attempt_count` and `evaluate_fire`
    | RecordsBlocked(claim: Claim)
    | Claims(claim: Claim, cap: nat)        // before the capped `record_once`
    | Holds(claim: Claim)                   // claimed, not yet transmitted
    | Reports(claim: Claim)                 // transmitted, result not yet written

  datatype World = World(table: Table, calls: map<nat, Call>, transmitted: seq<Claim>, today: int, horizon: int,
                         restorePending: bool)

  datatype Action =
    | Begin(id: nat, key: string, late: bool, cap: nat)
    | Next(id: nat, allowed: bool)      // the next transaction of a call; `allowed` answers `evaluate_fire`
    | Transmit(id: nat)
    | Report(id: nat, success: bool)
    | Crash(ids: set<nat>)
    | Restart(expired: set<Claim>, horizon: int)    // a process starts and purges; days from `horizon` on stay whole
    | NewDay(today: int)                // also back, within the days still kept
    | Restore(pending: bool)            // the restore marker appears or goes

  /**
   * The largest cap in force, and the one assumption: no call lives, and no clock goes back, over the 400 days that
   * rows are kept.
   */
  predicate Enabled(w: World, a: Action, maxCap: nat) {
    match a
    case Begin(id, _, _, cap) => id !in w.calls && !w.restorePending && cap <= maxCap
    case Next(id, _) => id in w.calls && !w.calls[id].Holds? && !w.calls[id].Reports?
    case Transmit(id) => id in w.calls && w.calls[id].Holds?
    case Report(id, _) => id in w.calls && w.calls[id].Reports?
    case Crash(_) => true
    case Restart(expired, horizon) =>
      && w.horizon <= horizon <= w.today
      && (forall c :: c in expired ==> c.day < horizon)
      && (forall id :: id in w.calls ==> horizon <= w.calls[id].claim.day)
    case NewDay(today) => w.horizon <= today
    case Restore(_) => true
  }

  function Done(w: World, id: nat): World {
    w.(calls := w.calls - {id})
  }

  function NextStep(w: World, id: nat, allowed: bool): World
    requires id in w.calls && !w.calls[id].Holds? && !w.calls[id].Reports?
  {
    match w.calls[id]
    case RecordsMissed(claim) => Done(w.(table := Recorded(w.table, claim, Missed, false, 0)), id)
    case Looks(claim, cap) =>
      if claim in w.table then Done(w, id) else w.(calls := w.calls[id := Evaluates(claim, cap)])
    case Evaluates(claim, cap) =>
      w.(calls := w.calls[id := if allowed then Claims(claim, cap) else RecordsBlocked(claim)])
    case RecordsBlocked(claim) => Done(w.(table := Recorded(w.table, claim, Blocked, false, 0)), id)
    case Claims(claim, cap) =>
      if Inserts(w.table, claim, true, cap)
      then w.(table := Recorded(w.table, claim, Started, true, cap), calls := w.calls[id := Holds(claim)])
      else Done(w, id)
  }

  function Step(w: World, a: Action, maxCap: nat): World
    requires Enabled(w, a, maxCap)
  {
    match a
    case Begin(id, key, late, cap) =>
      var claim := Claim(w.today, key);
      w.(calls := w.calls[id := if late then RecordsMissed(claim) else Looks(claim, cap)])
    case Next(id, allowed) => NextStep(w, id, allowed)
    case Transmit(id) =>
      var claim := w.calls[id].claim;
      w.(transmitted := w.transmitted + [claim], calls := w.calls[id := Reports(claim)])
    case Report(id, success) =>
      Done(w.(table := Updated(w.table, w.calls[id].claim, if success then Succeeded else Failed)), id)
    case Crash(ids) => w.(calls := w.calls - ids)
    case Restart(expired, horizon) => w.(table := Purged(w.table, expired), horizon := horizon)
    case NewDay(today) => w.(today := today)
    case Restore(pending) => w.(restorePending := pending)
  }

  function Run(w: World, actions: seq<Action>, maxCap: nat): World {
    if actions == [] then w
    else
      var before := Run(w, actions[..|actions| - 1], maxCap);
      var a := actions[|actions| - 1];
      if Enabled(before, a, maxCap) then Step(before, a, maxCap) else before
  }

  function Start(today: int): World {
    World(map[], map[], [], today, today - 400, false)
  }

  // ---------- The invariant ----------

  predicate WonStatus(s: Status) {
    s == Started || s == Failed || s == Succeeded
  }

  /** The claims won so far, while their rows are kept. */
  function Won(table: Table): set<Claim> {
    set c | c in table && WonStatus(table[c])
  }

  ghost predicate NoDuplicates(claims: seq<Claim>) {
    forall i, j :: 0 <= i < j < |claims| ==> claims[i] != claims[j]
  }

  /** Every transmission had won its claim; the row is there until its day is purged. */
  ghost predicate TransmissionsClaimed(w: World) {
    forall i :: 0 <= i < |w.transmitted| ==>
      w.transmitted[i].day >= w.horizon ==> w.transmitted[i] in Won(w.table)
  }

  /** A call between its claim and its transmission: it alone holds that claim, and nothing was sent for it. */
  ghost predicate HoldersAlone(w: World) {
    && (forall id :: id in w.calls && w.calls[id].Holds? ==>
          w.calls[id].claim in Won(w.table) && w.calls[id].claim !in w.transmitted)
    && (forall i, j :: i in w.calls && j in w.calls && i != j && w.calls[i].Holds? && w.calls[j].Holds? ==>
          w.calls[i].claim != w.calls[j].claim)
  }

  ghost predicate CallsInTime(w: World) {
    && w.horizon <= w.today
    && (forall id :: id in w.calls ==> w.horizon <= w.calls[id].claim.day)
    && (forall id :: id in w.calls && w.calls[id].Reports? ==> w.calls[id].claim in Won(w.table))
  }

  predicate CapsWithin(call: Call, maxCap: nat) {
    match call
    case Looks(_, cap) => cap <= maxCap
    case Evaluates(_, cap) => cap <= maxCap
    case Claims(_, cap) => cap <= maxCap
    case _ => true
  }

  function TransmissionsOn(transmitted: seq<Claim>, day: int): nat {
    if transmitted == [] then 0
    else TransmissionsOn(transmitted[..|transmitted| - 1], day)
         + if transmitted[|transmitted| - 1].day == day then 1 else 0
  }

  ghost predicate WonWithin(table: Table, maxCap: nat) {
    forall day :: |OnDay(Won(table), day)| <= maxCap
  }

  ghost predicate CapKept(w: World, maxCap: nat) {
    && (forall id :: id in w.calls ==> CapsWithin(w.calls[id], maxCap))
    && WonWithin(w.table, maxCap)
    && (forall day :: TransmissionsOn(w.transmitted, day) <= maxCap)
  }

  ghost predicate Safe(w: World, maxCap: nat) {
    NoDuplicates(w.transmitted) && TransmissionsClaimed(w) && HoldersAlone(w) && CallsInTime(w) && CapKept(w, maxCap)
  }

  // ---------- Every step keeps it ----------

  /** Distinct transmissions of one day are no more than the claims won on it. */
  lemma {:induction false} DistinctFit(claims: seq<Claim>, day: int, won: set<Claim>)
    requires NoDuplicates(claims)
    requires forall i :: 0 <= i < |claims| && claims[i].day == day ==> claims[i] in won
    ensures TransmissionsOn(claims, day) <= |won|
  {
    if claims != [] {
      var front, last := claims[..|claims| - 1], claims[|claims| - 1];
      if last.day == day {
        DistinctFit(front, day, won - {last});
      } else {
        DistinctFit(front, day, won);
      }
    }
  }

  lemma FewerOnDay(some: set<Claim>, all: set<Claim>, day: int)
    requires some <= all
    ensures |OnDay(some, day)| <= |OnDay(all, day)|
  {
    SmallerSet(OnDay(some, day), OnDay(all, day));
  }

  lemma WonOf(table: Table, claim: Claim, status: Status)
    requires claim !in table
    ensures Won(table[claim := status]) == if WonStatus(status) then Won(table) + {claim} else Won(table)
  {
    var after := table[claim := status];
    forall c ensures c in Won(after) <==> c in (if WonStatus(status) then Won(table) + {claim} else Won(table)) {
    }
  }

  lemma OneMoreOnDay(won: set<Claim>, claim: Claim, day: int)
    ensures |OnDay(won + {claim}, day)| <= |OnDay(won, day)| + if day == claim.day then 1 else 0
  {
    if day == claim.day {
      assert OnDay(won + {claim}, day) == OnDay(won, day) + {claim};
    } else {
      assert OnDay(won + {claim}, day) == OnDay(won, day);
    }
  }

  /** Winning a claim under the cap keeps every day under it; a refusal wins nothing. */
  lemma RecordingKeepsCap(table: Table, claim: Claim, status: Status, capped: bool, cap: nat, maxCap: nat)
    requires WonWithin(table, maxCap)
    requires WonStatus(status) ==> capped && cap <= maxCap
    ensures WonWithin(Recorded(table, claim, status, capped, cap), maxCap)
    ensures Won(Recorded(table, claim, status, capped, cap)) ==
              if Inserts(table, claim, capped, cap) && WonStatus(status) then Won(table) + {claim} else Won(table)
  {
    if Inserts(table, claim, capped, cap) {
      WonOf(table, claim, status);
      var after := Recorded(table, claim, status, capped, cap);
      forall day ensures |OnDay(Won(after), day)| <= maxCap {
        OneMoreOnDay(Won(table), claim, day);
        FewerOnDay(Won(table), table.Keys, day);
      }
    }
  }

  /** A claim is sent once more: by the call that alone holds it. */
  lemma TransmitKeepsSafe(w: World, id: nat, maxCap: nat)
    requires Safe(w, maxCap) && Enabled(w, Transmit(id), maxCap)
    ensures Safe(Step(w, Transmit(id), maxCap), maxCap)
  {
    var after := Step(w, Transmit(id), maxCap);
    var claim := w.calls[id].claim;
    assert after.transmitted[..|w.transmitted|] == w.transmitted;
    forall day ensures TransmissionsOn(after.transmitted, day) <= maxCap {
      if day == claim.day {
        DistinctFit(after.transmitted, day, OnDay(Won(w.table), day));
      }
    }
  }

  lemma RefusingKeepsSafe(w: World, id: nat, claim: Claim, status: Status, maxCap: nat)
    requires Safe(w, maxCap) && id in w.calls && !WonStatus(status)
    ensures Safe(Done(w.(table := Recorded(w.table, claim, status, false, 0)), id), maxCap)
  {
    RecordingKeepsCap(w.table, claim, status, false, 0, maxCap);
  }

  lemma ClaimingKeepsSafe(w: World, id: nat, claim: Claim, cap: nat, maxCap: nat)
    requires Safe(w, maxCap) && id in w.calls && w.calls[id] == Claims(claim, cap)
    requires Inserts(w.table, claim, true, cap)
    ensures Safe(w.(table := Recorded(w.table, claim, Started, true, cap), calls := w.calls[id := Holds(claim)]),
                 maxCap)
  {
    RecordingKeepsCap(w.table, claim, Started, true, cap, maxCap);
    assert claim !in Won(w.table);
  }

  /** A call that only moves on, or ends, changes nothing. */
  lemma MovingKeepsSafe(w: World, id: nat, call: Call, maxCap: nat)
    requires Safe(w, maxCap) && id in w.calls
    ensures Safe(Done(w, id), maxCap)
    ensures call.claim == w.calls[id].claim && !call.Holds? && !call.Reports? && CapsWithin(call, maxCap) ==>
              Safe(w.(calls := w.calls[id := call]), maxCap)
  {
  }

  lemma NextKeepsSafe(w: World, id: nat, allowed: bool, maxCap: nat)
    requires Safe(w, maxCap) && Enabled(w, Next(id, allowed), maxCap)
    ensures Safe(NextStep(w, id, allowed), maxCap)
  {
    var call := w.calls[id];
    assert CapsWithin(call, maxCap);
    match call
    case RecordsMissed(claim) => RefusingKeepsSafe(w, id, claim, Missed, maxCap);
    case RecordsBlocked(claim) => RefusingKeepsSafe(w, id, claim, Blocked, maxCap);
    case Looks(claim, cap) => MovingKeepsSafe(w, id, Evaluates(claim, cap), maxCap);
    case Evaluates(claim, cap) =>
      MovingKeepsSafe(w, id, if allowed then Claims(claim, cap) else RecordsBlocked(claim), maxCap);
    case Claims(claim, cap) =>
      if Inserts(w.table, claim, true, cap) {
        ClaimingKeepsSafe(w, id, claim, cap, maxCap);
      } else {
        MovingKeepsSafe(w, id, call, maxCap);
      }
  }

  lemma ReportKeepsSafe(w: World, id: nat, success: bool, maxCap: nat)
    requires Safe(w, maxCap) && Enabled(w, Report(id, success), maxCap)
    ensures Safe(Step(w, Report(id, success), maxCap), maxCap)
  {
    var after := Step(w, Report(id, success), maxCap);
    assert Won(after.table) == Won(w.table);
  }

  lemma RestartKeepsSafe(w: World, expired: set<Claim>, horizon: int, maxCap: nat)
    requires Safe(w, maxCap) && Enabled(w, Restart(expired, horizon), maxCap)
    ensures Safe(Step(w, Restart(expired, horizon), maxCap), maxCap)
  {
    var after := Step(w, Restart(expired, horizon), maxCap);
    assert Won(after.table) == Won(w.table) - expired;
    forall day ensures |OnDay(Won(after.table), day)| <= maxCap {
      FewerOnDay(Won(after.table), Won(w.table), day);
    }
  }

  lemma StepKeepsSafe(w: World, a: Action, maxCap: nat)
    requires Safe(w, maxCap) && Enabled(w, a, maxCap)
    ensures Safe(Step(w, a, maxCap), maxCap)
  {
    match a
    case Next(id, allowed) => NextKeepsSafe(w, id, allowed, maxCap);
    case Transmit(id) => TransmitKeepsSafe(w, id, maxCap);
    case Report(id, success) => ReportKeepsSafe(w, id, success, maxCap);
    case Restart(expired, horizon) => RestartKeepsSafe(w, expired, horizon, maxCap);
    case _ =>
  }

  lemma {:induction false} RunKeepsSafe(w: World, actions: seq<Action>, maxCap: nat)
    requires Safe(w, maxCap)
    ensures Safe(Run(w, actions, maxCap), maxCap)
  {
    if actions != [] {
      RunKeepsSafe(w, actions[..|actions| - 1], maxCap);
      var before, a := Run(w, actions[..|actions| - 1], maxCap), actions[|actions| - 1];
      if Enabled(before, a, maxCap) {
        StepKeepsSafe(before, a, maxCap);
      }
    }
  }

  /**
   * Any number of calls, interleaved and crashing anywhere: each (day, key) is transmitted at most once, and no day
   * sees more transmissions than the largest cap in force, although the early count is not atomic with the claim.
   */
  lemma EveryRunIsSafe(today: int, actions: seq<Action>, maxCap: nat)
    ensures NoDuplicates(Run(Start(today), actions, maxCap).transmitted)
    ensures forall day :: TransmissionsOn(Run(Start(today), actions, maxCap).transmitted, day) <= maxCap
    ensures Safe(Run(Start(today), actions, maxCap), maxCap)
  {
    assert Won(Start(today).table) == {};
    assert forall day :: OnDay({}, day) == {};
    RunKeepsSafe(Start(today), actions, maxCap);
  }

  // ---------- A refusal is final for its day ----------

  /** The row of a refused claim stands until its day is purged, and the claim is never transmitted. */
  ghost predicate RefusedFor(w: World, claim: Claim, status: Status) {
    && claim !in w.transmitted
    && (claim.day >= w.horizon ==> claim in w.table && w.table[claim] == status)
  }

  lemma StepKeepsRefusal(w: World, a: Action, claim: Claim, status: Status, maxCap: nat)
    requires Safe(w, maxCap) && Enabled(w, a, maxCap)
    requires status == Blocked || status == Missed
    requires RefusedFor(w, claim, status)
    ensures RefusedFor(Step(w, a, maxCap), claim, status)
  {
    match a
    case Transmit(id) => assert w.calls[id].claim in Won(w.table);
    case Report(id, success) => assert w.calls[id].claim in Won(w.table);
    case _ =>
  }

  lemma {:induction false} RefusalIsFinal(w: World, actions: seq<Action>, claim: Claim, maxCap: nat)
    requires Safe(w, maxCap) && claim.day >= w.horizon
    requires claim in w.table && (w.table[claim] == Blocked || w.table[claim] == Missed)
    ensures claim !in w.transmitted
    ensures RefusedFor(Run(w, actions, maxCap), claim, w.table[claim])
  {
    if actions == [] {
      assert claim !in Won(w.table);
    } else {
      var front, a := actions[..|actions| - 1], actions[|actions| - 1];
      RefusalIsFinal(w, front, claim, maxCap);
      RunKeepsSafe(w, front, maxCap);
      if Enabled(Run(w, front, maxCap), a, maxCap) {
        StepKeepsRefusal(Run(w, front, maxCap), a, claim, w.table[claim], maxCap);
      }
    }
  }

  // ---------- The restore marker ----------

  /** The marker, once there, stays. */
  ghost predicate MarkerStays(actions: seq<Action>) {
    forall i :: 0 <= i < |actions| ==> actions[i] != Restore(false)
  }

  /** No call has begun since `before`. */
  ghost predicate NoNewCalls(before: World, after: World) {
    && after.restorePending
    && forall id :: id in after.calls ==> id in before.calls && after.calls[id].claim == before.calls[id].claim
  }

  /** What was transmitted since `before`, in order, each by a call under way then. */
  ghost predicate SentByThem(before: World, after: World) {
    && |before.transmitted| <= |after.transmitted|
    && after.transmitted[..|before.transmitted|] == before.transmitted
    && (forall i :: |before.transmitted| <= i < |after.transmitted| ==> UnderWay(before, after.transmitted[i]))
  }

  ghost predicate UnderWay(w: World, claim: Claim) {
    exists id :: id in w.calls && w.calls[id].claim == claim
  }

  lemma StepKeepsNoNewCalls(before: World, w: World, a: Action, maxCap: nat)
    requires NoNewCalls(before, w) && Enabled(w, a, maxCap) && a != Restore(false)
    ensures NoNewCalls(before, Step(w, a, maxCap))
  {
  }

  lemma StepKeepsSentByThem(before: World, w: World, a: Action, maxCap: nat)
    requires NoNewCalls(before, w) && SentByThem(before, w) && Enabled(w, a, maxCap)
    ensures SentByThem(before, Step(w, a, maxCap))
  {
    var v := Step(w, a, maxCap);
    if a.Transmit? {
      var claim := w.calls[a.id].claim;
      assert v.transmitted == w.transmitted + [claim];
      assert UnderWay(before, claim);
      assert v.transmitted[..|before.transmitted|] == w.transmitted[..|before.transmitted|];
    } else {
      assert v.transmitted == w.transmitted;
    }
  }

  /** Any transmission under the marker is that of a call already under way when the marker appeared. */
  lemma {:induction false} OnlyCallsUnderWayTransmit(w: World, actions: seq<Action>, maxCap: nat)
    requires w.restorePending && MarkerStays(actions)
    ensures NoNewCalls(w, Run(w, actions, maxCap)) && SentByThem(w, Run(w, actions, maxCap))
  {
    if actions != [] {
      var front, a := actions[..|actions| - 1], actions[|actions| - 1];
      OnlyCallsUnderWayTransmit(w, front, maxCap);
      if Enabled(Run(w, front, maxCap), a, maxCap) {
        StepKeepsNoNewCalls(w, Run(w, front, maxCap), a, maxCap);
        StepKeepsSentByThem(w, Run(w, front, maxCap), a, maxCap);
      }
    }
  }

  /** A call that can still come to transmit: it holds its claim, or could win it now. */
  predicate MayTransmit(w: World, call: Call) {
    match call
    case Holds(_) => true
    case Looks(claim, cap) => Inserts(w.table, claim, true, cap)
    case Evaluates(claim, cap) => Inserts(w.table, claim, true, cap)
    case Claims(claim, cap) => Inserts(w.table, claim, true, cap)
    case _ => false
  }

  ghost predicate Harmless(w: World) {
    w.restorePending && forall id :: id in w.calls ==> !MayTransmit(w, w.calls[id])
  }

  lemma RowsOnlyGrow(w: World, a: Action, maxCap: nat, claim: Claim)
    requires Enabled(w, a, maxCap) && (a.Restart? ==> a.horizon <= claim.day)
    ensures OnDay(w.table.Keys, claim.day) <= OnDay(Step(w, a, maxCap).table.Keys, claim.day)
    ensures claim in w.table ==> claim in Step(w, a, maxCap).table
  {
  }

  /** What could not be won cannot be won later: rows of a day with a live call only grow. */
  lemma NoSecondChance(w: World, a: Action, maxCap: nat, id: nat, claim: Claim, cap: nat)
    requires Enabled(w, a, maxCap) && CallsInTime(w) && id in w.calls && w.calls[id].claim == claim
    requires !Inserts(w.table, claim, true, cap)
    ensures !Inserts(Step(w, a, maxCap).table, claim, true, cap)
  {
    RowsOnlyGrow(w, a, maxCap, claim);
    SmallerSet(OnDay(w.table.Keys, claim.day), OnDay(Step(w, a, maxCap).table.Keys, claim.day));
  }

  lemma StepKeepsHarmless(w: World, a: Action, maxCap: nat)
    requires Harmless(w) && CallsInTime(w) && Enabled(w, a, maxCap) && a != Restore(false)
    ensures Harmless(Step(w, a, maxCap)) && Step(w, a, maxCap).transmitted == w.transmitted
  {
    var v := Step(w, a, maxCap);
    forall id | id in v.calls ensures !MayTransmit(v, v.calls[id]) {
      var call := v.calls[id];
      assert id in w.calls && !MayTransmit(w, w.calls[id]) && w.calls[id].claim == call.claim;
      match call
      case Looks(claim, cap) => NoSecondChance(w, a, maxCap, id, claim, cap);
      case Evaluates(claim, cap) => NoSecondChance(w, a, maxCap, id, claim, cap);
      case Claims(claim, cap) => NoSecondChance(w, a, maxCap, id, claim, cap);
      case _ =>
    }
  }

  lemma {:induction false} HarmlessStaysQuiet(w: World, actions: seq<Action>, maxCap: nat)
    requires Harmless(w) && Safe(w, maxCap) && MarkerStays(actions)
    ensures Harmless(Run(w, actions, maxCap)) && Run(w, actions, maxCap).transmitted == w.transmitted
  {
    if actions != [] {
      var front, a := actions[..|actions| - 1], actions[|actions| - 1];
      HarmlessStaysQuiet(w, front, maxCap);
      RunKeepsSafe(w, front, maxCap);
      if Enabled(Run(w, front, maxCap), a, maxCap) {
        StepKeepsHarmless(Run(w, front, maxCap), a, maxCap);
      }
    }
  }

  /** The rest of a call's way to its transmission. */
  function Onward(call: Call, id: nat): seq<Action> {
    match call
    case Holds(_) => [Transmit(id)]
    case Claims(_, _) => [Next(id, true), Transmit(id)]
    case Evaluates(_, _) => [Next(id, true), Next(id, true), Transmit(id)]
    case _ => [Next(id, true), Next(id, true), Next(id, true), Transmit(id)]
  }

  lemma RunFirst(w: World, a: Action, rest: seq<Action>, maxCap: nat)
    requires Enabled(w, a, maxCap)
    ensures Run(w, [a] + rest, maxCap) == Run(Step(w, a, maxCap), rest, maxCap)
  {
    var all := [a] + rest;
    if rest == [] {
      assert all[..0] == [];
    } else {
      var front := rest[..|rest| - 1];
      RunFirst(w, a, front, maxCap);
      assert all[..|all| - 1] == [a] + front;
    }
  }

  /** A call that may transmit does, if nothing else moves. */
  lemma {:induction false} OnwardTransmits(w: World, id: nat, maxCap: nat)
    requires id in w.calls && MayTransmit(w, w.calls[id])
    ensures Run(w, Onward(w.calls[id], id), maxCap).transmitted == w.transmitted + [w.calls[id].claim]
    decreases match w.calls[id] case Looks(_, _) => 3 case Evaluates(_, _) => 2 case Claims(_, _) => 1 case _ => 0
  {
    var call := w.calls[id];
    var path := Onward(call, id);
    assert path == [path[0]] + path[1..];
    RunFirst(w, path[0], path[1..], maxCap);
    var next := Step(w, path[0], maxCap);
    if call.Holds? {
      assert path[1..] == [];
    } else {
      assert path[1..] == Onward(next.calls[id], id);
      OnwardTransmits(next, id, maxCap);
    }
  }

  /**
   * The marker alone does not silence the appliance. It does exactly if no call under way can still transmit: none
   * holds a claim, and none that looks for one could win it.
   */
  lemma QuietUnderMarkerExactlyWhen(w: World, maxCap: nat)
    requires Safe(w, maxCap) && w.restorePending
    ensures (forall actions :: MarkerStays(actions) ==> Run(w, actions, maxCap).transmitted == w.transmitted)
            <==> (forall id :: id in w.calls ==> !MayTransmit(w, w.calls[id]))
  {
    if Harmless(w) {
      forall actions | MarkerStays(actions) ensures Run(w, actions, maxCap).transmitted == w.transmitted {
        HarmlessStaysQuiet(w, actions, maxCap);
      }
    } else {
      var id :| id in w.calls && MayTransmit(w, w.calls[id]);
      OnwardTransmits(w, id, maxCap);
      assert MarkerStays(Onward(w.calls[id], id));
    }
  }

  // ---------- One call of the interleaved model is `Fire` ----------

  /** All that a call may do; after its end nothing of it is enabled. */
  function Alone(id: nat, key: string, late: bool, cap: nat, allowed: bool, success: bool): seq<Action> {
    [Begin(id, key, late, cap)] + Rest(id, allowed, success)
  }

  function Rest(id: nat, allowed: bool, success: bool): seq<Action> {
    [Next(id, allowed)] + ([Next(id, allowed)] + ([Next(id, allowed)] + Sends(id, success)))
  }

  function Sends(id: nat, success: bool): seq<Action> {
    [Transmit(id)] + ([Report(id, success)] + [])
  }

  lemma RunSkips(w: World, a: Action, rest: seq<Action>, maxCap: nat)
    requires !Enabled(w, a, maxCap)
    ensures Run(w, [a] + rest, maxCap) == Run(w, rest, maxCap)
  {
    var all := [a] + rest;
    if rest == [] {
      assert all[..0] == [];
    } else {
      var front := rest[..|rest| - 1];
      RunSkips(w, a, front, maxCap);
      assert all[..|all| - 1] == [a] + front;
    }
  }

  /** A call that has ended does nothing more. */
  lemma {:induction false} Ended(w: World, id: nat, rest: seq<Action>, maxCap: nat)
    requires id !in w.calls
    requires forall i :: 0 <= i < |rest| ==> (rest[i].Next? || rest[i].Transmit? || rest[i].Report?) && rest[i].id == id
    ensures Run(w, rest, maxCap) == w
  {
    if rest != [] {
      Ended(w, id, rest[..|rest| - 1], maxCap);
    }
  }

  /** A call that holds its claim transmits and reports. */
  lemma HolderSends(w: World, id: nat, success: bool, maxCap: nat)
    requires id in w.calls && w.calls[id].Holds? && w.calls[id].claim in w.table
    ensures var claim := w.calls[id].claim;
            Run(w, Sends(id, success), maxCap)
            == w.(table := w.table[claim := if success then Succeeded else Failed], calls := w.calls - {id},
                  transmitted := w.transmitted + [claim])
  {
    RunFirst(w, Transmit(id), [Report(id, success)] + [], maxCap);
    var sent := Step(w, Transmit(id), maxCap);
    RunFirst(sent, Report(id, success), [], maxCap);
    assert sent.calls - {id} == w.calls - {id};
  }

  /** A call about to claim. */
  lemma ClaimerEnds(w: World, id: nat, allowed: bool, success: bool, maxCap: nat)
    requires id in w.calls && w.calls[id].Claims?
    ensures var Claims(claim, cap) := w.calls[id];
            var wins := claim !in w.table && AttemptsOn(w.table, claim.day) < cap;
            Run(w, [Next(id, allowed)] + Sends(id, success), maxCap)
            == w.(table := if wins then w.table[claim := if success then Succeeded else Failed] else w.table,
                  calls := w.calls - {id},
                  transmitted := if wins then w.transmitted + [claim] else w.transmitted)
  {
    var Claims(claim, cap) := w.calls[id];
    RunFirst(w, Next(id, allowed), Sends(id, success), maxCap);
    var next := Step(w, Next(id, allowed), maxCap);
    if Inserts(w.table, claim, true, cap) {
      HolderSends(next, id, success, maxCap);
      assert next.calls - {id} == w.calls - {id};
      assert next.table[claim := Succeeded] == w.table[claim := Succeeded];
      assert next.table[claim := Failed] == w.table[claim := Failed];
    } else {
      Ended(next, id, Sends(id, success), maxCap);
    }
  }

  /** A call about to evaluate. */
  lemma EvaluatorEnds(w: World, id: nat, allowed: bool, success: bool, maxCap: nat)
    requires id in w.calls && w.calls[id].Evaluates? && w.calls[id].claim !in w.table
    ensures var Evaluates(claim, cap) := w.calls[id];
            var wins := allowed && AttemptsOn(w.table, claim.day) < cap;
            Run(w, [Next(id, allowed)] + ([Next(id, allowed)] + Sends(id, success)), maxCap)
            == w.(table := if wins then w.table[claim := if success then Succeeded else Failed]
                           else if !allowed then w.table[claim := Blocked] else w.table,
                  calls := w.calls - {id},
                  transmitted := if wins then w.transmitted + [claim] else w.transmitted)
  {
    RunFirst(w, Next(id, allowed), [Next(id, allowed)] + Sends(id, success), maxCap);
    var next := Step(w, Next(id, allowed), maxCap);
    assert next.calls - {id} == w.calls - {id};
    if allowed {
      ClaimerEnds(next, id, allowed, success, maxCap);
    } else {
      RunFirst(next, Next(id, allowed), Sends(id, success), maxCap);
      Ended(Step(next, Next(id, allowed), maxCap), id, Sends(id, success), maxCap);
    }
  }

  /** A call that has just begun. */
  lemma LookerEnds(w: World, id: nat, allowed: bool, success: bool, maxCap: nat)
    requires id in w.calls && w.calls[id].Looks?
    ensures var Looks(claim, cap) := w.calls[id];
            var wins := claim !in w.table && allowed && AttemptsOn(w.table, claim.day) < cap;
            Run(w, Rest(id, allowed, success), maxCap)
            == w.(table := if wins then w.table[claim := if success then Succeeded else Failed]
                           else if claim !in w.table && !allowed then w.table[claim := Blocked] else w.table,
                  calls := w.calls - {id},
                  transmitted := if wins then w.transmitted + [claim] else w.transmitted)
  {
    var rest := [Next(id, allowed)] + ([Next(id, allowed)] + Sends(id, success));
    RunFirst(w, Next(id, allowed), rest, maxCap);
    var looked := Step(w, Next(id, allowed), maxCap);
    assert looked.calls - {id} == w.calls - {id};
    if w.calls[id].claim in w.table {
      Ended(looked, id, rest, maxCap);
    } else {
      EvaluatorEnds(looked, id, allowed, success, maxCap);
    }
  }

  /** A call that is late. */
  lemma MisserEnds(w: World, id: nat, allowed: bool, success: bool, maxCap: nat)
    requires id in w.calls && w.calls[id].RecordsMissed?
    ensures var claim := w.calls[id].claim;
            Run(w, Rest(id, allowed, success), maxCap)
            == w.(table := if claim in w.table then w.table else w.table[claim := Missed], calls := w.calls - {id})
  {
    var rest := [Next(id, allowed)] + ([Next(id, allowed)] + Sends(id, success));
    RunFirst(w, Next(id, allowed), rest, maxCap);
    Ended(Step(w, Next(id, allowed), maxCap), id, rest, maxCap);
  }

  /**
   * The interleaved model refines `Fire`: a call that runs alone leaves the row, and makes the transmission, that
   * `Fire` does; under the restore marker it does nothing.
   */
  lemma RunAloneIsFire(w: World, id: nat, key: string, late: bool, cap: nat, allowed: bool, success: bool, maxCap: nat)
    requires id !in w.calls && cap <= maxCap
    ensures var claim, v := Claim(w.today, key), Run(w, Alone(id, key, late, cap, allowed, success), maxCap);
            var fires := !w.restorePending && !late && claim !in w.table && allowed
                         && AttemptsOn(w.table, claim.day) < cap;
            && v.transmitted == (if fires then w.transmitted + [claim] else w.transmitted)
            && v.calls == w.calls && v.restorePending == w.restorePending
            && v.table == if w.restorePending || claim in w.table then w.table
                          else if fires then w.table[claim := if success then Succeeded else Failed]
                          else if late then w.table[claim := Missed]
                          else if !allowed then w.table[claim := Blocked]
                          else w.table
  {
    var claim, begin := Claim(w.today, key), Begin(id, key, late, cap);
    if w.restorePending {
      RunSkips(w, begin, Rest(id, allowed, success), maxCap);
      Ended(w, id, Rest(id, allowed, success), maxCap);
    } else {
      RunFirst(w, begin, Rest(id, allowed, success), maxCap);
      var begun := Step(w, begin, maxCap);
      assert begun.calls - {id} == w.calls;
      if late {
        MisserEnds(begun, id, allowed, success, maxCap);
      } else {
        LookerEnds(begun, id, allowed, success, maxCap);
      }
    }
  }
}
