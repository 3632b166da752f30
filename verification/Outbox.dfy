/**
 * The notification outbox shared by processes: `bell/alerts.py:41-161`. Each SQLite transaction is one atomic step,
 * the POST is an outcome chosen by the world, and every clock reading is its own parameter: readings are taken before
 * the transaction that uses them.
 */
module Outbox {
  import opened Wrappers

  type Id = nat

  const PENDING_LIMIT: nat := 500
  const KEPT_LIMIT: nat := 500
  const TRIES: nat := 5
  const LEASE_SECONDS := 60.0

  datatype Status = Pending | Sent | Exhausted

  /** `f"{kind}|{message}"`; the monitor's message keeps the parts its text is made of. */
  datatype Key = Plain(kind: string, message: string) | External(kind: string, incident: nat, at: real)

  datatype Row = Row(key: Key, url: string, attempts: nat, due: real, lease: real, status: Status, updated: real)

  type Rows = map<Id, Row>

  /** The answers of `_enqueue`. */
  datatype Outcome = Queued | AlreadyQueued | Suppressed | NotConfigured | Full

  // ---------- The transactions ----------

  ghost predicate HasPending(rows: Rows, key: Key) {
    exists id :: id in rows && rows[id].key == key && rows[id].status == Pending
  }

  ghost predicate SentSince(rows: Rows, key: Key, since: real) {
    exists id :: id in rows && rows[id].key == key && rows[id].status == Sent && rows[id].updated > since
  }

  function PendingIds(rows: Rows): set<Id> {
    set id | id in rows && rows[id].status == Pending
  }

  function Min(a: nat, b: nat): nat { if a < b then a else b }

  /** `ids` are the first `limit` by `rank`; the order among equal ranks is not fixed. */
  ghost predicate FirstBy(ids: seq<Id>, rank: map<Id, real>, limit: nat) {
    && |ids| == Min(limit, |rank|)
    && (forall i :: 0 <= i < |ids| ==> ids[i] in rank)
    && (forall i, j :: 0 <= i < j < |ids| ==> ids[i] != ids[j] && rank[ids[i]] <= rank[ids[j]])
    && (forall id, i :: id in rank && id !in ids && 0 <= i < |ids| ==> rank[ids[i]] <= rank[id])
  }

  function ByAge(rows: Rows): map<Id, real> {
    map id | id in rows :: -rows[id].updated
  }

  /** The history kept: everything pending, and what is among the newest 500. */
  function Pruned(rows: Rows, newest: seq<Id>): Rows {
    map id | id in rows && (rows[id].status == Pending || id in newest) :: rows[id]
  }

  function NewRow(key: Key, url: string, now: real): Row {
    Row(key, url, 0, now, 0.0, Pending, now)
  }

  /** What an accepted or refused `_enqueue` leaves, once it is past the duplicate check. */
  function Inserted(rows: Rows, newest: seq<Id>, id: Id, row: Row): Rows {
    var kept := Pruned(rows, newest);
    if |PendingIds(kept)| >= PENDING_LIMIT then kept else kept[id := row]
  }

  predicate Claimable(rows: Rows, id: Id, now: real) {
    && id in rows && rows[id].status == Pending
    && rows[id].attempts < TRIES && rows[id].due <= now && rows[id].lease <= now
  }

  function Claimed(rows: Rows, id: Id, now: real): Rows
    requires id in rows
  {
    rows[id := rows[id].(lease := now + LEASE_SECONDS, attempts := rows[id].attempts + 1)]
  }

  /** `15 * 2 ** (attempts - 1)`. */
  function Doubling(attempts: nat): (seconds: real)
    ensures seconds >= 15.0
  {
    if attempts <= 1 then 15.0 else 2.0 * Doubling(attempts - 1)
  }

  function Backoff(attempts: nat): real {
    if Doubling(attempts) < 120.0 then Doubling(attempts) else 120.0
  }

  function Verdict(attempts: nat, success: bool, terminal: bool): Status {
    if success then Sent else if terminal || attempts >= TRIES then Exhausted else Pending
  }

  /** The second transaction of `_deliver`: it asks nothing of the row but its id. */
  function WrittenBack(rows: Rows, id: Id, attempts: nat, success: bool, terminal: bool, updated: real, read: real)
    : Rows
  {
    if id !in rows then rows
    else rows[id := rows[id].(attempts := attempts, status := Verdict(attempts, success, terminal),
                              updated := updated, due := read + Backoff(attempts), lease := 0.0)]
  }

  predicate Stuck(row: Row, now: real) {
    row.status == Pending && row.attempts >= TRIES && row.lease <= now
  }

  /** The first statement of `retry_pending`. */
  function Swept(rows: Rows, updated: real, now: real): Rows {
    map id | id in rows :: if Stuck(rows[id], now) then rows[id].(status := Exhausted, updated := updated) else rows[id]
  }

  /** The rows `retry_pending` may take up, by due time. */
  function DueTimes(rows: Rows, now: real, leaseNow: real): map<Id, real> {
    map id | id in rows && rows[id].status == Pending && rows[id].due <= now && rows[id].lease <= leaseNow ::
      rows[id].due
  }

  // ---------- What the transactions mean ----------

  /** An outcome written back: the five tries, and a wait of 15, 30, 60 or 120 seconds. */
  lemma WrittenBackExactly(rows: Rows, id: Id, attempts: nat, success: bool, terminal: bool, updated: real, read: real)
    requires id in rows && 1 <= attempts <= 5
    ensures var row := WrittenBack(rows, id, attempts, success, terminal, updated, read)[id];
            && (row.status == Sent <==> success)
            && (row.status == Exhausted <==> !success && (terminal || attempts == 5))
            && (row.status == Pending <==> !success && !terminal && attempts < 5)
            && row.due == read + [15.0, 30.0, 60.0, 120.0, 120.0][attempts - 1]
            && row.lease == 0.0 && row.updated == updated && row.attempts == attempts
            && row.key == rows[id].key && row.url == rows[id].url
    ensures WrittenBack(rows, id, attempts, success, terminal, updated, read).Keys == rows.Keys
    ensures forall other :: other in rows && other != id ==>
              WrittenBack(rows, id, attempts, success, terminal, updated, read)[other] == rows[other]
  {
    assert Doubling(1) == 15.0 && Doubling(2) == 30.0 && Doubling(3) == 60.0;
    assert Doubling(4) == 2.0 * Doubling(3) && Doubling(5) == 2.0 * Doubling(4);
  }

  /** A sweep ends exactly the rows whose five tries are used up and whose last lease is over. */
  lemma SweptExactly(rows: Rows, updated: real, now: real)
    ensures Swept(rows, updated, now).Keys == rows.Keys
    ensures forall id :: id in rows ==>
              Swept(rows, updated, now)[id] ==
                if rows[id].status == Pending && rows[id].attempts >= 5 && rows[id].lease <= now
                then rows[id].(status := Exhausted, updated := updated) else rows[id]
  {
  }

  /** After a sweep, a retry takes up exactly the rows that can be claimed at that moment. */
  lemma RetryTakesClaimable(rows: Rows, updated: real, now: real, id: Id)
    ensures id in DueTimes(Swept(rows, updated, now), now, now) <==> Claimable(rows, id, now)
    ensures Claimable(rows, id, now) ==>
              DueTimes(Swept(rows, updated, now), now, now)[id] == rows[id].due
              && Claimable(Swept(rows, updated, now), id, now)
  {
  }

  /** Exactly when a row can be claimed, and that the claim holds it for 60 seconds and counts. */
  lemma ClaimExactly(rows: Rows, id: Id, now: real)
    ensures Claimable(rows, id, now) <==>
              id in rows && rows[id].status == Pending && rows[id].attempts <= 4 && now >= rows[id].due
              && now >= rows[id].lease
    ensures id in rows ==>
              Claimed(rows, id, now)
              == rows[id := Row(rows[id].key, rows[id].url, rows[id].attempts + 1, rows[id].due, now + 60.0,
                                rows[id].status, rows[id].updated)]
  {
  }

  /** A prune drops only ended rows, and of these the ones updated longest ago, beyond the newest 500 of all. */
  lemma PrunedExactly(rows: Rows, newest: seq<Id>, id: Id)
    requires FirstBy(newest, ByAge(rows), KEPT_LIMIT) && id in rows
    ensures id in Pruned(rows, newest) ==> Pruned(rows, newest)[id] == rows[id]
    ensures id !in Pruned(rows, newest) ==>
              && rows[id].status != Pending && |newest| == 500
              && forall i :: 0 <= i < |newest| ==> newest[i] in rows && rows[newest[i]].updated >= rows[id].updated
    ensures |rows| <= 500 ==> id in Pruned(rows, newest)
  {
    assert ByAge(rows).Keys == rows.Keys;
    assert |ByAge(rows)| == |ByAge(rows).Keys| && |rows| == |rows.Keys|;
    if id !in newest {
      assert forall i :: 0 <= i < |newest| ==> ByAge(rows)[newest[i]] <= ByAge(rows)[id];
      if |newest| == |rows| {
        AllListed(newest, rows.Keys, id);
      }
    }
  }

  /** Distinct ids, as many as there are, are all of them. */
  lemma AllListed(ids: seq<Id>, all: set<Id>, id: Id)
    requires |ids| == |all| && id in all
    requires forall i :: 0 <= i < |ids| ==> ids[i] in all
    requires forall i, j :: 0 <= i < j < |ids| ==> ids[i] != ids[j]
    ensures id in ids
  {
    if id !in ids {
      FitsIn(ids, all - {id});
    }
  }

  lemma {:induction false} FitsIn(ids: seq<Id>, all: set<Id>)
    requires forall i :: 0 <= i < |ids| ==> ids[i] in all
    requires forall i, j :: 0 <= i < j < |ids| ==> ids[i] != ids[j]
    ensures |ids| <= |all|
  {
    if ids != [] {
      var n := |ids| - 1;
      FitsIn(ids[..n], all - {ids[n]});
    }
  }

  /** A duplicate is a row of that key that is pending, or was sent since. */
  lemma DuplicateExactly(rows: Rows, key: Key, since: real)
    ensures HasPending(rows, key) || SentSince(rows, key, since) <==>
            exists id :: id in rows && rows[id].key == key
                         && (rows[id].status == Pending || (rows[id].status == Sent && rows[id].updated > since))
  {
  }

  /** A row past the duplicate check gets in exactly if fewer than 500 are pending, and is then due at once. */
  lemma InsertedExactly(rows: Rows, newest: seq<Id>, id: Id, key: Key, url: string, now: real)
    requires id !in rows
    ensures id in Inserted(rows, newest, id, NewRow(key, url, now)) <==>
              |set other | other in rows && rows[other].status == Pending| < 500
    ensures id in Inserted(rows, newest, id, NewRow(key, url, now)) ==>
              Inserted(rows, newest, id, NewRow(key, url, now))
              == Pruned(rows, newest)[id := Row(key, url, 0, now, 0.0, Pending, now)]
    ensures forall t :: t >= now && t >= 0.0 && id in Inserted(rows, newest, id, NewRow(key, url, now)) ==>
              Claimable(Inserted(rows, newest, id, NewRow(key, url, now)), id, t)
  {
    assert PendingIds(Pruned(rows, newest)) == set other | other in rows && rows[other].status == Pending;
  }

  // ---------- `ORDER BY rank LIMIT limit` ----------

  method Least(rank: map<Id, real>, rest: set<Id>) returns (least: Id)
    requires rest <= rank.Keys && rest != {}
    ensures least in rest && forall id :: id in rest ==> rank[least] <= rank[id]
  {
    least :| least in rest;
    var left := rest - {least};
    while left != {}
      invariant left <= rest && least in rest
      invariant forall id :: id in rest - left ==> rank[least] <= rank[id]
      decreases |left|
    {
      var id :| id in left;
      left := left - {id};
      if rank[id] < rank[least] {
        least := id;
      }
    }
  }

  method First(rank: map<Id, real>, limit: nat) returns (ids: seq<Id>)
    ensures FirstBy(ids, rank, limit)
  {
    ids := [];
    var rest := rank.Keys;
    while rest != {} && |ids| < limit
      invariant rest <= rank.Keys
      invariant |rest| + |ids| == |rank.Keys| && |ids| <= limit
      invariant forall id :: id in rank ==> (id in ids <==> id !in rest)
      invariant forall i :: 0 <= i < |ids| ==> ids[i] in rank
      invariant forall i, j :: 0 <= i < j < |ids| ==> ids[i] != ids[j] && rank[ids[i]] <= rank[ids[j]]
      invariant forall id, i :: id in rest && 0 <= i < |ids| ==> rank[ids[i]] <= rank[id]
      decreases |rest|
    {
      var id := Least(rank, rest);
      rest := rest - {id};
      ids := ids + [id];
    }
    assert |rank| == |rank.Keys|;
  }

  /** One process's dispatcher over the shared table. */
  class AlertDispatcher {
    var rows: Rows
    var url: string
    const dedupeSeconds: real

    constructor (saved: Rows, webhook: string, dedupe: real)
      ensures rows == saved && url == webhook && dedupeSeconds == dedupe
    {
      rows, url, dedupeSeconds := saved, webhook, dedupe;
    }

    /** `_enqueue`; `id` is the fresh identity. */
    method Enqueue(id: Id, key: Key, now: real, force: bool) returns (outcome: Outcome, ghost newest: seq<Id>)
      requires id !in rows
      modifies `rows
      ensures FirstBy(newest, ByAge(old(rows)), KEPT_LIMIT)
      ensures outcome == NotConfigured <==> url == ""
      ensures outcome == AlreadyQueued ==> !force && HasPending(old(rows), key)
      ensures outcome == Suppressed ==> !force && SentSince(old(rows), key, now - dedupeSeconds)
      ensures outcome == AlreadyQueued || outcome == Suppressed <==>
                url != "" && !force && (HasPending(old(rows), key) || SentSince(old(rows), key, now - dedupeSeconds))
      ensures rows == if outcome == Queued || outcome == Full
                      then Inserted(old(rows), newest, id, NewRow(key, url, now))
                      else old(rows)
      ensures outcome == Queued <==> id in rows
    {
      var kept := First(ByAge(rows), KEPT_LIMIT);
      newest := kept;
      if url == "" {
        return NotConfigured, newest;
      }
      var prior := Prior(key, now - dedupeSeconds);
      if !force && prior.Some? {
        return if prior.value == Pending then AlreadyQueued else Suppressed, newest;
      }
      rows := Pruned(rows, kept);
      if |PendingIds(rows)| >= PENDING_LIMIT {
        return Full, newest;
      }
      rows := rows[id := NewRow(key, url, now)];
      return Queued, newest;
    }

    /** The duplicate query, `LIMIT 1`: any one matching row. */
    method Prior(key: Key, since: real) returns (found: Option<Status>)
      ensures found.None? <==> !HasPending(rows, key) && !SentSince(rows, key, since)
      ensures found.Some? && found.value == Pending ==> HasPending(rows, key)
      ensures found.Some? && found.value != Pending ==> SentSince(rows, key, since)
    {
      var rest := rows.Keys;
      while rest != {}
        invariant rest <= rows.Keys
        invariant forall id :: id in rows && id !in rest ==>
                    !(rows[id].key == key
                      && (rows[id].status == Pending || (rows[id].status == Sent && rows[id].updated > since)))
        decreases |rest|
      {
        var id :| id in rest;
        rest := rest - {id};
        var row := rows[id];
        if row.key == key && (row.status == Pending || (row.status == Sent && row.updated > since)) {
          return Some(row.status);
        }
      }
      return None;
    }

    /** The first transaction of `_deliver`. */
    method Claim(id: Id, now: real) returns (claimed: bool)
      modifies `rows
      ensures claimed == Claimable(old(rows), id, now)
      ensures rows == if claimed then Claimed(old(rows), id, now) else old(rows)
    {
      claimed := Claimable(rows, id, now);
      if claimed {
        rows := Claimed(rows, id, now);
      }
    }

    /** `_deliver` with no other process between its transactions; `posted` is the webhook's answer. */
    method Deliver(id: Id, now: real, posted: bool, updated: real, read: real) returns (success: bool)
      modifies `rows
      ensures !Claimable(old(rows), id, now) ==> !success && rows == old(rows)
      ensures Claimable(old(rows), id, now) ==>
                && success == (posted && old(rows)[id].url == url)
                && rows == WrittenBack(Claimed(old(rows), id, now), id, old(rows)[id].attempts + 1, success,
                                       old(rows)[id].url != url, updated, read)
    {
      var claimed := Claim(id, now);
      if !claimed {
        return false;
      }
      var row := rows[id];
      var terminal := row.url != url;
      success := !terminal && posted;
      var state := if success then Sent else if terminal || row.attempts >= TRIES then Exhausted else Pending;
      rows := rows[id := row.(status := state, updated := updated, due := read + Backoff(row.attempts), lease := 0.0)];
    }

    /** `retry_pending` up to its deliveries: the sweep, and the ids it takes up, earliest due first. */
    method RetryPending(limit: nat, updated: real, sweepNow: real, dueNow: real, leaseNow: real) returns (ids: seq<Id>)
      modifies `rows
      ensures rows == Swept(old(rows), updated, sweepNow)
      ensures FirstBy(ids, DueTimes(rows, dueNow, leaseNow), limit)
    {
      rows := Swept(rows, updated, sweepNow);
      ids := First(DueTimes(rows, dueNow, leaseNow), limit);
    }
  }
}
