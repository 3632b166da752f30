/** The request limiter: `bell/web/__init__.py:113-129`. Times are the monotonic clock, in seconds. */
module RateLimiting {
  /** Elements of `times` in the half-open window (after, upTo]. */
  function CountIn(times: seq<real>, after: real, upTo: real): nat {
    if times == [] then 0
    else CountIn(times[..|times| - 1], after, upTo)
         + if after < times[|times| - 1] <= upTo then 1 else 0
  }

  /** The simple rule over the whole history of accepted requests: fewer than `limit` in the last window. */
  predicate MayPass(accepted: seq<real>, now: real, limit: int, window: real) {
    CountIn(accepted, now - window, now) < limit
  }

  function With(times: seq<real>, allowed: bool, now: real): seq<real> {
    if allowed then times + [now] else times
  }

  /** A request of one identity: the reading of the clock, and the limit then in force. */
  datatype Request = Request(now: real, limit: int)

  /** What the simple rule accepts of a run of requests. */
  function AcceptedOf(run: seq<Request>, window: real): seq<real> {
    if run == [] then []
    else
      var before, r := AcceptedOf(run[..|run| - 1], window), run[|run| - 1];
      With(before, MayPass(before, r.now, r.limit, window), r.now)
  }

  /** What the loop leaves of a deque: the first element after `after` and all behind it. */
  function DropOld(deque: seq<real>, after: real): seq<real> {
    if deque == [] || deque[0] > after then deque else DropOld(deque[1..], after)
  }

  /** The answer to a request: the pruned deque is shorter than the limit. */
  predicate Lets(deque: seq<real>, r: Request, window: real) {
    |DropOld(deque, r.now - window)| < r.limit
  }

  /** The deque after a run of requests, from the empty one. */
  function DequeOf(run: seq<Request>, window: real): seq<real> {
    if run == [] then []
    else
      var before, r := DequeOf(run[..|run| - 1], window), run[|run| - 1];
      With(DropOld(before, r.now - window), Lets(before, r, window), r.now)
  }

  /** All that the deque ever let pass of a run of requests. */
  function LetPass(run: seq<Request>, window: real): seq<real> {
    if run == [] then []
    else
      var before, r := run[..|run| - 1], run[|run| - 1];
      With(LetPass(before, window), Lets(DequeOf(before, window), r, window), r.now)
  }

  /** No reading came after a later one. */
  predicate InOrder(run: seq<Request>) {
    forall i, j :: 0 <= i < j < |run| ==> run[i].now <= run[j].now
  }

  /** After this run the deque answers `r` as the simple rule over all it ever let pass. */
  predicate Agrees(run: seq<Request>, r: Request, window: real) {
    Lets(DequeOf(run, window), r, window) <==> MayPass(LetPass(run, window), r.now, r.limit, window)
  }

  predicate NonDecreasing(times: seq<real>) {
    forall i, j :: 0 <= i < j < |times| ==> times[i] <= times[j]
  }

  lemma {:induction false} CountWider(times: seq<real>, a: real, b: real, c: real, d: real)
    requires c <= a && forall i :: 0 <= i < |times| ==> times[i] <= d
    ensures CountIn(times, a, b) <= CountIn(times, c, d)
  {
    if times != [] {
      CountWider(times[..|times| - 1], a, b, c, d);
    }
  }

  /** A window holds no more than the largest limit in force, under the simple rule. */
  lemma {:induction false} RuleBoundsWindow(run: seq<Request>, most: nat, window: real, start: real)
    requires InOrder(run) && forall i :: 0 <= i < |run| ==> run[i].limit <= most
    ensures CountIn(AcceptedOf(run, window), start, start + window) <= most
  {
    if run != [] {
      var before, r := run[..|run| - 1], run[|run| - 1];
      var accepted := AcceptedOf(before, window);
      RuleBoundsWindow(before, most, window, start);
      AcceptedBefore(before, r.now, window);
      assert (accepted + [r.now])[..|accepted|] == accepted;
      if MayPass(accepted, r.now, r.limit, window) && start < r.now <= start + window {
        CountWider(accepted, start, start + window, r.now - window, r.now);
      }
    }
  }

  lemma {:induction false} AcceptedBefore(run: seq<Request>, clock: real, window: real)
    requires forall i :: 0 <= i < |run| ==> run[i].now <= clock
    ensures forall i :: 0 <= i < |AcceptedOf(run, window)| ==> AcceptedOf(run, window)[i] <= clock
  {
    if run != [] {
      AcceptedBefore(run[..|run| - 1], clock, window);
    }
  }

  lemma {:induction false} CountAll(times: seq<real>, after: real, upTo: real)
    requires forall i :: 0 <= i < |times| ==> after < times[i] <= upTo
    ensures CountIn(times, after, upTo) == |times|
  {
    if times != [] {
      CountAll(times[..|times| - 1], after, upTo);
    }
  }

  lemma {:induction false} CountSplit(times: seq<real>, p: nat, after: real, upTo: real)
    requires p <= |times| && forall i :: 0 <= i < p ==> times[i] <= after
    ensures CountIn(times, after, upTo) == CountIn(times[p..], after, upTo)
  {
    if p == |times| {
      if p > 0 {
        CountSplit(times[..p - 1], p - 1, after, upTo);
        assert times[..p - 1][p - 1..] == [];
      }
      assert times[p..] == [];
    } else {
      var n := |times| - 1;
      CountSplit(times[..n], p, after, upTo);
      assert times[p..][..n - p] == times[..n][p..];
    }
  }

  /** The deque is the history, in order and not from the future, without a prefix that has left the window for good. */
  ghost predicate Pruned(held: seq<real>, all: seq<real>, clock: real, window: real) {
    && NonDecreasing(all)
    && (forall i :: 0 <= i < |all| ==> all[i] <= clock)
    && |held| <= |all|
    && held == all[|all| - |held|..]
    && (forall i :: 0 <= i < |all| - |held| ==> all[i] <= clock - window)
  }

  lemma PrunedLater(held: seq<real>, all: seq<real>, clock: real, later: real, window: real)
    requires Pruned(held, all, clock, window) && clock <= later
    ensures Pruned(held, all, later, window)
  {
  }

  lemma PrunedFront(held: seq<real>, all: seq<real>, clock: real, window: real)
    requires Pruned(held, all, clock, window) && held != [] && held[0] <= clock - window
    ensures Pruned(held[1..], all, clock, window)
  {
    assert held[0] == all[|all| - |held|];
    assert held[1..] == all[|all| - |held| + 1..];
  }

  lemma PrunedAppend(held: seq<real>, all: seq<real>, now: real, window: real)
    requires Pruned(held, all, now, window)
    ensures Pruned(held + [now], all + [now], now, window)
  {
    assert held + [now] == (all + [now])[|all| - |held|..];
  }

  /** While time has only gone forward, what is left is exactly the accepted requests of the window. */
  lemma {:induction false} DropOldCounts(deque: seq<real>, all: seq<real>, clock: real, now: real, window: real)
    requires Pruned(deque, all, clock, window) && clock <= now
    ensures Pruned(DropOld(deque, now - window), all, now, window)
    ensures |DropOld(deque, now - window)| == CountIn(all, now - window, now)
    decreases |deque|
  {
    PrunedLater(deque, all, clock, now, window);
    if deque != [] && deque[0] <= now - window {
      PrunedFront(deque, all, now, window);
      DropOldCounts(deque[1..], all, now, now, window);
    } else {
      CountSplit(all, |all| - |deque|, now - window, now);
      CountAll(deque, now - window, now);
    }
  }

  /** A pruned history answers as the whole of it, and stays pruned. */
  lemma PrunedAnswers(deque: seq<real>, all: seq<real>, r: Request, window: real)
    requires Pruned(deque, all, r.now, window)
    ensures Lets(deque, r, window) <==> MayPass(all, r.now, r.limit, window)
    ensures Pruned(With(DropOld(deque, r.now - window), Lets(deque, r, window), r.now),
                   With(all, Lets(deque, r, window), r.now), r.now, window)
  {
    hide Pruned, CountIn, DropOld;
    DropOldCounts(deque, all, r.now, r.now, window);
    PrunedAppend(DropOld(deque, r.now - window), all, r.now, window);
  }

  /** Over a run in order the deque is the history, pruned. */
  lemma {:induction false} RunIsPruned(run: seq<Request>, clock: real, window: real)
    requires InOrder(run) && forall i :: 0 <= i < |run| ==> run[i].now <= clock
    ensures Pruned(DequeOf(run, window), LetPass(run, window), clock, window)
  {
    if run != [] {
      var before, r := run[..|run| - 1], run[|run| - 1];
      RunIsPruned(before, r.now, window);
      PrunedAnswers(DequeOf(before, window), LetPass(before, window), r, window);
      PrunedLater(DequeOf(run, window), LetPass(run, window), r.now, clock, window);
    }
  }

  /** A reading that is not late is answered as by the simple rule. */
  lemma InOrderAgrees(run: seq<Request>, r: Request, window: real)
    requires InOrder(run) && forall i :: 0 <= i < |run| ==> run[i].now <= r.now
    ensures Agrees(run, r, window)
  {
    RunIsPruned(run, r.now, window);
    PrunedAnswers(DequeOf(run, window), LetPass(run, window), r, window);
  }

  lemma OneMore(run: seq<Request>, r: Request, window: real)
    ensures var held, allowed := DropOld(DequeOf(run, window), r.now - window), Lets(DequeOf(run, window), r, window);
            && DequeOf(run + [r], window) == With(held, allowed, r.now)
            && LetPass(run + [r], window) == With(LetPass(run, window), allowed, r.now)
    ensures InOrder(run + [r]) ==> Agrees(run, r, window)
  {
    var all := run + [r];
    assert all[..|run|] == run;
    if InOrder(all) {
      assert forall i :: 0 <= i < |run| ==> all[i] == run[i];
      assert all[|run|] == r;
      InOrderAgrees(run, r, window);
    }
  }

  /** The deque refines the simple rule: over a run in order both let the same requests pass. */
  lemma {:induction false} DequeIsTheRule(run: seq<Request>, window: real)
    requires InOrder(run)
    ensures LetPass(run, window) == AcceptedOf(run, window)
  {
    if run != [] {
      var before, r := run[..|run| - 1], run[|run| - 1];
      DequeIsTheRule(before, window);
      InOrderAgrees(before, r, window);
    }
  }

  /** Over a run in order no half-open window holds more accepted requests than the largest limit in force. */
  lemma EveryWindowBounded(run: seq<Request>, most: nat, window: real, start: real)
    requires InOrder(run) && forall i :: 0 <= i < |run| ==> run[i].limit <= most
    ensures CountIn(LetPass(run, window), start, start + window) <= most
  {
    RuleBoundsWindow(run, most, window, start);
    DequeIsTheRule(run, window);
  }

  predicate EndsAt(run: seq<Request>, latest: real) {
    run != [] && InOrder(run) && run[|run| - 1].now == latest
  }

  /**
   * The clock is read before the lock, so a reading may come after a later one. After every run that ends at `latest`,
   * and whatever the limits, a request read at `now` is answered as by the simple rule if and only if it is not late.
   */
  lemma AgreesExactlyWhen(latest: real, now: real, window: real)
    requires window > 0.0
    ensures (forall run, limit :: EndsAt(run, latest) ==> Agrees(run, Request(now, limit), window)) <==> latest <= now
  {
    if latest <= now {
      forall run, limit | EndsAt(run, latest) ensures Agrees(run, Request(now, limit), window) {
        InOrderAgrees(run, Request(now, limit), window);
      }
    } else if latest - now <= window {
      LateAndLetPass(latest, now, window);
    } else {
      LateAndRefused(latest, now, window);
    }
  }

  lemma OneRequest(r: Request, window: real)
    requires r.limit > 0
    ensures DequeOf([r], window) == [r.now] && LetPass([r], window) == [r.now]
  {
    assert [r][..0] == [];
  }

  lemma TwoRequests(r: Request, window: real)
    requires r.limit > 1 && window > 0.0
    ensures DequeOf([r, r], window) == [r.now, r.now] == LetPass([r, r], window)
  {
    OneRequest(r, window);
    assert [r, r][..1] == [r];
    assert DropOld([r.now], r.now - window) == [r.now];
  }

  /** A little late: two requests that `latest` has pruned are still in the window of `now`, and a third passes. */
  lemma LateAndLetPass(latest: real, now: real, window: real)
    requires now < latest <= now + window && window > 0.0
    ensures var early := Request(latest - window, 2);
            var run := [early, early, Request(latest, 2)];
            EndsAt(run, latest) && !Agrees(run, Request(now, 2), window)
  {
    var early, late := Request(latest - window, 2), Request(latest, 2);
    var run, e := [early, early, late], early.now;
    TwoRequests(early, window);
    assert run[..2] == [early, early];
    assert DropOld([e, e], e) == DropOld([e], e) == DropOld([], e) == [];
    assert DequeOf(run, window) == [latest] && LetPass(run, window) == [e, e, latest];
    CountTwo(e, latest, now - window, now);
  }

  lemma CountTwo(early: real, late: real, after: real, upTo: real)
    requires after < early <= upTo
    ensures CountIn([early, early, late], after, upTo) >= 2
  {
    var times := [early, early, late];
    assert times[..2] == [early, early] && [early, early][..1] == [early] && [early][..0] == [];
    assert CountIn([early], after, upTo) == 1;
    assert CountIn([early, early], after, upTo) == 2;
  }

  /** Later than a window: the deque holds only what is not in the window of `now`, and refuses. */
  lemma LateAndRefused(latest: real, now: real, window: real)
    requires now + window < latest && window > 0.0
    ensures EndsAt([Request(latest, 1)], latest) && !Agrees([Request(latest, 1)], Request(now, 1), window)
  {
    OneRequest(Request(latest, 1), window);
    assert CountIn([latest], now - window, now) == 0 by { assert [latest][..0] == []; }
  }

  class RateLimiter<Identity(==, !new)> {
    var limit: int
    const windowSeconds: real
    var requests: map<Identity, seq<real>>
    ghost var runs: map<Identity, seq<Request>>   // every request, in the order in which they took the lock

    function Held(identity: Identity): seq<real>
      reads this
    {
      if identity in requests then requests[identity] else []
    }

    ghost function Run(identity: Identity): seq<Request>
      reads this
    {
      if identity in runs then runs[identity] else []
    }

    ghost predicate Valid()
      reads this
    {
      forall identity :: Held(identity) == DequeOf(Run(identity), windowSeconds)
    }

    constructor (limit: int, windowSeconds: real)
      ensures Valid() && this.limit == limit && this.windowSeconds == windowSeconds && runs == map[]
    {
      this.limit, this.windowSeconds, requests, runs := limit, windowSeconds, map[], map[];
    }

    /**
     * `allow`: prunes the deque from the front, then decides by its length; no other identity is touched. A request
     * that is not late is decided by the simple rule over all this identity was ever allowed.
     */
    method Allow(identity: Identity, now: real) returns (allowed: bool)
      requires Valid()
      modifies this`requests, this`runs
      ensures Valid() && runs == old(runs)[identity := old(Run(identity)) + [Request(now, limit)]]
      ensures LetPass(Run(identity), windowSeconds) == With(LetPass(old(Run(identity)), windowSeconds), allowed, now)
      ensures InOrder(Run(identity)) ==>
                (allowed <==> MayPass(LetPass(old(Run(identity)), windowSeconds), now, limit, windowSeconds))
      ensures forall other :: other != identity ==> Held(other) == old(Held(other))
    {
      hide DropOld, DequeOf, LetPass, MayPass;
      ghost var run, r := Run(identity), Request(now, limit);
      OneMore(run, r, windowSeconds);
      var held;
      allowed, held := Answer(Held(identity), now);
      requests, runs := requests[identity := held], runs[identity := run + [r]];
      forall other | other != identity ensures Held(other) == old(Held(other)) && Run(other) == old(Run(other)) {
        assert other in requests <==> other in old(requests);
      }
    }

    method Answer(deque: seq<real>, now: real) returns (allowed: bool, held: seq<real>)
      ensures allowed <==> Lets(deque, Request(now, limit), windowSeconds)
      ensures held == With(DropOld(deque, now - windowSeconds), allowed, now)
    {
      held := Prune(deque, now);
      allowed := |held| < limit;
      if allowed {
        held := held + [now];
      }
    }

    /** Drops from the front what has left the window. */
    method Prune(deque: seq<real>, now: real) returns (held: seq<real>)
      ensures held == DropOld(deque, now - windowSeconds)
    {
      held := deque;
      while held != [] && held[0] <= now - windowSeconds
        invariant DropOld(held, now - windowSeconds) == DropOld(deque, now - windowSeconds)
        decreases |held|
      {
        held := held[1..];
      }
    }
  }
}
