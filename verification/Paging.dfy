/**
 * Page arbitration: `bell/paging.py:25-105`. The critical sections under the condition's lock are the atomic steps;
 * `wait` gives the lock up, so an acquire is one `Enter` section and any number of `Resume` sections.
 */
module Paging {
  import opened Wrappers

  datatype Policy = Skip | Queue | Preempt

  type Token = nat

  datatype ActivePage = ActivePage(token: Token, priority: int)

  datatype Outcome = Acquired(token: Token) | Busy | TimedOut | Waits

  // ---------- The sections, as functions of the coordinator's fields ----------

  /** The fields: the active page, the tokens whose cancel event is set, and the next unused random token. */
  datatype Slot = Slot(active: Option<ActivePage>, cancelled: set<Token>, nextToken: Token)

  /** Whether a request may wait for this page instead of being turned away. */
  predicate MayWait(policy: Policy, priority: int, page: ActivePage) {
    policy == Queue || (policy == Preempt && priority > page.priority)
  }

  /** One pass of the loop of lines 85-99. */
  function Attempt(slot: Slot, priority: int, policy: Policy, now: real, deadline: real): (Slot, Outcome) {
    if slot.active.None? then
      (slot.(active := Some(ActivePage(slot.nextToken, priority)), nextToken := slot.nextToken + 1),
       Acquired(slot.nextToken))
    else if !MayWait(policy, priority, slot.active.value) then (slot, Busy)
    else if deadline <= now then (slot, TimedOut)
    else (slot, Waits)
  }

  predicate Preempts(slot: Slot, priority: int, policy: Policy) {
    slot.active.Some? && policy == Preempt && priority > slot.active.value.priority
  }

  /** Lines 69-99 up to the first wait or return: only here is the active page asked to stop. */
  function EnterSlot(slot: Slot, priority: int, policy: Policy, now: real, deadline: real): (Slot, Outcome) {
    var asked := if Preempts(slot, priority, policy)
                 then slot.(cancelled := slot.cancelled + {slot.active.value.token}) else slot;
    Attempt(asked, priority, policy, now, deadline)
  }

  function FreeSlot(slot: Slot, token: Token): Slot {
    if slot.active.Some? && slot.active.value.token == token then slot.(active := None) else slot
  }

  function CancelSlot(slot: Slot): Slot {
    if slot.active.None? then slot else slot.(cancelled := slot.cancelled + {slot.active.value.token})
  }

  // ---------- The object ----------

  class PageCoordinator {
    var active: Option<ActivePage>
    var cancelled: set<Token>
    var nextToken: Token
    const queueTimeoutSeconds: real

    constructor (queueTimeoutSeconds: real)
      ensures Fields() == Slot(None, {}, 0) && this.queueTimeoutSeconds == queueTimeoutSeconds
    {
      this.queueTimeoutSeconds := queueTimeoutSeconds;
      active, cancelled, nextToken := None, {}, 0;
    }

    function Fields(): Slot
      reads this
    {
      Slot(active, cancelled, nextToken)
    }

    /** `_acquire` up to its first wait or return. */
    method Enter(priority: int, policy: Policy, now: real) returns (deadline: real, outcome: Outcome)
      modifies this
      ensures deadline == now + queueTimeoutSeconds
      ensures (Fields(), outcome) == EnterSlot(old(Fields()), priority, policy, now, deadline)
    {
      deadline := now + queueTimeoutSeconds;
      if active.Some? && policy == Preempt && priority > active.value.priority {
        cancelled := cancelled + {active.value.token};
      }
      outcome := Resume(priority, policy, now, deadline);
    }

    /** `_acquire` from a return of `wait` to the next wait or return. */
    method Resume(priority: int, policy: Policy, now: real, deadline: real) returns (outcome: Outcome)
      modifies this
      ensures (Fields(), outcome) == Attempt(old(Fields()), priority, policy, now, deadline)
    {
      if active.Some? {
        if policy == Skip || (policy == Preempt && priority <= active.value.priority) {
          return Busy;
        }
        var remaining := deadline - now;
        if remaining <= 0.0 {
          return TimedOut;
        }
        return Waits;
      }
      var token := nextToken;
      nextToken := nextToken + 1;
      active := Some(ActivePage(token, priority));
      return Acquired(token);
    }

    method Release(token: Token)
      modifies this
      ensures Fields() == FreeSlot(old(Fields()), token)
    {
      if active.Some? && active.value.token == token {
        active := None;
      }
    }

    method CancelActive() returns (requested: bool)
      modifies this
      ensures requested == old(active.Some?)
      ensures Fields() == CancelSlot(old(Fields()))
    {
      if active.None? {
        return false;
      }
      cancelled := cancelled + {active.value.token};
      return true;
    }
  }

  // ---------- All interleavings ----------

  /** What a request saw on arrival: the time, the page it asked to stop, the log so far and the next new token. */
  datatype Arrival = Arrival(now: real, asked: Option<Token>, logged: nat, nextToken: Token)

  datatype Request =
    | Waiting(priority: int, policy: Policy, deadline: real, notified: bool, arrival: Arrival)
    | Holding(token: Token)
    | Released(token: Token)
    | TurnedAway

  datatype Cause = ByOperator | ByPreemption(priority: int)

  /** One cancel event being set: which page, its priority, and why. */
  datatype Cancellation = Cancellation(token: Token, priority: int, cause: Cause)

  datatype World = World(slot: Slot, now: real, timeout: real, requests: map<nat, Request>, log: seq<Cancellation>)

  datatype Action =
    | Arrive(id: nat, priority: int, policy: Policy)
    | Wake(id: nat)          // notified, timed out or spurious: the waiter runs its loop again
    | Leave(id: nat)         // the end of a `with lease` block, or a repeated release
    | Cancel                 // `cancel_active`
    | Tick(now: real)

  function Settle(outcome: Outcome, priority: int, policy: Policy, deadline: real, arrival: Arrival): Request {
    match outcome
    case Acquired(token) => Holding(token)
    case Waits => Waiting(priority, policy, deadline, false, arrival)
    case _ => TurnedAway
  }

  function NotifyAll(requests: map<nat, Request>): map<nat, Request> {
    map id | id in requests ::
      var r := requests[id];
      if r.Waiting? then r.(notified := true) else r
  }

  predicate Enabled(w: World, a: Action) {
    match a
    case Arrive(id, _, _) => id !in w.requests
    case Wake(id) => id in w.requests && w.requests[id].Waiting?
    case Leave(id) => id in w.requests && (w.requests[id].Holding? || w.requests[id].Released?)
    case Cancel => true
    case Tick(now) => w.now <= now
  }

  function Step(w: World, a: Action): World
    requires Enabled(w, a)
  {
    match a
    case Arrive(id, priority, policy) =>
      var deadline := w.now + w.timeout;
      var (slot, outcome) := EnterSlot(w.slot, priority, policy, w.now, deadline);
      var log := if Preempts(w.slot, priority, policy)
                 then w.log + [Cancellation(w.slot.active.value.token, w.slot.active.value.priority,
                                            ByPreemption(priority))]
                 else w.log;
      var asked := if Preempts(w.slot, priority, policy) then Some(w.slot.active.value.token) else None;
      var arrival := Arrival(w.now, asked, |log|, w.slot.nextToken);
      w.(slot := slot, log := log, requests := w.requests[id := Settle(outcome, priority, policy, deadline, arrival)])
    case Wake(id) =>
      var r := w.requests[id];
      var (slot, outcome) := Attempt(w.slot, r.priority, r.policy, w.now, r.deadline);
      w.(slot := slot, requests := w.requests[id := Settle(outcome, r.priority, r.policy, r.deadline, r.arrival)])
    case Leave(id) =>
      var token := w.requests[id].token;
      var slot := FreeSlot(w.slot, token);
      var requests := w.requests[id := Released(token)];
      w.(slot := slot, requests := if slot.active != w.slot.active then NotifyAll(requests) else requests)
    case Cancel =>
      var log := if w.slot.active.Some?
                 then w.log + [Cancellation(w.slot.active.value.token, w.slot.active.value.priority, ByOperator)]
                 else w.log;
      w.(slot := CancelSlot(w.slot), log := log)
    case Tick(now) => w.(now := now)
  }

  /** Every run: an action that is not enabled does not happen. */
  function Run(w: World, actions: seq<Action>): World {
    if actions == [] then w
    else
      var before := Run(w, actions[..|actions| - 1]);
      var a := actions[|actions| - 1];
      if Enabled(before, a) then Step(before, a) else before
  }

  function Start(timeout: real): World {
    World(Slot(None, {}, 0), 0.0, timeout, map[], [])
  }

  // ---------- What holds in every reachable world ----------

  /** At most one lease is held, and it is the active page. */
  ghost predicate OneHolder(w: World) {
    && (forall id :: id in w.requests && w.requests[id].Holding? ==>
          w.slot.active.Some? && w.slot.active.value.token == w.requests[id].token)
    && (forall i, j :: i in w.requests && j in w.requests && w.requests[i].Holding? && w.requests[j].Holding? ==>
          i == j)
    && (w.slot.active.Some? ==> exists id :: id in w.requests && w.requests[id] == Holding(w.slot.active.value.token))
  }

  /** Tokens are used once. */
  ghost predicate TokensUsedOnce(w: World) {
    && (w.slot.active.Some? ==> w.slot.active.value.token < w.slot.nextToken)
    && (forall id :: id in w.requests && w.requests[id].Released? ==>
          && w.requests[id].token < w.slot.nextToken
          && (w.slot.active.Some? ==> w.slot.active.value.token != w.requests[id].token))
  }

  /** A cancel event is set exactly when the log says so, and preemption always came from a strictly higher priority. */
  ghost predicate CancelsJustified(w: World) {
    && (forall t :: t in w.slot.cancelled <==> exists i :: 0 <= i < |w.log| && w.log[i].token == t)
    && (forall i :: 0 <= i < |w.log| ==>
          w.log[i].cause.ByPreemption? ==> w.log[i].cause.priority > w.log[i].priority)
  }

  /**
   * Nobody waits in vain: a waiter that has not been notified waits for the page that is active now and may wait for
   * it, so a free slot leaves no sleeper behind; and its deadline is its arrival and the timeout.
   */
  ghost predicate WaitersServed(w: World) {
    forall id :: id in w.requests && w.requests[id].Waiting? ==>
                   var r := w.requests[id];
                   && r.policy != Skip
                   && r.arrival.now <= w.now && r.deadline == r.arrival.now + w.timeout
                   && (r.notified || (w.slot.active.Some? && MayWait(r.policy, r.priority, w.slot.active.value)))
  }

  /** A waiting preemptor asked the page it met; the page active now is that one, or took the slot since. */
  ghost predicate Remembers(w: World, r: Request)
    requires r.Waiting?
  {
    && r.arrival.asked.Some? && r.arrival.asked.value < r.arrival.nextToken <= w.slot.nextToken
    && r.arrival.asked.value in w.slot.cancelled && r.arrival.logged <= |w.log|
    && (forall i :: 0 <= i < r.arrival.logged ==> w.log[i].token < r.arrival.nextToken)
    && (w.slot.active.Some? ==>
          w.slot.active.value.token == r.arrival.asked.value || w.slot.active.value.token >= r.arrival.nextToken)
  }

  ghost predicate PreemptorsRemember(w: World) {
    && (forall i :: 0 <= i < |w.log| ==> w.log[i].token < w.slot.nextToken)
    && (forall id :: id in w.requests && w.requests[id].Waiting? && w.requests[id].policy == Preempt ==>
          Remembers(w, w.requests[id]))
  }

  ghost predicate Safe(w: World) {
    OneHolder(w) && TokensUsedOnce(w) && CancelsJustified(w) && WaitersServed(w) && PreemptorsRemember(w)
  }

  lemma StepKeepsHolder(w: World, a: Action)
    requires Safe(w) && Enabled(w, a)
    ensures OneHolder(Step(w, a)) && TokensUsedOnce(Step(w, a))
  {
    var v := Step(w, a);
    if v.slot.active.Some? {
      if w.slot.active == v.slot.active {
        var id :| id in w.requests && w.requests[id] == Holding(w.slot.active.value.token);
        assert v.requests[id] == Holding(v.slot.active.value.token);
      } else {
        assert a.Arrive? || a.Wake?;
        assert v.requests[a.id] == Holding(v.slot.active.value.token);
      }
    }
  }

  lemma LogGrows(w: World, v: World, c: Cancellation)
    requires CancelsJustified(w) && v.log == w.log + [c] && v.slot.cancelled == w.slot.cancelled + {c.token}
    requires c.cause.ByPreemption? ==> c.cause.priority > c.priority
    ensures CancelsJustified(v)
  {
    forall t ensures t in v.slot.cancelled <==> exists i :: 0 <= i < |v.log| && v.log[i].token == t {
      if t in w.slot.cancelled {
        var i :| 0 <= i < |w.log| && w.log[i].token == t;
        assert v.log[i].token == t;
      }
      assert v.log[|w.log|].token == c.token;
    }
  }

  lemma StepKeepsCancels(w: World, a: Action)
    requires Safe(w) && Enabled(w, a)
    ensures CancelsJustified(Step(w, a))
  {
    var v := Step(w, a);
    if v.log != w.log {
      LogGrows(w, v, v.log[|w.log|]);
    }
  }

  lemma StepKeepsWaiters(w: World, a: Action)
    requires Safe(w) && Enabled(w, a)
    ensures WaitersServed(Step(w, a))
  {
  }

  /** Tokens only grow, so an entry or a page that comes later never has an old token. */
  lemma StillRemembers(w: World, a: Action, r: Request)
    requires Safe(w) && Enabled(w, a) && r.Waiting? && Remembers(w, r)
    ensures Remembers(Step(w, a), r)
  {
  }

  lemma NewcomerRemembers(w: World, a: Action)
    requires Safe(w) && Enabled(w, a) && a.Arrive? && a.policy == Preempt && Step(w, a).requests[a.id].Waiting?
    ensures Remembers(Step(w, a), Step(w, a).requests[a.id])
  {
  }

  /** A request that still waits is one that waited before, or has just arrived. */
  lemma WaitersComeFrom(w: World, a: Action, id: nat)
    requires Enabled(w, a) && id in Step(w, a).requests && Step(w, a).requests[id].Waiting?
    ensures || (a.Arrive? && a.id == id && Step(w, a).requests[id].policy == a.policy)
            || (id in w.requests && w.requests[id].Waiting?
                && Step(w, a).requests[id] == w.requests[id].(notified := Step(w, a).requests[id].notified))
  {
  }

  lemma StepKeepsMemory(w: World, a: Action)
    requires Safe(w) && Enabled(w, a)
    ensures PreemptorsRemember(Step(w, a))
  {
    var v := Step(w, a);
    forall id | id in v.requests && v.requests[id].Waiting? && v.requests[id].policy == Preempt
      ensures Remembers(v, v.requests[id])
    {
      WaitersComeFrom(w, a, id);
      if a.Arrive? && a.id == id {
        NewcomerRemembers(w, a);
      } else {
        StillRemembers(w, a, w.requests[id]);
      }
    }
  }

  /** Safety over every run of any number of requests. */
  lemma {:induction false} EveryRunIsSafe(timeout: real, actions: seq<Action>)
    ensures Safe(Run(Start(timeout), actions)) && Run(Start(timeout), actions).timeout == timeout
  {
    if actions == [] {
    } else {
      EveryRunIsSafe(timeout, actions[..|actions| - 1]);
      var w := Run(Start(timeout), actions[..|actions| - 1]);
      var a := actions[|actions| - 1];
      if Enabled(w, a) {
        StepKeepsHolder(w, a);
        StepKeepsCancels(w, a);
        StepKeepsWaiters(w, a);
        StepKeepsMemory(w, a);
      }
    }
  }

  // ---------- What single steps can and cannot do ----------

  /** A release with an old token frees nobody. */
  lemma StaleReleaseIsHarmless(w: World, id: nat)
    requires Safe(w) && Enabled(w, Leave(id)) && w.requests[id].Released?
    ensures Step(w, Leave(id)) == w
  {
    assert w.requests[id := w.requests[id]] == w.requests;
  }

  /** A cancel event becomes set only by the operator or by a preempting arrival of strictly higher priority. */
  lemma OnlyTheseCancel(w: World, a: Action, token: Token)
    requires Enabled(w, a) && token in Step(w, a).slot.cancelled && token !in w.slot.cancelled
    ensures w.slot.active.Some? && token == w.slot.active.value.token
    ensures a == Cancel || (a.Arrive? && a.policy == Preempt && a.priority > w.slot.active.value.priority)
  {
  }

  /** Skip callers and preemptors of no higher priority never wait; a request at its deadline is answered. */
  lemma WhoMayWait(w: World, a: Action)
    requires Safe(w) && Enabled(w, a) && (a.Arrive? || a.Wake?)
    requires Step(w, a).requests[a.id].Waiting?
    ensures var r := Step(w, a).requests[a.id];
            && w.slot.active.Some? && MayWait(r.policy, r.priority, w.slot.active.value)
            && w.now < r.deadline
  {
  }

  /** What a section decides on: the priority, the policy and the deadline of its request. */
  function Asks(w: World, a: Action): (int, Policy, real)
    requires Enabled(w, a) && (a.Arrive? || a.Wake?)
  {
    match a
    case Arrive(_, priority, policy) => (priority, policy, w.now + w.timeout)
    case Wake(id) => (w.requests[id].priority, w.requests[id].policy, w.requests[id].deadline)
  }

  /** A request that finds the slot free gets it, with a new token and a clear cancel event, at its own priority. */
  lemma FreeSlotIsTaken(w: World, a: Action)
    requires Safe(w) && Enabled(w, a) && (a.Arrive? || a.Wake?) && w.slot.active.None?
    ensures var v := Step(w, a);
            && v.requests[a.id].Holding?
            && var token := v.requests[a.id].token;
            && v.slot.active == Some(ActivePage(token, Asks(w, a).0)) && token !in v.slot.cancelled
            && forall id :: id in w.requests && (w.requests[id].Holding? || w.requests[id].Released?) ==>
                 w.requests[id].token != token
  {
    assert w.slot.nextToken !in w.slot.cancelled;
  }

  /**
   * Exactly how a request that finds a page is answered: it is turned away if it skips, or preempts at no higher
   * priority, or is at its deadline; otherwise it waits. Either way the page stays.
   */
  lemma BusySlotExactly(w: World, a: Action)
    requires Safe(w) && Enabled(w, a) && (a.Arrive? || a.Wake?) && w.slot.active.Some?
    ensures var (priority, policy, deadline) := Asks(w, a);
            var page, r := w.slot.active.value, Step(w, a).requests[a.id];
            && Step(w, a).slot.active == w.slot.active
            && (r.TurnedAway? <==>
                  policy == Skip || (policy == Preempt && priority <= page.priority) || deadline <= w.now)
            && (r.Waiting? <==> !r.TurnedAway?)
            && (r.Waiting? ==> r.priority == priority && r.policy == policy && r.deadline == deadline && !r.notified)
  {
  }

  /** The end of a lease frees the slot and wakes every waiter; the operator's stop reaches the active page. */
  lemma EndOfLeaseWakes(w: World, id: nat)
    requires Safe(w) && Enabled(w, Leave(id)) && w.requests[id].Holding?
    ensures Step(w, Leave(id)).slot.active.None?
    ensures forall other :: other in w.requests && w.requests[other].Waiting? ==>
              Step(w, Leave(id)).requests[other] == w.requests[other].(notified := true)
    ensures w.slot.active.value.token in Step(w, Cancel).slot.cancelled
  {
  }

  /** However late a waiter wakes, from its deadline on it is answered. */
  lemma LateWakeAnswers(w: World, id: nat)
    requires Safe(w) && Enabled(w, Wake(id))
    requires w.now >= w.requests[id].arrival.now + w.timeout
    ensures !Step(w, Wake(id)).requests[id].Waiting?
  {
  }

  /** An answered request keeps its answer: only its own release changes it. */
  lemma AnswersAreFinal(w: World, a: Action, id: nat)
    requires Safe(w) && Enabled(w, a) && id in w.requests && !w.requests[id].Waiting? && a != Leave(id)
    ensures id in Step(w, a).requests && Step(w, a).requests[id] == w.requests[id]
  {
  }

  /**
   * Exactly when a waiting preemptor waits for a page that nobody asked to stop: the page took the slot while it
   * waited, and nothing has asked that page since.
   */
  lemma UnaskedExactlyWhen(timeout: real, actions: seq<Action>, id: nat)
    requires var w := Run(Start(timeout), actions);
             id in w.requests && w.requests[id].Waiting? && w.requests[id].policy == Preempt && w.slot.active.Some?
    ensures var w := Run(Start(timeout), actions);
            var arrival, token := w.requests[id].arrival, w.slot.active.value.token;
            token !in w.slot.cancelled <==>
              arrival.asked != Some(token) && forall i :: arrival.logged <= i < |w.log| ==> w.log[i].token != token
  {
    EveryRunIsSafe(timeout, actions);
    var w := Run(Start(timeout), actions);
    var arrival, token := w.requests[id].arrival, w.slot.active.value.token;
    assert Remembers(w, w.requests[id]);
    if token in w.slot.cancelled && arrival.asked != Some(token) {
      var i :| 0 <= i < |w.log| && w.log[i].token == token;
      assert i >= arrival.logged;
    }
  }

  /** On arrival a preemptor of higher priority asks the page it meets, whether it then waits or not. */
  lemma ArrivalAsks(w: World, a: Action)
    requires Enabled(w, a) && a.Arrive? && a.policy == Preempt
    requires w.slot.active.Some? && a.priority > w.slot.active.value.priority
    ensures w.slot.active.value.token in Step(w, a).slot.cancelled
    ensures Step(w, a).requests[a.id].Waiting? ==>
              Step(w, a).requests[a.id].arrival.asked == Some(w.slot.active.value.token)
  {
  }

  /** Request 0 holds the slot, 1 queues, 2 preempts; 0 leaves, 1 takes the slot, 2 looks again. */
  function Overtaken(): seq<Action> {
    [Arrive(0, 40, Skip), Arrive(1, 50, Queue), Arrive(2, 100, Preempt), Leave(0), Wake(1), Wake(2)]
  }

  function QueuedPage(): Request {
    Waiting(50, Queue, 30.0, false, Arrival(0.0, None, 0, 1))
  }

  /** Both wait, and only request 0 was asked to stop. */
  function BothWait(): World {
    World(Slot(Some(ActivePage(0, 40)), {0}, 1), 0.0, 30.0,
          map[0 := Holding(0), 1 := QueuedPage(), 2 := Waiting(100, Preempt, 30.0, false, Arrival(0.0, Some(0), 1, 1))],
          [Cancellation(0, 40, ByPreemption(100))])
  }

  /** Request 0 has the slot and 1 waits for it. */
  function OneQueues(): World {
    World(Slot(Some(ActivePage(0, 40)), {}, 1), 0.0, 30.0, map[0 := Holding(0), 1 := QueuedPage()], [])
  }

  function OneHolds(): World {
    World(Slot(Some(ActivePage(0, 40)), {}, 1), 0.0, 30.0, map[0 := Holding(0)], [])
  }

  lemma OvertakenHolds()
    ensures Run(Start(30.0), Overtaken()[..1]) == OneHolds()
  {
    var w, a := Start(30.0), Overtaken();
    assert a[..1] == [] + [a[0]] && a[0] == Arrive(0, 40, Skip);
    RunOne(w, [], a[0]);
    assert Run(w, []) == w && Step(w, a[0]) == OneHolds();
  }

  lemma OvertakenQueues()
    ensures Run(Start(30.0), Overtaken()[..2]) == OneQueues()
  {
    var w, a := Start(30.0), Overtaken();
    OvertakenHolds();
    assert a[..2] == a[..1] + [a[1]] && a[1] == Arrive(1, 50, Queue);
    RunOne(w, a[..1], a[1]);
    assert Step(OneHolds(), a[1]) == OneQueues();
  }

  lemma OvertakenBegins()
    ensures Run(Start(30.0), Overtaken()[..3]) == BothWait()
  {
    var w, a := Start(30.0), Overtaken();
    OvertakenQueues();
    assert a[..3] == a[..2] + [a[2]];
    RunOne(w, a[..2], a[2]);
    assert Step(OneQueues(), a[2]) == BothWait();
  }

  /**
   * The limit of preemption: an emergency that waits does not ask a lower page that took the slot meanwhile to stop.
   * Here request 2 (priority 100) waits for the unasked page of request 1 (priority 50).
   */
  lemma PreemptorMayWaitForAnUnaskedPage()
    ensures var w := Run(Start(30.0), Overtaken());
            && 2 in w.requests && w.requests[2].Waiting? && w.requests[2].priority == 100
            && w.slot.active == Some(ActivePage(1, 50)) && 1 !in w.slot.cancelled
  {
    var w, a := Start(30.0), Overtaken();
    OvertakenBegins();
    assert a[..4] == a[..3] + [a[3]] && a[..5] == a[..4] + [a[4]] && a == a[..5] + [a[5]];
    RunOne(w, a[..3], a[3]);
    RunOne(w, a[..4], a[4]);
    RunOne(w, a[..5], a[5]);
  }

  lemma RunOne(w: World, actions: seq<Action>, a: Action)
    ensures var before := Run(w, actions);
            Run(w, actions + [a]) == if Enabled(before, a) then Step(before, a) else before
  {
    assert (actions + [a])[..|actions|] == actions;
  }
}
