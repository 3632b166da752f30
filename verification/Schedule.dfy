/**
 * Day plans and the look-ahead: `bell/scheduler.py:26-97`. Dates are day numbers, times are seconds of the day, and
 * times of one time zone compare by wall clock.
 */
module Schedule {
  import opened Wrappers
  import opened Sorting

  const DAY := 86400

  type TimeOfDay = t: int | 0 <= t < DAY witness 0

  datatype BellEvent = BellEvent(time: TimeOfDay, sound: string, zone: string, caption: string)
  datatype StandingItem = StandingItem(event: BellEvent, enabled: bool)
  datatype RangeRule = RangeRule(start: int, end: int, schedule: string)

  datatype Config = Config(noBellDates: map<int, string>, overrides: map<int, string>, dateRanges: seq<RangeRule>,
                           weekdayDefaults: map<int, Option<string>>, schedules: map<string, seq<BellEvent>>,
                           standing: seq<StandingItem>)

  /** `load_config` refuses a calendar that names an unknown schedule (`bell/config.py:558-564`). */
  ghost predicate Loaded(config: Config) {
    && (forall day :: day in config.overrides ==> config.overrides[day] in config.schedules)
    && (forall i :: 0 <= i < |config.dateRanges| ==> config.dateRanges[i].schedule in config.schedules)
    && (forall d ::
          d in config.weekdayDefaults && config.weekdayDefaults[d].Some? && config.weekdayDefaults[d].value != "" ==>
            config.weekdayDefaults[d].value in config.schedules)
  }

  datatype PlannedEvent = PlannedEvent(event: BellEvent, source: string, day: int)

  function At(p: PlannedEvent): int {
    p.day * DAY + p.event.time
  }

  predicate ByTime(a: PlannedEvent, b: PlannedEvent) {
    At(a) <= At(b)
  }

  /** Earlier is an earlier day, or the same day and an earlier time of day. */
  lemma ByTimeExactly(a: PlannedEvent, b: PlannedEvent)
    ensures ByTime(a, b) <==> a.day < b.day || (a.day == b.day && a.event.time <= b.event.time)
  {
  }

  /** An event is after `now` if its day is, or if it is on that day and its time is after the time of day. */
  lemma AfterNowExactly(p: PlannedEvent, now: int)
    ensures At(p) > now <==> p.day > now / DAY || (p.day == now / DAY && p.event.time > now % DAY)
  {
  }

  datatype DayPlan = DayPlan(day: int, scheduleName: Option<string>, events: seq<PlannedEvent>, reason: Option<string>)

  // ---------- Which schedule, which events ----------

  function FirstRange(rules: seq<RangeRule>, day: int): Option<string> {
    if rules == [] then None
    else if rules[0].start <= day <= rules[0].end then Some(rules[0].schedule)
    else FirstRange(rules[1..], day)
  }

  /** An override wins over a date range, the first matching range over the weekday. */
  function ScheduleFor(day: int, config: Config): Option<string> {
    if day in config.overrides then Some(config.overrides[day])
    else
      var ranged := FirstRange(config.dateRanges, day);
      if ranged.Some? then ranged
      else if day % 7 in config.weekdayDefaults then config.weekdayDefaults[day % 7]
      else None
  }

  function Scheduled(events: seq<BellEvent>, source: string, day: int): (p: seq<PlannedEvent>)
    ensures |p| == |events| && forall i :: 0 <= i < |p| ==> p[i] == PlannedEvent(events[i], source, day)
  {
    seq(|events|, i requires 0 <= i < |events| => PlannedEvent(events[i], source, day))
  }

  function EnabledEvents(items: seq<StandingItem>): seq<BellEvent> {
    if items == [] then []
    else EnabledEvents(items[..|items| - 1])
         + if items[|items| - 1].enabled then [items[|items| - 1].event] else []
  }

  predicate HasSchedule(name: Option<string>) {
    name.Some? && name.value != ""
  }

  /** The events of a day before sorting: its schedule, then the enabled standing items. */
  function EventsOf(day: int, config: Config): seq<PlannedEvent>
    requires HasSchedule(ScheduleFor(day, config)) ==> ScheduleFor(day, config).value in config.schedules
  {
    var name := ScheduleFor(day, config);
    if !HasSchedule(name) then []
    else Scheduled(config.schedules[name.value], name.value, day)
         + Scheduled(EnabledEvents(config.standing), "Standing", day)
  }

  lemma {:induction false} RangeIsKnown(config: Config, rules: seq<RangeRule>, day: int)
    requires forall i :: 0 <= i < |rules| ==> rules[i].schedule in config.schedules
    ensures FirstRange(rules, day).Some? ==> FirstRange(rules, day).value in config.schedules
  {
    if rules != [] {
      RangeIsKnown(config, rules[1..], day);
    }
  }

  lemma ScheduleIsKnown(day: int, config: Config)
    requires Loaded(config)
    ensures HasSchedule(ScheduleFor(day, config)) ==> ScheduleFor(day, config).value in config.schedules
  {
    RangeIsKnown(config, config.dateRanges, day);
  }

  /** What `resolve_day` means: no bells on a no-bell date, else the day's events in stable time order. */
  ghost function PlanOf(day: int, config: Config): seq<PlannedEvent>
    requires Loaded(config)
  {
    ScheduleIsKnown(day, config);
    if day in config.noBellDates then [] else StableSort(EventsOf(day, config), ByTime)
  }

  /** Lines 52-61. */
  method ScheduleName(day: int, config: Config) returns (name: Option<string>)
    ensures name == ScheduleFor(day, config)
  {
    name := None;
    if day in config.overrides {
      name := Some(config.overrides[day]);
    } else {
      var rules := config.dateRanges;
      for i := 0 to |rules|
        invariant name == None && FirstRange(rules, day) == FirstRange(rules[i..], day)
      {
        assert rules[i..][1..] == rules[i + 1..];
        if rules[i].start <= day <= rules[i].end {
          return Some(rules[i].schedule);
        }
      }
      assert rules[|rules|..] == [];
    }
    if name == None {
      name := if day % 7 in config.weekdayDefaults then config.weekdayDefaults[day % 7] else None;
    }
  }

  /** Lines 63-74: the events of the day, as appended. */
  method GatherEvents(day: int, config: Config, name: Option<string>) returns (events: seq<PlannedEvent>)
    requires name == ScheduleFor(day, config)
    requires HasSchedule(name) ==> name.value in config.schedules
    ensures events == EventsOf(day, config)
  {
    events := [];
    if !HasSchedule(name) {
      return;
    }
    var schedule := config.schedules[name.value];
    for i := 0 to |schedule|
      invariant events == Scheduled(schedule[..i], name.value, day)
    {
      events := events + [PlannedEvent(schedule[i], name.value, day)];
    }
    assert schedule[..|schedule|] == schedule;
    ghost var scheduled := events;
    var items := config.standing;
    for i := 0 to |items|
      invariant events == scheduled + Scheduled(EnabledEvents(items[..i]), "Standing", day)
    {
      assert items[..i + 1][..i] == items[..i];
      if items[i].enabled {
        events := events + [PlannedEvent(items[i].event, "Standing", day)];
      }
    }
    assert items[..|items|] == items;
  }

  /** `resolve_day`. */
  method ResolveDay(day: int, config: Config) returns (plan: DayPlan)
    requires Loaded(config)
    ensures plan.day == day && plan.events == PlanOf(day, config)
    ensures plan.scheduleName == if day in config.noBellDates then None else ScheduleFor(day, config)
    ensures day in config.noBellDates ==> plan.reason == Some(config.noBellDates[day])
    ensures day !in config.noBellDates ==> (plan.reason.None? <==> plan.events != [])
  {
    if day in config.noBellDates {
      return DayPlan(day, None, [], Some(config.noBellDates[day]));
    }
    ScheduleIsKnown(day, config);
    var name := ScheduleName(day, config);
    var events := GatherEvents(day, config, name);
    events := StableSort(events, ByTime);
    return DayPlan(day, name, events, if events != [] then None else Some("no schedule assigned"));
  }

  ghost predicate InOrderOn(events: seq<PlannedEvent>, day: int) {
    SortedBy(events, ByTime) && forall i :: 0 <= i < |events| ==> events[i].day == day
  }

  lemma EventsOnTheirDay(day: int, config: Config)
    requires HasSchedule(ScheduleFor(day, config)) ==> ScheduleFor(day, config).value in config.schedules
    ensures forall p :: p in EventsOf(day, config) ==> p.day == day
  {
  }

  /** A day's plan is in time order and stays on its day. */
  lemma PlanInOrder(day: int, config: Config)
    requires Loaded(config)
    ensures InOrderOn(PlanOf(day, config), day)
  {
    ScheduleIsKnown(day, config);
    if day !in config.noBellDates {
      var events := EventsOf(day, config);
      var plan := StableSort(events, ByTime);
      SortSorts(events, ByTime);
      SortKeepsElements(events, ByTime);
      EventsOnTheirDay(day, config);
      forall i | 0 <= i < |plan| ensures plan[i].day == day {
        assert plan[i] in plan;
      }
    }
  }

  /** Off no-bell dates the plan holds exactly the day's events; those at one time keep their order. */
  lemma PlanKeepsEvents(day: int, config: Config, p: PlannedEvent)
    requires Loaded(config) && day !in config.noBellDates
    requires HasSchedule(ScheduleFor(day, config)) ==> ScheduleFor(day, config).value in config.schedules
    ensures multiset(PlanOf(day, config)) == multiset(EventsOf(day, config))
    ensures Ties(PlanOf(day, config), p, ByTime) == Ties(EventsOf(day, config), p, ByTime)
  {
    SortKeepsElements(EventsOf(day, config), ByTime);
    SortIsStable(EventsOf(day, config), p, ByTime);
  }

  predicate InRange(rule: RangeRule, day: int) {
    rule.start <= day <= rule.end
  }

  /** The priority: an override, else the first range that holds the day, else the weekday's default. */
  lemma ScheduleExactly(day: int, config: Config, k: nat)
    ensures day in config.overrides ==> ScheduleFor(day, config) == Some(config.overrides[day])
    ensures day !in config.overrides && k < |config.dateRanges| && InRange(config.dateRanges[k], day)
            && (forall i :: 0 <= i < k ==> !InRange(config.dateRanges[i], day)) ==>
              ScheduleFor(day, config) == Some(config.dateRanges[k].schedule)
    ensures day !in config.overrides
            && (forall i :: 0 <= i < |config.dateRanges| ==> !InRange(config.dateRanges[i], day)) ==>
              ScheduleFor(day, config)
              == if day % 7 in config.weekdayDefaults then config.weekdayDefaults[day % 7] else None
  {
    FirstRangeExactly(config.dateRanges, day, k);
  }

  lemma {:induction false} FirstRangeExactly(rules: seq<RangeRule>, day: int, k: nat)
    ensures k < |rules| && InRange(rules[k], day) && (forall i :: 0 <= i < k ==> !InRange(rules[i], day)) ==>
              FirstRange(rules, day) == Some(rules[k].schedule)
    ensures (forall i :: 0 <= i < |rules| ==> !InRange(rules[i], day)) ==> FirstRange(rules, day) == None
  {
    if rules != [] {
      assert forall i :: 1 <= i < |rules| ==> rules[i] == rules[1..][i - 1];
      FirstRangeExactly(rules[1..], day, if k == 0 then 0 else k - 1);
      if k > 0 && k < |rules| && (forall i :: 0 <= i < k ==> !InRange(rules[i], day)) {
        assert !InRange(rules[0], day);
        assert forall i :: 0 <= i < k - 1 ==> !InRange(rules[1..][i], day);
      }
    }
  }

  ghost predicate HasEnabled(items: seq<StandingItem>, e: BellEvent) {
    exists i :: 0 <= i < |items| && items[i] == StandingItem(e, true)
  }

  lemma {:induction false} EnabledExactly(items: seq<StandingItem>, e: BellEvent)
    ensures e in EnabledEvents(items) <==> HasEnabled(items, e)
  {
    if items != [] {
      var n := |items| - 1;
      EnabledExactly(items[..n], e);
      if HasEnabled(items[..n], e) {
        var i :| 0 <= i < n && items[..n][i] == StandingItem(e, true);
        assert items[i] == StandingItem(e, true);
      }
      if HasEnabled(items, e) {
        var i :| 0 <= i < |items| && items[i] == StandingItem(e, true);
        assert i < n ==> items[..n][i] == items[i];
      }
    }
  }

  /**
   * Exactly what rings on a day: nothing on a no-bell date or without a schedule; else every event of the schedule and
   * every enabled standing item, on that day and under its source.
   */
  lemma PlanExactly(day: int, config: Config, p: PlannedEvent)
    requires Loaded(config)
    ensures p in PlanOf(day, config) <==>
            && day !in config.noBellDates && p.day == day
            && ScheduleFor(day, config).Some? && ScheduleFor(day, config).value != ""
            && var name := ScheduleFor(day, config).value;
            && name in config.schedules
            && ((p.source == name && p.event in config.schedules[name])
                || (p.source == "Standing" && HasEnabled(config.standing, p.event)))
  {
    ScheduleIsKnown(day, config);
    EnabledExactly(config.standing, p.event);
    var events := EventsOf(day, config);
    if day !in config.noBellDates {
      SortKeepsElements(events, ByTime);
      assert p in StableSort(events, ByTime) <==> p in multiset(StableSort(events, ByTime));
      assert p in events <==> p in multiset(events);
    }
    if HasSchedule(ScheduleFor(day, config)) {
      var name := ScheduleFor(day, config).value;
      ScheduledExactly(config.schedules[name], name, day, p);
      ScheduledExactly(EnabledEvents(config.standing), "Standing", day, p);
    }
  }

  lemma ScheduledExactly(events: seq<BellEvent>, source: string, day: int, p: PlannedEvent)
    ensures p in Scheduled(events, source, day) <==> p.source == source && p.day == day && p.event in events
  {
    if p.source == source && p.day == day && p.event in events {
      var i :| 0 <= i < |events| && events[i] == p.event;
      assert Scheduled(events, source, day)[i] == p;
    }
  }

  // ---------- The look-ahead ----------

  function After(events: seq<PlannedEvent>, now: int): seq<PlannedEvent> {
    if events == [] then []
    else After(events[..|events| - 1], now)
         + if At(events[|events| - 1]) > now then [events[|events| - 1]] else []
  }

  /** The plans of all days. */
  ghost function Plans(config: Config): int -> seq<PlannedEvent>
    requires Loaded(config)
  {
    day => PlanOf(day, config)
  }

  ghost predicate DaysInOrder(plans: int -> seq<PlannedEvent>) {
    forall day :: InOrderOn(plans(day), day)
  }

  lemma PlansInOrder(config: Config)
    requires Loaded(config)
    ensures DaysInOrder(Plans(config))
  {
    forall day ensures InOrderOn(Plans(config)(day), day) {
      PlanInOrder(day, config);
    }
  }

  /** Every event after `now` in the `n` days from `first` on, day after day. */
  ghost function AllAfter(plans: int -> seq<PlannedEvent>, now: int, first: int, n: nat): seq<PlannedEvent> {
    if n == 0 then [] else AllAfter(plans, now, first, n - 1) + After(plans(first + n - 1), now)
  }

  lemma {:induction false} AfterKeepsOrder(events: seq<PlannedEvent>, now: int, day: int)
    requires InOrderOn(events, day)
    ensures InOrderOn(After(events, now), day)
    ensures forall i :: 0 <= i < |After(events, now)| ==>
              |events| > 0 && ByTime(After(events, now)[i], events[|events| - 1])
  {
    if events != [] {
      var init := events[..|events| - 1];
      AfterKeepsOrder(init, now, day);
      if init != [] {
        assert ByTime(init[|init| - 1], events[|events| - 1]);
      }
    }
  }

  /** Days separate, so the events of consecutive days are already in order. */
  lemma {:induction false} AllAfterInOrder(plans: int -> seq<PlannedEvent>, now: int, first: int, n: nat)
    requires DaysInOrder(plans)
    ensures SortedBy(AllAfter(plans, now, first, n), ByTime)
    ensures forall i :: 0 <= i < |AllAfter(plans, now, first, n)| ==>
              At(AllAfter(plans, now, first, n)[i]) < (first + n) * DAY
  {
    if n > 0 {
      AllAfterInOrder(plans, now, first, n - 1);
      var day := first + n - 1;
      assert InOrderOn(plans(day), day);
      AfterKeepsOrder(plans(day), now, day);
      DayAppends(AllAfter(plans, now, first, n - 1), After(plans(day), now), day);
    }
  }

  lemma DayAppends(earlier: seq<PlannedEvent>, today: seq<PlannedEvent>, day: int)
    requires SortedBy(earlier, ByTime) && InOrderOn(today, day)
    requires forall i :: 0 <= i < |earlier| ==> At(earlier[i]) < day * DAY
    ensures SortedBy(earlier + today, ByTime)
    ensures forall i :: 0 <= i < |earlier + today| ==> At((earlier + today)[i]) < (day + 1) * DAY
  {
    forall i | 0 <= i < |today| ensures day * DAY <= At(today[i]) < (day + 1) * DAY {
    }
  }

  lemma {:induction false} AllAfterGrows(plans: int -> seq<PlannedEvent>, now: int, first: int, m: nat, n: nat)
    requires m <= n
    ensures AllAfter(plans, now, first, m) <= AllAfter(plans, now, first, n)
    decreases n
  {
    if m < n {
      AllAfterGrows(plans, now, first, m, n - 1);
    }
  }

  /** Every event after `now` in the search horizon: the day of `now` and `searchDays` days more. */
  ghost function Horizon(config: Config, now: int, searchDays: int): seq<PlannedEvent>
    requires Loaded(config)
  {
    AllAfter(Plans(config), now, now / DAY, Days(searchDays))
  }

  function Take(events: seq<PlannedEvent>, limit: int): seq<PlannedEvent> {
    if limit < 1 then [] else if |events| <= limit then events else events[..limit]
  }

  function Days(searchDays: int): nat {
    if searchDays < 0 then 0 else searchDays + 1
  }

  /** Stopping early loses nothing: what the first `m` days give is final once it fills the limit. */
  lemma EarlyStop(plans: int -> seq<PlannedEvent>, now: int, first: int, m: nat, n: nat, limit: int)
    requires DaysInOrder(plans) && limit >= 1 && m <= n
    requires m == n || |AllAfter(plans, now, first, m)| >= limit
    ensures Take(StableSort(AllAfter(plans, now, first, m), ByTime), limit)
         == Take(StableSort(AllAfter(plans, now, first, n), ByTime), limit)
  {
    AllAfterInOrder(plans, now, first, m);
    AllAfterInOrder(plans, now, first, n);
    AllAfterGrows(plans, now, first, m, n);
    SortOfSorted(AllAfter(plans, now, first, m), ByTime);
    SortOfSorted(AllAfter(plans, now, first, n), ByTime);
  }

  /**
   * `upcoming_events`: stopping after the day that fills the limit gives the same result as sorting every event
   * of the whole horizon, ties in the same order, and taking the first `limit`.
   */
  method UpcomingEvents(config: Config, now: int, limit: int, searchDays: int) returns (events: seq<PlannedEvent>)
    requires Loaded(config)
    ensures events == Upcoming(config, now, limit, searchDays)
  {
    if limit < 1 {
      return [];
    }
    ghost var plans := Plans(config);
    var found, offset := FindUntilFull(config, plans, now, now / DAY, limit, Days(searchDays));
    StoppedEarly(config, plans, now, searchDays, found, offset, limit);
    found := StableSort(found, ByTime);
    return if |found| <= limit then found else found[..limit];
  }

  /** The loop over days, with its early stop. */
  method FindUntilFull(config: Config, ghost plans: int -> seq<PlannedEvent>, now: int, first: int, limit: int,
                       days: nat)
    returns (found: seq<PlannedEvent>, ghost offset: nat)
    requires Loaded(config) && ArePlans(plans, config)
    ensures offset <= days && found == AllAfter(plans, now, first, offset)
    ensures offset == days || |found| >= limit
  {
    found := [];
    var k := 0;
    while k < days
      invariant 0 <= k <= days
      invariant found == AllAfter(plans, now, first, k)
    {
      OneMoreDay(plans, now, first, k);
      var future := FutureOn(first + k, config, plans, now);
      found := found + future;
      k := k + 1;
      if |found| >= limit {
        break;
      }
    }
    offset := k;
  }

  lemma OneMoreDay(plans: int -> seq<PlannedEvent>, now: int, first: int, n: nat)
    ensures AllAfter(plans, now, first, n + 1) == AllAfter(plans, now, first, n) + After(plans(first + n), now)
  {
    assert first + (n + 1) - 1 == first + n;
  }

  lemma StoppedEarly(config: Config, plans: int -> seq<PlannedEvent>, now: int, searchDays: int,
                     found: seq<PlannedEvent>, offset: nat, limit: int)
    requires Loaded(config) && plans == Plans(config) && limit >= 1
    requires offset <= Days(searchDays) && found == AllAfter(plans, now, now / DAY, offset)
    requires offset == Days(searchDays) || |found| >= limit
    ensures Take(StableSort(found, ByTime), limit) == Take(StableSort(Horizon(config, now, searchDays), ByTime), limit)
  {
    PlansInOrder(config);
    EarlyStop(plans, now, now / DAY, offset, Days(searchDays), limit);
  }

  /** Says nothing: a day to look the plan up for. */
  ghost predicate IsDay(day: int) { true }

  ghost predicate ArePlans(plans: int -> seq<PlannedEvent>, config: Config)
    requires Loaded(config)
  {
    forall day {:trigger IsDay(day)} :: IsDay(day) ==> plans(day) == PlanOf(day, config)
  }

  method FutureOn(day: int, config: Config, ghost plans: int -> seq<PlannedEvent>, now: int)
    returns (future: seq<PlannedEvent>)
    requires Loaded(config) && ArePlans(plans, config)
    ensures future == After(plans(day), now)
  {
    var plan := ResolveDay(day, config);
    assert IsDay(day);
    future := FutureEvents(plan.events, now);
  }

  method FutureEvents(events: seq<PlannedEvent>, now: int) returns (future: seq<PlannedEvent>)
    ensures future == After(events, now)
  {
    future := [];
    for i := 0 to |events|
      invariant future == After(events[..i], now)
    {
      assert events[..i + 1][..i] == events[..i];
      if At(events[i]) > now {
        future := future + [events[i]];
      }
    }
    assert events[..|events|] == events;
  }

  /** The look-ahead is complete and exact: an event is reported or `limit` reported events come no later. */
  lemma UpcomingAreTheEarliest(plans: int -> seq<PlannedEvent>, now: int, first: int, n: nat, limit: int, day: int,
                               p: PlannedEvent)
    requires DaysInOrder(plans) && limit >= 1
    requires first <= day < first + n && p in plans(day) && At(p) > now
    ensures var reported := Take(StableSort(AllAfter(plans, now, first, n), ByTime), limit);
            p in reported || (|reported| == limit && forall i :: 0 <= i < limit ==> At(reported[i]) <= At(p))
  {
    var all := AllAfter(plans, now, first, n);
    AllAfterInOrder(plans, now, first, n);
    SortOfSorted(all, ByTime);
    var i := PlaceOf(plans, now, first, n, day, p);
    if limit <= i {
      forall j | 0 <= j < limit ensures At(all[j]) <= At(p) {
        assert ByTime(all[j], all[i]);
      }
    }
  }

  lemma PlaceOf(plans: int -> seq<PlannedEvent>, now: int, first: int, n: nat, day: int, p: PlannedEvent)
    returns (i: nat)
    requires first <= day < first + n && p in plans(day) && At(p) > now
    ensures i < |AllAfter(plans, now, first, n)| && AllAfter(plans, now, first, n)[i] == p
  {
    AfterExactly(plans(day), now, p);
    var today := After(plans(day), now);
    var k :| 0 <= k < |today| && today[k] == p;
    var earlier := AllAfter(plans, now, first, day - first);
    i := |earlier| + k;
    assert earlier + today <= AllAfter(plans, now, first, n) by {
      assert AllAfter(plans, now, first, day - first + 1) == earlier + today;
      AllAfterGrows(plans, now, first, day - first + 1, n);
    }
    assert (earlier + today)[i] == p;
  }

  lemma {:induction false} AfterExactly(events: seq<PlannedEvent>, now: int, p: PlannedEvent)
    ensures p in After(events, now) <==> p in events && At(p) > now
  {
    if events != [] {
      AfterExactly(events[..|events| - 1], now, p);
      assert p in events <==> p in events[..|events| - 1] || p == events[|events| - 1];
    }
  }

  lemma {:induction false} AllAfterExactly(plans: int -> seq<PlannedEvent>, now: int, first: int, n: nat,
                                             p: PlannedEvent)
    ensures p in AllAfter(plans, now, first, n) <==>
            At(p) > now && exists day :: first <= day < first + n && p in plans(day)
  {
    if n > 0 {
      AllAfterExactly(plans, now, first, n - 1, p);
      AfterExactly(plans(first + n - 1), now, p);
    }
  }

  /** What `upcoming_events` returns. */
  ghost function Upcoming(config: Config, now: int, limit: int, searchDays: int): seq<PlannedEvent>
    requires Loaded(config)
  {
    Take(StableSort(Horizon(config, now, searchDays), ByTime), limit)
  }

  /** Only events after `now`, of the plans of today and the `searchDays` days after it, in order. */
  lemma ReportedAreToCome(config: Config, now: int, limit: int, searchDays: nat)
    requires Loaded(config) && limit >= 1
    ensures SortedBy(Upcoming(config, now, limit, searchDays), ByTime)
    ensures forall p :: p in Upcoming(config, now, limit, searchDays) ==>
              At(p) > now && exists day :: now / DAY <= day <= now / DAY + searchDays && p in PlanOf(day, config)
  {
    var plans, first, n := Plans(config), now / DAY, Days(searchDays);
    var all := AllAfter(plans, now, first, n);
    PlansInOrder(config);
    AllAfterInOrder(plans, now, first, n);
    SortOfSorted(all, ByTime);
    forall p | p in Take(all, limit)
      ensures At(p) > now && exists day :: first <= day <= first + searchDays && p in PlanOf(day, config)
    {
      assert p in all;
      AllAfterExactly(plans, now, first, n, p);
      var day :| first <= day < first + n && p in plans(day);
      assert p in PlanOf(day, config);
    }
  }

  /** As many as asked for, if there are that many; one that is left out is no earlier than any reported. */
  lemma NothingEarlierIsLeftOut(config: Config, now: int, limit: int, searchDays: nat, day: int, p: PlannedEvent)
    requires Loaded(config) && limit >= 1
    requires now / DAY <= day <= now / DAY + searchDays && p in PlanOf(day, config) && At(p) > now
    ensures var reported := Upcoming(config, now, limit, searchDays);
            p in reported || (|reported| == limit && forall i :: 0 <= i < limit ==> At(reported[i]) <= At(p))
  {
    PlansInOrder(config);
    UpcomingAreTheEarliest(Plans(config), now, now / DAY, Days(searchDays), limit, day, p);
  }
}
