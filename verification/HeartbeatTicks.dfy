/** A task over any series of ticks: no scheduled instant is served twice, and no interval run comes too early. */
module HeartbeatTicks {
  import opened Calendar
  import opened Options
  import opened HeartbeatSchedule

  datatype Event =
    | Tick(now: int, end: int, recorded: bool)   // a run, if one is due, takes its time stamp at `end`
    | TriggerNow(end: int, recorded: bool)
    | Edit(rule: Option<Rule>, period: int, windowStart: Option<Minute>, windowEnd: Option<Minute>, createdAt: int)

  /** Unix milliseconds cut off what is below a millisecond; 0 would read as never run. */
  predicate Stamps(zone: Zone, end: int) {
    ToUnixMilli(zone, end) != 0
  }

  function Start(e: Event): Option<int> {
    match e
    case Tick(now, _, _) => Some(now)
    case TriggerNow(end, _) => Some(end)
    case Edit(_, _, _, _, _) => None
  }

  function End(e: Event, clock: int): int {
    if e.Edit? then clock else e.end
  }

  /** The clock does not run backwards. */
  predicate InOrder(zone: Zone, clock: int, events: seq<Event>)
    decreases |events|
  {
    events == [] ||
    (var e := events[0];
     && (!e.Edit? ==> clock <= Start(e).value <= e.end && Stamps(zone, e.end))
     && InOrder(zone, End(e, clock), events[1..]))
  }

  /** The task after the event; an edit leaves the last run alone. */
  function Step(zone: Zone, t: Task, e: Event): Task {
    match e
    case Edit(rule, period, windowStart, windowEnd, createdAt) =>
      t.(rule := rule, period := period, windowStart := windowStart, windowEnd := windowEnd, createdAt := createdAt)
    case Tick(now, end, recorded) => if DueAt(zone, t, now) && recorded then Ran(zone, t, end) else t
    case TriggerNow(end, recorded) => if recorded then Ran(zone, t, end) else t
  }

  function Ran(zone: Zone, t: Task, end: int): Task {
    var stamp := ToUnixMilli(zone, end);
    t.(lastRunAt := stamp, createdAt := if t.createdAt == 0 then stamp else t.createdAt)
  }

  /** The scheduled instants for which the recorded runs were made, in order. */
  function Served(zone: Zone, t: Task, events: seq<Event>): seq<int>
    decreases |events|
  {
    if events == [] then []
    else
      var e, rest := events[0], Served(zone, Step(zone, t, events[0]), events[1..]);
      if e.Tick? && e.recorded && DueAt(zone, t, e.now) && PreviousAt(zone, t, e.now).Some?
      then [PreviousAt(zone, t, e.now).value] + rest
      else rest
  }

  predicate Increasing(s: seq<int>) {
    forall i, j :: 0 <= i < j < |s| ==> s[i] < s[j]
  }

  lemma PrependIncreasing(x: int, rest: seq<int>)
    requires Increasing(rest) && forall y <- rest :: x < y
    ensures Increasing([x] + rest)
  {
    assert forall i | 0 < i < |[x] + rest| :: ([x] + rest)[i] == rest[i - 1] && rest[i - 1] in rest;
  }

  predicate OnMilli(x: int) {
    x % NANOS_PER_MILLI == 0
  }

  lemma InstantOnMilli(day: int, hour: int, minute: int)
    ensures OnMilli(InstantAt(day, hour, minute))
  {
    assert InstantAt(day, hour, minute) == NANOS_PER_MILLI * (day * 86_400_000 + (hour * 60 + minute) * 60_000);
  }

  lemma {:induction false} NearestOnMilli(r: Rule, anchor: Option<int>, now: int, offset: nat, window: nat)
    requires NearestMatch(r, anchor, now, offset, window).Some?
    ensures OnMilli(NearestMatch(r, anchor, now, offset, window).value)
    decreases window - offset
  {
    InstantOnMilli(DayOf(now) - offset, r.hour, r.minute);
    hide OnMilli, InstantAt, DayOf, WeekdayMatches;
    if !WeekdayMatches(r, anchor, now, offset) {
      NearestOnMilli(r, anchor, now, offset + 1, window);
    }
  }

  lemma ScheduledOnMilli(zone: Zone, t: Task, now: int)
    requires PreviousAt(zone, t, now).Some?
    ensures OnMilli(PreviousAt(zone, t, now).value)
  {
    var r := t.rule.value;
    forall d ensures OnMilli(InstantAt(d, r.hour, r.minute)) {
      InstantOnMilli(d, r.hour, r.minute);
    }
    match r.kind
    case Daily => assert PreviousDaily(r, now) in {InstantAt(DayOf(now), r.hour, r.minute), InstantAt(DayOf(now) - 1, r.hour, r.minute)};
    case Weekly => NearestOnMilli(r, None, now, 0, 7);
    case Biweekly => NearestOnMilli(r, Anchor(zone, t, now), now, 0, 14);
    case _ => hide OnMilli, InstantAt, ClampDay, Date;
  }

  /** A calendar instant falls on a whole millisecond, so a later time stamp, cut to milliseconds, is not before it. */
  lemma StampNotBefore(zone: Zone, x: int, end: int)
    requires OnMilli(x) && x <= end
    ensures x <= UnixMilli(zone, ToUnixMilli(zone, end)) <= end
  {
    var base := EPOCH_DAY * NANOS_PER_DAY + zone;
    assert base % NANOS_PER_MILLI == 0 by {
      assert zone == 1_000_000_000 * (zone / 1_000_000_000);
      assert base == NANOS_PER_MILLI * (EPOCH_DAY * 86_400_000 + 1_000 * (zone / 1_000_000_000));
    }
    var q := (end - base) / NANOS_PER_MILLI;
    assert x == NANOS_PER_MILLI * (x / NANOS_PER_MILLI) && base == NANOS_PER_MILLI * (base / NANOS_PER_MILLI);
    assert x / NANOS_PER_MILLI - base / NANOS_PER_MILLI <= q;
  }

  /** The last run's time stamp, if there is one. */
  function LastRun(zone: Zone, t: Task): Option<int> {
    if t.lastRunAt == 0 then None else Some(UnixMilli(zone, t.lastRunAt))
  }

  /** At most once: over any series of ticks, manual triggers and edits of the rule, the instants served are strictly
      increasing and all lie after the run the series began with. */
  lemma {:induction false} ServedOnce(zone: Zone, t: Task, clock: int, events: seq<Event>)
    requires InOrder(zone, clock, events)
    requires LastRun(zone, t).Some? ==> LastRun(zone, t).value <= clock
    ensures Increasing(Served(zone, t, events))
    ensures LastRun(zone, t).Some? ==> forall x <- Served(zone, t, events) :: LastRun(zone, t).value < x
    decreases |events|
  {
    hide PreviousAt, OnMilli, UnixMilli, ToUnixMilli;
    if events != [] {
      var e := events[0];
      var t', clock' := Step(zone, t, e), End(e, clock);
      if !e.Edit? {
        StampAdvances(zone, t, clock, e.end);
      }
      ServedOnce(zone, t', clock', events[1..]);
      if e.Tick? && e.recorded && DueAt(zone, t, e.now) && PreviousAt(zone, t, e.now).Some? {
        ScheduledOnMilli(zone, t, e.now);
        var x, rest := PreviousAt(zone, t, e.now).value, Served(zone, t', events[1..]);
        StampNotBefore(zone, x, e.end);
        assert LastRun(zone, t').value == UnixMilli(zone, ToUnixMilli(zone, e.end));
        assert forall y <- rest :: x < y;
        PrependIncreasing(x, rest);
      }
    }
  }

  // ---- Interval tasks ----

  /** The task as the event `k` finds it. */
  function Before(zone: Zone, t: Task, events: seq<Event>, k: nat): Task
    requires k <= |events|
    decreases k
  {
    if k == 0 then t else Before(zone, Step(zone, t, events[0]), events[1..], k - 1)
  }

  /** A run of the task, and its time stamp reaches the list. */
  predicate Records(zone: Zone, t: Task, e: Event) {
    match e
    case Tick(now, _, recorded) => recorded && DueAt(zone, t, now)
    case TriggerNow(_, recorded) => recorded
    case Edit(_, _, _, _, _) => false
  }

  /** The recorded stamp is never taken back. */
  lemma {:induction false} StampStays(zone: Zone, t: Task, clock: int, events: seq<Event>, k: nat)
    requires k <= |events| && InOrder(zone, clock, events)
    requires LastRun(zone, t).Some? && LastRun(zone, t).value <= clock
    ensures var last := LastRun(zone, Before(zone, t, events, k)); last.Some? && LastRun(zone, t).value <= last.value
    decreases k
  {
    hide DueAt, UnixMilli, ToUnixMilli;
    if k > 0 {
      if !events[0].Edit? {
        StampAdvances(zone, t, clock, events[0].end);
      }
      StampStays(zone, Step(zone, t, events[0]), End(events[0], clock), events[1..], k - 1);
    }
  }

  /** Over any series of ticks, manual triggers and edits: when a tick runs a task that has no rule, its period has passed
      since every earlier recorded run, whatever made that run and whatever was edited in between. */
  lemma {:induction false} RunsPeriodApart(zone: Zone, t: Task, clock: int, events: seq<Event>, i: nat, j: nat)
    requires InOrder(zone, clock, events) && i < j < |events|
    requires LastRun(zone, t).Some? ==> LastRun(zone, t).value <= clock
    requires Records(zone, Before(zone, t, events, i), events[i])
    requires events[j].Tick? && Records(zone, Before(zone, t, events, j), events[j])
    requires Before(zone, t, events, j).rule.None?
    ensures 0 < Before(zone, t, events, j).period
         <= events[j].now - UnixMilli(zone, ToUnixMilli(zone, events[i].end))
    decreases i
  {
    hide DueAt, UnixMilli, ToUnixMilli;
    if !events[0].Edit? {
      StampAdvances(zone, t, clock, events[0].end);
    }
    var t', clock' := Step(zone, t, events[0]), End(events[0], clock);
    if i > 0 {
      RunsPeriodApart(zone, t', clock', events[1..], i - 1, j - 1);
    } else {
      StampStays(zone, t', clock', events[1..], j - 1);
      IntervalDecision(zone, Before(zone, t, events, j), events[j].now);
    }
  }

  /** A new time stamp is not before the one it replaces. */
  lemma StampAdvances(zone: Zone, t: Task, clock: int, end: int)
    requires clock <= end && (LastRun(zone, t).Some? ==> LastRun(zone, t).value <= clock)
    ensures LastRun(zone, t).Some? ==> LastRun(zone, t).value <= UnixMilli(zone, ToUnixMilli(zone, end))
    ensures UnixMilli(zone, ToUnixMilli(zone, end)) <= end
  {
    if LastRun(zone, t).Some? {
      assert ToUnixMilli(zone, end) >= t.lastRunAt;
    }
  }
}
