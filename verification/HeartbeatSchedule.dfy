/** When a scheduled prompt is due: the calendar rules of the heartbeat engine.

    Instants are local wall-clock nanoseconds since 1 January of year 0; a zone is a fixed offset from UTC. */
module HeartbeatSchedule {
  import opened Calendar
  import opened Options

  datatype Kind = Daily | Weekly | Biweekly | Monthly | Yearly

  datatype RawRule = RawRule(kind: Kind, days: seq<int>, month: int, day: int, hour: int, minute: int)

  /** What the interval parser guarantees of the rules it accepts: a real clock time, weekday rules with at least one
      weekday, a month clamped to 1..12.  The day of the month may be any number. */
  predicate Parsed(r: RawRule) {
    && 0 <= r.hour <= 23 && 0 <= r.minute <= 59
    && (r.kind in {Weekly, Biweekly} ==> r.days != [])
    && (forall wd <- r.days :: 0 <= wd <= 6)
    && 1 <= r.month <= 12
  }

  type Rule = r: RawRule | Parsed(r) witness RawRule(Daily, [], 1, 1, 9, 0)

  /** Offsets are whole seconds. */
  type Zone = z: int | z % 1_000_000_000 == 0 witness 0

  /** Minutes after midnight. */
  type Minute = m: int | 0 <= m < MINUTES_PER_DAY

  const MINUTES_PER_DAY := 1_440

  datatype Task = Task(
    rule: Option<Rule>,
    period: int,                 // parsed interval in nanoseconds, not positive when unusable
    windowStart: Option<Minute>,
    windowEnd: Option<Minute>,
    createdAt: int,              // Unix milliseconds, 0 when unset
    lastRunAt: int)

  const EPOCH_DAY := 719_528
  const MAX_DURATION := 9_223_372_036_854_775_807
  const NANOS_PER_WEEK := 604_800_000_000_000

  function UnixMilli(zone: Zone, ms: int): int {
    EPOCH_DAY * NANOS_PER_DAY + zone + ms * NANOS_PER_MILLI
  }

  function ToUnixMilli(zone: Zone, t: int): int {
    (t - EPOCH_DAY * NANOS_PER_DAY - zone) / NANOS_PER_MILLI
  }

  // ---- The code ----

  function ClampDay(year: int, month: int, day: int): int {
    var low := if day < 1 then 1 else day;
    var max := DaysInMonth(year, month);
    if low > max then max else low
  }

  function MonthlyCandidate(year: int, month: int, r: Rule): int {
    InstantAt(Date(year, month, ClampDay(year, month, r.day)), r.hour, r.minute)
  }

  function PreviousDaily(r: Rule, now: int): int {
    var candidate := InstantAt(DayOf(now), r.hour, r.minute);
    if candidate > now then candidate - NANOS_PER_DAY else candidate
  }

  /** `now.AddDate(0, -1, 0)` keeps the day number, so a day the previous month lacks spills forward again. */
  function MonthBack(now: int): Civil {
    var c := CivilOf(DayOf(now));
    CivilOf(Date(c.year, c.month - 1, c.day))
  }

  function PreviousMonthly(r: Rule, now: int): int {
    var c := CivilOf(DayOf(now));
    var candidate := MonthlyCandidate(c.year, c.month, r);
    if candidate > now then
      var prev := MonthBack(now);
      MonthlyCandidate(prev.year, prev.month, r)
    else
      candidate
  }

  function PreviousYearly(r: Rule, now: int): int {
    var c := CivilOf(DayOf(now));
    var candidate := MonthlyCandidate(c.year, r.month, r);
    if candidate > now then MonthlyCandidate(c.year - 1, r.month, r) else candidate
  }

  function WeekStart(t: int): int {
    InstantAt(DayOf(t) - (Weekday(DayOf(t)) + 6) % 7, 0, 0)
  }

  /** `Sub` saturates at the largest duration, so week counts stop growing at about 292 years. */
  function WeeksBetween(a: int, b: int): int {
    var d := if b < a then a - b else b - a;
    (if d > MAX_DURATION then MAX_DURATION else d) / NANOS_PER_WEEK
  }

  predicate InPhase(anchor: Option<int>, t: int) {
    anchor.Some? ==> WeeksBetween(WeekStart(anchor.value), WeekStart(t)) % 2 == 0
  }

  function CandidateBack(r: Rule, now: int, offset: int): int {
    InstantAt(DayOf(now) - offset, r.hour, r.minute)
  }

  predicate WeekdayMatches(r: Rule, anchor: Option<int>, now: int, offset: int) {
    && Weekday(DayOf(now) - offset) in r.days
    && CandidateBack(r, now, offset) <= now
    && InPhase(anchor, CandidateBack(r, now, offset))
  }

  /** The nearest matching day counting back from `offset`, within the window. */
  function NearestMatch(r: Rule, anchor: Option<int>, now: int, offset: nat, window: nat): Option<int>
    decreases window - offset
  {
    if offset >= window then None
    else if WeekdayMatches(r, anchor, now, offset) then Some(CandidateBack(r, now, offset))
    else NearestMatch(r, anchor, now, offset + 1, window)
  }

  /** `previousHeartbeatWeeklyAt`: both loops, keeping the best candidate seen. */
  method PreviousWeekly(r: Rule, anchor: Option<int>, now: int, window: nat) returns (best: Option<int>)
    ensures best == NearestMatch(r, anchor, now, 0, window)
  {
    best := None;
    for offset := 0 to window
      invariant best.Some? ==> CandidateBack(r, now, offset) < best.value
      invariant NearestMatch(r, anchor, now, 0, window)
             == if best.Some? then best else NearestMatch(r, anchor, now, offset, window)
    {
      ghost var before := best;
      var day := DayOf(now) - offset;
      for i := 0 to |r.days|
        invariant best == if before.None? && day == DayOf(now) - offset
                             && Weekday(day) in r.days[..i] && WeekdayMatches(r, anchor, now, offset)
                          then Some(CandidateBack(r, now, offset)) else before
      {
        if Weekday(day) == r.days[i] {
          var candidate := InstantAt(day, r.hour, r.minute);
          if candidate <= now && InPhase(anchor, candidate) && (best.None? || candidate > best.value) {
            best := Some(candidate);
          }
        }
      }
      assert r.days[..|r.days|] == r.days;
    }
  }

  function Anchor(zone: Zone, t: Task, now: int): Option<int> {
    if t.rule.None? || t.rule.value.kind != Biweekly then None
    else if t.createdAt != 0 then Some(UnixMilli(zone, t.createdAt))
    else if t.lastRunAt != 0 then Some(UnixMilli(zone, t.lastRunAt))
    else Some(now)
  }

  function PreviousAt(zone: Zone, t: Task, now: int): Option<int> {
    match t.rule
    case None => None
    case Some(r) =>
      match r.kind
      case Daily => Some(PreviousDaily(r, now))
      case Weekly => NearestMatch(r, None, now, 0, 7)
      case Biweekly => NearestMatch(r, Anchor(zone, t, now), now, 0, 14)
      case Monthly => Some(PreviousMonthly(r, now))
      case Yearly => Some(PreviousYearly(r, now))
  }

  predicate WithinWindow(t: Task, now: int) {
    var minutes := now % NANOS_PER_DAY / NANOS_PER_MINUTE;
    match (t.windowStart, t.windowEnd)
    case (None, None) => true
    case (Some(s), None) => minutes >= s
    case (None, Some(e)) => minutes < e
    case (Some(s), Some(e)) => if s < e then s <= minutes < e else minutes >= s || minutes < e
  }

  predicate IntervalDue(zone: Zone, t: Task, now: int) {
    var base := if t.lastRunAt == 0 then t.createdAt else t.lastRunAt;
    && t.period > 0
    && (base != 0 ==> now - UnixMilli(zone, base) >= t.period)
    && WithinWindow(t, now)
  }

  predicate DueFor(zone: Zone, t: Task, scheduled: int, now: int) {
    && (t.createdAt != 0 ==> UnixMilli(zone, t.createdAt) <= scheduled)
    && (t.lastRunAt != 0 ==> UnixMilli(zone, t.lastRunAt) < scheduled)
    && scheduled <= now
  }

  /** `heartbeatTaskDueAt`. */
  predicate DueAt(zone: Zone, t: Task, now: int) {
    match PreviousAt(zone, t, now)
    case Some(scheduled) => DueFor(zone, t, scheduled, now)
    case None => IntervalDue(zone, t, now)
  }

  // ---- What the rules mean, read off the instant itself ----

  predicate OnClock(r: Rule, t: int) {
    t == InstantAt(DayOf(t), r.hour, r.minute)
  }

  /** The rule's day of the month, or the last day of a shorter month. */
  predicate OnMonthDay(r: Rule, t: int) {
    var c := CivilOf(DayOf(t));
    DateOfCivil(DayOf(t));
    c.day == if r.day < 1 then 1
             else if r.day > MonthLength(c.year, c.month) then MonthLength(c.year, c.month)
             else r.day
  }

  predicate Scheduled(r: Rule, anchor: Option<int>, t: int) {
    && OnClock(r, t)
    && match r.kind
       case Daily => true
       case Weekly => Weekday(DayOf(t)) in r.days
       case Biweekly => Weekday(DayOf(t)) in r.days && InPhase(anchor, t)
       case Monthly => OnMonthDay(r, t)
       case Yearly => CivilOf(DayOf(t)).month == r.month && OnMonthDay(r, t)
  }

  ghost predicate IsLatest(r: Rule, anchor: Option<int>, now: int, t: int) {
    && Scheduled(r, anchor, t)
    && t <= now
    && forall u :: Scheduled(r, anchor, u) && u <= now ==> u <= t
  }

  // ---- Daily ----

  lemma DailyIsLatest(r: Rule, anchor: Option<int>, now: int)
    requires r.kind == Daily
    ensures IsLatest(r, anchor, now, PreviousDaily(r, now))
  {
  }

  // ---- Weekly and biweekly ----

  /** The search returns the latest scheduled instant not after now of the calendar days it covers. */
  lemma {:induction false} NearestIsLatestBack(r: Rule, anchor: Option<int>, now: int, offset: nat, window: nat)
    requires (r.kind == Weekly && anchor.None?) || r.kind == Biweekly
    ensures match NearestMatch(r, anchor, now, offset, window)
            case Some(t) =>
              && Scheduled(r, anchor, t) && t <= now && DayOf(now) - window < DayOf(t) <= DayOf(now) - offset
              && (forall u :: Scheduled(r, anchor, u) && u <= now && DayOf(u) <= DayOf(now) - offset ==> u <= t)
            case None =>
              forall u :: Scheduled(r, anchor, u) && u <= now && DayOf(u) <= DayOf(now) - offset ==>
                            DayOf(u) <= DayOf(now) - window
    decreases window - offset
  {
    if offset < window {
      NearestIsLatestBack(r, anchor, now, offset + 1, window);
      forall u | Scheduled(r, anchor, u) && u <= now && DayOf(u) == DayOf(now) - offset
        ensures WeekdayMatches(r, anchor, now, offset) && u == CandidateBack(r, now, offset)
      {
      }
    }
  }

  /** Whenever a weekly rule finds an instant, no later one was due: the short window loses nothing but the far past. */
  lemma WeeklyFoundIsLatest(r: Rule, anchor: Option<int>, now: int, window: nat)
    requires (r.kind == Weekly && anchor.None?) || r.kind == Biweekly
    ensures var found := NearestMatch(r, anchor, now, 0, window);
            && (found.Some? ==> IsLatest(r, anchor, now, found.value))
            && (found.Some? <==> exists t :: Scheduled(r, anchor, t) && t <= now && DayOf(now) - window < DayOf(t))
  {
    NearestIsLatestBack(r, anchor, now, 0, window);
  }

  lemma {:induction false} MatchIsFound(r: Rule, anchor: Option<int>, now: int, offset: nat, window: nat, hit: nat)
    requires offset <= hit < window && WeekdayMatches(r, anchor, now, hit)
    ensures NearestMatch(r, anchor, now, offset, window).Some?
    decreases hit - offset
  {
    if offset < hit {
      MatchIsFound(r, anchor, now, offset + 1, window, hit);
    }
  }

  lemma {:induction false} NoMatchNotFound(r: Rule, anchor: Option<int>, now: int, offset: nat, window: nat)
    requires forall o :: offset <= o < window ==> !WeekdayMatches(r, anchor, now, o)
    ensures NearestMatch(r, anchor, now, offset, window).None?
    decreases window - offset
  {
    if offset < window {
      NoMatchNotFound(r, anchor, now, offset + 1, window);
    }
  }

  /** How many days back the weekday `wd` last fell, today counting as zero. */
  function DaysSince(now: int, wd: int): (o: int)
    requires 0 <= wd <= 6
    ensures 0 <= o <= 6 && Weekday(DayOf(now) - o) == wd
  {
    (Weekday(DayOf(now)) - wd) % 7
  }

  /** Exactly when a weekly rule finds nothing: its only weekday is today and its time has not come yet.  The due
      decision then falls through to the plain interval. */
  lemma WeeklyFoundWhen(r: Rule, now: int)
    requires r.kind == Weekly
    ensures NearestMatch(r, None, now, 0, 7).Some?
       <==> (exists wd <- r.days :: wd != Weekday(DayOf(now))) || CandidateBack(r, now, 0) <= now
  {
    if wd :| wd in r.days && wd != Weekday(DayOf(now)) {
      MatchIsFound(r, None, now, 0, 7, DaysSince(now, wd));
    } else if CandidateBack(r, now, 0) <= now {
      assert r.days[0] in r.days && r.days[0] == Weekday(DayOf(now));
      MatchIsFound(r, None, now, 0, 7, 0);
    } else {
      NoMatchNotFound(r, None, now, 0, 7);
    }
  }

  /** The week a day belongs to, Monday first, counted from the calendar's start. */
  function WeekIndex(day: int): int {
    (day + 5) / 7
  }

  function Distance(a: int, b: int): int {
    if a < b then b - a else a - b
  }

  lemma WeekStartIndex(t: int)
    ensures WeekStart(t) == InstantAt(7 * WeekIndex(DayOf(t)) - 5, 0, 0)
  {
  }

  predicate EvenWeeksApart(a: int, t: int) {
    var weeks := Distance(WeekIndex(DayOf(a)), WeekIndex(DayOf(t)));
    weeks % 2 == 0 || weeks > 15250
  }

  /** The code's phase is true week parity up to 15250 weeks (292 years); past that every week counts as in phase. */
  lemma PhaseIsParity(a: int, t: int)
    ensures InPhase(Some(a), t) <==> EvenWeeksApart(a, t)
  {
    WeekStartIndex(a);
    WeekStartIndex(t);
    var weeks := Distance(WeekIndex(DayOf(a)), WeekIndex(DayOf(t)));
    var d := weeks * NANOS_PER_WEEK;
    assert WeeksBetween(WeekStart(a), WeekStart(t)) == (if d > MAX_DURATION then MAX_DURATION else d) / NANOS_PER_WEEK;
    assert weeks <= 15250 ==> d <= MAX_DURATION;
    assert weeks > 15250 ==> d > MAX_DURATION;
    assert MAX_DURATION / NANOS_PER_WEEK == 15250;
  }

  lemma DayOfInstant(r: Rule, day: int)
    ensures DayOf(InstantAt(day, r.hour, r.minute)) == day
  {
  }

  /** One of any two days a week apart is in phase. */
  lemma PhaseAlternates(a: int, t: int, u: int)
    requires WeekIndex(DayOf(u)) == WeekIndex(DayOf(t)) - 1
    ensures InPhase(Some(a), t) || InPhase(Some(a), u)
  {
    hide InPhase, WeekIndex, DayOf;
    PhaseIsParity(a, t);
    PhaseIsParity(a, u);
    var w, x := WeekIndex(DayOf(a)), WeekIndex(DayOf(t));
    assert Distance(w, x) % 2 == 0 || Distance(w, x - 1) % 2 == 0;
  }

  lemma WeekApart(r: Rule, now: int, offset: int)
    ensures WeekIndex(DayOf(CandidateBack(r, now, offset + 7))) == WeekIndex(DayOf(CandidateBack(r, now, offset))) - 1
    ensures Weekday(DayOf(now) - (offset + 7)) == Weekday(DayOf(now) - offset)
  {
    DayOfInstant(r, DayOf(now) - offset);
    DayOfInstant(r, DayOf(now) - (offset + 7));
  }

  lemma BackAWeek(r: Rule, now: int, offset: int)
    requires 0 <= offset <= 6
    ensures offset > 0 ==> CandidateBack(r, now, offset) <= now
    ensures CandidateBack(r, now, offset + 7) <= now
  {
  }

  lemma BiweeklyOtherDay(r: Rule, a: int, now: int, wd: int)
    requires r.kind == Biweekly && wd in r.days && wd != Weekday(DayOf(now))
    ensures NearestMatch(r, Some(a), now, 0, 14).Some?
  {
    hide InPhase, WeekIndex, DayOf, Weekday;
    var o := DaysSince(now, wd);
    BackAWeek(r, now, o);
    WeekApart(r, now, o);
    PhaseAlternates(a, CandidateBack(r, now, o), CandidateBack(r, now, o + 7));
    MatchIsFound(r, Some(a), now, 0, 14, if InPhase(Some(a), CandidateBack(r, now, o)) then o else o + 7);
  }

  lemma BiweeklyToday(r: Rule, a: int, now: int)
    requires r.kind == Biweekly && forall wd <- r.days :: wd == Weekday(DayOf(now))
    ensures NearestMatch(r, Some(a), now, 0, 14).Some?
       <==> CandidateBack(r, now, 0) <= now || InPhase(Some(a), CandidateBack(r, now, 7))
  {
    hide InPhase, WeekIndex;
    assert r.days[0] in r.days && r.days[0] == Weekday(DayOf(now));
    WeekApart(r, now, 0);
    BackAWeek(r, now, 0);
    if InPhase(Some(a), CandidateBack(r, now, 7)) {
      MatchIsFound(r, Some(a), now, 0, 14, 7);
    } else if CandidateBack(r, now, 0) <= now {
      PhaseAlternates(a, CandidateBack(r, now, 0), CandidateBack(r, now, 7));
      MatchIsFound(r, Some(a), now, 0, 14, 0);
    } else {
      NoMatchNotFound(r, Some(a), now, 0, 14);
    }
  }

  /** Exactly when a biweekly rule finds nothing in its two weeks: its only weekday is today, this is the right week
      and the time has not come yet. */
  lemma BiweeklyFoundWhen(r: Rule, a: int, now: int)
    requires r.kind == Biweekly
    ensures NearestMatch(r, Some(a), now, 0, 14).Some?
       <==> || (exists wd <- r.days :: wd != Weekday(DayOf(now)))
            || CandidateBack(r, now, 0) <= now
            || InPhase(Some(a), CandidateBack(r, now, 7))
  {
    if wd :| wd in r.days && wd != Weekday(DayOf(now)) {
      BiweeklyOtherDay(r, a, now, wd);
    } else {
      BiweeklyToday(r, a, now);
    }
  }

  // ---- Monthly and yearly ----

  /** The rule's day, and its instant, in the month with index `k`. */
  function DayInMonth(r: Rule, k: int): int {
    Date(k / 12, k % 12 + 1, ClampDay(k / 12, k % 12 + 1, r.day))
  }

  function InMonth(r: Rule, k: int): int {
    InstantAt(DayInMonth(r, k), r.hour, r.minute)
  }

  lemma CandidateInMonth(r: Rule, year: int, month: int)
    requires 1 <= month <= 12
    ensures MonthlyCandidate(year, month, r) == InMonth(r, 12 * year + month - 1)
  {
    var k := 12 * year + month - 1;
    assert k / 12 == year && k % 12 + 1 == month;
  }

  lemma DayInMonthShape(r: Rule, k: int)
    ensures CivilOf(DayInMonth(r, k)) == Civil(k / 12, k % 12 + 1, ClampDay(k / 12, k % 12 + 1, r.day))
    ensures MonthStart(k) <= DayInMonth(r, k) < MonthStart(k + 1)
  {
    var y, m := k / 12, k % 12 + 1;
    assert 12 * y + m - 1 == k;
    DaysInMonthIsLength(y, m);
    MonthStep(k);
    CivilOfDate(Civil(y, m, ClampDay(y, m, r.day)));
  }

  lemma InMonthShape(r: Rule, k: int)
    ensures MonthOf(DayOf(InMonth(r, k))) == k
    ensures OnClock(r, InMonth(r, k)) && OnMonthDay(r, InMonth(r, k))
    ensures CivilOf(DayOf(InMonth(r, k))).month == k % 12 + 1
  {
    DayOfInstant(r, DayInMonth(r, k));
    DayInMonthShape(r, k);
    MonthUnique(DayInMonth(r, k), k);
    DaysInMonthIsLength(k / 12, k % 12 + 1);
  }

  /** A month holds one instant of the rule and no other. */
  lemma OnePerMonth(r: Rule, t: int)
    requires OnClock(r, t) && OnMonthDay(r, t)
    ensures t == InMonth(r, MonthOf(DayOf(t)))
  {
    var k := MonthOf(DayOf(t));
    DateOfCivil(DayOf(t));
    DaysInMonthIsLength(k / 12, k % 12 + 1);
  }

  lemma InstantsOrdered(r: Rule, a: int, b: int)
    requires a < b
    ensures InstantAt(a, r.hour, r.minute) < InstantAt(b, r.hour, r.minute)
  {
  }

  lemma InMonthIncreases(r: Rule, j: int, k: int)
    requires j < k
    ensures InMonth(r, j) < InMonth(r, k)
  {
    DayInMonthShape(r, j);
    DayInMonthShape(r, k);
    MonthsIncrease(j + 1, k);
    InstantsOrdered(r, DayInMonth(r, j), DayInMonth(r, k));
  }

  lemma MonthsOrdered(t: int, u: int)
    requires t <= u
    ensures MonthOf(DayOf(t)) <= MonthOf(DayOf(u))
  {
    if MonthOf(DayOf(u)) < MonthOf(DayOf(t)) {
      MonthsIncrease(MonthOf(DayOf(u)) + 1, MonthOf(DayOf(t)));
    }
  }

  /** Stepping back a month from a day the previous month lacks lands in the same month. */
  lemma MonthBackSpills(now: int)
    ensures var k := MonthOf(DayOf(now));
            var c := MonthBack(now);
            12 * c.year + c.month - 1
              == if CivilOf(DayOf(now)).day <= IndexLength(k - 1) then k - 1 else k
  {
    hide DayOf, IndexLength;
    var n := DayOf(now);
    var k := MonthOf(n);
    var c := CivilOf(n);
    DateOfCivil(n);
    MonthStep(k - 1);
    MonthStep(k);
    var back := Date(c.year, c.month - 1, c.day);
    assert back == MonthStart(k - 1) + c.day - 1;
    MonthUnique(back, if c.day <= IndexLength(k - 1) then k - 1 else k);
  }

  /** The first condition of a monthly rule: this month's instant has come, or last month has today's day number. */
  predicate MonthlyExact(r: Rule, now: int) {
    var k := MonthOf(DayOf(now));
    InMonth(r, k) <= now || CivilOf(DayOf(now)).day <= IndexLength(k - 1)
  }

  lemma MonthlyValue(r: Rule, now: int)
    ensures var k := MonthOf(DayOf(now));
            PreviousMonthly(r, now) == if InMonth(r, k) > now && MonthlyExact(r, now) then InMonth(r, k - 1) else InMonth(r, k)
  {
    hide MonthOf, InMonth, IndexLength, Date, MonthlyCandidate, DayOf;
    var c, b := CivilOf(DayOf(now)), MonthBack(now);
    MonthBackSpills(now);
    DateOfCivil(DayOf(now));
    DateOfCivil(Date(c.year, c.month - 1, c.day));
    CandidateInMonth(r, c.year, c.month);
    CandidateInMonth(r, b.year, b.month);
  }

  lemma MonthEarlier(r: Rule, now: int, j: int)
    requires j < MonthOf(DayOf(now))
    ensures InMonth(r, j) < now
  {
    DayInMonthShape(r, j);
    MonthsIncrease(j + 1, MonthOf(DayOf(now)));
    assert DayInMonth(r, j) < DayOf(now);
  }

  /** Of the rule's instants, the one of month `k` is the latest not after now once it is the last that has come. */
  lemma LatestOfMonths(r: Rule, now: int, k: int, u: int)
    requires OnClock(r, u) && OnMonthDay(r, u) && u <= now
    requires MonthOf(DayOf(u)) <= k
    ensures u <= InMonth(r, k)
  {
    OnePerMonth(r, u);
    if MonthOf(DayOf(u)) < k {
      InMonthIncreases(r, MonthOf(DayOf(u)), k);
    }
  }

  /** The monthly rule returns the latest scheduled instant not after now exactly when `MonthlyExact` holds; otherwise it
      returns an instant still to come. */
  lemma MonthlyIsLatestIff(r: Rule, anchor: Option<int>, now: int)
    requires r.kind == Monthly
    ensures IsLatest(r, anchor, now, PreviousMonthly(r, now)) <==> MonthlyExact(r, now)
    ensures !MonthlyExact(r, now) ==> PreviousMonthly(r, now) > now
  {
    MonthlyValue(r, now);
    hide MonthOf, InMonth, PreviousMonthly, OnClock, OnMonthDay, DayOf;
    var k := MonthOf(DayOf(now));
    if MonthlyExact(r, now) {
      var best := if InMonth(r, k) > now then k - 1 else k;
      InMonthShape(r, best);
      MonthEarlier(r, now, k - 1);
      forall u | Scheduled(r, anchor, u) && u <= now
        ensures u <= InMonth(r, best)
      {
        OnePerMonth(r, u);
        MonthsOrdered(u, now);
        LatestOfMonths(r, now, best, u);
      }
    }
  }

  lemma MonthInYear(r: Rule, now: int, j: int)
    requires j <= MonthOf(DayOf(now)) && j % 12 == r.month - 1
    ensures var here := 12 * (MonthOf(DayOf(now)) / 12) + r.month - 1;
            j <= here && (j < here ==> j <= here - 12)
  {
  }

  /** The yearly rule always returns the latest scheduled instant not after now, 29 February rules included. */
  lemma YearlyIsLatest(r: Rule, anchor: Option<int>, now: int)
    requires r.kind == Yearly
    ensures IsLatest(r, anchor, now, PreviousYearly(r, now))
  {
    hide MonthOf, InMonth, OnClock, OnMonthDay, DayOf, MonthlyCandidate;
    var y := MonthOf(DayOf(now)) / 12;
    var here := 12 * y + r.month - 1;
    CandidateInMonth(r, y, r.month);
    CandidateInMonth(r, y - 1, r.month);
    MonthEarlier(r, now, here - 12);
    var best := if InMonth(r, here) > now then here - 12 else here;
    assert best % 12 == r.month - 1;
    InMonthShape(r, best);
    forall u | Scheduled(r, anchor, u) && u <= now
      ensures u <= InMonth(r, best)
    {
      OnePerMonth(r, u);
      MonthsOrdered(u, now);
      MonthInYear(r, now, MonthOf(DayOf(u)));
      LatestOfMonths(r, now, best, u);
    }
  }

  // ---- The due decision ----

  /** A scheduled instant has passed that is not older than the task and that its last run did not serve. */
  ghost predicate Owed(zone: Zone, t: Task, now: int)
    requires t.rule.Some?
  {
    exists x :: IsLatest(t.rule.value, Anchor(zone, t, now), now, x) && Open(zone, t, x)
  }

  /** Not from before the task was created, and after its last run. */
  predicate Open(zone: Zone, t: Task, x: int) {
    !(t.createdAt != 0 && x < UnixMilli(zone, t.createdAt)) && !(t.lastRunAt != 0 && x <= UnixMilli(zone, t.lastRunAt))
  }

  /** A weekday rule that can look back within its window: see `WeeklyFoundWhen` and `BiweeklyFoundWhen`. */
  predicate Searchable(zone: Zone, t: Task, now: int)
    requires t.rule.Some?
  {
    var r := t.rule.value;
    r.kind in {Weekly, Biweekly} ==>
      || (exists wd <- r.days :: wd != Weekday(DayOf(now)))
      || CandidateBack(r, now, 0) <= now
      || (r.kind == Biweekly && InPhase(Anchor(zone, t, now), CandidateBack(r, now, 7)))
  }

  lemma LatestUnique(r: Rule, anchor: Option<int>, now: int, x: int, y: int)
    requires IsLatest(r, anchor, now, x) && IsLatest(r, anchor, now, y)
    ensures x == y
  {
  }

  lemma SearchableIsFound(zone: Zone, t: Task, now: int)
    requires t.rule.Some? && t.rule.value.kind in {Weekly, Biweekly}
    ensures PreviousAt(zone, t, now).Some? <==> Searchable(zone, t, now)
    ensures PreviousAt(zone, t, now).Some? ==>
              IsLatest(t.rule.value, Anchor(zone, t, now), now, PreviousAt(zone, t, now).value)
  {
    hide NearestMatch, InPhase, CandidateBack, IsLatest, Weekday, DayOf, UnixMilli;
    var r := t.rule.value;
    if r.kind == Weekly {
      WeeklyFoundWhen(r, now);
      WeeklyFoundIsLatest(r, None, now, 7);
    } else {
      BiweeklyFoundWhen(r, Anchor(zone, t, now).value, now);
      WeeklyFoundIsLatest(r, Anchor(zone, t, now), now, 14);
    }
  }

  /** In a month whose spill strikes, the latest scheduled instant is last month's, and the code does not see it. */
  lemma MonthlySpillMisses(r: Rule, anchor: Option<int>, now: int)
    requires r.kind == Monthly && !MonthlyExact(r, now)
    ensures IsLatest(r, anchor, now, InMonth(r, MonthOf(DayOf(now)) - 1))
  {
    hide MonthOf, InMonth, PreviousMonthly, OnClock, OnMonthDay, DayOf;
    var k := MonthOf(DayOf(now));
    InMonthShape(r, k - 1);
    MonthEarlier(r, now, k - 1);
    forall u | Scheduled(r, anchor, u) && u <= now
      ensures u <= InMonth(r, k - 1)
    {
      OnePerMonth(r, u);
      MonthsOrdered(u, now);
      LatestOfMonths(r, now, k - 1, u);
    }
  }

  /** A whole period has passed since the last run, or since the creation of a task that never ran. */
  predicate PeriodPassed(zone: Zone, t: Task, now: int) {
    && t.period > 0
    && (t.lastRunAt != 0 ==> UnixMilli(zone, t.lastRunAt) + t.period <= now)
    && (t.lastRunAt == 0 && t.createdAt != 0 ==> UnixMilli(zone, t.createdAt) + t.period <= now)
  }

  function MinuteOfDay(now: int): (m: Minute) {
    now / NANOS_PER_MINUTE % MINUTES_PER_DAY
  }

  /** Going round the clock from `start`, `m` comes before `end`; the way from a minute to itself is the whole day. */
  predicate Between(start: Minute, m: Minute, end: Minute) {
    start == end || (m - start) % MINUTES_PER_DAY < (end - start) % MINUTES_PER_DAY
  }

  /** A window runs from its start, or from midnight, to its end, or to midnight. */
  predicate InWindow(t: Task, now: int) {
    match (t.windowStart, t.windowEnd)
    case (None, None) => true
    case (Some(start), None) => start <= MinuteOfDay(now)
    case (None, Some(end)) => MinuteOfDay(now) < end
    case (Some(start), Some(end)) => Between(start, MinuteOfDay(now), end)
  }

  /** A task without a rule, or with one that finds no day, is due exactly when a period has passed, inside its window;
      one that was never run and has no creation time is due whenever its window allows. */
  lemma IntervalDecision(zone: Zone, t: Task, now: int)
    requires t.rule.None? || !Searchable(zone, t, now)
    ensures DueAt(zone, t, now) <==> PeriodPassed(zone, t, now) && InWindow(t, now)
    ensures t.period > 0 && t.lastRunAt == 0 && t.createdAt == 0 ==> (DueAt(zone, t, now) <==> InWindow(t, now))
  {
    MinuteIs(now);
    if t.rule.Some? {
      assert t.rule.value.kind in {Weekly, Biweekly};
      SearchableIsFound(zone, t, now);
    }
    hide Searchable, UnixMilli, MinuteOfDay, NearestMatch;
  }

  lemma MinuteIs(now: int)
    ensures MinuteOfDay(now) == now % NANOS_PER_DAY / NANOS_PER_MINUTE
  {
    var day, rest := now / NANOS_PER_DAY, now % NANOS_PER_DAY;
    assert now == NANOS_PER_MINUTE * (MINUTES_PER_DAY * day) + rest;
    assert now / NANOS_PER_MINUTE == MINUTES_PER_DAY * day + rest / NANOS_PER_MINUTE;
  }

  /** Turning a window round gives the rest of the day: at each moment exactly one of the two lets a task run. */
  lemma WindowTurnedRound(zone: Zone, t: Task, start: Minute, end: Minute, now: int)
    requires t.rule.None? && PeriodPassed(zone, t, now) && start != end
    ensures var there := t.(windowStart := Some(start), windowEnd := Some(end));
            var back := t.(windowStart := Some(end), windowEnd := Some(start));
            DueAt(zone, there, now) <==> !DueAt(zone, back, now)
    ensures var until := t.(windowStart := None, windowEnd := Some(start));
            var from := t.(windowStart := Some(start), windowEnd := None);
            DueAt(zone, until, now) <==> !DueAt(zone, from, now)
    ensures start < end ==>
              (DueAt(zone, t.(windowStart := Some(start), windowEnd := Some(end)), now)
               <==> DueAt(zone, t.(windowStart := Some(start), windowEnd := None), now)
                    && DueAt(zone, t.(windowStart := None, windowEnd := Some(end)), now))
  {
    hide UnixMilli;
  }

  /** The due decision of a calendar task, for every rule, task and moment: it runs exactly when a scheduled instant is
      owed, except that a spilled month is never due, and that a weekday rule whose window is empty is left to the
      plain interval. */
  lemma DueDecision(zone: Zone, t: Task, now: int)
    requires t.rule.Some?
    ensures DueAt(zone, t, now)
       <==> if !Searchable(zone, t, now) then PeriodPassed(zone, t, now) && InWindow(t, now)
            else Owed(zone, t, now) && (t.rule.value.kind == Monthly ==> MonthlyExact(t.rule.value, now))
  {
    hide NearestMatch, IsLatest, PreviousDaily, PreviousMonthly, PreviousYearly, IntervalDue, PeriodPassed, InWindow, MonthlyExact, UnixMilli;
    hide Weekday, CandidateBack, InPhase, DayOf, MonthOf, InMonth;
    var r := t.rule.value;
    var anchor := Anchor(zone, t, now);
    match r.kind
    case Daily => DailyIsLatest(r, anchor, now); OwedIs(zone, t, now, PreviousDaily(r, now));
    case Yearly => YearlyIsLatest(r, anchor, now); OwedIs(zone, t, now, PreviousYearly(r, now));
    case Monthly =>
      MonthlyIsLatestIff(r, anchor, now);
      if MonthlyExact(r, now) { OwedIs(zone, t, now, PreviousMonthly(r, now)); }
    case _ =>
      SearchableIsFound(zone, t, now);
      if !Searchable(zone, t, now) { IntervalDecision(zone, t, now); }
      if Searchable(zone, t, now) { OwedIs(zone, t, now, PreviousAt(zone, t, now).value); }
  }

  /** A biweekly task runs in every other week, counted from the week it was created in, or from its last run when that is
      not known; past 292 years every week counts. */
  lemma BiweeklyWeeks(zone: Zone, t: Task, now: int)
    requires t.rule.Some? && t.rule.value.kind == Biweekly && Searchable(zone, t, now) && DueAt(zone, t, now)
    ensures PreviousAt(zone, t, now).Some?
    ensures var x := PreviousAt(zone, t, now).value;
      && Weekday(DayOf(x)) in t.rule.value.days
      && (t.createdAt != 0 ==> EvenWeeksApart(UnixMilli(zone, t.createdAt), x))
      && (t.createdAt == 0 && t.lastRunAt != 0 ==> EvenWeeksApart(UnixMilli(zone, t.lastRunAt), x))
      && (t.createdAt == 0 && t.lastRunAt == 0 ==> EvenWeeksApart(now, x))
  {
    SearchableIsFound(zone, t, now);
    PhaseIsParity(Anchor(zone, t, now).value, PreviousAt(zone, t, now).value);
    hide NearestMatch, InPhase, Searchable, EvenWeeksApart, UnixMilli, Weekday, DayOf;
  }

  lemma OwedIs(zone: Zone, t: Task, now: int, x: int)
    requires t.rule.Some? && IsLatest(t.rule.value, Anchor(zone, t, now), now, x)
    ensures Owed(zone, t, now) <==> DueFor(zone, t, x, now)
  {
    hide Scheduled, UnixMilli;
    forall y | IsLatest(t.rule.value, Anchor(zone, t, now), now, y)
      ensures y == x
    {
      LatestUnique(t.rule.value, Anchor(zone, t, now), now, x, y);
    }
  }

  /** A task for the 31st at 09:00, never run, looked at on 31 March 2024 at 08:00: its 29 February instant is owed, yet
      the code calls it not due. */
  lemma SpillExample()
    ensures var t := Task(Some(RawRule(Monthly, [], 1, 31, 9, 0)), 0, None, None, 0, 0);
            var now := InstantAt(Date(2024, 3, 31), 8, 0);
            Owed(0, t, now) && !DueAt(0, t, now)
  {
    hide Date, MonthStart, MonthLength, InMonth, IsLatest, IndexLength, Owed;
    var r: Rule := RawRule(Monthly, [], 1, 31, 9, 0);
    var t := Task(Some(r), 0, None, None, 0, 0);
    var now := InstantAt(Date(2024, 3, 31), 8, 0);
    assert DayOf(now) == Date(2024, 3, 31);
    MarchIsSpilled(r, now);
    MonthlySpillMisses(r, None, now);
    MonthEarlier(r, now, MonthOf(DayOf(now)) - 1);
    OwedIs(0, t, now, InMonth(r, MonthOf(DayOf(now)) - 1));
    MonthlyIsLatestIff(r, None, now);
  }

  lemma MarchIsSpilled(r: Rule, now: int)
    requires r.day == 31 && r.hour == 9 && now == InstantAt(Date(2024, 3, 31), 8, 0)
    ensures !MonthlyExact(r, now)
  {
    hide Date, MonthStart;
    var k := 12 * 2024 + 2;
    CivilOfDate(Civil(2024, 3, 31));
    MonthStep(k);
    assert IndexLength(k) == 31 && IndexLength(k - 1) == 29;
    assert Date(2024, 3, 31) == MonthStart(k) + 30 by { DateIs(2024, 3, 31); }
    MonthUnique(Date(2024, 3, 31), k);
    DaysInMonthIsLength(2024, 3);
    assert DayInMonth(r, k) == Date(2024, 3, 31);
  }

  lemma DateIs(y: int, m: int, d: int)
    ensures Date(y, m, d) == MonthStart(12 * y + m - 1) + d - 1
  {
  }
}
