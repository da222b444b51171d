/** Point-in-time sessions: ingestion moves a publication time to when it is available, and
    the event study picks the first session that closes after that. */
module Sessions {
  import opened Outcomes

  // ----- Time

  const HOUR := 3_600_000_000_000
  const MINUTE := 60_000_000_000
  const DAY := 24 * HOUR
  const OPEN := 9 * HOUR + 30 * MINUTE
  const CLOSE := 15 * HOUR

  /** Nanoseconds of a day. */
  type Tick = t: int | 0 <= t < DAY

  /** A Shanghai wall-clock time. Day 0 is a Monday. */
  datatype Moment = Moment(day: int, tick: Tick)

  function Hour(m: Moment): int {
    m.tick / HOUR
  }

  function Minute(m: Moment): int {
    m.tick % HOUR / MINUTE
  }

  predicate Before(a: Moment, b: Moment) {
    a.day < b.day || (a.day == b.day && a.tick < b.tick)
  }

  predicate Weekend(day: int) {
    day % 7 >= 5
  }

  // ----- Ingestion

  datatype Precision = DateOnly | DateTime | NoTime

  /** The first entry at or after a day, in the order of the calendar as it was passed. */
  function FirstListed(calendar: seq<int>, start: int): Option<int> {
    if calendar == [] then None
    else if calendar[0] >= start then Some(calendar[0])
    else FirstListed(calendar[1..], start)
  }

  /** The first weekday at or after a day. */
  function NextWeekday(start: int): (day: int)
    ensures day == if Weekend(start) then start + 7 - start % 7 else start
    ensures !Weekend(day) && forall d :: start <= d < day ==> Weekend(d)
    decreases (7 - start % 7) % 7
  {
    if Weekend(start) then NextWeekday(start + 1) else start
  }

  function OpeningDay(start: int, calendar: seq<int>): int {
    var listed := FirstListed(calendar, start);
    if listed.Some? then listed.value else NextWeekday(start)
  }

  method NextSessionOpen(start: int, calendar: seq<int>) returns (open: Moment)
    ensures open == Moment(OpeningDay(start, calendar), OPEN)
  {
    for i := 0 to |calendar|
      invariant FirstListed(calendar[i..], start) == FirstListed(calendar, start)
    {
      assert calendar[i..][1..] == calendar[i + 1..];
      if calendar[i] >= start {
        return Moment(calendar[i], OPEN);
      }
    }
    var current := start;
    while Weekend(current)
      invariant start <= current && NextWeekday(current) == NextWeekday(start)
      decreases NextWeekday(start) - current
    {
      current := current + 1;
    }
    open := Moment(current, OPEN);
  }

  /** Whether availability moves to a later day. */
  predicate Shifts(publish: Moment, precision: Precision) {
    precision == DateOnly || Hour(publish) >= 15
  }

  function Available(publish: Moment, precision: Precision, calendar: seq<int>): Moment {
    if Shifts(publish, precision) then Moment(OpeningDay(publish.day + 1, calendar), OPEN)
    else if Hour(publish) < 9 || (Hour(publish) == 9 && Minute(publish) < 30) then Moment(publish.day, OPEN)
    else publish
  }

  method FirstAvailableTime(publish: Moment, precision: Precision, calendar: seq<int>) returns (available: Moment)
    ensures available == Available(publish, precision, calendar)
    ensures !Before(available, publish)
    ensures precision == DateOnly ==> publish.day < available.day
  {
    AvailableNotBefore(publish, precision, calendar);
    if precision == DateOnly || Hour(publish) >= 15 {
      available := NextSessionOpen(publish.day + 1, calendar);
    } else if Hour(publish) < 9 || (Hour(publish) == 9 && Minute(publish) < 30) {
      available := Moment(publish.day, OPEN);
    } else {
      available := publish;
    }
  }

  lemma {:induction false} ListedNotBefore(calendar: seq<int>, start: int)
    ensures var listed := FirstListed(calendar, start); listed.Some? ==> listed.value >= start && listed.value in calendar
    ensures FirstListed(calendar, start) == None <==> forall day :: day in calendar ==> day < start
  {
    if calendar != [] {
      ListedNotBefore(calendar[1..], start);
      assert forall day :: day in calendar <==> day == calendar[0] || day in calendar[1..];
    }
  }

  /** Availability never precedes publication. */
  lemma AvailableNotBefore(publish: Moment, precision: Precision, calendar: seq<int>)
    ensures !Before(Available(publish, precision, calendar), publish)
    ensures Shifts(publish, precision) ==> publish.day < Available(publish, precision, calendar).day
  {
    ListedNotBefore(calendar, publish.day + 1);
  }

  /** What is available becomes so while the market is open: at once when published in
      trading hours, at the same day's opening before them, else at a later day's opening. */
  lemma AvailableIsEarliest(publish: Moment, precision: Precision, calendar: seq<int>)
    ensures var available := Available(publish, precision, calendar);
      && OPEN <= available.tick < CLOSE
      && (Shifts(publish, precision) <==> precision == DateOnly || publish.tick >= CLOSE)
      && (Shifts(publish, precision) ==> available.tick == OPEN)
      && (!Shifts(publish, precision) ==>
            available.day == publish.day && available.tick == if publish.tick < OPEN then OPEN else publish.tick)
  {
  }

  // ----- The study calendar

  /** Sessions of a loaded calendar: sorted, without repeats. */
  ghost predicate Sorted(sessions: seq<int>) {
    forall i, j :: 0 <= i < j < |sessions| ==> sessions[i] < sessions[j]
  }

  /** None when the loaded calendar has no such session. */
  function NextSession(sessions: seq<int>, value: int, inclusive: bool): Option<int> {
    if sessions == [] then None
    else if sessions[0] > value || (inclusive && sessions[0] == value) then Some(sessions[0])
    else NextSession(sessions[1..], value, inclusive)
  }

  function ResolveReferenceSession(available: Moment, sessions: seq<int>): Option<int> {
    var session := NextSession(sessions, available.day, true);
    if session == None then None
    else if session.value == available.day && available.tick < CLOSE then session
    else NextSession(sessions, available.day, false)
  }

  lemma {:induction false} NextSessionMeans(sessions: seq<int>, value: int, inclusive: bool)
    requires Sorted(sessions)
    ensures var next := NextSession(sessions, value, inclusive);
      && (next == None <==> forall s :: s in sessions ==> s < value || (s == value && !inclusive))
      && (next.Some? ==>
            && next.value in sessions && (next.value > value || (inclusive && next.value == value))
            && forall s :: s in sessions && (s > value || (inclusive && s == value)) ==> next.value <= s)
  {
    if sessions != [] {
      NextSessionMeans(sessions[1..], value, inclusive);
      assert sessions[0] in sessions;
      assert forall s :: s in sessions <==> s == sessions[0] || s in sessions[1..];
    }
  }

  /** `session` is the first one whose 15:00 close is strictly after `time`. */
  ghost predicate ClosesFirstAfter(sessions: seq<int>, time: Moment, session: int) {
    && session in sessions && Before(time, Moment(session, CLOSE))
    && forall s :: s in sessions && Before(time, Moment(s, CLOSE)) ==> session <= s
  }

  /** The reference session of a time is the first session that closes strictly after it, and
      there is none exactly when no loaded session closes after it. */
  lemma ReferenceClosesFirst(time: Moment, sessions: seq<int>)
    requires Sorted(sessions)
    ensures var session := ResolveReferenceSession(time, sessions);
      && (session.Some? ==> ClosesFirstAfter(sessions, time, session.value))
      && (session == None <==> forall s :: s in sessions ==> !Before(time, Moment(s, CLOSE)))
  {
    NextSessionMeans(sessions, time.day, true);
    NextSessionMeans(sessions, time.day, false);
  }

  // ----- Ingestion and study together

  /** A study session that the shifted availability has already jumped over. */
  ghost predicate SkipsSession(publish: Moment, precision: Precision, calendar: seq<int>, sessions: seq<int>) {
    Shifts(publish, precision) &&
    exists s :: s in sessions && publish.day < s < OpeningDay(publish.day + 1, calendar)
  }

  /** For timestamped publication, resolving the shifted time gives the first session closing
      after publication exactly when the shift jumps over no session of the study calendar,
      whatever calendar ingestion used. */
  lemma ShiftingRefinesIff(publish: Moment, precision: Precision, calendar: seq<int>, sessions: seq<int>)
    requires Sorted(sessions) && precision != DateOnly
    ensures ResolveReferenceSession(Available(publish, precision, calendar), sessions)
        == ResolveReferenceSession(publish, sessions)
      <==> !SkipsSession(publish, precision, calendar, sessions)
  {
    var available := Available(publish, precision, calendar);
    ReferenceClosesFirst(available, sessions);
    ReferenceClosesFirst(publish, sessions);
    if Shifts(publish, precision) {
      AvailableNotBefore(publish, precision, calendar);
      assert publish.tick >= CLOSE;
      forall s ensures Before(publish, Moment(s, CLOSE)) <==> s > publish.day {
      }
      forall s ensures Before(available, Moment(s, CLOSE)) <==> s >= available.day {
      }
    } else {
      assert publish.tick < CLOSE && available.tick < CLOSE && available.day == publish.day;
      forall s ensures Before(publish, Moment(s, CLOSE)) <==> Before(available, Moment(s, CLOSE)) {
      }
    }
  }

  /** The same sorted calendar on both sides never skips a session, also when it runs out. */
  lemma SameCalendarRefines(publish: Moment, precision: Precision, sessions: seq<int>)
    requires Sorted(sessions) && precision != DateOnly
    ensures ResolveReferenceSession(Available(publish, precision, sessions), sessions) == ResolveReferenceSession(publish, sessions)
  {
    FirstListedIsNext(sessions, publish.day + 1);
    NextSessionMeans(sessions, publish.day + 1, true);
    ShiftingRefinesIff(publish, precision, sessions, sessions);
  }

  lemma {:induction false} FirstListedIsNext(sessions: seq<int>, start: int)
    ensures FirstListed(sessions, start) == NextSession(sessions, start, true)
  {
    if sessions != [] { FirstListedIsNext(sessions[1..], start); }
  }

  /** Nor does the weekday fallback, when all sessions are weekdays. */
  lemma WeekdayFallbackRefines(publish: Moment, precision: Precision, sessions: seq<int>)
    requires Sorted(sessions) && precision != DateOnly && forall s :: s in sessions ==> !Weekend(s)
    ensures ResolveReferenceSession(Available(publish, precision, []), sessions) == ResolveReferenceSession(publish, sessions)
  {
    ShiftingRefinesIff(publish, precision, [], sessions);
  }

  /** With a date only, the same calendar gives the first session after that day. */
  lemma DateOnlyIsConservative(publish: Moment, sessions: seq<int>)
    requires Sorted(sessions)
    ensures ResolveReferenceSession(Available(publish, DateOnly, sessions), sessions) == NextSession(sessions, publish.day, false)
  {
    var available := Available(publish, DateOnly, sessions);
    FirstListedIsNext(sessions, publish.day + 1);
    ListedNotBefore(sessions, publish.day + 1);
    NextSessionMeans(sessions, publish.day + 1, true);
    NextSessionMeans(sessions, publish.day, false);
    ReferenceClosesFirst(available, sessions);
    forall s ensures Before(available, Moment(s, CLOSE)) <==> s >= available.day {
    }
  }

  /** No look-ahead: for any two calendars the resolved session closes after publication, and
      is not earlier than the one publication itself would get. */
  lemma NoLookAhead(publish: Moment, precision: Precision, calendar: seq<int>, sessions: seq<int>)
    requires Sorted(sessions)
    ensures var session := ResolveReferenceSession(Available(publish, precision, calendar), sessions);
      session.Some? ==>
        && Before(publish, Moment(session.value, CLOSE))
        && ResolveReferenceSession(publish, sessions).Some?
        && ResolveReferenceSession(publish, sessions).value <= session.value
  {
    AvailableNotBefore(publish, precision, calendar);
    ReferenceClosesFirst(Available(publish, precision, calendar), sessions);
    ReferenceClosesFirst(publish, sessions);
  }

  // ----- Opening days

  /** The day a shift leads to: the first entry at or after the start, in the order in which
      the calendar was passed; without one, the start itself or the Monday after a weekend. */
  lemma {:induction false} OpeningDayIs(start: int, calendar: seq<int>)
    ensures forall k :: 0 <= k < |calendar| && calendar[k] >= start && (forall j :: 0 <= j < k ==> calendar[j] < start) ==>
      OpeningDay(start, calendar) == calendar[k]
    ensures (forall k :: 0 <= k < |calendar| ==> calendar[k] < start) ==>
      OpeningDay(start, calendar) == start + (if start % 7 == 5 then 2 else if start % 7 == 6 then 1 else 0)
  {
    FirstListedIs(calendar, start);
  }

  lemma {:induction false} FirstListedIs(calendar: seq<int>, start: int)
    ensures (forall k :: 0 <= k < |calendar| ==> calendar[k] < start) ==> FirstListed(calendar, start) == None
    ensures forall k :: 0 <= k < |calendar| && calendar[k] >= start && (forall j :: 0 <= j < k ==> calendar[j] < start) ==>
      FirstListed(calendar, start) == Some(calendar[k])
  {
    if calendar != [] {
      FirstListedIs(calendar[1..], start);
      forall k | 0 <= k < |calendar| && calendar[k] >= start && (forall j :: 0 <= j < k ==> calendar[j] < start)
        ensures FirstListed(calendar, start) == Some(calendar[k])
      {
        if k > 0 {
          assert calendar[1..][k - 1] == calendar[k];
          forall j | 0 <= j < k - 1 ensures calendar[1..][j] < start {
            assert calendar[1..][j] == calendar[j + 1];
          }
        }
      }
    }
  }
}
