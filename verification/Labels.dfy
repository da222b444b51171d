/** Forward-return labels of the event study: returns compounded over exact sessions. */
module Labels {
  import opened Outcomes
  import opened Sessions
  import opened Rounding

  // ----- Bars

  /** A provider field: absent, unreadable, or a number. */
  datatype Field = Missing | Malformed | Number(value: real)

  datatype Bar = Bar(close: Field, previousClose: Field, pctChange: Field, suspended: bool)

  type Bars = map<int, Bar>

  datatype Reason =
    | InvalidClose | Suspended | MalformedPctChange | ReturnBelowMinusOne | InvalidPreviousClose | MissingReturnField
    | MissingSession

  predicate Positive(field: Field) {
    field.Number? && field.value > 0.0
  }

  function DecimalSessionReturn(bar: Bar): Result<real, Reason> {
    if !Positive(bar.close) then Failure(InvalidClose)
    else if bar.suspended then Failure(Suspended)
    else if bar.pctChange.Malformed? then Failure(MalformedPctChange)
    else if bar.pctChange.Number? then
      if bar.pctChange.value / 100.0 <= -1.0 then Failure(ReturnBelowMinusOne) else Success(bar.pctChange.value / 100.0)
    else if Positive(bar.previousClose) then
      var decimal := bar.close.value / bar.previousClose.value - 1.0;
      if decimal <= -1.0 then Failure(ReturnBelowMinusOne) else Success(decimal)
    else if !bar.previousClose.Missing? then Failure(InvalidPreviousClose)
    else Failure(MissingReturnField)
  }

  /** A session has a return exactly when its bar trades at a valid close and a usable field
      says by how much it grew; a percent change wins over a previous close. */
  lemma ReturnMeans(bar: Bar)
    ensures var r := DecimalSessionReturn(bar);
      && (r.Success? <==>
            && Positive(bar.close) && !bar.suspended
            && if bar.pctChange.Missing? then Positive(bar.previousClose)
               else bar.pctChange.Number? && bar.pctChange.value > -100.0)
      && (r.Success? ==> 1.0 + r.value > 0.0)
      && (r.Success? && bar.pctChange.Number? ==> 100.0 * r.value == bar.pctChange.value)
      && (r.Success? && bar.pctChange.Missing? ==> (1.0 + r.value) * bar.previousClose.value == bar.close.value)
  {
    if Positive(bar.close) && Positive(bar.previousClose) {
      var ratio := bar.close.value / bar.previousClose.value;
      assert ratio * bar.previousClose.value == bar.close.value;
      assert ratio > 0.0;
    }
  }

  /** The return of one session, or why there is none. */
  function SessionReturn(bars: Bars, session: int): Result<real, Reason> {
    if session in bars then DecimalSessionReturn(bars[session]) else Failure(MissingSession)
  }

  /** The growth factor over some sessions. */
  function Growth(bars: Bars, sessions: seq<int>): Result<real, Reason> {
    if sessions == [] then Success(1.0)
    else
      match Growth(bars, sessions[..|sessions| - 1])
      case Failure(reason) => Failure(reason)
      case Success(before) =>
        match SessionReturn(bars, sessions[|sessions| - 1])
        case Failure(reason) => Failure(reason)
        case Success(r) => Success(Times(before, 1.0 + r))
  }

  function Times(a: real, b: real): real {
    a * b
  }

  lemma GrowthStep(bars: Bars, sessions: seq<int>, i: nat)
    requires i < |sessions| && Growth(bars, sessions[..i]).Success?
    ensures Growth(bars, sessions[..i + 1]) ==
      match SessionReturn(bars, sessions[i])
      case Failure(reason) => Failure(reason)
      case Success(r) => Success(Times(Growth(bars, sessions[..i]).value, 1.0 + r))
  {
    assert sessions[..i + 1][..i] == sessions[..i];
  }

  lemma {:induction false} GrowthStops(bars: Bars, sessions: seq<int>, n: nat)
    requires n <= |sessions| && Growth(bars, sessions[..n]).Failure?
    ensures Growth(bars, sessions) == Growth(bars, sessions[..n])
    decreases |sessions| - n
  {
    if n < |sessions| {
      assert sessions[..n + 1][..n] == sessions[..n];
      GrowthStops(bars, sessions, n + 1);
    } else {
      assert sessions[..n] == sessions;
    }
  }

  lemma NoGrowth(bars: Bars)
    ensures Growth(bars, []) == Success(1.0)
  {
  }

  /** The compounded return over exact sessions, or the first session's reason against it. */
  method CompoundSessions(bars: Bars, sessions: seq<int>) returns (r: Result<real, Reason>)
    ensures r == Compounded(bars, sessions)
  {
    hide Growth;
    assert sessions[..0] == [] && Growth(bars, []) == Success(1.0) by { NoGrowth(bars); }
    var compounded := 1.0;
    for i := 0 to |sessions|
      invariant Growth(bars, sessions[..i]) == Success(compounded)
    {
      GrowthStep(bars, sessions, i);
      var session := sessions[i];
      var sessionReturn := if session in bars then DecimalSessionReturn(bars[session]) else Failure(MissingSession);
      if sessionReturn.Failure? {
        GrowthStops(bars, sessions, i + 1);
        return Failure(sessionReturn.error);
      }
      compounded := Times(compounded, 1.0 + sessionReturn.value);
    }
    assert sessions[..|sessions|] == sessions;
    r := Success(compounded - 1.0);
  }

  function Compounded(bars: Bars, sessions: seq<int>): Result<real, Reason> {
    match Growth(bars, sessions) case Success(g) => Success(g - 1.0) case Failure(reason) => Failure(reason)
  }

  /** Growth multiplies: over two stretches of sessions it is the product. */
  lemma {:induction false} GrowthConcat(bars: Bars, first: seq<int>, second: seq<int>)
    requires Growth(bars, first + second).Success?
    ensures Growth(bars, first).Success? && Growth(bars, second).Success?
    ensures Growth(bars, first + second).value == Times(Growth(bars, first).value, Growth(bars, second).value)
  {
    if second == [] {
      assert first + second == first;
    } else {
      var n := |second| - 1;
      assert (first + second)[..|first| + n] == first + second[..n];
      hide Times, SessionReturn;
      GrowthConcat(bars, first, second[..n]);
      Associate(Growth(bars, first).value, Growth(bars, second[..n]).value, 1.0 + SessionReturn(bars, second[n]).value);
    }
  }

  lemma Associate(a: real, b: real, c: real)
    ensures Times(Times(a, b), c) == Times(a, Times(b, c))
  {
  }

  // ----- Shifting over sessions

  function IndexOf(sessions: seq<int>, value: int): (i: int)
    requires value in sessions
    ensures 0 <= i < |sessions| && sessions[i] == value
  {
    if sessions[0] == value then 0 else 1 + IndexOf(sessions[1..], value)
  }

  /** None when the shift leaves the loaded range. */
  function ShiftSession(sessions: seq<int>, value: int, offset: int): Option<int>
    requires Sorted(sessions)
  {
    NextSessionMeans(sessions, value, true);
    var resolved := NextSession(sessions, value, true);
    if resolved == None then None
    else
      var index := IndexOf(sessions, resolved.value) + offset;
      if index < 0 || index >= |sessions| then None else Some(sessions[index])
  }

  /** The sessions after one day up to and including another. */
  function SessionsIn(sessions: seq<int>, after: int, upTo: int): seq<int> {
    if sessions == [] then []
    else (if after < sessions[0] <= upTo then [sessions[0]] else []) + SessionsIn(sessions[1..], after, upTo)
  }

  lemma {:induction false} SessionsInNone(sessions: seq<int>, after: int, upTo: int)
    requires forall i :: 0 <= i < |sessions| ==> sessions[i] <= after || sessions[i] > upTo
    ensures SessionsIn(sessions, after, upTo) == []
  {
    if sessions != [] { SessionsInNone(sessions[1..], after, upTo); }
  }

  lemma {:induction false} SessionsInConcat(a: seq<int>, b: seq<int>, after: int, upTo: int)
    ensures SessionsIn(a + b, after, upTo) == SessionsIn(a, after, upTo) + SessionsIn(b, after, upTo)
  {
    if a == [] {
      assert a + b == b;
    } else {
      assert (a + b)[1..] == a[1..] + b;
      SessionsInConcat(a[1..], b, after, upTo);
    }
  }

  lemma {:induction false} SessionsInAll(sessions: seq<int>, after: int, upTo: int)
    requires forall i :: 0 <= i < |sessions| ==> after < sessions[i] <= upTo
    ensures SessionsIn(sessions, after, upTo) == sessions
  {
    if sessions != [] { SessionsInAll(sessions[1..], after, upTo); }
  }

  /** In a sorted calendar they are one contiguous stretch. */
  lemma SessionsInSlice(sessions: seq<int>, after: int, upTo: int, lo: nat, hi: nat)
    requires Sorted(sessions) && lo <= hi <= |sessions|
    requires forall i :: 0 <= i < |sessions| ==> (after < sessions[i] <= upTo <==> lo <= i < hi)
    ensures SessionsIn(sessions, after, upTo) == sessions[lo..hi]
  {
    hide SessionsIn, Sorted;
    var a, b, c := sessions[..lo], sessions[lo..hi], sessions[hi..];
    forall i | 0 <= i < |a| ensures a[i] <= after || a[i] > upTo {
      assert a[i] == sessions[i];
    }
    forall i | 0 <= i < |b| ensures after < b[i] <= upTo {
      assert b[i] == sessions[lo + i];
    }
    forall i | 0 <= i < |c| ensures c[i] <= after || c[i] > upTo {
      assert c[i] == sessions[hi + i];
    }
    assert sessions == a + (b + c);
    SessionsInConcat(a, b + c, after, upTo);
    SessionsInConcat(b, c, after, upTo);
    SessionsInNone(a, after, upTo);
    SessionsInAll(b, after, upTo);
    SessionsInNone(c, after, upTo);
  }

  // ----- Labels

  datatype Direction = Up | Down | Neutral

  datatype LabelReason =
    | ReferenceSessionUnavailable | MissingReferenceStock | SuspendedReferenceStock | InvalidReferenceStockClose
    | MissingReferenceBenchmark | InvalidReferenceBenchmarkClose | ExitSessionUnavailable
    | StockReturn(reason: Reason) | BenchmarkReturn(reason: Reason)

  /** Returns are rounded to ten decimals; the direction is that of the unrounded excess. */
  datatype Label =
    | Unavailable(reason: LabelReason)
    | Labelled(reference: int, exit: int, stock: real, benchmark: real, excess: real, direction: Direction, used: seq<int>)

  function ReferenceAnchor(reference: int, stock: Bars, benchmark: Bars): Option<LabelReason> {
    if reference !in stock then Some(MissingReferenceStock)
    else if stock[reference].suspended then Some(SuspendedReferenceStock)
    else if !Positive(stock[reference].close) then Some(InvalidReferenceStockClose)
    else if reference !in benchmark then Some(MissingReferenceBenchmark)
    else if !Positive(benchmark[reference].close) then Some(InvalidReferenceBenchmarkClose)
    else None
  }

  function OutcomeDirection(excess: real, threshold: real): Direction {
    if excess > threshold then Up else if excess < -threshold then Down else Neutral
  }

  /** The label over the sessions used, or why one of the instruments has no return. */
  function LabelOver(reference: int, exit: int, used: seq<int>, stock: Bars, benchmark: Bars, threshold: real): Label {
    match Compounded(stock, used)
    case Failure(reason) => Unavailable(StockReturn(reason))
    case Success(s) =>
      match Compounded(benchmark, used)
      case Failure(reason) => Unavailable(BenchmarkReturn(reason))
      case Success(b) => Labelled(reference, exit, Round10(s), Round10(b), Round10(s - b), OutcomeDirection(s - b, threshold), used)
  }

  function LabelForEvent(reference: Option<int>, horizon: int, sessions: seq<int>, stock: Bars, benchmark: Bars, threshold: real): Label
    requires Sorted(sessions)
  {
    if reference == None then Unavailable(ReferenceSessionUnavailable)
    else
      var anchor := ReferenceAnchor(reference.value, stock, benchmark);
      if anchor.Some? then Unavailable(anchor.value)
      else
        var exit := ShiftSession(sessions, reference.value, horizon);
        if exit == None then Unavailable(ExitSessionUnavailable)
        else
          var used := SessionsIn(sessions, reference.value, exit.value);
          if |used| != horizon then Unavailable(ExitSessionUnavailable)
          else LabelOver(reference.value, exit.value, used, stock, benchmark, threshold)
  }

  lemma {:induction false} IndexOfSorted(sessions: seq<int>, i: nat)
    requires Sorted(sessions) && i < |sessions|
    ensures IndexOf(sessions, sessions[i]) == i
  {
    if i > 0 { IndexOfSorted(sessions[1..], i - 1); }
  }

  /** The sessions a label would use: the `horizon` ones after the reference session. */
  lemma UsedSessions(reference: int, horizon: nat, sessions: seq<int>)
    requires Sorted(sessions) && reference in sessions
    ensures var i := IndexOf(sessions, reference);
      && ShiftSession(sessions, reference, horizon) == (if i + horizon < |sessions| then Some(sessions[i + horizon]) else None)
      && (i + horizon < |sessions| ==>
            SessionsIn(sessions, reference, sessions[i + horizon]) == sessions[i + 1..i + horizon + 1])
  {
    var i := IndexOf(sessions, reference);
    NextSessionMeans(sessions, reference, true);
    if i + horizon < |sessions| {
      SessionsInSlice(sessions, reference, sessions[i + horizon], i + 1, i + horizon + 1);
    }
  }

  /** From a day that is no session, one session too many is found. */
  lemma OneSessionTooMany(reference: int, horizon: nat, sessions: seq<int>)
    requires Sorted(sessions) && reference !in sessions
    ensures var exit := ShiftSession(sessions, reference, horizon);
      exit.Some? ==> |SessionsIn(sessions, reference, exit.value)| == horizon + 1
  {
    hide SessionsIn, NextSession;
    NextSessionMeans(sessions, reference, true);
    var next := NextSession(sessions, reference, true);
    if next.Some? {
      var i := IndexOf(sessions, next.value);
      hide IndexOf;
      if i + horizon < |sessions| {
        forall k | 0 <= k < |sessions| ensures reference < sessions[k] <= sessions[i + horizon] <==> i <= k < i + horizon + 1 {
          assert sessions[k] in sessions && (k < i ==> sessions[k] < next.value);
        }
        SessionsInSlice(sessions, reference, sessions[i + horizon], i, i + horizon + 1);
      }
    }
  }

  /** So a reference day that is no session yields no label. */
  lemma ReferenceMustBeSession(reference: int, horizon: nat, sessions: seq<int>, stock: Bars, benchmark: Bars, threshold: real)
    requires Sorted(sessions) && reference !in sessions
    ensures LabelForEvent(Some(reference), horizon, sessions, stock, benchmark, threshold).Unavailable?
  {
    hide LabelOver, ReferenceAnchor, SessionsIn, ShiftSession, Sorted;
    OneSessionTooMany(reference, horizon, sessions);
  }

  /** The label's returns are those of the used sessions, and its direction that of the excess
      before rounding. */
  ghost predicate Measures(l: Label, exit: int, used: seq<int>, stock: Bars, benchmark: Bars, threshold: real)
    requires l.Labelled?
  {
    && l.exit == exit && l.used == used
    && Growth(stock, used).Success? && Growth(benchmark, used).Success?
    && var excess := Growth(stock, used).value - Growth(benchmark, used).value;
       && l.stock == Round10(Growth(stock, used).value - 1.0)
       && l.benchmark == Round10(Growth(benchmark, used).value - 1.0)
       && l.excess == Round10(excess) && l.direction == OutcomeDirection(excess, threshold)
  }

  /** An available label tells which sessions it used: the `horizon` sessions that follow the
      reference session, compounded for both instruments. */
  lemma LabelMeans(reference: Option<int>, horizon: nat, sessions: seq<int>, stock: Bars, benchmark: Bars, threshold: real)
    requires Sorted(sessions)
    ensures var l := LabelForEvent(reference, horizon, sessions, stock, benchmark, threshold);
      l.Labelled? <==>
        && reference.Some? && reference.value in sessions && ReferenceAnchor(reference.value, stock, benchmark) == None
        && var i := IndexOf(sessions, reference.value);
           && i + horizon < |sessions|
           && Growth(stock, sessions[i + 1..i + horizon + 1]).Success?
           && Growth(benchmark, sessions[i + 1..i + horizon + 1]).Success?
    ensures var l := LabelForEvent(reference, horizon, sessions, stock, benchmark, threshold);
      l.Labelled? ==>
        && l.reference == reference.value && l.reference in sessions
        && var i := IndexOf(sessions, l.reference);
           && i + horizon < |sessions|
           && Measures(l, sessions[i + horizon], sessions[i + 1..i + horizon + 1], stock, benchmark, threshold)
  {
    hide LabelForEvent, LabelOver, ReferenceAnchor, Growth, IndexOf, Sorted, Measures;
    if reference.None? {
      NoReference(horizon, sessions, stock, benchmark, threshold);
    } else if reference.value in sessions {
      LabelIs(reference.value, horizon, sessions, stock, benchmark, threshold);
      var i := IndexOf(sessions, reference.value);
      if i + horizon < |sessions| {
        OverMeans(reference.value, sessions[i + horizon], sessions[i + 1..i + horizon + 1], stock, benchmark, threshold);
      }
    } else {
      ReferenceMustBeSession(reference.value, horizon, sessions, stock, benchmark, threshold);
    }
  }

  lemma NoReference(horizon: nat, sessions: seq<int>, stock: Bars, benchmark: Bars, threshold: real)
    requires Sorted(sessions)
    ensures LabelForEvent(None, horizon, sessions, stock, benchmark, threshold).Unavailable?
  {
  }

  /** From a session, the label compounds over the `horizon` sessions that follow. */
  lemma LabelIs(reference: int, horizon: nat, sessions: seq<int>, stock: Bars, benchmark: Bars, threshold: real)
    requires Sorted(sessions) && reference in sessions
    ensures var i, l := IndexOf(sessions, reference), LabelForEvent(Some(reference), horizon, sessions, stock, benchmark, threshold);
      if ReferenceAnchor(reference, stock, benchmark).Some? || i + horizon >= |sessions| then l.Unavailable?
      else l == LabelOver(reference, sessions[i + horizon], sessions[i + 1..i + horizon + 1], stock, benchmark, threshold)
  {
    UsedSessions(reference, horizon, sessions);
    hide ReferenceAnchor, LabelOver, ShiftSession, SessionsIn, IndexOf, Sorted;
  }

  lemma OverMeans(reference: int, exit: int, used: seq<int>, stock: Bars, benchmark: Bars, threshold: real)
    ensures var l := LabelOver(reference, exit, used, stock, benchmark, threshold);
      && (l.Labelled? <==> Growth(stock, used).Success? && Growth(benchmark, used).Success?)
      && (l.Labelled? ==> l.reference == reference && Measures(l, exit, used, stock, benchmark, threshold))
  {
    hide Growth, OutcomeDirection, Round10;
    if Growth(stock, used).Success? && Growth(benchmark, used).Success? {
      var s, b := Growth(stock, used).value - 1.0, Growth(benchmark, used).value - 1.0;
      assert s - b == Growth(stock, used).value - Growth(benchmark, used).value;
    }
  }

  /** Before rounding, the longer growth is the shorter one times that of the remaining sessions,
      and both returns are the rounded growths less one. */
  ghost predicate Composes(bars: Bars, longer: seq<int>, shorter: seq<int>, rest: seq<int>, long: real, short: real) {
    && Growth(bars, longer).Success? && Growth(bars, shorter).Success? && Growth(bars, rest).Success?
    && Growth(bars, longer).value == Times(Growth(bars, shorter).value, Growth(bars, rest).value)
    && long == Round10(Growth(bars, longer).value - 1.0) && short == Round10(Growth(bars, shorter).value - 1.0)
  }

  /** An available label implies available labels at every shorter horizon, over a prefix of
      its sessions, and its growth is the shorter label's times that of the remaining sessions. */
  lemma LabelsNest(reference: Option<int>, horizon: nat, longer: nat, sessions: seq<int>, stock: Bars, benchmark: Bars, threshold: real)
    requires Sorted(sessions) && horizon <= longer
    requires LabelForEvent(reference, longer, sessions, stock, benchmark, threshold).Labelled?
    ensures var l := LabelForEvent(reference, longer, sessions, stock, benchmark, threshold);
      var s := LabelForEvent(reference, horizon, sessions, stock, benchmark, threshold);
      && s.Labelled? && |l.used| == longer && s.used == l.used[..horizon]
      && Growth(stock, l.used[horizon..]).Success? && Growth(benchmark, l.used[horizon..]).Success?
      && Composes(stock, l.used, s.used, l.used[horizon..], l.stock, s.stock)
      && Composes(benchmark, l.used, s.used, l.used[horizon..], l.benchmark, s.benchmark)
  {
    hide LabelForEvent, Growth, Sorted, IndexOf, ReferenceAnchor, Measures, Composes, Times;
    LabelMeans(reference, longer, sessions, stock, benchmark, threshold);
    LabelMeans(reference, horizon, sessions, stock, benchmark, threshold);
    var i := IndexOf(sessions, reference.value);
    var used := sessions[i + 1..i + longer + 1];
    Stretches(sessions, i + 1, i + horizon + 1, i + longer + 1);
    GrowthConcat(stock, used[..horizon], used[horizon..]);
    GrowthConcat(benchmark, used[..horizon], used[horizon..]);
    var l := LabelForEvent(reference, longer, sessions, stock, benchmark, threshold);
    var s := LabelForEvent(reference, horizon, sessions, stock, benchmark, threshold);
    MeasuresCompose(l, s, sessions[i + longer], sessions[i + horizon], used, horizon, stock, benchmark, threshold);
  }

  lemma MeasuresCompose(l: Label, s: Label, exit: int, sooner: int, used: seq<int>, horizon: nat, stock: Bars, benchmark: Bars, threshold: real)
    requires l.Labelled? && s.Labelled? && horizon <= |used| && used == used[..horizon] + used[horizon..]
    requires Measures(l, exit, used, stock, benchmark, threshold) && Measures(s, sooner, used[..horizon], stock, benchmark, threshold)
    ensures l.used == used && s.used == used[..horizon]
    ensures Composes(stock, used, used[..horizon], used[horizon..], l.stock, s.stock)
    ensures Composes(benchmark, used, used[..horizon], used[horizon..], l.benchmark, s.benchmark)
  {
    hide Growth, Times, Round10, OutcomeDirection;
    GrowthConcat(stock, used[..horizon], used[horizon..]);
    GrowthConcat(benchmark, used[..horizon], used[horizon..]);
  }

  lemma Stretches(sessions: seq<int>, from: nat, middle: nat, to: nat)
    requires from <= middle <= to <= |sessions|
    ensures sessions[from..to][..middle - from] == sessions[from..middle]
    ensures sessions[from..to] == sessions[from..to][..middle - from] + sessions[from..to][middle - from..]
  {
  }

  // ----- Telescoping

  /** Every bar carries the close before it, starting from `close`, and no percent change. */
  ghost predicate Chained(bars: Bars, sessions: seq<int>, close: real) {
    forall i :: 0 <= i < |sessions| ==> ChainedAt(bars, sessions, close, i)
  }

  ghost predicate ChainedAt(bars: Bars, sessions: seq<int>, close: real, i: nat)
    requires i < |sessions|
  {
    && sessions[i] in bars && bars[sessions[i]].pctChange == Missing
    && bars[sessions[i]].previousClose ==
         if i == 0 then Number(close) else if sessions[i - 1] in bars then bars[sessions[i - 1]].close else Missing
  }

  /** Then growth telescopes to the last close over the first. */
  lemma {:induction false} GrowthTelescopes(bars: Bars, sessions: seq<int>, close: real)
    requires close > 0.0 && Chained(bars, sessions, close) && Growth(bars, sessions).Success?
    ensures sessions != [] ==> Positive(bars[sessions[|sessions| - 1]].close)
    ensures Times(Growth(bars, sessions).value, close) == if sessions == [] then close else bars[sessions[|sessions| - 1]].close.value
  {
    if sessions != [] {
      var n := |sessions| - 1;
      var front := sessions[..n];
      forall i | 0 <= i < |front| ensures ChainedAt(bars, front, close, i) {
        assert ChainedAt(bars, sessions, close, i);
      }
      GrowthTelescopes(bars, front, close);
      assert ChainedAt(bars, sessions, close, n);
      var previous := if n == 0 then close else bars[sessions[n - 1]].close.value;
      hide Times;
      Divide(Growth(bars, front).value, close, previous, bars[sessions[n]].close.value);
    }
  }

  lemma Divide(growth: real, close: real, previous: real, current: real)
    requires previous > 0.0 && Times(growth, close) == previous
    ensures Times(Times(growth, 1.0 + (current / previous - 1.0)), close) == current
  {
    var ratio := current / previous;
    assert Times(previous, ratio) == current;
    assert Times(Times(growth, ratio), close) == Times(Times(growth, close), ratio);
    assert 1.0 + (ratio - 1.0) == ratio;
  }

  /** With chained previous closes, an available label's return is exit close / reference
      close - 1, rounded. */
  lemma LabelTelescopes(reference: Option<int>, horizon: nat, sessions: seq<int>, stock: Bars, benchmark: Bars, threshold: real)
    requires Sorted(sessions) && horizon >= 1
    requires var l := LabelForEvent(reference, horizon, sessions, stock, benchmark, threshold);
      l.Labelled? && l.reference in stock && stock[l.reference].close.Number? && Chained(stock, l.used, stock[l.reference].close.value)
    ensures var l := LabelForEvent(reference, horizon, sessions, stock, benchmark, threshold);
      && l.exit in stock && stock[l.exit].close.Number? && stock[l.reference].close.value > 0.0
      && l.stock == Round10(stock[l.exit].close.value / stock[l.reference].close.value - 1.0)
  {
    hide LabelForEvent, Growth, Round10;
    LabelMeans(reference, horizon, sessions, stock, benchmark, threshold);
    var l := LabelForEvent(reference, horizon, sessions, stock, benchmark, threshold);
    var close := stock[l.reference].close.value;
    GrowthTelescopes(stock, l.used, close);
    assert ChainedAt(stock, l.used, close, horizon - 1);
    Quotient(Growth(stock, l.used).value, close, stock[l.exit].close.value);
  }

  lemma Quotient(growth: real, close: real, exit: real)
    requires close > 0.0 && Times(growth, close) == exit
    ensures growth - 1.0 == exit / close - 1.0
  {
  }

  // ----- Numbers, direction and reasons

  /** An available label's numbers are the compounded returns and their difference to ten
      decimals. It points up if the difference exceeds the threshold, down if it falls below
      the negative threshold, and is neutral between the two. */
  lemma LabelPoints(reference: Option<int>, horizon: nat, sessions: seq<int>, stock: Bars, benchmark: Bars, threshold: real)
    requires Sorted(sessions) && LabelForEvent(reference, horizon, sessions, stock, benchmark, threshold).Labelled?
    ensures var l := LabelForEvent(reference, horizon, sessions, stock, benchmark, threshold);
      && Growth(stock, l.used).Success? && Growth(benchmark, l.used).Success?
      && var excess := Growth(stock, l.used).value - Growth(benchmark, l.used).value;
         && ToTenth(l.stock, Growth(stock, l.used).value - 1.0) && ToTenth(l.benchmark, Growth(benchmark, l.used).value - 1.0)
         && ToTenth(l.excess, excess)
         && (excess > threshold ==> l.direction == Up)
         && (excess <= threshold && excess < -threshold ==> l.direction == Down)
         && (-threshold <= excess <= threshold ==> l.direction == Neutral)
  {
    hide LabelForEvent, Growth, Round10, ToTenth, ReferenceAnchor;
    LabelMeans(reference, horizon, sessions, stock, benchmark, threshold);
    var l := LabelForEvent(reference, horizon, sessions, stock, benchmark, threshold);
    var s, b := Growth(stock, l.used).value, Growth(benchmark, l.used).value;
    Round10IsToTenth(l.stock, s - 1.0);
    Round10IsToTenth(l.benchmark, b - 1.0);
    Round10IsToTenth(l.excess, s - b);
  }

  ghost predicate TradesAt(bars: Bars, session: int) {
    session in bars && bars[session].close.Number? && bars[session].close.value > 0.0
  }

  /** Why there is no label: the first thing missing, in the order reference session, the
      stock's bar of that day, its suspension, its close, the benchmark's bar and close, the
      exit session, a return of the stock and a return of the benchmark. */
  lemma UnavailableBecause(reference: Option<int>, horizon: nat, sessions: seq<int>, stock: Bars, benchmark: Bars, threshold: real)
    requires Sorted(sessions)
    ensures var l := LabelForEvent(reference, horizon, sessions, stock, benchmark, threshold);
      l.Unavailable? ==>
        && (l.reason == ReferenceSessionUnavailable <==> reference.None?)
        && (reference.Some? ==>
              var day := reference.value;
              var anchored := day in stock && !stock[day].suspended && TradesAt(stock, day) && TradesAt(benchmark, day);
              && (l.reason == MissingReferenceStock <==> day !in stock)
              && (l.reason == SuspendedReferenceStock <==> day in stock && stock[day].suspended)
              && (l.reason == InvalidReferenceStockClose <==> day in stock && !stock[day].suspended && !TradesAt(stock, day))
              && (l.reason == MissingReferenceBenchmark <==>
                    day in stock && !stock[day].suspended && TradesAt(stock, day) && day !in benchmark)
              && (l.reason == InvalidReferenceBenchmarkClose <==>
                    day in stock && !stock[day].suspended && TradesAt(stock, day) && day in benchmark && !TradesAt(benchmark, day))
              && (l.reason == ExitSessionUnavailable <==> anchored && !ExitFound(sessions, day, horizon))
              && (l.reason.StockReturn? ==> anchored && ExitFound(sessions, day, horizon))
              && (l.reason.BenchmarkReturn? ==> anchored && ExitFound(sessions, day, horizon)))
  {
    if reference.Some? {
      var day := reference.value;
      AnchorIs(day, stock, benchmark);
      if day in sessions {
        UsedSessions(day, horizon, sessions);
        ExitIs(day, horizon, sessions);
      } else {
        OneSessionTooMany(day, horizon, sessions);
        assert !ExitFound(sessions, day, horizon);
      }
    }
    hide ReferenceAnchor, ShiftSession, SessionsIn, IndexOf, Growth, ExitFound, TradesAt;
  }

  /** The reference day is a session with at least `horizon` sessions after it. */
  ghost predicate ExitFound(sessions: seq<int>, day: int, horizon: nat) {
    exists i :: 0 <= i < |sessions| && sessions[i] == day && i + horizon < |sessions|
  }

  lemma ExitIs(day: int, horizon: nat, sessions: seq<int>)
    requires Sorted(sessions) && day in sessions
    ensures ExitFound(sessions, day, horizon) <==> IndexOf(sessions, day) + horizon < |sessions|
  {
    if i :| 0 <= i < |sessions| && sessions[i] == day && i + horizon < |sessions| {
      IndexOfSorted(sessions, i);
    }
  }

  lemma AnchorIs(day: int, stock: Bars, benchmark: Bars)
    ensures var anchor := ReferenceAnchor(day, stock, benchmark);
      && (anchor == Some(MissingReferenceStock) <==> day !in stock)
      && (anchor == Some(SuspendedReferenceStock) <==> day in stock && stock[day].suspended)
      && (anchor == Some(InvalidReferenceStockClose) <==> day in stock && !stock[day].suspended && !TradesAt(stock, day))
      && (anchor == Some(MissingReferenceBenchmark) <==> day in stock && !stock[day].suspended && TradesAt(stock, day) && day !in benchmark)
      && (anchor == Some(InvalidReferenceBenchmarkClose) <==>
            day in stock && !stock[day].suspended && TradesAt(stock, day) && day in benchmark && !TradesAt(benchmark, day))
      && (anchor == None <==> day in stock && !stock[day].suspended && TradesAt(stock, day) && TradesAt(benchmark, day))
      && (anchor.Some? ==> anchor.value in {MissingReferenceStock, SuspendedReferenceStock, InvalidReferenceStockClose,
                                            MissingReferenceBenchmark, InvalidReferenceBenchmarkClose})
  {
  }

  /** Why a session has no return: the first of the checks that its bar fails. */
  lemma NoReturnBecause(bar: Bar)
    ensures var r := DecimalSessionReturn(bar);
      var closes := bar.close.Number? && bar.close.value > 0.0;
      var chained := bar.previousClose.Number? && bar.previousClose.value > 0.0;
      r.Failure? ==>
        && (r.error == InvalidClose <==> !closes)
        && (r.error == Suspended <==> closes && bar.suspended)
        && (r.error == MalformedPctChange <==> closes && !bar.suspended && bar.pctChange.Malformed?)
        && (r.error == ReturnBelowMinusOne <==> closes && !bar.suspended && bar.pctChange.Number? && bar.pctChange.value <= -100.0)
        && (r.error == InvalidPreviousClose <==>
              closes && !bar.suspended && bar.pctChange.Missing? && !chained && !bar.previousClose.Missing?)
        && (r.error == MissingReturnField <==> closes && !bar.suspended && bar.pctChange.Missing? && bar.previousClose.Missing?)
  {
    ReturnMeans(bar);
  }
}
