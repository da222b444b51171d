/** Safety of whole execution histories: session sales, at-most-once fills, one outcome per
    intent, the cash floor, and conservation of value. */
module ExecutionSafety {
  import opened Outcomes
  import opened Texts
  import opened Lots
  import opened MapSums
  import opened Execution
  import opened ExecutionLedger
  import opened ExecutionRounding
  import opened Rounding

  // ----- Sales of a session

  lemma {:induction false} SoldConcat(a: seq<Outcome>, b: seq<Outcome>, symbol: string)
    ensures SoldIn(a + b, symbol) == SoldIn(a, symbol) + SoldIn(b, symbol)
  {
    if b == [] {
      assert a + b == a;
    } else {
      SoldConcat(a, b[..|b| - 1], symbol);
      assert (a + b)[..|a + b| - 1] == a + b[..|b| - 1];
    }
  }

  lemma ApplySettled(s: State, b: Batch, symbol: string)
    requires StateBook(s, b.call.date) && b.call.config.enforceT1
    ensures var (next, outcomes) := Apply(s, b);
      Settled(Start(next).lots, symbol, b.call.date) + SoldIn(outcomes, symbol) == Settled(Start(s).lots, symbol, b.call.date)
  {
    hide Book, Steps, Settled;
    StepsSettled(b.call, Start(s), b.intents, s.frozen, |b.intents|, symbol);
    StepsKeepBook(b.call, Start(s), b.intents, s.frozen, |b.intents|);
    var done := Execute(s, b.call, b.intents);
    if done.Some? {
      EmptyLotsReadBack(done.value.0.account, done.value.0.lots, b.call.date);
    }
  }

  lemma {:induction false} SessionSettled(s: State, today: seq<Batch>, date: int, symbol: string)
    requires StateBook(s, date)
    requires forall b :: b in today ==> b.call.date == date && b.call.config.enforceT1
    ensures var (next, outcomes) := History(s, today);
      && StateBook(next, date)
      && Settled(Start(next).lots, symbol, date) + SoldIn(outcomes, symbol) == Settled(Start(s).lots, symbol, date)
  {
    hide StateBook, Apply, Settled, Start;
    if today != [] {
      var n := |today| - 1;
      assert forall b :: b in today[..n] ==> b in today;
      SessionSettled(s, today[..n], date, symbol);
      var (middle, outcomes) := History(s, today[..n]);
      assert today[n] in today;
      ApplySettled(middle, today[n], symbol);
      ApplyKeepsBook(middle, today[n], date);
      SoldConcat(outcomes, Apply(middle, today[n]).1, symbol);
    }
  }

  /** T+1 over whole histories. If trade dates never go backwards, what the calls of one
      session sell of a symbol, over any number of calls and purchases in between, is at most
      what was held when the session opened. */
  lemma SessionSalesWithinOpening(s: State, before: seq<Batch>, today: seq<Batch>, start: int, date: int, symbol: string)
    requires StateBook(s, start) && Chronological(before, start) && start < date
    requires forall b :: b in before ==> b.call.date < date
    requires forall b :: b in today ==> b.call.date == date && b.call.config.enforceT1
    ensures var open := History(s, before).0;
      SoldIn(History(open, today).1, symbol) <= PositionOf(open.account, symbol)
  {
    var open := History(s, before).0;
    HistoryKeepsBook(s, before, start);
    if before != [] { assert before[|before| - 1] in before; }
    var last := if before == [] then start else before[|before| - 1].call.date;
    LaterBook(open.account, Start(open).lots, last, date);
    SessionSettled(open, today, date, symbol);
    SettledWithin(Start(open).lots, symbol, date);
    SettledWithin(Start(History(open, today).0).lots, symbol, date);
  }

  // ----- One outcome per intent, at most one fill per order id

  /** Each turn reports exactly one outcome, and exactly one trade or one rejection that
      agrees with it; the order id is remembered, and a fill needs one not seen before. */
  lemma StepReports(c: Call, r: Run, intent: Intent, frozen: real)
    requires Step(c, r, intent, frozen).Some?
    ensures var next := Step(c, r, intent, frozen).value;
      && |next.outcomes| == |r.outcomes| + 1 && next.outcomes[..|r.outcomes|] == r.outcomes
      && next.seen == r.seen + {intent.orderId}
      && var outcome := next.outcomes[|r.outcomes|];
         && outcome.orderId == intent.orderId && outcome.symbol == intent.symbol && outcome.side == intent.side
         && 0 <= outcome.filled <= outcome.normalized
         && (outcome.filled > 0 <==> Fills(c, r, intent))
         && (outcome.filled > 0 ==>
               && intent.orderId !in r.seen && next.rejections == r.rejections
               && next.trades == r.trades + [TradeOf(c, r, intent)] && TradeOf(c, r, intent).quantity == outcome.filled
               && (outcome.status == Filled <==> outcome.filled == outcome.normalized))
         && (outcome.filled == 0 ==>
               && next.trades == r.trades && next.account == r.account && next.lots == r.lots
               && outcome.reason.Some? && outcome.status in {Rejected, Deferred}
               && next.rejections == r.rejections + [Rejection(intent.symbol, intent.side, intent.target, outcome.reason.value)])
  {
    StepIs(c, r, intent, frozen);
    if Fills(c, r, intent) {
      FillBounds(c, r, intent);
    }
  }

  function FilledIds(outcomes: seq<Outcome>): seq<string> {
    if outcomes == [] then []
    else
      var last := outcomes[|outcomes| - 1];
      FilledIds(outcomes[..|outcomes| - 1]) + if last.filled > 0 then [last.orderId] else []
  }

  function Ids(outcomes: seq<Outcome>): set<string> {
    set outcome | outcome in outcomes :: outcome.orderId
  }

  ghost predicate Distinct(ids: seq<string>) {
    forall i, j :: 0 <= i < j < |ids| ==> ids[i] != ids[j]
  }

  /** `outcomes` were reported from a state that had seen `before`; `seen` is seen now. */
  ghost predicate Once(before: set<string>, outcomes: seq<Outcome>, seen: set<string>) {
    && seen == before + Ids(outcomes)
    && Distinct(FilledIds(outcomes))
    && (forall id :: id in FilledIds(outcomes) ==> id in seen && id !in before)
  }

  lemma OnceAppend(before: set<string>, outcomes: seq<Outcome>, seen: set<string>, outcome: Outcome)
    requires Once(before, outcomes, seen) && (outcome.filled > 0 ==> outcome.orderId !in seen)
    ensures Once(before, outcomes + [outcome], seen + {outcome.orderId})
  {
    var more := outcomes + [outcome];
    assert more[..|outcomes|] == outcomes;
    assert forall o :: o in more <==> o in outcomes || o == outcome;
    assert Ids(more) == Ids(outcomes) + {outcome.orderId};
  }

  lemma {:induction false} StepsOnce(c: Call, r: Run, intents: seq<Intent>, frozen: real, n: nat, before: set<string>)
    requires n <= |intents| && Once(before, r.outcomes, r.seen)
    ensures var next := Steps(c, r, intents, frozen, n);
      next.Some? ==>
        && Once(before, next.value.outcomes, next.value.seen)
        && |next.value.outcomes| == |r.outcomes| + n
        && |next.value.trades| + |next.value.rejections| == |r.trades| + |r.rejections| + n
  {
    hide Step, Once;
    if n > 0 {
      StepsOnce(c, r, intents, frozen, n - 1, before);
      var middle := Steps(c, r, intents, frozen, n - 1);
      if middle.Some? && Step(c, middle.value, intents[n - 1], frozen).Some? {
        StepReports(c, middle.value, intents[n - 1], frozen);
        var next := Step(c, middle.value, intents[n - 1], frozen).value;
        assert next.outcomes == middle.value.outcomes + [next.outcomes[|middle.value.outcomes|]];
        OnceAppend(before, middle.value.outcomes, middle.value.seen, next.outcomes[|middle.value.outcomes|]);
      }
    }
  }

  lemma {:induction false} FilledIdsConcat(a: seq<Outcome>, b: seq<Outcome>)
    ensures FilledIds(a + b) == FilledIds(a) + FilledIds(b)
  {
    if b == [] {
      assert a + b == a;
    } else {
      FilledIdsConcat(a, b[..|b| - 1]);
      assert (a + b)[..|a + b| - 1] == a + b[..|b| - 1];
    }
  }

  lemma OnceConcat(before: set<string>, a: seq<Outcome>, middle: set<string>, b: seq<Outcome>, seen: set<string>)
    requires Once(before, a, middle) && Once(middle, b, seen)
    ensures Once(before, a + b, seen)
  {
    FilledIdsConcat(a, b);
    assert forall o :: o in a + b <==> o in a || o in b;
    assert Ids(a + b) == Ids(a) + Ids(b);
    var x, y := FilledIds(a), FilledIds(b);
    forall i, j | 0 <= i < j < |x + y| ensures (x + y)[i] != (x + y)[j] {
      if i < |x| <= j {
        assert x[i] in x && y[j - |x|] in y;
      }
    }
  }

  /** In any history every order id is filled at most once, never if it was seen before the
      history began, and the seen ids only grow, by the ids reported. */
  lemma {:induction false} FilledAtMostOnce(s: State, batches: seq<Batch>)
    ensures var (next, outcomes) := History(s, batches);
      Once(s.seen, outcomes, next.seen)
  {
    if batches == [] {
      assert Ids([]) == {};
    } else {
      var n := |batches| - 1;
      FilledAtMostOnce(s, batches[..n]);
      var (middle, outcomes) := History(s, batches[..n]);
      ApplyOnce(middle, batches[n]);
      OnceConcat(s.seen, outcomes, middle.seen, Apply(middle, batches[n]).1, Apply(middle, batches[n]).0.seen);
    }
  }

  lemma ApplyOnce(s: State, b: Batch)
    ensures Once(s.seen, Apply(s, b).1, Apply(s, b).0.seen)
    ensures var done := Execute(s, b.call, b.intents);
      done.Some? ==> |done.value.1.outcomes| == |b.intents| == |done.value.1.trades| + |done.value.1.rejections|
  {
    assert Ids([]) == {};
    StepsOnce(b.call, Start(s), b.intents, s.frozen, |b.intents|, s.seen);
  }

  // ----- Cash

  /** Available cash is the cash above the frozen part. */
  ghost predicate Funded(r: Run, frozen: real) {
    r.cashAvailable == Round6(r.account.cash - frozen) && frozen >= 0.0
  }

  /** Amounts of at most six decimals, as the source itself produces them. */
  predicate ExactStart(cash: real, frozen: real) {
    Whole(cash) && Whole(frozen)
  }

  /** What rounding may take from the frozen part: two micro-units for the fees of a buy, and
      one more if cash or frozen cash came with more decimals. */
  function Slack(exact: bool): real {
    if exact then 2.0 * MICRO else 3.0 * MICRO
  }

  ghost predicate Floored(cash: real, frozen: real, exact: bool) {
    && cash >= frozen - Slack(exact)
    && (if exact then ExactStart(cash, frozen) else cash >= frozen || Whole(cash))
  }

  lemma BuyFloored(cash: real, frozen: real, exact: bool, reserve: real, cost: real)
    requires Floored(cash, frozen, exact) && reserve <= Round6(cash - frozen)
    requires Whole(cost) && cost <= reserve + 2.0 * MICRO
    ensures Floored(Round6(cash - cost), frozen, exact)
  {
    Round6Near(cash - frozen);
    Round6Near(cash - cost);
    Round6IsWhole(cash - cost);
    if exact {
      WholeSum(cash, frozen);
      WholeSum(cash, cost);
    }
    hide Round6;
  }

  lemma SaleFloored(cash: real, frozen: real, exact: bool, impact: real)
    requires Floored(cash, frozen, exact) && Whole(impact) && impact >= 0.0
    ensures Floored(Round6(cash + impact), frozen, exact)
  {
    Round6Near(cash + impact);
    Round6IsWhole(cash + impact);
    if Whole(cash) { WholeSum(cash, impact); }
    hide Round6;
  }

  /** The amounts of a trade have six decimals, and its cash impact is their exact sum. */
  lemma TradeIsWhole(intent: Intent, quantity: int, price: real, fees: Fees)
    ensures var trade := TradeFor(intent, quantity, price, fees);
      && Whole(trade.gross) && Whole(trade.fee) && Whole(trade.stamp) && Whole(trade.cashImpact)
      && trade.cashImpact == (if intent.side == Buy then -trade.gross else trade.gross) - (trade.fee + trade.stamp)
  {
    hide Round6, FillPrice, Commission, Levy, Whole;
    var trade := TradeFor(intent, quantity, price, fees);
    YuanIsWhole(0);
    assert Whole(0.0) by { ZeroIsWhole(); }
    Round6IsWhole(Amount(quantity, FillPrice(intent.side, price, fees)));
    Round6IsWhole(Round6(Commission(trade.gross, fees)) + Round6(Levy(trade.gross, fees.transferRate))
                  + Round6(Levy(trade.gross, fees.exchangeRate)));
    Round6IsWhole(Levy(trade.gross, fees.stampRate));
    WholeSum(trade.fee, trade.stamp);
    WholeSum(trade.gross, trade.gross);
    WholeSum(-trade.gross, trade.fee + trade.stamp);
    WholeSum(trade.gross, trade.fee + trade.stamp);
    WholeIs(trade.fee + trade.stamp);
    WholeIs(-trade.gross - (trade.fee + trade.stamp));
    WholeIs(trade.gross - (trade.fee + trade.stamp));
  }

  lemma ZeroIsWhole()
    ensures Whole(0.0)
  {
    YuanIsWhole(0);
  }

  lemma WholeIs(x: real)
    requires Whole(x)
    ensures Round6(x) == x
  {
  }

  lemma FillConsistent(c: Call, r: Run, intent: Intent, frozen: real)
    requires Book(r.account, r.lots, c.date) && Fills(c, r, intent)
    ensures var account := FilledRun(c, r, intent, frozen).account;
      && account.cash == Round6(r.account.cash + TradeOf(c, r, intent).cashImpact)
      && (Consistent(account) <==> account.cash >= -MICRO)
  {
    FillBounds(c, r, intent);
    TradeShape(c, r, intent);
    hide Fills, FilledFor, Normalized, TradeFor, Round6;
    var trade := TradeOf(c, r, intent);
    if intent.side == Buy {
      BuyBook(r, trade, c.date);
    } else {
      SellBook(r, trade, c.date);
    }
  }

  /** The consistency check stops a turn exactly when its fill leaves cash below one negative
      micro-unit. */
  lemma StepStopsIff(c: Call, r: Run, intent: Intent, frozen: real)
    requires Book(r.account, r.lots, c.date)
    ensures var next := Step(c, r, intent, frozen);
      && (next.None? <==> Fills(c, r, intent) && Round6(r.account.cash + TradeOf(c, r, intent).cashImpact) < -MICRO)
      && (next.Some? ==>
            next.value.account.cash == if Fills(c, r, intent) then Round6(r.account.cash + TradeOf(c, r, intent).cashImpact) else r.account.cash)
      && (next.Some? && Funded(r, frozen) ==> Funded(next.value, frozen))
  {
    StepIs(c, r, intent, frozen);
    hide Step, Fills, Round6, TradeOf, Book, FilledFor, Normalized;
    if Fills(c, r, intent) {
      FillConsistent(c, r, intent, frozen);
    }
  }

  /** A buy whose fill price is not rounded up, or a sale that pays for itself. */
  ghost predicate FairTurn(c: Call, r: Run, intent: Intent) {
    && FairFees(FeesFor(c, intent))
    && (intent.side == Buy ==> FillNotRaised(ExecutionPrice(RowFor(c, intent)), FeesFor(c, intent)))
    && (Fills(c, r, intent) && intent.side == Sell ==> TradeOf(c, r, intent).cashImpact >= 0.0)
  }

  /** A fair turn keeps the floor, and then the consistency check stops it only if hardly
      anything is frozen. */
  lemma StepKeepsFloor(c: Call, r: Run, intent: Intent, frozen: real, exact: bool)
    requires Book(r.account, r.lots, c.date) && Funded(r, frozen) && Floored(r.account.cash, frozen, exact)
    requires FairTurn(c, r, intent)
    ensures var next := Step(c, r, intent, frozen);
      && (next.Some? ==> Funded(next.value, frozen) && Floored(next.value.account.cash, frozen, exact))
      && (frozen >= Slack(exact) - MICRO ==> next.Some?)
  {
    hide Step, Book, Fills, Funded, FairTurn, TradeOf, Round6, Whole;
    StepStopsIff(c, r, intent, frozen);
    if Fills(c, r, intent) {
      FillKeepsFloor(c, r, intent, frozen, exact);
    }
  }

  lemma FillKeepsFloor(c: Call, r: Run, intent: Intent, frozen: real, exact: bool)
    requires Funded(r, frozen) && Floored(r.account.cash, frozen, exact) && Fills(c, r, intent) && FairTurn(c, r, intent)
    ensures Floored(Round6(r.account.cash + TradeOf(c, r, intent).cashImpact), frozen, exact)
  {
    hide Fills, FilledFor, Normalized, TradeFor, BuyReserve, ExecutionPrice, Floored, Round6, Whole, FairFees, FillNotRaised, FeesFor, RowFor;
    FillBounds(c, r, intent);
    var impact := TradeOf(c, r, intent).cashImpact;
    TradeIsWhole(intent, FilledFor(c, r, intent), ExecutionPrice(RowFor(c, intent)), FeesFor(c, intent));
    if intent.side == Buy {
      BuyImpact(c, r, intent);
      WholeNegated(impact);
      var reserve := BuyReserve(Normalized(c, r, intent), ExecutionPrice(RowFor(c, intent)), FeesFor(c, intent));
      BuyFloored(r.account.cash, frozen, exact, reserve, -impact);
      assert r.account.cash - -impact == r.account.cash + impact;
    } else {
      SaleFloored(r.account.cash, frozen, exact, impact);
    }
  }

  lemma BuyImpact(c: Call, r: Run, intent: Intent)
    requires Fills(c, r, intent) && FairTurn(c, r, intent) && intent.side == Buy
    ensures -TradeOf(c, r, intent).cashImpact
      <= BuyReserve(Normalized(c, r, intent), ExecutionPrice(RowFor(c, intent)), FeesFor(c, intent)) + 2.0 * MICRO
  {
    hide Fills, FilledFor, Normalized, TradeFor, BuyReserve, ExecutionPrice, FairFees, FillNotRaised, FeesFor, RowFor;
    FillBounds(c, r, intent);
    var price, fees := ExecutionPrice(RowFor(c, intent)), FeesFor(c, intent);
    BuyCostsReserve(intent, FilledFor(c, r, intent), price, fees);
    ReserveMonotone(FilledFor(c, r, intent), Normalized(c, r, intent), price, fees);
  }

  lemma WholeNegated(x: real)
    requires Whole(x)
    ensures Whole(-x)
  {
    WholeSum(x, x);
  }

  /** A buy takes at most two micro-units more than the reserve of the quantity it fills, if
      its fill price is not rounded up. */
  lemma BuyCostsReserve(intent: Intent, quantity: int, price: real, fees: Fees)
    requires intent.side == Buy && quantity >= 0 && price >= 0.0 && FairFees(fees) && FillNotRaised(price, fees)
    ensures -TradeFor(intent, quantity, price, fees).cashImpact <= BuyReserve(quantity, price, fees) + 2.0 * MICRO
  {
    hide TradeFor, BuyReserve, RoundedCost, RoundedReserve, FairFees, FillNotRaised;
    CostIs(intent, quantity, price, fees);
    ReserveIs(quantity, price, fees);
    OverspentBounded(quantity, price, fees);
  }

  /** Every sale of the run brings in at least its fees. */
  ghost predicate SalesPay(c: Call, r: Run, intents: seq<Intent>, frozen: real, n: nat)
    requires n <= |intents|
  {
    forall i: nat :: i < n ==>
      var before := Steps(c, r, intents, frozen, i);
      before.Some? && Fills(c, before.value, intents[i]) && intents[i].side == Sell ==>
        TradeOf(c, before.value, intents[i]).gross >= TradeOf(c, before.value, intents[i]).fee + TradeOf(c, before.value, intents[i]).stamp
  }

  /** Fees are not negative, and no fill price of a buy is rounded up. */
  ghost predicate FairPrices(c: Call, intents: seq<Intent>) {
    forall intent :: intent in intents ==>
      && FairFees(FeesFor(c, intent))
      && (intent.side == Buy ==> FillNotRaised(ExecutionPrice(RowFor(c, intent)), FeesFor(c, intent)))
  }

  lemma SalePays(c: Call, r: Run, intent: Intent)
    requires intent.side == Sell && TradeOf(c, r, intent).gross >= TradeOf(c, r, intent).fee + TradeOf(c, r, intent).stamp
    ensures TradeOf(c, r, intent).cashImpact >= 0.0
  {
    TradeIsWhole(intent, FilledFor(c, r, intent), ExecutionPrice(RowFor(c, intent)), FeesFor(c, intent));
    hide TradeFor, FilledFor, Whole;
  }

  /** Starting from the floor, a call with fair prices whose sales pay for themselves keeps
      it: the shortfalls of its buys do not add up. With enough frozen cash the consistency
      check never stops it. */
  lemma {:induction false} CashFloorHolds(c: Call, r: Run, intents: seq<Intent>, frozen: real, n: nat, exact: bool)
    requires n <= |intents| && Book(r.account, r.lots, c.date) && Funded(r, frozen) && Floored(r.account.cash, frozen, exact)
    requires FairPrices(c, intents) && SalesPay(c, r, intents, frozen, n)
    ensures var next := Steps(c, r, intents, frozen, n);
      && (next.Some? ==> Funded(next.value, frozen) && Floored(next.value.account.cash, frozen, exact))
      && (frozen >= Slack(exact) - MICRO ==> next.Some?)
  {
    hide Step, Fills, Book, TradeOf, Funded, Floored, FairTurn, SalesPay, FairPrices;
    if n > 0 {
      SalesPayBefore(c, r, intents, frozen, n);
      CashFloorHolds(c, r, intents, frozen, n - 1, exact);
      StepsKeepBook(c, r, intents, frozen, n - 1);
      var before := Steps(c, r, intents, frozen, n - 1);
      if before.Some? {
        TurnIsFair(c, r, intents, frozen, n);
        StepKeepsFloor(c, before.value, intents[n - 1], frozen, exact);
      }
    }
  }

  lemma SalesPayBefore(c: Call, r: Run, intents: seq<Intent>, frozen: real, n: nat)
    requires 0 < n <= |intents| && SalesPay(c, r, intents, frozen, n)
    ensures SalesPay(c, r, intents, frozen, n - 1)
  {
    hide Steps, Fills, TradeOf;
  }

  lemma TurnIsFair(c: Call, r: Run, intents: seq<Intent>, frozen: real, n: nat)
    requires 0 < n <= |intents| && SalesPay(c, r, intents, frozen, n) && FairPrices(c, intents)
    requires Steps(c, r, intents, frozen, n - 1).Some?
    ensures FairTurn(c, Steps(c, r, intents, frozen, n - 1).value, intents[n - 1])
  {
    hide Steps, Fills, TradeOf, FairFees, FillNotRaised;
    var before, intent := Steps(c, r, intents, frozen, n - 1).value, intents[n - 1];
    assert intent in intents;
    if Fills(c, before, intent) && intent.side == Sell {
      SalePays(c, before, intent);
    }
  }

  /** A call on this state is well configured, its prices are fair and its sales pay for
      themselves. */
  ghost predicate PaysItself(s: State, b: Batch) {
    && ValidConfig(b.call.config) && FairPrices(b.call, b.intents)
    && SalesPay(b.call, Start(s), b.intents, s.frozen, |b.intents|)
  }

  lemma ApplyKeepsFloor(s: State, b: Batch, date: int, exact: bool)
    requires StateBook(s, date) && date <= b.call.date && s.frozen >= 0.0 && Floored(s.account.cash, s.frozen, exact) && PaysItself(s, b)
    ensures s.frozen >= Slack(exact) - MICRO ==> Execute(s, b.call, b.intents).Some?
    ensures Apply(s, b).0.frozen == s.frozen && Floored(Apply(s, b).0.account.cash, s.frozen, exact)
  {
    hide Book, Steps, SalesPay, Floored, FairPrices;
    LaterBook(s.account, Start(s).lots, date, b.call.date);
    CashFloorHolds(b.call, Start(s), b.intents, s.frozen, |b.intents|, exact);
  }

  /** Every call of a history pays for itself, on the state it finds. */
  ghost predicate AllPay(s: State, batches: seq<Batch>) {
    batches == [] ||
    (AllPay(s, batches[..|batches| - 1]) && PaysItself(History(s, batches[..|batches| - 1]).0, batches[|batches| - 1]))
  }

  lemma {:induction false} FloorInHistory(s: State, batches: seq<Batch>, date: int, exact: bool)
    requires StateBook(s, date) && Chronological(batches, date) && s.frozen >= 0.0 && Floored(s.account.cash, s.frozen, exact)
    requires AllPay(s, batches)
    ensures var next := History(s, batches).0; next.frozen == s.frozen && Floored(next.account.cash, s.frozen, exact)
    ensures batches != [] && s.frozen >= Slack(exact) - MICRO ==>
      var last := batches[|batches| - 1];
      Execute(History(s, batches[..|batches| - 1]).0, last.call, last.intents).Some?
  {
    hide StateBook, Apply, PaysItself, Execute, Chronological, DateBefore, Floored;
    if batches != [] {
      var n := |batches| - 1;
      ChronologicalFront(batches, date);
      FloorInHistory(s, batches[..n], date, exact);
      HistoryKeepsBook(s, batches[..n], date);
      ApplyKeepsFloor(History(s, batches[..n]).0, batches[n], DateBefore(batches, date), exact);
    }
  }

  /** The cash floor over whole histories, rounding included. As long as sales pay for
      themselves and no fill price of a buy is rounded up, cash never falls more than two
      micro-units below the frozen part, or three if the amounts at the start have more than
      six decimals; and with one micro-unit less than that frozen, no call is ever stopped by
      the consistency check. */
  lemma FloorOverHistory(s: State, batches: seq<Batch>, date: int)
    requires StateBook(s, date) && Chronological(batches, date) && s.account.cash >= s.frozen >= 0.0
    requires AllPay(s, batches)
    ensures var slack := Slack(ExactStart(s.account.cash, s.frozen));
      && History(s, batches).0.account.cash >= s.frozen - slack
      && (batches != [] && s.frozen >= slack - MICRO ==>
            var last := batches[|batches| - 1];
            Execute(History(s, batches[..|batches| - 1]).0, last.call, last.intents).Some?)
  {
    hide StateBook, History, Execute, Chronological, AllPay, Whole;
    FloorInHistory(s, batches, date, ExactStart(s.account.cash, s.frozen));
  }

  // ----- Conservation of value

  function BasisMap(account: Account): map<string, real> {
    map symbol | symbol in account.positions :: Amount(account.positions[symbol], CostOf(account, symbol))
  }

  /** Cash plus positions at cost, less realized profit. */
  ghost function Worth(account: Account): real {
    account.cash + Sum(BasisMap(account)) - account.realized
  }

  /** What the first rounding of cash and of realized profit may still change. */
  function Unwhole(account: Account): real {
    (if Whole(account.cash) then 0.0 else MICRO / 2.0) + (if Whole(account.realized) then 0.0 else MICRO / 2.0)
  }

  predicate Within(x: real, bound: real) {
    -bound <= x <= bound
  }

  /** A trade within the position conserves value to half a micro-unit, the rounding of the
      basis it adds or removes, except for the stamp tax of a buy, which is paid but enters no
      cost basis. */
  lemma TradeConserves(account: Account, trade: Trade)
    requires trade.side != Hold && trade.quantity > 0
    requires Whole(trade.gross) && Whole(trade.fee) && Whole(trade.stamp) && Whole(trade.cashImpact)
    requires trade.side == Buy ==> PositionOf(account, trade.symbol) >= 0 && trade.cashImpact == -trade.gross - (trade.fee + trade.stamp)
    requires trade.side == Sell ==>
      trade.quantity <= PositionOf(account, trade.symbol) && trade.cashImpact == trade.gross - (trade.fee + trade.stamp)
    ensures var next := ApplyTrade(account, trade);
      && Within(Worth(next) - Worth(account) + (if trade.side == Buy then trade.stamp else 0.0), MICRO / 2.0 + Unwhole(account))
      && Unwhole(next) == 0.0
  {
    hide Amount, BasisMap, Whole, Round6, ApplyTrade, Worth, CostOf;
    CashRounds(account.cash, trade.cashImpact);
    RealizedRounds(account, trade);
    CashIs(account, trade);
    BasisMoves(account, trade);
    WorthIs(account);
    WorthIs(ApplyTrade(account, trade));
  }

  lemma WorthIs(account: Account)
    ensures Worth(account) == account.cash + Sum(BasisMap(account)) - account.realized
  {
  }

  lemma CashIs(account: Account, trade: Trade)
    ensures ApplyTrade(account, trade).cash == Round6(account.cash + trade.cashImpact)
  {
    hide Round6, Amount;
  }

  /** The basis added or removed, up to its rounding. */
  lemma BasisMoves(account: Account, trade: Trade)
    requires trade.side != Hold && trade.quantity > 0 && Whole(trade.gross) && Whole(trade.fee)
    requires if trade.side == Buy then PositionOf(account, trade.symbol) >= 0 else trade.quantity <= PositionOf(account, trade.symbol)
    ensures var removed := Amount(trade.quantity, CostOf(account, trade.symbol));
      var moved := Sum(BasisMap(ApplyTrade(account, trade))) - Sum(BasisMap(account));
      if trade.side == Buy then Within(moved - (trade.gross + trade.fee), MICRO / 2.0)
      else moved == -removed && Within(Round6(removed) - removed, MICRO / 2.0)
  {
    hide Amount, BasisMap, Whole, Round6, ApplyTrade, CostOf, At, PositionOf;
    var cost := CostOf(account, trade.symbol);
    if trade.side == Buy {
      Round6Near(Amount(PositionOf(account, trade.symbol), cost));
      BuyMoves(account, trade);
    } else {
      Round6Near(Amount(trade.quantity, cost));
      SellMoves(account, trade);
    }
  }

  lemma HeldBasis(account: Account, symbol: string)
    ensures At(BasisMap(account), symbol) == Amount(PositionOf(account, symbol), CostOf(account, symbol))
  {
  }

  lemma BuyMoves(account: Account, trade: Trade)
    requires trade.side == Buy && trade.quantity > 0 && Whole(trade.gross) && Whole(trade.fee) && PositionOf(account, trade.symbol) >= 0
    ensures var basis := Amount(PositionOf(account, trade.symbol), CostOf(account, trade.symbol));
      Sum(BasisMap(ApplyTrade(account, trade))) - Sum(BasisMap(account)) == Round6(basis) - basis + (trade.gross + trade.fee)
  {
    hide Amount, BasisMap, Whole, Round6, ApplyTrade, CostOf, At, PositionOf;
    HeldBasis(account, trade.symbol);
    BuyBasis(account, trade);
    SumSet(BasisMap(account), trade.symbol,
           Round6(Amount(PositionOf(account, trade.symbol), CostOf(account, trade.symbol))) + (trade.gross + trade.fee));
  }

  lemma SellMoves(account: Account, trade: Trade)
    requires trade.side == Sell && 0 < trade.quantity <= PositionOf(account, trade.symbol)
    ensures Sum(BasisMap(ApplyTrade(account, trade))) - Sum(BasisMap(account)) == -Amount(trade.quantity, CostOf(account, trade.symbol))
  {
    hide Amount, BasisMap, Whole, Round6, ApplyTrade, CostOf, At, PositionOf;
    var held, cost, m := PositionOf(account, trade.symbol), CostOf(account, trade.symbol), BasisMap(account);
    HeldBasis(account, trade.symbol);
    SellBasis(account, trade);
    SplitAmount(held, trade.quantity, cost);
    if held == trade.quantity {
      SumDrop(m, trade.symbol);
    } else {
      SumSet(m, trade.symbol, Amount(held - trade.quantity, cost));
    }
  }

  lemma CashRounds(cash: real, impact: real)
    requires Whole(impact)
    ensures Whole(Round6(cash + impact))
    ensures Within(Round6(cash + impact) - (cash + impact), if Whole(cash) then 0.0 else MICRO / 2.0)
  {
    Round6IsWhole(cash + impact);
    Round6Near(cash + impact);
    if Whole(cash) { WholeSum(cash, impact); }
  }

  lemma RealizedRounds(account: Account, trade: Trade)
    requires Whole(trade.gross) && Whole(trade.fee) && Whole(trade.stamp) && trade.side != Hold
    ensures var next := ApplyTrade(account, trade).realized;
      var gain := if trade.side == Buy then 0.0
                  else trade.gross - trade.fee - trade.stamp - Round6(Amount(trade.quantity, CostOf(account, trade.symbol)));
      Whole(next) && Within(next - (account.realized + gain), if Whole(account.realized) then 0.0 else MICRO / 2.0)
  {
    var removed := Round6(Amount(trade.quantity, CostOf(account, trade.symbol)));
    Round6IsWhole(Amount(trade.quantity, CostOf(account, trade.symbol)));
    YuanIsWhole(0);
    hide Amount, CostOf;
    var net := trade.gross - trade.fee - trade.stamp;
    WholeSum(trade.gross, trade.fee);
    WholeSum(trade.gross - trade.fee, trade.stamp);
    WholeSum(net, removed);
    var gain := if trade.side == Buy then 0.0 else net - removed;
    CashRounds(account.realized, gain);
    assert ApplyTrade(account, trade).realized == Round6(account.realized + gain);
  }

  lemma BasisChange(account: Account, next: Account, symbol: string, value: real)
    requires symbol in next.positions && next.positions == account.positions[symbol := next.positions[symbol]]
    requires forall s :: s != symbol ==> CostOf(next, s) == CostOf(account, s)
    requires Amount(next.positions[symbol], CostOf(next, symbol)) == value
    ensures BasisMap(next) == BasisMap(account)[symbol := value]
  {
    hide Amount;
    forall s | s in account.positions && s != symbol ensures BasisMap(next)[s] == BasisMap(account)[s] {
      assert next.positions[s] == account.positions[s] && CostOf(next, s) == CostOf(account, s);
    }
    assert BasisMap(next).Keys == BasisMap(account)[symbol := value].Keys;
  }

  lemma BuyBasis(account: Account, trade: Trade)
    requires trade.side == Buy && trade.quantity > 0 && PositionOf(account, trade.symbol) >= 0 && Whole(trade.gross) && Whole(trade.fee)
    ensures BasisMap(ApplyTrade(account, trade)) == BasisMap(account)[trade.symbol :=
      Round6(Amount(PositionOf(account, trade.symbol), CostOf(account, trade.symbol))) + (trade.gross + trade.fee)]
  {
    WholeSum(trade.gross, trade.fee);
    var held, next := PositionOf(account, trade.symbol), ApplyTrade(account, trade);
    var basis := Round6(Amount(held, CostOf(account, trade.symbol))) + (trade.gross + trade.fee);
    AmountOfQuotient(basis, held + trade.quantity);
    hide Amount, BasisMap;
    BasisChange(account, next, trade.symbol, basis);
  }

  lemma SellBasis(account: Account, trade: Trade)
    requires trade.side == Sell && 0 < trade.quantity <= PositionOf(account, trade.symbol)
    ensures var held, m := PositionOf(account, trade.symbol), BasisMap(account);
      BasisMap(ApplyTrade(account, trade)) ==
        if held == trade.quantity then m - {trade.symbol}
        else m[trade.symbol := Amount(held - trade.quantity, CostOf(account, trade.symbol))]
  {
    hide Amount;
    var held, next := PositionOf(account, trade.symbol), ApplyTrade(account, trade);
    assert trade.symbol in account.positions;
    if held != trade.quantity {
      hide BasisMap;
      BasisChange(account, next, trade.symbol, Amount(held - trade.quantity, CostOf(account, trade.symbol)));
    } else {
      forall s | s in next.positions ensures BasisMap(next)[s] == BasisMap(account)[s] {
        assert CostOf(next, s) == CostOf(account, s);
      }
    }
  }

  lemma AmountOfQuotient(a: real, n: int)
    requires n > 0
    ensures Amount(n, a / n as real) == a
  {
  }

  lemma SplitAmount(held: int, sold: int, cost: real)
    ensures Amount(held - sold, cost) == Amount(held, cost) - Amount(sold, cost)
  {
    assert (held - sold) as real == held as real - sold as real;
  }

  function BuyStamps(trades: seq<Trade>): real {
    if trades == [] then 0.0
    else BuyStamps(trades[..|trades| - 1]) + if trades[|trades| - 1].side == Buy then trades[|trades| - 1].stamp else 0.0
  }

  /** What `count` roundings of a basis may change. */
  function Drift(count: int): real {
    count as real * (MICRO / 2.0)
  }

  ghost function WorthWithStamps(r: Run): real {
    Worth(r.account) + BuyStamps(r.trades)
  }

  lemma StepConserves(c: Call, r: Run, intent: Intent, frozen: real)
    requires Book(r.account, r.lots, c.date)
    ensures var next := Step(c, r, intent, frozen);
      next.Some? ==>
        Within(WorthWithStamps(next.value) - WorthWithStamps(r),
               Drift(|next.value.trades| - |r.trades|) + Unwhole(r.account) - Unwhole(next.value.account))
  {
    StepIs(c, r, intent, frozen);
    hide Step, Fills, WorthWithStamps, Unwhole, FilledFor, Normalized, TradeOf, Book;
    if Fills(c, r, intent) {
      FillConserves(c, r, intent, frozen);
    } else if Step(c, r, intent, frozen).Some? {
      SameWorth(r, Step(c, r, intent, frozen).value);
    }
  }

  lemma SameWorth(r: Run, next: Run)
    requires next.account == r.account && next.trades == r.trades
    ensures WorthWithStamps(next) == WorthWithStamps(r)
  {
  }

  lemma FillConserves(c: Call, r: Run, intent: Intent, frozen: real)
    requires Book(r.account, r.lots, c.date) && Fills(c, r, intent)
    ensures var next := FilledRun(c, r, intent, frozen);
      && Within(WorthWithStamps(next) - WorthWithStamps(r), Drift(1) + Unwhole(r.account) - Unwhole(next.account))
      && |next.trades| == |r.trades| + 1
  {
    hide Fills, FilledFor, Normalized, TradeFor, Whole, Book, Worth, Unwhole, ApplyTrade;
    FillBounds(c, r, intent);
    TradeShape(c, r, intent);
    TradeIsWhole(intent, FilledFor(c, r, intent), ExecutionPrice(RowFor(c, intent)), FeesFor(c, intent));
    var trade := TradeOf(c, r, intent);
    BookHeld(r, intent.symbol, c.date);
    TradeConserves(r.account, trade);
    assert (r.trades + [trade])[..|r.trades|] == r.trades;
  }

  lemma BookHeld(r: Run, symbol: string, date: int)
    requires Book(r.account, r.lots, date)
    ensures PositionOf(r.account, symbol) >= 0
  {
  }

  /** Over any call, cash plus positions at cost less realized profit, with the stamp taxes of
      its buys added back, moves by at most half a micro-unit a trade, and once by the
      rounding of cash and realized profit that came with more decimals. */
  lemma {:induction false} ValueConserved(c: Call, r: Run, intents: seq<Intent>, frozen: real, n: nat)
    requires n <= |intents| && Book(r.account, r.lots, c.date)
    ensures var next := Steps(c, r, intents, frozen, n);
      next.Some? ==>
        Within(WorthWithStamps(next.value) - WorthWithStamps(r),
               Drift(|next.value.trades| - |r.trades|) + Unwhole(r.account) - Unwhole(next.value.account))
  {
    hide Book, Step, WorthWithStamps, Unwhole;
    if n > 0 {
      ValueConserved(c, r, intents, frozen, n - 1);
      StepsKeepBook(c, r, intents, frozen, n - 1);
      var before := Steps(c, r, intents, frozen, n - 1);
      if before.Some? { StepConserves(c, before.value, intents[n - 1], frozen); }
    }
  }
}
