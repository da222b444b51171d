/** What every run of the A-share execution keeps: positions and lots agree, an order fills
    at most once, T+1 holds over whole histories, cash never falls below the frozen part,
    and value is conserved. */
module ExecutionLedger {
  import opened Outcomes
  import opened Texts
  import opened Lots
  import opened MapSums
  import opened Execution

  // ----- One turn of the loop, named

  function RowFor(c: Call, intent: Intent): MarketRow {
    if intent.symbol in c.rows then c.rows[intent.symbol] else NO_ROW
  }

  function Normalized(c: Call, r: Run, intent: Intent): int {
    NormalizeQuantity(intent.side, intent.target, PositionOf(r.account, intent.symbol), c.config, OrderLot(c, intent)).0
  }

  function FilledFor(c: Call, r: Run, intent: Intent): int {
    FilledQuantity(Normalized(c, r, intent), AvailableVolume(RowFor(c, intent)), c.config.maxParticipation)
  }

  function TradeOf(c: Call, r: Run, intent: Intent): Trade {
    TradeFor(intent, FilledFor(c, r, intent), ExecutionPrice(RowFor(c, intent)), FeesFor(c, intent))
  }

  predicate Fills(c: Call, r: Run, intent: Intent) {
    FatalReason(c, r, intent).None? && NoFillReason(c, r, intent, Normalized(c, r, intent), RowFor(c, intent)).None?
  }

  function FilledRun(c: Call, r: Run, intent: Intent, frozen: real): Run {
    Fill(r, c, intent, Normalized(c, r, intent), FilledFor(c, r, intent), TradeOf(c, r, intent), frozen)
  }

  function RejectReason(c: Call, r: Run, intent: Intent): Reason
    requires !Fills(c, r, intent)
  {
    if FatalReason(c, r, intent).Some? then FatalReason(c, r, intent).value
    else NoFillReason(c, r, intent, Normalized(c, r, intent), RowFor(c, intent)).value
  }

  lemma StepIs(c: Call, r: Run, intent: Intent, frozen: real)
    ensures Step(c, r, intent, frozen) ==
      if !Fills(c, r, intent) then Some(Reject(r, c, intent, Normalized(c, r, intent), RejectReason(c, r, intent)))
      else if Consistent(FilledRun(c, r, intent, frozen).account) then Some(FilledRun(c, r, intent, frozen)) else None
  {
  }

  /** A fill is positive and within the normalized order; a sale is also within the position
      and the sellable quantity, and the order id is new. */
  lemma FillBounds(c: Call, r: Run, intent: Intent)
    requires Fills(c, r, intent)
    ensures intent.side != Hold && intent.orderId !in r.seen
    ensures 0 < FilledFor(c, r, intent) <= Normalized(c, r, intent)
    ensures ExecutionPrice(RowFor(c, intent)) > 0.0
    ensures intent.side == Sell ==>
      && Normalized(c, r, intent) <= PositionOf(r.account, intent.symbol)
      && Normalized(c, r, intent) <= Sellable(r.lots, intent.symbol, c.date, c.config)
    ensures intent.side == Buy ==>
      BuyReserve(Normalized(c, r, intent), ExecutionPrice(RowFor(c, intent)), FeesFor(c, intent)) <= r.cashAvailable
  {
  }

  // ----- Positions and lots

  ghost predicate Book(account: Account, lots: seq<Lot>, date: int) {
    && Positive(lots) && Ordered(lots) && NotAfter(lots, date)
    && (forall symbol :: Quantity(lots, symbol) == PositionOf(account, symbol))
    && (forall symbol :: symbol in account.positions ==> account.positions[symbol] >= 0)
  }

  lemma BuyBook(r: Run, trade: Trade, date: int)
    requires Book(r.account, r.lots, date) && trade.side == Buy && trade.quantity > 0
    ensures Book(ApplyTrade(r.account, trade), r.lots + [Lot(trade.symbol, trade.quantity, date)], date)
  {
    var lot := Lot(trade.symbol, trade.quantity, date);
    var lots := r.lots + [lot];
    PurchaseKeepsOrder(r.lots, lot);
    assert forall l :: l in lots <==> l in r.lots || l == lot;
    forall symbol ensures Quantity(lots, symbol) == PositionOf(ApplyTrade(r.account, trade), symbol) {
      QuantityAppend(r.lots, lot, symbol);
    }
  }

  lemma SellBook(r: Run, trade: Trade, date: int)
    requires Book(r.account, r.lots, date) && trade.side == Sell
    requires 0 < trade.quantity <= PositionOf(r.account, trade.symbol)
    ensures Book(ApplyTrade(r.account, trade), Consume(r.lots, trade.symbol, trade.quantity), date)
  {
    hide Timeline, Consume, Quantity, Positive, Ordered, NotAfter;
    var lots := Consume(r.lots, trade.symbol, trade.quantity);
    ConsumeShape(r.lots, trade.symbol, trade.quantity, date);
    SaleKeepsOrder(r.lots, trade.symbol, trade.quantity);
    forall symbol ensures Quantity(lots, symbol) == PositionOf(ApplyTrade(r.account, trade), symbol) {
      SoldQuantity(r.lots, trade.symbol, trade.quantity, symbol);
    }
  }

  /** Each turn keeps lots and positions in agreement. */
  lemma StepKeepsBook(c: Call, r: Run, intent: Intent, frozen: real)
    requires Book(r.account, r.lots, c.date)
    ensures var next := Step(c, r, intent, frozen);
      next.Some? ==> Book(next.value.account, next.value.lots, c.date)
  {
    StepIs(c, r, intent, frozen);
    hide Step, Fills, Book, FilledFor, Normalized, TradeFor;
    if Fills(c, r, intent) {
      FillBounds(c, r, intent);
      TradeShape(c, r, intent);
      var trade := TradeOf(c, r, intent);
      if intent.side == Buy {
        BuyBook(r, trade, c.date);
      } else {
        SellBook(r, trade, c.date);
      }
    }
  }

  lemma TradeShape(c: Call, r: Run, intent: Intent)
    ensures var trade := TradeOf(c, r, intent);
      trade.symbol == intent.symbol && trade.side == intent.side && trade.quantity == FilledFor(c, r, intent)
  {
  }

  lemma {:induction false} StepsKeepBook(c: Call, r: Run, intents: seq<Intent>, frozen: real, n: nat)
    requires n <= |intents| && Book(r.account, r.lots, c.date)
    ensures var next := Steps(c, r, intents, frozen, n);
      next.Some? ==> Book(next.value.account, next.value.lots, c.date)
  {
    hide Book, Step;
    if n > 0 {
      StepsKeepBook(c, r, intents, frozen, n - 1);
      var before := Steps(c, r, intents, frozen, n - 1);
      if before.Some? { StepKeepsBook(c, before.value, intents[n - 1], frozen); }
    }
  }

  // ----- T+1

  /** A sale under the T+1 rule takes only shares acquired before the trade date. */
  lemma SaleIsSettled(c: Call, r: Run, intent: Intent, frozen: real)
    requires Book(r.account, r.lots, c.date) && c.config.enforceT1 && Fills(c, r, intent) && intent.side == Sell
    ensures var filled := FilledFor(c, r, intent);
      && filled <= |Timeline(r.lots, intent.symbol)|
      && (forall i :: 0 <= i < filled ==> Timeline(r.lots, intent.symbol)[i] < c.date)
      && Timeline(FilledRun(c, r, intent, frozen).lots, intent.symbol) == Timeline(r.lots, intent.symbol)[filled..]
  {
    FillBounds(c, r, intent);
    hide Fills, Normalized, FilledFor, Timeline, Consume;
    SaleTakesSettledShares(r.lots, intent.symbol, FilledFor(c, r, intent), c.date);
  }

  function SoldIn(outcomes: seq<Outcome>, symbol: string): int {
    if outcomes == [] then 0
    else
      var last := outcomes[|outcomes| - 1];
      SoldIn(outcomes[..|outcomes| - 1], symbol) + if last.side == Sell && last.symbol == symbol then last.filled else 0
  }

  lemma SoldAppend(outcomes: seq<Outcome>, outcome: Outcome, symbol: string)
    ensures SoldIn(outcomes + [outcome], symbol)
      == SoldIn(outcomes, symbol) + if outcome.side == Sell && outcome.symbol == symbol then outcome.filled else 0
  {
    assert (outcomes + [outcome])[..|outcomes|] == outcomes;
  }

  /** The settled quantity falls by exactly what is sold; purchases do not raise it. */
  lemma StepSettled(c: Call, r: Run, intent: Intent, frozen: real, symbol: string)
    requires Book(r.account, r.lots, c.date) && c.config.enforceT1
    ensures var next := Step(c, r, intent, frozen);
      next.Some? ==>
        Settled(next.value.lots, symbol, c.date) + SoldIn(next.value.outcomes, symbol)
          == Settled(r.lots, symbol, c.date) + SoldIn(r.outcomes, symbol)
  {
    StepIs(c, r, intent, frozen);
    var next := Step(c, r, intent, frozen);
    if next.Some? {
      var outcome := next.value.outcomes[|r.outcomes|];
      assert next.value.outcomes == r.outcomes + [outcome];
      SoldAppend(r.outcomes, outcome, symbol);
      hide Step, SoldIn;
      if Fills(c, r, intent) {
        FillBounds(c, r, intent);
        FillSettled(c, r, intent, symbol);
      }
    }
  }

  lemma FillSettled(c: Call, r: Run, intent: Intent, symbol: string)
    requires Book(r.account, r.lots, c.date) && c.config.enforceT1 && Fills(c, r, intent)
    ensures var filled := FilledFor(c, r, intent);
      Settled(LotsAfter(r.lots, intent, filled, c.date), symbol, c.date)
        == Settled(r.lots, symbol, c.date) - if intent.side == Sell && intent.symbol == symbol then filled else 0
  {
    FillBounds(c, r, intent);
    var filled := FilledFor(c, r, intent);
    hide Fills, FilledFor, Normalized;
    if intent.side == Buy {
      var lot := Lot(intent.symbol, filled, c.date);
      QuantityAppend(r.lots, lot, symbol);
      assert LotsAfter(r.lots, intent, filled, c.date) == r.lots + [lot];
    } else if intent.symbol == symbol {
      SaleTakesSettledShares(r.lots, symbol, filled, c.date);
    } else {
      OtherSymbolSettled(r.lots, intent.symbol, filled, symbol, c.date);
    }
  }

  lemma OtherSymbolSettled(lots: seq<Lot>, symbol: string, quantity: int, other: string, date: int)
    requires Positive(lots) && 0 <= quantity <= Quantity(lots, symbol) && other != symbol
    ensures Settled(Consume(lots, symbol, quantity), other, date) == Settled(lots, other, date)
  {
    ConsumeDropsFirstShares(lots, symbol, quantity, other);
    ConsumeShape(lots, symbol, quantity, date);
    SettledCounts(lots, other, date);
    SettledCounts(Consume(lots, symbol, quantity), other, date);
  }

  lemma {:induction false} StepsSettled(c: Call, r: Run, intents: seq<Intent>, frozen: real, n: nat, symbol: string)
    requires n <= |intents| && Book(r.account, r.lots, c.date) && c.config.enforceT1
    ensures var next := Steps(c, r, intents, frozen, n);
      next.Some? ==>
        Settled(next.value.lots, symbol, c.date) + SoldIn(next.value.outcomes, symbol)
          == Settled(r.lots, symbol, c.date) + SoldIn(r.outcomes, symbol)
  {
    hide Book, Step, Settled, SoldIn;
    if n > 0 {
      StepsSettled(c, r, intents, frozen, n - 1, symbol);
      StepsKeepBook(c, r, intents, frozen, n - 1);
      var before := Steps(c, r, intents, frozen, n - 1);
      if before.Some? { StepSettled(c, before.value, intents[n - 1], frozen, symbol); }
    }
  }

  // ----- Histories of calls

  datatype Batch = Batch(call: Call, intents: seq<Intent>)

  /** One call; a call that raises leaves the stored state as it was. */
  function Apply(s: State, b: Batch): (State, seq<Outcome>) {
    var done := Execute(s, b.call, b.intents);
    if done.None? then (s, []) else (done.value.0, done.value.1.outcomes)
  }

  function History(s: State, batches: seq<Batch>): (State, seq<Outcome>) {
    if batches == [] then (s, [])
    else
      var before := History(s, batches[..|batches| - 1]);
      var last := Apply(before.0, batches[|batches| - 1]);
      (last.0, before.1 + last.1)
  }

  /** Trade dates never go backwards, starting from `date`. */
  ghost predicate Chronological(batches: seq<Batch>, date: int) {
    && (forall b :: b in batches ==> date <= b.call.date)
    && (forall i, j :: 0 <= i < j < |batches| ==> batches[i].call.date <= batches[j].call.date)
  }

  /** The trade date before the last call of a history. */
  function DateBefore(batches: seq<Batch>, date: int): int
    requires batches != []
  {
    if |batches| == 1 then date else batches[|batches| - 2].call.date
  }

  lemma ChronologicalFront(batches: seq<Batch>, date: int)
    requires batches != [] && Chronological(batches, date)
    ensures var front := batches[..|batches| - 1];
      && Chronological(front, date)
      && DateBefore(batches, date) == (if front == [] then date else front[|front| - 1].call.date)
      && DateBefore(batches, date) <= batches[|batches| - 1].call.date
  {
    assert forall b :: b in batches[..|batches| - 1] ==> b in batches;
  }

  ghost predicate StateBook(s: State, date: int) {
    Book(s.account, Start(s).lots, date)
  }

  lemma LaterBook(account: Account, lots: seq<Lot>, date: int, later: int)
    requires Book(account, lots, date) && date <= later
    ensures Book(account, lots, later)
  {
  }

  lemma {:induction false} NoPositionsNoLots(positions: map<string, int>, symbols: seq<string>)
    requires forall symbol :: symbol in positions ==> positions[symbol] <= 0
    ensures LotsOf(positions, symbols) == []
  {
    if symbols != [] { NoPositionsNoLots(positions, symbols[1..]); }
  }

  /** A ledger stored without lots is read back with the lots it had: none, since every
      position is then empty. */
  lemma EmptyLotsReadBack(account: Account, lots: seq<Lot>, date: int)
    requires Book(account, lots, date)
    ensures (if lots != [] then lots else InitialLots(account.positions)) == lots
  {
    if lots == [] {
      forall symbol | symbol in account.positions ensures account.positions[symbol] <= 0 {
        assert Quantity(lots, symbol) == 0;
      }
      NoPositionsNoLots(account.positions, SortedSet(account.positions.Keys));
    }
  }

  lemma {:induction false} InitialQuantity(positions: map<string, int>, symbols: seq<string>, symbol: string)
    requires forall i, j :: 0 <= i < j < |symbols| ==> symbols[i] != symbols[j]
    requires forall s :: s in positions ==> positions[s] >= 0
    ensures Quantity(LotsOf(positions, symbols), symbol) == if symbol in symbols && symbol in positions then positions[symbol] else 0
    ensures Positive(LotsOf(positions, symbols)) && NotAfter(LotsOf(positions, symbols), SETTLED_DATE)
    ensures forall d :: d in Timeline(LotsOf(positions, symbols), symbol) ==> d == SETTLED_DATE
  {
    if symbols != [] {
      var rest := symbols[1..];
      forall i, j | 0 <= i < j < |rest| ensures rest[i] != rest[j] {
        assert rest[i] == symbols[i + 1] && rest[j] == symbols[j + 1];
      }
      assert symbols == [symbols[0]] + rest;
      InitialQuantity(positions, rest, symbol);
      var s := symbols[0];
      if s in positions && positions[s] > 0 {
        var lot := Lot(s, positions[s], SETTLED_DATE);
        ConsHead(lot, LotsOf(positions, rest), symbol);
        CopiesMeaning(SETTLED_DATE, positions[s]);
        assert ([lot] + LotsOf(positions, rest))[1..] == LotsOf(positions, rest);
        assert LotsOf(positions, symbols) == [lot] + LotsOf(positions, rest);
      } else {
        assert LotsOf(positions, symbols) == LotsOf(positions, rest);
      }
    }
  }

  lemma AllSameAscend(dates: seq<int>, date: int)
    requires forall d :: d in dates ==> d == date
    ensures Ascending(dates)
  {
    forall i, j | 0 <= i < j < |dates| ensures dates[i] <= dates[j] {
      assert dates[i] in dates && dates[j] in dates;
    }
  }

  /** A first call on bare positions starts from lots that match them. */
  lemma BareStateBook(s: State)
    requires s.lots == [] && forall symbol :: symbol in s.account.positions ==> s.account.positions[symbol] >= 0
    ensures StateBook(s, SETTLED_DATE)
  {
    var symbols := SortedSet(s.account.positions.Keys);
    var lots := LotsOf(s.account.positions, symbols);
    forall symbol
      ensures Quantity(lots, symbol) == PositionOf(s.account, symbol) && Ascending(Timeline(lots, symbol))
    {
      InitialQuantity(s.account.positions, symbols, symbol);
      AllSameAscend(Timeline(lots, symbol), SETTLED_DATE);
    }
    InitialQuantity(s.account.positions, symbols, "");
  }

  lemma ApplyKeepsBook(s: State, b: Batch, date: int)
    requires StateBook(s, date) && date <= b.call.date
    ensures StateBook(Apply(s, b).0, b.call.date)
  {
    hide Book, Steps;
    LaterBook(s.account, Start(s).lots, date, b.call.date);
    StepsKeepBook(b.call, Start(s), b.intents, s.frozen, |b.intents|);
    var done := Execute(s, b.call, b.intents);
    if done.Some? {
      EmptyLotsReadBack(done.value.0.account, done.value.0.lots, b.call.date);
    }
  }

  lemma {:induction false} HistoryKeepsBook(s: State, batches: seq<Batch>, date: int)
    requires StateBook(s, date) && Chronological(batches, date)
    ensures StateBook(History(s, batches).0, if batches == [] then date else batches[|batches| - 1].call.date)
  {
    hide StateBook, Apply, Chronological, DateBefore;
    if batches != [] {
      var n := |batches| - 1;
      ChronologicalFront(batches, date);
      HistoryKeepsBook(s, batches[..n], date);
      ApplyKeepsBook(History(s, batches[..n]).0, batches[n], DateBefore(batches, date));
    }
  }
}
