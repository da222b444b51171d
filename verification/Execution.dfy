/** A-share execution of order intents: lot normalization, tradability, the T+1 inventory
    check, the cash reserve, partial fills, and the ledger and lot updates. Amounts are reals,
    rounded to six decimals where the source rounds them. */
module Execution {
  import opened Outcomes
  import opened Texts
  import opened Lots
  import opened Rounding

  datatype Side = Buy | Sell | Hold

  datatype Reason =
    | QuantityNotPositive | BelowLotSize | NormalizedToLot | InsufficientPosition | OddLotNotAllowed
    | HoldNoFill | DuplicateOrderId | PriceMissing | Suspended | VolumeZero | OnePriceLimit
    | SellableInsufficient | InsufficientCash | InvalidReferencePrice | ParticipationNoFill | PartialFill

  /** `lotSize` is the intent's own lot size, 0 when its metadata has none. */
  datatype Intent = Intent(orderId: string, symbol: string, side: Side, target: int, lotSize: int, etf: bool)

  /** A market row; missing numbers are 0, missing flags and volume are None. */
  datatype MarketRow = MarketRow(
    executionPrice: real, close: real, open: real, suspended: bool, volume: Option<int>,
    upperFlag: Option<bool>, lowerFlag: Option<bool>, upper: real, lower: real, high: real, low: real)

  const NO_ROW := MarketRow(0.0, 0.0, 0.0, false, None, None, None, 0.0, 0.0, 0.0, 0.0)

  datatype Fees = Fees(rate: real, minimum: real, stampRate: real, slippageBps: real, lotSize: int,
                       transferRate: real, exchangeRate: real, stampOnBuy: bool, stampOnEtf: bool)

  datatype Config = Config(buyLotSize: int, buyLotIncrement: int, allowResidual: bool, enforceT1: bool,
                           maxParticipation: real, blockSuspended: bool, blockNoPrice: bool, blockOnePrice: bool,
                           priceLimit: real, tolerance: real)

  datatype Account = Account(cash: real, positions: map<string, int>, costs: map<string, real>, realized: real)

  datatype State = State(account: Account, lots: seq<Lot>, frozen: real, seen: set<string>)

  /** One call: its date, market rows and assumptions. */
  datatype Call = Call(date: int, rows: map<string, MarketRow>, fees: Fees, feesByOrder: map<string, Fees>, config: Config)

  datatype Status = Filled | Partial | Rejected | Deferred

  datatype Outcome = Outcome(orderId: string, symbol: string, side: Side, requested: int, normalized: int, filled: int,
                             status: Status, reason: Option<Reason>, gross: real, cashFees: real,
                             sellableBefore: int, cashBefore: real, cashAfter: real)

  datatype Trade = Trade(symbol: string, side: Side, quantity: int, price: real, gross: real, fee: real, stamp: real, cashImpact: real)

  datatype Rejection = Rejection(symbol: string, side: Side, requested: int, reason: Reason)

  /** The variables of the execution loop. */
  datatype Run = Run(account: Account, cashAvailable: real, lots: seq<Lot>, seen: set<string>,
                     trades: seq<Trade>, rejections: seq<Rejection>, outcomes: seq<Outcome>)

  // ----- Quantities

  function PositionOf(account: Account, symbol: string): int {
    if symbol in account.positions then account.positions[symbol] else 0
  }

  function FeesFor(c: Call, intent: Intent): Fees {
    if intent.orderId in c.feesByOrder then c.feesByOrder[intent.orderId] else c.fees
  }

  function OrderLot(c: Call, intent: Intent): int {
    var chosen :=
      if intent.lotSize != 0 then intent.lotSize
      else if intent.orderId in c.feesByOrder && c.feesByOrder[intent.orderId].lotSize != 0 then c.feesByOrder[intent.orderId].lotSize
      else c.config.buyLotSize;
    if chosen < 1 then 1 else chosen
  }

  function NormalizeQuantity(side: Side, requested: int, position: int, config: Config, lot: int): (int, Option<Reason>)
    requires lot >= 1
  {
    if requested <= 0 then (0, Some(QuantityNotPositive))
    else match side
      case Buy =>
        if requested < lot then (0, Some(BelowLotSize))
        else
          var normalized := (requested / lot) * lot;
          (normalized, if normalized != requested then Some(NormalizedToLot) else None)
      case Sell =>
        if requested > position then (requested, Some(InsufficientPosition))
        else if requested % lot == 0 then (requested, None)
        else if config.allowResidual && position - requested == 0 then (requested, None)
        else (requested, Some(OddLotNotAllowed))
      case Hold => (0, Some(HoldNoFill))
  }

  /** A buy is rounded down to whole lots, to zero below one lot; a sell is never changed,
      and goes ahead only within the position, in whole lots or closing it out. */
  lemma NormalizeMeaning(side: Side, requested: int, position: int, config: Config, lot: int)
    requires lot >= 1
    ensures var (quantity, reason) := NormalizeQuantity(side, requested, position, config, lot);
      && (side == Buy && requested > 0 ==> 0 <= quantity <= requested < quantity + lot && quantity % lot == 0)
      && (side == Buy && requested > 0 ==> (reason == None <==> quantity == requested))
      && (side == Sell && reason == None ==>
            quantity == requested && 0 < quantity <= position && (quantity % lot == 0 || quantity == position))
      && (side == Sell && 0 < requested <= position && requested % lot == 0 ==> reason == None)
  {
    if side == Buy && requested > 0 {
      if requested < lot {
        assert 0 % lot == 0;
      } else {
        WholeLots(requested, lot);
      }
    }
  }

  lemma WholeLots(requested: int, lot: int)
    requires lot >= 1 && requested >= 0
    ensures 0 <= (requested / lot) * lot <= requested < (requested / lot) * lot + lot
    ensures ((requested / lot) * lot) % lot == 0
  {
    var q := requested / lot;
    assert requested == q * lot + requested % lot;
    MultipleOf(q, lot);
  }

  lemma MultipleOf(q: int, lot: int)
    requires lot >= 1
    ensures (q * lot) % lot == 0
  {
    var x := q * lot;
    var k := q - x / lot;
    assert x == (x / lot) * lot + x % lot;
    assert k * lot == x % lot;
    if k >= 1 {
      AtLeast(k, lot);
    } else if k <= -1 {
      AtLeast(-k, lot);
    }
  }

  lemma AtLeast(k: int, lot: int)
    requires k >= 1 && lot >= 1
    ensures k * lot >= lot
  {
    assert (k - 1) * lot >= 0;
  }

  // ----- Tradability

  function ExecutionPrice(row: MarketRow): real {
    if row.executionPrice > 0.0 then row.executionPrice
    else if row.close > 0.0 then row.close
    else if row.open > 0.0 then row.open
    else 0.0
  }

  function AvailableVolume(row: MarketRow): Option<int> {
    match row.volume
    case None => None
    case Some(v) => Some(if v < 0 then 0 else v)
  }

  predicate IsOnePriceLimit(side: Side, row: MarketRow, config: Config) {
    if side == Buy && row.upperFlag.Some? then row.upperFlag.value
    else if side == Sell && row.lowerFlag.Some? then row.lowerFlag.value
    else
      var price := ExecutionPrice(row);
      var gap := if row.high >= row.low then row.high - row.low else row.low - row.high;
      && price > 0.0 && row.high > 0.0 && row.low > 0.0
      && gap <= config.tolerance
      && match side
         case Buy => row.upper > 0.0 && price >= row.upper - config.tolerance
         case Sell => row.lower > 0.0 && price <= row.lower + config.tolerance
         case Hold => false
  }

  function TradabilityReason(side: Side, quantity: int, row: MarketRow, config: Config): Option<Reason> {
    if config.blockNoPrice && ExecutionPrice(row) <= 0.0 then Some(PriceMissing)
    else if config.blockSuspended && row.suspended then Some(Suspended)
    else if AvailableVolume(row).Some? && AvailableVolume(row).value <= 0 then Some(VolumeZero)
    else if config.blockOnePrice && IsOnePriceLimit(side, row, config) then Some(OnePriceLimit)
    else if quantity <= 0 then Some(QuantityNotPositive)
    else None
  }

  // ----- Fill and costs

  function Max(a: real, b: real): real {
    if a < b then b else a
  }

  /** `_filled_quantity` of the fill boundary: the order, capped by the share of volume. */
  function FilledQuantity(executable: int, volume: Option<int>, participation: real): int {
    if volume.None? then executable
    else if volume.value <= 0 || participation <= 0.0 then 0
    else
      var cap := (volume.value as real * participation).Floor;
      if cap < 0 then 0 else if cap < executable then cap else executable
  }

  /** The fill price before it is rounded. */
  function ExactFill(side: Side, price: real, fees: Fees): real {
    if side == Buy then price * (1.0 + fees.slippageBps / 10000.0) else price * (1.0 - fees.slippageBps / 10000.0)
  }

  function FillPrice(side: Side, price: real, fees: Fees): real {
    Round6(ExactFill(side, price, fees))
  }

  function Amount(quantity: int, price: real): real {
    quantity as real * price
  }

  function Commission(gross: real, fees: Fees): real {
    Max(gross * fees.rate, fees.minimum)
  }

  function Levy(gross: real, rate: real): real {
    gross * rate
  }

  /** Commission, transfer and exchange fees on a gross amount, each rounded on its own. */
  function FeeWithoutTax(gross: real, fees: Fees): real {
    if gross <= 0.0 then 0.0
    else Round6(Round6(Commission(gross, fees)) + Round6(Levy(gross, fees.transferRate)) + Round6(Levy(gross, fees.exchangeRate)))
  }

  function StampTax(side: Side, etf: bool, gross: real, fees: Fees): real {
    if gross > 0.0 && ((side == Sell && (!etf || fees.stampOnEtf)) || (side == Buy && fees.stampOnBuy))
    then Round6(Levy(gross, fees.stampRate)) else 0.0
  }

  /** A gross amount with all fees of a buy, before any rounding. */
  function BuyCost(gross: real, fees: Fees): real {
    gross + Commission(gross, fees) + Levy(gross, fees.transferRate) + Levy(gross, fees.exchangeRate)
      + if fees.stampOnBuy then Levy(gross, fees.stampRate) else 0.0
  }

  /** `estimate_buy_cash_required`: rounded only at the end. */
  function BuyReserve(quantity: int, price: real, fees: Fees): real {
    Round6(BuyCost(Amount(quantity, ExactFill(Buy, price, fees)), fees))
  }

  function TradeFor(intent: Intent, quantity: int, price: real, fees: Fees): Trade {
    var fillPrice := FillPrice(intent.side, price, fees);
    var gross := Round6(Amount(quantity, fillPrice));
    var fee := FeeWithoutTax(gross, fees);
    var stamp := StampTax(intent.side, intent.etf, gross, fees);
    var cashFees := Round6(fee + stamp);
    Trade(intent.symbol, intent.side, quantity, fillPrice, gross, fee, stamp,
          Round6(if intent.side == Buy then -gross - cashFees else gross - cashFees))
  }

  // ----- Ledger

  function CostOf(account: Account, symbol: string): real {
    if symbol in account.costs then account.costs[symbol] else 0.0
  }

  /** `_apply_trades` for one trade. */
  function ApplyTrade(account: Account, trade: Trade): Account {
    var held := PositionOf(account, trade.symbol);
    if trade.side == Buy then
      var basis := Round6(Amount(held, CostOf(account, trade.symbol))) + Round6(trade.gross + trade.fee);
      Account(Round6(account.cash + trade.cashImpact),
              account.positions[trade.symbol := held + trade.quantity],
              if held + trade.quantity == 0 then account.costs
              else account.costs[trade.symbol := basis / (held + trade.quantity) as real],
              Round6(account.realized))
    else
      var removed := Round6(Amount(trade.quantity, CostOf(account, trade.symbol)));
      var realized := Round6(account.realized + Round6(Round6(trade.gross - trade.fee - trade.stamp) - removed));
      var cash := Round6(account.cash + trade.cashImpact);
      if held - trade.quantity <= 0 then
        Account(cash, account.positions - {trade.symbol}, account.costs - {trade.symbol}, realized)
      else
        Account(cash, account.positions[trade.symbol := held - trade.quantity], account.costs, realized)
  }

  predicate Consistent(account: Account) {
    account.cash >= -0.000001 && forall symbol :: symbol in account.positions ==> account.positions[symbol] >= 0
  }

  function Sellable(lots: seq<Lot>, symbol: string, date: int, config: Config): int {
    if config.enforceT1 then Settled(lots, symbol, date) else Quantity(lots, symbol)
  }

  function LotsAfter(lots: seq<Lot>, intent: Intent, quantity: int, date: int): seq<Lot> {
    if intent.side == Buy then lots + [Lot(intent.symbol, quantity, date)] else Consume(lots, intent.symbol, quantity)
  }

  /** `_initial_lots`: a ledger without lots gets one long-settled lot per held symbol. */
  const SETTLED_DATE := 0

  function LotsOf(positions: map<string, int>, symbols: seq<string>): seq<Lot> {
    if symbols == [] then []
    else (if symbols[0] in positions && positions[symbols[0]] > 0 then [Lot(symbols[0], positions[symbols[0]], SETTLED_DATE)] else [])
         + LotsOf(positions, symbols[1..])
  }

  function InitialLots(positions: map<string, int>): seq<Lot> {
    LotsOf(positions, SortedSet(positions.Keys))
  }

  // ----- One intent

  /** Why an intent is not sent to the fill boundary, if it is not. */
  function FatalReason(c: Call, r: Run, intent: Intent): Option<Reason> {
    var row := if intent.symbol in c.rows then c.rows[intent.symbol] else NO_ROW;
    var (quantity, issue) := NormalizeQuantity(intent.side, intent.target, PositionOf(r.account, intent.symbol), c.config, OrderLot(c, intent));
    var fatal := if issue == Some(NormalizedToLot) && quantity > 0 then None else issue;
    var checked :=
      if intent.orderId in r.seen then Some(DuplicateOrderId)
      else if fatal.None? then TradabilityReason(intent.side, quantity, row, c.config)
      else fatal;
    if checked.Some? then checked
    else if intent.side == Sell && quantity > Sellable(r.lots, intent.symbol, c.date, c.config) then Some(SellableInsufficient)
    else if intent.side == Sell && quantity > PositionOf(r.account, intent.symbol) then Some(InsufficientPosition)
    else if intent.side == Hold then Some(HoldNoFill)
    else None
  }

  /** Why the fill boundary fills nothing, if it does not. */
  function NoFillReason(c: Call, r: Run, intent: Intent, quantity: int, row: MarketRow): Option<Reason> {
    var price := ExecutionPrice(row);
    if intent.side == Buy && BuyReserve(quantity, price, FeesFor(c, intent)) > r.cashAvailable then Some(InsufficientCash)
    else if price <= 0.0 then Some(InvalidReferencePrice)
    else if FilledQuantity(quantity, AvailableVolume(row), c.config.maxParticipation) <= 0 then Some(ParticipationNoFill)
    else None
  }

  function Reject(r: Run, c: Call, intent: Intent, normalized: int, reason: Reason): Run {
    r.(seen := r.seen + {intent.orderId},
       rejections := r.rejections + [Rejection(intent.symbol, intent.side, intent.target, reason)],
       outcomes := r.outcomes + [Outcome(intent.orderId, intent.symbol, intent.side, intent.target,
         if normalized < 0 then 0 else normalized, 0, if reason == SellableInsufficient then Deferred else Rejected, Some(reason),
         0.0, 0.0, Sellable(r.lots, intent.symbol, c.date, c.config), r.cashAvailable, r.cashAvailable)])
  }

  function Fill(r: Run, c: Call, intent: Intent, normalized: int, filled: int, trade: Trade, frozen: real): Run {
    var account := ApplyTrade(r.account, trade);
    Run(account, Round6(account.cash - frozen), LotsAfter(r.lots, intent, filled, c.date), r.seen + {intent.orderId},
        r.trades + [trade], r.rejections,
        r.outcomes + [Outcome(intent.orderId, intent.symbol, intent.side, intent.target, normalized, filled,
          if filled == normalized then Filled else Partial, if filled < normalized then Some(PartialFill) else None,
          trade.gross, trade.fee + trade.stamp, Sellable(r.lots, intent.symbol, c.date, c.config), r.cashAvailable,
          Round6(account.cash - frozen))])
  }

  /** One turn of the loop; None is the fatal accounting inconsistency. */
  function Step(c: Call, r: Run, intent: Intent, frozen: real): Option<Run> {
    var row := if intent.symbol in c.rows then c.rows[intent.symbol] else NO_ROW;
    var quantity := NormalizeQuantity(intent.side, intent.target, PositionOf(r.account, intent.symbol), c.config, OrderLot(c, intent)).0;
    var fatal := FatalReason(c, r, intent);
    if fatal.Some? then Some(Reject(r, c, intent, quantity, fatal.value))
    else
      var none := NoFillReason(c, r, intent, quantity, row);
      if none.Some? then Some(Reject(r, c, intent, quantity, none.value))
      else
        var filled := FilledQuantity(quantity, AvailableVolume(row), c.config.maxParticipation);
        var next := Fill(r, c, intent, quantity, filled, TradeFor(intent, filled, ExecutionPrice(row), FeesFor(c, intent)), frozen);
        if Consistent(next.account) then Some(next) else None
  }

  function Start(s: State): Run {
    Run(s.account, Round6(s.account.cash - s.frozen), if s.lots != [] then s.lots else InitialLots(s.account.positions), s.seen, [], [], [])
  }

  /** The loop over the first `n` intents. */
  function Steps(c: Call, r: Run, intents: seq<Intent>, frozen: real, n: nat): Option<Run>
    requires n <= |intents|
  {
    if n == 0 then Some(r)
    else
      var before := Steps(c, r, intents, frozen, n - 1);
      if before.None? then None else Step(c, before.value, intents[n - 1], frozen)
  }

  predicate ValidConfig(config: Config) {
    config.buyLotSize > 0 && config.buyLotIncrement > 0 && config.maxParticipation >= 0.0 && config.priceLimit > 0.0
  }

  /** The state a call leaves, with its run; None if it raises. */
  function Execute(s: State, c: Call, intents: seq<Intent>): Option<(State, Run)> {
    if !ValidConfig(c.config) then None
    else
      var r := Steps(c, Start(s), intents, s.frozen, |intents|);
      if r.None? then None else Some((State(r.value.account, r.value.lots, s.frozen, r.value.seen), r.value))
  }

  /** `execute_a_share_reality_proposal` as a loop over local variables. */
  method ExecuteProposal(s: State, c: Call, intents: seq<Intent>) returns (result: Option<(State, Run)>)
    ensures result == Execute(s, c, intents)
  {
    hide Step, Round6, InitialLots;
    if !ValidConfig(c.config) {
      return None;
    }
    var account := s.account;
    var cashAvailable := Round6(account.cash - s.frozen);
    var lots := if s.lots != [] then s.lots else InitialLots(account.positions);
    var seen := s.seen;
    var trades: seq<Trade>, rejections: seq<Rejection>, outcomes: seq<Outcome> := [], [], [];
    for i := 0 to |intents|
      invariant Steps(c, Start(s), intents, s.frozen, i)
        == Some(Run(account, cashAvailable, lots, seen, trades, rejections, outcomes))
    {
      var next := ExecuteIntent(c, Run(account, cashAvailable, lots, seen, trades, rejections, outcomes), intents[i], s.frozen);
      if next.None? {
        StepsStop(c, Start(s), intents, s.frozen, i + 1, |intents|);
        return None;
      }
      account, cashAvailable, lots, seen := next.value.account, next.value.cashAvailable, next.value.lots, next.value.seen;
      trades, rejections, outcomes := next.value.trades, next.value.rejections, next.value.outcomes;
    }
    result := Some((State(account, lots, s.frozen, seen), Run(account, cashAvailable, lots, seen, trades, rejections, outcomes)));
  }

  lemma {:induction false} StepsStop(c: Call, r: Run, intents: seq<Intent>, frozen: real, n: nat, m: nat)
    requires n <= m <= |intents| && Steps(c, r, intents, frozen, n).None?
    ensures Steps(c, r, intents, frozen, m).None?
  {
    hide Step;
    if n < m { StepsStop(c, r, intents, frozen, n, m - 1); }
  }

  /** The loop body: checks in the source's order, then the fill and its updates. */
  method ExecuteIntent(c: Call, r: Run, intent: Intent, frozen: real) returns (next: Option<Run>)
    ensures next == Step(c, r, intent, frozen)
  {
    hide TradeFor, BuyReserve, ApplyTrade, Consistent, FilledQuantity, TradabilityReason, ExecutionPrice, Sellable, Consume, Round6;
    var row := if intent.symbol in c.rows then c.rows[intent.symbol] else NO_ROW;
    var position := PositionOf(r.account, intent.symbol);
    var sellable := Sellable(r.lots, intent.symbol, c.date, c.config);
    var (quantity, issue) := NormalizeQuantity(intent.side, intent.target, position, c.config, OrderLot(c, intent));
    var fatal: Option<Reason> := None;
    if !(issue == Some(NormalizedToLot) && quantity > 0) && issue.Some? {
      fatal := issue;
    }
    if intent.orderId in r.seen {
      fatal := Some(DuplicateOrderId);
    } else if fatal.None? {
      fatal := TradabilityReason(intent.side, quantity, row, c.config);
    }
    if fatal.None? && intent.side == Sell && quantity > sellable {
      fatal := Some(SellableInsufficient);
    }
    if fatal.None? && intent.side == Sell && quantity > position {
      fatal := Some(InsufficientPosition);
    }
    if fatal.Some? || intent.side == Hold {
      next := Some(Reject(r, c, intent, quantity, if fatal.Some? then fatal.value else HoldNoFill));
      return;
    }
    var price, fees := ExecutionPrice(row), FeesFor(c, intent);
    var affordable := true;
    if intent.side == Buy {
      affordable := BuyReserve(quantity, price, fees) <= r.cashAvailable;
    }
    var filled := FilledQuantity(quantity, AvailableVolume(row), c.config.maxParticipation);
    if !affordable || price <= 0.0 || filled <= 0 {
      next := Some(Reject(r, c, intent, quantity,
        if !affordable then InsufficientCash else if price <= 0.0 then InvalidReferencePrice else ParticipationNoFill));
      return;
    }
    var trade := TradeFor(intent, filled, price, fees);
    var account := ApplyTrade(r.account, trade);
    if !Consistent(account) {
      return None;
    }
    var lots;
    if intent.side == Buy {
      lots := r.lots + [Lot(intent.symbol, filled, c.date)];
    } else {
      lots := ConsumeLots(r.lots, intent.symbol, filled);
    }
    var cashAvailable := Round6(account.cash - frozen);
    next := Some(Run(account, cashAvailable, lots, r.seen + {intent.orderId}, r.trades + [trade], r.rejections,
      r.outcomes + [Outcome(intent.orderId, intent.symbol, intent.side, intent.target, quantity, filled,
        if filled == quantity then Filled else Partial, if filled < quantity then Some(PartialFill) else None,
        trade.gross, trade.fee + trade.stamp, sellable, r.cashAvailable, cashAvailable)]));
  }
}
