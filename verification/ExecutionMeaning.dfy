/** What one turn of the execution does, in the numbers of the order, its market row, its fees
    and the ledger. */
module ExecutionMeaning {
  import opened Outcomes
  import opened Texts
  import opened Lots
  import opened Rounding
  import opened Execution
  import opened ExecutionLedger
  import opened ExecutionSafety

  /** What a turn works with: the order's market row and fees, its price, lot and lot-rounded
      quantity, the part of it that volume lets through, and what a buy must have in cash. */
  datatype Terms = Terms(row: MarketRow, fees: Fees, price: real, lot: int, quantity: int, filled: int, reserve: real)

  /** The first positive of execution price, close and open; zero if there is none. */
  ghost predicate Quoted(row: MarketRow, price: real) {
    && (row.executionPrice > 0.0 ==> price == row.executionPrice)
    && (row.executionPrice <= 0.0 && row.close > 0.0 ==> price == row.close)
    && (row.executionPrice <= 0.0 && row.close <= 0.0 && row.open > 0.0 ==> price == row.open)
    && (row.executionPrice <= 0.0 && row.close <= 0.0 && row.open <= 0.0 ==> price == 0.0)
  }

  /** The order's own lot size, else the one of its own fees, else that of the configuration;
      never below one. */
  ghost predicate LotOf(c: Call, intent: Intent, lot: int) {
    var own := if intent.orderId in c.feesByOrder then c.feesByOrder[intent.orderId].lotSize else 0;
    && (intent.lotSize >= 1 ==> lot == intent.lotSize)
    && (intent.lotSize == 0 && own >= 1 ==> lot == own)
    && (intent.lotSize == 0 && own == 0 && c.config.buyLotSize >= 1 ==> lot == c.config.buyLotSize)
    && (intent.lotSize < 0 || (intent.lotSize == 0 && (own < 0 || (own == 0 && c.config.buyLotSize < 1))) ==> lot == 1)
  }

  /** A buy in whole lots, as many as fit; a sale as it is; nothing for a hold. */
  ghost predicate QuantityOf(intent: Intent, lot: int, quantity: int) {
    && (intent.target <= 0 || intent.side == Hold ==> quantity == 0)
    && (intent.target > 0 && intent.side == Buy ==> lot > 0 && quantity % lot == 0 && quantity <= intent.target < quantity + lot)
    && (intent.target > 0 && intent.side == Sell ==> quantity == intent.target)
  }

  /** The whole quantity, or as much of it as the allowed share of the volume covers. */
  ghost predicate FilledOf(config: Config, row: MarketRow, quantity: int, filled: int) {
    && (row.volume.None? ==> filled == quantity)
    && (row.volume.Some? ==>
          var share := row.volume.value as real * config.maxParticipation;
          && (row.volume.value <= 0 || config.maxParticipation <= 0.0 ==> filled == 0)
          && (row.volume.value > 0 && config.maxParticipation > 0.0 ==>
                && 0 <= filled <= quantity && filled as real <= share
                && (filled == quantity || share < filled as real + 1.0)))
  }

  /** A price moved against a buy, or with a sign against a sale, by basis points. */
  ghost function Slipped(price: real, bps: real): real {
    price * (1.0 + bps / 10000.0)
  }

  ghost function Worth(quantity: int, price: real): real {
    quantity as real * price
  }

  ghost function CommissionOn(gross: real, fees: Fees): real {
    if gross * fees.rate >= fees.minimum then gross * fees.rate else fees.minimum
  }

  /** A gross amount with commission, transfer and exchange fees, and stamp tax where buys
      pay it. */
  ghost function WithCosts(gross: real, fees: Fees): real {
    gross + CommissionOn(gross, fees) + gross * fees.transferRate + gross * fees.exchangeRate
      + if fees.stampOnBuy then gross * fees.stampRate else 0.0
  }

  /** The costs of a buy at its slipped price, rounded once. */
  ghost predicate ReserveOf(fees: Fees, price: real, quantity: int, reserve: real) {
    ToSixth(reserve, WithCosts(Worth(quantity, Slipped(price, fees.slippageBps)), fees))
  }

  ghost predicate Agreed(c: Call, intent: Intent, t: Terms) {
    && (if intent.symbol in c.rows then t.row == c.rows[intent.symbol]
        else t.row == MarketRow(0.0, 0.0, 0.0, false, None, None, None, 0.0, 0.0, 0.0, 0.0))
    && (if intent.orderId in c.feesByOrder then t.fees == c.feesByOrder[intent.orderId] else t.fees == c.fees)
    && Quoted(t.row, t.price)
    && LotOf(c, intent, t.lot)
    && QuantityOf(intent, t.lot, t.quantity)
    && FilledOf(c.config, t.row, t.quantity, t.filled)
    && ReserveOf(t.fees, t.price, t.quantity, t.reserve)
  }

  // ----- The terms are those of the loop

  function TermsIn(c: Call, r: Run, intent: Intent): Terms {
    var row, fees := RowFor(c, intent), FeesFor(c, intent);
    Terms(row, fees, ExecutionPrice(row), OrderLot(c, intent), Normalized(c, r, intent), FilledFor(c, r, intent),
          BuyReserve(Normalized(c, r, intent), ExecutionPrice(row), fees))
  }

  lemma PriceIsQuoted(row: MarketRow, price: real)
    ensures Quoted(row, price) <==> price == ExecutionPrice(row)
  {
  }

  lemma LotIs(c: Call, intent: Intent, lot: int)
    ensures LotOf(c, intent, lot) <==> lot == OrderLot(c, intent)
  {
  }

  lemma QuantityIs(c: Call, r: Run, intent: Intent, quantity: int)
    ensures QuantityOf(intent, OrderLot(c, intent), quantity) <==> quantity == Normalized(c, r, intent)
    ensures Normalized(c, r, intent) >= 0
  {
    var lot, position := OrderLot(c, intent), PositionOf(r.account, intent.symbol);
    NormalizeMeaning(intent.side, intent.target, position, c.config, lot);
    if intent.target > 0 && intent.side == Buy && quantity % lot == 0 && quantity <= intent.target < quantity + lot {
      SameMultiple(quantity, Normalized(c, r, intent), lot, intent.target);
    }
  }

  lemma SameMultiple(m: int, n: int, lot: int, target: int)
    requires lot >= 1 && m % lot == 0 && n % lot == 0
    requires m <= target < m + lot && n <= target < n + lot
    ensures m == n
  {
    NextMultiple(m / lot, n / lot, lot);
    NextMultiple(n / lot, m / lot, lot);
    Multiple(m, lot);
    Multiple(n, lot);
  }

  lemma Multiple(m: int, lot: int)
    requires lot >= 1 && m % lot == 0
    ensures m == (m / lot) * lot
  {
  }

  lemma NextMultiple(i: int, j: int, lot: int)
    requires lot >= 1
    ensures i < j ==> i * lot + lot <= j * lot
  {
    if i < j {
      AtLeast(j - i, lot);
      assert j * lot == i * lot + (j - i) * lot;
    }
  }

  lemma FilledIs(config: Config, row: MarketRow, quantity: int, filled: int)
    requires quantity >= 0
    ensures FilledOf(config, row, quantity, filled)
      <==> filled == FilledQuantity(quantity, AvailableVolume(row), config.maxParticipation)
  {
    if row.volume.Some? && row.volume.value > 0 && config.maxParticipation > 0.0 {
      var share := row.volume.value as real * config.maxParticipation;
      assert share >= 0.0;
      assert FilledQuantity(quantity, AvailableVolume(row), config.maxParticipation)
        == if share.Floor < quantity then share.Floor else quantity;
      Capped(share, quantity, filled);
    }
  }

  lemma Capped(share: real, quantity: int, filled: int)
    requires share >= 0.0 && quantity >= 0
    ensures 0 <= filled <= quantity && filled as real <= share && (filled == quantity || share < filled as real + 1.0)
      <==> filled == if share.Floor < quantity then share.Floor else quantity
  {
  }

  lemma WithCostsIs(gross: real, fees: Fees)
    ensures WithCosts(gross, fees) == BuyCost(gross, fees)
  {
  }

  lemma SlippedIs(quantity: int, price: real, side: Side, fees: Fees)
    ensures Slipped(price, if side == Buy then fees.slippageBps else -fees.slippageBps) == ExactFill(side, price, fees)
    ensures Worth(quantity, price) == Amount(quantity, price)
  {
    WorthIs(quantity, price);
  }

  lemma WorthIs(quantity: int, price: real)
    ensures Worth(quantity, price) == Amount(quantity, price)
  {
  }

  lemma ReserveIs(fees: Fees, price: real, quantity: int, reserve: real)
    ensures ReserveOf(fees, price, quantity, reserve) <==> reserve == BuyReserve(quantity, price, fees)
  {
    hide Round6, ToSixth, BuyCost, WithCosts, ExactFill, Slipped, Worth, Amount;
    var exact := ExactFill(Buy, price, fees);
    SlippedIs(quantity, price, Buy, fees);
    SlippedIs(quantity, exact, Buy, fees);
    WithCostsIs(Amount(quantity, exact), fees);
    Round6IsToSixth(reserve, BuyCost(Amount(quantity, exact), fees));
  }

  /** Every turn has its terms, and only one set of them. */
  lemma TermsOf(c: Call, r: Run, intent: Intent, t: Terms)
    ensures Agreed(c, intent, t) <==> t == TermsIn(c, r, intent)
  {
    var row, fees := RowFor(c, intent), FeesFor(c, intent);
    PriceIsQuoted(row, t.price);
    LotIs(c, intent, t.lot);
    QuantityIs(c, r, intent, t.quantity);
    FilledIs(c.config, row, Normalized(c, r, intent), t.filled);
    ReserveIs(fees, ExecutionPrice(row), Normalized(c, r, intent), t.reserve);
    hide Quoted, LotOf, QuantityOf, FilledOf, ReserveOf, ExecutionPrice, OrderLot, Normalized, BuyReserve, FilledQuantity;
  }

  // ----- When an order is filled

  /** Locked at the limit it would have to trade through: as the row says, or else, when it
      does not say, all the session's trading was at the limit price. */
  ghost predicate Locked(side: Side, row: MarketRow, price: real, tolerance: real) {
    match side
    case Buy =>
      if row.upperFlag.Some? then row.upperFlag == Some(true)
      else price > 0.0 && row.high > 0.0 && row.low > 0.0 && -tolerance <= row.high - row.low <= tolerance
           && row.upper > 0.0 && price >= row.upper - tolerance
    case Sell =>
      if row.lowerFlag.Some? then row.lowerFlag == Some(true)
      else price > 0.0 && row.high > 0.0 && row.low > 0.0 && -tolerance <= row.high - row.low <= tolerance
           && row.lower > 0.0 && price <= row.lower + tolerance
    case Hold => false
  }

  function HeldOf(r: Run, symbol: string): int {
    if symbol in r.account.positions then r.account.positions[symbol] else 0
  }

  /** Under the T+1 rule a sale needs shares bought before the trade date. */
  ghost predicate Deliverable(c: Call, r: Run, symbol: string, quantity: int) {
    if c.config.enforceT1 then OldEnough(r.lots, symbol, quantity, c.date)
    else quantity <= |Timeline(r.lots, symbol)|
  }

  /** The order fails the check that has this reason. */
  ghost predicate Fails(c: Call, r: Run, intent: Intent, t: Terms, reason: Reason) {
    var held := HeldOf(r, intent.symbol);
    match reason
    case DuplicateOrderId => intent.orderId in r.seen
    case QuantityNotPositive => intent.target <= 0
    case BelowLotSize => intent.side == Buy && intent.target < t.lot
    case InsufficientPosition => intent.side == Sell && held < intent.target
    case OddLotNotAllowed => intent.side == Sell && t.lot > 0 && intent.target % t.lot != 0
                             && !(c.config.allowResidual && intent.target == held)
    case HoldNoFill => intent.side == Hold
    case PriceMissing => c.config.blockNoPrice && t.price <= 0.0
    case Suspended => c.config.blockSuspended && t.row.suspended
    case VolumeZero => t.row.volume.Some? && t.row.volume.value <= 0
    case OnePriceLimit => c.config.blockOnePrice && Locked(intent.side, t.row, t.price, c.config.tolerance)
    case SellableInsufficient => intent.side == Sell && !Deliverable(c, r, intent.symbol, intent.target)
    case InsufficientCash => intent.side == Buy && t.reserve > r.cashAvailable
    case InvalidReferencePrice => t.price <= 0.0
    case ParticipationNoFill => t.filled <= 0
    case NormalizedToLot => false
    case PartialFill => false
  }

  /** The order of the checks. */
  ghost function Rank(reason: Reason): nat {
    match reason
    case DuplicateOrderId => 0
    case QuantityNotPositive => 1
    case BelowLotSize => 2
    case InsufficientPosition => 3
    case OddLotNotAllowed => 4
    case HoldNoFill => 5
    case PriceMissing => 6
    case Suspended => 7
    case VolumeZero => 8
    case OnePriceLimit => 9
    case SellableInsufficient => 10
    case InsufficientCash => 11
    case InvalidReferencePrice => 12
    case ParticipationNoFill => 13
    case NormalizedToLot => 14
    case PartialFill => 15
  }

  lemma LockedIs(side: Side, row: MarketRow, config: Config)
    ensures IsOnePriceLimit(side, row, config) <==> Locked(side, row, ExecutionPrice(row), config.tolerance)
  {
  }

  lemma DeliverableIs(c: Call, r: Run, symbol: string, quantity: int)
    requires Book(r.account, r.lots, c.date) && quantity > 0
    ensures Deliverable(c, r, symbol, quantity) <==> quantity <= Sellable(r.lots, symbol, c.date, c.config)
    ensures HeldOf(r, symbol) == PositionOf(r.account, symbol)
  {
    SettledIsOldEnough(r.lots, symbol, quantity, c.date);
    TimelineLength(r.lots, symbol);
  }

  /** The first failed check decides; an order that fails none is filled. */
  ghost predicate First(c: Call, r: Run, intent: Intent, t: Terms, reason: Option<Reason>) {
    match reason
    case None => forall other :: !Fails(c, r, intent, t, other)
    case Some(first) => Fails(c, r, intent, t, first)
                        && forall other :: Fails(c, r, intent, t, other) ==> Rank(first) <= Rank(other)
  }

  lemma FilledPassesAll(c: Call, r: Run, intent: Intent, t: Terms)
    requires Book(r.account, r.lots, c.date) && Agreed(c, intent, t) && Fills(c, r, intent)
    ensures First(c, r, intent, t, None)
  {
    TermsOf(c, r, intent, t);
    LockedIs(intent.side, t.row, c.config);
    if intent.target > 0 { DeliverableIs(c, r, intent.symbol, intent.target); }
    NormalizeMeaning(intent.side, intent.target, PositionOf(r.account, intent.symbol), c.config, t.lot);
    hide Agreed, Book, Locked, IsOnePriceLimit, Deliverable, Sellable, ExecutionPrice, FilledQuantity, BuyReserve, OrderLot, Settled;
  }

  lemma MarketRank(side: Side, quantity: int, row: MarketRow, config: Config)
    requires quantity > 0
    ensures var reason := TradabilityReason(side, quantity, row, config);
      reason.Some? ==> 6 <= Rank(reason.value) <= 9
  {
  }

  lemma OrderIsFirst(c: Call, r: Run, intent: Intent, t: Terms)
    requires Book(r.account, r.lots, c.date) && Agreed(c, intent, t) && FatalReason(c, r, intent).Some?
    requires Rank(FatalReason(c, r, intent).value) <= 5
    ensures First(c, r, intent, t, FatalReason(c, r, intent))
  {
    TermsOf(c, r, intent, t);
    if t.quantity > 0 { MarketRank(intent.side, t.quantity, t.row, c.config); }
    if intent.target > 0 { DeliverableIs(c, r, intent.symbol, intent.target); }
    NormalizeMeaning(intent.side, intent.target, PositionOf(r.account, intent.symbol), c.config, t.lot);
    hide TradabilityReason, Agreed, Book, Locked, IsOnePriceLimit, Deliverable, Sellable, ExecutionPrice, FilledQuantity,
      BuyReserve, OrderLot, Settled;
  }

  lemma MarketIsFirst(c: Call, r: Run, intent: Intent, t: Terms)
    requires Book(r.account, r.lots, c.date) && Agreed(c, intent, t) && FatalReason(c, r, intent).Some?
    requires Rank(FatalReason(c, r, intent).value) >= 6
    ensures First(c, r, intent, t, FatalReason(c, r, intent))
  {
    TermsOf(c, r, intent, t);
    LockedIs(intent.side, t.row, c.config);
    if intent.target > 0 { DeliverableIs(c, r, intent.symbol, intent.target); }
    NormalizeMeaning(intent.side, intent.target, PositionOf(r.account, intent.symbol), c.config, t.lot);
    hide Agreed, Book, Locked, IsOnePriceLimit, Deliverable, Sellable, ExecutionPrice, FilledQuantity, BuyReserve, OrderLot, Settled;
  }

  lemma NoFillIsFirst(c: Call, r: Run, intent: Intent, t: Terms)
    requires Book(r.account, r.lots, c.date) && Agreed(c, intent, t) && FatalReason(c, r, intent).None? && !Fills(c, r, intent)
    ensures First(c, r, intent, t, Some(RejectReason(c, r, intent)))
  {
    TermsOf(c, r, intent, t);
    LockedIs(intent.side, t.row, c.config);
    if intent.target > 0 { DeliverableIs(c, r, intent.symbol, intent.target); }
    NormalizeMeaning(intent.side, intent.target, PositionOf(r.account, intent.symbol), c.config, t.lot);
    hide Agreed, Book, Locked, IsOnePriceLimit, Deliverable, Sellable, ExecutionPrice, FilledQuantity, BuyReserve, OrderLot, Settled;
  }

  /** Every turn is decided by the checks in their order. An order is filled exactly when it
      fails none of them, with the quantity its terms say; otherwise it is rejected with the
      reason of the first it fails, deferred only for want of settled shares, and nothing
      else changes but the ids seen. */
  lemma TurnDecided(c: Call, r: Run, intent: Intent, frozen: real, t: Terms)
    requires Book(r.account, r.lots, c.date) && Agreed(c, intent, t) && Step(c, r, intent, frozen).Some?
    ensures var next := Step(c, r, intent, frozen).value;
      && |next.outcomes| == |r.outcomes| + 1
      && var outcome := next.outcomes[|r.outcomes|];
         && outcome.requested == intent.target && outcome.cashBefore == r.cashAvailable && outcome.cashAfter == next.cashAvailable
         && (outcome.filled > 0 <==> First(c, r, intent, t, None))
         && (outcome.filled > 0 ==>
               && outcome.filled == t.filled && outcome.normalized == t.quantity
               && outcome.status == (if t.filled == t.quantity then Filled else Partial)
               && outcome.reason == (if t.filled == t.quantity then None else Some(PartialFill)))
         && (outcome.filled <= 0 ==>
               && outcome.filled == 0 && outcome.normalized == t.quantity
               && outcome.reason.Some? && First(c, r, intent, t, outcome.reason)
               && outcome.status == (if outcome.reason == Some(SellableInsufficient) then Deferred else Rejected)
               && next.account == r.account && next.lots == r.lots && next.cashAvailable == r.cashAvailable)
  {
    StepIs(c, r, intent, frozen);
    TermsOf(c, r, intent, t);
    QuantityIs(c, r, intent, t.quantity);
    if Fills(c, r, intent) {
      FillBounds(c, r, intent);
      FilledPassesAll(c, r, intent, t);
    } else if FatalReason(c, r, intent).Some? {
      if Rank(FatalReason(c, r, intent).value) <= 5 { OrderIsFirst(c, r, intent, t); } else { MarketIsFirst(c, r, intent, t); }
    } else {
      NoFillIsFirst(c, r, intent, t);
    }
    hide Step, Fails, Agreed, Book, Fills, RejectReason, Normalized, FilledFor, TradeFor, ApplyTrade, FatalReason, NoFillReason;
  }

  /** Every outcome tells how many shares could be sold before it: under the T+1 rule those of
      the symbol that were acquired before the trade date, otherwise all of them. */
  lemma SellableReported(c: Call, r: Run, intent: Intent, frozen: real)
    requires Book(r.account, r.lots, c.date) && Step(c, r, intent, frozen).Some?
    ensures var outcomes, dates := Step(c, r, intent, frozen).value.outcomes, Timeline(r.lots, intent.symbol);
      && |outcomes| == |r.outcomes| + 1
      && var sellable := outcomes[|r.outcomes|].sellableBefore;
         && 0 <= sellable <= |dates|
         && (!c.config.enforceT1 ==> sellable == |dates|)
         && (c.config.enforceT1 ==> forall i :: 0 <= i < |dates| ==> (dates[i] < c.date <==> i < sellable))
  {
    StepIs(c, r, intent, frozen);
    TimelineLength(r.lots, intent.symbol);
    SettledCounts(r.lots, intent.symbol, c.date);
    EarlierComeFirst(Timeline(r.lots, intent.symbol), c.date);
    hide Step, Timeline, Settled, Quantity, CountBefore, Fills, TradeFor, ApplyTrade, Ordered;
  }

  /** Nothing is filled in a suspended stock, in one without volume or price, or against a
      limit: not when the row flags it, nor, without a flag, when all the session's trading
      was at the limit price. */
  lemma FilledIsTradable(c: Call, r: Run, intent: Intent, frozen: real, t: Terms)
    requires Book(r.account, r.lots, c.date) && Agreed(c, intent, t) && Step(c, r, intent, frozen).Some?
    requires c.config.blockSuspended && c.config.blockOnePrice
    requires var next := Step(c, r, intent, frozen).value;
      |next.outcomes| > |r.outcomes| && next.outcomes[|r.outcomes|].filled > 0
    ensures var row, tolerance := t.row, c.config.tolerance;
      var flat := row.high > 0.0 && row.low > 0.0 && -tolerance <= row.high - row.low <= tolerance;
      && !row.suspended && t.price > 0.0 && (row.volume.Some? ==> row.volume.value > 0)
      && (intent.side == Buy ==> row.upperFlag != Some(true))
      && (intent.side == Sell ==> row.lowerFlag != Some(true))
      && (intent.side == Buy && row.upperFlag.None? && flat && row.upper > 0.0 ==> t.price < row.upper - tolerance)
      && (intent.side == Sell && row.lowerFlag.None? && flat && row.lower > 0.0 ==> t.price > row.lower + tolerance)
  {
    TurnDecided(c, r, intent, frozen, t);
    hide Agreed, Book, Step, Deliverable;
    assert !Fails(c, r, intent, t, Suspended) && !Fails(c, r, intent, t, VolumeZero)
        && !Fails(c, r, intent, t, OnePriceLimit) && !Fails(c, r, intent, t, InvalidReferencePrice);
  }

  /** A new order in whole lots for a stock that trades, with volume for all of it, with cash
      for a buy and settled shares for a sale. */
  ghost predicate Ready(c: Call, r: Run, intent: Intent, t: Terms) {
    && intent.orderId !in r.seen && intent.side != Hold && intent.target > 0 && t.lot > 0 && intent.target % t.lot == 0
    && t.price > 0.0 && !t.row.suspended && !Locked(intent.side, t.row, t.price, c.config.tolerance)
    && (t.row.volume.Some? ==>
          && t.row.volume.value > 0 && c.config.maxParticipation > 0.0
          && intent.target as real <= t.row.volume.value as real * c.config.maxParticipation)
    && (intent.side == Buy ==> t.reserve <= r.cashAvailable)
    && (intent.side == Sell ==> intent.target <= HeldOf(r, intent.symbol) && Deliverable(c, r, intent.symbol, intent.target))
  }

  /** Such an order is filled completely. */
  lemma ReadyIsFilled(c: Call, r: Run, intent: Intent, frozen: real, t: Terms)
    requires Book(r.account, r.lots, c.date) && Agreed(c, intent, t) && Step(c, r, intent, frozen).Some?
    requires Ready(c, r, intent, t)
    ensures var next := Step(c, r, intent, frozen).value;
      && |next.outcomes| == |r.outcomes| + 1
      && next.outcomes[|r.outcomes|].filled == intent.target && next.outcomes[|r.outcomes|].status == Filled
  {
    hide Step, Agreed, Book, First, Ready;
    ReadyPasses(c, r, intent, t);
    TurnDecided(c, r, intent, frozen, t);
  }

  lemma ReadyPasses(c: Call, r: Run, intent: Intent, t: Terms)
    requires Agreed(c, intent, t) && Ready(c, r, intent, t)
    ensures t.quantity == t.filled == intent.target && First(c, r, intent, t, None)
  {
    hide Quoted, LotOf, ReserveOf, Locked, Deliverable, FilledOf;
    WholeOrder(intent, t);
    WholeVolume(c.config, t.row, intent.target, t.filled);
    hide QuantityOf;
    forall reason ensures !Fails(c, r, intent, t, reason) {
    }
  }

  lemma WholeVolume(config: Config, row: MarketRow, quantity: int, filled: int)
    requires FilledOf(config, row, quantity, filled)
    requires row.volume.Some? ==>
      row.volume.value > 0 && config.maxParticipation > 0.0 && quantity as real <= row.volume.value as real * config.maxParticipation
    ensures filled == quantity
  {
  }

  lemma WholeOrder(intent: Intent, t: Terms)
    requires QuantityOf(intent, t.lot, t.quantity) && intent.side != Hold && intent.target > 0
    requires t.lot > 0 && intent.target % t.lot == 0
    ensures t.quantity == intent.target && intent.target >= t.lot
  {
    Multiple(intent.target, t.lot);
    NextMultiple(0, intent.target / t.lot, t.lot);
    if intent.side == Buy { SameMultiple(t.quantity, intent.target, t.lot, intent.target); }
  }

  // ----- What a fill costs and moves

  ghost function Levied(gross: real, rate: real): real {
    gross * rate
  }

  /** Commission, transfer and exchange fee, each rounded, on a positive gross. */
  ghost predicate FeeOf(fees: Fees, gross: real, fee: real) {
    if gross <= 0.0 then fee == 0.0
    else exists commission: real, transfer: real, exchange: real ::
      && ToSixth(commission, CommissionOn(gross, fees))
      && ToSixth(transfer, Levied(gross, fees.transferRate))
      && ToSixth(exchange, Levied(gross, fees.exchangeRate))
      && fee == commission + transfer + exchange
  }

  /** Sales pay stamp tax, of funds only where the fees say so, and buys only where they do. */
  ghost predicate StampOf(side: Side, etf: bool, fees: Fees, gross: real, stamp: real) {
    if gross > 0.0 && (side == Buy ==> fees.stampOnBuy) && (side == Sell ==> !etf || fees.stampOnEtf) && side != Hold
    then ToSixth(stamp, Levied(gross, fees.stampRate))
    else stamp == 0.0
  }

  /** The filled quantity at the slipped price, its fees and tax, and what that does to cash. */
  ghost predicate TradeOn(intent: Intent, t: Terms, trade: Trade) {
    && trade.symbol == intent.symbol && trade.side == intent.side && trade.quantity == t.filled
    && ToSixth(trade.price, Slipped(t.price, if intent.side == Buy then t.fees.slippageBps else -t.fees.slippageBps))
    && ToSixth(trade.gross, Worth(t.filled, trade.price))
    && FeeOf(t.fees, trade.gross, trade.fee)
    && StampOf(intent.side, intent.etf, t.fees, trade.gross, trade.stamp)
    && trade.cashImpact == (if intent.side == Buy then -trade.gross else trade.gross) - (trade.fee + trade.stamp)
  }

  lemma FeeIs(fees: Fees, gross: real)
    ensures FeeOf(fees, gross, FeeWithoutTax(gross, fees))
  {
    if gross > 0.0 {
      var exactC, exactT, exactE := Commission(gross, fees), Levy(gross, fees.transferRate), Levy(gross, fees.exchangeRate);
      assert exactC == CommissionOn(gross, fees) && exactT == Levied(gross, fees.transferRate) && exactE == Levied(gross, fees.exchangeRate);
      hide Round6, Whole, ToSixth, Levied, CommissionOn, Levy, Commission;
      var commission, transfer, exchange := Round6(exactC), Round6(exactT), Round6(exactE);
      Round6IsToSixth(commission, exactC);
      Round6IsToSixth(transfer, exactT);
      Round6IsToSixth(exchange, exactE);
      Round6IsWhole(exactC);
      Round6IsWhole(exactT);
      Round6IsWhole(exactE);
      WholeSum(commission, transfer);
      WholeSum(commission + transfer, exchange);
      WholeIs(commission + transfer + exchange);
    }
  }

  lemma StampIs(side: Side, etf: bool, fees: Fees, gross: real)
    ensures StampOf(side, etf, fees, gross, StampTax(side, etf, gross, fees))
  {
    assert Levied(gross, fees.stampRate) == Levy(gross, fees.stampRate);
    hide Round6, ToSixth, Levied, Levy;
    Round6IsToSixth(Round6(Levy(gross, fees.stampRate)), Levy(gross, fees.stampRate));
  }

  lemma TradeIsOn(c: Call, r: Run, intent: Intent, t: Terms)
    requires Agreed(c, intent, t)
    ensures TradeOn(intent, t, TradeOf(c, r, intent))
  {
    TermsOf(c, r, intent, t);
    hide Agreed, Round6, ToSixth, FeeOf, StampOf, FeeWithoutTax, StampTax, Slipped, Worth, ExactFill, Amount,
      ExecutionPrice, FilledQuantity, Normalized, FilledFor, BuyReserve;
    var trade := TradeOf(c, r, intent);
    assert trade == TradeFor(intent, t.filled, t.price, t.fees);
    SlippedIs(t.filled, t.price, intent.side, t.fees);
    SlippedIs(t.filled, trade.price, intent.side, t.fees);
    Round6IsToSixth(trade.price, ExactFill(intent.side, t.price, t.fees));
    Round6IsToSixth(trade.gross, Amount(t.filled, trade.price));
    FeeIs(t.fees, trade.gross);
    StampIs(intent.side, intent.etf, t.fees, trade.gross);
    TradeIsWhole(intent, t.filled, t.price, t.fees);
  }

  function CostBefore(r: Run, symbol: string): real {
    if symbol in r.account.costs then r.account.costs[symbol] else 0.0
  }

  /** A buy adds the filled shares, as a lot of the trade date, and spreads the old cost and
      the payment without stamp tax over all of them. */
  ghost predicate Bought(c: Call, r: Run, next: Run, trade: Trade) {
    var symbol := trade.symbol;
    var held := HeldOf(r, symbol);
    && next.account.positions == r.account.positions[symbol := held + trade.quantity]
    && next.lots == r.lots + [Lot(symbol, trade.quantity, c.date)]
    && ToSixth(next.account.realized, r.account.realized)
    && symbol in next.account.costs && next.account.costs == r.account.costs[symbol := next.account.costs[symbol]]
    && exists basis: real ::
         && ToSixth(basis, Worth(held, CostBefore(r, symbol)))
         && Worth(held + trade.quantity, next.account.costs[symbol]) == basis + trade.gross + trade.fee
  }

  /** A sale takes the first shares of the symbol and books what it pays, less their cost. */
  ghost predicate Sold(r: Run, next: Run, trade: Trade) {
    var symbol := trade.symbol;
    var held := HeldOf(r, symbol);
    && 0 <= trade.quantity <= held && trade.quantity <= |Timeline(r.lots, symbol)|
    && (trade.quantity < held ==>
          next.account.positions == r.account.positions[symbol := held - trade.quantity] && next.account.costs == r.account.costs)
    && (trade.quantity == held ==>
          next.account.positions == r.account.positions - {symbol} && next.account.costs == r.account.costs - {symbol})
    && Timeline(next.lots, symbol) == Timeline(r.lots, symbol)[trade.quantity..]
    && (forall other :: other != symbol ==> Timeline(next.lots, other) == Timeline(r.lots, other))
    && exists removed: real ::
         && ToSixth(removed, Worth(trade.quantity, CostBefore(r, symbol)))
         && ToSixth(next.account.realized, r.account.realized + (trade.gross - trade.fee - trade.stamp - removed))
  }

  lemma BuyIsBought(c: Call, r: Run, next: Run, trade: Trade)
    requires trade.side == Buy && trade.quantity > 0 && HeldOf(r, trade.symbol) >= 0
    requires Whole(trade.gross) && Whole(trade.fee)
    requires next.account == ApplyTrade(r.account, trade) && next.lots == r.lots + [Lot(trade.symbol, trade.quantity, c.date)]
    ensures Bought(c, r, next, trade)
  {
    var symbol := trade.symbol;
    var held, cost := HeldOf(r, symbol), CostBefore(r, symbol);
    assert Worth(held, cost) == Amount(held, cost);
    Shared(Round6(Amount(held, cost)) + trade.gross + trade.fee, held + trade.quantity);
    hide Round6, ToSixth, Whole, Amount, Worth;
    WholeSum(trade.gross, trade.fee);
    WholeIs(trade.gross + trade.fee);
    Round6IsToSixth(Round6(Amount(held, cost)), Amount(held, cost));
    Round6IsToSixth(next.account.realized, r.account.realized);
  }

  lemma Shared(total: real, quantity: int)
    requires quantity > 0
    ensures Worth(quantity, total / quantity as real) == total
  {
  }

  lemma SaleIsSold(r: Run, next: Run, trade: Trade)
    requires trade.side == Sell && 0 < trade.quantity <= HeldOf(r, trade.symbol)
    requires Positive(r.lots) && Quantity(r.lots, trade.symbol) == HeldOf(r, trade.symbol)
    requires Whole(trade.gross) && Whole(trade.fee) && Whole(trade.stamp)
    requires next.account == ApplyTrade(r.account, trade) && next.lots == Consume(r.lots, trade.symbol, trade.quantity)
    ensures Sold(r, next, trade)
  {
    hide Round6, ToSixth, Whole, Worth, Timeline, Consume, Quantity, Positive, CostBefore;
    SaleProfit(r, next, trade);
    SaleTimelines(r.lots, trade.symbol, trade.quantity);
  }

  lemma SaleTimelines(lots: seq<Lot>, symbol: string, quantity: int)
    requires Positive(lots) && 0 <= quantity <= Quantity(lots, symbol)
    ensures quantity <= |Timeline(lots, symbol)|
    ensures forall other ::
      Timeline(Consume(lots, symbol, quantity), other) == (if other == symbol then Timeline(lots, symbol)[quantity..] else Timeline(lots, other))
  {
    TimelineLength(lots, symbol);
    hide Timeline, Consume, Quantity, Positive;
    forall other
      ensures Timeline(Consume(lots, symbol, quantity), other)
        == if other == symbol then Timeline(lots, symbol)[quantity..] else Timeline(lots, other)
    {
      ConsumeDropsFirstShares(lots, symbol, quantity, other);
    }
  }

  lemma SaleProfit(r: Run, next: Run, trade: Trade)
    requires trade.side == Sell && next.account == ApplyTrade(r.account, trade)
    requires Whole(trade.gross) && Whole(trade.fee) && Whole(trade.stamp)
    ensures exists removed: real ::
      && ToSixth(removed, Worth(trade.quantity, CostBefore(r, trade.symbol)))
      && ToSixth(next.account.realized, r.account.realized + (trade.gross - trade.fee - trade.stamp - removed))
  {
    hide Round6, ToSixth, Whole, Amount, Worth, ApplyTrade;
    RealizedIs(r.account, trade);
    var cost := CostBefore(r, trade.symbol);
    var exact := Amount(trade.quantity, cost);
    WorthIs(trade.quantity, cost);
    Round6IsToSixth(Round6(exact), exact);
    NetIsExact(trade.gross, trade.fee, trade.stamp, exact);
    Round6IsToSixth(next.account.realized, r.account.realized + (trade.gross - trade.fee - trade.stamp - Round6(exact)));
  }

  lemma NetIsExact(gross: real, fee: real, stamp: real, exact: real)
    requires Whole(gross) && Whole(fee) && Whole(stamp)
    ensures Round6(Round6(gross - fee - stamp) - Round6(exact)) == gross - fee - stamp - Round6(exact)
  {
    hide Round6, Whole;
    Round6IsWhole(exact);
    WholeSum(gross, fee);
    WholeSum(gross - fee, stamp);
    WholeIs(gross - fee - stamp);
    WholeSum(gross - fee - stamp, Round6(exact));
    WholeIs(gross - fee - stamp - Round6(exact));
  }

  lemma RealizedIs(account: Account, trade: Trade)
    requires trade.side == Sell
    ensures var cost := if trade.symbol in account.costs then account.costs[trade.symbol] else 0.0;
      ApplyTrade(account, trade).realized
        == Round6(account.realized + Round6(Round6(trade.gross - trade.fee - trade.stamp) - Round6(Amount(trade.quantity, cost))))
  {
    hide Round6, Amount;
  }

  /** What a filled turn leaves, in the loop's own terms. */
  lemma FilledNext(c: Call, r: Run, intent: Intent, frozen: real, t: Terms)
    requires Book(r.account, r.lots, c.date) && Agreed(c, intent, t) && Step(c, r, intent, frozen).Some?
    requires First(c, r, intent, t, None)
    ensures Fills(c, r, intent) && TradeOf(c, r, intent).quantity == FilledFor(c, r, intent) == t.filled
    ensures var next, trade := Step(c, r, intent, frozen).value, TradeOf(c, r, intent);
      && next.account == ApplyTrade(r.account, trade)
      && next.cashAvailable == Round6(next.account.cash - frozen)
      && next.lots == (if intent.side == Buy then r.lots + [Lot(intent.symbol, t.filled, c.date)] else Consume(r.lots, intent.symbol, t.filled))
      && next.trades == r.trades + [trade]
      && |next.outcomes| == |r.outcomes| + 1
      && next.outcomes[|r.outcomes|].gross == trade.gross && next.outcomes[|r.outcomes|].cashFees == trade.fee + trade.stamp
  {
    TurnDecided(c, r, intent, frozen, t);
    StepReports(c, r, intent, frozen);
    StepIs(c, r, intent, frozen);
    TermsOf(c, r, intent, t);
    TradeShape(c, r, intent);
    hide Step, First, Agreed, Fills, TradeOf, ApplyTrade, Round6, FilledFor, Normalized, Consume, Book;
  }

  lemma ApplyTradeCash(account: Account, trade: Trade)
    ensures ApplyTrade(account, trade).cash == Round6(account.cash + trade.cashImpact)
  {
    hide Round6;
  }

  /** A filled order adds one trade on its terms; cash moves by the trade's impact and is
      rounded; available cash is cash less the frozen part, rounded; positions, average
      costs, lots and realized profit move as for a purchase or a sale. */
  lemma FillMoves(c: Call, r: Run, intent: Intent, frozen: real, t: Terms)
    requires Book(r.account, r.lots, c.date) && Agreed(c, intent, t) && Step(c, r, intent, frozen).Some?
    requires First(c, r, intent, t, None)
    ensures var next := Step(c, r, intent, frozen).value;
      && |next.trades| == |r.trades| + 1 && next.trades[..|r.trades|] == r.trades
      && |next.outcomes| == |r.outcomes| + 1
      && var trade, outcome := next.trades[|r.trades|], next.outcomes[|r.outcomes|];
         && TradeOn(intent, t, trade)
         && outcome.gross == trade.gross && outcome.cashFees == trade.fee + trade.stamp
         && ToSixth(next.account.cash, r.account.cash + trade.cashImpact)
         && ToSixth(next.cashAvailable, next.account.cash - frozen)
         && (intent.side == Buy ==> Bought(c, r, next, trade))
         && (intent.side == Sell ==> Sold(r, next, trade))
  {
    hide Step, First, Agreed, Fills, TradeOf, TradeOn, ApplyTrade, Round6, ToSixth, Whole, FilledFor, Normalized, Bought, Sold,
      Consume, Book;
    FilledNext(c, r, intent, frozen, t);
    TradeIsOn(c, r, intent, t);
    var next, trade := Step(c, r, intent, frozen).value, TradeOf(c, r, intent);
    ApplyTradeCash(r.account, trade);
    Round6IsToSixth(next.account.cash, r.account.cash + trade.cashImpact);
    Round6IsToSixth(next.cashAvailable, next.account.cash - frozen);
    FillBooked(c, r, intent, next, trade);
  }

  lemma FillBooked(c: Call, r: Run, intent: Intent, next: Run, trade: Trade)
    requires Book(r.account, r.lots, c.date) && Fills(c, r, intent)
    requires trade == TradeOf(c, r, intent) && next.account == ApplyTrade(r.account, trade)
    requires next.lots == if intent.side == Buy then r.lots + [Lot(intent.symbol, trade.quantity, c.date)]
                          else Consume(r.lots, intent.symbol, trade.quantity)
    ensures intent.side == Buy ==> Bought(c, r, next, trade)
    ensures intent.side == Sell ==> Sold(r, next, trade)
  {
    hide Fills, TradeOf, ApplyTrade, Whole, Bought, Sold, Consume, Book, HeldOf, Quantity, Positive;
    FillFacts(c, r, intent, trade);
    if intent.side == Buy {
      BuyIsBought(c, r, next, trade);
    } else {
      SaleIsSold(r, next, trade);
    }
  }

  lemma FillFacts(c: Call, r: Run, intent: Intent, trade: Trade)
    requires Book(r.account, r.lots, c.date) && Fills(c, r, intent) && trade == TradeOf(c, r, intent)
    ensures intent.side != Hold && trade.side == intent.side && trade.symbol == intent.symbol && trade.quantity > 0
    ensures intent.side == Sell ==> trade.quantity <= HeldOf(r, intent.symbol)
    ensures Positive(r.lots) && 0 <= HeldOf(r, intent.symbol) == Quantity(r.lots, intent.symbol)
    ensures Whole(trade.gross) && Whole(trade.fee) && Whole(trade.stamp)
  {
    hide Fills, TradeFor, Round6, Whole, FilledFor, Normalized, ExecutionPrice, Book, Sellable, Quantity, Positive, BuyReserve;
    FillBounds(c, r, intent);
    TradeShape(c, r, intent);
    BookHeld(c, r, intent.symbol);
    TradeIsWhole(intent, FilledFor(c, r, intent), ExecutionPrice(RowFor(c, intent)), FeesFor(c, intent));
  }

  lemma BookHeld(c: Call, r: Run, symbol: string)
    requires Book(r.account, r.lots, c.date)
    ensures Positive(r.lots) && 0 <= HeldOf(r, symbol) == PositionOf(r.account, symbol) == Quantity(r.lots, symbol)
  {
  }

  // ----- A whole call

  /** A call raises for settings that are not positive; otherwise it starts from the stored
      ledger, with available cash rounded, and stores what its last turn leaves. */
  lemma CallStores(s: State, c: Call, intents: seq<Intent>)
    ensures Execute(s, c, intents).None? <==>
      || c.config.buyLotSize <= 0 || c.config.buyLotIncrement <= 0 || c.config.maxParticipation < 0.0 || c.config.priceLimit <= 0.0
      || Steps(c, Start(s), intents, s.frozen, |intents|).None?
    ensures Start(s).account == s.account && Start(s).seen == s.seen && ToSixth(Start(s).cashAvailable, s.account.cash - s.frozen)
    ensures s.lots != [] ==> Start(s).lots == s.lots
    ensures var done := Execute(s, c, intents);
      done.Some? ==>
        && Steps(c, Start(s), intents, s.frozen, |intents|) == Some(done.value.1)
        && done.value.0 == State(done.value.1.account, done.value.1.lots, s.frozen, done.value.1.seen)
  {
    Round6IsToSixth(Start(s).cashAvailable, s.account.cash - s.frozen);
    hide ToSixth, Round6, Step;
  }

  /** A ledger without lots starts with all its positions settled long ago. */
  lemma BareLots(s: State, symbol: string)
    requires s.lots == [] && forall other :: other in s.account.positions ==> s.account.positions[other] >= 0
    ensures var lots := Start(s).lots;
      && |Timeline(lots, symbol)| == (if symbol in s.account.positions then s.account.positions[symbol] else 0)
      && forall i :: 0 <= i < |Timeline(lots, symbol)| ==> Timeline(lots, symbol)[i] == 0
  {
    var symbols := SortedSet(s.account.positions.Keys);
    InitialQuantity(s.account.positions, symbols, symbol);
    TimelineLength(LotsOf(s.account.positions, symbols), symbol);
    hide Timeline, Quantity, LotsOf;
    assert Start(s).lots == LotsOf(s.account.positions, symbols);
    forall i | 0 <= i < |Timeline(Start(s).lots, symbol)| ensures Timeline(Start(s).lots, symbol)[i] == 0 {
      assert Timeline(Start(s).lots, symbol)[i] in Timeline(Start(s).lots, symbol);
    }
  }
}
