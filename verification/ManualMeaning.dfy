/** What a manual fill does, in amounts: orders and ledgers are described by their numbers
    alone, and rounding by how close it is. */
module ManualMeaning {
  import opened Outcomes
  import opened Lots
  import opened ManualFills
  import opened ManualLedger
  import opened Rounding

  lemma RealIsClosest(x: real)
    ensures Closest(RoundReal(x), x)
  {
  }

  lemma RatioIsClosest(n: int, d: int)
    requires d > 0
    ensures Closest(RoundRatio(n, d), n as real / d as real)
  {
    Fraction(n % d, d);
    WholeAndRest(n, d);
  }

  lemma WholeAndRest(n: int, d: int)
    requires d > 0
    ensures n as real / d as real == (n / d) as real + (n % d) as real / d as real
  {
    var q, r := n / d, n % d;
    assert n == q * d + r;
    assert n as real == q as real * d as real + r as real;
    assert (q as real * d as real) / d as real == q as real;
  }

  lemma Scaled(x: real, y: real, d: real)
    requires d > 0.0
    ensures x < y <==> x * d < y * d
  {
    if x < y {
      assert (y - x) * d > 0.0;
    } else {
      assert (x - y) * d >= 0.0;
    }
  }

  lemma DividedBelow(r: real, d: real, q: real)
    requires d > 0.0
    ensures r / d < q <==> r < q * d
    ensures r / d > q <==> r > q * d
  {
    var x := r / d;
    assert x * d == r;
    Scaled(x, q, d);
    Scaled(q, x, d);
  }

  lemma Fraction(r: int, d: int)
    requires 0 <= r < d
    ensures var rest := r as real / d as real;
      && 0.0 <= rest < 1.0
      && (2 * r < d <==> rest < 0.5) && (2 * r > d <==> rest > 0.5)
  {
    DividedBelow(r as real, d as real, 0.0);
    DividedBelow(r as real, d as real, 0.5);
    DividedBelow(r as real, d as real, 1.0);
  }

  // ----- Amounts

  /** What the shares of an order are worth, in units of 0.0001. */
  ghost function Exact(quantity: int, price: real): real {
    quantity as real * price * 10000.0
  }

  /** The amounts of an order: the gross is quantity times price; the commission is 0.03 per
      cent of the gross but at least 5.00; the stamp tax of a sale is 0.05 per cent. All are
      in units of 0.0001 and rounded to them. */
  ghost predicate Amounts(o: Order, gross: int, commission: int, stamp: int) {
    && Closest(gross, Exact(o.quantity, o.price))
    && commission >= 50000
    && (gross as real * 0.0003 <= 50000.0 ==> commission == 50000)
    && (gross as real * 0.0003 > 50000.0 ==> Closest(commission, gross as real * 0.0003))
    && Closest(stamp, gross as real * 0.0005)
  }

  /** Every order has its amounts, and only one set of them. */
  lemma AmountsOf(o: Order) returns (gross: int, commission: int, stamp: int)
    ensures Amounts(o, gross, commission, stamp)
    ensures forall g, c, s :: Amounts(o, g, c, s) ==> g == gross && c == commission && s == stamp
    ensures gross == Gross(o) && commission == Commission(gross) && stamp == StampTax(gross)
  {
    gross := Gross(o);
    commission, stamp := Commission(gross), StampTax(gross);
    TheseAreAmounts(o);
    forall g, c, s | Amounts(o, g, c, s) ensures g == gross && c == commission && s == stamp {
      AmountsAreOne(o, g, c, s, gross, commission, stamp);
    }
  }

  lemma TheseAreAmounts(o: Order)
    ensures Amounts(o, Gross(o), Commission(Gross(o)), StampTax(Gross(o)))
  {
    var gross := Gross(o);
    GrossIsClosest(o);
    CommissionIs(gross);
    hide RoundReal, Commission, Closest, Exact, Gross, RoundRatio;
    RatioIsClosest(gross * 5, 10000);
    assert (gross * 5) as real / 10000.0 == gross as real * 0.0005;
  }

  lemma GrossIsClosest(o: Order)
    ensures Closest(Gross(o), Exact(o.quantity, o.price))
  {
    RealIsClosest(Exact(o.quantity, o.price));
  }

  lemma AmountsAreOne(o: Order, g: int, c: int, s: int, gross: int, commission: int, stamp: int)
    requires Amounts(o, g, c, s) && Amounts(o, gross, commission, stamp)
    ensures g == gross && c == commission && s == stamp
  {
    hide Closest, Exact;
    ClosestIsOne(g, gross, Exact(o.quantity, o.price));
    if gross as real * 0.0003 > 50000.0 { ClosestIsOne(c, commission, gross as real * 0.0003); }
    ClosestIsOne(s, stamp, gross as real * 0.0005);
  }

  lemma CommissionIs(gross: int)
    ensures var commission := Commission(gross);
      && commission >= 50000
      && (gross as real * 0.0003 <= 50000.0 ==> commission == 50000)
      && (gross as real * 0.0003 > 50000.0 ==> Closest(commission, gross as real * 0.0003))
  {
    RatioIsClosest(gross * 3, 10000);
    hide RoundRatio;
    assert (gross * 3) as real / 10000.0 == gross as real * 0.0003;
  }

  /** At a price of whole units the gross is exact. */
  lemma WholePriceGross(o: Order, price: int, gross: int, commission: int, stamp: int)
    requires Amounts(o, gross, commission, stamp) && o.price == price as real / 10000.0
    ensures gross == o.quantity * price
  {
    assert Exact(o.quantity, o.price) == o.quantity as real * price as real;
    assert o.quantity as real * price as real == (o.quantity * price) as real;
  }

  // ----- Which orders are accepted

  /** A trade of this session or later, of a named symbol, in positive whole lots of one
      hundred at a positive price: a sale of held shares that are old enough, or a buy that
      cash pays for with its commission. */
  ghost predicate Acceptable(b: Book, o: Order, gross: int, commission: int) {
    && (b.lastSession.Some? ==> b.lastSession.value <= o.date)
    && (exists i :: 0 <= i < |o.symbol| && o.symbol[i] !in {' ', '\t', '\n', '\r'})
    && o.quantity > 0 && o.quantity % 100 == 0 && o.price > 0.0
    && (o.side == Sell ==> OldEnough(b.lots, o.symbol, o.quantity, o.date))
    && (o.side == Buy ==> gross + commission <= b.cash)
  }

  /** Exactly the acceptable orders are accepted; a refused one leaves the ledger as it is. */
  lemma AcceptedIff(b: Book, o: Order, gross: int, commission: int, stamp: int)
    requires Sound(b) && Amounts(o, gross, commission, stamp)
    ensures Held(b, o.symbol) >= 0
    ensures Refused(b, o).None? <==> Acceptable(b, o, gross, commission)
    ensures !Acceptable(b, o, gross, commission) ==> Record(b, o) == b
  {
    var g, c, s := AmountsOf(o);
    HeldNonNegative(b, o.symbol);
    if o.quantity > 0 { SettledIsOldEnough(b.lots, o.symbol, o.quantity, o.date); }
    SettledWithin(b.lots, o.symbol, o.date);
    hide Gross, Commission, Settled, Timeline, Amounts;
  }

  /** Why an order is refused: the first of the conditions it fails, in the script's order. */
  lemma RefusedBecause(b: Book, o: Order, gross: int, commission: int, stamp: int)
    requires Sound(b) && Amounts(o, gross, commission, stamp)
    ensures var reason := Refused(b, o);
      var late := b.lastSession.Some? && o.date < b.lastSession.value;
      var named := exists i :: 0 <= i < |o.symbol| && o.symbol[i] !in {' ', '\t', '\n', '\r'};
      var held := if o.symbol in b.positions then b.positions[o.symbol] else 0;
      var sound := !late && named && o.quantity > 0 && o.price > 0.0 && o.quantity % 100 == 0;
      && (reason == Some(BeforeLastSession) <==> late)
      && (reason == Some(SymbolMissing) <==> !late && !named)
      && (reason == Some(QuantityNotPositive) <==> !late && named && o.quantity <= 0)
      && (reason == Some(PriceNotPositive) <==> !late && named && o.quantity > 0 && o.price <= 0.0)
      && (reason == Some(NotWholeLots) <==> !late && named && o.quantity > 0 && o.price > 0.0 && o.quantity % 100 != 0)
      && (reason == Some(InsufficientPosition) <==> sound && o.side == Sell && held < o.quantity)
      && (reason == Some(SellableInsufficient) <==>
            sound && o.side == Sell && held >= o.quantity && !OldEnough(b.lots, o.symbol, o.quantity, o.date))
      && (reason == Some(InsufficientCash) <==> sound && o.side == Buy && gross + commission > b.cash)
  {
    var g, c, s := AmountsOf(o);
    if o.quantity > 0 { SettledIsOldEnough(b.lots, o.symbol, o.quantity, o.date); }
    hide Gross, Commission, Settled, Amounts, OldEnough;
  }

  // ----- What an accepted order does

  /** A buy takes the gross and the commission from cash, adds the shares, as a lot of the
      trade date behind the others, and spreads old cost and payment over all shares held. */
  lemma BuyMeans(b: Book, o: Order, gross: int, commission: int, stamp: int)
    requires Sound(b) && Amounts(o, gross, commission, stamp) && Acceptable(b, o, gross, commission) && o.side == Buy
    ensures Held(b, o.symbol) >= 0
    ensures var next := Record(b, o);
      var held := if o.symbol in b.positions then b.positions[o.symbol] else 0;
      var cost := if o.symbol in b.costs then b.costs[o.symbol] else 0;
      && next.cash == b.cash - gross - commission
      && o.symbol in next.positions && o.symbol in next.costs
      && next.positions == b.positions[o.symbol := held + o.quantity]
      && next.costs == b.costs[o.symbol := next.costs[o.symbol]]
      && held + o.quantity > 0
      && Closest(next.costs[o.symbol], (held * cost + gross + commission) as real / (held + o.quantity) as real)
      && next.lots == b.lots + [Lot(o.symbol, o.quantity, o.date)]
      && next.realized == b.realized && next.realizedBySymbol == b.realizedBySymbol
      && next.lastSession == Some(o.date)
  {
    AcceptedIff(b, o, gross, commission, stamp);
    var g, c, s := AmountsOf(o);
    hide Gross, Commission, Amounts, Acceptable, Refused, RoundRatio, Closest;
    var held, cost := Held(b, o.symbol), CostOf(b, o.symbol);
    RatioIsClosest(held * cost + gross + commission, held + o.quantity);
  }

  /** A sale pays the gross less commission and stamp tax, takes the oldest shares, and books
      the proceeds less the shares' cost as profit when the symbol has a positive cost. */
  lemma SellMeans(b: Book, o: Order, gross: int, commission: int, stamp: int)
    requires Sound(b) && Amounts(o, gross, commission, stamp) && Acceptable(b, o, gross, commission) && o.side == Sell
    ensures Held(b, o.symbol) >= 0
    ensures var next := Record(b, o);
      var held := if o.symbol in b.positions then b.positions[o.symbol] else 0;
      var cost := if o.symbol in b.costs then b.costs[o.symbol] else 0;
      var profit := if cost > 0 then gross - commission - stamp - o.quantity * cost else 0;
      && next.cash == b.cash + gross - commission - stamp
      && 0 < o.quantity <= held
      && (o.quantity < held ==> next.positions == b.positions[o.symbol := held - o.quantity] && next.costs == b.costs)
      && (o.quantity == held ==> next.positions == b.positions - {o.symbol} && next.costs == b.costs - {o.symbol})
      && o.quantity <= |Timeline(b.lots, o.symbol)|
      && Timeline(next.lots, o.symbol) == Timeline(b.lots, o.symbol)[o.quantity..]
      && (forall other :: other != o.symbol ==> Timeline(next.lots, other) == Timeline(b.lots, other))
      && next.realized == b.realized + profit
      && (cost <= 0 ==> next.realizedBySymbol == b.realizedBySymbol)
      && (cost > 0 ==> next.realizedBySymbol == b.realizedBySymbol[o.symbol :=
            (if o.symbol in b.realizedBySymbol then b.realizedBySymbol[o.symbol] else 0) + profit])
      && next.lastSession == Some(o.date)
  {
    AcceptedIff(b, o, gross, commission, stamp);
    var g, c, s := AmountsOf(o);
    TimelineLength(b.lots, o.symbol);
    SaleIsSettled(b, o);
    forall other | other != o.symbol
      ensures Timeline(Consume(b.lots, o.symbol, o.quantity), other) == Timeline(b.lots, other)
    {
      ConsumeDropsFirstShares(b.lots, o.symbol, o.quantity, other);
    }
    hide Gross, Commission, StampTax, Amounts, Timeline, Consume, Quantity;
  }
}
