/** What every sequence of manual fills keeps: lots match positions, T+1 holds, cash is
    never overdrawn by a buy, and the accounts drift only by average-cost rounding. */
module ManualLedger {
  import opened Outcomes
  import opened Lots
  import opened MapSums
  import opened ManualFills

  ghost predicate Sound(b: Book) {
    && Positive(b.lots) && Ordered(b.lots)
    && (b.lastSession.None? ==> b.lots == [])
    && (b.lastSession.Some? ==> NotAfter(b.lots, b.lastSession.value))
    && (forall symbol :: Quantity(b.lots, symbol) == Held(b, symbol))
    && (forall symbol :: symbol in b.positions ==> b.positions[symbol] > 0)
  }

  function RecordAll(b: Book, orders: seq<Order>): Book {
    if orders == [] then b
    else
      var before := RecordAll(b, orders[..|orders| - 1]);
      if Held(before, orders[|orders| - 1].symbol) < 0 then before else Record(before, orders[|orders| - 1])
  }

  lemma HeldNonNegative(b: Book, symbol: string)
    requires Sound(b)
    ensures Held(b, symbol) >= 0
  {
  }

  lemma BuySound(b: Book, o: Order)
    requires Sound(b) && Refused(b, o).None? && o.side == Buy
    ensures Held(b, o.symbol) >= 0 && Sound(RecordBuy(b, o))
  {
    HeldNonNegative(b, o.symbol);
    var lot := Lot(o.symbol, o.quantity, o.date);
    PurchaseKeepsOrder(b.lots, lot);
    assert forall l :: l in b.lots + [lot] <==> l in b.lots || l == lot;
    forall symbol ensures Quantity(b.lots + [lot], symbol) == Held(RecordBuy(b, o), symbol) {
      QuantityAppend(b.lots, lot, symbol);
    }
  }

  lemma SellSound(b: Book, o: Order)
    requires Sound(b) && Refused(b, o).None? && o.side == Sell
    ensures Sound(RecordSell(b, o))
  {
    var next := RecordSell(b, o);
    ConsumeShape(b.lots, o.symbol, o.quantity, o.date);
    SaleKeepsOrder(b.lots, o.symbol, o.quantity);
    forall symbol ensures Quantity(next.lots, symbol) == Held(next, symbol) {
      SoldQuantity(b.lots, o.symbol, o.quantity, symbol);
    }
  }

  /** Every sequence of orders, in any order of dates, keeps the ledger sound. */
  lemma {:induction false} RecordsKeepSound(b: Book, orders: seq<Order>)
    requires Sound(b)
    ensures Sound(RecordAll(b, orders))
  {
    if orders != [] {
      var n := |orders| - 1;
      RecordsKeepSound(b, orders[..n]);
      RecordKeepsSound(RecordAll(b, orders[..n]), orders[n]);
    }
  }

  lemma RecordKeepsSound(b: Book, o: Order)
    requires Sound(b)
    ensures Held(b, o.symbol) >= 0 && Sound(Record(b, o))
  {
    HeldNonNegative(b, o.symbol);
    if Refused(b, o).None? {
      if o.side == Buy { BuySound(b, o); } else { SellSound(b, o); }
    }
  }

  // ----- T+1

  function SoldOn(b: Book, orders: seq<Order>, symbol: string, date: int): int {
    if orders == [] then 0
    else
      var n := |orders| - 1;
      var o := orders[n];
      SoldOn(b, orders[..n], symbol, date)
        + if o.side == Sell && o.symbol == symbol && o.date == date && Refused(RecordAll(b, orders[..n]), o).None? then o.quantity else 0
  }

  /** An accepted sale takes only shares acquired before its trade date, oldest first. */
  lemma SaleIsSettled(b: Book, o: Order)
    requires Sound(b) && Refused(b, o).None? && o.side == Sell
    ensures o.quantity <= |Timeline(b.lots, o.symbol)|
    ensures forall i :: 0 <= i < o.quantity ==> Timeline(b.lots, o.symbol)[i] < o.date
    ensures Timeline(RecordSell(b, o).lots, o.symbol) == Timeline(b.lots, o.symbol)[o.quantity..]
    ensures Settled(RecordSell(b, o).lots, o.symbol, o.date) == Settled(b.lots, o.symbol, o.date) - o.quantity
  {
    SaleTakesSettledShares(b.lots, o.symbol, o.quantity, o.date);
  }

  /** What counts as settled for `date` never grows once the ledger has reached that date,
      and falls by every sale dated `date`. */
  lemma RecordSettled(b: Book, o: Order, symbol: string, date: int)
    requires Sound(b) && (o.date >= date || Refused(b, o).Some?)
    ensures Held(b, o.symbol) >= 0
    ensures Settled(Record(b, o).lots, symbol, date)
      + (if o.side == Sell && o.symbol == symbol && o.date == date && Refused(b, o).None? then o.quantity else 0)
      <= Settled(b.lots, symbol, date)
  {
    HeldNonNegative(b, o.symbol);
    if Refused(b, o).None? {
      if o.side == Buy {
        var lot := Lot(o.symbol, o.quantity, o.date);
        QuantityAppend(b.lots, lot, symbol);
      } else if o.symbol == symbol && o.date == date {
        SaleIsSettled(b, o);
      } else {
        ConsumeShrinksSettled(b.lots, o.symbol, o.quantity, symbol, date);
      }
    }
  }

  lemma {:induction false} CountDrop(dates: seq<int>, k: nat, date: int)
    requires k <= |dates|
    ensures CountBefore(dates[k..], date) <= CountBefore(dates, date)
  {
    CountConcat(dates[..k], dates[k..], date);
    assert dates == dates[..k] + dates[k..];
  }

  lemma ConsumeShrinksSettled(lots: seq<Lot>, symbol: string, quantity: int, other: string, date: int)
    requires Positive(lots) && 0 <= quantity <= Quantity(lots, symbol)
    ensures Settled(Consume(lots, symbol, quantity), other, date) <= Settled(lots, other, date)
  {
    ConsumeDropsFirstShares(lots, symbol, quantity, other);
    ConsumeShape(lots, symbol, quantity, date);
    SettledCounts(lots, other, date);
    SettledCounts(Consume(lots, symbol, quantity), other, date);
    if other == symbol {
      CountDrop(Timeline(lots, symbol), quantity, date);
    }
  }

  /** T+1 for manual fills. From the opening of session `date`, whatever orders follow,
      accepted or refused, with later or stale dates in between: the sales recorded for that
      session never exceed what was held at its opening. */
  lemma {:induction false} SessionSalesWithinOpening(b: Book, orders: seq<Order>, symbol: string, date: int)
    requires Sound(b) && forall o :: o in orders ==> o.date >= date
    ensures Sound(RecordAll(b, orders))
    ensures Settled(RecordAll(b, orders).lots, symbol, date) + SoldOn(b, orders, symbol, date) <= Settled(b.lots, symbol, date)
    ensures SoldOn(b, orders, symbol, date) <= Held(b, symbol)
  {
    if orders != [] {
      var n := |orders| - 1;
      assert orders[n] in orders && forall o :: o in orders[..n] ==> o in orders;
      SessionSalesWithinOpening(b, orders[..n], symbol, date);
      RecordKeepsSound(RecordAll(b, orders[..n]), orders[n]);
      RecordSettled(RecordAll(b, orders[..n]), orders[n], symbol, date);
    }
    SettledWithin(b.lots, symbol, date);
    SettledWithin(RecordAll(b, orders).lots, symbol, date);
  }

  // ----- Cash

  /** An accepted buy never overdraws; an accepted sale leaves cash non-negative exactly when
      cash covers the amount by which its fees exceed the gross. */
  lemma RecordCash(b: Book, o: Order)
    requires Sound(b) && Refused(b, o).None? && b.cash >= 0
    ensures Held(b, o.symbol) >= 0
    ensures o.side == Buy ==> 0 <= Record(b, o).cash
    ensures o.side == Sell ==>
      (Record(b, o).cash >= 0 <==> Commission(Gross(o)) + StampTax(Gross(o)) - Gross(o) <= b.cash)
  {
    HeldNonNegative(b, o.symbol);
  }

  // ----- Accounting identity

  function BasisMap(b: Book): map<string, real> {
    map symbol | symbol in b.positions :: Basis(b.positions[symbol], CostOf(b, symbol)) as real
  }

  /** Cash plus positions at average cost, less realized profit. */
  ghost function Worth(b: Book): real {
    b.cash as real + Sum(BasisMap(b)) - b.realized as real
  }

  function Size(x: real): real {
    if x < 0.0 then -x else x
  }

  lemma BasisChange(b: Book, next: Book, symbol: string)
    requires symbol in next.positions && next.positions == b.positions[symbol := next.positions[symbol]]
    requires forall s :: s != symbol ==> CostOf(next, s) == CostOf(b, s)
    ensures BasisMap(next) == BasisMap(b)[symbol := Basis(next.positions[symbol], CostOf(next, symbol)) as real]
  {
    forall s | s in b.positions && s != symbol ensures BasisMap(next)[s] == BasisMap(b)[s] {
      assert next.positions[s] == b.positions[s] && CostOf(next, s) == CostOf(b, s);
    }
  }

  lemma BasisDropped(b: Book, next: Book, symbol: string)
    requires next.positions == b.positions - {symbol}
    requires forall s :: s != symbol ==> CostOf(next, s) == CostOf(b, s)
    ensures BasisMap(next) == BasisMap(b) - {symbol}
  {
    forall s | s in next.positions ensures BasisMap(next)[s] == BasisMap(b)[s] {
      assert next.positions[s] == b.positions[s] && CostOf(next, s) == CostOf(b, s);
    }
  }

  /** A buy shifts the identity by the rounding of the new average cost alone. */
  lemma BuyDrift(b: Book, o: Order)
    requires Sound(b) && Refused(b, o).None? && o.side == Buy
    ensures Held(b, o.symbol) >= 0
    ensures 2.0 * Size(Worth(RecordBuy(b, o)) - Worth(b)) <= (Held(b, o.symbol) + o.quantity) as real
  {
    HeldNonNegative(b, o.symbol);
    hide Sound, Refused, RoundRatio, Gross, Commission, Basis, Consume;
    var next, n := RecordBuy(b, o), Held(b, o.symbol) + o.quantity;
    var before, paid := Basis(Held(b, o.symbol), CostOf(b, o.symbol)), Gross(o) + Commission(Gross(o));
    RoundRatioNearest(before + paid, n);
    assert next.cash == b.cash - paid && next.realized == b.realized && CostOf(next, o.symbol) == RoundRatio(before + paid, n);
    HeldBasis(b, o.symbol);
    BasisChange(b, next, o.symbol);
    WorthMoves(b, next, o.symbol, before, Basis(n, CostOf(next, o.symbol)));
    Halves(Basis(n, CostOf(next, o.symbol)) - (before + paid), n);
  }

  lemma WorthMoves(b: Book, next: Book, symbol: string, before: int, after: int)
    requires At(BasisMap(b), symbol) == before as real && BasisMap(next) == BasisMap(b)[symbol := after as real]
    ensures Worth(next) - Worth(b) == (next.cash - b.cash + after - before - (next.realized - b.realized)) as real
  {
    hide BasisMap;
    SumSet(BasisMap(b), symbol, after as real);
  }

  lemma Halves(drift: int, shares: int)
    requires -shares <= 2 * drift <= shares
    ensures 2.0 * Size(drift as real) <= shares as real
  {
  }

  lemma HeldBasis(b: Book, symbol: string)
    ensures At(BasisMap(b), symbol) == Basis(Held(b, symbol), CostOf(b, symbol)) as real
  {
  }

  lemma SplitBasis(held: int, sold: int, cost: int)
    ensures Basis(held - sold, cost) == Basis(held, cost) - Basis(sold, cost)
    ensures cost == 0 ==> Basis(sold, cost) == 0
  {
  }

  /** A sale shifts the identity by nothing when the symbol has a positive average cost, and
      by its whole net proceeds when it has none: no realized profit is recorded then. */
  lemma SellDrift(b: Book, o: Order)
    requires Sound(b) && Refused(b, o).None? && o.side == Sell && CostOf(b, o.symbol) >= 0
    ensures Worth(RecordSell(b, o)) - Worth(b) == if CostOf(b, o.symbol) > 0 then 0.0 else NetProceeds(Gross(o)) as real
  {
    var next := RecordSell(b, o);
    var held, cost := Held(b, o.symbol), CostOf(b, o.symbol);
    assert 0 < o.quantity <= held;
    SplitBasis(held, o.quantity, cost);
    HeldBasis(b, o.symbol);
    hide Basis, NetProceeds, Gross, Sound, Refused, Consume, Worth;
    if held - o.quantity > 0 {
      BasisChange(b, next, o.symbol);
      hide BasisMap;
      WorthMoves(b, next, o.symbol, Basis(held, cost), Basis(held - o.quantity, cost));
    } else {
      BasisDropped(b, next, o.symbol);
      hide BasisMap;
      WorthDrops(b, next, o.symbol, Basis(held, cost));
    }
  }

  lemma WorthDrops(b: Book, next: Book, symbol: string, before: int)
    requires At(BasisMap(b), symbol) == before as real && BasisMap(next) == BasisMap(b) - {symbol}
    ensures Worth(next) - Worth(b) == (next.cash - b.cash - before - (next.realized - b.realized)) as real
  {
    hide BasisMap;
    SumDrop(BasisMap(b), symbol);
  }

  /** So a sale keeps the identity exactly when the average cost is positive or the net
      proceeds are zero. */
  lemma SaleKeepsIdentityIff(b: Book, o: Order)
    requires Sound(b) && Refused(b, o).None? && o.side == Sell && CostOf(b, o.symbol) >= 0
    ensures Worth(RecordSell(b, o)) == Worth(b) <==> CostOf(b, o.symbol) > 0 || NetProceeds(Gross(o)) == 0
  {
    SellDrift(b, o);
  }

  /** And a buy leaves a positive average cost exactly when twice the cost basis exceeds the
      number of shares (all amounts in units of 0.0001). */
  lemma BuyCostPositiveIff(b: Book, o: Order)
    requires Sound(b) && Refused(b, o).None? && o.side == Buy && CostOf(b, o.symbol) >= 0
    ensures Held(b, o.symbol) >= 0
    ensures var basis := Basis(Held(b, o.symbol), CostOf(b, o.symbol)) + (Gross(o) + Commission(Gross(o)));
      basis >= 0 ==> (CostOf(RecordBuy(b, o), o.symbol) > 0 <==> 2 * basis > Held(b, o.symbol) + o.quantity)
  {
    HeldNonNegative(b, o.symbol);
    RoundRatioNearest(Basis(Held(b, o.symbol), CostOf(b, o.symbol)) + (Gross(o) + Commission(Gross(o))), Held(b, o.symbol) + o.quantity);
  }

  /** The sum over accepted buys of the quantity held right after them. */
  function BoughtSizes(b: Book, orders: seq<Order>): int {
    if orders == [] then 0
    else
      var n := |orders| - 1;
      var before, o := RecordAll(b, orders[..n]), orders[n];
      BoughtSizes(b, orders[..n])
        + if o.side == Buy && Refused(before, o).None? then Held(before, o.symbol) + o.quantity else 0
  }

  /** Every accepted sale finds a positive average cost. */
  ghost predicate SalesHaveCost(b: Book, orders: seq<Order>) {
    forall i :: 0 <= i < |orders| ==>
      var before := RecordAll(b, orders[..i]);
      orders[i].side == Sell && Refused(before, orders[i]).None? ==> CostOf(before, orders[i].symbol) > 0
  }

  /** Accounting identity with a drift bound: after any sequence of manual fills whose sales
      find positive average costs, cash plus positions at cost minus realized profit differs
      from where it started by at most half the sum of the holdings right after each buy. */
  lemma {:induction false} DriftBound(b: Book, orders: seq<Order>)
    requires Sound(b) && SalesHaveCost(b, orders)
    ensures 2.0 * Size(Worth(RecordAll(b, orders)) - Worth(b)) <= BoughtSizes(b, orders) as real
  {
    hide Record, Sound, Worth, Refused, SalesHaveCost;
    if orders != [] {
      var n := |orders| - 1;
      var front, o := orders[..n], orders[n];
      SalesSoFar(b, orders);
      DriftBound(b, front);
      RecordsKeepSound(b, front);
      DriftStep(RecordAll(b, front), o);
    }
  }

  lemma SalesSoFar(b: Book, orders: seq<Order>)
    requires SalesHaveCost(b, orders) && orders != []
    ensures var front, o := orders[..|orders| - 1], orders[|orders| - 1];
      && SalesHaveCost(b, front)
      && var before := RecordAll(b, front);
         o.side == Sell && Refused(before, o).None? ==> CostOf(before, o.symbol) > 0
  {
    var n := |orders| - 1;
    hide RecordAll, Refused;
    assert orders[..n] == orders[..n];
    forall i | 0 <= i < n ensures orders[..n][..i] == orders[..i] && orders[..n][i] == orders[i] {
    }
  }

  lemma DriftStep(b: Book, o: Order)
    requires Sound(b)
    requires o.side == Sell && Refused(b, o).None? ==> CostOf(b, o.symbol) > 0
    ensures Held(b, o.symbol) >= 0
    ensures 2.0 * Size(Worth(Record(b, o)) - Worth(b))
      <= (if o.side == Buy && Refused(b, o).None? then Held(b, o.symbol) + o.quantity else 0) as real
  {
    HeldNonNegative(b, o.symbol);
    hide Worth, RecordBuy, RecordSell, Sound;
    if Refused(b, o).None? {
      if o.side == Buy { BuyDrift(b, o); } else { SellDrift(b, o); }
    }
  }
}
