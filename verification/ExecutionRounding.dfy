/** What the six-decimal rounding of fill price and fees does to the cash reserve of a buy.
    Amounts are counted in micro-units, the sixth decimal; rounded ones are integers. */
module ExecutionRounding {
  import opened Execution
  import opened Rounding

  // ----- Fees and prices

  ghost predicate FairFees(fees: Fees) {
    && fees.rate >= 0.0 && fees.minimum >= 0.0 && fees.stampRate >= 0.0
    && fees.transferRate >= 0.0 && fees.exchangeRate >= 0.0 && fees.slippageBps >= -10000.0
  }

  lemma LevyMonotone(x: real, y: real, rate: real)
    requires x <= y && rate >= 0.0
    ensures Levy(x, rate) <= Levy(y, rate)
  {
  }

  lemma CommissionMonotone(x: real, y: real, fees: Fees)
    requires x <= y && fees.rate >= 0.0
    ensures Commission(x, fees) <= Commission(y, fees)
  {
    LevyMonotone(x, y, fees.rate);
  }

  lemma CostMonotone(x: real, y: real, fees: Fees)
    requires x <= y && FairFees(fees)
    ensures BuyCost(x, fees) <= BuyCost(y, fees)
  {
    hide Levy, Commission;
    CommissionMonotone(x, y, fees);
    LevyMonotone(x, y, fees.transferRate);
    LevyMonotone(x, y, fees.exchangeRate);
    LevyMonotone(x, y, fees.stampRate);
  }

  lemma AmountMonotone(a: int, b: int, price: real)
    requires a <= b && price >= 0.0
    ensures Amount(a, price) <= Amount(b, price)
  {
    LevyMonotone(a as real, b as real, price);
  }

  lemma BuyPrice(price: real, fees: Fees)
    requires price >= 0.0 && fees.slippageBps >= -10000.0
    ensures ExactFill(Buy, price, fees) >= 0.0
  {
    LevyMonotone(0.0, price, 1.0 + fees.slippageBps / 10000.0);
  }

  // ----- Reserve and cost of a buy

  /** Fee rates are the same in micro-units; the minimum commission is an amount. */
  function InMicro(fees: Fees): Fees {
    fees.(minimum := Micro(fees.minimum))
  }

  /** `estimate_buy_cash_required`: rounded only at the end. */
  function RoundedReserve(quantity: int, price: real, fees: Fees): int {
    Nearest(Micro(BuyCost(Amount(quantity, ExactFill(Buy, price, fees)), fees)))
  }

  /** The fill price, rounded before it is multiplied. */
  function RoundedFill(price: real, fees: Fees): int {
    Nearest(Micro(ExactFill(Buy, price, fees)))
  }

  /** Gross amount and fees, each rounded on its own. */
  function RoundedCharge(gross: int, fees: Fees): int {
    if gross <= 0 then gross
    else
      gross + Nearest(Commission(gross as real, InMicro(fees)))
        + Nearest(Levy(gross as real, fees.transferRate)) + Nearest(Levy(gross as real, fees.exchangeRate))
        + if fees.stampOnBuy then Nearest(Levy(gross as real, fees.stampRate)) else 0
  }

  /** The cash a buy of `quantity` takes. */
  function RoundedCost(quantity: int, price: real, fees: Fees): int {
    RoundedCharge(Nearest(Amount(quantity, RoundedFill(price, fees) as real)), fees)
  }

  /** By how much the cash taken exceeds the cash reserved. */
  function Overspent(quantity: int, price: real, fees: Fees): int {
    RoundedCost(quantity, price, fees) - RoundedReserve(quantity, price, fees)
  }

  // ----- They are the amounts of the execution loop

  lemma ReserveIs(quantity: int, price: real, fees: Fees)
    ensures BuyReserve(quantity, price, fees) == Yuan(RoundedReserve(quantity, price, fees))
  {
  }

  /** A fee on a whole amount, rounded in either unit. */
  lemma FeeIs(gross: int, rate: real, fees: Fees)
    ensures Round6(Levy(Yuan(gross), rate)) == Yuan(Nearest(Levy(gross as real, rate)))
    ensures Round6(Commission(Yuan(gross), fees)) == Yuan(Nearest(Commission(gross as real, InMicro(fees))))
  {
    YuanIsWhole(gross);
    hide Nearest, Levy, Commission, Yuan, Micro, InMicro;
    LevyInMicro(Yuan(gross), rate);
    CommissionInMicro(Yuan(gross), fees);
  }

  lemma GrossIs(quantity: int, price: real, fees: Fees)
    ensures Round6(Amount(quantity, FillPrice(Buy, price, fees))) == Yuan(quantity * RoundedFill(price, fees))
    ensures Nearest(Amount(quantity, RoundedFill(price, fees) as real)) == quantity * RoundedFill(price, fees)
  {
    hide Nearest, ExactFill;
    var fill := RoundedFill(price, fees);
    GrossIsWhole(quantity, fill);
    WholeProduct(quantity, fill);
    assert Amount(quantity, Yuan(fill)) == Yuan(quantity * fill);
    YuanIsWhole(quantity * fill);
  }

  lemma YuanSum(a: int, b: int)
    ensures Yuan(a) + Yuan(b) == Yuan(a + b) && -Yuan(a) == Yuan(-a) && (Yuan(a) <= 0.0 <==> a <= 0)
  {
  }

  /** The cash a buy takes, in the units of the account. */
  lemma CostIs(intent: Intent, quantity: int, price: real, fees: Fees)
    requires intent.side == Buy
    ensures TradeFor(intent, quantity, price, fees).cashImpact == -Yuan(RoundedCost(quantity, price, fees))
    ensures Whole(TradeFor(intent, quantity, price, fees).cashImpact)
  {
    hide Nearest, ExactFill, FillPrice, RoundedFill, Amount;
    GrossIs(quantity, price, fees);
    var gross := quantity * RoundedFill(price, fees);
    ChargeIs(intent, gross, fees);
    YuanSum(RoundedCharge(gross, fees), 0);
    YuanIsWhole(-RoundedCharge(gross, fees));
  }

  lemma ChargeIs(intent: Intent, gross: int, fees: Fees)
    requires intent.side == Buy
    ensures var g := Yuan(gross);
      g + Round6(FeeWithoutTax(g, fees) + StampTax(Buy, intent.etf, g, fees)) == Yuan(RoundedCharge(gross, fees))
  {
    hide Nearest, Levy, Commission, InMicro;
    YuanSum(gross, 0);
    FeeIs(gross, fees.transferRate, fees);
    FeeIs(gross, fees.exchangeRate, fees);
    FeeIs(gross, fees.stampRate, fees);
    var c := Nearest(Commission(gross as real, InMicro(fees)));
    var t, x := Nearest(Levy(gross as real, fees.transferRate)), Nearest(Levy(gross as real, fees.exchangeRate));
    var stamp := if fees.stampOnBuy then Nearest(Levy(gross as real, fees.stampRate)) else 0;
    YuanIsWhole(0);
    YuanIsWhole(c + t + x);
    YuanIsWhole(c + t + x + stamp);
    hide Round6;
    assert Yuan(c) + Yuan(t) + Yuan(x) == Yuan(c + t + x);
    assert Yuan(c + t + x) + Yuan(stamp) == Yuan(c + t + x + stamp);
  }

  // ----- How far they are apart

  lemma CommissionInMicro(gross: real, fees: Fees)
    ensures Micro(Commission(gross, fees)) == Commission(Micro(gross), InMicro(fees))
  {
    LevyInMicro(gross, fees.rate);
  }

  lemma LevyInMicro(gross: real, rate: real)
    ensures Micro(Levy(gross, rate)) == Levy(Micro(gross), rate)
  {
  }

  lemma CostInMicro(gross: real, fees: Fees)
    ensures Micro(BuyCost(gross, fees)) == BuyCost(Micro(gross), InMicro(fees))
  {
    hide Levy, Commission;
    CommissionInMicro(gross, fees);
    LevyInMicro(gross, fees.transferRate);
    LevyInMicro(gross, fees.exchangeRate);
    LevyInMicro(gross, fees.stampRate);
  }

  lemma AmountInMicro(quantity: int, price: real)
    ensures Micro(Amount(quantity, price)) == Amount(quantity, Micro(price))
  {
  }

  /** The gross amount of the fill is a whole number of micro-units without rounding. */
  lemma GrossIsWhole(quantity: int, fill: int)
    ensures Nearest(Amount(quantity, fill as real)) == quantity * fill
  {
    WholeProduct(quantity, fill);
    NearestWhole(quantity * fill);
  }

  lemma WholeProduct(a: int, b: int)
    ensures (a * b) as real == a as real * b as real
  {
  }

  lemma ChargeNear(gross: int, fees: Fees)
    requires gross > 0
    ensures BuyCost(gross as real, InMicro(fees)) - 2.0 <= RoundedCharge(gross, fees) as real
      <= BuyCost(gross as real, InMicro(fees)) + 2.0
  {
    hide Nearest, Levy, Commission;
  }

  lemma ReserveNear(quantity: int, price: real, fees: Fees)
    ensures var exact := BuyCost(Amount(quantity, Micro(ExactFill(Buy, price, fees))), InMicro(fees));
      exact - 0.5 <= RoundedReserve(quantity, price, fees) as real <= exact + 0.5
  {
    hide Nearest, BuyCost, Amount, ExactFill, Micro;
    var fill := ExactFill(Buy, price, fees);
    AmountInMicro(quantity, fill);
    CostInMicro(Amount(quantity, fill), fees);
  }

  lemma FairInMicro(fees: Fees)
    requires FairFees(fees)
    ensures FairFees(InMicro(fees))
  {
  }

  /** Fees on more are no less, so costs differ by at least what the amounts differ. */
  lemma CostSpread(x: real, y: real, fees: Fees)
    requires x <= y && FairFees(fees)
    ensures BuyCost(y, fees) - BuyCost(x, fees) >= y - x
  {
    hide Levy, Commission;
    CommissionMonotone(x, y, fees);
    LevyMonotone(x, y, fees.transferRate);
    LevyMonotone(x, y, fees.exchangeRate);
    LevyMonotone(x, y, fees.stampRate);
  }

  lemma CostNonNegative(x: real, fees: Fees)
    requires x >= 0.0 && FairFees(fees)
    ensures BuyCost(x, fees) >= 0.0
  {
    LevyMonotone(0.0, x, fees.rate);
    LevyMonotone(0.0, x, fees.transferRate);
    LevyMonotone(0.0, x, fees.exchangeRate);
    LevyMonotone(0.0, x, fees.stampRate);
  }

  lemma MicroFill(price: real, fees: Fees)
    requires price >= 0.0 && FairFees(fees)
    ensures Micro(ExactFill(Buy, price, fees)) >= 0.0 && RoundedFill(price, fees) >= 0
  {
    BuyPrice(price, fees);
  }

  lemma AmountsOrdered(quantity: nat, low: real, high: real)
    requires 0.0 <= low <= high
    ensures 0.0 <= Amount(quantity, low) <= Amount(quantity, high)
    ensures Amount(quantity, high) - Amount(quantity, low) == Amount(quantity, high - low)
  {
    LevyMonotone(low, high, quantity as real);
    LevyMonotone(0.0, low, quantity as real);
  }

  /** The fill price is not rounded up. */
  predicate FillNotRaised(price: real, fees: Fees) {
    RoundedFill(price, fees) as real <= Micro(ExactFill(Buy, price, fees))
  }

  lemma OverspentBounded(quantity: nat, price: real, fees: Fees)
    requires price >= 0.0 && FairFees(fees) && FillNotRaised(price, fees)
    ensures Overspent(quantity, price, fees) <= 2
  {
    hide Nearest, BuyCost, Amount, ExactFill, RoundedFill, RoundedCharge, RoundedReserve, Micro, FairFees;
    var exact, fill := Micro(ExactFill(Buy, price, fees)), RoundedFill(price, fees);
    MicroFill(price, fees);
    FairInMicro(fees);
    AmountsOrdered(quantity, fill as real, exact);
    ReserveNear(quantity, price, fees);
    CostSpread(Amount(quantity, fill as real), Amount(quantity, exact), InMicro(fees));
    CostNear(quantity, fill, fees);
  }

  /** What rounding gross and fees one by one makes of the cost of a fill. */
  lemma CostNear(quantity: nat, fill: int, fees: Fees)
    requires fill >= 0 && FairFees(fees)
    ensures var cost := RoundedCharge(Nearest(Amount(quantity, fill as real)), fees) as real;
      var exact := BuyCost(Amount(quantity, fill as real), InMicro(fees));
      cost <= exact + 2.0 && (quantity > 0 && fill > 0 ==> exact - 2.0 <= cost)
  {
    hide Nearest, BuyCost, Amount, RoundedCharge, FairFees;
    FairInMicro(fees);
    GrossIsWhole(quantity, fill);
    WholeProduct(quantity, fill);
    AmountIs(quantity, fill as real);
    var gross := quantity * fill;
    assert Amount(quantity, fill as real) == gross as real;
    if quantity > 0 && fill > 0 {
      Positive(quantity, fill);
      ChargeNear(gross, fees);
    } else {
      NoProduct(quantity, fill);
      NoCharge(gross, fees);
      CostNonNegative(gross as real, InMicro(fees));
    }
  }

  lemma NoProduct(a: int, b: int)
    requires a == 0 || b == 0
    ensures a * b == 0
  {
  }

  lemma AmountIs(quantity: int, price: real)
    ensures Amount(quantity, price) == quantity as real * price
  {
  }

  lemma NoCharge(gross: int, fees: Fees)
    requires gross <= 0
    ensures RoundedCharge(gross, fees) <= 0
  {
  }

  lemma OverspentBelow(quantity: nat, price: real, fees: Fees)
    requires price >= 0.0 && FairFees(fees) && !FillNotRaised(price, fees) && quantity > 0
    ensures Overspent(quantity, price, fees) as real
      >= Amount(quantity, RoundedFill(price, fees) as real - Micro(ExactFill(Buy, price, fees))) - 2.5
  {
    hide Nearest, BuyCost, Amount, ExactFill, RoundedFill, RoundedCharge, RoundedReserve, Micro, FairFees;
    var exact, fill := Micro(ExactFill(Buy, price, fees)), RoundedFill(price, fees);
    MicroFill(price, fees);
    FairInMicro(fees);
    AmountsOrdered(quantity, exact, fill as real);
    ReserveNear(quantity, price, fees);
    CostSpread(Amount(quantity, exact), Amount(quantity, fill as real), InMicro(fees));
    CostNear(quantity, fill, fees);
  }

  lemma Positive(a: int, b: int)
    requires a > 0 && b > 0
    ensures a * b > 0
  {
  }

  /** A quantity that makes any raise of the fill price exceed any bound. */
  function Enough(bound: nat, raise: real): (quantity: nat)
    requires raise > 0.0
    ensures quantity > 0 && quantity as real * raise > bound as real + 2.5
  {
    var q := ((bound as real + 3.0) / raise).Floor + 1;
    Reached(bound as real + 3.0, raise);
    q
  }

  lemma Reached(amount: real, step: real)
    requires step > 0.0 && amount > 0.0
    ensures ((amount / step).Floor + 1) as real * step > amount && (amount / step).Floor >= 0
  {
    var ratio := amount / step;
    var n := (ratio.Floor + 1) as real;
    assert ratio * step == amount;
    assert ratio > 0.0;
    StrictlyMore(ratio, n, step);
  }

  lemma StrictlyMore(a: real, b: real, step: real)
    requires a < b && step > 0.0
    ensures a * step < b * step
  {
    assert (b - a) * step > 0.0;
    assert (b - a) * step == b * step - a * step;
  }

  /** Some buy at this price exceeds its reserve by more than `bound` micro-units. */
  ghost predicate Exceeds(price: real, fees: Fees, bound: nat) {
    exists quantity: nat :: Overspent(quantity, price, fees) > bound
  }

  lemma OverspentUnbounded(price: real, fees: Fees, bound: nat)
    requires price >= 0.0 && FairFees(fees) && !FillNotRaised(price, fees)
    ensures Exceeds(price, fees, bound)
  {
    var raise := RoundedFill(price, fees) as real - Micro(ExactFill(Buy, price, fees));
    hide Overspent, ExactFill, RoundedFill, Micro, FairFees;
    var quantity := Enough(bound, raise);
    OverspentBelow(quantity, price, fees);
    assert Overspent(quantity, price, fees) > bound;
  }

  // ----- Main results

  /** The reserve covers a buy of any quantity, up to two micro-units from rounding the fees
      one by one, exactly when the fill price is not rounded up; if it is, a large enough buy
      exceeds its reserve by any amount. */
  lemma ReserveCoversIff(price: real, fees: Fees)
    requires price >= 0.0 && FairFees(fees)
    ensures (forall quantity: nat :: Overspent(quantity, price, fees) <= 2) <==> FillNotRaised(price, fees)
    ensures !FillNotRaised(price, fees) ==> forall bound: nat :: Exceeds(price, fees, bound)
  {
    hide Overspent, FillNotRaised, FairFees;
    if FillNotRaised(price, fees) {
      forall quantity: nat ensures Overspent(quantity, price, fees) <= 2 {
        OverspentBounded(quantity, price, fees);
      }
    } else {
      forall bound: nat ensures Exceeds(price, fees, bound) {
        OverspentUnbounded(price, fees, bound);
      }
      OverspentUnbounded(price, fees, 2);
    }
  }

  /** Prices in hundredths and slippage in whole basis points need no rounding. */
  lemma WholeCentsNotRaised(cents: nat, bps: int, fees: Fees)
    requires fees.slippageBps == bps as real
    ensures FillNotRaised(cents as real / 100.0, fees)
  {
    var exact := Micro(ExactFill(Buy, cents as real / 100.0, fees));
    WholeProduct(cents, 10000 + bps);
    CentsFill(cents as real / 100.0, bps as real / 10000.0);
    var whole := cents * (10000 + bps);
    assert exact == whole as real by { assert (10000 + bps) as real == 10000.0 + bps as real; }
    NearestWhole(whole);
    assert RoundedFill(cents as real / 100.0, fees) == Nearest(exact) == whole;
  }

  lemma CentsFill(x: real, y: real)
    ensures x * (1.0 + y) * 1000000.0 == (100.0 * x) * (10000.0 + 10000.0 * y)
  {
    assert x * (1.0 + y) == x + x * y;
    assert (100.0 * x) * (10000.0 + 10000.0 * y) == 1000000.0 * x + 1000000.0 * (x * y);
  }

  /** The buy reserve is monotone in the quantity. */
  lemma ReserveMonotone(a: int, b: int, price: real, fees: Fees)
    requires a <= b && price >= 0.0 && FairFees(fees)
    ensures BuyReserve(a, price, fees) <= BuyReserve(b, price, fees)
    ensures RoundedReserve(a, price, fees) <= RoundedReserve(b, price, fees)
  {
    BuyPrice(price, fees);
    hide ExactFill, Amount, BuyCost, Nearest;
    var low, high := Amount(a, ExactFill(Buy, price, fees)), Amount(b, ExactFill(Buy, price, fees));
    AmountMonotone(a, b, ExactFill(Buy, price, fees));
    CostMonotone(low, high, fees);
    NearestMonotone(Micro(BuyCost(low, fees)), Micro(BuyCost(high, fees)));
  }

  /** Cash in micro-units after a buy that filled `filled` of the `ordered` shares the reserve
      was checked for: at most two below the frozen part, if the fill price is not raised. */
  lemma RoundedFloor(cash: int, frozen: int, ordered: nat, filled: nat, price: real, fees: Fees)
    requires price >= 0.0 && FairFees(fees) && FillNotRaised(price, fees)
    requires filled <= ordered && RoundedReserve(ordered, price, fees) <= cash - frozen
    ensures cash - RoundedCost(filled, price, fees) >= frozen - 2
  {
    OverspentBounded(filled, price, fees);
    ReserveMonotone(filled, ordered, price, fees);
  }

  /** `_assert_account_consistent` on cash in micro-units: negative cash beyond -0.000001. */
  predicate CashConsistent(cash: int) {
    cash >= -1
  }

  const NO_FEES := Fees(0.0, 0.0, 0.0, 0.0, 0, 0.0, 0.0, false, false)

  /** One hundred shares at 1.0000006: the reserve check passes and the consistency check
      then stops the call. */
  lemma RaisedFillStops()
    ensures var cash := RoundedReserve(100, 1.0000006, NO_FEES);
      cash == 100000060 && !CashConsistent(cash - RoundedCost(100, 1.0000006, NO_FEES))
  {
    assert RoundedReserve(100, 1.0000006, NO_FEES) == 100000060;
    assert RoundedFill(1.0000006, NO_FEES) == 1000001;
    GrossIsWhole(100, 1000001);
    NearestWhole(0);
  }

  const TINY_FEES := Fees(0.0000015, 0.0, 0.0, 0.0, 0, 0.0000015, 0.0000015, false, false)

  /** The two micro-units are reached, also at a price in hundredths, and are enough to stop
      the call: three fees of one and a half round up one by one, their sum does not. */
  lemma TwoUnitsStop()
    ensures var cash := RoundedReserve(1, 1.0, TINY_FEES);
      Overspent(1, 1.0, TINY_FEES) == 2 && !CashConsistent(cash - RoundedCost(1, 1.0, TINY_FEES))
  {
    assert RoundedReserve(1, 1.0, TINY_FEES) == Nearest(1000004.5) == 1000004;
    assert RoundedFill(1.0, TINY_FEES) == 1000000;
    GrossIsWhole(1, 1000000);
    assert Nearest(1.5) == 2;
    assert RoundedCharge(1000000, TINY_FEES) == 1000006;
  }

  /** A buy that passes the reserve check, at a fill price that is not rounded up. */
  ghost predicate Affordable(cash: int, frozen: int, ordered: nat, filled: nat, price: real, fees: Fees) {
    && price >= 0.0 && FairFees(fees) && FillNotRaised(price, fees)
    && filled <= ordered && RoundedReserve(ordered, price, fees) <= cash - frozen
  }

  /** No buy of this kind trips the consistency check. */
  ghost predicate NeverStops(frozen: int) {
    forall cash: int, ordered: nat, filled: nat, price: real, fees: Fees ::
      Affordable(cash, frozen, ordered, filled, price, fees) ==> CashConsistent(cash - RoundedCost(filled, price, fees))
  }

  /** The consistency check never stops a buy within its reserve, at any price that is not
      rounded up and with any fees, exactly when at least one micro-unit is frozen. */
  lemma NeverStopsIff(frozen: nat)
    ensures NeverStops(frozen) <==> frozen >= 1
  {
    hide RoundedReserve, RoundedCost, FillNotRaised, FairFees;
    if frozen >= 1 {
      forall cash: int, ordered: nat, filled: nat, price: real, fees: Fees | Affordable(cash, frozen, ordered, filled, price, fees)
        ensures CashConsistent(cash - RoundedCost(filled, price, fees))
      {
        RoundedFloor(cash, frozen, ordered, filled, price, fees);
      }
    } else {
      TwoUnitsStop();
      TinyFeesFit();
      var cash := RoundedReserve(1, 1.0, TINY_FEES);
      assert Affordable(cash, 0, 1, 1, 1.0, TINY_FEES);
      assert !CashConsistent(cash - RoundedCost(1, 1.0, TINY_FEES));
    }
  }

  lemma TinyFeesFit()
    ensures FairFees(TINY_FEES) && FillNotRaised(1.0, TINY_FEES)
  {
  }

  /** At a price that is rounded up it stops some buy within its reserve however much is
      frozen. */
  lemma RaisedFillsStop(frozen: nat, price: real, fees: Fees)
    requires price >= 0.0 && FairFees(fees) && !FillNotRaised(price, fees)
    ensures exists quantity: nat :: !CashConsistent(frozen + RoundedReserve(quantity, price, fees) - RoundedCost(quantity, price, fees))
  {
    hide RoundedReserve, RoundedCost, FillNotRaised, FairFees;
    OverspentUnbounded(price, fees, frozen + 1);
    var quantity: nat :| Overspent(quantity, price, fees) > frozen + 1;
  }
}
