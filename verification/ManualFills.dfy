/** Recording manually confirmed fills into the paper ledger. Money is in units of 0.0001,
    the script's rounding unit; rounding is to nearest, ties to even. */
module ManualFills {
  import opened Outcomes
  import opened Lots

  datatype Side = Buy | Sell

  datatype Order = Order(side: Side, symbol: string, quantity: int, price: real, date: int)

  datatype Refusal =
    | BeforeLastSession | SymbolMissing | QuantityNotPositive | PriceNotPositive | NotWholeLots
    | InsufficientPosition | SellableInsufficient | InsufficientCash

  /** The persisted state: account, settlement lots and the last execution session. */
  datatype Book = Book(cash: int, positions: map<string, int>, costs: map<string, int>, realized: int,
                       realizedBySymbol: map<string, int>, lots: seq<Lot>, lastSession: Option<int>)

  // ----- Rounding and fees

  /** `n / d` rounded to the nearest integer, ties to even. */
  function RoundRatio(n: int, d: int): int
    requires d > 0
  {
    var q, r := n / d, n % d;
    if 2 * r < d then q else if 2 * r > d then q + 1 else if q % 2 == 0 then q else q + 1
  }

  function RoundReal(x: real): int {
    var q := x.Floor;
    var r := x - q as real;
    if r < 0.5 then q else if r > 0.5 then q + 1 else if q % 2 == 0 then q else q + 1
  }

  /** Shares at average cost. */
  function Basis(quantity: int, cost: int): int {
    quantity * cost
  }

  lemma QuotientBasis(n: int, d: int)
    requires d > 0
    ensures n == Basis(d, n / d) + n % d && 0 <= n % d < d
    ensures Basis(d, n / d + 1) == Basis(d, n / d) + d
    ensures n >= 0 ==> n / d >= 0
    ensures n / d >= 1 ==> Basis(d, n / d) >= d
    ensures n / d == 0 ==> Basis(d, n / d) == 0
  {
    if n / d >= 1 {
      assert Basis(d, n / d) == d + d * (n / d - 1);
      assert d * (n / d - 1) >= 0;
    }
  }

  /** Rounding is within half a unit, and exact on multiples. */
  lemma RoundRatioNearest(n: int, d: int)
    requires d > 0
    ensures -d <= 2 * (Basis(d, RoundRatio(n, d)) - n) <= d
    ensures n % d == 0 ==> Basis(d, RoundRatio(n, d)) == n
    ensures n >= 0 ==> (RoundRatio(n, d) > 0 <==> 2 * n > d)
  {
    hide Basis;
    QuotientBasis(n, d);
  }

  const MINIMUM_COMMISSION := 50000

  function Commission(gross: int): int {
    if gross * 3 < MINIMUM_COMMISSION * 10000 then MINIMUM_COMMISSION else RoundRatio(gross * 3, 10000)
  }

  function StampTax(gross: int): int {
    RoundRatio(gross * 5, 10000)
  }

  function Gross(o: Order): int {
    RoundReal(o.quantity as real * o.price * 10000.0)
  }

  function NetProceeds(gross: int): int {
    gross - Commission(gross) - StampTax(gross)
  }

  // ----- Validation

  function Held(b: Book, symbol: string): int {
    if symbol in b.positions then b.positions[symbol] else 0
  }

  function CostOf(b: Book, symbol: string): int {
    if symbol in b.costs then b.costs[symbol] else 0
  }

  predicate Blank(symbol: string) {
    forall i :: 0 <= i < |symbol| ==> symbol[i] in {' ', '\t', '\n', '\r'}
  }

  function Validate(b: Book, o: Order, sellable: int): Option<Refusal> {
    if Blank(o.symbol) then Some(SymbolMissing)
    else if o.quantity <= 0 then Some(QuantityNotPositive)
    else if o.price <= 0.0 then Some(PriceNotPositive)
    else if o.quantity % 100 != 0 then Some(NotWholeLots)
    else if o.side == Sell && Held(b, o.symbol) < o.quantity then Some(InsufficientPosition)
    else if o.side == Sell && sellable < o.quantity then Some(SellableInsufficient)
    else None
  }

  // ----- One fill

  function RecordBuy(b: Book, o: Order): Book
    requires o.quantity > 0 && Held(b, o.symbol) >= 0
  {
    var added := Gross(o) + Commission(Gross(o));
    var quantity := Held(b, o.symbol) + o.quantity;
    b.(cash := b.cash - added,
       positions := b.positions[o.symbol := quantity],
       costs := b.costs[o.symbol := RoundRatio(Basis(Held(b, o.symbol), CostOf(b, o.symbol)) + added, quantity)],
       lots := b.lots + [Lot(o.symbol, o.quantity, o.date)],
       lastSession := Some(o.date))
  }

  function RecordSell(b: Book, o: Order): Book {
    var net := NetProceeds(Gross(o));
    var held, cost := Held(b, o.symbol), CostOf(b, o.symbol);
    var counted := held > 0 && cost > 0;
    var profit := net - Basis(o.quantity, cost);
    b.(cash := b.cash + net,
       positions := if held - o.quantity > 0 then b.positions[o.symbol := held - o.quantity] else b.positions - {o.symbol},
       costs := if held - o.quantity > 0 then b.costs else b.costs - {o.symbol},
       realized := if counted then b.realized + profit else b.realized,
       realizedBySymbol := if counted then
         b.realizedBySymbol[o.symbol := (if o.symbol in b.realizedBySymbol then b.realizedBySymbol[o.symbol] else 0) + profit]
         else b.realizedBySymbol,
       lots := Consume(b.lots, o.symbol, o.quantity),
       lastSession := Some(o.date))
  }

  /** Why an order is refused, if it is. */
  function Refused(b: Book, o: Order): Option<Refusal> {
    if b.lastSession.Some? && o.date < b.lastSession.value then Some(BeforeLastSession)
    else
      var issue := Validate(b, o, Settled(b.lots, o.symbol, o.date));
      if issue.Some? then issue
      else if o.side == Buy && Gross(o) + Commission(Gross(o)) > b.cash then Some(InsufficientCash)
      else None
  }

  function Record(b: Book, o: Order): Book
    requires Held(b, o.symbol) >= 0
  {
    if Refused(b, o).Some? then b
    else if o.side == Buy then RecordBuy(b, o) else RecordSell(b, o)
  }

  // ----- The script as it runs

  /** Sellable quantity of every symbol, in one pass over the lots. */
  method SellableBySymbol(lots: seq<Lot>, date: int) returns (sellable: map<string, int>)
    ensures forall symbol :: (if symbol in sellable then sellable[symbol] else 0) == Settled(lots, symbol, date)
  {
    sellable := map[];
    for i := 0 to |lots|
      invariant forall symbol :: (if symbol in sellable then sellable[symbol] else 0) == Settled(lots[..i], symbol, date)
    {
      var lot := lots[i];
      assert lots[..i + 1] == lots[..i] + [lot];
      forall symbol ensures Settled(lots[..i + 1], symbol, date)
        == Settled(lots[..i], symbol, date) + if lot.symbol == symbol && lot.acquired < date then lot.quantity else 0
      {
        QuantityAppend(lots[..i], lot, symbol);
      }
      if lot.acquired < date {
        sellable := sellable[lot.symbol := (if lot.symbol in sellable then sellable[lot.symbol] else 0) + lot.quantity];
      }
    }
    assert lots[..|lots|] == lots;
  }

  /** The paper ledger that the script loads, updates and saves. */
  class PaperLedger {
    var cash: int
    var positions: map<string, int>
    var costs: map<string, int>
    var realized: int
    var realizedBySymbol: map<string, int>
    var lots: seq<Lot>
    var lastSession: Option<int>

    function State(): Book
      reads this
    {
      Book(cash, positions, costs, realized, realizedBySymbol, lots, lastSession)
    }

    constructor (initial: int)
      ensures State() == Book(initial, map[], map[], 0, map[], [], None)
    {
      cash, positions, costs, realized := initial, map[], map[], 0;
      realizedBySymbol, lots, lastSession := map[], [], None;
    }

    method ApplyBuy(o: Order, totalOut: int)
      requires o.side == Buy && o.quantity > 0 && totalOut == Gross(o) + Commission(Gross(o))
      requires Held(State(), o.symbol) >= 0
      modifies this
      ensures State() == RecordBuy(old(State()), o)
    {
      hide Gross, Commission, RoundRatio, Basis;
      var before := Held(State(), o.symbol);
      var oldBasis := Basis(before, CostOf(State(), o.symbol));
      cash := cash - totalOut;
      positions := positions[o.symbol := before + o.quantity];
      costs := costs[o.symbol := RoundRatio(oldBasis + totalOut, before + o.quantity)];
      lots := lots + [Lot(o.symbol, o.quantity, o.date)];
      lastSession := Some(o.date);
    }

    method ApplySell(o: Order, proceeds: int)
      requires o.side == Sell && proceeds == NetProceeds(Gross(o))
      modifies this
      ensures State() == RecordSell(old(State()), o)
    {
      hide Gross, NetProceeds, Basis, Consume;
      var before, cost := Held(State(), o.symbol), CostOf(State(), o.symbol);
      cash := cash + proceeds;
      var remaining := before - o.quantity;
      if remaining > 0 {
        positions := positions[o.symbol := remaining];
      } else {
        positions := positions - {o.symbol};
        costs := costs - {o.symbol};
      }
      if before > 0 && cost > 0 {
        var profit := proceeds - Basis(o.quantity, cost);
        realizedBySymbol := realizedBySymbol[o.symbol :=
          (if o.symbol in realizedBySymbol then realizedBySymbol[o.symbol] else 0) + profit];
        realized := realized + profit;
      }
      lots := ConsumeLots(lots, o.symbol, o.quantity);
      lastSession := Some(o.date);
    }

    /** `main`: refuse, or apply one buy or sell and remember its session. */
    method RecordFill(o: Order) returns (refusal: Option<Refusal>)
      requires forall symbol :: symbol in positions ==> positions[symbol] >= 0
      modifies this
      ensures refusal == Refused(old(State()), o)
      ensures State() == Record(old(State()), o)
    {
      hide RoundReal, RoundRatio, Commission, StampTax, Settled, Blank, RecordBuy, RecordSell;
      if lastSession.Some? && o.date < lastSession.value {
        return Some(BeforeLastSession);
      }
      var sellable := SellableBySymbol(lots, o.date);
      refusal := Validate(State(), o, if o.symbol in sellable then sellable[o.symbol] else 0);
      if refusal.Some? {
        return;
      }
      var gross := Gross(o);
      var commission := Commission(gross);
      if o.side == Buy {
        var totalOut := gross + commission;
        if totalOut > cash {
          return Some(InsufficientCash);
        }
        ApplyBuy(o, totalOut);
      } else {
        ApplySell(o, gross - commission - StampTax(gross));
      }
    }
  }
}
