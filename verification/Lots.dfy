/** Settlement lots: the acquisition-dated inventory behind the T+1 rule, consumed from the
    front of the list. Dates are integers with the order of the repository's date texts. */
module Lots {
  datatype Lot = Lot(symbol: string, quantity: int, acquired: int)

  // ----- One date per share

  function Copies(date: int, count: nat): seq<int> {
    if count == 0 then [] else [date] + Copies(date, count - 1)
  }

  function Shares(quantity: int): nat {
    if quantity < 0 then 0 else quantity
  }

  /** The acquisition date of every share of `symbol`, in list order. */
  function Timeline(lots: seq<Lot>, symbol: string): seq<int> {
    if lots == [] then []
    else (if lots[0].symbol == symbol then Copies(lots[0].acquired, Shares(lots[0].quantity)) else [])
         + Timeline(lots[1..], symbol)
  }

  function Quantity(lots: seq<Lot>, symbol: string): int {
    if lots == [] then 0
    else (if lots[0].symbol == symbol then lots[0].quantity else 0) + Quantity(lots[1..], symbol)
  }

  /** Quantity of `symbol` acquired strictly before `date`. */
  function Settled(lots: seq<Lot>, symbol: string, date: int): int {
    if lots == [] then 0
    else (if lots[0].symbol == symbol && lots[0].acquired < date then lots[0].quantity else 0)
         + Settled(lots[1..], symbol, date)
  }

  ghost predicate Positive(lots: seq<Lot>) {
    forall lot :: lot in lots ==> lot.quantity > 0
  }

  ghost predicate Ascending(dates: seq<int>) {
    forall i, j :: 0 <= i < j < |dates| ==> dates[i] <= dates[j]
  }

  /** Every symbol's shares are listed in the order they were acquired. */
  ghost predicate Ordered(lots: seq<Lot>) {
    forall symbol :: Ascending(Timeline(lots, symbol))
  }

  ghost predicate NotAfter(lots: seq<Lot>, date: int) {
    forall lot :: lot in lots ==> lot.acquired <= date
  }

  lemma {:induction false} CopiesMeaning(date: int, count: nat)
    ensures |Copies(date, count)| == count
    ensures forall d :: d in Copies(date, count) ==> d == date
  {
    if count > 0 { CopiesMeaning(date, count - 1); }
  }

  lemma {:induction false} CopiesDrop(date: int, count: nat, k: nat)
    requires k <= count
    ensures |Copies(date, count)| == count && Copies(date, count)[k..] == Copies(date, count - k)
  {
    CopiesMeaning(date, count);
    CopiesMeaning(date, count - k);
    if k > 0 {
      CopiesMeaning(date, count - 1);
      CopiesDrop(date, count - 1, k - 1);
      assert Copies(date, count)[k..] == Copies(date, count - 1)[k - 1..];
    }
  }

  lemma {:induction false} TimelineLength(lots: seq<Lot>, symbol: string)
    requires Positive(lots)
    ensures |Timeline(lots, symbol)| == Quantity(lots, symbol)
  {
    if lots != [] {
      TimelineLength(lots[1..], symbol);
      CopiesMeaning(lots[0].acquired, Shares(lots[0].quantity));
      assert lots[0] in lots;
    }
  }

  lemma {:induction false} TimelineAppend(lots: seq<Lot>, lot: Lot, symbol: string)
    ensures Timeline(lots + [lot], symbol) == Timeline(lots, symbol) + Timeline([lot], symbol)
  {
    if lots == [] {
      assert [] + [lot] == [lot];
    } else {
      TimelineAppend(lots[1..], lot, symbol);
      assert (lots + [lot])[1..] == lots[1..] + [lot];
      assert Timeline(lots + [lot], symbol) ==
        (if lots[0].symbol == symbol then Copies(lots[0].acquired, Shares(lots[0].quantity)) else [])
        + (Timeline(lots[1..], symbol) + Timeline([lot], symbol));
    }
  }

  lemma {:induction false} QuantityAppend(lots: seq<Lot>, lot: Lot, symbol: string)
    ensures Quantity(lots + [lot], symbol) == Quantity(lots, symbol) + if lot.symbol == symbol then lot.quantity else 0
    ensures forall date ::
      Settled(lots + [lot], symbol, date) == Settled(lots, symbol, date) + (if lot.symbol == symbol && lot.acquired < date then lot.quantity else 0)
  {
    if lots == [] {
      assert [] + [lot] == [lot] && [lot][1..] == [];
    } else {
      QuantityAppend(lots[1..], lot, symbol);
      assert (lots + [lot])[1..] == lots[1..] + [lot];
    }
  }

  lemma {:induction false} TimelineDates(lots: seq<Lot>, symbol: string, date: int)
    requires NotAfter(lots, date)
    ensures forall d :: d in Timeline(lots, symbol) ==> d <= date
  {
    if lots != [] {
      TimelineDates(lots[1..], symbol, date);
      CopiesMeaning(lots[0].acquired, Shares(lots[0].quantity));
      assert lots[0] in lots;
    }
  }

  // ----- Consumption from the front of the list

  /** `_apply_settlement_lot_update` for a sale: what is left of the lots. */
  function Consume(lots: seq<Lot>, symbol: string, remaining: int): seq<Lot> {
    if lots == [] then []
    else
      var lot := lots[0];
      if lot.symbol != symbol || remaining <= 0 then [lot] + Consume(lots[1..], symbol, remaining)
      else
        var consumed := if remaining < lot.quantity then remaining else lot.quantity;
        (if lot.quantity > consumed then [lot.(quantity := lot.quantity - consumed)] else [])
          + Consume(lots[1..], symbol, remaining - consumed)
  }

  lemma ConsumeHead(lots: seq<Lot>, i: nat, symbol: string, remaining: int)
    requires i < |lots|
    ensures var lot := lots[i];
      var consumed := if lot.symbol != symbol || remaining <= 0 then 0 else if remaining < lot.quantity then remaining else lot.quantity;
      Consume(lots[i..], symbol, remaining) ==
        (if lot.symbol != symbol || remaining <= 0 then [lot]
         else if lot.quantity > consumed then [lot.(quantity := lot.quantity - consumed)]
         else [])
          + Consume(lots[i + 1..], symbol, remaining - consumed)
  {
    assert lots[i..][0] == lots[i] && lots[i..][1..] == lots[i + 1..];
  }

  /** The loop of `_apply_settlement_lot_update` and of the manual fill's lot rebuild. */
  method ConsumeLots(lots: seq<Lot>, symbol: string, quantity: int) returns (updated: seq<Lot>)
    ensures updated == Consume(lots, symbol, quantity)
  {
    hide Consume;
    var remaining := quantity;
    updated := [];
    assert lots[0..] == lots;
    for i := 0 to |lots|
      invariant Consume(lots, symbol, quantity) == updated + Consume(lots[i..], symbol, remaining)
    {
      var lot := lots[i];
      ConsumeHead(lots, i, symbol, remaining);
      if lot.symbol != symbol || remaining <= 0 {
        updated := updated + [lot];
      } else {
        var consumed := if remaining < lot.quantity then remaining else lot.quantity;
        remaining := remaining - consumed;
        if lot.quantity > consumed {
          updated := updated + [lot.(quantity := lot.quantity - consumed)];
        }
      }
    }
    assert lots[|lots|..] == [] && updated + [] == updated;
    assert Consume([], symbol, remaining) == [] by { ConsumeNothing(symbol, remaining); }
  }

  lemma ConsumeNothing(symbol: string, remaining: int)
    ensures Consume([], symbol, remaining) == []
  {
  }

  /** Consumption takes exactly the first `quantity` shares of the symbol's timeline and
      leaves every other symbol's timeline alone. */
  lemma {:induction false} ConsumeDropsFirstShares(lots: seq<Lot>, symbol: string, quantity: int, other: string)
    requires Positive(lots) && 0 <= quantity <= Quantity(lots, symbol)
    ensures |Timeline(lots, symbol)| == Quantity(lots, symbol)
    ensures Timeline(Consume(lots, symbol, quantity), other)
      == if other == symbol then Timeline(lots, symbol)[quantity..] else Timeline(lots, other)
  {
    TimelineLength(lots, symbol);
    if lots != [] {
      var lot, rest := lots[0], lots[1..];
      assert lot in lots && forall l :: l in rest ==> l in lots;
      TimelineLength(rest, symbol);
      if lot.symbol != symbol || quantity == 0 {
        ConsumeDropsFirstShares(rest, symbol, quantity, other);
        ConsHead(lot, Consume(rest, symbol, quantity), other);
      } else if quantity < lot.quantity {
        ConsumeDropsFirstShares(rest, symbol, 0, other);
        PartOfFirst(lots, symbol, quantity, other);
      } else {
        ConsumeDropsFirstShares(rest, symbol, quantity - lot.quantity, other);
        WholeFirst(lots, symbol, quantity, other);
      }
    }
  }

  lemma PartOfFirst(lots: seq<Lot>, symbol: string, quantity: nat, other: string)
    requires lots != [] && lots[0].symbol == symbol && 0 < quantity < lots[0].quantity
    requires Timeline(Consume(lots[1..], symbol, 0), other) == Timeline(lots[1..], other)
    ensures quantity <= |Timeline(lots, symbol)|
    ensures Timeline(Consume(lots, symbol, quantity), other)
      == if other == symbol then Timeline(lots, symbol)[quantity..] else Timeline(lots, other)
  {
    hide Consume, Timeline, Copies;
    var lot, rest := lots[0], lots[1..];
    var part := lot.(quantity := lot.quantity - quantity);
    ConsumeHead(lots, 0, symbol, quantity);
    assert lots[0..] == lots == [lot] + rest;
    ConsHead(part, Consume(rest, symbol, 0), other);
    ConsHead(lot, rest, other);
    ConsHead(lot, rest, symbol);
    CopiesDrop(lot.acquired, lot.quantity, quantity);
    DropWithin(Copies(lot.acquired, lot.quantity), Timeline(rest, symbol), quantity);
  }

  lemma DropWithin(a: seq<int>, b: seq<int>, k: nat)
    requires k <= |a|
    ensures (a + b)[k..] == a[k..] + b
  {
  }

  lemma DropBeyond(a: seq<int>, b: seq<int>, k: nat)
    requires |a| <= k <= |a| + |b|
    ensures (a + b)[k..] == b[k - |a|..]
  {
  }

  lemma WholeFirst(lots: seq<Lot>, symbol: string, quantity: nat, other: string)
    requires lots != [] && lots[0].symbol == symbol && 0 < lots[0].quantity <= quantity
    requires quantity - lots[0].quantity <= |Timeline(lots[1..], symbol)|
    requires Timeline(Consume(lots[1..], symbol, quantity - lots[0].quantity), other)
      == if other == symbol then Timeline(lots[1..], symbol)[quantity - lots[0].quantity..] else Timeline(lots[1..], other)
    ensures quantity <= |Timeline(lots, symbol)|
    ensures Timeline(Consume(lots, symbol, quantity), other)
      == if other == symbol then Timeline(lots, symbol)[quantity..] else Timeline(lots, other)
  {
    hide Consume, Timeline, Copies;
    var lot, rest := lots[0], lots[1..];
    ConsumeHead(lots, 0, symbol, quantity);
    assert lots[0..] == lots == [lot] + rest;
    assert Consume(lots, symbol, quantity) == [] + Consume(rest, symbol, quantity - lot.quantity);
    assert [] + Consume(rest, symbol, quantity - lot.quantity) == Consume(rest, symbol, quantity - lot.quantity);
    ConsHead(lot, rest, other);
    ConsHead(lot, rest, symbol);
    CopiesMeaning(lot.acquired, lot.quantity);
    DropBeyond(Copies(lot.acquired, lot.quantity), Timeline(rest, symbol), quantity);
    assert [] + Timeline(rest, other) == Timeline(rest, other);
  }

  lemma ConsHead(lot: Lot, rest: seq<Lot>, symbol: string)
    ensures Timeline([lot] + rest, symbol)
      == (if lot.symbol == symbol then Copies(lot.acquired, Shares(lot.quantity)) else []) + Timeline(rest, symbol)
  {
    assert ([lot] + rest)[1..] == rest;
  }

  lemma {:induction false} ConsumeShape(lots: seq<Lot>, symbol: string, quantity: int, date: int)
    requires Positive(lots)
    ensures Positive(Consume(lots, symbol, quantity))
    ensures NotAfter(lots, date) ==> NotAfter(Consume(lots, symbol, quantity), date)
  {
    if lots != [] {
      var lot := lots[0];
      assert lot in lots;
      assert lots == [lot] + lots[1..];
      var consumed := if lot.symbol != symbol || quantity <= 0 then 0 else if quantity < lot.quantity then quantity else lot.quantity;
      ConsumeShape(lots[1..], symbol, quantity - consumed, date);
    }
  }

  lemma SoldQuantity(lots: seq<Lot>, symbol: string, quantity: int, other: string)
    requires Positive(lots) && 0 <= quantity <= Quantity(lots, symbol)
    ensures Quantity(Consume(lots, symbol, quantity), other)
      == Quantity(lots, other) - if other == symbol then quantity else 0
  {
    hide Timeline, Consume, Quantity, Positive;
    var left := Consume(lots, symbol, quantity);
    ConsumeShape(lots, symbol, quantity, 0);
    ConsumeDropsFirstShares(lots, symbol, quantity, other);
    TimelineLength(left, other);
    TimelineLength(lots, other);
  }

  // ----- Settled shares are a prefix of an ordered timeline

  function CountBefore(dates: seq<int>, date: int): nat {
    if dates == [] then 0 else (if dates[0] < date then 1 else 0) + CountBefore(dates[1..], date)
  }

  lemma {:induction false} CountConcat(a: seq<int>, b: seq<int>, date: int)
    ensures CountBefore(a + b, date) == CountBefore(a, date) + CountBefore(b, date)
  {
    if a == [] {
      assert a + b == b;
    } else {
      CountConcat(a[1..], b, date);
      assert (a + b)[1..] == a[1..] + b;
    }
  }

  lemma {:induction false} CountCopies(d: int, count: nat, date: int)
    ensures CountBefore(Copies(d, count), date) == if d < date then count else 0
  {
    if count > 0 {
      CountCopies(d, count - 1, date);
      assert Copies(d, count)[1..] == Copies(d, count - 1);
    }
  }

  lemma {:induction false} SettledCounts(lots: seq<Lot>, symbol: string, date: int)
    requires Positive(lots)
    ensures Settled(lots, symbol, date) == CountBefore(Timeline(lots, symbol), date)
  {
    if lots != [] {
      var lot := lots[0];
      assert lot in lots;
      SettledCounts(lots[1..], symbol, date);
      CountCopies(lot.acquired, Shares(lot.quantity), date);
      CountConcat(if lot.symbol == symbol then Copies(lot.acquired, Shares(lot.quantity)) else [], Timeline(lots[1..], symbol), date);
    }
  }

  /** In ascending dates, the ones before `date` come first. */
  lemma {:induction false} EarlierComeFirst(dates: seq<int>, date: int)
    requires Ascending(dates)
    ensures CountBefore(dates, date) <= |dates|
    ensures forall i :: 0 <= i < |dates| ==> (dates[i] < date <==> i < CountBefore(dates, date))
  {
    if dates != [] {
      EarlierComeFirst(dates[1..], date);
      forall i | 0 <= i < |dates| ensures dates[i] < date <==> i < CountBefore(dates, date) {
        if i > 0 {
          assert dates[i] == dates[1..][i - 1];
          if dates[0] >= date {
            assert dates[0] <= dates[i];
            if |dates| > 1 { assert dates[1..][0] >= dates[0]; }
          }
        }
      }
    }
  }

  /** The T+1 rule. On an ordered lot list, a sale within the settled quantity takes shares
      acquired before the trade date only, whatever the list order of other symbols; what
      was acquired on or after that date stays, and the settled rest shrinks by the sale. */
  lemma SaleTakesSettledShares(lots: seq<Lot>, symbol: string, quantity: int, date: int)
    requires Positive(lots) && Ordered(lots) && 0 <= quantity <= Settled(lots, symbol, date)
    ensures quantity <= |Timeline(lots, symbol)| == Quantity(lots, symbol)
    ensures forall i :: 0 <= i < quantity ==> Timeline(lots, symbol)[i] < date
    ensures Timeline(Consume(lots, symbol, quantity), symbol) == Timeline(lots, symbol)[quantity..]
    ensures Settled(Consume(lots, symbol, quantity), symbol, date) == Settled(lots, symbol, date) - quantity
  {
    hide Timeline, Consume, Settled, Quantity, CountBefore, Positive;
    var dates, left := Timeline(lots, symbol), Consume(lots, symbol, quantity);
    SettledCounts(lots, symbol, date);
    TimelineLength(lots, symbol);
    assert Ascending(dates);
    EarlierComeFirst(dates, date);
    ConsumeDropsFirstShares(lots, symbol, quantity, symbol);
    ConsumeShape(lots, symbol, quantity, date);
    SettledCounts(left, symbol, date);
    CountDropped(dates, quantity, date);
  }

  /** The first `quantity` shares of the symbol, in list order, were bought before `date`. */
  ghost predicate OldEnough(lots: seq<Lot>, symbol: string, quantity: int, date: int) {
    && quantity <= |Timeline(lots, symbol)|
    && forall i :: 0 <= i < quantity ==> Timeline(lots, symbol)[i] < date
  }

  lemma SettledIsOldEnough(lots: seq<Lot>, symbol: string, quantity: int, date: int)
    requires Positive(lots) && Ordered(lots) && quantity > 0
    ensures Settled(lots, symbol, date) >= quantity <==> OldEnough(lots, symbol, quantity, date)
  {
    var dates := Timeline(lots, symbol);
    SettledCounts(lots, symbol, date);
    EarlierComeFirst(dates, date);
    hide Settled, Timeline, CountBefore;
    if OldEnough(lots, symbol, quantity, date) {
      assert dates[quantity - 1] < date;
    }
  }

  lemma CountDropped(dates: seq<int>, k: nat, date: int)
    requires k <= |dates| && forall i :: 0 <= i < k ==> dates[i] < date
    ensures CountBefore(dates[k..], date) == CountBefore(dates, date) - k
  {
    hide CountBefore;
    CountConcat(dates[..k], dates[k..], date);
    assert dates == dates[..k] + dates[k..];
    AllBefore(dates[..k], date);
  }

  lemma {:induction false} AllBefore(dates: seq<int>, date: int)
    requires forall i :: 0 <= i < |dates| ==> dates[i] < date
    ensures CountBefore(dates, date) == |dates|
  {
    if dates != [] { AllBefore(dates[1..], date); }
  }

  /** Sales keep every symbol's shares in order, and so do purchases dated no earlier than
      any lot held. */
  lemma SaleKeepsOrder(lots: seq<Lot>, symbol: string, quantity: int)
    requires Positive(lots) && Ordered(lots) && 0 <= quantity <= Quantity(lots, symbol)
    ensures Ordered(Consume(lots, symbol, quantity))
  {
    forall other ensures Ascending(Timeline(Consume(lots, symbol, quantity), other)) {
      ConsumeDropsFirstShares(lots, symbol, quantity, other);
      assert Ascending(Timeline(lots, other));
    }
  }

  lemma AscendingConcat(a: seq<int>, b: seq<int>, date: int)
    requires Ascending(a) && (forall d :: d in a ==> d <= date) && (forall d :: d in b ==> d == date)
    ensures Ascending(a + b)
  {
    forall i, j | 0 <= i < j < |a + b| ensures (a + b)[i] <= (a + b)[j] {
      if i < |a| { assert (a + b)[i] in a; } else { assert b[i - |a|] in b; }
      if j >= |a| { assert b[j - |a|] in b; }
    }
  }

  lemma PurchaseKeepsOrder(lots: seq<Lot>, lot: Lot)
    requires Ordered(lots) && NotAfter(lots, lot.acquired)
    ensures Ordered(lots + [lot])
  {
    forall other ensures Ascending(Timeline(lots + [lot], other)) {
      TimelineAppend(lots, lot, other);
      TimelineDates(lots, other, lot.acquired);
      CopiesMeaning(lot.acquired, Shares(lot.quantity));
      assert Ascending(Timeline(lots, other));
      assert [lot][1..] == [];
      AscendingConcat(Timeline(lots, other), Timeline([lot], other), lot.acquired);
    }
  }

  /** Settled shares are some of those held. */
  lemma {:induction false} SettledWithin(lots: seq<Lot>, symbol: string, date: int)
    requires Positive(lots)
    ensures 0 <= Settled(lots, symbol, date) <= Quantity(lots, symbol)
  {
    if lots != [] {
      assert lots[0] in lots;
      SettledWithin(lots[1..], symbol, date);
    }
  }
}
