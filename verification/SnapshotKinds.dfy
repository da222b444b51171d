/** What the snapshot makes of the codes in provider rows: their instrument kinds, historical
    codes and their resolutions, and which rows the equity filter keeps. */
module SnapshotKinds {
  import opened Outcomes
  import opened Texts
  import opened SnapshotRows
  import opened SnapshotMeaning

  // ----- Kinds

  lemma {:induction false} Parts(symbol: string, exchange: string)
    requires '.' !in symbol
    ensures BeforeDot(symbol + "." + exchange) == symbol && AfterDot(symbol + "." + exchange) == exchange
  {
    var code := symbol + "." + exchange;
    if symbol == [] {
      assert code[0] == '.' && code[1..] == exchange;
    } else {
      assert code[0] == symbol[0] && symbol == [symbol[0]] + symbol[1..];
      assert code[1..] == symbol[1..] + "." + exchange;
      Parts(symbol[1..], exchange);
    }
  }

  ghost predicate IsFund(symbol: string, exchange: string) {
    || (exchange == "SZ" && |symbol| >= 3 && symbol[..3] == "159")
    || (exchange == "SH" && |symbol| >= 2 && symbol[..2] in {"51", "52", "56", "58"})
  }

  ghost predicate IsListedFund(symbol: string, exchange: string) {
    || (exchange == "SZ" && |symbol| >= 2 && symbol[..2] == "16")
    || (exchange == "SH" && |symbol| >= 2 && symbol[..2] == "50")
  }

  ghost predicate IsBond(symbol: string) {
    |symbol| >= 3 && symbol[..3] in {"110", "111", "113", "118", "123", "127", "128", "130"}
  }

  lemma StartsIs(s: string, prefixes: seq<string>, n: nat)
    requires forall p :: p in prefixes ==> |p| == n
    ensures StartsWith(s, prefixes) <==> |s| >= n && s[..n] in prefixes
  {
    if StartsWith(s, prefixes) {
      var p :| p in prefixes && p <= s;
      assert s[..n] == p;
    }
    if |s| >= n && s[..n] in prefixes {
      assert s[..n] <= s;
    }
  }

  lemma OneStart(s: string, p: string)
    ensures StartsWith(s, [p]) <==> p <= s
  {
    assert p in [p];
  }

  lemma FundStarts(symbol: string, exchange: string)
    ensures IsFund(symbol, exchange) <==>
      (exchange == "SZ" && "159" <= symbol) || (exchange == "SH" && StartsWith(symbol, ["51", "52", "56", "58"]))
    ensures IsListedFund(symbol, exchange) <==> (exchange == "SZ" && "16" <= symbol) || (exchange == "SH" && "50" <= symbol)
    ensures StartsWith(symbol, ["50", "51", "52", "56", "58"]) <==> "50" <= symbol || StartsWith(symbol, ["51", "52", "56", "58"])
    ensures StartsWith(symbol, ["159", "16"]) <==> "159" <= symbol || "16" <= symbol
  {
    StartsIs(symbol, ["51", "52", "56", "58"], 2);
    StartsIs(symbol, ["50", "51", "52", "56", "58"], 2);
    OneStart(symbol, "50");
    OneStart(symbol, "159");
    OneStart(symbol, "16");
    StartsIs(symbol, ["50"], 2);
    StartsIs(symbol, ["159"], 3);
    StartsIs(symbol, ["16"], 2);
    assert "159" in ["159", "16"] && "16" in ["159", "16"];
    assert StartsWith(symbol, ["159", "16"]) <==> "159" <= symbol || "16" <= symbol;
    hide StartsWith;
  }

  lemma BondStarts(symbol: string)
    ensures IsBond(symbol) <==> StartsWith(symbol, BOND_PREFIXES)
  {
    StartsIs(symbol, BOND_PREFIXES, 3);
    hide StartsWith;
  }

  lemma NoKindTwice(symbol: string, exchange: string)
    ensures !(IsFund(symbol, exchange) && IsListedFund(symbol, exchange))
    ensures !(IsBond(symbol) && (IsFund(symbol, exchange) || IsListedFund(symbol, exchange)))
  {
    if |symbol| >= 3 {
      assert symbol[..3][0] == symbol[..2][0] == symbol[0] && symbol[..3][1] == symbol[..2][1] == symbol[1];
    }
  }

  ghost predicate WellFormed(symbol: string, exchange: string) {
    |symbol| == 6 && exchange in {"SH", "SZ", "BJ"} && forall i :: 0 <= i < 6 ==> '0' <= symbol[i] <= '9'
  }

  /** The kind of a row by its upper-case code: a stock of the master, or by its form. */
  lemma KindIs(row: Row, equity: set<string>, symbol: string, exchange: string)
    requires '.' !in symbol && Upper(Text(row, TsCode)) == symbol + "." + exchange
    ensures var kind := InstrumentType(row, equity);
      && (kind == AShareEquity <==> Upper(Text(row, TsCode)) in equity)
      && (kind != AShareEquity ==>
            && (kind == UnknownKind <==> !WellFormed(symbol, exchange))
            && (WellFormed(symbol, exchange) ==>
                  && (kind == Etf <==> IsFund(symbol, exchange)) && (kind == Lof <==> IsListedFund(symbol, exchange))
                  && (kind == ConvertibleBond <==> IsBond(symbol))
                  && kind in {Etf, Lof, ConvertibleBond, OtherInstrument}))
  {
    Parts(symbol, exchange);
    FundStarts(symbol, exchange);
    BondStarts(symbol);
    NoKindTwice(symbol, exchange);
    hide BeforeDot, AfterDot, Upper, IsFund, IsListedFund, IsBond, StartsWith;
  }

  /** A code without a dot that is no stock of the master is unknown. */
  lemma DotlessIsUnknown(row: Row, equity: set<string>)
    requires '.' !in Upper(Text(row, TsCode)) && Upper(Text(row, TsCode)) !in equity
    ensures InstrumentType(row, equity) == UnknownKind
  {
    AroundDot(Upper(Text(row, TsCode)));
  }

  /** Which codes are never looked up. */
  lemma ExternalIs(code: string, symbol: string, exchange: string)
    requires '.' !in symbol && Upper(code) == symbol + "." + exchange
    ensures IsExternalCode(code) <==> IsFund(symbol, exchange) || IsListedFund(symbol, exchange) || IsBond(symbol)
  {
    Parts(symbol, exchange);
    FundStarts(symbol, exchange);
    BondStarts(symbol);
    hide BeforeDot, AfterDot, Upper, IsFund, IsListedFund, IsBond, StartsWith;
  }

  // ----- Historical codes

  lemma {:induction false} NonEmptyHas(rows: seq<Row>, field: Field, text: string)
    ensures text in NonEmpty(rows, field) <==> exists i :: 0 <= i < |rows| && Has(rows[i], field) && rows[i][field] == text
  {
    if rows != [] {
      NonEmptyHas(rows[1..], field, text);
      if i :| 0 <= i < |rows| && Has(rows[i], field) && rows[i][field] == text {
        if i > 0 { assert rows[1..][i - 1] == rows[i]; }
      }
    }
  }

  lemma LeastIs(texts: seq<string>, text: string)
    ensures Least(texts) == Some(text) <==> text in texts && forall other :: other in texts ==> Le(text, other)
  {
    var sorted := Sort(texts);
    SortSorted(texts);
    assert forall x :: x in sorted <==> x in texts by {
      forall x ensures x in sorted <==> x in texts {
        assert x in sorted <==> x in multiset(sorted);
      }
    }
    if sorted != [] {
      forall other | other in texts ensures Le(sorted[0], other) {
        var j :| 0 <= j < |sorted| && sorted[j] == other;
        if j == 0 { LeTotal(other, other); }
      }
      assert sorted[0] in sorted;
      if text in texts && forall other :: other in texts ==> Le(text, other) {
        LeAntisymmetric(text, sorted[0]);
      }
    }
  }

  /** The stock has the code's exchange suffix, a name that occurs in the history, and the
      earliest start date in the history as its list date. */
  ghost predicate IsMatch(stock: Row, code: string, history: seq<Row>) {
    && (exists suffix :: EndsIn(Text(stock, TsCode), suffix) && EndsIn(code, suffix))
    && Has(stock, Name) && (exists i :: 0 <= i < |history| && Has(history[i], Name) && history[i][Name] == stock[Name])
    && Has(stock, ListDate) && (exists i :: 0 <= i < |history| && Has(history[i], StartDate) && history[i][StartDate] == stock[ListDate])
    && (forall i :: 0 <= i < |history| && Has(history[i], StartDate) ==> Le(stock[ListDate], history[i][StartDate]))
  }

  lemma MatchIff(stock: Row, code: string, history: seq<Row>)
    ensures Matches(stock, code, history) <==> IsMatch(stock, code, history)
  {
    SameSuffix(Text(stock, TsCode), code);
    NameOccurs(stock, history);
    EarliestStart(stock, history);
    hide Suffix, EndsIn, NonEmpty, Least, Le, Has;
  }

  lemma SameSuffix(x: string, y: string)
    ensures Suffix(x) == Suffix(y) <==> exists suffix :: EndsIn(x, suffix) && EndsIn(y, suffix)
  {
    hide Suffix, EndsIn;
    SuffixIs(x, Suffix(x));
    SuffixIs(y, Suffix(y));
    if suffix :| EndsIn(x, suffix) && EndsIn(y, suffix) {
      SuffixIs(x, suffix);
      SuffixIs(y, suffix);
    }
  }

  lemma NameOccurs(stock: Row, history: seq<Row>)
    ensures Text(stock, Name) in NonEmpty(history, Name) <==>
      Has(stock, Name) && exists i :: 0 <= i < |history| && Has(history[i], Name) && history[i][Name] == stock[Name]
  {
    NonEmptyHas(history, Name, Text(stock, Name));
    hide NonEmpty;
  }

  lemma EarliestStart(stock: Row, history: seq<Row>)
    ensures Least(NonEmpty(history, StartDate)) == Some(Text(stock, ListDate)) <==>
      && Has(stock, ListDate)
      && (exists i :: 0 <= i < |history| && Has(history[i], StartDate) && history[i][StartDate] == stock[ListDate])
      && (forall i :: 0 <= i < |history| && Has(history[i], StartDate) ==> Le(stock[ListDate], history[i][StartDate]))
  {
    var date, dates := Text(stock, ListDate), NonEmpty(history, StartDate);
    LeastIs(dates, date);
    forall text ensures text in dates <==> exists i :: 0 <= i < |history| && Has(history[i], StartDate) && history[i][StartDate] == text {
      NonEmptyHas(history, StartDate, text);
    }
    hide NonEmpty, Least, Le;
    if date in dates && forall other :: other in dates ==> Le(date, other) {
      forall i | 0 <= i < |history| && Has(history[i], StartDate) ensures Le(date, history[i][StartDate]) {
        assert history[i][StartDate] in dates;
      }
    }
  }

  /** How many of the stocks match. */
  ghost function MatchCount(stocks: seq<Row>, code: string, history: seq<Row>): nat {
    if stocks == [] then 0 else (if IsMatch(stocks[0], code, history) then 1 else 0) + MatchCount(stocks[1..], code, history)
  }

  lemma {:induction false} CandidatesCount(stocks: seq<Row>, code: string, history: seq<Row>)
    ensures |Candidates(stocks, code, history)| == MatchCount(stocks, code, history)
    ensures forall row :: row in Candidates(stocks, code, history) <==> row in stocks && IsMatch(row, code, history)
  {
    hide Matches, IsMatch;
    if stocks != [] {
      CandidatesCount(stocks[1..], code, history);
      MatchIff(stocks[0], code, history);
      assert stocks == [stocks[0]] + stocks[1..];
    }
  }

  /** An answered lookup below the response cap resolves a code exactly when one row of the
      stock master matches, and to the code of that row; otherwise it tells how many did. */
  lemma ResolutionMeans(code: string, stocks: seq<Row>, history: seq<Row>)
    ensures var r, n := ResolveFrom(code, stocks, history), MatchCount(stocks, code, history);
      && (|history| >= 10000 ==> r == LookupFailed("response cap reached"))
      && (|history| < 10000 && n != 1 ==> r == Unmatched(n))
      && (|history| < 10000 && n == 1 ==>
            && r.Resolved?
            && forall stock :: stock in stocks && IsMatch(stock, code, history) ==> Text(stock, TsCode) == r.current)
  {
    CandidatesCount(stocks, code, history);
    hide Matches, IsMatch, Candidates, MatchCount;
    var found := Candidates(stocks, code, history);
    if |found| == 1 {
      assert forall row :: row in found ==> row == found[0];
    }
  }

  // ----- The equity filter

  lemma UpperDecides(row: Row, equity: set<string>)
    ensures InstrumentType(row, equity) == AShareEquity <==> Upper(Text(row, TsCode)) in equity
    ensures InstrumentType(row, equity) !in {HistoricalAlias, AbsentStockBasic, EquityOutsidePit}
  {
    hide BeforeDot, AfterDot, Upper, StartsWith;
  }

  ghost predicate Alias(u: Universe, code: string) {
    code in u.resolutions && u.resolutions[code].Resolved? && u.resolutions[code].current in u.pit
  }

  /** A row is kept for a listed stock of the master, or for a historical code that resolves
      to a listed one. */
  lemma KeptIff(u: Universe, row: Row)
    ensures var code := Text(row, TsCode); Keeps(u, row) <==> (Upper(code) in u.equity && code in u.pit) || Alias(u, code)
  {
    UpperDecides(row, u.equity);
    hide InstrumentType, Upper;
  }

  /** What a row counts as: an alias first; in a required dataset anything else that is not
      in the master is absent from it; otherwise its own kind. */
  lemma ClassIs(u: Universe, row: Row)
    ensures var code, kind := Text(row, TsCode), Classify(u, row);
      && (Alias(u, code) ==> kind == HistoricalAlias)
      && (!Alias(u, code) && Upper(code) in u.equity ==> kind == AShareEquity)
      && (!Alias(u, code) && Upper(code) !in u.equity && u.requiredMarket ==> kind == AbsentStockBasic)
      && (!Alias(u, code) && Upper(code) !in u.equity && !u.requiredMarket ==> kind == InstrumentType(row, u.equity))
  {
    UpperDecides(row, u.equity);
    hide InstrumentType, Upper;
  }

  lemma FilterSnoc(u: Universe, front: seq<Row>, row: Row)
    ensures Filtered(u, front + [row]).0 == if Keeps(u, row) then Filtered(u, front).0 + [row] else Filtered(u, front).0
  {
    hide Keeps, Classify, Bump, Example;
    assert (front + [row])[..|front|] == front && (front + [row])[|front|] == row;
  }

  /** The filter goes through the rows in order. */
  lemma {:induction false} FilterInOrder(u: Universe, rows: seq<Row>, more: seq<Row>)
    ensures Filtered(u, rows + more).0 == Filtered(u, rows).0 + Filtered(u, more).0
  {
    hide Keeps, Filtered;
    if more == [] {
      assert rows + more == rows;
      FilterNothing(u);
    } else {
      var front, row := more[..|more| - 1], more[|more| - 1];
      FilterInOrder(u, rows, front);
      FilterSnoc(u, front, row);
      FilterSnoc(u, rows + front, row);
      LastApart(rows, more);
      assert Filtered(u, rows).0 + (Filtered(u, front).0 + [row]) == (Filtered(u, rows).0 + Filtered(u, front).0) + [row];
    }
  }

  lemma FilterNothing(u: Universe)
    ensures Filtered(u, []).0 == []
  {
  }

  lemma LastApart(rows: seq<Row>, more: seq<Row>)
    requires more != []
    ensures more == more[..|more| - 1] + [more[|more| - 1]]
    ensures rows + more == (rows + more[..|more| - 1]) + [more[|more| - 1]]
  {
  }

  lemma FilterOne(u: Universe, row: Row)
    ensures var code := Text(row, TsCode);
      Filtered(u, [row]).0 == if (Upper(code) in u.equity && code in u.pit) || Alias(u, code) then [row] else []
  {
    KeptIff(u, row);
    hide Keeps, Classify, Bump, Example, Upper;
    assert [row][..0] == [];
  }

  ghost function Tally(u: Universe, rows: seq<Row>, kind: Kind): nat {
    if rows == [] then 0
    else Tally(u, rows[..|rows| - 1], kind) + if Classify(u, rows[|rows| - 1]) == kind then 1 else 0
  }

  ghost function CodesOfKind(u: Universe, rows: seq<Row>, kind: Kind): seq<string> {
    if rows == [] then []
    else CodesOfKind(u, rows[..|rows| - 1], kind)
         + if Classify(u, rows[|rows| - 1]) == kind then [Text(rows[|rows| - 1], TsCode)] else []
  }

  ghost function Named(audit: Audit, kind: Kind): seq<string> {
    if kind in audit.examples then audit.examples[kind] else []
  }

  /** The audit counts the rows of every kind, and the stocks dropped because they were not
      listed; of absent and unknown codes it names the first twenty. */
  lemma {:induction false} AuditCounts(u: Universe, rows: seq<Row>, kind: Kind)
    ensures var audit := Filtered(u, rows).1;
      && (kind != EquityOutsidePit ==> CountAt(audit.counts, kind) == Tally(u, rows, kind))
      && (kind == AbsentStockBasic || kind == UnknownKind ==>
            var codes := CodesOfKind(u, rows, kind);
            Named(audit, kind) == if |codes| <= 20 then codes else codes[..20])
  {
    if rows != [] {
      AuditCounts(u, rows[..|rows| - 1], kind);
      AuditStep(u, rows, kind);
      hide Filtered, Classify, CountAt, Named;
    }
  }

  lemma AuditStep(u: Universe, rows: seq<Row>, kind: Kind)
    requires rows != []
    ensures var row, before, after := rows[|rows| - 1], Filtered(u, rows[..|rows| - 1]).1, Filtered(u, rows).1;
      && (kind != EquityOutsidePit ==>
            CountAt(after.counts, kind) == CountAt(before.counts, kind) + if Classify(u, row) == kind then 1 else 0)
      && (kind == AbsentStockBasic || kind == UnknownKind ==>
            Named(after, kind) == if Classify(u, row) == kind && |Named(before, kind)| < 20
                                  then Named(before, kind) + [Text(row, TsCode)] else Named(before, kind))
  {
    NeverOutside(u, rows[|rows| - 1]);
    hide Keeps, Classify, InstrumentType;
  }

  lemma NeverOutside(u: Universe, row: Row)
    ensures Classify(u, row) != EquityOutsidePit
  {
    ClassIs(u, row);
    UpperDecides(row, u.equity);
    hide InstrumentType, Upper, Classify;
  }
}
