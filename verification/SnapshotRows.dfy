/** Rows, business keys, point-in-time listing and the equity-universe filter of the
    all-A-share snapshot. A row maps the fields that carry a value to their text; a
    field that is null is absent. */
module SnapshotRows {
  import opened Outcomes
  import opened Texts

  datatype Dataset =
    | StockBasic | Calendar | Daily | AdjFactor | Benchmark
    | DailyBasic | Suspend | Limits | NameChange | NameShard

  datatype Field =
    | TsCode | TradeDate | Exchange | CalDate | IsOpen | Name | ListDate | DelistDate
    | StartDate | EndDate | AnnDate | ChangeReason | SuspendType | SuspendTiming | Measure(name: string)

  type Row = map<Field, string>

  type BusinessKey = seq<Option<string>>

  datatype Error =
    | FetchFailed | NullStructuralKey | DuplicateBusinessKey | PartitionDateMismatch
    | CalendarTooShort | NoOpenSessions | EmptyPartition | BenchmarkGap | ResponseCap

  /** `str(row.get(field) or "")`. */
  function Text(row: Row, field: Field): string {
    if field in row then row[field] else ""
  }

  function StructuralKeys(dataset: Dataset): seq<Field> {
    match dataset
    case StockBasic => [TsCode]
    case Calendar => [Exchange, CalDate]
    case Suspend => [TsCode, TradeDate, SuspendType, SuspendTiming]
    case NameChange | NameShard => [TsCode, Name, StartDate, EndDate, AnnDate, ChangeReason]
    case _ => [TsCode, TradeDate]
  }

  function RequiredFields(dataset: Dataset): seq<Field> {
    match dataset
    case NameChange | NameShard => [TsCode, Name, StartDate]
    case Suspend => [TsCode, TradeDate, SuspendType]
    case _ => StructuralKeys(dataset)
  }

  predicate IsNameHistory(dataset: Dataset) {
    dataset == NameChange || dataset == NameShard
  }

  function KeyOf(dataset: Dataset, row: Row): BusinessKey {
    var fields := StructuralKeys(dataset);
    seq(|fields|, i requires 0 <= i < |fields| => if fields[i] in row then Some(row[fields[i]]) else None)
  }

  predicate HasNullKey(dataset: Dataset, row: Row) {
    exists field :: field in RequiredFields(dataset) && Text(row, field) == ""
  }

  function KeySet(dataset: Dataset, rows: seq<Row>): set<BusinessKey> {
    if rows == [] then {} else {KeyOf(dataset, rows[0])} + KeySet(dataset, rows[1..])
  }

  predicate DistinctKeys(dataset: Dataset, rows: seq<Row>) {
    rows == [] || (KeyOf(dataset, rows[0]) !in KeySet(dataset, rows[1..]) && DistinctKeys(dataset, rows[1..]))
  }

  // ----- _deduplicate

  /** What the rest of `_deduplicate` yields once the keys in `seen` have been met. */
  function DedupFrom(dataset: Dataset, rows: seq<Row>, seen: set<BusinessKey>): Result<seq<Row>, Error> {
    if rows == [] then Success([])
    else if HasNullKey(dataset, rows[0]) then Failure(NullStructuralKey)
    else
      var key := KeyOf(dataset, rows[0]);
      if key in seen then
        if IsNameHistory(dataset) then DedupFrom(dataset, rows[1..], seen) else Failure(DuplicateBusinessKey)
      else
        Prepend([rows[0]], DedupFrom(dataset, rows[1..], seen + {key}))
  }

  function Prepend(front: seq<Row>, rest: Result<seq<Row>, Error>): Result<seq<Row>, Error> {
    if rest.Success? then Success(front + rest.value) else rest
  }

  function Dedup(dataset: Dataset, rows: seq<Row>): Result<seq<Row>, Error> {
    DedupFrom(dataset, rows, {})
  }

  method Deduplicate(dataset: Dataset, rows: seq<Row>) returns (r: Result<seq<Row>, Error>)
    ensures r == Dedup(dataset, rows)
  {
    hide HasNullKey, KeyOf, IsNameHistory;
    var seen: set<BusinessKey> := {};
    var output: seq<Row> := [];
    ghost var all := Dedup(dataset, rows);
    assert rows[0..] == rows && (all.Success? ==> [] + all.value == all.value);
    for i := 0 to |rows|
      invariant Dedup(dataset, rows) == Prepend(output, DedupFrom(dataset, rows[i..], seen))
    {
      var row := rows[i];
      assert rows[i..][0] == row && rows[i..][1..] == rows[i + 1..];
      if HasNullKey(dataset, row) {
        return Failure(NullStructuralKey);
      }
      var key := KeyOf(dataset, row);
      if key in seen {
        if !IsNameHistory(dataset) {
          return Failure(DuplicateBusinessKey);
        }
      } else {
        ghost var rest := DedupFrom(dataset, rows[i + 1..], seen + {key});
        assert rest.Success? ==> output + ([row] + rest.value) == (output + [row]) + rest.value;
        seen := seen + {key};
        output := output + [row];
      }
    }
    assert DedupFrom(dataset, rows[|rows|..], seen) == Success([]);
    assert output + [] == output;
    return Success(output);
  }

  ghost predicate NullFree(dataset: Dataset, rows: seq<Row>) {
    forall row :: row in rows ==> !HasNullKey(dataset, row)
  }

  /** De-duplication succeeds exactly on tables without null keys (and, outside the name
      history, without repeats); it keeps one row per business key and invents none. */
  lemma {:induction false} DedupMeaning(dataset: Dataset, rows: seq<Row>, seen: set<BusinessKey>)
    ensures DedupFrom(dataset, rows, seen).Success? <==>
      NullFree(dataset, rows) &&
      (IsNameHistory(dataset) || (DistinctKeys(dataset, rows) && KeySet(dataset, rows) !! seen))
    ensures DedupFrom(dataset, rows, seen).Success? ==>
      var out := DedupFrom(dataset, rows, seen).value;
      && DistinctKeys(dataset, out)
      && KeySet(dataset, out) == KeySet(dataset, rows) - seen
      && (forall row :: row in out ==> row in rows)
      && (!IsNameHistory(dataset) ==> out == rows)
  {
    if rows != [] {
      var row, rest := rows[0], rows[1..];
      var key := KeyOf(dataset, row);
      NullFreeCons(dataset, rows);
      if !HasNullKey(dataset, row) {
        if key in seen {
          DedupMeaning(dataset, rest, seen);
        } else {
          DedupMeaning(dataset, rest, seen + {key});
          var tail := DedupFrom(dataset, rest, seen + {key});
          if tail.Success? {
            var out := [row] + tail.value;
            assert out[1..] == tail.value;
            assert rows == [row] + rest;
          }
        }
      }
    }
  }

  lemma NullFreeCons(dataset: Dataset, rows: seq<Row>)
    requires rows != []
    ensures NullFree(dataset, rows) <==> !HasNullKey(dataset, rows[0]) && NullFree(dataset, rows[1..])
  {
    assert rows == [rows[0]] + rows[1..];
    assert rows[0] in rows;
  }

  // ----- _row_issues

  /** The first complaint of `_row_issues`, for a partition labelled with `day` (if any). */
  function RowIssue(dataset: Dataset, rows: seq<Row>, day: Option<string>): Option<Error> {
    if exists row :: row in rows && HasNullKey(dataset, row) then Some(NullStructuralKey)
    else if !IsNameHistory(dataset) && !DistinctKeys(dataset, rows) then Some(DuplicateBusinessKey)
    else if day.Some? && exists row :: row in rows && Text(row, TradeDate) != day.value then Some(PartitionDateMismatch)
    else None
  }

  // ----- Point-in-time listing

  predicate IsListedOn(row: Row, day: string) {
    && Text(row, ListDate) != ""
    && Le(Text(row, ListDate), day)
    && (Text(row, DelistDate) == "" || Le(day, Text(row, DelistDate)))
  }

  function Codes(rows: seq<Row>): set<string> {
    set row | row in rows :: Text(row, TsCode)
  }

  /** The codes of `listed_universe(stocks, day)`. */
  function PitCodes(stocks: seq<Row>, day: string): set<string> {
    set row | row in stocks && IsListedOn(row, day) :: Text(row, TsCode)
  }

  // ----- Instrument classification

  datatype Kind =
    | AShareEquity | HistoricalAlias | AbsentStockBasic | UnknownKind
    | Etf | Lof | ConvertibleBond | OtherInstrument | EquityOutsidePit

  function Upper(s: string): string {
    seq(|s|, i requires 0 <= i < |s| => if 'a' <= s[i] <= 'z' then (s[i] as int - 32) as char else s[i])
  }

  /** `code.partition(".")[0]`. */
  function BeforeDot(code: string): string {
    if code == [] || code[0] == '.' then [] else [code[0]] + BeforeDot(code[1..])
  }

  /** `code.partition(".")[2]`. */
  function AfterDot(code: string): (r: string)
    ensures code != [] ==> |r| < |code|
  {
    if code == [] then [] else if code[0] == '.' then code[1..] else AfterDot(code[1..])
  }

  /** `code.rpartition(".")[2]`: the exchange suffix, or the whole text without a dot. */
  function Suffix(code: string): string
    decreases |code|
  {
    if '.' !in code then code else Suffix(AfterDot(code))
  }

  predicate StartsWith(s: string, prefixes: seq<string>) {
    exists p :: p in prefixes && p <= s
  }

  const BOND_PREFIXES := ["110", "111", "113", "118", "123", "127", "128", "130"]

  predicate Digits(s: string) {
    forall i :: 0 <= i < |s| ==> '0' <= s[i] <= '9'
  }

  function InstrumentType(row: Row, equityCodes: set<string>): Kind {
    var code := Upper(Text(row, TsCode));
    var symbol, exchange := BeforeDot(code), AfterDot(code);
    if code in equityCodes then AShareEquity
    else if |symbol| != 6 || exchange !in {"SH", "SZ", "BJ"} || !Digits(symbol) then UnknownKind
    else if (exchange == "SZ" && "159" <= symbol)
         || (exchange == "SH" && StartsWith(symbol, ["51", "52", "56", "58"])) then Etf
    else if (exchange == "SZ" && "16" <= symbol) || (exchange == "SH" && "50" <= symbol) then Lof
    else if StartsWith(symbol, BOND_PREFIXES) then ConvertibleBond
    else OtherInstrument
  }

  predicate IsExternalCode(code: string) {
    var upper := Upper(code);
    var symbol, exchange := BeforeDot(upper), AfterDot(upper);
    || (exchange == "SZ" && StartsWith(symbol, ["159", "16"]))
    || (exchange == "SH" && StartsWith(symbol, ["50", "51", "52", "56", "58"]))
    || StartsWith(symbol, BOND_PREFIXES)
  }

  // ----- Historical codes

  datatype Resolution =
    | Resolved(current: string)
    | Unmatched(candidates: nat)
    | ExternalInstrument
    | LookupFailed(reason: string)

  const RESPONSE_CAP := 10000

  /** The text of the exception that a lookup raises at the response cap. */
  const CAP_REASON := "response cap reached"

  function Least(texts: seq<string>): Option<string> {
    var sorted := Sort(texts);
    if sorted == [] then None else Some(sorted[0])
  }

  function NonEmpty(rows: seq<Row>, field: Field): seq<string> {
    if rows == [] then []
    else (if Text(rows[0], field) == "" then [] else [Text(rows[0], field)]) + NonEmpty(rows[1..], field)
  }

  predicate Matches(row: Row, code: string, history: seq<Row>) {
    && Suffix(Text(row, TsCode)) == Suffix(code)
    && Text(row, Name) in NonEmpty(history, Name)
    && Least(NonEmpty(history, StartDate)) == Some(Text(row, ListDate))
  }

  function Candidates(stocks: seq<Row>, code: string, history: seq<Row>): seq<Row> {
    if stocks == [] then []
    else (if Matches(stocks[0], code, history) then [stocks[0]] else []) + Candidates(stocks[1..], code, history)
  }

  /** What a name-history lookup that is answered decides about `code`. */
  function ResolveFrom(code: string, stocks: seq<Row>, history: seq<Row>): Resolution {
    if |history| >= RESPONSE_CAP then LookupFailed(CAP_REASON)
    else
      var found := Candidates(stocks, code, history);
      if |found| == 1 then Resolved(Text(found[0], TsCode)) else Unmatched(|found|)
  }

  lemma {:induction false} CandidatesAreStocks(stocks: seq<Row>, code: string, history: seq<Row>)
    ensures forall row :: row in Candidates(stocks, code, history) ==> row in stocks
  {
    if stocks != [] {
      CandidatesAreStocks(stocks[1..], code, history);
    }
  }

  /** A resolved code always names a row of the stock master it was resolved against. */
  lemma ResolvedInMaster(code: string, stocks: seq<Row>, history: seq<Row>)
    ensures ResolveFrom(code, stocks, history).Resolved? ==>
      ResolveFrom(code, stocks, history).current in Codes(stocks)
  {
    CandidatesAreStocks(stocks, code, history);
  }

  // ----- _filter_equity_universe

  datatype Universe = Universe(pit: set<string>, equity: set<string>, requiredMarket: bool,
                               resolutions: map<string, Resolution>)

  predicate IsAlias(u: Universe, code: string) {
    code in u.resolutions && u.resolutions[code].Resolved? && u.resolutions[code].current in u.pit
  }

  function Classify(u: Universe, row: Row): Kind {
    var kind := if IsAlias(u, Text(row, TsCode)) then HistoricalAlias else InstrumentType(row, u.equity);
    if u.requiredMarket && kind != AShareEquity && kind != HistoricalAlias then AbsentStockBasic else kind
  }

  predicate Keeps(u: Universe, row: Row) {
    var kind := Classify(u, row);
    (kind == AShareEquity && Text(row, TsCode) in u.pit) || kind == HistoricalAlias
  }

  datatype Audit = Audit(counts: map<Kind, nat>, examples: map<Kind, seq<string>>,
                         providerRows: nat, persistedRows: nat)

  function Bump(counts: map<Kind, nat>, kind: Kind): map<Kind, nat> {
    counts[kind := CountAt(counts, kind) + 1]
  }

  function CountAt(counts: map<Kind, nat>, kind: Kind): nat {
    if kind in counts then counts[kind] else 0
  }

  function Example(examples: map<Kind, seq<string>>, kind: Kind, code: string): map<Kind, seq<string>> {
    if kind != AbsentStockBasic && kind != UnknownKind then examples
    else
      var listed := if kind in examples then examples[kind] else [];
      examples[kind := if |listed| < 20 then listed + [code] else listed]
  }

  /** The filter after all of `rows`, last row last. */
  function Filtered(u: Universe, rows: seq<Row>): (seq<Row>, Audit) {
    if rows == [] then ([], Audit(map[], map[], 0, 0))
    else
      var front := Filtered(u, rows[..|rows| - 1]);
      var row := rows[|rows| - 1];
      var kind := Classify(u, row);
      var counts := Bump(front.1.counts, kind);
      var kept := if Keeps(u, row) then front.0 + [row] else front.0;
      (kept, Audit(
        if kind == AShareEquity && !Keeps(u, row) then Bump(counts, EquityOutsidePit) else counts,
        Example(front.1.examples, kind, Text(row, TsCode)), |rows|, |kept|))
  }

  method FilterEquityUniverse(u: Universe, rows: seq<Row>) returns (kept: seq<Row>, audit: Audit)
    ensures (kept, audit) == Filtered(u, rows)
  {
    kept := [];
    var counts: map<Kind, nat> := map[];
    var examples: map<Kind, seq<string>> := map[];
    for i := 0 to |rows|
      invariant Filtered(u, rows[..i]) == (kept, Audit(counts, examples, i, |kept|))
    {
      var row := rows[i];
      assert rows[..i + 1][..i] == rows[..i] && rows[..i + 1][i] == row;
      var code := Text(row, TsCode);
      var kind := InstrumentType(row, u.equity);
      if IsAlias(u, code) {
        kind := HistoricalAlias;
      }
      if u.requiredMarket && kind != AShareEquity && kind != HistoricalAlias {
        kind := AbsentStockBasic;
      }
      counts := Bump(counts, kind);
      examples := Example(examples, kind, code);
      if (kind == AShareEquity && code in u.pit) || kind == HistoricalAlias {
        kept := kept + [row];
      } else if kind == AShareEquity {
        counts := Bump(counts, EquityOutsidePit);
      }
    }
    assert rows[..|rows|] == rows;
    audit := Audit(counts, examples, |rows|, |kept|);
  }

  /** Each provider row is kept with its multiplicity or dropped entirely. */
  lemma {:induction false} FilteredMeaning(u: Universe, rows: seq<Row>)
    ensures forall row :: multiset(Filtered(u, rows).0)[row] == if Keeps(u, row) then multiset(rows)[row] else 0
  {
    if rows != [] {
      var n := |rows| - 1;
      FilteredMeaning(u, rows[..n]);
      assert rows == rows[..n] + [rows[n]];
      var kept, front := Filtered(u, rows).0, Filtered(u, rows[..n]).0;
      assert kept == if Keeps(u, rows[n]) then front + [rows[n]] else front;
    }
  }

  lemma TypeIsPlain(row: Row, equity: set<string>)
    ensures InstrumentType(row, equity) !in {HistoricalAlias, EquityOutsidePit}
  {
  }

  /** The audit balances: the persisted rows are the point-in-time equities and the aliases. */
  lemma {:induction false} AuditBalances(u: Universe, rows: seq<Row>)
    ensures var (kept, audit) := Filtered(u, rows);
      && audit.providerRows == |rows|
      && audit.persistedRows == |kept|
      && |kept| + CountAt(audit.counts, EquityOutsidePit)
           == CountAt(audit.counts, AShareEquity) + CountAt(audit.counts, HistoricalAlias)
  {
    hide IsAlias, InstrumentType, Example;
    if rows != [] {
      AuditBalances(u, rows[..|rows| - 1]);
      TypeIsPlain(rows[|rows| - 1], u.equity);
    }
  }

  lemma KeptRows(u: Universe, rows: seq<Row>, row: Row)
    ensures row in Filtered(u, rows).0 <==> row in rows && Keeps(u, row)
  {
    FilteredMeaning(u, rows);
    assert row in Filtered(u, rows).0 <==> multiset(Filtered(u, rows).0)[row] > 0;
    assert row in rows <==> multiset(rows)[row] > 0;
  }

  /** Only the resolutions of codes that occur in the table matter to the filter. */
  lemma {:induction false} FilterReadsRowCodesOnly(u: Universe, v: Universe, rows: seq<Row>)
    requires u.pit == v.pit && u.equity == v.equity && u.requiredMarket == v.requiredMarket
    requires forall row :: row in rows ==> IsAlias(u, Text(row, TsCode)) == IsAlias(v, Text(row, TsCode))
    ensures Filtered(u, rows) == Filtered(v, rows)
  {
    if rows != [] {
      FilterReadsRowCodesOnly(u, v, rows[..|rows| - 1]);
      assert rows[|rows| - 1] in rows;
    }
  }

  // ----- Calendar

  predicate CalendarCovers(rows: seq<Row>, start: string, end: string) {
    && (exists row :: row in rows && Text(row, CalDate) != "" && Le(Text(row, CalDate), start))
    && (exists row :: row in rows && Text(row, CalDate) != "" && Le(end, Text(row, CalDate)))
    && (exists row :: row in rows && Text(row, Exchange) != "")
  }

  function OpenDates(rows: seq<Row>): seq<string> {
    if rows == [] then []
    else (if Text(rows[0], IsOpen) in {"1", "True", "true"} then [Text(rows[0], CalDate)] else []) + OpenDates(rows[1..])
  }

  /** The official sessions: the open dates of the calendar, sorted. */
  function Sessions(calendar: seq<Row>): seq<string> {
    Sort(OpenDates(calendar))
  }

  predicate CoversSessions(benchmark: seq<Row>, sessions: seq<string>) {
    benchmark != [] && forall d :: d in sessions ==> exists row :: row in benchmark && Text(row, TradeDate) == d
  }
}
