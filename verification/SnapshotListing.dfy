/** What a finished build stores, after any history: exactly the provider's rows of the stocks
    that were on the market that day, and of the historical codes that resolve to them. */
module SnapshotListing {
  import opened Outcomes
  import opened Texts
  import opened SnapshotRows
  import opened SnapshotModel
  import opened SnapshotValidator
  import opened SnapshotResume
  import opened SnapshotOptional
  import opened SnapshotRecovery
  import opened SnapshotValidate
  import opened SnapshotEquivalence
  import opened SnapshotFrames
  import opened SnapshotHistory
  import opened SnapshotClaims
  import opened SnapshotMeaning
  import opened SnapshotKinds

  /** From its list date through its delist date, if it has one. */
  ghost predicate OnMarket(stock: Row, day: string) {
    && Has(stock, ListDate) && Le(stock[ListDate], day)
    && (Has(stock, DelistDate) ==> Le(day, stock[DelistDate]))
  }

  lemma PitIs(stocks: seq<Row>, day: string, code: string)
    ensures code in PitCodes(stocks, day) <==> exists i :: 0 <= i < |stocks| && Text(stocks[i], TsCode) == code && OnMarket(stocks[i], day)
  {
    hide Le;
    if code in PitCodes(stocks, day) {
      var stock :| stock in stocks && IsListedOn(stock, day) && Text(stock, TsCode) == code;
      var i :| 0 <= i < |stocks| && stocks[i] == stock;
      assert OnMarket(stocks[i], day);
    }
    if i :| 0 <= i < |stocks| && Text(stocks[i], TsCode) == code && OnMarket(stocks[i], day) {
      assert stocks[i] in stocks && IsListedOn(stocks[i], day);
    }
  }

  // ----- A build that ran through

  /** The attempt after a history that this is all about. */
  ghost predicate RanThrough(e: Env, tries: seq<Try>, fails: map<Call, string>, now: Clock) {
    var d := AfterAll(e, EMPTY_DISK, tries);
    var a := AttemptOn(d, fails, now);
    RecordsRight(e, a, d.files) && Build(e, a, d.files).stopped.None?
  }

  ghost function Left(e: Env, tries: seq<Try>, fails: map<Call, string>, now: Clock): Work {
    var d := AfterAll(e, EMPTY_DISK, tries);
    Build(e, AttemptOn(d, fails, now), d.files)
  }

  lemma LeftEnded(e: Env, tries: seq<Try>, fails: map<Call, string>, now: Clock) returns (files: map<Key, Table>, v: Work)
    requires RanThrough(e, tries, fails, now)
    ensures var w := Left(e, tries, fails, now); w.m == v.m && SameTables(w.m, w.files, v.files)
    ensures Ended(TruthOf(e), files, v) && TruthOf(e).dates != []
  {
    hide TruthOf, Build, Draft, Ready, SameWork, SameTables, AfterAll, Trim, RecordsRight, Ended, Settled, Harmless;
    var d := AfterAll(e, EMPTY_DISK, tries);
    var a := AttemptOn(d, fails, now);
    files := Trim(d).files;
    var k := Trimmed(e, tries, fails, now);
    var b := Tamed(e, a);
    BuildsMatch(e, a, d.files, b, files, k);
    v := Build(e, b, files);
    var draft := Draft(e, b, files);
    BuildIs(e, b, files);
    SettledKeeps(e, b, draft);
    DraftEnds(e, b, files, k);
    SettledEnds(TruthOf(e), files, draft, v);
  }

  lemma BuildIs(e: Env, a: Attempt, files: map<Key, Table>)
    ensures Build(e, a, files) == Settled(e, a, Draft(e, a, files))
  {
  }

  // ----- Contents of its partitions

  lemma ListedContent(e: Env, files: map<Key, Table>, v: Work, key: Key)
    requires Ended(TruthOf(e), files, v) && HasKey(v.m.partitions, key) && key != NAMES_KEY
    ensures TruthOf(e).content(key).Success?
    ensures key in v.files && v.files[key] == TableFor(key, TruthOf(e).content(key).value)
  {
    hide TruthOf, Lists, Hashed;
    var entry :| entry in v.m.partitions && entry.key == key;
  }

  /** When a market partition can be stored from what the provider answers: the answer to an
      optional request is sound as a whole, a required one leaves some row, and the rows that
      are kept are sound and of the day. It then holds the rows kept. */
  lemma FreshMarketIff(e: Env, stocks: seq<Row>, sessions: seq<string>, known: map<string, Resolution>, key: Key)
    requires IsMarket(key.dataset)
    ensures var made := FreshRows(e, stocks, sessions, known, key);
      var kept := Filtered(UniverseFor(stocks, known, key), MarketRows(e, key)).0;
      && (made.Success? <==>
            && (key.dataset in {DailyBasic, Suspend, Limits} ==> Storable(key.dataset, MarketRows(e, key), None))
            && (key.dataset in {Daily, AdjFactor} ==> kept != [])
            && Storable(key.dataset, kept, Day(key.tag)))
      && (made.Success? ==> made.value == kept)
  {
    var kept := Filtered(UniverseFor(stocks, known, key), MarketRows(e, key)).0;
    hide Filtered, Dedup, RowIssue, PitCodes, Codes, WellKeyed, SameRecord;
    DedupStores(key.dataset, kept);
    DedupStores(key.dataset, MarketRows(e, key));
    NoIssueIff(key.dataset, kept, Day(key.tag));
  }

  lemma ContentFresh(e: Env, key: Key)
    requires IsMarket(key.dataset) && TruthOf(e).content(key).Success?
    ensures key.tag.Session? && key.tag.date in TruthOf(e).dates
    ensures var t := TruthOf(e); t.content(key) == FreshRows(e, Stocks(e), t.dates, Known(e, t.dates, t.unknown, key), key)
  {
    var t := TruthOf(e);
    assert t.content(key) == Content(e, t.dates, t.unknown, key);
    hide FreshRows, Known, Stocks, CalendarRows, Sessions, UnknownCodes, NameShards;
  }

  lemma MarketContentIs(e: Env, key: Key)
    requires IsMarket(key.dataset) && TruthOf(e).content(key).Success?
    ensures key.tag.Session? && key.tag.date in TruthOf(e).dates
    ensures var t := TruthOf(e);
      && t.content(key).value == Filtered(UniverseFor(Stocks(e), Known(e, t.dates, t.unknown, key), key), MarketRows(e, key)).0
      && Storable(key.dataset, t.content(key).value, Some(key.tag.date))
      && (key.dataset in {DailyBasic, Suspend, Limits} ==> Storable(key.dataset, MarketRows(e, key), None))
  {
    hide TruthOf, Stocks, Known, Filtered, Storable, FreshRows, UniverseFor, MarketRows;
    var t := TruthOf(e);
    ContentFresh(e, key);
    FreshMarketIff(e, Stocks(e), t.dates, Known(e, t.dates, t.unknown, key), key);
  }

  /** The stored stock master is the provider's, with one row per code. */
  lemma MasterIs(e: Env, files: map<Key, Table>, v: Work)
    requires Ended(TruthOf(e), files, v)
    ensures Stocks(e) == e.provider.stock && Storable(StockBasic, e.provider.stock, None)
  {
    var t := TruthOf(e);
    assert PlanKey(t, 0) == STOCK_KEY && v.m.partitions[0] in v.m.partitions;
    assert t.content(STOCK_KEY).Success?;
    RangeContent(e, [], [], map[], STOCK_KEY);
    hide TruthOf, Ended, Dedup, RowIssue, Storable;
    DedupStores(StockBasic, e.provider.stock);
    NoIssueIff(StockBasic, e.provider.stock, None);
  }

  lemma OneRowEach(stocks: seq<Row>, x: Row, y: Row)
    requires Storable(StockBasic, stocks, None) && x in stocks && y in stocks && Text(x, TsCode) == Text(y, TsCode)
    ensures x == y
  {
    var i :| 0 <= i < |stocks| && stocks[i] == x;
    var j :| 0 <= j < |stocks| && stocks[j] == y;
    assert WellKeyed(StockBasic, x) && WellKeyed(StockBasic, y);
    assert SameRecord(StockBasic, x, y) && SameRecord(StockBasic, y, x);
  }

  lemma UpperStays(code: string)
    requires forall i :: 0 <= i < |code| ==> !('a' <= code[i] <= 'z')
    ensures Upper(code) == code
  {
  }

  /** In upper case as the master has it. */
  ghost predicate Capital(code: string) {
    forall i :: 0 <= i < |code| ==> !('a' <= code[i] <= 'z')
  }

  lemma NoAliasOfStock(e: Env, key: Key, u: Universe, code: string)
    requires u.resolutions.Keys <= All(TruthOf(e).dates, TruthOf(e).unknown) && code in Codes(Stocks(e))
    ensures !Alias(u, code)
  {
    hide TruthOf, Stocks, All;
    if code in u.resolutions { UnknownIsOutside(e, code); }
  }

  lemma KnownWithin(e: Env, key: Key)
    ensures var t := TruthOf(e);
      Known(e, t.dates, t.unknown, key).Keys <= All(t.dates, t.unknown)
      && forall code :: code in Known(e, t.dates, t.unknown, key) ==> Known(e, t.dates, t.unknown, key)[code] == t.resolve(code)
  {
    hide Stocks, Sessions, CalendarRows, LookupOne, UnknownCodes;
  }

  /** The rows of a stock of the master are kept exactly while it is on the market. */
  lemma StockKept(e: Env, files: map<Key, Table>, v: Work, key: Key, bar: Row, stock: Row)
    requires Ended(TruthOf(e), files, v) && IsMarket(key.dataset) && key.tag.Session?
    requires stock in e.provider.stock && Text(stock, TsCode) == Text(bar, TsCode) && Capital(Text(bar, TsCode))
    ensures var t := TruthOf(e);
      Keeps(UniverseFor(Stocks(e), Known(e, t.dates, t.unknown, key), key), bar) <==> OnMarket(stock, key.tag.date)
  {
    MasterIs(e, files, v);
    KnownWithin(e, key);
    hide TruthOf, Ended, Stocks, Known, OnMarket, PitCodes, Storable, Keeps, All, Upper;
    var t, code := TruthOf(e), Text(bar, TsCode);
    var u := UniverseFor(Stocks(e), Known(e, t.dates, t.unknown, key), key);
    UpperStays(code);
    assert code in Codes(Stocks(e));
    NoAliasOfStock(e, key, u, code);
    KeptIff(u, bar);
    PitIs(e.provider.stock, key.tag.date, code);
    forall i | 0 <= i < |e.provider.stock| && Text(e.provider.stock[i], TsCode) == code ensures e.provider.stock[i] == stock {
      OneRowEach(e.provider.stock, e.provider.stock[i], stock);
    }
    var i :| 0 <= i < |e.provider.stock| && e.provider.stock[i] == stock;
  }

  /** The daily rows of a code outside the master are kept exactly if it was resolved to a
      stock that was on the market. */
  lemma AliasKept(e: Env, files: map<Key, Table>, v: Work, key: Key, bar: Row)
    requires Ended(TruthOf(e), files, v) && key.dataset == Daily && key.tag.Session? && key.tag.date in TruthOf(e).dates
    requires bar in MarketRows(e, key) && Text(bar, TsCode) !in Codes(e.provider.stock)
    ensures var t, code, stocks := TruthOf(e), Text(bar, TsCode), e.provider.stock;
      Keeps(UniverseFor(Stocks(e), Known(e, t.dates, t.unknown, key), key), bar) <==>
        && code in v.m.resolutions && v.m.resolutions[code].Resolved?
        && exists i :: 0 <= i < |stocks| && Text(stocks[i], TsCode) == v.m.resolutions[code].current && OnMarket(stocks[i], key.tag.date)
  {
    MasterIs(e, files, v);
    KnownWithin(e, key);
    var t, code := TruthOf(e), Text(bar, TsCode);
    assert v.m.resolutions == ResolveAll(All(t.dates, t.unknown), t.resolve);
    DayIsKnown(e, key, code);
    hide TruthOf, Ended, Stocks, Known, OnMarket, PitCodes, Storable, Keeps, All, Upper;
    var u := UniverseFor(Stocks(e), Known(e, t.dates, t.unknown, key), key);
    KeptIff(u, bar);
    NotInPit(e.provider.stock, key.tag.date, code);
    if code in v.m.resolutions && v.m.resolutions[code].Resolved? {
      PitIs(e.provider.stock, key.tag.date, v.m.resolutions[code].current);
    }
  }

  lemma NotInPit(stocks: seq<Row>, day: string, code: string)
    requires code !in Codes(stocks)
    ensures code !in PitCodes(stocks, day)
  {
  }

  lemma DayIsKnown(e: Env, key: Key, code: string)
    requires key.dataset == Daily && key.tag.Session? && key.tag.date in TruthOf(e).dates
    requires code in Codes(MarketRows(e, key)) && code !in Codes(Stocks(e))
    ensures var t := TruthOf(e); code in Known(e, t.dates, t.unknown, key) <==> code in All(t.dates, t.unknown)
  {
    var t, date := TruthOf(e), key.tag.date;
    LeTotal(date, date);
    UnknownIs(e, key);
    KnownWithin(e, key);
    hide Stocks, Sessions, CalendarRows, LookupOne;
    if code in All(t.dates, t.unknown) {
      UnknownIsOutside(e, code);
      assert code in t.unknown(date);
      assert code in UpTo(t.dates, t.unknown, date);
    }
  }

  /** Under any history, the stored rows of a market partition are the provider's rows that
      the filter keeps, with their multiplicity. */
  lemma PartitionIs(e: Env, files: map<Key, Table>, v: Work, key: Key, bar: Row)
    requires Ended(TruthOf(e), files, v) && IsMarket(key.dataset) && HasKey(v.m.partitions, key)
    ensures key in v.files && key.tag.Session? && key.tag.date in TruthOf(e).dates
    ensures Storable(key.dataset, v.files[key].rows, Some(key.tag.date))
    ensures key.dataset in {DailyBasic, Suspend, Limits} ==> Storable(key.dataset, MarketRows(e, key), None)
    ensures var t := TruthOf(e);
      multiset(v.files[key].rows)[bar]
        == if Keeps(UniverseFor(Stocks(e), Known(e, t.dates, t.unknown, key), key), bar) then multiset(MarketRows(e, key))[bar] else 0
  {
    hide TruthOf, Ended, Stocks, Known, Filtered, Storable, Keeps, UniverseFor, MarketRows, HasKey;
    var t := TruthOf(e);
    ListedContent(e, files, v, key);
    MarketContentIs(e, key);
    FilteredMeaning(UniverseFor(Stocks(e), Known(e, t.dates, t.unknown, key), key), MarketRows(e, key));
  }

  // ----- The point-in-time universe, over all histories

  lemma SameListed(w: Work, v: Work, key: Key)
    requires w.m == v.m && SameTables(w.m, w.files, v.files) && HasKey(w.m.partitions, key) && key in v.files
    ensures key in w.files && w.files[key] == v.files[key]
  {
    var entry :| entry in w.m.partitions && entry.key == key;
  }

  /** No look-ahead and no survivorship. After any history of attempts, take a build that ran
      through and recorded right resolutions, a market partition it lists, and a row the
      provider gave for that day. If the stock master has the row's code, the row is stored,
      as often as it was given, exactly when that stock's list date has come and its delist
      date, if it has one, has not passed. */
  lemma StoredIffOnMarket(e: Env, tries: seq<Try>, fails: map<Call, string>, now: Clock, dataset: Dataset, date: string, bar: Row, stock: Row)
    requires RanThrough(e, tries, fails, now) && IsMarket(dataset)
    requires HasKey(Left(e, tries, fails, now).m.partitions, SessionKey(dataset, date))
    requires stock in e.provider.stock && Text(stock, TsCode) == Text(bar, TsCode) && Capital(Text(bar, TsCode))
    ensures var w, key := Left(e, tries, fails, now), SessionKey(dataset, date);
      && key in w.files
      && multiset(w.files[key].rows)[bar] == if OnMarket(stock, date) then multiset(e.provider.market(dataset, date))[bar] else 0
  {
    var files, v := LeftEnded(e, tries, fails, now);
    hide TruthOf, Ended, RanThrough, Left, OnMarket, HasKey, SameTables, Keeps, UniverseFor, Stocks, Known, Storable, Capital;
    var w, key := Left(e, tries, fails, now), SessionKey(dataset, date);
    PartitionIs(e, files, v, key, bar);
    StockKept(e, files, v, key, bar, stock);
    SameListed(w, v, key);
  }

  /** The daily rows of a code that the stock master does not have are stored exactly if the
      manifest resolves the code to a stock that was on the market that day. */
  lemma StoredIfResolved(e: Env, tries: seq<Try>, fails: map<Call, string>, now: Clock, date: string, bar: Row)
    requires RanThrough(e, tries, fails, now)
    requires HasKey(Left(e, tries, fails, now).m.partitions, SessionKey(Daily, date))
    requires bar in e.provider.market(Daily, date) && Text(bar, TsCode) !in Codes(e.provider.stock)
    ensures var w, key := Left(e, tries, fails, now), SessionKey(Daily, date);
      var code, stocks := Text(bar, TsCode), e.provider.stock;
      && key in w.files
      && (bar in w.files[key].rows <==>
            && code in w.m.resolutions && w.m.resolutions[code].Resolved?
            && exists i :: 0 <= i < |stocks| && Text(stocks[i], TsCode) == w.m.resolutions[code].current && OnMarket(stocks[i], date))
  {
    var files, v := LeftEnded(e, tries, fails, now);
    hide TruthOf, Ended, RanThrough, Left, OnMarket, HasKey, SameTables, Keeps, UniverseFor, Stocks, Known, Storable;
    var w, key := Left(e, tries, fails, now), SessionKey(Daily, date);
    PartitionIs(e, files, v, key, bar);
    AliasKept(e, files, v, key, bar);
    SameListed(w, v, key);
    assert bar in w.files[key].rows <==> multiset(w.files[key].rows)[bar] > 0;
    assert bar in MarketRows(e, key) <==> multiset(MarketRows(e, key))[bar] > 0;
  }

  /** Nothing else is stored: every row of a listed market partition was given by the provider
      for that day, bears its date, has its key fields, and is the only one of its record. Of
      an optional dataset all rows given that day have key fields and differ. */
  lemma StoredRowsAreGiven(e: Env, tries: seq<Try>, fails: map<Call, string>, now: Clock, dataset: Dataset, date: string, bar: Row)
    requires RanThrough(e, tries, fails, now) && IsMarket(dataset)
    requires HasKey(Left(e, tries, fails, now).m.partitions, SessionKey(dataset, date))
    ensures var w, key := Left(e, tries, fails, now), SessionKey(dataset, date);
      && key in w.files
      && (bar in w.files[key].rows ==> bar in e.provider.market(dataset, date) && Text(bar, TradeDate) == date)
      && Storable(dataset, w.files[key].rows, Some(date))
      && (dataset in {DailyBasic, Suspend, Limits} ==> Storable(dataset, e.provider.market(dataset, date), None))
  {
    var files, v := LeftEnded(e, tries, fails, now);
    hide TruthOf, Ended, RanThrough, Left, HasKey, SameTables, Keeps, UniverseFor, Stocks, Known;
    var w, key := Left(e, tries, fails, now), SessionKey(dataset, date);
    PartitionIs(e, files, v, key, bar);
    SameListed(w, v, key);
    assert bar in w.files[key].rows <==> multiset(w.files[key].rows)[bar] > 0;
    assert bar in MarketRows(e, key) <==> multiset(MarketRows(e, key))[bar] > 0;
  }

  // ----- Sessions and resolutions

  lemma RangeRows(e: Env, files: map<Key, Table>, v: Work, key: Key)
    requires Ended(TruthOf(e), files, v) && TruthOf(e).dates != [] && key in {CALENDAR_KEY, BENCHMARK_KEY}
    ensures HasKey(v.m.partitions, key) && key in v.files
    ensures FreshRows(e, [], TruthOf(e).dates, map[], key).Success?
    ensures v.files[key].rows == FreshRows(e, [], TruthOf(e).dates, map[], key).value
  {
    var t := TruthOf(e);
    var r: nat := if key == CALENDAR_KEY then 1 else 2 * |t.dates| + 2;
    assert PlanKey(t, r) == key && v.m.partitions[r] in v.m.partitions;
    RangeContent(e, [], t.dates, map[], key);
    hide TruthOf, FreshRows, Ended;
    ListedContent(e, files, v, key);
  }

  lemma CalendarIs(e: Env, sessions: seq<string>)
    requires FreshRows(e, [], sessions, map[], CALENDAR_KEY).Success?
    ensures FreshRows(e, [], sessions, map[], CALENDAR_KEY).value == e.provider.calendar
    ensures Storable(Calendar, e.provider.calendar, None) && CalendarCovers(e.provider.calendar, e.config.start, e.config.end)
  {
    hide CalendarCovers, Storable, Dedup, RowIssue;
    DedupStores(Calendar, e.provider.calendar);
    NoIssueIff(Calendar, e.provider.calendar, None);
  }

  lemma BenchmarkIs(e: Env, sessions: seq<string>)
    requires FreshRows(e, [], sessions, map[], BENCHMARK_KEY).Success?
    ensures FreshRows(e, [], sessions, map[], BENCHMARK_KEY).value == e.provider.benchmark
    ensures Storable(Benchmark, e.provider.benchmark, None) && CoversSessions(e.provider.benchmark, sessions)
  {
    hide CoversSessions, Storable, Dedup, RowIssue;
    DedupStores(Benchmark, e.provider.benchmark);
    NoIssueIff(Benchmark, e.provider.benchmark, None);
  }

  lemma TruthDates(e: Env, files: map<Key, Table>, v: Work)
    requires Ended(TruthOf(e), files, v) && TruthOf(e).dates != []
    ensures TruthOf(e).dates == Sessions(e.provider.calendar)
  {
    RangeRows(e, files, v, CALENDAR_KEY);
    CalendarIs(e, TruthOf(e).dates);
    RangeFiles(e, files, v);
    hide TruthOf, Ended, FreshRows, Sessions;
  }

  /** What a build that ran through rests on: the provider's calendar covers the range asked
      for and has an open date, its benchmark has a row of every open date, and every open
      date has daily bars and adjustment factors stored, some of each. */
  lemma OpenDatesAreStored(e: Env, tries: seq<Try>, fails: map<Call, string>, now: Clock, date: string)
    requires RanThrough(e, tries, fails, now)
    ensures CalendarCovers(e.provider.calendar, e.config.start, e.config.end) && Sessions(e.provider.calendar) != []
    ensures CoversSessions(e.provider.benchmark, Sessions(e.provider.calendar))
    ensures Storable(StockBasic, e.provider.stock, None) && Storable(Calendar, e.provider.calendar, None)
         && Storable(Benchmark, e.provider.benchmark, None)
    ensures (exists i :: 0 <= i < |e.provider.calendar| && Open(e.provider.calendar[i]) && Text(e.provider.calendar[i], CalDate) == date) ==>
      forall dataset :: dataset in {Daily, AdjFactor} ==>
        var w, key := Left(e, tries, fails, now), SessionKey(dataset, date);
        HasKey(w.m.partitions, key) && key in w.files && w.files[key].rows != []
  {
    var files, v := LeftEnded(e, tries, fails, now);
    TruthDates(e, files, v);
    MasterIs(e, files, v);
    RangeRows(e, files, v, CALENDAR_KEY);
    RangeRows(e, files, v, BENCHMARK_KEY);
    hide TruthOf, Ended, RanThrough, Left, HasKey, SameTables, Storable, FreshRows, CalendarCovers, CoversSessions, Open, Sessions;
    CalendarIs(e, TruthOf(e).dates);
    BenchmarkIs(e, TruthOf(e).dates);
    SessionsAre(e.provider.calendar);
    if date in Sessions(e.provider.calendar) {
      forall dataset | dataset in {Daily, AdjFactor}
        ensures var w, key := Left(e, tries, fails, now), SessionKey(dataset, date);
          HasKey(w.m.partitions, key) && key in w.files && w.files[key].rows != []
      {
        DayStored(e, files, v, dataset, date);
        SameListed(Left(e, tries, fails, now), v, SessionKey(dataset, date));
      }
    }
  }

  lemma DayListed(e: Env, files: map<Key, Table>, v: Work, dataset: Dataset, date: string)
    requires Ended(TruthOf(e), files, v) && date in TruthOf(e).dates && dataset in {Daily, AdjFactor}
    ensures HasKey(v.m.partitions, SessionKey(dataset, date))
  {
    hide TruthOf, Faithful, Hashed, Covers, ResolutionsRight, EntriesRight;
    var t, key := TruthOf(e), SessionKey(dataset, date);
    var i: nat :| i < |t.dates| && t.dates[i] == date;
    var r: nat := if dataset == Daily then 2 * i + 2 else 2 * i + 3;
    assert PlanKey(t, r) == key;
    assert v.m.partitions[r] in v.m.partitions;
  }

  lemma DayStored(e: Env, files: map<Key, Table>, v: Work, dataset: Dataset, date: string)
    requires Ended(TruthOf(e), files, v) && date in TruthOf(e).dates && dataset in {Daily, AdjFactor}
    ensures var key := SessionKey(dataset, date); HasKey(v.m.partitions, key) && key in v.files && v.files[key].rows != []
  {
    hide TruthOf, Ended, Stocks, Known, FreshRows, HasKey;
    var t, key := TruthOf(e), SessionKey(dataset, date);
    DayListed(e, files, v, dataset, date);
    ListedContent(e, files, v, key);
    ContentFresh(e, key);
    SomeRows(e, Stocks(e), t.dates, Known(e, t.dates, t.unknown, key), key);
  }

  lemma SomeRows(e: Env, stocks: seq<Row>, sessions: seq<string>, known: map<string, Resolution>, key: Key)
    requires key.dataset in {Daily, AdjFactor} && FreshRows(e, stocks, sessions, known, key).Success?
    ensures FreshRows(e, stocks, sessions, known, key).value != []
  {
    var kept := Filtered(UniverseFor(stocks, known, key), MarketRows(e, key)).0;
    hide Filtered, Dedup, RowIssue, PitCodes, Codes, Storable;
    DedupStores(key.dataset, kept);
  }

  /** The manifest resolves exactly the codes of daily rows of open dates that the stock
      master does not have; a fund or bond code as external, any other as its name history
      decides. */
  lemma ResolvesUnknownCodes(e: Env, tries: seq<Try>, fails: map<Call, string>, now: Clock, code: string)
    requires RanThrough(e, tries, fails, now)
    ensures var w := Left(e, tries, fails, now);
      && (code in w.m.resolutions <==>
            && code != "" && code !in Codes(e.provider.stock)
            && exists date :: date in Sessions(e.provider.calendar) && code in Codes(e.provider.market(Daily, date)))
      && (code in w.m.resolutions ==>
            w.m.resolutions[code] ==
              if IsExternalCode(code) then ExternalInstrument else ResolveFrom(code, e.provider.stock, e.provider.names(code)))
  {
    hide RanThrough, Left, SameTables, Sessions, IsExternalCode, ResolveFrom, Codes, TruthOf, Ended;
    var files, v := LeftEnded(e, tries, fails, now);
    TruthDates(e, files, v);
    MasterIs(e, files, v);
    ResolvesTruth(e, files, v, code);
  }

  lemma ResolvesTruth(e: Env, files: map<Key, Table>, v: Work, code: string)
    requires Ended(TruthOf(e), files, v)
    ensures code in v.m.resolutions <==>
      && code != "" && code !in Codes(Stocks(e))
      && exists date :: date in TruthOf(e).dates && code in Codes(e.provider.market(Daily, date))
    ensures code in v.m.resolutions ==>
      v.m.resolutions[code] == if IsExternalCode(code) then ExternalInstrument else ResolveFrom(code, Stocks(e), e.provider.names(code))
  {
    TruthResolves(e, code);
    hide TruthOf, Faithful, Lists, EntriesRight, Hashed, IsExternalCode, ResolveFrom, Codes, Stocks;
    var t := TruthOf(e);
    forall date ensures code in t.unknown(date) <==> code != "" && code !in Codes(Stocks(e)) && code in Codes(e.provider.market(Daily, date)) {
      UnknownIs(e, SessionKey(Daily, date));
    }
  }

  lemma TruthResolves(e: Env, code: string)
    ensures TruthOf(e).resolve(code)
      == if IsExternalCode(code) then ExternalInstrument else ResolveFrom(code, Stocks(e), e.provider.names(code))
  {
    assert TruthOf(e).resolve(code) == LookupOne(e, NO_FAILURES, Stocks(e), code);
    hide IsExternalCode, ResolveFrom, Stocks, TruthOf;
  }

  /** A first build in which nothing fails records right resolutions. */
  lemma CleanRunsThrough(e: Env, now: Clock)
    requires Build(e, AttemptOn(EMPTY_DISK, NO_FAILURES, now), map[]).stopped.None?
    ensures RanThrough(e, [], NO_FAILURES, now)
  {
    hide TruthOf, Build, Draft, Ready, Lists, Faithful, EntriesRight, Hashed, SeenAt;
    CleanReady(e, now);
    var r := DraftLeaves(e, AttemptOn(EMPTY_DISK, NO_FAILURES, now), map[], 0);
    LeavesRight(e, Draft(e, AttemptOn(EMPTY_DISK, NO_FAILURES, now), map[]), r);
  }

  lemma LeavesRight(e: Env, w: Work, r: nat)
    requires Leaves(TruthOf(e), map[], w, r)
    ensures ResolutionsRight(TruthOf(e), w.m.resolutions)
  {
    hide TruthOf;
  }
}