/** Crash and resume: whatever attempts went before, a build that runs through leaves the
    partitions and the digest of a single clean build. */
module SnapshotResume {
  import opened Outcomes
  import opened Texts
  import opened SnapshotRows
  import opened SnapshotModel

  // ----- What provider and configuration determine

  function Stocks(e: Env): seq<Row> {
    var rows := FreshRows(e, [], [], map[], STOCK_KEY);
    if rows.Success? then rows.value else []
  }

  function CalendarRows(e: Env): seq<Row> {
    var rows := FreshRows(e, [], [], map[], CALENDAR_KEY);
    if rows.Success? then rows.value else []
  }

  function NameShards(e: Env): seq<seq<string>> {
    Shards(Symbols(e, Stocks(e)), ShardSize(e))
  }

  /** Unknown daily codes of all sessions not after `date`. */
  function UpTo(dates: seq<string>, unknown: string -> set<string>, date: string): set<string> {
    set s, code | s in dates && Le(s, date) && code in unknown(s) :: code
  }

  function All(dates: seq<string>, unknown: string -> set<string>): set<string> {
    set s, code | s in dates && code in unknown(s) :: code
  }

  /** Unknown daily codes of the first `days` sessions. */
  function Seen(dates: seq<string>, unknown: string -> set<string>, days: nat): set<string> {
    set j: nat, code | j < days && j < |dates| && code in unknown(dates[j]) :: code
  }

  function ResolveAll(codes: set<string>, resolve: string -> Resolution): map<string, Resolution> {
    map code | code in codes :: resolve(code)
  }

  /** The sessions, the codes unknown to the stock master on a day, what a lookup decides
      about a code, and the rows and audit of every partition. */
  datatype Truth = Truth(
    dates: seq<string>, unknown: string -> set<string>, resolve: string -> Resolution,
    content: Key -> Result<seq<Row>, Error>, audit: Key -> Option<Audit>)

  function Known(e: Env, dates: seq<string>, unknown: string -> set<string>, key: Key): map<string, Resolution> {
    var resolve := code => LookupOne(e, NO_FAILURES, Stocks(e), code);
    if key.dataset == Daily || key.dataset == AdjFactor then
      ResolveAll(UpTo(dates, unknown, if key.tag.Session? then key.tag.date else ""), resolve)
    else ResolveAll(All(dates, unknown), resolve)
  }

  function Content(e: Env, dates: seq<string>, unknown: string -> set<string>, key: Key): Result<seq<Row>, Error> {
    if key.dataset == NameShard then
      if key.tag.Shard? && key.tag.index < |NameShards(e)| then ShardRows(e, NO_FAILURES, NameShards(e)[key.tag.index], key.tag.index)
      else Failure(FetchFailed)
    else if IsMarket(key.dataset) then
      if key.tag.Session? && key.tag.date in dates then FreshRows(e, Stocks(e), dates, Known(e, dates, unknown, key), key)
      else Failure(FetchFailed)
    else if key in {STOCK_KEY, CALENDAR_KEY, BENCHMARK_KEY} then FreshRows(e, Stocks(e), dates, map[], key)
    else Failure(FetchFailed)
  }

  function TruthOf(e: Env): Truth {
    var stocks := Stocks(e);
    var dates := Sessions(CalendarRows(e));
    var unknown := date => UnknownCodes(stocks, e.provider.market(Daily, date));
    Truth(dates, unknown, code => LookupOne(e, NO_FAILURES, stocks, code),
          key => Content(e, dates, unknown, key),
          key => AuditFor(e, stocks, Known(e, dates, unknown, key), key))
  }

  // ----- The required partitions, in build order

  function PlanLength(t: Truth): nat {
    if t.dates == [] then 2 else 2 * |t.dates| + 3
  }

  function PlanKey(t: Truth, r: nat): Key
    requires r < PlanLength(t)
  {
    if r == 0 then STOCK_KEY
    else if r == 1 then CALENDAR_KEY
    else if r == 2 * |t.dates| + 2 then BENCHMARK_KEY
    else Key(if r % 2 == 0 then Daily else AdjFactor, Session(t.dates[(r - 2) / 2]))
  }

  /** How many sessions' daily bars have been reached when standing at position `r`. */
  function Reached(t: Truth, r: nat): nat {
    if r < 2 then 0 else if (r - 2) / 2 < |t.dates| then (r - 2) / 2 + 1 else |t.dates|
  }

  function SeenAt(t: Truth, r: nat): set<string> {
    Seen(t.dates, t.unknown, Reached(t, r))
  }

  // ----- Invariants

  ghost predicate EntryRight(t: Truth, entry: Entry) {
    && t.content(entry.key).Success?
    && entry == EntryFor(entry.key, t.content(entry.key).value, t.audit(entry.key))
  }

  /** Every file a build ever wrote, the combined name table aside, holds its content. */
  ghost predicate Faithful(t: Truth, files: map<Key, Table>) {
    forall key :: key in files && key != NAMES_KEY ==>
      t.content(key).Success? && files[key] == TableFor(key, t.content(key).value)
  }

  ghost predicate EntriesRight(t: Truth, files: map<Key, Table>, partitions: seq<Entry>) {
    forall entry :: entry in partitions && entry.key != NAMES_KEY ==> EntryRight(t, entry) && entry.key in files
  }

  ghost predicate ResolutionsRight(t: Truth, resolutions: map<string, Resolution>) {
    forall code :: code in resolutions ==>
      code in All(t.dates, t.unknown) && resolutions[code] == t.resolve(code)
  }

  /** The unknown codes of every listed daily partition are resolved. */
  ghost predicate Covers(t: Truth, partitions: seq<Entry>, resolved: set<string>) {
    forall entry :: entry in partitions && entry.key.dataset == Daily && entry.key.tag.Session? ==>
      t.unknown(entry.key.tag.date) <= resolved
  }

  /** A manifest that lists the first `r` required partitions, perhaps followed by others. */
  ghost predicate Lists(t: Truth, m: Manifest, r: nat) {
    && r <= PlanLength(t) && r <= |m.partitions|
    && (forall j: nat :: j < r ==> m.partitions[j].key == PlanKey(t, j))
    && ResolutionsRight(t, m.resolutions)
    && Covers(t, m.partitions, m.resolutions.Keys)
  }

  ghost predicate Saved(t: Truth, files: map<Key, Table>, m: Manifest, r: nat) {
    && Lists(t, m, r)
    && EntriesRight(t, files, m.partitions)
    && m.resolutions.Keys <= SeenAt(t, r)
  }

  /** No failing lookup records anything but what a clean build records about the code. */
  ghost predicate LookupsHold(t: Truth, fails: map<Call, string>) {
    forall code :: CallLookup(code) in fails ==>
      t.resolve(code) == ExternalInstrument || t.resolve(code) == LookupFailed(fails[CallLookup(code)])
  }

  /** What an attempt may rely on: the previous manifest listed `k` required partitions. */
  ghost predicate Resumes(t: Truth, a: Attempt, files: map<Key, Table>, k: nat) {
    && k <= PlanLength(t)
    && (forall key :: key in a.previous && key != NAMES_KEY ==>
          a.previous[key].key == key && EntryRight(t, a.previous[key]) && key in files)
    && (forall key :: key in a.previous && key.dataset == Daily && key.tag.Session? ==>
          t.unknown(key.tag.date) <= a.resolutions.Keys)
    && (forall j: nat :: j < k ==> PlanKey(t, j) in a.previous)
    && LookupsHold(t, a.fails)
  }

  /** Standing at required position `r` of a build that resumes from position `k`. */
  ghost predicate Standing(t: Truth, a: Attempt, w: Work, r: nat, k: nat) {
    && |w.m.partitions| == r
    && Lists(t, w.m, r)
    && Faithful(t, w.files)
    && EntriesRight(t, w.files, w.m.partitions)
    && a.resolutions.Keys <= w.m.resolutions.Keys <= SeenAt(t, k) + SeenAt(t, r)
  }

  // ----- Sessions seen, by index and by date

  lemma SeenGrows(t: Truth, i: nat, j: nat)
    requires i <= j
    ensures SeenAt(t, i) <= SeenAt(t, j)
  {
  }

  lemma SeenIsAll(t: Truth)
    ensures Seen(t.dates, t.unknown, |t.dates|) == All(t.dates, t.unknown)
  {
    forall code | code in All(t.dates, t.unknown) ensures code in Seen(t.dates, t.unknown, |t.dates|) {
      var s :| s in t.dates && code in t.unknown(s);
      var j: nat :| j < |t.dates| && t.dates[j] == s;
    }
  }

  /** By the order of sessions, the first `i + 1` of them are those up to the `i`-th date. */
  lemma SeenIsUpTo(dates: seq<string>, unknown: string -> set<string>, i: nat)
    requires Sorted(dates) && i < |dates|
    ensures Seen(dates, unknown, i + 1) == UpTo(dates, unknown, dates[i])
  {
    LeTotal(dates[i], dates[i]);
    forall code | code in UpTo(dates, unknown, dates[i]) ensures code in Seen(dates, unknown, i + 1) {
      var s :| s in dates && Le(s, dates[i]) && code in unknown(s);
      var j: nat :| j < |dates| && dates[j] == s;
      if j > i {
        LeAntisymmetric(dates[i], dates[j]);
      }
    }
  }

  /** The sessions behind position `r` are resolved. */
  lemma SeenCovered(t: Truth, m: Manifest, r: nat, days: nat)
    requires Lists(t, m, r)
    requires days <= |t.dates| && (days == 0 || 2 * days + 1 <= r)
    ensures Seen(t.dates, t.unknown, days) <= m.resolutions.Keys
  {
    forall j: nat, code | j < days && code in t.unknown(t.dates[j])
      ensures code in m.resolutions.Keys
    {
      assert m.partitions[2 + 2 * j].key == Key(Daily, Session(t.dates[j]));
    }
  }

  // ----- Moving on by one listed partition

  lemma AppendStands(t: Truth, a: Attempt, w: Work, next: Work, entry: Entry, r: nat, k: nat)
    requires Standing(t, a, w, r, k) && r < PlanLength(t)
    requires next.m.partitions == w.m.partitions + [entry] && entry.key == PlanKey(t, r)
    requires EntryRight(t, entry) && entry.key in next.files
    requires w.files.Keys <= next.files.Keys && Faithful(t, next.files)
    requires ResolutionsRight(t, next.m.resolutions) && w.m.resolutions.Keys <= next.m.resolutions.Keys
    requires PlanKey(t, r).dataset == Daily ==> t.unknown(PlanKey(t, r).tag.date) <= next.m.resolutions.Keys
    requires next.m.resolutions.Keys <= SeenAt(t, k) + SeenAt(t, r)
    ensures Standing(t, a, next, r + 1, k)
  {
    SeenGrows(t, r, r + 1);
    forall j: nat | j < r + 1 ensures next.m.partitions[j].key == PlanKey(t, j) {
      if j < r { assert next.m.partitions[j] == w.m.partitions[j]; }
    }
    assert forall other :: other in next.m.partitions <==> other in w.m.partitions || other == entry;
  }

  lemma ReuseStands(t: Truth, a: Attempt, w: Work, r: nat, k: nat)
    requires Resumes(t, a, w.files, k) && Standing(t, a, w, r, k) && r < PlanLength(t)
    requires PlanKey(t, r) in a.previous
    ensures Standing(t, a, Reuse(w, a.previous[PlanKey(t, r)]), r + 1, k)
  {
    var entry := a.previous[PlanKey(t, r)];
    AppendStands(t, a, w, Reuse(w, entry), entry, r, k);
  }

  lemma WriteStands(t: Truth, a: Attempt, w: Work, resolved: Work, r: nat, k: nat)
    requires Standing(t, a, w, r, k) && r < PlanLength(t) && k <= r
    requires resolved.files == w.files && resolved.m.partitions == w.m.partitions
    requires ResolutionsRight(t, resolved.m.resolutions)
    requires w.m.resolutions.Keys <= resolved.m.resolutions.Keys == SeenAt(t, r)
    requires t.content(PlanKey(t, r)).Success?
    ensures var key := PlanKey(t, r);
      Standing(t, a, Write(resolved, key, t.content(key).value, t.audit(key)), r + 1, k)
  {
    var key := PlanKey(t, r);
    var rows := t.content(key).value;
    var next := Write(resolved, key, rows, t.audit(key));
    if key.dataset == Daily {
      assert key == Key(Daily, Session(t.dates[(r - 2) / 2]));
    }
    AppendStands(t, a, w, next, EntryFor(key, rows, t.audit(key)), r, k);
  }

  // ----- Contents do not depend on what happened before

  lemma UnknownIsOutside(e: Env, code: string)
    requires code in All(TruthOf(e).dates, TruthOf(e).unknown)
    ensures code != "" && code !in Codes(Stocks(e))
  {
    var t := TruthOf(e);
    var s :| s in t.dates && code in t.unknown(s);
    assert t.unknown(s) == UnknownCodes(Stocks(e), e.provider.market(Daily, s));
  }

  /** A day's own lookups fix its filter: further resolved codes change nothing. */
  lemma DailyFilter(e: Env, key: Key, resolutions: map<string, Resolution>)
    requires key.dataset == Daily && key.tag.Session? && key.tag.date in TruthOf(e).dates
    requires ResolutionsRight(TruthOf(e), resolutions)
    requires TruthOf(e).unknown(key.tag.date) <= resolutions.Keys
    ensures var t := TruthOf(e);
      Filtered(UniverseFor(Stocks(e), resolutions, key), MarketRows(e, key))
      == Filtered(UniverseFor(Stocks(e), Known(e, t.dates, t.unknown, key), key), MarketRows(e, key))
  {
    var t := TruthOf(e);
    var known := Known(e, t.dates, t.unknown, key);
    var u, v := UniverseFor(Stocks(e), resolutions, key), UniverseFor(Stocks(e), known, key);
    LeTotal(key.tag.date, key.tag.date);
    forall row | row in MarketRows(e, key)
      ensures IsAlias(u, Text(row, TsCode)) == IsAlias(v, Text(row, TsCode))
    {
      var code := Text(row, TsCode);
      if code in t.unknown(key.tag.date) {
        assert code in UpTo(t.dates, t.unknown, key.tag.date);
      } else {
        assert code == "" || code in Codes(Stocks(e));
        if code in All(t.dates, t.unknown) { UnknownIsOutside(e, code); }
        assert known.Keys <= All(t.dates, t.unknown);
      }
    }
    FilterReadsRowCodesOnly(u, v, MarketRows(e, key));
  }

  lemma RightMapsAgree(t: Truth, resolutions: map<string, Resolution>, codes: set<string>)
    requires ResolutionsRight(t, resolutions) && resolutions.Keys == codes
    ensures resolutions == ResolveAll(codes, t.resolve)
  {
  }

  lemma LookupAgrees(e: Env, fails: map<Call, string>, code: string)
    requires LookupsHold(TruthOf(e), fails)
    ensures LookupOne(e, fails, Stocks(e), code) == TruthOf(e).resolve(code)
  {
    assert TruthOf(e).resolve(code) == LookupOne(e, NO_FAILURES, Stocks(e), code);
    hide TruthOf, Stocks, ResolveFrom, IsExternalCode;
  }

  lemma UnknownIs(e: Env, key: Key)
    requires key.tag.Session? && key.dataset == Daily
    ensures TruthOf(e).unknown(key.tag.date) == UnknownCodes(Stocks(e), MarketRows(e, key))
  {
    hide Stocks, UnknownCodes, Sessions, CalendarRows;
  }

  /** Lookups only add right resolutions: none fails that a clean build gets decided. */
  lemma LookupsRight(e: Env, a: Attempt, w: Work, key: Key)
    requires key.dataset == Daily && key.tag.Session? && key.tag.date in TruthOf(e).dates
    requires LookupsHold(TruthOf(e), a.fails)
    requires ResolutionsRight(TruthOf(e), w.m.resolutions)
    ensures var after := ResolveDay(e, a, Stocks(e), w, key);
      && ResolutionsRight(TruthOf(e), after.m.resolutions)
      && after.m.resolutions.Keys == w.m.resolutions.Keys + TruthOf(e).unknown(key.tag.date)
  {
    UnknownIs(e, key);
    hide TruthOf, LookupOne, LookupsHold, Stocks, UnknownCodes, MarketRows;
    var t := TruthOf(e);
    var after := ResolveDay(e, a, Stocks(e), w, key);
    forall code | code in after.m.resolutions
      ensures code in All(t.dates, t.unknown) && after.m.resolutions[code] == t.resolve(code)
    {
      if code !in w.m.resolutions {
        assert code in t.unknown(key.tag.date);
        LookupAgrees(e, a.fails, code);
      }
    }
  }

  /** The two requests that precede the sessions read neither stocks nor sessions. */
  lemma RangeContent(e: Env, stocks: seq<Row>, sessions: seq<string>, resolutions: map<string, Resolution>, key: Key)
    requires key == STOCK_KEY || key == CALENDAR_KEY || (key == BENCHMARK_KEY && sessions == TruthOf(e).dates)
    ensures FreshRows(e, stocks, sessions, resolutions, key) == TruthOf(e).content(key)
    ensures AuditFor(e, stocks, resolutions, key) == TruthOf(e).audit(key)
  {
    hide Dedup, Checked, CalendarCovers, CoversSessions, Stocks, Sessions, CalendarRows, UnknownCodes, Known, Filtered, LookupOne;
    var t := TruthOf(e);
    assert t.content(key) == Content(e, t.dates, t.unknown, key);
    assert t.audit(key) == AuditFor(e, Stocks(e), Known(e, t.dates, t.unknown, key), key);
  }

  /** After the day's lookups, an answered fetch yields the content of partition `key`. */
  ghost predicate Fits(e: Env, stocks: seq<Row>, sessions: seq<string>, w: Work, resolved: Work, key: Key, seen: set<string>) {
    var t := TruthOf(e);
    && resolved.m.partitions == w.m.partitions && resolved.files == w.files
    && ResolutionsRight(t, resolved.m.resolutions)
    && w.m.resolutions.Keys <= resolved.m.resolutions.Keys == seen
    && FreshRows(e, stocks, sessions, resolved.m.resolutions, key) == t.content(key)
    && AuditFor(e, stocks, resolved.m.resolutions, key) == t.audit(key)
  }

  /** At position `r`, at or behind where the previous manifest ended, fetches fit. */
  lemma FetchedRight(e: Env, a: Attempt, stocks: seq<Row>, sessions: seq<string>, w: Work, r: nat, k: nat)
    requires var t := TruthOf(e); Standing(t, a, w, r, k) && r < PlanLength(t) && k <= r
    requires LookupsHold(TruthOf(e), a.fails)
    requires r >= 2 ==> stocks == Stocks(e) && sessions == TruthOf(e).dates
    ensures var t, key := TruthOf(e), PlanKey(TruthOf(e), r);
      Fits(e, stocks, sessions, w, ResolveDay(e, a, stocks, w, key), key, SeenAt(t, r))
  {
    hide TruthOf, Fits, Standing, LookupsHold, Stocks, ResolveDay, SeenAt;
    var t, key := TruthOf(e), PlanKey(TruthOf(e), r);
    if IsMarket(key.dataset) {
      var i := DayAt(t, r);
      LooksUpDaily(e, a, stocks, w, key);
      if key.dataset == Daily {
        DailyFetched(e, a, w, key, i, k);
      } else {
        FactorFetched(e, a, w, key, i, k);
      }
    } else {
      RangeFits(e, a, stocks, sessions, w, r, k);
    }
  }

  lemma LooksUpDaily(e: Env, a: Attempt, stocks: seq<Row>, w: Work, key: Key)
    ensures key.dataset != Daily ==> ResolveDay(e, a, stocks, w, key) == w
  {
  }

  lemma DayAt(t: Truth, r: nat) returns (i: nat)
    requires r < PlanLength(t) && IsMarket(PlanKey(t, r).dataset)
    ensures i < |t.dates|
    ensures (r == 2 * i + 2 && PlanKey(t, r) == Key(Daily, Session(t.dates[i])))
         || (r == 2 * i + 3 && PlanKey(t, r) == Key(AdjFactor, Session(t.dates[i])))
  {
    i := (r - 2) / 2;
  }

  lemma RangeFits(e: Env, a: Attempt, stocks: seq<Row>, sessions: seq<string>, w: Work, r: nat, k: nat)
    requires var t := TruthOf(e); Standing(t, a, w, r, k) && r < PlanLength(t) && k <= r
    requires !IsMarket(PlanKey(TruthOf(e), r).dataset)
    requires r >= 2 ==> sessions == TruthOf(e).dates
    ensures var t, key := TruthOf(e), PlanKey(TruthOf(e), r);
      Fits(e, stocks, sessions, w, ResolveDay(e, a, stocks, w, key), key, SeenAt(t, r))
  {
    var t, key := TruthOf(e), PlanKey(TruthOf(e), r);
    RangeFetched(e, a, w, r, k);
    RangeContent(e, stocks, sessions, w.m.resolutions, key);
  }

  lemma RangeFetched(e: Env, a: Attempt, w: Work, r: nat, k: nat)
    requires var t := TruthOf(e); Standing(t, a, w, r, k) && r < PlanLength(t) && k <= r
    requires !IsMarket(PlanKey(TruthOf(e), r).dataset)
    ensures w.m.resolutions.Keys == SeenAt(TruthOf(e), r)
  {
    var t := TruthOf(e);
    SeenGrows(t, k, r);
    if r >= 2 { SeenCovered(t, w.m, r, |t.dates|); }
  }

  lemma DailyContent(e: Env, key: Key, resolutions: map<string, Resolution>)
    requires key.dataset == Daily && key.tag.Session? && key.tag.date in TruthOf(e).dates
    requires ResolutionsRight(TruthOf(e), resolutions)
    requires TruthOf(e).unknown(key.tag.date) <= resolutions.Keys
    ensures FreshRows(e, Stocks(e), TruthOf(e).dates, resolutions, key) == TruthOf(e).content(key)
    ensures AuditFor(e, Stocks(e), resolutions, key) == TruthOf(e).audit(key)
  {
    var t := TruthOf(e);
    DailyFilter(e, key, resolutions);
    assert t.content(key) == FreshRows(e, Stocks(e), t.dates, Known(e, t.dates, t.unknown, key), key);
  }

  lemma DailyFetched(e: Env, a: Attempt, w: Work, key: Key, i: nat, k: nat)
    requires var t := TruthOf(e);
      i < |t.dates| && key == Key(Daily, Session(t.dates[i])) && k <= 2 * i + 2 && Standing(t, a, w, 2 * i + 2, k)
    requires LookupsHold(TruthOf(e), a.fails)
    ensures var t := TruthOf(e);
      Fits(e, Stocks(e), t.dates, w, ResolveDay(e, a, Stocks(e), w, key), key, SeenAt(t, 2 * i + 2))
  {
    var t := TruthOf(e);
    SeenBeforeDay(t, a, w, i, k);
    assert ResolutionsRight(t, w.m.resolutions);
    LookupsRight(e, a, w, key);
    DailyContent(e, key, ResolveDay(e, a, Stocks(e), w, key).m.resolutions);
  }

  lemma SeenBeforeDay(t: Truth, a: Attempt, w: Work, i: nat, k: nat)
    requires i < |t.dates| && k <= 2 * i + 2
    requires Standing(t, a, w, 2 * i + 2, k)
    ensures w.m.resolutions.Keys + t.unknown(t.dates[i]) == SeenAt(t, 2 * i + 2)
  {
    SeenGrows(t, k, 2 * i + 2);
    SeenCovered(t, w.m, 2 * i + 2, i);
    assert SeenAt(t, 2 * i + 2) == Seen(t.dates, t.unknown, i) + t.unknown(t.dates[i]);
  }

  lemma FactorFetched(e: Env, a: Attempt, w: Work, key: Key, i: nat, k: nat)
    requires var t := TruthOf(e);
      i < |t.dates| && key == Key(AdjFactor, Session(t.dates[i])) && k <= 2 * i + 3 && Standing(t, a, w, 2 * i + 3, k)
    ensures var t := TruthOf(e);
      Fits(e, Stocks(e), t.dates, w, w, key, SeenAt(t, 2 * i + 3))
  {
    var t := TruthOf(e);
    SeenAfterDay(t, a, w, i, k);
    SortSorted(OpenDates(CalendarRows(e)));
    SeenIsUpTo(t.dates, t.unknown, i);
    RightMapsAgree(t, w.m.resolutions, UpTo(t.dates, t.unknown, t.dates[i]));
    FactorContent(e, key, w.m.resolutions);
  }

  lemma SeenAfterDay(t: Truth, a: Attempt, w: Work, i: nat, k: nat)
    requires i < |t.dates| && k <= 2 * i + 3
    requires Standing(t, a, w, 2 * i + 3, k)
    ensures w.m.resolutions.Keys == SeenAt(t, 2 * i + 3) == Seen(t.dates, t.unknown, i + 1)
    ensures ResolutionsRight(t, w.m.resolutions)
  {
    SeenGrows(t, k, 2 * i + 3);
    SeenCovered(t, w.m, 2 * i + 3, i + 1);
  }

  lemma FactorContent(e: Env, key: Key, resolutions: map<string, Resolution>)
    requires var t := TruthOf(e);
      key.dataset == AdjFactor && key.tag.Session? && key.tag.date in t.dates
      && resolutions == ResolveAll(UpTo(t.dates, t.unknown, key.tag.date), t.resolve)
    ensures FreshRows(e, Stocks(e), TruthOf(e).dates, resolutions, key) == TruthOf(e).content(key)
    ensures AuditFor(e, Stocks(e), resolutions, key) == TruthOf(e).audit(key)
  {
    var t := TruthOf(e);
    assert resolutions == Known(e, t.dates, t.unknown, key);
    assert t.content(key) == FreshRows(e, Stocks(e), t.dates, Known(e, t.dates, t.unknown, key), key);
  }

  lemma RightEntryValid(t: Truth, files: map<Key, Table>, entry: Entry)
    requires Faithful(t, files) && EntryRight(t, entry) && entry.key in files && entry.key != NAMES_KEY
    ensures PartitionValid(files, entry, entry.key)
    ensures files[entry.key].rows == t.content(entry.key).value
  {
  }

  /** A right entry over a faithful directory is always accepted for reuse. */
  lemma ReuseAccepted(e: Env, a: Attempt, files: map<Key, Table>, sessions: seq<string>, k: nat, key: Key)
    requires Resumes(TruthOf(e), a, files, k) && Faithful(TruthOf(e), files)
    requires key != NAMES_KEY
    requires key.dataset == Benchmark ==> sessions == TruthOf(e).dates
    ensures Reusable(e, a, files, sessions, key) <==> key in a.previous
  {
    hide TruthOf, PartitionValid, CalendarCovers, CoversSessions, Faithful;
    if key in a.previous {
      RightEntryValid(TruthOf(e), files, a.previous[key]);
      if key.dataset == Calendar || key.dataset == Benchmark {
        RangeCovers(e, sessions, key);
      }
    }
  }

  /** The content of a range request covers what is asked. */
  lemma RangeCovers(e: Env, sessions: seq<string>, key: Key)
    requires key.dataset == Calendar || key.dataset == Benchmark
    requires key.dataset == Benchmark ==> sessions == TruthOf(e).dates
    requires TruthOf(e).content(key).Success?
    ensures key.dataset == Calendar ==> CalendarCovers(TruthOf(e).content(key).value, e.config.start, e.config.end)
    ensures key.dataset == Benchmark ==> CoversSessions(TruthOf(e).content(key).value, sessions)
  {
    assert TruthOf(e).content(key) == Content(e, TruthOf(e).dates, TruthOf(e).unknown, key);
    assert key == CALENDAR_KEY || key == BENCHMARK_KEY;
    RangeContent(e, [], sessions, map[], key);
    hide TruthOf, FreshRows, CalendarCovers, CoversSessions;
    FreshCovers(e, sessions, key);
  }

  lemma FreshCovers(e: Env, sessions: seq<string>, key: Key)
    requires key == CALENDAR_KEY || key == BENCHMARK_KEY
    ensures var rows := FreshRows(e, [], sessions, map[], key);
      rows.Success? ==>
        && (key == CALENDAR_KEY ==> CalendarCovers(rows.value, e.config.start, e.config.end))
        && (key == BENCHMARK_KEY ==> CoversSessions(rows.value, sessions))
  {
    hide Dedup, CalendarCovers, CoversSessions, RowIssue;
  }

  // ----- One required step

  /** Where a required step leads: on to the next position, or to a stop at this one. */
  ghost predicate StepsTo(t: Truth, a: Attempt, w: Work, next: Work, r: nat, k: nat)
    requires r < PlanLength(t)
  {
    && w.files.Keys <= next.files.Keys
    && (next.stopped.None? ==> Standing(t, a, next, r + 1, k) && t.content(PlanKey(t, r)).Success?)
    && (next.stopped.Some? ==> HaltedAt(t, a, next, r, k))
  }

  /** Stopped at position `r`; if no fetch failed, the content itself is the reason. */
  ghost predicate HaltedAt(t: Truth, a: Attempt, w: Work, r: nat, k: nat) {
    && k <= r < PlanLength(t)
    && w.stopped.Some?
    && Standing(t, a, w, r, k)
    && (a.fails == NO_FAILURES ==> t.content(PlanKey(t, r)) == Failure(w.stopped.value) && SeenAt(t, r) <= w.m.resolutions.Keys)
  }

  lemma FetchLeads(e: Env, a: Attempt, stocks: seq<Row>, sessions: seq<string>, w: Work, r: nat, k: nat)
    requires var t := TruthOf(e);
      Resumes(t, a, w.files, k) && Standing(t, a, w, r, k) && r < PlanLength(t) && k <= r && w.stopped.None?
    requires r >= 2 ==> stocks == Stocks(e) && sessions == TruthOf(e).dates
    ensures StepsTo(TruthOf(e), a, w, Fetched(e, a, stocks, sessions, w, PlanKey(TruthOf(e), r)), r, k)
  {
    FetchedRight(e, a, stocks, sessions, w, r, k);
    hide TruthOf, ResolveDay, NoteAbsent, FreshRows, AuditFor;
    var t, key := TruthOf(e), PlanKey(TruthOf(e), r);
    FittingLeads(t, a, w, ResolveDay(e, a, stocks, w, key), r, k);
  }

  /** Settling what the provider determines moves on, or halts for the content's own reason. */
  lemma FittingLeads(t: Truth, a: Attempt, w: Work, resolved: Work, r: nat, k: nat)
    requires Standing(t, a, w, r, k) && r < PlanLength(t) && k <= r && w.stopped.None? && resolved.stopped.None?
    requires resolved.m.partitions == w.m.partitions && resolved.files == w.files && ResolutionsRight(t, resolved.m.resolutions)
    requires w.m.resolutions.Keys <= resolved.m.resolutions.Keys == SeenAt(t, r)
    ensures var key := PlanKey(t, r);
      StepsTo(t, a, w, Settle(NoteAbsent(a, resolved, key, t.audit(key)), key, t.content(key), t.audit(key)), r, k)
  {
    hide PlanKey, SeenAt;
    var key := PlanKey(t, r);
    var noted := NoteAbsent(a, resolved, key, t.audit(key));
    NoteMovesNothing(a, resolved, key, t.audit(key));
    hide NoteAbsent;
    if t.content(key).Success? {
      WriteStands(t, a, w, noted, r, k);
    }
  }

  lemma NoteMovesNothing(a: Attempt, w: Work, key: Key, audit: Option<Audit>)
    ensures var noted := NoteAbsent(a, w, key, audit);
      && noted.files == w.files && noted.stopped == w.stopped
      && noted.m.partitions == w.m.partitions && noted.m.resolutions == w.m.resolutions
  {
  }

  lemma RequiredStepLeads(e: Env, a: Attempt, stocks: seq<Row>, sessions: seq<string>, w: Work, r: nat, k: nat)
    requires var t := TruthOf(e);
      Resumes(t, a, w.files, k) && Standing(t, a, w, r, k) && r < PlanLength(t) && w.stopped.None?
    requires r >= 2 ==> stocks == Stocks(e) && sessions == TruthOf(e).dates
    ensures StepsTo(TruthOf(e), a, w, RequiredStep(e, a, stocks, sessions, w, PlanKey(TruthOf(e), r)), r, k)
  {
    var t, key := TruthOf(e), PlanKey(TruthOf(e), r);
    ReuseAccepted(e, a, w.files, sessions, k, key);
    if key in a.previous {
      ReuseStands(t, a, w, r, k);
    } else if CallFor(w.m.partitions, w.m.failed, key) in a.fails {
    } else {
      FetchLeads(e, a, stocks, sessions, w, r, k);
    }
  }

  // ----- The required part as a whole

  /** What the previous manifest and the directory give an attempt. */
  ghost predicate Ready(t: Truth, a: Attempt, files: map<Key, Table>, k: nat) {
    && Resumes(t, a, files, k)
    && Faithful(t, files)
    && ResolutionsRight(t, a.resolutions)
    && a.resolutions.Keys <= SeenAt(t, k)
  }

  /** Why a build without failing fetches stops at position `r`. */
  ghost predicate Reason(t: Truth, r: nat, error: Error) {
    if r < PlanLength(t) then t.content(PlanKey(t, r)) == Failure(error)
    else t.dates == [] && error == NoOpenSessions
  }

  /** The required part has come to position `r` and either goes on from there or stopped. */
  ghost predicate ComesTo(e: Env, a: Attempt, files: map<Key, Table>, w: Work, r: nat, k: nat) {
    var t := TruthOf(e);
    && files.Keys <= w.files.Keys
    && Standing(t, a, w, r, k)
    && (w.stopped.Some? ==> k <= r)
    && (w.stopped.Some? && a.fails == NO_FAILURES ==> Reason(t, r, w.stopped.value) && SeenAt(t, r) <= w.m.resolutions.Keys)
  }

  /** The derived manifest fields, by position. */
  ghost predicate DerivedAt(e: Env, w: Work, r: nat) {
    RecordsAt(e, w.m, r)
  }

  ghost predicate RecordsAt(e: Env, m: Manifest, r: nat) {
    var t := TruthOf(e);
    && m.master == (if r >= 1 then Stocks(e) else [])
    && m.calendar == (if r >= 2 && t.dates != [] then CalendarRows(e) else [])
    && SameRest(m, FreshManifest(map[]).(master := m.master, calendar := m.calendar, benchmarkRows := m.benchmarkRows))
  }

  /** A required step from `r`, where the build has not stopped, comes to `r` or `r + 1`. */
  lemma StepComes(e: Env, a: Attempt, files: map<Key, Table>, stocks: seq<Row>, sessions: seq<string>, w: Work, r: nat, k: nat)
    returns (q: nat)
    requires Resumes(TruthOf(e), a, files, k) && r < PlanLength(TruthOf(e))
    requires ComesTo(e, a, files, w, r, k) && w.stopped.None?
    requires r >= 2 ==> stocks == Stocks(e) && sessions == TruthOf(e).dates
    ensures var next := RequiredStep(e, a, stocks, sessions, w, PlanKey(TruthOf(e), r));
      ComesTo(e, a, files, next, q, k) && q == if next.stopped.None? then r + 1 else r
  {
    var t := TruthOf(e);
    var next := RequiredStep(e, a, stocks, sessions, w, PlanKey(t, r));
    assert Resumes(t, a, w.files, k);
    RequiredStepLeads(e, a, stocks, sessions, w, r, k);
    q := if next.stopped.None? then r + 1 else r;
  }

  lemma ContentIsRead(t: Truth, w: Work, key: Key)
    requires Faithful(t, w.files) && key in w.files && key != NAMES_KEY && w.stopped.None?
    ensures t.content(key).Success? && RowsAt(w, key) == t.content(key).value
  {
  }

  lemma LastIsThere(t: Truth, a: Attempt, w: Work, r: nat, k: nat)
    requires Standing(t, a, w, r + 1, k) && r < PlanLength(t)
    ensures PlanKey(t, r) in w.files
  {
    assert w.m.partitions[r] in w.m.partitions;
  }

  /** Recording derived fields does not move the build. */
  lemma DerivedMoveNothing(e: Env, a: Attempt, files: map<Key, Table>, w: Work, v: Work, r: nat, k: nat)
    requires ComesTo(e, a, files, w, r, k)
    requires v.files == w.files && v.stopped == w.stopped
    requires v.m.partitions == w.m.partitions && v.m.resolutions == w.m.resolutions
    ensures ComesTo(e, a, files, v, r, k)
  {
  }

  lemma MasterComes(e: Env, a: Attempt, files: map<Key, Table>, k: nat) returns (r: nat)
    requires Ready(TruthOf(e), a, files, k)
    ensures var w := MasterPhase(e, a, files);
      ComesTo(e, a, files, w, r, k) && DerivedAt(e, w, r) && w.m.benchmarkRows == 0
      && (w.stopped.None? ==> r == 1) && (w.stopped.Some? ==> r == 0)
  {
    hide RequiredStep, ComesTo, Ready, Resumes, TruthOf, Stocks, RowsAt;
    var start := Work(files, FreshManifest(a.resolutions), None);
    StartComes(e, a, files, k);
    ReadyResumes(TruthOf(e), a, files, k);
    MasterStep(e, a, files, start, k);
    var w := RequiredStep(e, a, [], [], start, STOCK_KEY);
    r := if w.stopped.None? then 1 else 0;
    DerivedMoveNothing(e, a, files, w, MasterPhase(e, a, files), r, k);
  }

  lemma MasterStep(e: Env, a: Attempt, files: map<Key, Table>, start: Work, k: nat)
    requires Resumes(TruthOf(e), a, files, k)
    requires ComesTo(e, a, files, start, 0, k) && start.stopped.None?
    ensures var w := RequiredStep(e, a, [], [], start, STOCK_KEY);
      && ComesTo(e, a, files, w, if w.stopped.None? then 1 else 0, k)
      && SameRest(start.m, w.m)
      && RowsAt(w, STOCK_KEY) == if w.stopped.None? then Stocks(e) else []
  {
    hide RequiredStep, Resumes;
    var r := StepComes(e, a, files, [], [], start, 0, k);
    StepKeepsRest(e, a, [], [], start, STOCK_KEY);
    var w := RequiredStep(e, a, [], [], start, STOCK_KEY);
    if w.stopped.None? {
      MasterIsRead(e, a, w, k);
    }
  }

  lemma StartComes(e: Env, a: Attempt, files: map<Key, Table>, k: nat)
    requires Ready(TruthOf(e), a, files, k)
    ensures ComesTo(e, a, files, Work(files, FreshManifest(a.resolutions), None), 0, k)
  {
  }

  lemma MasterIsRead(e: Env, a: Attempt, w: Work, k: nat)
    requires Standing(TruthOf(e), a, w, 1, k) && w.stopped.None?
    ensures RowsAt(w, STOCK_KEY) == Stocks(e)
  {
    var t := TruthOf(e);
    LastIsThere(t, a, w, 0, k);
    ContentIsRead(t, w, STOCK_KEY);
    RangeContent(e, [], [], map[], STOCK_KEY);
  }

  lemma CalendarComes(e: Env, a: Attempt, files: map<Key, Table>, k: nat) returns (r: nat)
    requires Ready(TruthOf(e), a, files, k)
    ensures var w := CalendarPhase(e, a, MasterPhase(e, a, files));
      ComesTo(e, a, files, w, r, k) && DerivedAt(e, w, r) && w.m.benchmarkRows == 0
      && (w.stopped.None? ==> r == 2 && TruthOf(e).dates != [])
      && (w.stopped.Some? ==> r <= 1 || TruthOf(e).dates == [])
  {
    hide MasterPhase, CalendarPhase, ComesTo, DerivedAt, Ready, TruthOf;
    r := MasterComes(e, a, files, k);
    var w := MasterPhase(e, a, files);
    if w.stopped.None? {
      ReadyResumes(TruthOf(e), a, files, k);
      r := CalendarFollows(e, a, files, w, k);
    } else {
      CalendarSkipped(e, a, w);
    }
  }

  lemma CalendarSkipped(e: Env, a: Attempt, w: Work)
    requires w.stopped.Some?
    ensures CalendarPhase(e, a, w) == w
  {
    hide RequiredStep;
    StoppedStays(e, a, w.m.master, [], w, CALENDAR_KEY);
  }

  lemma CalendarDerived(e: Env, m: Manifest, read: Manifest)
    requires RecordsAt(e, m, 1) && SameRest(m, read)
    ensures RecordsAt(e, read, 1)
    ensures TruthOf(e).dates == [] ==> RecordsAt(e, read, 2)
    ensures TruthOf(e).dates != [] ==> RecordsAt(e, read.(calendar := CalendarRows(e)), 2)
  {
    hide TruthOf, Stocks, CalendarRows;
  }

  lemma CalendarFollows(e: Env, a: Attempt, files: map<Key, Table>, w: Work, k: nat) returns (r: nat)
    requires Resumes(TruthOf(e), a, files, k) && ComesTo(e, a, files, w, 1, k) && w.stopped.None?
    requires DerivedAt(e, w, 1) && w.m.benchmarkRows == 0
    ensures var next := CalendarPhase(e, a, w);
      ComesTo(e, a, files, next, r, k) && DerivedAt(e, next, r) && next.m.benchmarkRows == 0
      && (next.stopped.None? ==> r == 2 && TruthOf(e).dates != [])
      && (next.stopped.Some? ==> r <= 1 || TruthOf(e).dates == [])
  {
    DatesAreSessions(e);
    r := CalendarReads(e, a, files, w, k);
    StepKeepsRest(e, a, w.m.master, [], w, CALENDAR_KEY);
    var read := RequiredStep(e, a, w.m.master, [], w, CALENDAR_KEY);
    assert k <= PlanLength(TruthOf(e));
    CalendarDerived(e, w.m, read.m);
    hide TruthOf, RequiredStep, Stocks, CalendarRows, ComesTo, RowsAt, Sessions, Resumes, PlanLength, SameRest, RecordsAt;
    if read.stopped.None? {
      if TruthOf(e).dates == [] {
        NoSessionsHalts(e, a, files, read, k);
      } else {
        DerivedMoveNothing(e, a, files, read, read.(m := read.m.(calendar := CalendarRows(e))), r, k);
      }
    }
  }

  lemma ReadyResumes(t: Truth, a: Attempt, files: map<Key, Table>, k: nat)
    requires Ready(t, a, files, k)
    ensures Resumes(t, a, files, k)
  {
  }

  lemma CalendarReads(e: Env, a: Attempt, files: map<Key, Table>, w: Work, k: nat) returns (r: nat)
    requires Resumes(TruthOf(e), a, files, k) && ComesTo(e, a, files, w, 1, k) && w.stopped.None?
    ensures var read := RequiredStep(e, a, w.m.master, [], w, CALENDAR_KEY);
      && ComesTo(e, a, files, read, r, k) && r == (if read.stopped.None? then 2 else 1)
      && (read.stopped.None? ==> RowsAt(read, CALENDAR_KEY) == CalendarRows(e))
  {
    hide RequiredStep, Resumes;
    r := StepComes(e, a, files, w.m.master, [], w, 1, k);
    var read := RequiredStep(e, a, w.m.master, [], w, CALENDAR_KEY);
    if read.stopped.None? {
      LastIsThere(TruthOf(e), a, read, 1, k);
      ContentIsRead(TruthOf(e), read, CALENDAR_KEY);
      RangeContent(e, [], [], map[], CALENDAR_KEY);
    }
  }

  lemma NoSessionsHalts(e: Env, a: Attempt, files: map<Key, Table>, read: Work, k: nat)
    requires ComesTo(e, a, files, read, 2, k) && read.stopped.None? && TruthOf(e).dates == [] && k <= PlanLength(TruthOf(e))
    ensures ComesTo(e, a, files, Stop(read, NoOpenSessions), 2, k)
  {
    assert PlanLength(TruthOf(e)) == 2;
    hide TruthOf;
  }

  lemma {:induction false} DaysCome(e: Env, a: Attempt, files: map<Key, Table>, w: Work, i: nat, k: nat) returns (r: nat)
    requires Resumes(TruthOf(e), a, files, k) && i <= |TruthOf(e).dates|
    requires ComesTo(e, a, files, w, 2, k) && w.stopped.None?
    ensures var next := DaysPhase(e, a, Stocks(e), TruthOf(e).dates, w, i);
      && ComesTo(e, a, files, next, r, k) && r >= 2
      && (next.stopped.None? ==> r == 2 + 2 * i)
      && SameRest(w.m, next.m)
  {
    hide ComesTo, Resumes, RequiredStep, TruthOf;
    if i == 0 {
      r := 2;
    } else {
      r := DaysCome(e, a, files, w, i - 1, k);
      var t := TruthOf(e);
      var before := DaysPhase(e, a, Stocks(e), t.dates, w, i - 1);
      var daily, factor := Key(Daily, Session(t.dates[i - 1])), Key(AdjFactor, Session(t.dates[i - 1]));
      var between := RequiredStep(e, a, Stocks(e), t.dates, before, daily);
      StepKeepsRest(e, a, Stocks(e), t.dates, before, daily);
      StepKeepsRest(e, a, Stocks(e), t.dates, between, factor);
      if before.stopped.None? {
        r := DayComes(e, a, files, before, i - 1, k);
      } else {
        StoppedStays(e, a, Stocks(e), t.dates, before, daily);
        StoppedStays(e, a, Stocks(e), t.dates, between, factor);
      }
    }
  }

  lemma DayComes(e: Env, a: Attempt, files: map<Key, Table>, w: Work, i: nat, k: nat) returns (r: nat)
    requires Resumes(TruthOf(e), a, files, k) && i < |TruthOf(e).dates|
    requires ComesTo(e, a, files, w, 2 + 2 * i, k) && w.stopped.None?
    ensures var t := TruthOf(e);
      && PlanKey(t, 2 + 2 * i) == Key(Daily, Session(t.dates[i]))
      && PlanKey(t, 3 + 2 * i) == Key(AdjFactor, Session(t.dates[i]))
      && var next := RequiredStep(e, a, Stocks(e), t.dates,
           RequiredStep(e, a, Stocks(e), t.dates, w, PlanKey(t, 2 + 2 * i)), PlanKey(t, 3 + 2 * i));
         ComesTo(e, a, files, next, r, k) && r >= 2 && (next.stopped.None? ==> r == 4 + 2 * i)
  {
    hide ComesTo, Resumes, RequiredStep, TruthOf;
    var t := TruthOf(e);
    r := StepComes(e, a, files, Stocks(e), t.dates, w, 2 + 2 * i, k);
    var daily := RequiredStep(e, a, Stocks(e), t.dates, w, PlanKey(t, 2 + 2 * i));
    if daily.stopped.None? {
      r := StepComes(e, a, files, Stocks(e), t.dates, daily, 3 + 2 * i, k);
    } else {
      StoppedStays(e, a, Stocks(e), t.dates, daily, PlanKey(t, 3 + 2 * i));
    }
  }

  lemma StoppedStays(e: Env, a: Attempt, stocks: seq<Row>, sessions: seq<string>, w: Work, key: Key)
    requires w.stopped.Some?
    ensures RequiredStep(e, a, stocks, sessions, w, key) == w
  {
  }

  ghost predicate BenchmarkIs(t: Truth, rows: nat) {
    t.content(BENCHMARK_KEY).Success? && rows == |t.content(BENCHMARK_KEY).value|
  }

  /** The required part ends at some position `r`; it has listed exactly the first `r`
      required partitions, each with the content the provider determines. */
  ghost predicate EndsAt(e: Env, a: Attempt, files: map<Key, Table>, w: Work, r: nat, k: nat) {
    var t := TruthOf(e);
    && ComesTo(e, a, files, w, r, k)
    && DerivedAt(e, w, r)
    && (w.stopped.None? ==> r == PlanLength(t) && t.dates != [] && BenchmarkIs(t, w.m.benchmarkRows))
    && (w.stopped.Some? ==> w.m.benchmarkRows == 0)
  }

  lemma RequiredEnds(e: Env, a: Attempt, files: map<Key, Table>, k: nat) returns (r: nat)
    requires Ready(TruthOf(e), a, files, k)
    ensures EndsAt(e, a, files, Required(e, a, files), r, k)
  {
    hide RequiredStep, ComesTo, CalendarPhase, MasterPhase, DaysPhase, BenchmarkPhase;
    var t := TruthOf(e);
    r := CalendarComes(e, a, files, k);
    var w := CalendarPhase(e, a, MasterPhase(e, a, files));
    if w.stopped.Some? {
      HaltedEarly(e, a, files, w, r);
    } else {
      r := TailEnds(e, a, files, w, k);
    }
  }

  lemma HaltedEarly(e: Env, a: Attempt, files: map<Key, Table>, w: Work, r: nat)
    requires w == CalendarPhase(e, a, MasterPhase(e, a, files)) && w.stopped.Some?
    requires DerivedAt(e, w, r) && (r <= 1 || TruthOf(e).dates == [])
    ensures Required(e, a, files) == w
  {
    hide RequiredStep, CalendarPhase, MasterPhase;
    assert w.m.calendar == [];
    StoppedStays(e, a, w.m.master, [], w, BENCHMARK_KEY);
  }

  lemma TailEnds(e: Env, a: Attempt, files: map<Key, Table>, w: Work, k: nat) returns (r: nat)
    requires Resumes(TruthOf(e), a, files, k) && TruthOf(e).dates != []
    requires ComesTo(e, a, files, w, 2, k) && w.stopped.None? && DerivedAt(e, w, 2) && w.m.benchmarkRows == 0
    ensures var t := TruthOf(e);
      && w.m.master == Stocks(e) && Sessions(w.m.calendar) == t.dates
      && EndsAt(e, a, files, BenchmarkPhase(e, a, Stocks(e), t.dates, DaysPhase(e, a, Stocks(e), t.dates, w, |t.dates|)), r, k)
  {
    DatesAreSessions(e);
    hide RequiredStep, ComesTo, Resumes, TruthOf, DaysPhase, CalendarRows, Stocks, BenchmarkPhase, SameRest, Sessions, EndsAt;
    var t := TruthOf(e);
    r := DaysCome(e, a, files, w, |t.dates|, k);
    var days := DaysPhase(e, a, Stocks(e), t.dates, w, |t.dates|);
    TailDerived(e, w, days);
    r := BenchmarkEnds(e, a, files, days, r, k);
  }

  lemma DatesAreSessions(e: Env)
    ensures TruthOf(e).dates == Sessions(CalendarRows(e))
  {
    hide Sessions, CalendarRows, Stocks;
  }

  /** The derived fields once the sessions are known. */
  ghost predicate DerivedSince(e: Env, m: Manifest) {
    && m.master == Stocks(e) && m.calendar == CalendarRows(e) && m.benchmarkRows == 0
    && SameRest(m, FreshManifest(map[]).(master := m.master, calendar := m.calendar, benchmarkRows := m.benchmarkRows))
  }

  lemma TailDerived(e: Env, w: Work, days: Work)
    requires DerivedAt(e, w, 2) && TruthOf(e).dates != [] && w.m.benchmarkRows == 0 && SameRest(w.m, days.m)
    ensures DerivedSince(e, w.m) && DerivedSince(e, days.m)
  {
    hide TruthOf, Stocks, CalendarRows;
  }

  lemma BenchmarkEnds(e: Env, a: Attempt, files: map<Key, Table>, days: Work, r: nat, k: nat) returns (q: nat)
    requires Resumes(TruthOf(e), a, files, k) && TruthOf(e).dates != [] && DerivedSince(e, days.m)
    requires ComesTo(e, a, files, days, r, k) && r >= 2 && (days.stopped.None? ==> r == 2 + 2 * |TruthOf(e).dates|)
    ensures EndsAt(e, a, files, BenchmarkPhase(e, a, Stocks(e), TruthOf(e).dates, days), q, k)
  {
    hide RequiredStep, ComesTo, Resumes, TruthOf, CalendarRows, Stocks, RowsAt, BenchmarkIs;
    var t := TruthOf(e);
    var read := RequiredStep(e, a, Stocks(e), t.dates, days, BENCHMARK_KEY);
    if days.stopped.None? {
      q := BenchmarkComes(e, a, files, days, k);
      StepKeepsRest(e, a, Stocks(e), t.dates, days, BENCHMARK_KEY);
    } else {
      q := r;
      StoppedStays(e, a, Stocks(e), t.dates, days, BENCHMARK_KEY);
    }
    DerivedMoveNothing(e, a, files, read, BenchmarkPhase(e, a, Stocks(e), t.dates, days), q, k);
  }

  lemma BenchmarkComes(e: Env, a: Attempt, files: map<Key, Table>, w: Work, k: nat) returns (r: nat)
    requires Resumes(TruthOf(e), a, files, k) && TruthOf(e).dates != []
    requires ComesTo(e, a, files, w, 2 + 2 * |TruthOf(e).dates|, k) && w.stopped.None?
    ensures var t := TruthOf(e);
      var next := RequiredStep(e, a, Stocks(e), t.dates, w, BENCHMARK_KEY);
      && ComesTo(e, a, files, next, r, k) && r >= 2
      && (next.stopped.None? ==> r == PlanLength(t) && BenchmarkIs(t, |RowsAt(next, BENCHMARK_KEY)|))
  {
    var t := TruthOf(e);
    r := StepComes(e, a, files, Stocks(e), t.dates, w, 2 + 2 * |t.dates|, k);
    var next := RequiredStep(e, a, Stocks(e), t.dates, w, BENCHMARK_KEY);
    if next.stopped.None? {
      LastIsThere(t, a, next, 2 + 2 * |t.dates|, k);
      ContentIsRead(t, next, BENCHMARK_KEY);
    }
  }
}
