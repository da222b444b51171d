/** What an attempt at a build does not depend on: lookups that record what any lookup would,
    and files that no manifest lists; and which files it leaves alone whatever fails. */
module SnapshotFrames {
  import opened Outcomes
  import opened SnapshotRows
  import opened SnapshotModel
  import opened SnapshotResume
  import opened SnapshotOptional
  import opened SnapshotPoison

  // ----- Fetches other than lookups

  /** Two attempts that differ in failing lookups only. */
  ghost predicate SameFetches(a: Attempt, b: Attempt) {
    && a.previous == b.previous && a.resolutions == b.resolutions && a.now == b.now
    && forall call: Call :: !call.CallLookup? ==> (call in a.fails <==> call in b.fails)
  }

  lemma StepSame(e: Env, a: Attempt, b: Attempt, stocks: seq<Row>, sessions: seq<string>, w: Work, key: Key)
    requires SameFetches(a, b) && key.dataset != Daily
    ensures RequiredStep(e, a, stocks, sessions, w, key) == RequiredStep(e, b, stocks, sessions, w, key)
  {
    hide FreshRows, AuditFor, PartitionValid, CalendarCovers, CoversSessions, CallFor, TableFor, EntryFor, CountAt;
    NoLookup(w.m.partitions, w.m.failed, key);
  }

  lemma {:induction false} OptionalDaysSame(e: Env, a: Attempt, b: Attempt, stocks: seq<Row>, sessions: seq<string>, w: Work,
                                            dataset: Dataset, days: nat)
    requires SameFetches(a, b) && days <= |sessions| && IsOptionalMarket(dataset)
    ensures OptionalDays(e, a, stocks, sessions, w, dataset, days) == OptionalDays(e, b, stocks, sessions, w, dataset, days)
  {
    hide OptionalStep, SameFetches;
    if days > 0 {
      OptionalDaysSame(e, a, b, stocks, sessions, w, dataset, days - 1);
      var before := OptionalDays(e, a, stocks, sessions, w, dataset, days - 1);
      OptionalStepSame(e, a, b, stocks, sessions, before, SessionKey(dataset, sessions[days - 1]));
    }
  }

  lemma OptionalStepSame(e: Env, a: Attempt, b: Attempt, stocks: seq<Row>, sessions: seq<string>, w: Work, key: Key)
    requires SameFetches(a, b)
    ensures OptionalStep(e, a, stocks, sessions, w, key) == OptionalStep(e, b, stocks, sessions, w, key)
  {
    hide FreshRows, AuditFor, PartitionValid, CalendarCovers, CoversSessions, CallFor, TableFor, EntryFor;
    assert CallFor(w.m.partitions, w.m.failed, key) in a.fails <==> CallFor(w.m.partitions, w.m.failed, key) in b.fails by {
      NoLookup(w.m.partitions, w.m.failed, key);
    }
  }

  lemma NoLookup(partitions: seq<Entry>, failed: seq<FailureNote>, key: Key)
    ensures !CallFor(partitions, failed, key).CallLookup?
  {
  }

  lemma OptionalMarketSame(e: Env, a: Attempt, b: Attempt, stocks: seq<Row>, sessions: seq<string>, w: Work)
    requires SameFetches(a, b)
    ensures OptionalMarket(e, a, stocks, sessions, w) == OptionalMarket(e, b, stocks, sessions, w)
  {
    hide OptionalDays, Capable;
    OptionalDaysSame(e, a, b, stocks, sessions, w, DailyBasic, |sessions|);
    var basic := OptionalDataset(e, a, stocks, sessions, w, DailyBasic);
    OptionalDaysSame(e, a, b, stocks, sessions, basic, Suspend, |sessions|);
    OptionalDaysSame(e, a, b, stocks, sessions, OptionalDataset(e, a, stocks, sessions, basic, Suspend), Limits, |sessions|);
  }

  lemma {:induction false} RecordsSame(e: Env, a: Attempt, b: Attempt, codes: seq<string>)
    requires SameFetches(a, b)
    ensures NameRecords(e, a.fails, codes) == NameRecords(e, b.fails, codes)
  {
    if codes != [] {
      RecordsSame(e, a, b, codes[1..]);
    }
  }

  lemma {:induction false} ShardStepsSame(e: Env, a: Attempt, b: Attempt, shards: seq<seq<string>>, w: Work, count: nat)
    requires SameFetches(a, b) && count <= |shards|
    ensures ShardSteps(e, a, shards, w, count) == ShardSteps(e, b, shards, w, count)
  {
    hide NameRecords, Dedup, Checked, PartitionValid;
    if count > 0 {
      ShardStepsSame(e, a, b, shards, w, count - 1);
      RecordsSame(e, a, b, shards[count - 1]);
    }
  }

  lemma OptionalFetchesSame(e: Env, a: Attempt, b: Attempt, stocks: seq<Row>, sessions: seq<string>, w: Work)
    requires SameFetches(a, b)
    ensures NamesPhase(e, a, stocks, OptionalMarket(e, a, stocks, sessions, w))
      == NamesPhase(e, b, stocks, OptionalMarket(e, b, stocks, sessions, w))
  {
    hide OptionalMarket, ShardSteps, CombineNames, Symbols, Shards;
    OptionalMarketSame(e, a, b, stocks, sessions, w);
    var market := OptionalMarket(e, a, stocks, sessions, w);
    var shards := Shards(Symbols(e, stocks), ShardSize(e));
    var planned := market.(m := market.m.(names := market.m.names.(plannedSymbols := |Symbols(e, stocks)|, plannedShards := |shards|)));
    ShardStepsSame(e, a, b, shards, planned, |shards|);
  }

  // ----- Lookups that record what any lookup would

  /** The failures of an attempt without the lookups that would record something else than a
      clean build does. */
  function Harmless(e: Env, fails: map<Call, string>): map<Call, string> {
    map call | call in fails && (call.CallLookup? ==> LookupOne(e, fails, Stocks(e), call.code) == LookupOne(e, NO_FAILURES, Stocks(e), call.code))
      :: fails[call]
  }

  function Tamed(e: Env, a: Attempt): Attempt {
    a.(fails := Harmless(e, a.fails))
  }

  lemma TamedHolds(e: Env, a: Attempt)
    ensures SameFetches(a, Tamed(e, a)) && LookupsHold(TruthOf(e), Tamed(e, a).fails)
  {
    hide Stocks, ResolveFrom, IsExternalCode;
  }

  lemma RightLookup(e: Env, a: Attempt, code: string)
    requires LookupOne(e, a.fails, Stocks(e), code) == TruthOf(e).resolve(code)
    ensures LookupOne(e, a.fails, Stocks(e), code) == LookupOne(e, Tamed(e, a).fails, Stocks(e), code)
  {
    hide Stocks, ResolveFrom, IsExternalCode;
  }

  lemma DailySame(e: Env, a: Attempt, sessions: seq<string>, w: Work, key: Key)
    requires key.dataset == Daily
    requires ResolutionsRight(TruthOf(e), RequiredStep(e, a, Stocks(e), sessions, w, key).m.resolutions)
    ensures RequiredStep(e, a, Stocks(e), sessions, w, key) == RequiredStep(e, Tamed(e, a), Stocks(e), sessions, w, key)
  {
    TamedHolds(e, a);
    hide Stocks, TruthOf, Harmless, LookupOne, Reusable, UnknownCodes, MarketRows, Fetched, CallFor, WithLookups, ResolutionsRight;
    NoLookup(w.m.partitions, w.m.failed, key);
    ReusableAlike(e, a, Tamed(e, a), w.files, sessions, key);
    if w.stopped.None? && !Reusable(e, a, w.files, sessions, key) && CallFor(w.m.partitions, w.m.failed, key) !in a.fails {
      LookedUp(e, a, Stocks(e), sessions, w, key);
      LookupsSame(e, a, UnknownCodes(Stocks(e), MarketRows(e, key)), w.m.resolutions);
      FetchedSame(e, a, Tamed(e, a), Stocks(e), sessions, w, key);
    }
  }

  lemma ReusableAlike(e: Env, a: Attempt, b: Attempt, files: map<Key, Table>, sessions: seq<string>, key: Key)
    requires a.previous == b.previous
    ensures Reusable(e, a, files, sessions, key) == Reusable(e, b, files, sessions, key)
  {
    hide PartitionValid, CalendarCovers, CoversSessions;
  }

  /** Lookups that record what any lookup would are those of the tamed attempt. */
  lemma LookupsSame(e: Env, a: Attempt, codes: set<string>, resolutions: map<string, Resolution>)
    requires ResolutionsRight(TruthOf(e), WithLookups(e, a.fails, Stocks(e), codes, resolutions))
    ensures WithLookups(e, a.fails, Stocks(e), codes, resolutions) == WithLookups(e, Tamed(e, a).fails, Stocks(e), codes, resolutions)
  {
    hide Stocks, TruthOf, Harmless, LookupOne;
    var resolved := WithLookups(e, a.fails, Stocks(e), codes, resolutions);
    forall code | code in codes && code !in resolutions
      ensures LookupOne(e, a.fails, Stocks(e), code) == LookupOne(e, Tamed(e, a).fails, Stocks(e), code)
    {
      assert resolved[code] == LookupOne(e, a.fails, Stocks(e), code);
      RightLookup(e, a, code);
    }
  }

  /** The same lookups decide the rest of a fetch. */
  lemma FetchedSame(e: Env, a: Attempt, b: Attempt, stocks: seq<Row>, sessions: seq<string>, w: Work, key: Key)
    requires key.dataset == Daily && a.now == b.now
    requires var codes := UnknownCodes(stocks, MarketRows(e, key));
      WithLookups(e, a.fails, stocks, codes, w.m.resolutions) == WithLookups(e, b.fails, stocks, codes, w.m.resolutions)
    ensures Fetched(e, a, stocks, sessions, w, key) == Fetched(e, b, stocks, sessions, w, key)
  {
    hide FreshRows, AuditFor, WithLookups, UnknownCodes, MarketRows, Settle, CountAt;
  }

  lemma LookedUp(e: Env, a: Attempt, stocks: seq<Row>, sessions: seq<string>, w: Work, key: Key)
    requires key.dataset == Daily
    requires w.stopped.None? && !Reusable(e, a, w.files, sessions, key) && CallFor(w.m.partitions, w.m.failed, key) !in a.fails
    ensures RequiredStep(e, a, stocks, sessions, w, key).m.resolutions
      == WithLookups(e, a.fails, stocks, UnknownCodes(stocks, MarketRows(e, key)), w.m.resolutions)
  {
    hide FreshRows, AuditFor, Reusable, WithLookups, UnknownCodes, MarketRows;
  }

  lemma RightBefore(t: Truth, before: map<string, Resolution>, after: map<string, Resolution>)
    requires Preserves(before, after) && ResolutionsRight(t, after)
    ensures ResolutionsRight(t, before)
  {
  }

  lemma {:induction false} DaysSame(e: Env, a: Attempt, sessions: seq<string>, w: Work, days: nat)
    requires days <= |sessions|
    requires ResolutionsRight(TruthOf(e), DaysPhase(e, a, Stocks(e), sessions, w, days).m.resolutions)
    ensures DaysPhase(e, a, Stocks(e), sessions, w, days) == DaysPhase(e, Tamed(e, a), Stocks(e), sessions, w, days)
  {
    hide RequiredStep, TruthOf, Stocks, ResolutionsRight, Preserves, Harmless;
    if days > 0 {
      var t, b, stocks, tag := TruthOf(e), Tamed(e, a), Stocks(e), Session(sessions[days - 1]);
      var before := DaysPhase(e, a, stocks, sessions, w, days - 1);
      var daily := RequiredStep(e, a, stocks, sessions, before, Key(Daily, tag));
      var factor := RequiredStep(e, a, stocks, sessions, daily, Key(AdjFactor, tag));
      StepPreserves(e, a, stocks, sessions, before, Key(Daily, tag));
      StepPreserves(e, a, stocks, sessions, daily, Key(AdjFactor, tag));
      RightBefore(t, daily.m.resolutions, factor.m.resolutions);
      RightBefore(t, before.m.resolutions, daily.m.resolutions);
      DaysSame(e, a, sessions, w, days - 1);
      DailySame(e, a, sessions, before, Key(Daily, tag));
      TamedHolds(e, a);
      StepSame(e, a, b, stocks, sessions, daily, Key(AdjFactor, tag));
    }
  }

  lemma {:induction false} DaysStopped(e: Env, a: Attempt, stocks: seq<Row>, sessions: seq<string>, w: Work, days: nat)
    requires w.stopped.Some? && days <= |sessions|
    ensures DaysPhase(e, a, stocks, sessions, w, days) == w
  {
    hide Reusable, Fetched;
    if days > 0 { DaysStopped(e, a, stocks, sessions, w, days - 1); }
  }

  lemma RangeSame(e: Env, a: Attempt, b: Attempt, files: map<Key, Table>)
    requires SameFetches(a, b)
    ensures MasterPhase(e, a, files) == MasterPhase(e, b, files)
    ensures CalendarPhase(e, a, MasterPhase(e, a, files)) == CalendarPhase(e, b, MasterPhase(e, b, files))
  {
    hide RequiredStep;
    StepSame(e, a, b, [], [], Work(files, FreshManifest(a.resolutions), None), STOCK_KEY);
    var master := MasterPhase(e, a, files);
    StepSame(e, a, b, master.m.master, [], master, CALENDAR_KEY);
  }

  /** What holds of stock master and sessions once both ranges are there. */
  lemma RangeKnown(e: Env, a: Attempt, files: map<Key, Table>, k: nat)
    requires Ready(TruthOf(e), a, files, k)
    ensures var w := CalendarPhase(e, a, MasterPhase(e, a, files));
      w.stopped.None? ==> w.m.master == Stocks(e) && Sessions(w.m.calendar) == TruthOf(e).dates
  {
    hide MasterPhase, CalendarPhase, ComesTo, Ready, Stocks, TruthOf, CalendarRows, SameRest, Sessions;
    var r := CalendarComes(e, a, files, k);
    DatesAreSessions(e);
  }

  /** An attempt that records right resolutions only is as good as one without the lookups
      that would record others. */
  lemma RequiredSame(e: Env, a: Attempt, files: map<Key, Table>, k: nat)
    requires Ready(TruthOf(e), Tamed(e, a), files, k)
    requires ResolutionsRight(TruthOf(e), Required(e, a, files).m.resolutions)
    ensures Required(e, a, files) == Required(e, Tamed(e, a), files)
  {
    var b, w := Tamed(e, a), CalendarPhase(e, a, MasterPhase(e, a, files));
    TamedHolds(e, a);
    RangeKnown(e, b, files, k);
    hide Ready, TruthOf, MasterPhase, CalendarPhase, RequiredStep, Sessions, DaysPhase, Stocks, Harmless, ResolutionsRight, SameFetches, Preserves;
    RangeSame(e, a, b, files);
    var stocks, sessions := w.m.master, Sessions(w.m.calendar);
    var days := DaysPhase(e, a, stocks, sessions, w, |sessions|);
    StepPreserves(e, a, stocks, sessions, days, BENCHMARK_KEY);
    RightBefore(TruthOf(e), days.m.resolutions, Required(e, a, files).m.resolutions);
    if w.stopped.None? {
      DaysSame(e, a, sessions, w, |sessions|);
    } else {
      DaysStopped(e, a, stocks, sessions, w, |sessions|);
      DaysStopped(e, b, stocks, sessions, w, |sessions|);
    }
    StepSame(e, a, b, stocks, sessions, days, BENCHMARK_KEY);
  }

  lemma DraftResolutions(e: Env, a: Attempt, files: map<Key, Table>)
    ensures Draft(e, a, files).m.resolutions == Required(e, a, files).m.resolutions
  {
    hide Required, OptionalMarket, NamesPhase;
    var w := Required(e, a, files);
    SnapshotPoison.OptionalPartSame(e, a, w.m.master, Sessions(w.m.calendar), w);
  }

  lemma DraftSame(e: Env, a: Attempt, files: map<Key, Table>, k: nat)
    requires Ready(TruthOf(e), Tamed(e, a), files, k)
    requires ResolutionsRight(TruthOf(e), Draft(e, a, files).m.resolutions)
    ensures Draft(e, a, files) == Draft(e, Tamed(e, a), files)
  {
    hide Ready, TruthOf, Required, OptionalMarket, NamesPhase, ResolutionsRight, Harmless, SameFetches;
    DraftResolutions(e, a, files);
    RequiredSame(e, a, files, k);
    TamedHolds(e, a);
    var w := Required(e, a, files);
    OptionalFetchesSame(e, a, Tamed(e, a), w.m.master, Sessions(w.m.calendar), w);
  }

  // ----- Files that nothing lists

  /** A partition that the previous manifest offers or this one lists. The combined name table
      is never reused. */
  predicate Watched(a: Attempt, m: Manifest, key: Key) {
    (key in a.previous && key != NAMES_KEY) || HasKey(m.partitions, key)
  }

  predicate SameFile(files: map<Key, Table>, others: map<Key, Table>, key: Key) {
    (key in files <==> key in others) && (key in files ==> files[key] == others[key])
  }

  /** The same build on two directories that differ in unwatched files only. */
  ghost predicate SameWork(a: Attempt, w: Work, v: Work) {
    && w.m == v.m && w.stopped == v.stopped
    && forall key :: Watched(a, w.m, key) ==> SameFile(w.files, v.files, key)
  }

  /** `{(p["dataset"], p["trade_date"]): p}` files every entry under its own key. */
  ghost predicate OwnKeys(a: Attempt) {
    forall key :: key in a.previous ==> a.previous[key].key == key
  }

  /** One step over `key` on both directories. */
  ghost predicate Moves(a: Attempt, w: Work, v: Work, next: Work, after: Work, key: Key) {
    && next.m == after.m && next.stopped == after.stopped
    && Grows(w.m.partitions, next.m.partitions, key)
    && ((next.files == w.files && after.files == v.files
         && (next.m.partitions == w.m.partitions || (key in a.previous && key != NAMES_KEY)))
        || exists table :: Puts(w, v, next, after, key, table))
  }

  ghost predicate Puts(w: Work, v: Work, next: Work, after: Work, key: Key, table: Table) {
    next.files == w.files[key := table] && after.files == v.files[key := table]
  }

  lemma MovesSame(a: Attempt, w: Work, v: Work, next: Work, after: Work, key: Key)
    requires SameWork(a, w, v) && Moves(a, w, v, next, after, key)
    ensures SameWork(a, next, after)
  {
    forall other | Watched(a, next.m, other) ensures SameFile(next.files, after.files, other) {
      if !Watched(a, w.m, other) {
        var entry :| entry in next.m.partitions && entry.key == other;
        assert entry !in w.m.partitions && other == key;
      } else {
        assert SameFile(w.files, v.files, other);
      }
    }
  }

  lemma ReusableSame(e: Env, a: Attempt, w: Work, v: Work, sessions: seq<string>, key: Key)
    requires OwnKeys(a) && SameWork(a, w, v) && key != NAMES_KEY
    ensures Reusable(e, a, w.files, sessions, key) == Reusable(e, a, v.files, sessions, key)
  {
    hide CalendarCovers, CoversSessions;
    if key in a.previous {
      assert Watched(a, w.m, key) && SameFile(w.files, v.files, key);
    }
  }

  /** The same resolutions and notes, on the same files as before. */
  lemma NotedMoves(e: Env, a: Attempt, stocks: seq<Row>, w: Work, v: Work, key: Key, audit: Option<Audit>)
    requires w.m == v.m && w.stopped == v.stopped
    ensures var x, y := NoteAbsent(a, ResolveDay(e, a, stocks, w, key), key, audit), NoteAbsent(a, ResolveDay(e, a, stocks, v, key), key, audit);
      && x.m == y.m && x.stopped == y.stopped && x.files == w.files && y.files == v.files && x.m.partitions == w.m.partitions
  {
    hide WithLookups, UnknownCodes, MarketRows, CountAt;
  }

  lemma SettleMoves(a: Attempt, w: Work, v: Work, x: Work, y: Work, key: Key, rows: Result<seq<Row>, Error>, audit: Option<Audit>)
    requires x.m == y.m && x.stopped == y.stopped && x.files == w.files && y.files == v.files && x.m.partitions == w.m.partitions
    ensures Moves(a, w, v, Settle(x, key, rows, audit), Settle(y, key, rows, audit), key)
  {
    hide TableFor;
    if rows.Success? {
      assert Puts(w, v, Settle(x, key, rows, audit), Settle(y, key, rows, audit), key, TableFor(key, rows.value));
    }
  }

  lemma FetchedMoves(e: Env, a: Attempt, stocks: seq<Row>, sessions: seq<string>, w: Work, v: Work, key: Key)
    requires w.m == v.m && w.stopped == v.stopped
    ensures Moves(a, w, v, Fetched(e, a, stocks, sessions, w, key), Fetched(e, a, stocks, sessions, v, key), key)
  {
    hide FreshRows, AuditFor, NoteAbsent, Settle, Moves, WithLookups, UnknownCodes, MarketRows;
    var resolutions := ResolveDay(e, a, stocks, w, key).m.resolutions;
    var rows, audit := FreshRows(e, stocks, sessions, resolutions, key), AuditFor(e, stocks, resolutions, key);
    NotedMoves(e, a, stocks, w, v, key, audit);
    SettleMoves(a, w, v, NoteAbsent(a, ResolveDay(e, a, stocks, w, key), key, audit),
                NoteAbsent(a, ResolveDay(e, a, stocks, v, key), key, audit), key, rows, audit);
  }

  lemma StepMoves(e: Env, a: Attempt, stocks: seq<Row>, sessions: seq<string>, w: Work, v: Work, key: Key)
    requires OwnKeys(a) && SameWork(a, w, v) && key != NAMES_KEY
    ensures SameWork(a, RequiredStep(e, a, stocks, sessions, w, key), RequiredStep(e, a, stocks, sessions, v, key))
  {
    hide Fetched, Reusable, CallFor;
    ReusableSame(e, a, w, v, sessions, key);
    ReusableOffered(e, a, w.files, sessions, key);
    FetchedMoves(e, a, stocks, sessions, w, v, key);
    hide SameWork;
    assert w.m == v.m && w.stopped == v.stopped by { SameManifest(a, w, v); }
    MovesSame(a, w, v, RequiredStep(e, a, stocks, sessions, w, key), RequiredStep(e, a, stocks, sessions, v, key), key);
  }

  lemma SameManifest(a: Attempt, w: Work, v: Work)
    requires SameWork(a, w, v)
    ensures w.m == v.m && w.stopped == v.stopped
  {
  }

  lemma ReusableOffered(e: Env, a: Attempt, files: map<Key, Table>, sessions: seq<string>, key: Key)
    ensures Reusable(e, a, files, sessions, key) ==> key in a.previous
  {
  }

  /** A required step that does not stop the build lists its partition. */
  lemma StepLists(e: Env, a: Attempt, stocks: seq<Row>, sessions: seq<string>, w: Work, key: Key)
    requires OwnKeys(a)
    ensures var next := RequiredStep(e, a, stocks, sessions, w, key); next.stopped.None? ==> HasKey(next.m.partitions, key)
  {
    hide FreshRows, AuditFor, ResolveDay, NoteAbsent, CallFor, PartitionValid, CalendarCovers, CoversSessions, TableFor;
    var next := RequiredStep(e, a, stocks, sessions, w, key);
    if next.stopped.None? {
      assert next.m.partitions[|next.m.partitions| - 1].key == key;
    }
  }

  lemma {:induction false} DaysMove(e: Env, a: Attempt, stocks: seq<Row>, sessions: seq<string>, w: Work, v: Work, days: nat)
    requires OwnKeys(a) && SameWork(a, w, v) && days <= |sessions|
    ensures SameWork(a, DaysPhase(e, a, stocks, sessions, w, days), DaysPhase(e, a, stocks, sessions, v, days))
  {
    hide RequiredStep, SameWork;
    if days > 0 {
      DaysMove(e, a, stocks, sessions, w, v, days - 1);
      var before, other := DaysPhase(e, a, stocks, sessions, w, days - 1), DaysPhase(e, a, stocks, sessions, v, days - 1);
      var daily, factor := Key(Daily, Session(sessions[days - 1])), Key(AdjFactor, Session(sessions[days - 1]));
      StepMoves(e, a, stocks, sessions, before, other, daily);
      StepMoves(e, a, stocks, sessions, RequiredStep(e, a, stocks, sessions, before, daily),
                RequiredStep(e, a, stocks, sessions, other, daily), factor);
    }
  }

  lemma RowsSame(a: Attempt, w: Work, v: Work, key: Key)
    requires SameWork(a, w, v) && (w.stopped.None? ==> HasKey(w.m.partitions, key))
    ensures RowsAt(w, key) == RowsAt(v, key)
  {
    if w.stopped.None? {
      assert Watched(a, w.m, key);
    }
  }

  /** Recording derived fields from the same rows. */
  lemma RecordsMove(a: Attempt, w: Work, v: Work, m: Manifest, stopped: Option<Error>)
    requires SameWork(a, w, v) && m.partitions == w.m.partitions
    ensures SameWork(a, Work(w.files, m, stopped), Work(v.files, m, stopped))
  {
    forall key | Watched(a, m, key) ensures SameFile(w.files, v.files, key) {
      assert Watched(a, w.m, key);
    }
  }

  lemma RangeMoves(e: Env, a: Attempt, files: map<Key, Table>, others: map<Key, Table>)
    requires OwnKeys(a) && forall key :: key in a.previous && key != NAMES_KEY ==> SameFile(files, others, key)
    ensures SameWork(a, CalendarPhase(e, a, MasterPhase(e, a, files)), CalendarPhase(e, a, MasterPhase(e, a, others)))
  {
    hide RequiredStep, Sessions;
    var m := FreshManifest(a.resolutions);
    var w, v := Work(files, m, None), Work(others, m, None);
    assert SameWork(a, w, v);
    hide SameWork;
    StepMoves(e, a, [], [], w, v, STOCK_KEY);
    StepLists(e, a, [], [], w, STOCK_KEY);
    var read, other := RequiredStep(e, a, [], [], w, STOCK_KEY), RequiredStep(e, a, [], [], v, STOCK_KEY);
    RowsSame(a, read, other, STOCK_KEY);
    SameManifest(a, read, other);
    RecordsMove(a, read, other, read.m.(master := RowsAt(read, STOCK_KEY)), read.stopped);
    CalendarMoves(e, a, MasterPhase(e, a, files), MasterPhase(e, a, others));
  }

  lemma CalendarMoves(e: Env, a: Attempt, w: Work, v: Work)
    requires OwnKeys(a) && SameWork(a, w, v)
    ensures SameWork(a, CalendarPhase(e, a, w), CalendarPhase(e, a, v))
  {
    hide RequiredStep, Sessions, SameWork;
    SameManifest(a, w, v);
    StepMoves(e, a, w.m.master, [], w, v, CALENDAR_KEY);
    StepLists(e, a, w.m.master, [], w, CALENDAR_KEY);
    var read, other := RequiredStep(e, a, w.m.master, [], w, CALENDAR_KEY), RequiredStep(e, a, w.m.master, [], v, CALENDAR_KEY);
    RowsSame(a, read, other, CALENDAR_KEY);
    SameManifest(a, read, other);
    RecordsMove(a, read, other, read.m.(calendar := RowsAt(read, CALENDAR_KEY)), read.stopped);
    RecordsMove(a, read, other, read.m, Some(NoOpenSessions));
  }

  lemma BenchmarkMoves(e: Env, a: Attempt, stocks: seq<Row>, sessions: seq<string>, w: Work, v: Work)
    requires OwnKeys(a) && SameWork(a, w, v)
    ensures SameWork(a, BenchmarkPhase(e, a, stocks, sessions, w), BenchmarkPhase(e, a, stocks, sessions, v))
  {
    hide RequiredStep, SameWork;
    StepMoves(e, a, stocks, sessions, w, v, BENCHMARK_KEY);
    StepLists(e, a, stocks, sessions, w, BENCHMARK_KEY);
    var read, other := RequiredStep(e, a, stocks, sessions, w, BENCHMARK_KEY), RequiredStep(e, a, stocks, sessions, v, BENCHMARK_KEY);
    RowsSame(a, read, other, BENCHMARK_KEY);
    SameManifest(a, read, other);
    RecordsMove(a, read, other, read.m.(benchmarkRows := |RowsAt(read, BENCHMARK_KEY)|), read.stopped);
  }

  lemma RequiredMoves(e: Env, a: Attempt, files: map<Key, Table>, others: map<Key, Table>)
    requires OwnKeys(a) && forall key :: key in a.previous && key != NAMES_KEY ==> SameFile(files, others, key)
    ensures SameWork(a, Required(e, a, files), Required(e, a, others))
  {
    hide MasterPhase, CalendarPhase, DaysPhase, BenchmarkPhase, SameWork, Sessions;
    RangeMoves(e, a, files, others);
    var w, v := CalendarPhase(e, a, MasterPhase(e, a, files)), CalendarPhase(e, a, MasterPhase(e, a, others));
    SameManifest(a, w, v);
    var stocks, sessions := w.m.master, Sessions(w.m.calendar);
    DaysMove(e, a, stocks, sessions, w, v, |sessions|);
    BenchmarkMoves(e, a, stocks, sessions, DaysPhase(e, a, stocks, sessions, w, |sessions|), DaysPhase(e, a, stocks, sessions, v, |sessions|));
  }

  lemma OptionalStepMoves(e: Env, a: Attempt, stocks: seq<Row>, sessions: seq<string>, w: Work, v: Work, key: Key)
    requires OwnKeys(a) && SameWork(a, w, v) && key != NAMES_KEY
    ensures SameWork(a, OptionalStep(e, a, stocks, sessions, w, key), OptionalStep(e, a, stocks, sessions, v, key))
  {
    hide FreshRows, AuditFor, CallFor, TableFor, Reusable;
    ReusableSame(e, a, w, v, sessions, key);
    ReusableOffered(e, a, w.files, sessions, key);
    SameManifest(a, w, v);
    hide SameWork;
    var next, after := OptionalStep(e, a, stocks, sessions, w, key), OptionalStep(e, a, stocks, sessions, v, key);
    if !Reusable(e, a, w.files, sessions, key) && CallFor(w.m.partitions, w.m.failed, key) !in a.fails {
      var rows := FreshRows(e, stocks, sessions, w.m.resolutions, key);
      if rows.Success? {
        assert Puts(w, v, next, after, key, TableFor(key, rows.value));
      }
    }
    MovesSame(a, w, v, next, after, key);
  }

  lemma {:induction false} OptionalDaysMove(e: Env, a: Attempt, stocks: seq<Row>, sessions: seq<string>, w: Work, v: Work,
                                            dataset: Dataset, days: nat)
    requires OwnKeys(a) && SameWork(a, w, v) && days <= |sessions|
    ensures SameWork(a, OptionalDays(e, a, stocks, sessions, w, dataset, days), OptionalDays(e, a, stocks, sessions, v, dataset, days))
  {
    hide OptionalStep, SameWork;
    if days > 0 {
      OptionalDaysMove(e, a, stocks, sessions, w, v, dataset, days - 1);
      OptionalStepMoves(e, a, stocks, sessions, OptionalDays(e, a, stocks, sessions, w, dataset, days - 1),
                        OptionalDays(e, a, stocks, sessions, v, dataset, days - 1), SessionKey(dataset, sessions[days - 1]));
    }
  }

  lemma OptionalDatasetMoves(e: Env, a: Attempt, stocks: seq<Row>, sessions: seq<string>, w: Work, v: Work, dataset: Dataset)
    requires OwnKeys(a) && SameWork(a, w, v)
    ensures SameWork(a, OptionalDataset(e, a, stocks, sessions, w, dataset), OptionalDataset(e, a, stocks, sessions, v, dataset))
  {
    hide OptionalDays, SameWork;
    OptionalDaysMove(e, a, stocks, sessions, w, v, dataset, |sessions|);
    var done, other := OptionalDays(e, a, stocks, sessions, w, dataset, |sessions|), OptionalDays(e, a, stocks, sessions, v, dataset, |sessions|);
    SameManifest(a, w, v);
    SameManifest(a, done, other);
    RecordsMove(a, done, other, OptionalDataset(e, a, stocks, sessions, w, dataset).m, done.stopped);
  }

  lemma OptionalMarketMoves(e: Env, a: Attempt, stocks: seq<Row>, sessions: seq<string>, w: Work, v: Work)
    requires OwnKeys(a) && SameWork(a, w, v)
    ensures SameWork(a, OptionalMarket(e, a, stocks, sessions, w), OptionalMarket(e, a, stocks, sessions, v))
  {
    hide OptionalDataset, SameWork;
    OptionalDatasetMoves(e, a, stocks, sessions, w, v, DailyBasic);
    var basic, other := OptionalDataset(e, a, stocks, sessions, w, DailyBasic), OptionalDataset(e, a, stocks, sessions, v, DailyBasic);
    OptionalDatasetMoves(e, a, stocks, sessions, basic, other, Suspend);
    OptionalDatasetMoves(e, a, stocks, sessions, OptionalDataset(e, a, stocks, sessions, basic, Suspend),
                         OptionalDataset(e, a, stocks, sessions, other, Suspend), Limits);
  }

  lemma ShardStepMoves(e: Env, a: Attempt, codes: seq<string>, w: Work, v: Work, index: nat)
    requires OwnKeys(a) && SameWork(a, w, v)
    ensures SameWork(a, ShardStep(e, a, codes, w, index), ShardStep(e, a, codes, v, index))
  {
    hide ShardRows, TableFor, Reusable;
    var key := ShardKey(index);
    ReusableSame(e, a, w, v, [], key);
    ReusableOffered(e, a, w.files, [], key);
    SameManifest(a, w, v);
    hide SameWork;
    var next, after := ShardStep(e, a, codes, w, index), ShardStep(e, a, codes, v, index);
    if !Reusable(e, a, w.files, [], key) {
      var rows := ShardRows(e, a.fails, codes, index);
      if rows.Success? {
        assert Puts(w, v, next, after, key, TableFor(key, rows.value));
      }
    }
    MovesSame(a, w, v, next, after, key);
  }

  lemma {:induction false} ShardStepsMove(e: Env, a: Attempt, shards: seq<seq<string>>, w: Work, v: Work, count: nat)
    requires OwnKeys(a) && SameWork(a, w, v) && count <= |shards|
    ensures SameWork(a, ShardSteps(e, a, shards, w, count), ShardSteps(e, a, shards, v, count))
  {
    hide ShardStep, SameWork;
    if count > 0 {
      ShardStepsMove(e, a, shards, w, v, count - 1);
      ShardStepMoves(e, a, shards[count - 1], ShardSteps(e, a, shards, w, count - 1), ShardSteps(e, a, shards, v, count - 1), count - 1);
    }
  }

  lemma {:induction false} ReadAllSame(files: map<Key, Table>, others: map<Key, Table>, entries: seq<Entry>)
    requires forall entry :: entry in entries ==> SameFile(files, others, entry.key)
    ensures ReadAll(files, entries) == ReadAll(others, entries)
  {
    if entries != [] {
      assert entries[0] in entries;
      ReadAllSame(files, others, entries[1..]);
    }
  }

  lemma CombineMoves(a: Attempt, w: Work, v: Work, shards: seq<seq<string>>)
    requires SameWork(a, w, v)
    ensures SameWork(a, CombineNames(w, shards), CombineNames(v, shards))
  {
    var entries := ShardEntries(w.m.partitions);
    ShardEntriesListed(w.m.partitions);
    forall entry | entry in entries ensures SameFile(w.files, v.files, entry.key) {
      assert HasKey(w.m.partitions, entry.key) && Watched(a, w.m, entry.key);
    }
    ReadAllSame(w.files, v.files, entries);
    SameManifest(a, w, v);
    hide SameWork, ShardEntries, ReadAll, Dedup, Checked, CompletedSymbols, TableFor;
    var next, after := CombineNames(w, shards), CombineNames(v, shards);
    var rows := Checked(NAMES_KEY, Dedup(NameChange, ReadAll(w.files, entries)));
    if |entries| == |shards| && rows.Success? {
      assert Puts(w, v, next, after, NAMES_KEY, TableFor(NAMES_KEY, rows.value));
    }
    MovesSame(a, w, v, next, after, NAMES_KEY);
  }

  lemma NamesMove(e: Env, a: Attempt, stocks: seq<Row>, w: Work, v: Work)
    requires OwnKeys(a) && SameWork(a, w, v)
    ensures SameWork(a, NamesPhase(e, a, stocks, w), NamesPhase(e, a, stocks, v))
  {
    hide SameWork, ShardSteps, CombineNames, Symbols, Shards;
    SameManifest(a, w, v);
    var shards := Shards(Symbols(e, stocks), ShardSize(e));
    var names := w.m.names.(plannedSymbols := |Symbols(e, stocks)|, plannedShards := |shards|);
    var planned, other := w.(m := w.m.(names := names)), v.(m := v.m.(names := names));
    RecordsMove(a, w, v, planned.m, w.stopped);
    ShardStepsMove(e, a, shards, planned, other, |shards|);
    CombineMoves(a, ShardSteps(e, a, shards, planned, |shards|), ShardSteps(e, a, shards, other, |shards|), shards);
  }

  lemma FinishMoves(a: Attempt, w: Work, v: Work)
    requires SameWork(a, w, v)
    ensures SameWork(a, Finish(a, w), Finish(a, v))
  {
    SameManifest(a, w, v);
    hide SameWork, RequiredFailed;
    RecordsMove(a, w, v, Finish(a, w).m, w.stopped);
  }

  /** A build that resumes writes the same manifest whatever unlisted files lie about. */
  lemma DraftMoves(e: Env, a: Attempt, files: map<Key, Table>, others: map<Key, Table>)
    requires OwnKeys(a) && forall key :: key in a.previous && key != NAMES_KEY ==> SameFile(files, others, key)
    ensures SameWork(a, Draft(e, a, files), Draft(e, a, others))
  {
    hide Required, OptionalMarket, NamesPhase, SameWork, Sessions, Finish;
    RequiredMoves(e, a, files, others);
    var w, v := Required(e, a, files), Required(e, a, others);
    SameManifest(a, w, v);
    if w.stopped.Some? || !e.config.includeOptional {
      FinishMoves(a, w, v);
    } else {
      var stocks, sessions := w.m.master, Sessions(w.m.calendar);
      OptionalMarketMoves(e, a, stocks, sessions, w, v);
      var market, other := OptionalMarket(e, a, stocks, sessions, w), OptionalMarket(e, a, stocks, sessions, v);
      NamesMove(e, a, stocks, market, other);
      FinishMoves(a, NamesPhase(e, a, stocks, market), NamesPhase(e, a, stocks, other));
    }
  }

  // ----- Files that the previous manifest offers

  /** Every partition that may be reused is as it was in the directory `start`. */
  ghost predicate Kept(a: Attempt, start: map<Key, Table>, files: map<Key, Table>) {
    forall key :: key in a.previous && key != NAMES_KEY ==> SameFile(start, files, key)
  }

  /** What an attempt may rely on, whatever fails in it. */
  ghost predicate Offers(e: Env, a: Attempt, start: map<Key, Table>, k: nat) {
    Ready(TruthOf(e), Tamed(e, a), start, k)
  }

  lemma KeptReusable(e: Env, a: Attempt, start: map<Key, Table>, files: map<Key, Table>, sessions: seq<string>, key: Key, k: nat)
    requires Offers(e, a, start, k) && Kept(a, start, files)
    requires key in a.previous && key != NAMES_KEY && (key.dataset == Benchmark ==> sessions == TruthOf(e).dates)
    ensures Reusable(e, a, files, sessions, key)
  {
    hide TruthOf, CalendarCovers, CoversSessions, Harmless;
    ReuseAccepted(e, Tamed(e, a), start, sessions, k, key);
    assert a.previous[key].key == key && SameFile(start, files, key);
  }

  /** A step either reuses the partition, or changes at most its file. */
  lemma StepTouches(e: Env, a: Attempt, stocks: seq<Row>, sessions: seq<string>, w: Work, key: Key)
    ensures var next := RequiredStep(e, a, stocks, sessions, w, key);
      next.files == w.files || (!Reusable(e, a, w.files, sessions, key) && key in next.files && next.files == w.files[key := next.files[key]])
  {
    hide FreshRows, AuditFor, CallFor, Reusable, WithLookups, CountAt, TableFor;
  }

  lemma TouchKeeps(a: Attempt, start: map<Key, Table>, files: map<Key, Table>, next: map<Key, Table>, key: Key)
    requires Kept(a, start, files) && (key !in a.previous || key == NAMES_KEY)
    requires next == files || (key in next && next == files[key := next[key]])
    ensures Kept(a, start, next)
  {
    forall other | other in a.previous && other != NAMES_KEY ensures SameFile(start, next, other) {
      assert SameFile(start, files, other);
    }
  }

  lemma StepKeeps(e: Env, a: Attempt, start: map<Key, Table>, stocks: seq<Row>, sessions: seq<string>, w: Work, key: Key, k: nat)
    requires Offers(e, a, start, k) && Kept(a, start, w.files) && key != NAMES_KEY
    requires key.dataset == Benchmark && w.stopped.None? ==> sessions == TruthOf(e).dates
    ensures Kept(a, start, RequiredStep(e, a, stocks, sessions, w, key).files)
  {
    hide Offers, Kept, TruthOf, Reusable;
    if w.stopped.Some? {
      StoppedStays(e, a, stocks, sessions, w, key);
    } else {
      hide RequiredStep;
      StepTouches(e, a, stocks, sessions, w, key);
      if key in a.previous {
        KeptReusable(e, a, start, w.files, sessions, key, k);
      } else {
        TouchKeeps(a, start, w.files, RequiredStep(e, a, stocks, sessions, w, key).files, key);
      }
    }
  }

  lemma {:induction false} DaysKeep(e: Env, a: Attempt, start: map<Key, Table>, stocks: seq<Row>, sessions: seq<string>, w: Work, days: nat, k: nat)
    requires Offers(e, a, start, k) && Kept(a, start, w.files) && days <= |sessions|
    ensures Kept(a, start, DaysPhase(e, a, stocks, sessions, w, days).files)
  {
    hide Offers, Kept, TruthOf, RequiredStep;
    if days > 0 {
      DaysKeep(e, a, start, stocks, sessions, w, days - 1, k);
      var before, tag := DaysPhase(e, a, stocks, sessions, w, days - 1), Session(sessions[days - 1]);
      StepKeeps(e, a, start, stocks, sessions, before, Key(Daily, tag), k);
      StepKeeps(e, a, start, stocks, sessions, RequiredStep(e, a, stocks, sessions, before, Key(Daily, tag)), Key(AdjFactor, tag), k);
    }
  }

  lemma RangeKeeps(e: Env, a: Attempt, start: map<Key, Table>, k: nat)
    requires Offers(e, a, start, k)
    ensures Kept(a, start, CalendarPhase(e, a, MasterPhase(e, a, start)).files)
  {
    hide Offers, RequiredStep, TruthOf, Sessions;
    var w := Work(start, FreshManifest(a.resolutions), None);
    assert Kept(a, start, start);
    hide Kept;
    StepKeeps(e, a, start, [], [], w, STOCK_KEY, k);
    var master := MasterPhase(e, a, start);
    StepKeeps(e, a, start, master.m.master, [], master, CALENDAR_KEY, k);
  }

  lemma RequiredKeeps(e: Env, a: Attempt, start: map<Key, Table>, k: nat)
    requires Offers(e, a, start, k)
    ensures Kept(a, start, Required(e, a, start).files)
  {
    TamedHolds(e, a);
    RangeKnown(e, Tamed(e, a), start, k);
    hide Offers, Kept, TruthOf, MasterPhase, CalendarPhase, DaysPhase, RequiredStep, Sessions, Stocks, SameFetches, Harmless, RowsAt;
    RangeSame(e, a, Tamed(e, a), start);
    RangeKeeps(e, a, start, k);
    var w := CalendarPhase(e, a, MasterPhase(e, a, start));
    var stocks, sessions := w.m.master, Sessions(w.m.calendar);
    DaysKeep(e, a, start, stocks, sessions, w, |sessions|, k);
    var days := DaysPhase(e, a, stocks, sessions, w, |sessions|);
    if w.stopped.Some? { DaysStopped(e, a, stocks, sessions, w, |sessions|); }
    StepKeeps(e, a, start, stocks, sessions, days, BENCHMARK_KEY, k);
  }

  lemma {:induction false} OptionalDaysKeep(e: Env, a: Attempt, start: map<Key, Table>, stocks: seq<Row>, sessions: seq<string>,
                                            w: Work, dataset: Dataset, days: nat, k: nat)
    requires Offers(e, a, start, k) && Kept(a, start, w.files) && days <= |sessions| && IsOptionalMarket(dataset)
    ensures Kept(a, start, OptionalDays(e, a, stocks, sessions, w, dataset, days).files)
  {
    hide Offers, Kept, TruthOf, Reusable, FreshRows, AuditFor, CallFor, TableFor;
    if days > 0 {
      OptionalDaysKeep(e, a, start, stocks, sessions, w, dataset, days - 1, k);
      var before, key := OptionalDays(e, a, stocks, sessions, w, dataset, days - 1), SessionKey(dataset, sessions[days - 1]);
      if key in a.previous {
        KeptReusable(e, a, start, before.files, sessions, key, k);
      } else {
        TouchKeeps(a, start, before.files, OptionalStep(e, a, stocks, sessions, before, key).files, key);
      }
    }
  }

  lemma OptionalMarketKeeps(e: Env, a: Attempt, start: map<Key, Table>, stocks: seq<Row>, sessions: seq<string>, w: Work, k: nat)
    requires Offers(e, a, start, k) && Kept(a, start, w.files)
    ensures Kept(a, start, OptionalMarket(e, a, stocks, sessions, w).files)
  {
    hide Offers, Kept, OptionalDays, Capable;
    OptionalDaysKeep(e, a, start, stocks, sessions, w, DailyBasic, |sessions|, k);
    var basic := OptionalDataset(e, a, stocks, sessions, w, DailyBasic);
    OptionalDaysKeep(e, a, start, stocks, sessions, basic, Suspend, |sessions|, k);
    OptionalDaysKeep(e, a, start, stocks, sessions, OptionalDataset(e, a, stocks, sessions, basic, Suspend), Limits, |sessions|, k);
  }

  lemma {:induction false} ShardStepsKeep(e: Env, a: Attempt, start: map<Key, Table>, shards: seq<seq<string>>, w: Work, count: nat, k: nat)
    requires Offers(e, a, start, k) && Kept(a, start, w.files) && count <= |shards|
    ensures Kept(a, start, ShardSteps(e, a, shards, w, count).files)
  {
    hide Offers, Kept, TruthOf, Reusable, ShardRows, TableFor;
    if count > 0 {
      ShardStepsKeep(e, a, start, shards, w, count - 1, k);
      var before, key := ShardSteps(e, a, shards, w, count - 1), ShardKey(count - 1);
      if key in a.previous {
        KeptReusable(e, a, start, before.files, [], key, k);
      } else {
        TouchKeeps(a, start, before.files, ShardStep(e, a, shards[count - 1], before, count - 1).files, key);
      }
    }
  }

  lemma CombineKeeps(a: Attempt, start: map<Key, Table>, w: Work, shards: seq<seq<string>>)
    requires Kept(a, start, w.files)
    ensures Kept(a, start, CombineNames(w, shards).files)
  {
    hide Kept, Dedup, Checked, ReadAll, ShardEntries, CompletedSymbols, TableFor;
    TouchKeeps(a, start, w.files, CombineNames(w, shards).files, NAMES_KEY);
  }

  /** No attempt, whatever fails in it, changes a file that the previous manifest offers. */
  lemma DraftKeeps(e: Env, a: Attempt, start: map<Key, Table>, k: nat)
    requires Offers(e, a, start, k)
    ensures Kept(a, start, Draft(e, a, start).files)
  {
    hide Offers, Kept, Required, OptionalMarket, ShardSteps, CombineNames, Sessions, Symbols, Shards;
    RequiredKeeps(e, a, start, k);
    var w := Required(e, a, start);
    if w.stopped.None? && e.config.includeOptional {
      var stocks, sessions := w.m.master, Sessions(w.m.calendar);
      OptionalMarketKeeps(e, a, start, stocks, sessions, w, k);
      var market := OptionalMarket(e, a, stocks, sessions, w);
      var shards := Shards(Symbols(e, stocks), ShardSize(e));
      var planned := market.(m := market.m.(names := market.m.names.(plannedSymbols := |Symbols(e, stocks)|, plannedShards := |shards|)));
      ShardStepsKeep(e, a, start, shards, planned, |shards|, k);
      CombineKeeps(a, start, ShardSteps(e, a, shards, planned, |shards|), shards);
    }
  }
}
