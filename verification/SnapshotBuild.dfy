/** The builder as it runs: an object that holds the artifact directory and the manifest
    under construction and changes them step by step. Each method is tied to the function
    of the same phase in `SnapshotModel`. */
module SnapshotBuild {
  import opened Outcomes
  import opened Texts
  import opened SnapshotRows
  import opened SnapshotModel
  import opened SnapshotValidator

  class Builder {
    const env: Env
    const attempt: Attempt
    var files: map<Key, Table>
    var partitions: seq<Entry>
    var resolutions: map<string, Resolution>
    var resumed: nat
    var failed: seq<FailureNote>
    var master: seq<Row>
    var calendar: seq<Row>
    var benchmarkRows: nat
    var capabilities: map<Dataset, Capability>
    var names: NameMeta
    var auditedOver: seq<Entry>
    var completed: bool
    var stopped: Option<Error>

    /** The state of the build as a value. */
    ghost function Now(): Work
      reads this
    {
      Work(files,
           Manifest(partitions, resolutions, resumed, failed, master, calendar, benchmarkRows, capabilities, names, auditedOver, completed),
           stopped)
    }

    constructor (env: Env, attempt: Attempt, files: map<Key, Table>)
      ensures this.env == env && this.attempt == attempt
      ensures Now() == Work(files, FreshManifest(attempt.resolutions), None)
    {
      this.env, this.attempt, this.files := env, attempt, files;
      var base := FreshManifest(attempt.resolutions);
      partitions, resolutions, resumed, failed := base.partitions, base.resolutions, base.resumed, base.failed;
      master, calendar, benchmarkRows := base.master, base.calendar, base.benchmarkRows;
      capabilities, names, auditedOver, completed := base.capabilities, base.names, base.auditedOver, base.completed;
      stopped := None;
    }

    /** `_store` with an `old` entry that is valid: keep it and count the reuse. */
    method KeepOld(entry: Entry)
      modifies this
      ensures Now() == Reuse(old(Now()), entry)
    {
      partitions := partitions + [entry];
      resumed := resumed + 1;
    }

    /** `_store` with fresh rows: refuse structural issues, replace the file, list it. */
    method StoreFresh(key: Key, rows: seq<Row>, audit: Option<Audit>) returns (raised: Option<Error>)
      modifies this
      ensures var checked := Checked(key, Success(rows));
        && (checked.Failure? ==> raised == Some(checked.error) && Now() == old(Now()))
        && (checked.Success? ==> raised == None && Now() == Write(old(Now()), key, rows, audit))
    {
      raised := RowIssue(key.dataset, rows, Day(key.tag));
      if raised.None? {
        files := files[key := TableFor(key, rows)];
        partitions := partitions + [EntryFor(key, rows, audit)];
      }
    }

    method Halt(error: Error)
      modifies this
      ensures Now() == Stop(old(Now()), error)
    {
      stopped := Some(error);
    }

    method Record(note: FailureNote)
      modifies this
      ensures Now() == Note(old(Now()), note)
    {
      failed := failed + [note];
    }

    /** `_resolve_historical_code`: a code already decided, even by an error, stays decided. */
    method ResolveHistoricalCode(code: string, stocks: seq<Row>)
      modifies this
      ensures Now() == old(Now()).(m := old(Now()).m.(resolutions :=
        WithLookups(env, attempt.fails, stocks, {code}, old(resolutions))))
    {
      if code in resolutions {
        assert WithLookups(env, attempt.fails, stocks, {code}, resolutions) == resolutions;
        return;
      }
      var result;
      if IsExternalCode(code) {
        result := ExternalInstrument;
      } else if CallLookup(code) in attempt.fails {
        result := LookupFailed(attempt.fails[CallLookup(code)]);
      } else {
        result := ResolveFrom(code, stocks, env.provider.names(code));
      }
      assert WithLookups(env, attempt.fails, stocks, {code}, resolutions) == resolutions[code := result];
      resolutions := resolutions[code := result];
    }

    /** All unknown codes of one day's daily rows. */
    method ResolveUnknown(codes: set<string>, stocks: seq<Row>)
      modifies this
      ensures Now() == old(Now()).(m := old(Now()).m.(resolutions :=
        WithLookups(env, attempt.fails, stocks, codes, old(resolutions))))
    {
      var todo := codes;
      assert WithLookups(env, attempt.fails, stocks, {}, resolutions) == resolutions;
      while todo != {}
        invariant todo <= codes
        invariant Now() == old(Now()).(m := old(Now()).m.(resolutions :=
          WithLookups(env, attempt.fails, stocks, codes - todo, old(resolutions))))
      {
        var code :| code in todo;
        LookupsCompose(env, attempt.fails, stocks, codes - todo, code, old(resolutions));
        assert codes - (todo - {code}) == (codes - todo) + {code};
        ResolveHistoricalCode(code, stocks);
        todo := todo - {code};
      }
      assert codes - {} == codes;
    }

    /** Filter an answered daily or factor request to the equity universe and store it. */
    method StoreMarket(key: Key, stocks: seq<Row>, sessions: seq<string>, answer: seq<Row>)
      requires key.dataset == Daily || key.dataset == AdjFactor
      requires answer == MarketRows(env, key)
      modifies this
      ensures var audit := AuditFor(env, stocks, old(resolutions), key);
        Now() == Settle(NoteAbsent(attempt, old(Now()), key, audit), key,
                        FreshRows(env, stocks, sessions, old(resolutions), key), audit)
    {
      var kept, audit := FilterEquityUniverse(UniverseFor(stocks, resolutions, key), answer);
      if CountAt(audit.counts, AbsentStockBasic) > 0 {
        Record(FailureNote(Some(key.dataset), key.tag, true,
          SymbolsAbsent(if AbsentStockBasic in audit.examples then audit.examples[AbsentStockBasic] else []),
          attempt.now(Some(key.dataset), key.tag)));
      }
      if kept == [] {
        Halt(EmptyPartition);
        return;
      }
      var rows := Deduplicate(key.dataset, kept);
      if rows.Failure? {
        Halt(rows.error);
        return;
      }
      var raised := StoreFresh(key, rows.value, Some(audit));
      if raised.Some? {
        Halt(raised.value);
      }
    }

    /** A required market partition: daily bars or adjustment factors of one session. */
    method MarketPartition(key: Key, stocks: seq<Row>, sessions: seq<string>)
      requires key.dataset == Daily || key.dataset == AdjFactor
      requires stopped.None?
      modifies this
      ensures Now() == RequiredStep(env, attempt, stocks, sessions, old(Now()), key)
    {
      hide FreshRows, AuditFor;
      if key in attempt.previous && PartitionValid(files, attempt.previous[key], key) {
        KeepOld(attempt.previous[key]);
        return;
      }
      if CallFor(partitions, failed, key) in attempt.fails {
        Halt(FetchFailed);
        return;
      }
      var answer := MarketRows(env, key);
      if key.dataset == Daily {
        ResolveUnknown(UnknownCodes(stocks, answer), stocks);
      }
      assert Now() == ResolveDay(env, attempt, stocks, old(Now()), key);
      StoreMarket(key, stocks, sessions, answer);
    }

    /** The stock master: read back if it was kept, fetched otherwise. */
    method MasterPartition()
      requires Now() == Work(files, FreshManifest(attempt.resolutions), None)
      modifies this
      ensures Now() == MasterPhase(env, attempt, old(files))
    {
      hide RequiredStep, PartitionValid, Dedup, RowIssue, TableFor, EntryFor;
      RangeStepIs(env, attempt, [], [], Now(), STOCK_KEY);
      if STOCK_KEY in attempt.previous && PartitionValid(files, attempt.previous[STOCK_KEY], STOCK_KEY) {
        KeepOld(attempt.previous[STOCK_KEY]);
      } else if CallStock in attempt.fails {
        Halt(FetchFailed);
        return;
      } else {
        var rows := Deduplicate(StockBasic, env.provider.stock);
        if rows.Failure? {
          Halt(rows.error);
          return;
        }
        var raised := StoreFresh(STOCK_KEY, rows.value, None);
        if raised.Some? {
          Halt(raised.value);
          return;
        }
      }
      master := if STOCK_KEY in files then files[STOCK_KEY].rows else [];
    }

    /** The calendar: a kept file must still cover the requested range. */
    method CalendarPartition()
      requires stopped.None?
      modifies this
      ensures Now() == CalendarPhase(env, attempt, old(Now()))
    {
      ghost var w := Now();
      CalendarFile();
      ghost var read := RequiredStep(env, attempt, w.m.master, [], w, CALENDAR_KEY);
      assert Now() == read;
      hide RequiredStep;
      if stopped.Some? {
        return;
      }
      var rows := if CALENDAR_KEY in files then files[CALENDAR_KEY].rows else [];
      if Sessions(rows) == [] {
        Halt(NoOpenSessions);
        return;
      }
      calendar := rows;
    }

    method CalendarFile()
      requires stopped.None?
      modifies this
      ensures Now() == RequiredStep(env, attempt, old(master), [], old(Now()), CALENDAR_KEY)
    {
      hide RequiredStep, Dedup, RowIssue, TableFor, EntryFor;
      RangeStepIs(env, attempt, master, [], Now(), CALENDAR_KEY);
      var candidate := [];
      if CALENDAR_KEY in attempt.previous && PartitionValid(files, attempt.previous[CALENDAR_KEY], CALENDAR_KEY) {
        candidate := files[attempt.previous[CALENDAR_KEY].key].rows;
      }
      if CalendarCovers(candidate, env.config.start, env.config.end) {
        KeepOld(attempt.previous[CALENDAR_KEY]);
      } else if CallCalendar in attempt.fails {
        Halt(FetchFailed);
      } else {
        var rows := Deduplicate(Calendar, env.provider.calendar);
        if rows.Failure? {
          Halt(rows.error);
        } else if !CalendarCovers(rows.value, env.config.start, env.config.end) {
          Halt(CalendarTooShort);
        } else {
          var raised := StoreFresh(CALENDAR_KEY, rows.value, None);
          if raised.Some? {
            Halt(raised.value);
          }
        }
      }
    }

    method DayPartitions(sessions: seq<string>)
      requires stopped.None?
      modifies this
      ensures Now() == DaysPhase(env, attempt, old(master), sessions, old(Now()), |sessions|)
    {
      hide RequiredStep;
      ghost var start, stocks := Now(), master;
      var i := 0;
      while i < |sessions|
        invariant 0 <= i <= |sessions|
        invariant Now() == DaysPhase(env, attempt, stocks, sessions, start, i)
        invariant stopped.None? && master == stocks
      {
        var tag := Session(sessions[i]);
        ghost var before := Now();
        MarketPartition(Key(Daily, tag), master, sessions);
        StepFrame(env, attempt, stocks, sessions, before, Key(Daily, tag));
        if stopped.None? {
          ghost var between := Now();
          MarketPartition(Key(AdjFactor, tag), master, sessions);
          StepFrame(env, attempt, stocks, sessions, between, Key(AdjFactor, tag));
        } else {
          StepFrame(env, attempt, stocks, sessions, Now(), Key(AdjFactor, tag));
        }
        i := i + 1;
        if stopped.Some? {
          DaysHalted(env, attempt, stocks, sessions, start, i, |sessions|);
          return;
        }
      }
    }

    /** The benchmark: a kept file must still cover every session. */
    method BenchmarkPartition(sessions: seq<string>)
      requires stopped.None?
      modifies this
      ensures Now() == BenchmarkPhase(env, attempt, old(master), sessions, old(Now()))
    {
      ghost var w := Now();
      BenchmarkFile(sessions);
      assert Now() == RequiredStep(env, attempt, w.m.master, sessions, w, BENCHMARK_KEY);
      hide RequiredStep;
      if stopped.None? {
        benchmarkRows := if BENCHMARK_KEY in files then |files[BENCHMARK_KEY].rows| else 0;
      }
    }

    method BenchmarkFile(sessions: seq<string>)
      requires stopped.None?
      modifies this
      ensures Now() == RequiredStep(env, attempt, old(master), sessions, old(Now()), BENCHMARK_KEY)
    {
      hide RequiredStep, Dedup, RowIssue, TableFor, EntryFor;
      RangeStepIs(env, attempt, master, sessions, Now(), BENCHMARK_KEY);
      var candidate := [];
      if BENCHMARK_KEY in attempt.previous && PartitionValid(files, attempt.previous[BENCHMARK_KEY], BENCHMARK_KEY) {
        candidate := files[attempt.previous[BENCHMARK_KEY].key].rows;
      }
      if CoversSessions(candidate, sessions) {
        KeepOld(attempt.previous[BENCHMARK_KEY]);
      } else if CallBenchmark in attempt.fails {
        Halt(FetchFailed);
      } else {
        var rows := Deduplicate(Benchmark, env.provider.benchmark);
        if rows.Failure? {
          Halt(rows.error);
        } else if !CoversSessions(rows.value, sessions) {
          Halt(BenchmarkGap);
        } else {
          var raised := StoreFresh(BENCHMARK_KEY, rows.value, None);
          if raised.Some? {
            Halt(raised.value);
          }
        }
      }
    }

    /** Fetch, check, filter and store one optional partition, or note why that failed. */
    method OptionalFile(key: Key, sessions: seq<string>) returns (ok: bool)
      requires key.dataset in {DailyBasic, Suspend, Limits}
      modifies this
      ensures var rows := if CallFor(old(partitions), old(failed), key) in attempt.fails then Failure(FetchFailed)
                          else FreshRows(env, old(master), sessions, old(resolutions), key);
        && ok == rows.Success?
        && Now() == if rows.Failure?
             then Note(old(Now()), FailureNote(Some(key.dataset), key.tag, false, Raised(rows.error), attempt.now(Some(key.dataset), key.tag)))
             else Write(old(Now()), key, rows.value, AuditFor(env, old(master), old(resolutions), key))
    {
      ok := false;
      var error := FetchFailed;
      if CallFor(partitions, failed, key) !in attempt.fails {
        var answer := MarketRows(env, key);
        var wellFormed := Deduplicate(key.dataset, answer);
        if wellFormed.Failure? {
          error := wellFormed.error;
        } else {
          var kept, audit := FilterEquityUniverse(UniverseFor(master, resolutions, key), answer);
          var rows := Deduplicate(key.dataset, kept);
          if rows.Failure? {
            error := rows.error;
          } else {
            var raised := StoreFresh(key, rows.value, Some(audit));
            if raised.None? {
              ok := true;
              return;
            }
            error := raised.value;
          }
        }
      }
      Record(FailureNote(Some(key.dataset), key.tag, false, Raised(error), attempt.now(Some(key.dataset), key.tag)));
    }

    method OptionalPartition(key: Key, sessions: seq<string>) returns (ok: bool)
      requires key.dataset in {DailyBasic, Suspend, Limits}
      modifies this
      ensures Now() == OptionalStep(env, attempt, old(master), sessions, old(Now()), key)
      ensures |failed| == |old(failed)| + if ok then 0 else 1
      ensures master == old(master)
    {
      hide FreshRows, AuditFor;
      if key in attempt.previous && PartitionValid(files, attempt.previous[key], key) {
        KeepOld(attempt.previous[key]);
        return true;
      }
      ok := OptionalFile(key, sessions);
    }

    /** One optional dataset over all sessions, and the capability it earns. */
    method OptionalMarketDataset(dataset: Dataset, sessions: seq<string>)
      requires dataset in {DailyBasic, Suspend, Limits}
      modifies this
      ensures Now() == OptionalDataset(env, attempt, old(master), sessions, old(Now()), dataset)
      ensures master == old(master)
    {
      hide OptionalStep;
      ghost var start, stocks := Now(), master;
      var anyFailed, i := false, 0;
      while i < |sessions|
        invariant 0 <= i <= |sessions|
        invariant Now() == OptionalDays(env, attempt, stocks, sessions, start, dataset, i)
        invariant master == stocks
        invariant |failed| >= |start.m.failed| && (anyFailed <==> |failed| > |start.m.failed|)
      {
        var ok := OptionalPartition(SessionKey(dataset, sessions[i]), sessions);
        anyFailed := anyFailed || !ok;
        i := i + 1;
      }
      var complete := forall d :: d in sessions ==> HasKey(partitions, SessionKey(dataset, d));
      if complete && !anyFailed {
        capabilities := capabilities[dataset := Available];
      } else if exists entry :: entry in partitions && entry.key.dataset == dataset {
        capabilities := capabilities[dataset := Incomplete];
      } else {
        capabilities := capabilities[dataset := Unavailable];
      }
    }

    /** The name histories of one shard's symbols, in order, unless one of them fails. */
    method CollectRecords(codes: seq<string>) returns (records: Result<seq<Row>, Error>)
      ensures records == NameRecords(env, attempt.fails, codes)
    {
      var found: seq<Row> := [];
      ghost var all := NameRecords(env, attempt.fails, codes);
      assert codes[0..] == codes && (all.Success? ==> [] + all.value == all.value);
      for i := 0 to |codes|
        invariant NameRecords(env, attempt.fails, codes) == Prepend(found, NameRecords(env, attempt.fails, codes[i..]))
      {
        assert codes[i..][0] == codes[i] && codes[i..][1..] == codes[i + 1..];
        if CallNames(codes[i]) in attempt.fails {
          return Failure(FetchFailed);
        }
        var result := env.provider.names(codes[i]);
        if |result| >= RESPONSE_CAP {
          return Failure(ResponseCap);
        }
        ghost var rest := NameRecords(env, attempt.fails, codes[i + 1..]);
        assert rest.Success? ==> found + (result + rest.value) == (found + result) + rest.value;
        found := found + result;
      }
      assert found + [] == found;
      return Success(found);
    }

    method ShardPartition(codes: seq<string>, index: nat)
      modifies this
      ensures Now() == ShardStep(env, attempt, codes, old(Now()), index)
    {
      var key := ShardKey(index);
      if key in attempt.previous && PartitionValid(files, attempt.previous[key], key) {
        KeepOld(attempt.previous[key]);
        return;
      }
      var records := CollectRecords(codes);
      hide NameRecords, PartitionValid;
      var error := FetchFailed;
      if records.Failure? {
        error := records.error;
      } else {
        var rows := Deduplicate(NameChange, records.value);
        if rows.Failure? {
          error := rows.error;
        } else {
          var raised := StoreFresh(key, rows.value, None);
          if raised.None? {
            return;
          }
          error := raised.value;
        }
      }
      var stamp := attempt.now(Some(NameChange), Shard(index));
      Record(FailureNote(Some(NameChange), Shard(index), false, Raised(error), stamp));
      names := names.(failedShards := names.failedShards + [ShardFailure(index, error, stamp)]);
    }

    /** Once every shard is listed, their rows are read back, combined and stored. */
    method CombineShards(shards: seq<seq<string>>)
      requires stopped.None?
      modifies this
      ensures Now() == CombineNames(old(Now()), shards)
    {
      hide CompletedSymbols, ReadAll, ShardEntries;
      var entries := ShardEntries(partitions);
      names := names.(completedShards := |entries|, completedSymbols := CompletedSymbols(entries, shards));
      if |entries| == |shards| {
        var rows := Deduplicate(NameChange, ReadAll(files, entries));
        if rows.Failure? {
          Halt(rows.error);
          return;
        }
        var raised := StoreFresh(NAMES_KEY, rows.value, None);
        if raised.Some? {
          Halt(raised.value);
          return;
        }
        names := names.(complete := true);
        capabilities := capabilities[NameChange := Available];
      } else {
        capabilities := capabilities[NameChange := if entries == [] then Unavailable else Incomplete];
      }
    }

    method NameHistory()
      requires stopped.None?
      modifies this
      ensures Now() == NamesPhase(env, attempt, old(master), old(Now()))
    {
      hide ShardStep, CombineNames, Symbols, Shards;
      var symbols := Symbols(env, master);
      var shards := Shards(symbols, ShardSize(env));
      names := names.(plannedSymbols := |symbols|, plannedShards := |shards|);
      ghost var planned := Now();
      var i := 0;
      while i < |shards|
        invariant 0 <= i <= |shards|
        invariant Now() == ShardSteps(env, attempt, shards, planned, i) && stopped.None?
      {
        ghost var before := Now();
        ShardPartition(shards[i], i);
        ShardNeverHalts(env, attempt, shards[i], before, i);
        i := i + 1;
      }
      CombineShards(shards);
    }

    /** `build_snapshot`: the draft, and what its local validation makes of it. */
    method BuildSnapshot()
      requires Now() == Work(files, FreshManifest(attempt.resolutions), None)
      modifies this
      ensures Now() == Build(env, attempt, old(files))
    {
      hide Draft, Objects, Named, Complains;
      WriteDraft();
      var m := Manifest(partitions, resolutions, resumed, failed, master, calendar, benchmarkRows, capabilities, names, auditedOver, completed);
      var errors := ValidateSnapshot(env.config, m, files);
      assert Objects(env.config, m, files) <==> errors != [] by { ObjectsIff(env.config, m, files, errors); }
      if errors != [] && completed {
        var named := NamedIn(env.config, m, files, errors);
        if named == {} {
          failed := failed + [FailureNote(None, NoTag, true, LocalValidation, attempt.now(None, NoTag))];
          completed := false;
        } else {
          capabilities := Demote(capabilities, named);
          failed := failed + DemotionNotes(attempt, named, OPTIONAL_DATASETS);
        }
      }
    }

    /** The required phases, the optional ones, the closing notes and the status. */
    method WriteDraft()
      requires Now() == Work(files, FreshManifest(attempt.resolutions), None)
      modifies this
      ensures Now() == Draft(env, attempt, old(files))
    {
      hide MasterPhase, CalendarPhase, DaysPhase, BenchmarkPhase, OptionalDataset, NamesPhase;
      ghost var before := files;
      RequiredPhases();
      ghost var required := Now();
      assert required == Required(env, attempt, before);
      hide Required;
      if stopped.None? && env.config.includeOptional {
        var sessions := Sessions(calendar);
        OptionalMarketDataset(DailyBasic, sessions);
        OptionalMarketDataset(Suspend, sessions);
        OptionalMarketDataset(Limits, sessions);
        MarketFrame(env, attempt, required.m.master, sessions, required);
        NameHistory();
      }
      if stopped.Some? {
        Record(FailureNote(None, NoTag, true, Raised(stopped.value), attempt.now(None, NoTag)));
        completed := false;
      } else {
        auditedOver := partitions;
        completed := !exists note :: note in failed && note.required;
      }
    }

    method RequiredPhases()
      requires Now() == Work(files, FreshManifest(attempt.resolutions), None)
      modifies this
      ensures Now() == Required(env, attempt, old(files))
    {
      ghost var before := files;
      MasterPartition();
      ghost var w := Now();
      MasterFrame(env, attempt, before);
      if stopped.None? {
        CalendarPartition();
      }
      CalendarFrame(env, attempt, w);
      hide MasterPhase, CalendarPhase, RequiredStep;
      if stopped.Some? {
        EarlyHalt(env, attempt, Now());
        return;
      }
      var sessions := Sessions(calendar);
      ghost var start := Now();
      DayPartitions(sessions);
      DaysFrame(env, attempt, start.m.master, sessions, start, |sessions|);
      if stopped.None? {
        BenchmarkPartition(sessions);
      } else {
        StepFrame(env, attempt, start.m.master, sessions, Now(), BENCHMARK_KEY);
      }
    }
  }

  lemma ObjectsIff(config: Config, m: Manifest, files: map<Key, Table>, errors: seq<Complaint>)
    requires forall c :: c in errors <==> Complains(config, m, files, c)
    ensures Objects(config, m, files) <==> errors != []
  {
    hide Complains;
    if errors != [] { assert errors[0] in errors; }
  }

  lemma ShardNeverHalts(e: Env, a: Attempt, codes: seq<string>, w: Work, index: nat)
    ensures ShardStep(e, a, codes, w, index).stopped == w.stopped
  {
    hide ShardRows;
  }

  lemma {:induction false} OptionalFrame(e: Env, a: Attempt, stocks: seq<Row>, sessions: seq<string>, w: Work, dataset: Dataset, days: nat)
    requires days <= |sessions|
    ensures OptionalDays(e, a, stocks, sessions, w, dataset, days).stopped == w.stopped
  {
    hide FreshRows, AuditFor, Reusable, CallFor, TableFor, EntryFor;
    if days > 0 {
      OptionalFrame(e, a, stocks, sessions, w, dataset, days - 1);
    }
  }

  lemma MarketFrame(e: Env, a: Attempt, stocks: seq<Row>, sessions: seq<string>, w: Work)
    ensures OptionalMarket(e, a, stocks, sessions, w).stopped == w.stopped
  {
    hide OptionalDays;
    var n := |sessions|;
    OptionalFrame(e, a, stocks, sessions, w, DailyBasic, n);
    var basic := OptionalDataset(e, a, stocks, sessions, w, DailyBasic);
    OptionalFrame(e, a, stocks, sessions, basic, Suspend, n);
    OptionalFrame(e, a, stocks, sessions, OptionalDataset(e, a, stocks, sessions, basic, Suspend), Limits, n);
  }

  lemma MasterFrame(e: Env, a: Attempt, files: map<Key, Table>)
    ensures MasterPhase(e, a, files).m.calendar == []
  {
    hide RequiredStep;
    StepFrame(e, a, [], [], Work(files, FreshManifest(a.resolutions), None), STOCK_KEY);
  }

  /** A build that has not got past the calendar has recorded none. */
  lemma CalendarFrame(e: Env, a: Attempt, w: Work)
    ensures w.stopped.Some? ==> CalendarPhase(e, a, w) == w
    ensures w.m.calendar == [] && CalendarPhase(e, a, w).stopped.Some? ==> CalendarPhase(e, a, w).m.calendar == []
    ensures CalendarPhase(e, a, w).m.master == w.m.master
  {
    StepFrame(e, a, w.m.master, [], w, CALENDAR_KEY);
    hide RequiredStep, Sessions, RowsAt;
  }

  lemma EarlyHalt(e: Env, a: Attempt, w: Work)
    requires w.stopped.Some? && w.m.calendar == []
    ensures var sessions := Sessions(w.m.calendar);
      BenchmarkPhase(e, a, w.m.master, sessions, DaysPhase(e, a, w.m.master, sessions, w, |sessions|)) == w
  {
    hide RequiredStep;
    StepFrame(e, a, w.m.master, [], w, BENCHMARK_KEY);
  }

  lemma {:induction false} DaysFrame(e: Env, a: Attempt, stocks: seq<Row>, sessions: seq<string>, w: Work, days: nat)
    requires days <= |sessions|
    ensures DaysPhase(e, a, stocks, sessions, w, days).m.master == w.m.master
  {
    hide RequiredStep;
    if days > 0 {
      DaysFrame(e, a, stocks, sessions, w, days - 1);
      var before := DaysPhase(e, a, stocks, sessions, w, days - 1);
      StepFrame(e, a, stocks, sessions, before, Key(Daily, Session(sessions[days - 1])));
      StepFrame(e, a, stocks, sessions, RequiredStep(e, a, stocks, sessions, before, Key(Daily, Session(sessions[days - 1]))),
                Key(AdjFactor, Session(sessions[days - 1])));
    }
  }

  /** A required step keeps the stock master, and does nothing once the build has stopped. */
  lemma StepFrame(e: Env, a: Attempt, stocks: seq<Row>, sessions: seq<string>, w: Work, key: Key)
    ensures RequiredStep(e, a, stocks, sessions, w, key).m.master == w.m.master
    ensures RequiredStep(e, a, stocks, sessions, w, key).m.calendar == w.m.calendar
    ensures w.stopped.Some? ==> RequiredStep(e, a, stocks, sessions, w, key) == w
  {
    hide Fetched, Reusable;
    StepKeepsRest(e, a, stocks, sessions, w, key);
  }

  lemma {:induction false} DaysHalted(e: Env, a: Attempt, stocks: seq<Row>, sessions: seq<string>, w: Work, i: nat, n: nat)
    requires i <= n <= |sessions| && DaysPhase(e, a, stocks, sessions, w, i).stopped.Some?
    ensures DaysPhase(e, a, stocks, sessions, w, n) == DaysPhase(e, a, stocks, sessions, w, i)
  {
    hide RequiredStep;
    if i < n {
      DaysHalted(e, a, stocks, sessions, w, i, n - 1);
      var before := DaysPhase(e, a, stocks, sessions, w, n - 1);
      StepFrame(e, a, stocks, sessions, before, Key(Daily, Session(sessions[n - 1])));
      StepFrame(e, a, stocks, sessions, before, Key(AdjFactor, Session(sessions[n - 1])));
    }
  }

  lemma LookupsCompose(e: Env, fails: map<Call, string>, stocks: seq<Row>, codes: set<string>, code: string, resolutions: map<string, Resolution>)
    ensures WithLookups(e, fails, stocks, {code}, WithLookups(e, fails, stocks, codes, resolutions))
      == WithLookups(e, fails, stocks, codes + {code}, resolutions)
  {
  }
}
