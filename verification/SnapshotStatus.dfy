/** The status of a first manifest: which required notes an undisturbed build adds. Only days
    it fetches are noted, so a resumed build does not repeat the notes of days it reuses. */
module SnapshotStatus {
  import opened Outcomes
  import opened SnapshotRows
  import opened SnapshotModel
  import opened SnapshotResume
  import opened SnapshotOptional
  import opened SnapshotRecovery

  // ----- Symbols absent from the stock master

  predicate AbsentIn(audit: Option<Audit>) {
    audit.Some? && CountAt(audit.value.counts, AbsentStockBasic) > 0
  }

  /** Only daily bars require every row to be an equity or a historical alias. */
  lemma {:induction false} OthersHaveNone(u: Universe, rows: seq<Row>)
    requires !u.requiredMarket
    ensures CountAt(Filtered(u, rows).1.counts, AbsentStockBasic) == 0
  {
    hide InstrumentType, IsAlias, Keeps;
    if rows != [] {
      OthersHaveNone(u, rows[..|rows| - 1]);
      KindsOfRows(rows[|rows| - 1], u.equity);
    }
  }

  lemma KindsOfRows(row: Row, equity: set<string>)
    ensures InstrumentType(row, equity) != AbsentStockBasic
  {
    hide Upper, BeforeDot, AfterDot, Digits, StartsWith;
  }

  /** An absent symbol leaves an example in the audit. */
  lemma {:induction false} AbsentLeavesExample(u: Universe, rows: seq<Row>)
    ensures var audit := Filtered(u, rows).1;
      CountAt(audit.counts, AbsentStockBasic) > 0 ==> AbsentStockBasic in audit.examples
  {
    hide Classify, Keeps;
    if rows != [] {
      AbsentLeavesExample(u, rows[..|rows| - 1]);
    }
  }

  lemma AuditsOf(e: Env, key: Key)
    ensures var audit := TruthOf(e).audit(key);
      AbsentIn(audit) ==> key.dataset == Daily && AbsentStockBasic in audit.value.examples
  {
    var t := TruthOf(e);
    assert t.audit(key) == AuditFor(e, Stocks(e), Known(e, t.dates, t.unknown, key), key);
    var u := UniverseFor(Stocks(e), Known(e, t.dates, t.unknown, key), key);
    hide TruthOf, Known, Stocks, Filtered, UniverseFor;
    if key.dataset != Daily { NotRequired(e, u, key); }
    AbsentLeavesExample(u, MarketRows(e, key));
  }

  lemma NotRequired(e: Env, u: Universe, key: Key)
    requires key.dataset != Daily && u.requiredMarket == (key.dataset == Daily)
    ensures CountAt(Filtered(u, MarketRows(e, key)).1.counts, AbsentStockBasic) == 0
  {
    OthersHaveNone(u, MarketRows(e, key));
  }

  // ----- Notes of the required steps

  lemma NoteNotes(a: Attempt, w: Work, key: Key, audit: Option<Audit>)
    ensures RequiredFailed(NoteAbsent(a, w, key, audit).m) <==> RequiredFailed(w.m) || AbsentIn(audit)
  {
    var next := NoteAbsent(a, w, key, audit);
    if AbsentIn(audit) {
      assert next.m.failed[|w.m.failed|] in next.m.failed;
    }
    assert forall note :: note in w.m.failed ==> note in next.m.failed;
  }

  lemma StepNotes(e: Env, a: Attempt, stocks: seq<Row>, sessions: seq<string>, w: Work, key: Key)
    requires w.stopped.None? && RequiredStep(e, a, stocks, sessions, w, key).stopped.None?
    ensures RequiredFailed(RequiredStep(e, a, stocks, sessions, w, key).m) <==>
      || RequiredFailed(w.m)
      || (!Reusable(e, a, w.files, sessions, key)
          && AbsentIn(AuditFor(e, stocks, ResolveDay(e, a, stocks, w, key).m.resolutions, key)))
  {
    hide Reusable, AuditFor, FreshRows, WithLookups, NoteAbsent, AbsentIn;
    var resolved := ResolveDay(e, a, stocks, w, key);
    NoteNotes(a, resolved, key, AuditFor(e, stocks, resolved.m.resolutions, key));
  }

  /** A required step notes the day it fetches, if a symbol of it is absent. */
  lemma PlanStepNotes(e: Env, a: Attempt, files: map<Key, Table>, stocks: seq<Row>, sessions: seq<string>, w: Work, r: nat, k: nat)
    requires Resumes(TruthOf(e), a, files, k) && r < PlanLength(TruthOf(e))
    requires ComesTo(e, a, files, w, r, k) && w.stopped.None?
    requires r >= 2 ==> stocks == Stocks(e) && sessions == TruthOf(e).dates
    requires RequiredStep(e, a, stocks, sessions, w, PlanKey(TruthOf(e), r)).stopped.None?
    ensures var t, key := TruthOf(e), PlanKey(TruthOf(e), r);
      RequiredFailed(RequiredStep(e, a, stocks, sessions, w, key).m) <==>
        RequiredFailed(w.m) || (key !in a.previous && AbsentIn(t.audit(key)))
  {
    var t, key := TruthOf(e), PlanKey(TruthOf(e), r);
    StepNotes(e, a, stocks, sessions, w, key);
    ResumesStill(t, a, files, w.files, k);
    ReuseAccepted(e, a, w.files, sessions, k, key);
    if key !in a.previous {
      FetchedRight(e, a, stocks, sessions, w, r, k);
    }
  }

  /** A day that this attempt fetches, with a symbol absent from the stock master. */
  predicate NotesDay(t: Truth, a: Attempt, date: string) {
    Key(Daily, Session(date)) !in a.previous && AbsentIn(t.audit(Key(Daily, Session(date))))
  }

  lemma DayNotes(e: Env, a: Attempt, files: map<Key, Table>, w: Work, i: nat, k: nat)
    requires Resumes(TruthOf(e), a, files, k) && i < |TruthOf(e).dates|
    requires ComesTo(e, a, files, w, 2 + 2 * i, k) && w.stopped.None?
    requires var t := TruthOf(e);
      RequiredStep(e, a, Stocks(e), t.dates, RequiredStep(e, a, Stocks(e), t.dates, w, Key(Daily, Session(t.dates[i]))),
                   Key(AdjFactor, Session(t.dates[i]))).stopped.None?
    ensures var t := TruthOf(e);
      RequiredFailed(RequiredStep(e, a, Stocks(e), t.dates, RequiredStep(e, a, Stocks(e), t.dates, w, Key(Daily, Session(t.dates[i]))),
                                  Key(AdjFactor, Session(t.dates[i]))).m)
      <==> RequiredFailed(w.m) || NotesDay(t, a, t.dates[i])
  {
    hide TruthOf, RequiredStep, ComesTo, Resumes, RequiredFailed, AbsentIn;
    var t := TruthOf(e);
    var daily, factor := PlanKey(t, 2 + 2 * i), PlanKey(t, 3 + 2 * i);
    assert daily == Key(Daily, Session(t.dates[i])) && factor == Key(AdjFactor, Session(t.dates[i]));
    var between := RequiredStep(e, a, Stocks(e), t.dates, w, daily);
    if between.stopped.Some? { StoppedStays(e, a, Stocks(e), t.dates, between, factor); }
    PlanStepNotes(e, a, files, Stocks(e), t.dates, w, 2 + 2 * i, k);
    var r := StepComes(e, a, files, Stocks(e), t.dates, w, 2 + 2 * i, k);
    PlanStepNotes(e, a, files, Stocks(e), t.dates, between, 3 + 2 * i, k);
    AuditsOf(e, factor);
  }

  lemma {:induction false} DaysNotes(e: Env, a: Attempt, files: map<Key, Table>, w: Work, i: nat, k: nat)
    requires Resumes(TruthOf(e), a, files, k) && i <= |TruthOf(e).dates|
    requires ComesTo(e, a, files, w, 2, k) && w.stopped.None?
    requires DaysPhase(e, a, Stocks(e), TruthOf(e).dates, w, i).stopped.None?
    ensures var t := TruthOf(e);
      RequiredFailed(DaysPhase(e, a, Stocks(e), t.dates, w, i).m) <==>
        RequiredFailed(w.m) || exists j :: 0 <= j < i && NotesDay(t, a, t.dates[j])
  {
    hide TruthOf, RequiredStep, ComesTo, Resumes, RequiredFailed, NotesDay;
    if i > 0 {
      var t := TruthOf(e);
      var before := DaysPhase(e, a, Stocks(e), t.dates, w, i - 1);
      if before.stopped.Some? {
        StoppedStays(e, a, Stocks(e), t.dates, before, Key(Daily, Session(t.dates[i - 1])));
        StoppedStays(e, a, Stocks(e), t.dates, before, Key(AdjFactor, Session(t.dates[i - 1])));
      }
      DaysNotes(e, a, files, w, i - 1, k);
      var r := DaysCome(e, a, files, w, i - 1, k);
      DayNotes(e, a, files, before, i - 1, k);
    }
  }

  /** The required part notes exactly the days it fetches that hold an absent symbol. */
  lemma RequiredNotes(e: Env, a: Attempt, files: map<Key, Table>, k: nat)
    requires Ready(TruthOf(e), a, files, k) && Required(e, a, files).stopped.None?
    ensures var t := TruthOf(e);
      RequiredFailed(Required(e, a, files).m) <==> exists date :: date in t.dates && NotesDay(t, a, date)
  {
    var t := TruthOf(e);
    var start := Work(files, FreshManifest(a.resolutions), None);
    StartComes(e, a, files, k);
    var r := MasterComes(e, a, files, k);
    var q := CalendarComes(e, a, files, k);
    var master, w := MasterPhase(e, a, files), CalendarPhase(e, a, MasterPhase(e, a, files));
    RangeStepsNote(e, a, files, start, master, w, k);
    hide MasterPhase, CalendarPhase, RequiredStep, ComesTo, NotesDay, RequiredFailed, Ready;
    if w.stopped.Some? {
      HaltedEarly(e, a, files, w, q);
    } else {
      TailNotes(e, a, files, w, k);
    }
  }

  lemma RangeStepsNote(e: Env, a: Attempt, files: map<Key, Table>, start: Work, master: Work, w: Work, k: nat)
    requires Ready(TruthOf(e), a, files, k) && start == Work(files, FreshManifest(a.resolutions), None)
    requires master == MasterPhase(e, a, files) && w == CalendarPhase(e, a, master)
    requires ComesTo(e, a, files, start, 0, k) && (master.stopped.None? ==> ComesTo(e, a, files, master, 1, k))
    ensures w.stopped.None? ==> !RequiredFailed(w.m)
  {
    var t := TruthOf(e);
    AuditsOf(e, STOCK_KEY);
    AuditsOf(e, CALENDAR_KEY);
    hide TruthOf, RequiredStep, ComesTo, AbsentIn;
    if w.stopped.None? {
      if master.stopped.Some? {
        StoppedStays(e, a, master.m.master, [], master, CALENDAR_KEY);
      } else {
        PlanStepNotes(e, a, files, [], [], start, 0, k);
        PlanStepNotes(e, a, files, master.m.master, [], master, 1, k);
      }
    }
  }

  lemma TailNotes(e: Env, a: Attempt, files: map<Key, Table>, w: Work, k: nat)
    requires Ready(TruthOf(e), a, files, k) && w == CalendarPhase(e, a, MasterPhase(e, a, files))
    requires ComesTo(e, a, files, w, 2, k) && w.stopped.None? && DerivedAt(e, w, 2) && TruthOf(e).dates != []
    requires !RequiredFailed(w.m) && w.m.benchmarkRows == 0 && Required(e, a, files).stopped.None?
    ensures var t := TruthOf(e);
      RequiredFailed(Required(e, a, files).m) <==> exists date :: date in t.dates && NotesDay(t, a, date)
  {
    hide Required, DaysPhase, ComesTo, Resumes, NotesDay, RequiredFailed, Ready, TruthOf, Stocks, DerivedAt, BenchmarkPhase,
      CalendarPhase, MasterPhase, SameRest;
    RequiredIsTail(e, a, files, w);
    ReadyResumes(TruthOf(e), a, files, k);
    var t := TruthOf(e);
    var days := DaysPhase(e, a, Stocks(e), t.dates, w, |t.dates|);
    BenchmarkStops(e, a, Stocks(e), t.dates, days);
    DaysNotes(e, a, files, w, |t.dates|, k);
    var r := DaysCome(e, a, files, w, |t.dates|, k);
    BenchmarkNotes(e, a, files, days, k);
    NotesByIndex(t, a);
  }

  lemma NotesByIndex(t: Truth, a: Attempt)
    ensures (exists j :: 0 <= j < |t.dates| && NotesDay(t, a, t.dates[j])) <==> exists date :: date in t.dates && NotesDay(t, a, date)
  {
    hide NotesDay;
    forall date | date in t.dates && NotesDay(t, a, date) ensures exists j :: 0 <= j < |t.dates| && NotesDay(t, a, t.dates[j]) {
      var j :| 0 <= j < |t.dates| && t.dates[j] == date;
    }
  }

  lemma RequiredIsTail(e: Env, a: Attempt, files: map<Key, Table>, w: Work)
    requires w == CalendarPhase(e, a, MasterPhase(e, a, files)) && DerivedAt(e, w, 2) && TruthOf(e).dates != []
    ensures var t := TruthOf(e);
      Required(e, a, files) == BenchmarkPhase(e, a, Stocks(e), t.dates, DaysPhase(e, a, Stocks(e), t.dates, w, |t.dates|))
  {
    DatesAreSessions(e);
    hide MasterPhase, CalendarPhase, DaysPhase, BenchmarkPhase, TruthOf, Stocks, CalendarRows, Sessions;
  }

  lemma BenchmarkStops(e: Env, a: Attempt, stocks: seq<Row>, sessions: seq<string>, days: Work)
    ensures days.stopped.Some? ==> BenchmarkPhase(e, a, stocks, sessions, days) == days
  {
    hide Reusable, Fetched;
  }

  lemma BenchmarkNotes(e: Env, a: Attempt, files: map<Key, Table>, days: Work, k: nat)
    requires Resumes(TruthOf(e), a, files, k) && TruthOf(e).dates != []
    requires ComesTo(e, a, files, days, 2 + 2 * |TruthOf(e).dates|, k) && days.stopped.None?
    requires BenchmarkPhase(e, a, Stocks(e), TruthOf(e).dates, days).stopped.None?
    ensures RequiredFailed(BenchmarkPhase(e, a, Stocks(e), TruthOf(e).dates, days).m) <==> RequiredFailed(days.m)
  {
    AuditsOf(e, BENCHMARK_KEY);
    hide RequiredStep, ComesTo, Resumes, RequiredFailed, TruthOf, AbsentIn, Stocks, RowsAt;
    var t := TruthOf(e);
    var read := RequiredStep(e, a, Stocks(e), t.dates, days, BENCHMARK_KEY);
    PlanStepNotes(e, a, files, Stocks(e), t.dates, days, 2 + 2 * |t.dates|, k);
    SameNotes(read.m, BenchmarkPhase(e, a, Stocks(e), t.dates, days).m);
  }

  lemma SameNotes(m: Manifest, n: Manifest)
    requires m.failed == n.failed
    ensures RequiredFailed(m) <==> RequiredFailed(n)
  {
  }

  // ----- The optional part adds no required note

  lemma OptionalNote(m: Manifest, n: Manifest, note: FailureNote)
    requires n.failed == m.failed + [note] && !note.required
    ensures RequiredFailed(m) <==> RequiredFailed(n)
  {
    assert forall other :: other in n.failed <==> other in m.failed || other == note;
  }

  lemma OptionalStepNotes(e: Env, a: Attempt, stocks: seq<Row>, sessions: seq<string>, w: Work, key: Key)
    ensures RequiredFailed(OptionalStep(e, a, stocks, sessions, w, key).m) <==> RequiredFailed(w.m)
  {
    hide FreshRows, AuditFor, Reusable, RequiredFailed;
    var next := OptionalStep(e, a, stocks, sessions, w, key);
    if next.m.failed == w.m.failed {
      SameNotes(w.m, next.m);
    } else {
      OptionalNote(w.m, next.m, next.m.failed[|w.m.failed|]);
    }
  }

  lemma {:induction false} OptionalDaysNotes(e: Env, a: Attempt, stocks: seq<Row>, sessions: seq<string>, w: Work, dataset: Dataset, days: nat)
    requires days <= |sessions|
    ensures RequiredFailed(OptionalDays(e, a, stocks, sessions, w, dataset, days).m) <==> RequiredFailed(w.m)
  {
    hide OptionalStep, RequiredFailed;
    if days > 0 {
      OptionalDaysNotes(e, a, stocks, sessions, w, dataset, days - 1);
      OptionalStepNotes(e, a, stocks, sessions, OptionalDays(e, a, stocks, sessions, w, dataset, days - 1), SessionKey(dataset, sessions[days - 1]));
    }
  }

  lemma DatasetNotes(e: Env, a: Attempt, stocks: seq<Row>, sessions: seq<string>, w: Work, dataset: Dataset)
    ensures RequiredFailed(OptionalDataset(e, a, stocks, sessions, w, dataset).m) <==> RequiredFailed(w.m)
  {
    hide OptionalDays, Capable, RequiredFailed;
    OptionalDaysNotes(e, a, stocks, sessions, w, dataset, |sessions|);
    SameNotes(OptionalDays(e, a, stocks, sessions, w, dataset, |sessions|).m, OptionalDataset(e, a, stocks, sessions, w, dataset).m);
  }

  lemma ShardStepNotes(e: Env, a: Attempt, codes: seq<string>, w: Work, index: nat)
    ensures RequiredFailed(ShardStep(e, a, codes, w, index).m) <==> RequiredFailed(w.m)
  {
    hide ShardRows, Reusable, RequiredFailed;
    var next := ShardStep(e, a, codes, w, index);
    if next.m.failed == w.m.failed {
      SameNotes(w.m, next.m);
    } else {
      OptionalNote(w.m, next.m, next.m.failed[|w.m.failed|]);
    }
  }

  lemma {:induction false} ShardStepsNote(e: Env, a: Attempt, shards: seq<seq<string>>, w: Work, count: nat)
    requires count <= |shards|
    ensures RequiredFailed(ShardSteps(e, a, shards, w, count).m) <==> RequiredFailed(w.m)
  {
    hide ShardStep, RequiredFailed;
    if count > 0 {
      ShardStepsNote(e, a, shards, w, count - 1);
      ShardStepNotes(e, a, shards[count - 1], ShardSteps(e, a, shards, w, count - 1), count - 1);
    }
  }

  lemma NamesNote(e: Env, a: Attempt, stocks: seq<Row>, w: Work)
    ensures RequiredFailed(NamesPhase(e, a, stocks, w).m) <==> RequiredFailed(w.m)
  {
    var symbols := Symbols(e, stocks);
    var shards := Shards(symbols, ShardSize(e));
    var planned := w.(m := w.m.(names := w.m.names.(plannedSymbols := |symbols|, plannedShards := |shards|)));
    SameNotes(w.m, planned.m);
    hide Symbols, Shards, ShardSteps, CombineNames, RequiredFailed;
    ShardStepsNote(e, a, shards, planned, |shards|);
    var before := ShardSteps(e, a, shards, planned, |shards|);
    CombineKeepsNotes(before, shards);
    SameNotes(before.m, CombineNames(before, shards).m);
  }

  lemma CombineKeepsNotes(w: Work, shards: seq<seq<string>>)
    ensures CombineNames(w, shards).m.failed == w.m.failed
  {
    hide Checked, Dedup, ReadAll, ShardEntries, CompletedSymbols;
  }

  // ----- The status

  /** A first manifest is marked completed exactly when the build ran through and fetched no
      day with a symbol absent from the stock master; days it reused do not count. */
  lemma DraftStatus(e: Env, a: Attempt, files: map<Key, Table>, k: nat)
    requires Ready(TruthOf(e), a, files, k)
    ensures var t, w := TruthOf(e), Draft(e, a, files);
      w.m.completed <==> w.stopped.None? && forall date :: date in t.dates ==> !NotesDay(t, a, date)
  {
    hide Required, RequiredFailed, NotesDay, Ready, TruthOf, OptionalDataset, NamesPhase, Sessions;
    var required := Required(e, a, files);
    if required.stopped.None? {
      RequiredNotes(e, a, files, k);
      if e.config.includeOptional {
        OptionalPartNotes(e, a, required);
      }
    }
  }

  lemma OptionalPartNotes(e: Env, a: Attempt, w: Work)
    ensures var stocks, sessions := w.m.master, Sessions(w.m.calendar);
      RequiredFailed(NamesPhase(e, a, stocks, OptionalMarket(e, a, stocks, sessions, w)).m) <==> RequiredFailed(w.m)
  {
    hide OptionalDataset, NamesPhase, RequiredFailed;
    var stocks, sessions := w.m.master, Sessions(w.m.calendar);
    DatasetNotes(e, a, stocks, sessions, w, DailyBasic);
    var basic := OptionalDataset(e, a, stocks, sessions, w, DailyBasic);
    DatasetNotes(e, a, stocks, sessions, basic, Suspend);
    DatasetNotes(e, a, stocks, sessions, OptionalDataset(e, a, stocks, sessions, basic, Suspend), Limits);
    NamesNote(e, a, stocks, OptionalMarket(e, a, stocks, sessions, w));
  }
}
