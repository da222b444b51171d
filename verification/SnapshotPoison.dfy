/** A recorded resolution of a historical code is never revised, so one that a clean build
    would not record separates every later digest from a clean one. */
module SnapshotPoison {
  import opened Outcomes
  import opened SnapshotRows
  import opened SnapshotModel
  import opened SnapshotValidator
  import opened SnapshotResume
  import opened SnapshotOptional
  import opened SnapshotRecovery

  ghost predicate Preserves(before: map<string, Resolution>, after: map<string, Resolution>) {
    forall code :: code in before ==> code in after && after[code] == before[code]
  }

  lemma StepPreserves(e: Env, a: Attempt, stocks: seq<Row>, sessions: seq<string>, w: Work, key: Key)
    ensures Preserves(w.m.resolutions, RequiredStep(e, a, stocks, sessions, w, key).m.resolutions)
  {
    var resolved := ResolveDay(e, a, stocks, w, key);
    LookupsPreserve(e, a, stocks, w, key);
    hide FreshRows, AuditFor, ResolveDay, Reusable, Preserves;
    var audit := AuditFor(e, stocks, resolved.m.resolutions, key);
    SettleSame(a, resolved, key, audit, FreshRows(e, stocks, sessions, resolved.m.resolutions, key));
    PreservesItself(w.m.resolutions);
  }

  lemma LookupsPreserve(e: Env, a: Attempt, stocks: seq<Row>, w: Work, key: Key)
    ensures Preserves(w.m.resolutions, ResolveDay(e, a, stocks, w, key).m.resolutions)
  {
    hide MarketRows, UnknownCodes, LookupOne;
  }

  lemma SettleSame(a: Attempt, w: Work, key: Key, audit: Option<Audit>, rows: Result<seq<Row>, Error>)
    ensures Settle(NoteAbsent(a, w, key, audit), key, rows, audit).m.resolutions == w.m.resolutions
  {
  }

  lemma PreservesItself(resolutions: map<string, Resolution>)
    ensures Preserves(resolutions, resolutions)
  {
  }

  lemma {:induction false} DaysPreserve(e: Env, a: Attempt, stocks: seq<Row>, sessions: seq<string>, w: Work, days: nat)
    requires days <= |sessions|
    ensures Preserves(w.m.resolutions, DaysPhase(e, a, stocks, sessions, w, days).m.resolutions)
  {
    hide RequiredStep;
    if days > 0 {
      DaysPreserve(e, a, stocks, sessions, w, days - 1);
      var before := DaysPhase(e, a, stocks, sessions, w, days - 1);
      var tag := Session(sessions[days - 1]);
      StepPreserves(e, a, stocks, sessions, before, Key(Daily, tag));
      StepPreserves(e, a, stocks, sessions, RequiredStep(e, a, stocks, sessions, before, Key(Daily, tag)), Key(AdjFactor, tag));
    }
  }

  lemma RequiredPreserves(e: Env, a: Attempt, files: map<Key, Table>)
    ensures Preserves(a.resolutions, Required(e, a, files).m.resolutions)
  {
    hide RequiredStep, Sessions, DaysPhase;
    var start := Work(files, FreshManifest(a.resolutions), None);
    StepPreserves(e, a, [], [], start, STOCK_KEY);
    var master := MasterPhase(e, a, files);
    StepPreserves(e, a, master.m.master, [], master, CALENDAR_KEY);
    var w := CalendarPhase(e, a, master);
    var sessions := Sessions(w.m.calendar);
    DaysPreserve(e, a, w.m.master, sessions, w, |sessions|);
    StepPreserves(e, a, w.m.master, sessions, DaysPhase(e, a, w.m.master, sessions, w, |sessions|), BENCHMARK_KEY);
  }

  lemma {:induction false} OptionalSame(e: Env, a: Attempt, stocks: seq<Row>, sessions: seq<string>, w: Work, dataset: Dataset, days: nat)
    requires days <= |sessions|
    ensures OptionalDays(e, a, stocks, sessions, w, dataset, days).m.resolutions == w.m.resolutions
  {
    hide FreshRows, AuditFor, Reusable, TableFor;
    if days > 0 {
      OptionalSame(e, a, stocks, sessions, w, dataset, days - 1);
    }
  }

  lemma {:induction false} ShardsSame(e: Env, a: Attempt, shards: seq<seq<string>>, w: Work, count: nat)
    requires count <= |shards|
    ensures ShardSteps(e, a, shards, w, count).m.resolutions == w.m.resolutions
  {
    hide ShardRows, Reusable, TableFor;
    if count > 0 {
      ShardsSame(e, a, shards, w, count - 1);
    }
  }

  lemma OptionalPartSame(e: Env, a: Attempt, stocks: seq<Row>, sessions: seq<string>, w: Work)
    ensures NamesPhase(e, a, stocks, OptionalMarket(e, a, stocks, sessions, w)).m.resolutions == w.m.resolutions
  {
    hide OptionalDays, ShardSteps, Dedup, Checked, ReadAll, ShardEntries, CompletedSymbols, Symbols, Shards;
    var n := |sessions|;
    OptionalSame(e, a, stocks, sessions, w, DailyBasic, n);
    var basic := OptionalDataset(e, a, stocks, sessions, w, DailyBasic);
    OptionalSame(e, a, stocks, sessions, basic, Suspend, n);
    var suspend := OptionalDataset(e, a, stocks, sessions, basic, Suspend);
    OptionalSame(e, a, stocks, sessions, suspend, Limits, n);
    var market := OptionalDataset(e, a, stocks, sessions, suspend, Limits);
    var shards := Shards(Symbols(e, stocks), ShardSize(e));
    var planned := market.(m := market.m.(names := market.m.names.(
      plannedSymbols := |Symbols(e, stocks)|, plannedShards := |shards|)));
    ShardsSame(e, a, shards, planned, |shards|);
  }

  /** What a saved manifest says about a historical code, every later build repeats. */
  lemma ResolutionsAreFinal(e: Env, d: Disk, fails: map<Call, string>, now: Clock)
    requires d.saved.Some?
    ensures Preserves(d.saved.value.resolutions, Build(e, AttemptOn(d, fails, now), d.files).m.resolutions)
  {
    var a := AttemptOn(d, fails, now);
    RequiredPreserves(e, a, d.files);
    var w := Required(e, a, d.files);
    hide Required, OptionalMarket, NamesPhase, Settled;
    OptionalPartSame(e, a, w.m.master, Sessions(w.m.calendar), w);
    SettledKeeps(e, a, Draft(e, a, d.files));
  }

  /** The saved manifest records about historical codes only what a clean build would. */
  ghost predicate SavedRight(e: Env, d: Disk) {
    d.saved.Some? ==> ResolutionsRight(TruthOf(e), d.saved.value.resolutions)
  }

  lemma CleanRight(e: Env, now: Clock)
    ensures ResolutionsRight(TruthOf(e), Build(e, AttemptOn(EMPTY_DISK, NO_FAILURES, now), map[]).m.resolutions)
  {
    SoundReady(e, EMPTY_DISK, 0, NO_FAILURES, now);
    var a := AttemptOn(EMPTY_DISK, NO_FAILURES, now);
    hide Draft, Ready, Settled, TruthOf;
    var r := DraftLeaves(e, a, map[], 0);
    SettledKeeps(e, a, Draft(e, a, map[]));
  }

  /** A saved resolution that a clean build would not record, be it an error of the transport
      or a decision about a code it never meets, keeps the digest of every later build away
      from that of a clean one, whatever fails and wherever either build stops. */
  lemma WrongResolutionPoisonsDigest(e: Env, d: Disk, fails: map<Call, string>, now: Clock, cleanNow: Clock)
    requires !SavedRight(e, d)
    ensures DigestOf(Build(e, AttemptOn(d, fails, now), d.files).m)
      != DigestOf(Build(e, AttemptOn(EMPTY_DISK, NO_FAILURES, cleanNow), map[]).m)
  {
    hide Draft, Build, TruthOf;
    ResolutionsAreFinal(e, d, fails, now);
    CleanRight(e, cleanNow);
  }
}
