/** Where the digest of a resumed build is not the clean one: running a build again when a
    symbol is absent from the stock master and the validator finds a gap in an optional
    dataset. The second run repeats no note, calls itself completed, and demotes. */
module SnapshotRerun {
  import opened Outcomes
  import opened Texts
  import opened SnapshotRows
  import opened SnapshotModel
  import opened SnapshotValidator
  import opened SnapshotResume
  import opened SnapshotOptional
  import opened SnapshotRecovery
  import opened SnapshotStatus
  import opened SnapshotValidate
  import opened SnapshotEquivalence
  import opened SnapshotHistory
  import opened SnapshotPoison
  import opened SnapshotNames

  // ----- The family

  function CleanDraft(e: Env, now: Clock): Work {
    Draft(e, AttemptOn(EMPTY_DISK, NO_FAILURES, now), map[])
  }

  /** Running an undisturbed build a second time changes the digest, whatever the clock says,
      if a listed day holds an absent symbol and there is something to demote. */
  lemma RerunChangesDigest(e: Env, first: Clock, now: Clock, cleanNow: Clock)
    requires var draft := CleanDraft(e, cleanNow);
      && draft.stopped.None? && !NothingToDemote(e.config, draft.m, draft.files)
      && exists entry :: entry in draft.m.partitions && AbsentDay(entry)
    ensures var d := AfterAll(e, EMPTY_DISK, [Try(NO_FAILURES, first, Finishes)]);
      DigestOf(Build(e, AttemptOn(d, NO_FAILURES, now), d.files).m) != DigestOf(Build(e, AttemptOn(EMPTY_DISK, NO_FAILURES, cleanNow), map[]).m)
  {
    hide Draft, Settled, NothingToDemote, Named, TruthOf, AbsentDay, LookupsHold;
    var t := Try(NO_FAILURES, first, Finishes);
    NoLookupFails(e);
    HoldingHistoriesAreRight(e, [t]);
    HoldingHistoriesAreRight(e, []);
    CrashResumeEquivalence(e, [t], now, cleanNow);
    CrashResumeEquivalence(e, [], first, cleanNow);
    var d := AfterAll(e, EMPTY_DISK, [t]);
    assert [t][..0] == [];
    SettledKeeps(e, AttemptOn(EMPTY_DISK, NO_FAILURES, cleanNow), CleanDraft(e, cleanNow));
    var listed := CleanDraft(e, cleanNow).m.partitions;
    assert d.saved.Some? && d.saved.value.partitions == listed;
    OldEntriesAre(listed);
  }

  lemma NoLookupFails(e: Env)
    ensures LookupsHold(TruthOf(e), NO_FAILURES)
  {
  }

  /** Daily symbols that were kept, but that a table of the same session misses. */
  ghost predicate Gap(t: Truth, dataset: Dataset, date: string) {
    var daily, table := t.content(SessionKey(Daily, date)), t.content(SessionKey(dataset, date));
    daily.Success? && table.Success? && !(Codes(daily.value) <= Codes(table.value))
  }

  // ----- An answered dataset is available

  lemma {:induction false} AllAnswered(t: Truth, dataset: Dataset, days: nat)
    requires days <= |t.dates| && forall date :: date in t.dates ==> t.content(SessionKey(dataset, date)).Success?
    ensures GapsOf(t, dataset, days) == 0
    ensures forall i :: 0 <= i < days ==> HasKey(EntriesOf(t, dataset, days), SessionKey(dataset, t.dates[i]))
  {
    if days > 0 {
      AllAnswered(t, dataset, days - 1);
      var front, last := EntriesOf(t, dataset, days - 1), EntryAt(t, SessionKey(dataset, t.dates[days - 1]));
      assert last[0] in EntriesOf(t, dataset, days);
      forall key | HasKey(front, key) ensures HasKey(EntriesOf(t, dataset, days), key) {
        var entry :| entry in front && entry.key == key;
        assert entry in EntriesOf(t, dataset, days);
      }
    }
  }

  lemma AnsweredAvailable(e: Env, a: Attempt, files: map<Key, Table>, w: Work, dataset: Dataset, k: nat)
    requires Resumes(TruthOf(e), a, files, k) && Complete(TruthOf(e), files, w) && a.fails == NO_FAILURES && IsOptionalMarket(dataset)
    requires forall date :: date in TruthOf(e).dates ==> TruthOf(e).content(SessionKey(dataset, date)).Success?
    ensures var next := OptionalDataset(e, a, Stocks(e), TruthOf(e).dates, w, dataset);
      && CapabilityOf(next.m, dataset) == Available
      && forall date :: date in TruthOf(e).dates ==> HasKey(next.m.partitions, SessionKey(dataset, date))
  {
    hide Resumes, Complete, OptionalDays, TruthOf, EntriesOf, GapsOf, HasKey;
    var t := TruthOf(e);
    OptionalDaysTry(e, a, files, w, dataset, |t.dates|, k);
    AllAnswered(t, dataset, |t.dates|);
    var entries := EntriesOf(t, dataset, |t.dates|);
    forall date | date in t.dates ensures HasKey(w.m.partitions + entries, SessionKey(dataset, date)) {
      var i :| 0 <= i < |t.dates| && t.dates[i] == date;
      MoreKeys(w.m.partitions, entries, SessionKey(dataset, date));
    }
  }

  lemma MoreKeys(a: seq<Entry>, b: seq<Entry>, key: Key)
    ensures HasKey(b, key) ==> HasKey(a + b, key)
  {
    if HasKey(b, key) {
      var entry :| entry in b && entry.key == key;
      assert entry in a + b;
    }
  }

  /** What the name-history phase leaves of the other datasets. */
  ghost predicate KeepsOthers(m: Manifest, n: Manifest) {
    && (forall dataset :: dataset != NameChange ==> CapabilityOf(m, dataset) == CapabilityOf(n, dataset))
    && (forall key :: HasKey(m.partitions, key) ==> HasKey(n.partitions, key))
  }

  lemma NamesKeepOthers(e: Env, a: Attempt, files: map<Key, Table>, w: Work, k: nat)
    requires Resumes(TruthOf(e), a, files, k) && Complete(TruthOf(e), files, w) && a.fails == NO_FAILURES
    ensures KeepsOthers(w.m, NamesPhase(e, a, Stocks(e), w).m)
  {
    var shards, symbols := NameShards(e), Symbols(e, Stocks(e));
    var planned := w.(m := w.m.(names := w.m.names.(plannedSymbols := |symbols|, plannedShards := |shards|)));
    PlannedComplete(TruthOf(e), files, w, planned);
    assert NamesPhase(e, a, Stocks(e), w) == CombineNames(ShardSteps(e, a, shards, planned, |shards|), shards);
    hide Resumes, Complete, TruthOf, ShardSteps, CombineNames, NamesPhase;
    ShardStepsTry(e, a, files, planned, |shards|, k);
    var before := ShardSteps(e, a, shards, planned, |shards|);
    ShardEntriesKeepOthers(w.m, before.m, ShardEntriesUpTo(TruthOf(e), |shards|));
    CombineKeepsOthers(before, shards);
  }

  lemma ShardEntriesKeepOthers(m: Manifest, n: Manifest, entries: seq<Entry>)
    requires n.capabilities == m.capabilities && n.partitions == m.partitions + entries
    ensures KeepsOthers(m, n)
  {
  }

  lemma CombineKeepsOthers(w: Work, shards: seq<seq<string>>)
    ensures KeepsOthers(w.m, CombineNames(w, shards).m)
  {
    hide Checked, Dedup, ReadAll, ShardEntries, CompletedSymbols, TableFor, EntryFor;
    var next := CombineNames(w, shards);
    assert forall entry :: entry in w.m.partitions ==> entry in next.m.partitions;
  }

  /** In an undisturbed build that goes through, price limits answered on every session are
      available in the first manifest. */
  lemma LimitsAvailable(e: Env, a: Attempt, files: map<Key, Table>, k: nat)
    requires Ready(TruthOf(e), a, files, k) && a.fails == NO_FAILURES && e.config.includeOptional
    requires Required(e, a, files).stopped.None?
    requires forall date :: date in TruthOf(e).dates ==> TruthOf(e).content(SessionKey(Limits, date)).Success?
    ensures CapabilityOf(Draft(e, a, files).m, Limits) == Available
    ensures forall date :: date in TruthOf(e).dates ==> HasKey(Draft(e, a, files).m.partitions, SessionKey(Limits, date))
  {
    hide Required, Complete, OptionalDataset, NamesPhase, TruthOf, Resumes, EndsAt, Ready, Stocks, Leaves, Finish, HasKey;
    var w, dates := Required(e, a, files), TruthOf(e).dates;
    RequiredThrough(e, a, files, k);
    OptionalLeaves(e, a, files, w, k);
    ReadyResumes(TruthOf(e), a, files, k);
    OptionalDatasetComplete(e, a, files, w, DailyBasic, k);
    var basic := OptionalDataset(e, a, Stocks(e), dates, w, DailyBasic);
    OptionalDatasetComplete(e, a, files, basic, Suspend, k);
    var suspend := OptionalDataset(e, a, Stocks(e), dates, basic, Suspend);
    AnsweredAvailable(e, a, files, suspend, Limits, k);
    OptionalDatasetComplete(e, a, files, suspend, Limits, k);
    var market := OptionalDataset(e, a, Stocks(e), dates, suspend, Limits);
    NamesKeepOthers(e, a, files, market, k);
    FinishKeeps(a, NamesPhase(e, a, Stocks(e), market));
    assert Draft(e, a, files) == Finish(a, NamesPhase(e, a, Stocks(e), market));
  }

  lemma RequiredThrough(e: Env, a: Attempt, files: map<Key, Table>, k: nat)
    requires Ready(TruthOf(e), a, files, k) && Required(e, a, files).stopped.None?
    ensures EndsAt(e, a, files, Required(e, a, files), PlanLength(TruthOf(e)), k)
  {
    hide Required, TruthOf, Ready;
    var r := RequiredEnds(e, a, files, k);
  }

  lemma FinishKeeps(a: Attempt, w: Work)
    ensures Finish(a, w).m.capabilities == w.m.capabilities && Finish(a, w).m.partitions == w.m.partitions
  {
  }

  // ----- The validator names the dataset

  lemma GapIsNamed(e: Env, files: map<Key, Table>, w: Work, date: string)
    requires Ended(TruthOf(e), files, w) && date in TruthOf(e).dates && Gap(TruthOf(e), Limits, date)
    requires CapabilityOf(w.m, Limits) == Available && HasKey(w.m.partitions, SessionKey(Limits, date))
    ensures !NothingToDemote(e.config, w.m, w.files)
  {
    hide Ended, TruthOf, Codes, SessionsOf, TableAt, HasKey;
    SessionsListed(e, files, w);
    DayHasKey(e, files, w, date);
    ListedRows(e, files, w, SessionKey(Daily, date));
    ListedRows(e, files, w, SessionKey(Limits, date));
    var c := CoverageGap(SessionKey(Limits, date));
    assert MustCover(w.m, Limits);
    assert UniverseComplaint(w.m, w.files, c);
    GapComplains(e.config, w.m, w.files, c);
  }

  lemma GapComplains(config: Config, m: Manifest, files: map<Key, Table>, c: Complaint)
    requires c.CoverageGap? && c.key.dataset == Limits && UniverseComplaint(m, files, c) && CapabilityOf(m, Limits) == Available
    ensures !NothingToDemote(config, m, files)
  {
    hide UniverseComplaint, PartitionComplaint, PresenceComplaint, RangeComplaint, CapabilityComplaint, NamesComplaint, LedgerComplaint;
    assert Complains(config, m, files, c) && Limits in Mentions(c);
    assert Limits in Named(config, m, files);
  }

  lemma DayHasKey(e: Env, files: map<Key, Table>, w: Work, date: string)
    requires Ended(TruthOf(e), files, w) && date in TruthOf(e).dates
    ensures HasKey(w.m.partitions, SessionKey(Daily, date))
  {
    hide Ended, TruthOf;
    DaysListed(e, files, w, date);
  }

  lemma SessionsListed(e: Env, files: map<Key, Table>, w: Work)
    requires Ended(TruthOf(e), files, w)
    ensures SessionsOf(w.m, w.files) == TruthOf(e).dates
  {
    hide Ended, TruthOf, Sessions, Readable;
    RangeFiles(e, files, w);
    RangeListed(e, files, w);
  }

  lemma RangeListed(e: Env, files: map<Key, Table>, w: Work)
    requires Ended(TruthOf(e), files, w)
    ensures Readable(w.m, w.files, CALENDAR_KEY)
  {
    assert PlanKey(TruthOf(e), 1) == CALENDAR_KEY && w.m.partitions[1] in w.m.partitions;
  }

  lemma ListedRows(e: Env, files: map<Key, Table>, w: Work, key: Key)
    requires Ended(TruthOf(e), files, w) && HasKey(w.m.partitions, key) && key != NAMES_KEY && TruthOf(e).content(key).Success?
    ensures TableAt(w.m, w.files, key) == TruthOf(e).content(key).value
  {
    hide TruthOf, Lists, Hashed;
  }

  // ----- The family in terms of the provider

  /** Every required partition has usable rows, and there is a session. */
  ghost predicate Through(t: Truth) {
    t.dates != [] && forall r: nat :: r < PlanLength(t) ==> t.content(PlanKey(t, r)).Success?
  }

  lemma ThroughRuns(e: Env, now: Clock)
    requires Through(TruthOf(e))
    ensures Ready(TruthOf(e), AttemptOn(EMPTY_DISK, NO_FAILURES, now), map[], 0)
    ensures Required(e, AttemptOn(EMPTY_DISK, NO_FAILURES, now), map[]).stopped.None?
  {
    NoLookupFails(e);
    SoundReady(e, EMPTY_DISK, 0, NO_FAILURES, now);
    hide Required, TruthOf, Standing, Ready, LookupsHold;
    var r := RequiredEnds(e, AttemptOn(EMPTY_DISK, NO_FAILURES, now), map[], 0);
  }

  /** If every request of a provider yields usable rows, some day has a symbol absent from the
      stock master, and on some session the price limits miss a kept daily symbol, then
      running the build twice does not give the digest of running it once. */
  lemma GapChangesDigest(e: Env, absent: string, gap: string, first: Clock, now: Clock, cleanNow: Clock)
    requires var t := TruthOf(e);
      && e.config.includeOptional && Through(t)
      && (forall date :: date in t.dates ==> t.content(SessionKey(Limits, date)).Success?)
      && absent in t.dates && AbsentIn(t.audit(SessionKey(Daily, absent)))
      && gap in t.dates && Gap(t, Limits, gap)
    ensures var d := AfterAll(e, EMPTY_DISK, [Try(NO_FAILURES, first, Finishes)]);
      DigestOf(Build(e, AttemptOn(d, NO_FAILURES, now), d.files).m) != DigestOf(Build(e, AttemptOn(EMPTY_DISK, NO_FAILURES, cleanNow), map[]).m)
  {
    hide Draft, Required, TruthOf, Ready, Ended, Through, Gap, NothingToDemote, AbsentIn, HasKey, Settled, Completes;
    var a := AttemptOn(EMPTY_DISK, NO_FAILURES, cleanNow);
    ThroughRuns(e, cleanNow);
    DraftNames(e, a, map[], 0);
    DraftEnds(e, a, map[], 0);
    LimitsAvailable(e, a, map[], 0);
    var draft := CleanDraft(e, cleanNow);
    DaysListed(e, map[], draft, absent);
    GapIsNamed(e, map[], draft, gap);
    RerunChangesDigest(e, first, now, cleanNow);
  }

  // ----- A provider of the family

  const SHARE: Row := map[TsCode := "A", ListDate := "1"]
  const OPEN_DAY: Row := map[Exchange := "E", CalDate := "1", IsOpen := "1"]
  const SHARE_BAR: Row := map[TsCode := "A", TradeDate := "1"]
  /** A daily bar of something that is not in the stock master. */
  const FUND_BAR: Row := map[TsCode := "X", TradeDate := "1"]
  const INDEX_BAR: Row := map[TsCode := "I", TradeDate := "1"]

  /** No price limits at all. */
  function Market(dataset: Dataset, date: string): seq<Row> {
    match dataset
    case Daily => [SHARE_BAR, FUND_BAR]
    case AdjFactor => [SHARE_BAR]
    case DailyBasic => [SHARE_BAR]
    case _ => []
  }

  const ALWAYS_ZERO: Clock := (dataset, tag) => 0

  const WITNESS := Env(Config("1", "1", true, 1),
                       Provider([SHARE], [OPEN_DAY], [INDEX_BAR], (dataset, date) => Market(dataset, date), code => []))

  /** One usable row, outside the name history. */
  lemma OneRowChecks(key: Key, row: Row)
    requires !IsNameHistory(key.dataset) && !HasNullKey(key.dataset, row)
    requires key.tag.Session? ==> Text(row, TradeDate) == key.tag.date
    ensures Checked(key, Dedup(key.dataset, [row])) == Success([row])
  {
    DedupMeaning(key.dataset, [row], {});
    assert forall other :: other in [row] ==> other == row;
    hide HasNullKey, KeyOf, IsNameHistory, Dedup;
    assert [row][1..] == [] && KeySet(key.dataset, []) == {} && DistinctKeys(key.dataset, [row]);
    assert KeySet(key.dataset, [row]) * {} == {};
  }

  lemma NoRowChecks(key: Key)
    ensures Checked(key, Dedup(key.dataset, [])) == Success([])
  {
  }

  lemma WitnessCovers()
    ensures CalendarCovers([OPEN_DAY], "1", "1") && CoversSessions([INDEX_BAR], ["1"]) && OpenDates([OPEN_DAY]) == ["1"]
  {
    LeTotal("1", "1");
    hide Le;
    assert OPEN_DAY in [OPEN_DAY] && INDEX_BAR in [INDEX_BAR];
    assert Text(OPEN_DAY, CalDate) == "1" && Text(OPEN_DAY, Exchange) == "E" && Text(INDEX_BAR, TradeDate) == "1";
    assert [OPEN_DAY][1..] == [] && Text(OPEN_DAY, IsOpen) == "1";
  }

  lemma WitnessRange()
    ensures Stocks(WITNESS) == [SHARE] && CalendarRows(WITNESS) == [OPEN_DAY]
    ensures FreshRows(WITNESS, [], [], map[], STOCK_KEY).Success? && FreshRows(WITNESS, [], [], map[], CALENDAR_KEY).Success?
    ensures FreshRows(WITNESS, [], ["1"], map[], BENCHMARK_KEY) == Success([INDEX_BAR])
  {
    OneRowChecks(STOCK_KEY, SHARE);
    OneRowChecks(CALENDAR_KEY, OPEN_DAY);
    OneRowChecks(BENCHMARK_KEY, INDEX_BAR);
    WitnessCovers();
    hide HasNullKey, Checked, Dedup, CalendarCovers, CoversSessions, OpenDates;
    CheckedDedups(CALENDAR_KEY, [OPEN_DAY]);
    CheckedDedups(BENCHMARK_KEY, [INDEX_BAR]);
    SuccessIsKept(STOCK_KEY, [SHARE]);
    SuccessIsKept(CALENDAR_KEY, [OPEN_DAY]);
    SuccessIsKept(BENCHMARK_KEY, [INDEX_BAR]);
  }

  lemma SuccessIsKept(key: Key, rows: seq<Row>)
    ensures var d := Dedup(key.dataset, rows); Checked(key, d).Success? ==> Checked(key, d) == d
  {
  }

  lemma WitnessDates()
    ensures TruthOf(WITNESS).dates == ["1"]
  {
    hide TruthOf, CalendarRows, OpenDates;
    WitnessRange();
    WitnessCovers();
    DatesAreSessions(WITNESS);
    SortOne("1");
  }

  lemma SortOne(text: string)
    ensures Sort([text]) == [text]
  {
    assert Sort([text]) == Insert(text, Sort([])) == [text];
  }

  lemma WitnessLookup(code: string)
    ensures !LookupOne(WITNESS, NO_FAILURES, [SHARE], code).Resolved?
  {
    hide IsExternalCode, Suffix, Least;
    assert WITNESS.provider.names(code) == [];
    assert Candidates([SHARE], code, []) == [];
  }

  /** No code of the stock master is looked up, and no lookup resolves anything. */
  lemma WitnessKnown(key: Key)
    ensures var t := TruthOf(WITNESS);
      forall code :: code in Known(WITNESS, t.dates, t.unknown, key) ==> !Known(WITNESS, t.dates, t.unknown, key)[code].Resolved?
  {
    WitnessRange();
    var t := TruthOf(WITNESS);
    forall code ensures !LookupOne(WITNESS, NO_FAILURES, Stocks(WITNESS), code).Resolved? {
      WitnessLookup(code);
    }
    hide LookupOne, Stocks, TruthOf;
  }

  lemma FilterOne(u: Universe, row: Row)
    requires Keeps(u, row)
    ensures Filtered(u, [row]).0 == [row]
  {
    hide Classify, Keeps, Example, Bump;
    assert [row][..0] == [] && Filtered(u, []).0 == [] && [] + [row] == [row];
  }

  lemma FilterTwo(u: Universe, row: Row, other: Row)
    requires Keeps(u, row) && !Keeps(u, other) && Classify(u, other) == AbsentStockBasic
    ensures var (kept, audit) := Filtered(u, [row, other]); kept == [row] && CountAt(audit.counts, AbsentStockBasic) > 0
  {
    FilterOne(u, row);
    hide Classify, Keeps, Example;
    assert [row, other][..1] == [row];
  }

  /** The filter keeps the share and, among daily bars, drops the fund as absent. */
  lemma WitnessFilter(u: Universe)
    requires u.pit == PitCodes([SHARE], "1") && u.equity == Codes([SHARE])
    requires forall code :: code in u.resolutions ==> !u.resolutions[code].Resolved?
    ensures Keeps(u, SHARE_BAR) && (u.requiredMarket ==> Classify(u, FUND_BAR) == AbsentStockBasic && !Keeps(u, FUND_BAR))
  {
    LeTotal("1", "1");
    assert IsListedOn(SHARE, "1") && SHARE in [SHARE] && Text(SHARE, TsCode) == "A";
    assert Text(SHARE_BAR, TsCode) == "A" && "A" in u.pit && "A" in u.equity;
    assert Upper("A") == "A" && Upper("X") == "X" && "X" !in u.equity;
    hide PitCodes, Codes, Upper, BeforeDot, AfterDot, Digits, StartsWith, Le;
    assert InstrumentType(SHARE_BAR, u.equity) == AShareEquity;
    FundIsNoShare(u.equity);
    hide InstrumentType;
  }

  lemma FundIsNoShare(equity: set<string>)
    requires Upper("X") !in equity
    ensures InstrumentType(FUND_BAR, equity) != AShareEquity
  {
    assert Text(FUND_BAR, TsCode) == "X";
    hide Upper, BeforeDot, AfterDot, Digits, StartsWith;
  }

  /** When a market fetch yields rows. */
  lemma MarketFresh(e: Env, stocks: seq<Row>, sessions: seq<string>, known: map<string, Resolution>, key: Key, kept: seq<Row>)
    requires IsMarket(key.dataset) && Filtered(UniverseFor(stocks, known, key), MarketRows(e, key)).0 == kept
    requires if key.dataset in {Daily, AdjFactor} then kept != [] else Dedup(key.dataset, MarketRows(e, key)).Success?
    requires Checked(key, Dedup(key.dataset, kept)) == Success(kept)
    ensures FreshRows(e, stocks, sessions, known, key) == Success(kept)
  {
    hide Filtered, UniverseFor, MarketRows, Dedup, Checked;
  }

  lemma WitnessAnswer(key: Key)
    requires key.dataset in {Daily, AdjFactor, DailyBasic, Suspend, Limits} && key.tag == Session("1")
    ensures MarketRows(WITNESS, key) == Market(key.dataset, "1")
    ensures key.dataset != Suspend ==> !HasNullKey(key.dataset, SHARE_BAR)
    ensures Text(SHARE_BAR, TradeDate) == "1"
  {
    assert Text(SHARE_BAR, TsCode) == "A" && Text(SHARE_BAR, TradeDate) == "1";
  }

  lemma WitnessContent(dataset: Dataset, known: map<string, Resolution>)
    requires dataset in {Daily, AdjFactor, DailyBasic, Suspend, Limits}
    requires forall code :: code in known ==> !known[code].Resolved?
    ensures var key := SessionKey(dataset, "1");
      && FreshRows(WITNESS, [SHARE], ["1"], known, key) == Success(if dataset == Suspend || dataset == Limits then [] else [SHARE_BAR])
      && (dataset == Daily ==> AbsentIn(AuditFor(WITNESS, [SHARE], known, key)))
  {
    hide FreshRows, Keeps, Classify, PitCodes, Codes, HasNullKey, Checked, Dedup, MarketRows, Filtered;
    var key := SessionKey(dataset, "1");
    var u := UniverseFor([SHARE], known, key);
    WitnessFilter(u);
    WitnessAnswer(key);
    if dataset == Suspend || dataset == Limits {
      NoRowChecks(key);
      CheckedDedups(key, []);
      FilterNone(u);
      MarketFresh(WITNESS, [SHARE], ["1"], known, key, []);
    } else {
      OneRowChecks(key, SHARE_BAR);
      CheckedDedups(key, [SHARE_BAR]);
      FilterOne(u, SHARE_BAR);
      if dataset == Daily { FilterTwo(u, SHARE_BAR, FUND_BAR); }
      MarketFresh(WITNESS, [SHARE], ["1"], known, key, [SHARE_BAR]);
    }
  }

  lemma FilterNone(u: Universe)
    ensures Filtered(u, []).0 == []
  {
  }

  lemma CheckedDedups(key: Key, rows: seq<Row>)
    ensures Checked(key, Dedup(key.dataset, rows)).Success? ==> Dedup(key.dataset, rows).Success?
  {
  }

  lemma WitnessMarket(dataset: Dataset)
    requires dataset in {Daily, AdjFactor, DailyBasic, Suspend, Limits}
    ensures var t, key := TruthOf(WITNESS), SessionKey(dataset, "1");
      t.content(key) == Success(if dataset == Suspend || dataset == Limits then [] else [SHARE_BAR])
      && (dataset == Daily ==> AbsentIn(t.audit(key)))
  {
    WitnessRange();
    WitnessDates();
    var t, key := TruthOf(WITNESS), SessionKey(dataset, "1");
    var known := Known(WITNESS, t.dates, t.unknown, key);
    WitnessKnown(key);
    assert t.content(key) == Content(WITNESS, t.dates, t.unknown, key);
    assert t.content(key) == FreshRows(WITNESS, [SHARE], ["1"], known, key) && t.audit(key) == AuditFor(WITNESS, [SHARE], known, key);
    hide TruthOf, Known, Stocks, FreshRows, AuditFor;
    WitnessContent(dataset, known);
  }

  /** The concrete input: a share with bars on one session, a fund among the daily bars that
      is not in the stock master, and no price limits. Building twice changes the digest,
      although every request is answered and all clock readings are the same. */
  lemma RerunDiffers()
    ensures var d := AfterAll(WITNESS, EMPTY_DISK, [Try(NO_FAILURES, ALWAYS_ZERO, Finishes)]);
      DigestOf(Build(WITNESS, AttemptOn(d, NO_FAILURES, ALWAYS_ZERO), d.files).m)
        != DigestOf(Build(WITNESS, AttemptOn(EMPTY_DISK, NO_FAILURES, ALWAYS_ZERO), map[]).m)
  {
    hide TruthOf, Draft, Settled, FreshRows, AuditFor, Known, Stocks, CalendarRows;
    var t := TruthOf(WITNESS);
    WitnessDates();
    WitnessMarket(Daily);
    WitnessMarket(AdjFactor);
    WitnessMarket(Limits);
    WitnessPlan();
    ShareUncovered();
    assert Gap(t, Limits, "1");
    GapChangesDigest(WITNESS, "1", "1", ALWAYS_ZERO, ALWAYS_ZERO, ALWAYS_ZERO);
  }

  lemma ShareUncovered()
    ensures !(Codes([SHARE_BAR]) <= Codes([]))
  {
    assert SHARE_BAR in [SHARE_BAR] && Text(SHARE_BAR, TsCode) in Codes([SHARE_BAR]);
  }

  lemma WitnessPlan()
    requires TruthOf(WITNESS).dates == ["1"]
    requires TruthOf(WITNESS).content(SessionKey(Daily, "1")).Success? && TruthOf(WITNESS).content(SessionKey(AdjFactor, "1")).Success?
    ensures Through(TruthOf(WITNESS))
  {
    hide TruthOf, FreshRows, AuditFor, Stocks, CalendarRows;
    WitnessRange();
    RangeContent(WITNESS, [], [], map[], STOCK_KEY);
    RangeContent(WITNESS, [], [], map[], CALENDAR_KEY);
    RangeContent(WITNESS, [], ["1"], map[], BENCHMARK_KEY);
    var t := TruthOf(WITNESS);
    forall r: nat | r < PlanLength(t) ensures t.content(PlanKey(t, r)).Success? {
      assert PlanKey(t, r) in {STOCK_KEY, CALENDAR_KEY, BENCHMARK_KEY, SessionKey(Daily, "1"), SessionKey(AdjFactor, "1")};
    }
  }
}
