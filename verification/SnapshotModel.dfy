/** What one call of `build_snapshot` does to the artifact directory, as functions on
    values: partitions, manifest, the provider as a function of the request, and the set
    of fetches that fail during this attempt. */
module SnapshotModel {
  import opened Outcomes
  import opened Texts
  import opened SnapshotRows

  // ----- Partitions and manifest

  datatype Tag = NoTag | Session(date: string) | Shard(index: nat)

  /** A partition identity; it also determines the partition's file name. */
  datatype Key = Key(dataset: Dataset, tag: Tag)

  const STOCK_KEY := Key(StockBasic, NoTag)
  const CALENDAR_KEY := Key(Calendar, NoTag)
  const BENCHMARK_KEY := Key(Benchmark, NoTag)
  const NAMES_KEY := Key(NameChange, NoTag)

  datatype Schema = MasterSchema | CalendarSchema | BarSchema | FactorSchema | BasicSchema
                  | SuspendSchema | LimitSchema | NameSchema

  function SchemaOf(dataset: Dataset): Schema {
    match dataset
    case StockBasic => MasterSchema
    case Calendar => CalendarSchema
    case Daily | Benchmark => BarSchema
    case AdjFactor => FactorSchema
    case DailyBasic => BasicSchema
    case Suspend => SuspendSchema
    case Limits => LimitSchema
    case NameChange | NameShard => NameSchema
  }

  datatype Table = Table(schema: Schema, rows: seq<Row>)

  /** SHA-256 of a file, taken as injective in the content. */
  datatype Hash = Sha256(content: Table)

  datatype Entry = Entry(key: Key, hash: Hash, rowCount: nat, schema: Schema, audit: Option<Audit>)

  function TableFor(key: Key, rows: seq<Row>): Table {
    Table(SchemaOf(key.dataset), rows)
  }

  /** The manifest entry written together with the partition file. */
  function EntryFor(key: Key, rows: seq<Row>, audit: Option<Audit>): Entry {
    Entry(key, Sha256(TableFor(key, rows)), |rows|, SchemaOf(key.dataset), audit)
  }

  predicate PartitionValid(files: map<Key, Table>, entry: Entry, key: Key) {
    && entry.key.tag == key.tag
    && entry.key in files
    && Sha256(files[entry.key]) == entry.hash
    && |files[entry.key].rows| == entry.rowCount
    && files[entry.key].schema == entry.schema
    && SchemaOf(key.dataset) == entry.schema
  }

  datatype Reason = Raised(error: Error) | SymbolsAbsent(examples: seq<string>) | LocalValidation

  datatype FailureNote = FailureNote(dataset: Option<Dataset>, tag: Tag, required: bool, reason: Reason, stamp: int)

  datatype Capability = NotRequested | Available | Incomplete | Unavailable

  datatype ShardFailure = ShardFailure(index: nat, error: Error, stamp: int)

  datatype NameMeta = NameMeta(plannedSymbols: nat, plannedShards: nat, completedSymbols: nat,
                               completedShards: nat, failedShards: seq<ShardFailure>, complete: bool)

  /** `master`, `calendar`, `benchmarkRows` and `auditedOver` are the values that the
      manifest's derived counts, ranges and audit totals are computed from; `completed` is
      the status. */
  datatype Manifest = Manifest(
    partitions: seq<Entry>, resolutions: map<string, Resolution>, resumed: nat, failed: seq<FailureNote>,
    master: seq<Row>, calendar: seq<Row>, benchmarkRows: nat,
    capabilities: map<Dataset, Capability>, names: NameMeta, auditedOver: seq<Entry>, completed: bool)

  function FreshManifest(resolutions: map<string, Resolution>): Manifest {
    Manifest([], resolutions, 0, [], [], [], 0,
             map[DailyBasic := NotRequested, Suspend := NotRequested, Limits := NotRequested, NameChange := NotRequested],
             NameMeta(0, 0, 0, 0, [], false), [], false)
  }

  /** Everything the manifest digest covers: all fields except the excluded bookkeeping. */
  datatype Digest = Digest(
    partitions: seq<Entry>, resolutions: map<string, Resolution>,
    master: seq<Row>, calendar: seq<Row>, benchmarkRows: nat,
    capabilities: map<Dataset, Capability>, names: NameMeta, auditedOver: seq<Entry>)

  function DigestOf(m: Manifest): Digest {
    Digest(m.partitions, m.resolutions, m.master, m.calendar, m.benchmarkRows, m.capabilities, m.names, m.auditedOver)
  }

  /** `_required_failures` finds one. */
  predicate RequiredFailed(m: Manifest) {
    exists note :: note in m.failed && note.required
  }

  // ----- Provider, configuration, attempts

  datatype Config = Config(start: string, end: string, includeOptional: bool, shardSize: int)

  /** A provider whose answers depend only on the request. */
  datatype Provider = Provider(
    stock: seq<Row>, calendar: seq<Row>, benchmark: seq<Row>,
    market: (Dataset, string) -> seq<Row>, names: string -> seq<Row>)

  datatype Env = Env(config: Config, provider: Provider)

  /** A fetch. A date that the calendar lists twice is asked for twice: `earlier` counts how
      often the partition was listed or noted before. */
  datatype Call = CallStock | CallCalendar | CallBenchmark | CallMarket(dataset: Dataset, date: string, earlier: nat)
                | CallLookup(code: string) | CallNames(code: string)

  const NO_FAILURES: map<Call, string> := map[]

  /** The clock when a failure of a dataset and a partition tag is noted. */
  type Clock = (Option<Dataset>, Tag) -> int

  /** One attempt: what the previous manifest offers for reuse, which fetches fail in it
      (after all retries) and with what text, and the clock used for time stamps. */
  datatype Attempt = Attempt(previous: map<Key, Entry>, resolutions: map<string, Resolution>, fails: map<Call, string>, now: Clock)

  /** `{(dataset, trade_date): entry}`: a later entry replaces an earlier one. */
  function OldEntries(partitions: seq<Entry>): map<Key, Entry> {
    if partitions == [] then map[]
    else
      var last := partitions[|partitions| - 1];
      OldEntries(partitions[..|partitions| - 1])[last.key := last]
  }

  function CallFor(partitions: seq<Entry>, failed: seq<FailureNote>, key: Key): Call {
    match key.dataset
    case StockBasic => CallStock
    case Calendar => CallCalendar
    case Benchmark => CallBenchmark
    case _ => CallMarket(key.dataset, if key.tag.Session? then key.tag.date else "", Listed(partitions, key) + Noted(failed, key))
  }

  function Listed(partitions: seq<Entry>, key: Key): nat {
    if partitions == [] then 0
    else Listed(partitions[..|partitions| - 1], key) + if partitions[|partitions| - 1].key == key then 1 else 0
  }

  /** Notes that an optional partition failed. */
  function Noted(failed: seq<FailureNote>, key: Key): nat {
    if failed == [] then 0
    else
      var last := failed[|failed| - 1];
      Noted(failed[..|failed| - 1], key) + if !last.required && last.dataset == Some(key.dataset) && last.tag == key.tag then 1 else 0
  }

  /** State while building: the files on disk, the manifest so far, and the exception that
      ended the build, if any. */
  datatype Work = Work(files: map<Key, Table>, m: Manifest, stopped: Option<Error>)

  // ----- Contents of a partition

  function Day(tag: Tag): Option<string> {
    if tag.Session? then Some(tag.date) else None
  }

  /** `_store` refuses rows with structural issues. */
  function Checked(key: Key, rows: Result<seq<Row>, Error>): Result<seq<Row>, Error> {
    if rows.Failure? then rows
    else
      var issue := RowIssue(key.dataset, rows.value, Day(key.tag));
      if issue.Some? then Failure(issue.value) else rows
  }

  function UniverseFor(stocks: seq<Row>, resolutions: map<string, Resolution>, key: Key): Universe {
    Universe(PitCodes(stocks, if key.tag.Session? then key.tag.date else ""), Codes(stocks), key.dataset == Daily, resolutions)
  }

  predicate IsMarket(dataset: Dataset) {
    dataset in {Daily, AdjFactor, DailyBasic, Suspend, Limits}
  }

  function MarketRows(e: Env, key: Key): seq<Row> {
    e.provider.market(key.dataset, if key.tag.Session? then key.tag.date else "")
  }

  function AuditFor(e: Env, stocks: seq<Row>, resolutions: map<string, Resolution>, key: Key): Option<Audit> {
    if IsMarket(key.dataset) then Some(Filtered(UniverseFor(stocks, resolutions, key), MarketRows(e, key)).1) else None
  }

  /** The rows an answered fetch puts into partition `key`, or the exception it raises. */
  function FreshRows(e: Env, stocks: seq<Row>, sessions: seq<string>, resolutions: map<string, Resolution>, key: Key)
    : Result<seq<Row>, Error>
  {
    match key.dataset
    case StockBasic => Checked(key, Dedup(StockBasic, e.provider.stock))
    case Calendar =>
      var rows := Dedup(Calendar, e.provider.calendar);
      if rows.Success? && !CalendarCovers(rows.value, e.config.start, e.config.end) then Failure(CalendarTooShort)
      else Checked(key, rows)
    case Benchmark =>
      var rows := Dedup(Benchmark, e.provider.benchmark);
      if rows.Success? && !CoversSessions(rows.value, sessions) then Failure(BenchmarkGap)
      else Checked(key, rows)
    case _ =>
      var answer := MarketRows(e, key);
      var optional := key.dataset != Daily && key.dataset != AdjFactor;
      var kept := Filtered(UniverseFor(stocks, resolutions, key), answer).0;
      if optional && Dedup(key.dataset, answer).Failure? then Dedup(key.dataset, answer)
      else if !optional && kept == [] then Failure(EmptyPartition)
      else Checked(key, Dedup(key.dataset, kept))
  }

  // ----- Historical-code lookups

  function UnknownCodes(stocks: seq<Row>, rows: seq<Row>): set<string> {
    Codes(rows) - Codes(stocks) - {""}
  }

  function LookupOne(e: Env, fails: map<Call, string>, stocks: seq<Row>, code: string): Resolution {
    if IsExternalCode(code) then ExternalInstrument
    else if CallLookup(code) in fails then LookupFailed(fails[CallLookup(code)])
    else ResolveFrom(code, stocks, e.provider.names(code))
  }

  /** Looks up every code not resolved before; earlier results, failures included, stay. */
  function WithLookups(e: Env, fails: map<Call, string>, stocks: seq<Row>, codes: set<string>, resolutions: map<string, Resolution>)
    : map<string, Resolution>
  {
    resolutions + map code | code in codes && code !in resolutions :: LookupOne(e, fails, stocks, code)
  }

  // ----- One required partition

  /** Valid on disk and, for the two range requests, still covering what is asked. */
  predicate Reusable(e: Env, a: Attempt, files: map<Key, Table>, sessions: seq<string>, key: Key) {
    && key in a.previous
    && PartitionValid(files, a.previous[key], key)
    && (key.dataset == Calendar ==> CalendarCovers(files[a.previous[key].key].rows, e.config.start, e.config.end))
    && (key.dataset == Benchmark ==> CoversSessions(files[a.previous[key].key].rows, sessions))
  }

  function Reuse(w: Work, entry: Entry): Work {
    w.(m := w.m.(partitions := w.m.partitions + [entry], resumed := w.m.resumed + 1))
  }

  function Stop(w: Work, error: Error): Work {
    w.(stopped := Some(error))
  }

  function Write(w: Work, key: Key, rows: seq<Row>, audit: Option<Audit>): Work {
    w.(files := w.files[key := TableFor(key, rows)],
       m := w.m.(partitions := w.m.partitions + [EntryFor(key, rows, audit)]))
  }

  function Note(w: Work, note: FailureNote): Work {
    w.(m := w.m.(failed := w.m.failed + [note]))
  }

  function NoteAbsent(a: Attempt, w: Work, key: Key, audit: Option<Audit>): Work {
    if audit.Some? && CountAt(audit.value.counts, AbsentStockBasic) > 0 then
      Note(w, FailureNote(Some(key.dataset), key.tag, true,
        SymbolsAbsent(if AbsentStockBasic in audit.value.examples then audit.value.examples[AbsentStockBasic] else []),
        a.now(Some(key.dataset), key.tag)))
    else w
  }

  function Settle(w: Work, key: Key, rows: Result<seq<Row>, Error>, audit: Option<Audit>): Work {
    if rows.Failure? then Stop(w, rows.error) else Write(w, key, rows.value, audit)
  }

  function ResolveDay(e: Env, a: Attempt, stocks: seq<Row>, w: Work, key: Key): Work {
    if key.dataset != Daily then w
    else w.(m := w.m.(resolutions :=
      WithLookups(e, a.fails, stocks, UnknownCodes(stocks, MarketRows(e, key)), w.m.resolutions)))
  }

  function Fetched(e: Env, a: Attempt, stocks: seq<Row>, sessions: seq<string>, w: Work, key: Key): Work {
    var resolved := ResolveDay(e, a, stocks, w, key);
    var audit := AuditFor(e, stocks, resolved.m.resolutions, key);
    var noted := NoteAbsent(a, resolved, key, audit);
    Settle(noted, key, FreshRows(e, stocks, sessions, resolved.m.resolutions, key), audit)
  }

  /** One required partition: reused, fetched, or the exception that ends the build. */
  function RequiredStep(e: Env, a: Attempt, stocks: seq<Row>, sessions: seq<string>, w: Work, key: Key): Work {
    if w.stopped.Some? then w
    else if Reusable(e, a, w.files, sessions, key) then Reuse(w, a.previous[key])
    else if CallFor(w.m.partitions, w.m.failed, key) in a.fails then Stop(w, FetchFailed)
    else Fetched(e, a, stocks, sessions, w, key)
  }

  /** Stock master, calendar and benchmark need no lookups and no filter. */
  lemma RangeStepIs(e: Env, a: Attempt, stocks: seq<Row>, sessions: seq<string>, w: Work, key: Key)
    requires key.dataset in {StockBasic, Calendar, Benchmark} && w.stopped.None?
    ensures RequiredStep(e, a, stocks, sessions, w, key) ==
      if Reusable(e, a, w.files, sessions, key) then Reuse(w, a.previous[key])
      else if CallFor(w.m.partitions, w.m.failed, key) in a.fails then Stop(w, FetchFailed)
      else Settle(w, key, FreshRows(e, stocks, sessions, w.m.resolutions, key), None)
  {
    hide FreshRows, Reusable, CallFor, Settle;
  }

  /** The fields that the required steps leave alone. */
  predicate SameRest(m: Manifest, n: Manifest) {
    && m.master == n.master && m.calendar == n.calendar && m.benchmarkRows == n.benchmarkRows
    && m.capabilities == n.capabilities && m.names == n.names && m.auditedOver == n.auditedOver
    && m.completed == n.completed
  }

  lemma StepKeepsRest(e: Env, a: Attempt, stocks: seq<Row>, sessions: seq<string>, w: Work, key: Key)
    ensures SameRest(w.m, RequiredStep(e, a, stocks, sessions, w, key).m)
  {
    hide Reusable, Fetched;
    FetchKeepsRest(e, a, stocks, sessions, w, key);
  }

  lemma FetchKeepsRest(e: Env, a: Attempt, stocks: seq<Row>, sessions: seq<string>, w: Work, key: Key)
    ensures SameRest(w.m, Fetched(e, a, stocks, sessions, w, key).m)
  {
    hide FreshRows, AuditFor, NoteAbsent, Settle, WithLookups;
    var resolved := ResolveDay(e, a, stocks, w, key);
    var audit := AuditFor(e, stocks, resolved.m.resolutions, key);
    NoteKeepsRest(a, resolved, key, audit);
    SettleKeepsRest(NoteAbsent(a, resolved, key, audit), key, FreshRows(e, stocks, sessions, resolved.m.resolutions, key), audit);
  }

  lemma NoteKeepsRest(a: Attempt, w: Work, key: Key, audit: Option<Audit>)
    ensures SameRest(w.m, NoteAbsent(a, w, key, audit).m)
  {
    hide CountAt;
  }

  lemma SettleKeepsRest(w: Work, key: Key, rows: Result<seq<Row>, Error>, audit: Option<Audit>)
    ensures SameRest(w.m, Settle(w, key, rows, audit).m)
  {
    hide TableFor, EntryFor;
  }

  function RowsAt(w: Work, key: Key): seq<Row> {
    if w.stopped.None? && key in w.files then w.files[key].rows else []
  }

  // ----- The required part of a build

  function MasterPhase(e: Env, a: Attempt, files: map<Key, Table>): Work {
    var w := RequiredStep(e, a, [], [], Work(files, FreshManifest(a.resolutions), None), STOCK_KEY);
    w.(m := w.m.(master := RowsAt(w, STOCK_KEY)))
  }

  function CalendarPhase(e: Env, a: Attempt, w: Work): Work {
    var read := RequiredStep(e, a, w.m.master, [], w, CALENDAR_KEY);
    if read.stopped.Some? then read
    else if Sessions(RowsAt(read, CALENDAR_KEY)) == [] then Stop(read, NoOpenSessions)
    else read.(m := read.m.(calendar := RowsAt(read, CALENDAR_KEY)))
  }

  /** After the first `days` sessions: daily bars, then adjustment factors, of each. */
  function DaysPhase(e: Env, a: Attempt, stocks: seq<Row>, sessions: seq<string>, w: Work, days: nat): Work
    requires days <= |sessions|
  {
    if days == 0 then w
    else
      var before := DaysPhase(e, a, stocks, sessions, w, days - 1);
      var tag := Session(sessions[days - 1]);
      RequiredStep(e, a, stocks, sessions, RequiredStep(e, a, stocks, sessions, before, Key(Daily, tag)), Key(AdjFactor, tag))
  }

  function BenchmarkPhase(e: Env, a: Attempt, stocks: seq<Row>, sessions: seq<string>, w: Work): Work {
    var read := RequiredStep(e, a, stocks, sessions, w, BENCHMARK_KEY);
    if read.stopped.Some? then read else read.(m := read.m.(benchmarkRows := |RowsAt(read, BENCHMARK_KEY)|))
  }

  function Required(e: Env, a: Attempt, files: map<Key, Table>): Work {
    var w := CalendarPhase(e, a, MasterPhase(e, a, files));
    var sessions := Sessions(w.m.calendar);
    BenchmarkPhase(e, a, w.m.master, sessions, DaysPhase(e, a, w.m.master, sessions, w, |sessions|))
  }

  // ----- Optional market datasets: failures are noted and skipped

  function OptionalStep(e: Env, a: Attempt, stocks: seq<Row>, sessions: seq<string>, w: Work, key: Key): Work {
    if Reusable(e, a, w.files, sessions, key) then Reuse(w, a.previous[key])
    else
      var rows := if CallFor(w.m.partitions, w.m.failed, key) in a.fails then Failure(FetchFailed)
                  else FreshRows(e, stocks, sessions, w.m.resolutions, key);
      if rows.Failure? then Note(w, FailureNote(Some(key.dataset), key.tag, false, Raised(rows.error), a.now(Some(key.dataset), key.tag)))
      else Write(w, key, rows.value, AuditFor(e, stocks, w.m.resolutions, key))
  }

  function OptionalDays(e: Env, a: Attempt, stocks: seq<Row>, sessions: seq<string>, w: Work, dataset: Dataset, days: nat): Work
    requires days <= |sessions|
  {
    if days == 0 then w
    else OptionalStep(e, a, stocks, sessions, OptionalDays(e, a, stocks, sessions, w, dataset, days - 1),
                      SessionKey(dataset, sessions[days - 1]))
  }

  function SessionKey(dataset: Dataset, date: string): Key {
    Key(dataset, Session(date))
  }

  predicate HasKey(partitions: seq<Entry>, key: Key) {
    exists entry :: entry in partitions && entry.key == key
  }

  function Capable(w: Work, sessions: seq<string>, dataset: Dataset, failed: bool): Capability {
    if !failed && (forall d :: d in sessions ==> HasKey(w.m.partitions, SessionKey(dataset, d))) then Available
    else if exists entry :: entry in w.m.partitions && entry.key.dataset == dataset then Incomplete
    else Unavailable
  }

  /** One optional dataset over all sessions; a failure is visible as an added note. */
  function OptionalDataset(e: Env, a: Attempt, stocks: seq<Row>, sessions: seq<string>, w: Work, dataset: Dataset): Work {
    var done := OptionalDays(e, a, stocks, sessions, w, dataset, |sessions|);
    var failed := |done.m.failed| > |w.m.failed|;
    done.(m := done.m.(capabilities := done.m.capabilities[dataset := Capable(done, sessions, dataset, failed)]))
  }

  function OptionalMarket(e: Env, a: Attempt, stocks: seq<Row>, sessions: seq<string>, w: Work): Work {
    OptionalDataset(e, a, stocks, sessions,
      OptionalDataset(e, a, stocks, sessions,
        OptionalDataset(e, a, stocks, sessions, w, DailyBasic), Suspend), Limits)
  }

  // ----- Sharded name history

  function ListedSymbols(stocks: seq<Row>, end: string): seq<string> {
    if stocks == [] then []
    else
      var row := stocks[0];
      (if Text(row, ListDate) != "" && Le(Text(row, ListDate), end) then [Text(row, TsCode)] else [])
        + ListedSymbols(stocks[1..], end)
  }

  function Symbols(e: Env, stocks: seq<Row>): seq<string> {
    Sort(ListedSymbols(stocks, e.config.end))
  }

  function ShardSize(e: Env): nat {
    if e.config.shardSize < 1 then 1 else e.config.shardSize
  }

  /** `[symbols[i:i + size] for i in range(0, len(symbols), size)]`. */
  function Shards(symbols: seq<string>, size: nat): seq<seq<string>>
    requires size > 0
    decreases |symbols|
  {
    if symbols == [] then []
    else if |symbols| <= size then [symbols]
    else [symbols[..size]] + Shards(symbols[size..], size)
  }

  function NameRecords(e: Env, fails: map<Call, string>, codes: seq<string>): Result<seq<Row>, Error> {
    if codes == [] then Success([])
    else if CallNames(codes[0]) in fails then Failure(FetchFailed)
    else if |e.provider.names(codes[0])| >= RESPONSE_CAP then Failure(ResponseCap)
    else Prepend(e.provider.names(codes[0]), NameRecords(e, fails, codes[1..]))
  }

  function ShardKey(index: nat): Key {
    Key(NameShard, Shard(index))
  }

  function ShardRows(e: Env, fails: map<Call, string>, codes: seq<string>, index: nat): Result<seq<Row>, Error> {
    var records := NameRecords(e, fails, codes);
    if records.Failure? then records else Checked(ShardKey(index), Dedup(NameChange, records.value))
  }

  /** A failed shard is noted twice: among the failed partitions and in the name metadata. */
  function NoteShard(a: Attempt, w: Work, index: nat, error: Error): Work {
    var stamp := a.now(Some(NameChange), Shard(index));
    var noted := Note(w, FailureNote(Some(NameChange), Shard(index), false, Raised(error), stamp));
    noted.(m := noted.m.(names := noted.m.names.(failedShards := noted.m.names.failedShards + [ShardFailure(index, error, stamp)])))
  }

  function ShardStep(e: Env, a: Attempt, codes: seq<string>, w: Work, index: nat): Work {
    var key := ShardKey(index);
    if Reusable(e, a, w.files, [], key) then Reuse(w, a.previous[key])
    else
      var rows := ShardRows(e, a.fails, codes, index);
      if rows.Failure? then NoteShard(a, w, index, rows.error) else Write(w, key, rows.value, None)
  }

  function ShardSteps(e: Env, a: Attempt, shards: seq<seq<string>>, w: Work, count: nat): Work
    requires count <= |shards|
  {
    if count == 0 then w else ShardStep(e, a, shards[count - 1], ShardSteps(e, a, shards, w, count - 1), count - 1)
  }

  function ShardEntries(partitions: seq<Entry>): seq<Entry> {
    if partitions == [] then []
    else ShardEntries(partitions[..|partitions| - 1])
         + (if partitions[|partitions| - 1].key.dataset == NameShard then [partitions[|partitions| - 1]] else [])
  }

  function CompletedSymbols(entries: seq<Entry>, shards: seq<seq<string>>): nat {
    if entries == [] then 0
    else
      var tag := entries[0].key.tag;
      (if tag.Shard? && tag.index < |shards| then |shards[tag.index]| else 0) + CompletedSymbols(entries[1..], shards)
  }

  function ReadAll(files: map<Key, Table>, entries: seq<Entry>): seq<Row> {
    if entries == [] then []
    else (if entries[0].key in files then files[entries[0].key].rows else []) + ReadAll(files, entries[1..])
  }

  function CombineNames(w: Work, shards: seq<seq<string>>): Work {
    var entries := ShardEntries(w.m.partitions);
    var counted := w.(m := w.m.(names := w.m.names.(completedShards := |entries|, completedSymbols := CompletedSymbols(entries, shards))));
    if |entries| == |shards| then
      var rows := Checked(NAMES_KEY, Dedup(NameChange, ReadAll(w.files, entries)));
      if rows.Failure? then Stop(counted, rows.error)
      else
        var written := Write(counted, NAMES_KEY, rows.value, None);
        written.(m := written.m.(names := written.m.names.(complete := true),
                                 capabilities := written.m.capabilities[NameChange := Available]))
    else
      counted.(m := counted.m.(capabilities :=
        counted.m.capabilities[NameChange := if entries == [] then Unavailable else Incomplete]))
  }

  function NamesPhase(e: Env, a: Attempt, stocks: seq<Row>, w: Work): Work {
    var symbols := Symbols(e, stocks);
    var shards := Shards(symbols, ShardSize(e));
    var planned := w.(m := w.m.(names := w.m.names.(plannedSymbols := |symbols|, plannedShards := |shards|)));
    CombineNames(ShardSteps(e, a, shards, planned, |shards|), shards)
  }

  // ----- The whole build

  function Finish(a: Attempt, w: Work): Work {
    if w.stopped.Some? then
      var noted := Note(w, FailureNote(None, NoTag, true, Raised(w.stopped.value), a.now(None, NoTag)));
      noted.(m := noted.m.(completed := false))
    else w.(m := w.m.(auditedOver := w.m.partitions, completed := !RequiredFailed(w.m)))
  }

  /** The build up to the manifest it writes first, before that is validated locally. */
  function Draft(e: Env, a: Attempt, files: map<Key, Table>): Work {
    var required := Required(e, a, files);
    if required.stopped.Some? || !e.config.includeOptional then Finish(a, required)
    else
      var stocks, sessions := required.m.master, Sessions(required.m.calendar);
      Finish(a, NamesPhase(e, a, stocks, OptionalMarket(e, a, stocks, sessions, required)))
  }
}
