/** The local validator: what `validate_snapshot` objects to in a manifest and its files,
    which optional datasets its complaints name, and what the builder makes of them. */
module SnapshotValidator {
  import opened Outcomes
  import opened Texts
  import opened SnapshotRows
  import opened SnapshotModel

  // ----- What the validator reads

  predicate Readable(m: Manifest, files: map<Key, Table>, key: Key) {
    HasKey(m.partitions, key) && key in files
  }

  /** The rows of a listed partition, none if it is not listed or not there. */
  function TableAt(m: Manifest, files: map<Key, Table>, key: Key): seq<Row> {
    if Readable(m, files, key) then files[key].rows else []
  }

  function SessionsOf(m: Manifest, files: map<Key, Table>): seq<string> {
    Sessions(TableAt(m, files, CALENDAR_KEY))
  }

  function CapabilityOf(m: Manifest, dataset: Dataset): Capability {
    if dataset in m.capabilities then m.capabilities[dataset] else NotRequested
  }

  predicate HasDataset(m: Manifest, dataset: Dataset) {
    exists entry :: entry in m.partitions && entry.key.dataset == dataset
  }

  const REQUIRED_DATASETS := [StockBasic, Calendar, Daily, AdjFactor, Benchmark]
  const OPTIONAL_DATASETS := [DailyBasic, Suspend, Limits, NameChange]

  /** Problems of a partition are errors, unless it belongs to an optional dataset that is
      not available: then they are warnings. */
  predicate Active(m: Manifest, dataset: Dataset) {
    && (dataset in OPTIONAL_DATASETS ==> CapabilityOf(m, dataset) == Available)
    && (dataset == NameShard ==> CapabilityOf(m, NameChange) == Available)
  }

  // ----- Complaints

  datatype Complaint =
    | Repeated(key: Key)
    | Missing(key: Key)
    | Mismatch(key: Key)
    | NullKeys(dataset: Dataset)
    | RepeatedKeys(dataset: Dataset)
    | WrongDate(key: Key)
    | RequiredMissing(dataset: Dataset)
    | SessionMissing(key: Key)
    | OutsideMaster(dataset: Dataset)
    | OutsidePit(date: string)
    | CoverageGap(key: Key)
    | BenchmarkShort
    | RangeWrong
    | OutsideRange
    | CalendarShort
    | CountWrong
    | NoDataset(dataset: Dataset)
    | NoSessions(dataset: Dataset)
    | NamesIncomplete
    | NamesCounts
    | NamesShards
    | NamesCombined
    | Unexplained
    | BadResolution(code: string)
    | StatusInconsistent

  /** Hash, row count and schemas agree with the entry. */
  predicate AsRecorded(table: Table, entry: Entry) {
    && Sha256(table) == entry.hash && |table.rows| == entry.rowCount
    && table.schema == entry.schema == SchemaOf(entry.key.dataset)
  }

  predicate EntryComplaint(m: Manifest, files: map<Key, Table>, entry: Entry, c: Complaint) {
    var key := entry.key;
    Active(m, key.dataset) &&
    match c
    case Missing(k) => k == key && key !in files
    case Mismatch(k) => k == key && key in files && !AsRecorded(files[key], entry)
    case NullKeys(d) => d == key.dataset && key in files && exists row :: row in files[key].rows && HasNullKey(d, row)
    case RepeatedKeys(d) => d == key.dataset && key in files && !DistinctKeys(d, files[key].rows)
    case WrongDate(k) =>
      k == key && key in files && key.tag.Session? && exists row :: row in files[key].rows && Text(row, TradeDate) != key.tag.date
    case _ => false
  }

  predicate PartitionComplaint(m: Manifest, files: map<Key, Table>, c: Complaint) {
    || (c.Repeated? && exists i, j :: 0 <= i < j < |m.partitions| && m.partitions[i].key == m.partitions[j].key == c.key)
    || (exists entry :: entry in m.partitions && EntryComplaint(m, files, entry, c))
  }

  predicate PresenceComplaint(m: Manifest, files: map<Key, Table>, c: Complaint) {
    match c
    case RequiredMissing(d) => d in REQUIRED_DATASETS && !HasDataset(m, d)
    case SessionMissing(key) =>
      && key.dataset in [Daily, AdjFactor] && key.tag.Session? && key.tag.date in SessionsOf(m, files)
      && !Readable(m, files, key)
    case _ => false
  }

  function ResolvedCurrent(m: Manifest, code: string): Option<string> {
    if code in m.resolutions && m.resolutions[code].Resolved? then Some(m.resolutions[code].current) else None
  }

  predicate KnownCode(m: Manifest, codes: set<string>, code: string) {
    code in codes || (ResolvedCurrent(m, code).Some? && ResolvedCurrent(m, code).value in codes)
  }

  predicate AllKnown(m: Manifest, codes: set<string>, rows: seq<Row>) {
    forall row :: row in rows ==> KnownCode(m, codes, Text(row, TsCode))
  }

  predicate ChecksMaster(dataset: Dataset) {
    dataset != Benchmark && dataset != Calendar && dataset != StockBasic
  }

  predicate UniverseComplaint(m: Manifest, files: map<Key, Table>, c: Complaint) {
    var stocks := TableAt(m, files, STOCK_KEY);
    match c
    case OutsideMaster(d) =>
      ChecksMaster(d) &&
      exists entry :: entry in m.partitions && entry.key.dataset == d && !AllKnown(m, Codes(stocks), TableAt(m, files, entry.key))
    case OutsidePit(date) =>
      date in SessionsOf(m, files) && !AllKnown(m, PitCodes(stocks, date), TableAt(m, files, SessionKey(Daily, date)))
    case CoverageGap(key) =>
      && key.tag.Session? && key.tag.date in SessionsOf(m, files) && MustCover(m, key.dataset)
      && !(Codes(TableAt(m, files, SessionKey(Daily, key.tag.date))) <= Codes(TableAt(m, files, key)))
    case _ => false
  }

  predicate MustCover(m: Manifest, dataset: Dataset) {
    dataset == AdjFactor || (dataset in [DailyBasic, Limits] && CapabilityOf(m, dataset) == Available)
  }

  predicate RangeComplaint(config: Config, m: Manifest, files: map<Key, Table>, c: Complaint) {
    var sessions, recorded := SessionsOf(m, files), Sessions(m.calendar);
    match c
    case BenchmarkShort => TableAt(m, files, BENCHMARK_KEY) != [] && !CoversSessions(TableAt(m, files, BENCHMARK_KEY), sessions)
    case RangeWrong =>
      sessions != [] && (recorded == [] || recorded[0] != sessions[0] || recorded[|recorded| - 1] != sessions[|sessions| - 1])
    case OutsideRange => sessions != [] && !(Le(config.start, sessions[0]) && Le(sessions[|sessions| - 1], config.end))
    case CalendarShort =>
      TableAt(m, files, CALENDAR_KEY) != [] && !CalendarCovers(TableAt(m, files, CALENDAR_KEY), config.start, config.end)
    case CountWrong => sessions != [] && |recorded| != |sessions|
    case _ => false
  }

  predicate CapabilityComplaint(m: Manifest, files: map<Key, Table>, c: Complaint) {
    match c
    case NoDataset(d) => d in OPTIONAL_DATASETS && CapabilityOf(m, d) == Available && !HasDataset(m, d)
    case NoSessions(d) =>
      && d in OPTIONAL_DATASETS && d != NameChange && CapabilityOf(m, d) == Available
      && exists date :: date in SessionsOf(m, files) && !Readable(m, files, SessionKey(d, date))
    case _ => false
  }

  /** The shard tables that could be read. */
  function ShardTables(m: Manifest, files: map<Key, Table>): set<Key> {
    set entry | entry in m.partitions && entry.key.dataset == NameShard && entry.key in files :: entry.key
  }

  function ShardKeys(m: Manifest, files: map<Key, Table>): set<BusinessKey> {
    set key, k | key in ShardTables(m, files) && k in KeySet(NameChange, TableAt(m, files, key)) :: k
  }

  predicate NamesComplaint(m: Manifest, files: map<Key, Table>, c: Complaint) {
    var combined := TableAt(m, files, NAMES_KEY);
    CapabilityOf(m, NameChange) == Available &&
    match c
    case NamesIncomplete => !m.names.complete
    case NamesCounts => m.names.plannedShards != m.names.completedShards || m.names.plannedSymbols != m.names.completedSymbols
    case NamesShards => |ShardTables(m, files)| != m.names.plannedShards
    case NamesCombined => |combined| != |ShardKeys(m, files)| || KeySet(NameChange, combined) != ShardKeys(m, files)
    case _ => false
  }

  predicate UnexplainedIn(audit: Audit) {
    exists kind :: kind in [AbsentStockBasic, UnknownKind] && kind in audit.examples && CountAt(audit.counts, kind) > 0
  }

  /** The aggregated audit of the daily partitions counts an unexplained symbol. */
  predicate UnexplainedDaily(audited: seq<Entry>) {
    exists entry :: entry in audited && entry.key.dataset == Daily && entry.audit.Some? && UnexplainedIn(entry.audit.value)
  }

  predicate LedgerComplaint(m: Manifest, files: map<Key, Table>, c: Complaint) {
    match c
    case Unexplained => UnexplainedDaily(m.auditedOver)
    case BadResolution(code) =>
      ResolvedCurrent(m, code).Some? &&
      (ResolvedCurrent(m, code).value == "" || ResolvedCurrent(m, code).value !in Codes(TableAt(m, files, STOCK_KEY)))
    case _ => false
  }

  /** Everything but the last check, which looks at the status and the other complaints. */
  predicate PlainComplaint(config: Config, m: Manifest, files: map<Key, Table>, c: Complaint) {
    || PartitionComplaint(m, files, c)
    || PresenceComplaint(m, files, c)
    || UniverseComplaint(m, files, c)
    || RangeComplaint(config, m, files, c)
    || CapabilityComplaint(m, files, c)
    || NamesComplaint(m, files, c)
    || LedgerComplaint(m, files, c)
  }

  ghost predicate Complains(config: Config, m: Manifest, files: map<Key, Table>, c: Complaint) {
    || PlainComplaint(config, m, files, c)
    || (c.StatusInconsistent? && m.completed && (RequiredFailed(m) || exists other :: PlainComplaint(config, m, files, other)))
  }

  /** The optional datasets that the text of a complaint names; shards are those of the name
      history. */
  function Mentions(c: Complaint): set<Dataset> {
    match c
    case Repeated(key) => OptionalName(key.dataset)
    case Missing(key) => OptionalName(key.dataset)
    case Mismatch(key) => OptionalName(key.dataset)
    case NullKeys(dataset) => OptionalName(dataset)
    case RepeatedKeys(dataset) => OptionalName(dataset)
    case WrongDate(key) => OptionalName(key.dataset)
    case OutsideMaster(dataset) => OptionalName(dataset)
    case CoverageGap(key) => OptionalName(key.dataset)
    case NoDataset(dataset) => OptionalName(dataset)
    case NoSessions(dataset) => OptionalName(dataset)
    case NamesIncomplete | NamesCounts | NamesShards | NamesCombined => {NameChange}
    case _ => {}
  }

  function OptionalName(dataset: Dataset): set<Dataset> {
    if dataset == NameShard then {NameChange} else if dataset in OPTIONAL_DATASETS then {dataset} else {}
  }

  // ----- What the builder makes of them

  ghost predicate Objects(config: Config, m: Manifest, files: map<Key, Table>) {
    exists c :: Complains(config, m, files, c)
  }

  ghost function Named(config: Config, m: Manifest, files: map<Key, Table>): set<Dataset> {
    set d | d in OPTIONAL_DATASETS && exists c :: Complains(config, m, files, c) && d in Mentions(c)
  }

  function Demote(capabilities: map<Dataset, Capability>, named: set<Dataset>): map<Dataset, Capability> {
    capabilities + map d | d in named :: Incomplete
  }

  function DemotionNotes(a: Attempt, named: set<Dataset>, datasets: seq<Dataset>): seq<FailureNote> {
    if datasets == [] then []
    else
      var note := FailureNote(Some(datasets[0]), NoTag, false, LocalValidation, a.now(Some(datasets[0]), NoTag));
      (if datasets[0] in named then [note] else []) + DemotionNotes(a, named, datasets[1..])
  }

  /** A completed draft that does not pass: named optional datasets become incomplete; if
      none is named, the build does. */
  function Demoted(a: Attempt, m: Manifest, named: set<Dataset>): Manifest {
    if named == {} then m.(failed := m.failed + [FailureNote(None, NoTag, true, LocalValidation, a.now(None, NoTag))], completed := false)
    else m.(capabilities := Demote(m.capabilities, named), failed := m.failed + DemotionNotes(a, named, OPTIONAL_DATASETS))
  }

  ghost function Settled(e: Env, a: Attempt, w: Work): Work {
    if w.m.completed && Objects(e.config, w.m, w.files) then w.(m := Demoted(a, w.m, Named(e.config, w.m, w.files))) else w
  }

  /** The whole of `build_snapshot`. */
  ghost function Build(e: Env, a: Attempt, files: map<Key, Table>): Work {
    Settled(e, a, Draft(e, a, files))
  }

  // ----- The validator as it runs

  method EntryErrors(m: Manifest, files: map<Key, Table>, entry: Entry) returns (errors: seq<Complaint>)
    ensures forall c :: c in errors <==> EntryComplaint(m, files, entry, c)
  {
    hide AsRecorded, HasNullKey, DistinctKeys, Text, Active;
    var key := entry.key;
    errors := [];
    if !Active(m, key.dataset) { return; }
    if key !in files { return [Missing(key)]; }
    var table := files[key];
    if !AsRecorded(table, entry) { errors := errors + [Mismatch(key)]; }
    if exists row :: row in table.rows && HasNullKey(key.dataset, row) { errors := errors + [NullKeys(key.dataset)]; }
    if !DistinctKeys(key.dataset, table.rows) { errors := errors + [RepeatedKeys(key.dataset)]; }
    if key.tag.Session? && exists row :: row in table.rows && Text(row, TradeDate) != key.tag.date {
      errors := errors + [WrongDate(key)];
    }
  }

  method PartitionErrors(m: Manifest, files: map<Key, Table>) returns (errors: seq<Complaint>)
    ensures forall c :: c in errors <==> PartitionComplaint(m, files, c)
  {
    hide EntryComplaint;
    var seen: set<Key> := {};
    errors := [];
    for i := 0 to |m.partitions|
      invariant forall key :: key in seen <==> exists j :: 0 <= j < i && m.partitions[j].key == key
      invariant forall c :: c in errors <==>
        || (c.Repeated? && exists j, k :: 0 <= j < k < i && m.partitions[j].key == m.partitions[k].key == c.key)
        || (exists j :: 0 <= j < i && EntryComplaint(m, files, m.partitions[j], c))
    {
      var entry := m.partitions[i];
      if entry.key in seen { errors := errors + [Repeated(entry.key)]; }
      seen := seen + {entry.key};
      var more := EntryErrors(m, files, entry);
      errors := errors + more;
    }
  }

  method PresenceErrors(m: Manifest, files: map<Key, Table>) returns (errors: seq<Complaint>)
    ensures forall c :: c in errors <==> PresenceComplaint(m, files, c)
  {
    hide Readable, HasDataset, SessionsOf;
    errors := [];
    for i := 0 to |REQUIRED_DATASETS|
      invariant forall c :: c in errors <==>
        c.RequiredMissing? && c.dataset in REQUIRED_DATASETS[..i] && !HasDataset(m, c.dataset)
    {
      if !HasDataset(m, REQUIRED_DATASETS[i]) { errors := errors + [RequiredMissing(REQUIRED_DATASETS[i])]; }
    }
    var sessions := SessionsOf(m, files);
    for i := 0 to |sessions|
      invariant forall c :: c in errors <==>
        || (c.RequiredMissing? && c.dataset in REQUIRED_DATASETS && !HasDataset(m, c.dataset))
        || (c.SessionMissing? && c.key.dataset in [Daily, AdjFactor] && c.key.tag.Session? && c.key.tag.date in sessions[..i]
            && !Readable(m, files, c.key))
    {
      if !Readable(m, files, SessionKey(Daily, sessions[i])) { errors := errors + [SessionMissing(SessionKey(Daily, sessions[i]))]; }
      if !Readable(m, files, SessionKey(AdjFactor, sessions[i])) {
        errors := errors + [SessionMissing(SessionKey(AdjFactor, sessions[i]))];
      }
    }
  }

  /** Partitions with a symbol outside the stock master. */
  method MasterErrors(m: Manifest, files: map<Key, Table>) returns (errors: seq<Complaint>)
    ensures forall c :: c in errors <==> c.OutsideMaster? && UniverseComplaint(m, files, c)
  {
    var codes := Codes(TableAt(m, files, STOCK_KEY));
    errors := [];
    for i := 0 to |m.partitions|
      invariant forall c :: c in errors <==>
        c.OutsideMaster? && ChecksMaster(c.dataset) &&
        exists j :: 0 <= j < i && m.partitions[j].key.dataset == c.dataset && !AllKnown(m, codes, TableAt(m, files, m.partitions[j].key))
    {
      var key := m.partitions[i].key;
      if ChecksMaster(key.dataset) && !AllKnown(m, codes, TableAt(m, files, key)) {
        errors := errors + [OutsideMaster(key.dataset)];
      }
    }
  }

  /** Sessions with a daily symbol that was not listed, or that another table must cover. */
  method DayErrors(m: Manifest, files: map<Key, Table>) returns (errors: seq<Complaint>)
    ensures forall c :: c in errors <==> !c.OutsideMaster? && UniverseComplaint(m, files, c)
  {
    var sessions, stocks := SessionsOf(m, files), TableAt(m, files, STOCK_KEY);
    hide AllKnown, TableAt, SessionsOf, PitCodes, Codes, CapabilityOf;
    errors := [];
    for i := 0 to |sessions|
      invariant forall c :: c in errors <==>
        || (c.OutsidePit? && c.date in sessions[..i] && !AllKnown(m, PitCodes(stocks, c.date), TableAt(m, files, SessionKey(Daily, c.date))))
        || (c.CoverageGap? && c.key.tag.Session? && c.key.tag.date in sessions[..i] && MustCover(m, c.key.dataset)
            && !(Codes(TableAt(m, files, SessionKey(Daily, c.key.tag.date))) <= Codes(TableAt(m, files, c.key))))
    {
      var date := sessions[i];
      assert sessions[..i + 1] == sessions[..i] + [date];
      var daily := TableAt(m, files, SessionKey(Daily, date));
      if !AllKnown(m, PitCodes(stocks, date), daily) { errors := errors + [OutsidePit(date)]; }
      var gaps := GapErrors(m, files, date);
      errors := errors + gaps;
    }
    assert sessions[..|sessions|] == sessions;
  }

  method GapErrors(m: Manifest, files: map<Key, Table>, date: string) returns (errors: seq<Complaint>)
    ensures forall c :: c in errors <==>
      && c.CoverageGap? && c.key.tag == Session(date) && MustCover(m, c.key.dataset)
      && !(Codes(TableAt(m, files, SessionKey(Daily, date))) <= Codes(TableAt(m, files, c.key)))
  {
    hide TableAt, Codes, CapabilityOf;
    var codes := Codes(TableAt(m, files, SessionKey(Daily, date)));
    var covering := [AdjFactor, DailyBasic, Limits];
    errors := [];
    for i := 0 to |covering|
      invariant forall c :: c in errors <==>
        && c.CoverageGap? && c.key.tag == Session(date) && c.key.dataset in covering[..i] && MustCover(m, c.key.dataset)
        && !(codes <= Codes(TableAt(m, files, c.key)))
    {
      var key := SessionKey(covering[i], date);
      assert covering[..i + 1] == covering[..i] + [covering[i]];
      if MustCover(m, covering[i]) && !(codes <= Codes(TableAt(m, files, key))) { errors := errors + [CoverageGap(key)]; }
    }
    assert covering[..|covering|] == covering && forall d :: MustCover(m, d) ==> d in covering;
  }

  method RangeErrors(config: Config, m: Manifest, files: map<Key, Table>) returns (errors: seq<Complaint>)
    ensures forall c :: c in errors <==> RangeComplaint(config, m, files, c)
  {
    hide TableAt, SessionsOf, CoversSessions, CalendarCovers, Sessions, Le;
    var sessions, recorded := SessionsOf(m, files), Sessions(m.calendar);
    var benchmark, calendar := TableAt(m, files, BENCHMARK_KEY), TableAt(m, files, CALENDAR_KEY);
    errors := [];
    if benchmark != [] && !CoversSessions(benchmark, sessions) { errors := errors + [BenchmarkShort]; }
    if sessions != [] {
      if recorded == [] || recorded[0] != sessions[0] || recorded[|recorded| - 1] != sessions[|sessions| - 1] {
        errors := errors + [RangeWrong];
      }
      if !(Le(config.start, sessions[0]) && Le(sessions[|sessions| - 1], config.end)) { errors := errors + [OutsideRange]; }
      if |recorded| != |sessions| { errors := errors + [CountWrong]; }
    }
    if calendar != [] && !CalendarCovers(calendar, config.start, config.end) { errors := errors + [CalendarShort]; }
  }

  method CapabilityErrors(m: Manifest, files: map<Key, Table>) returns (errors: seq<Complaint>)
    ensures forall c :: c in errors <==> CapabilityComplaint(m, files, c)
  {
    hide CapabilityComplaint;
    errors := [];
    for i := 0 to |OPTIONAL_DATASETS|
      invariant forall c :: c in errors <==>
        CapabilityComplaint(m, files, c) && (c.NoDataset? || c.NoSessions?) && c.dataset in OPTIONAL_DATASETS[..i]
    {
      assert OPTIONAL_DATASETS[..i + 1] == OPTIONAL_DATASETS[..i] + [OPTIONAL_DATASETS[i]];
      var more := CapabilityErrorsOf(m, files, OPTIONAL_DATASETS[i]);
      errors := errors + more;
    }
    CapabilityDatasets(m, files);
  }

  lemma CapabilityDatasets(m: Manifest, files: map<Key, Table>)
    ensures forall c :: CapabilityComplaint(m, files, c) ==> (c.NoDataset? || c.NoSessions?) && c.dataset in OPTIONAL_DATASETS
  {
  }

  method CapabilityErrorsOf(m: Manifest, files: map<Key, Table>, d: Dataset) returns (errors: seq<Complaint>)
    requires d in OPTIONAL_DATASETS
    ensures forall c :: c in errors <==> CapabilityComplaint(m, files, c) && (c.NoDataset? || c.NoSessions?) && c.dataset == d
  {
    hide Readable, SessionsOf, HasDataset;
    errors := [];
    if CapabilityOf(m, d) == Available {
      if !HasDataset(m, d) { errors := errors + [NoDataset(d)]; }
      var sessions := SessionsOf(m, files);
      if d != NameChange && exists date :: date in sessions && !Readable(m, files, SessionKey(d, date)) {
        errors := errors + [NoSessions(d)];
      }
    }
  }

  /** The completeness of an available name history. */
  method NamesErrors(m: Manifest, files: map<Key, Table>) returns (errors: seq<Complaint>)
    ensures forall c :: c in errors <==> NamesComplaint(m, files, c)
  {
    hide ShardTables, ShardKeys, TableAt, KeySet, CapabilityOf;
    errors := [];
    if CapabilityOf(m, NameChange) != Available { return; }
    var tables, keys := CollectShards(m, files);
    var combined := TableAt(m, files, NAMES_KEY);
    if !m.names.complete { errors := errors + [NamesIncomplete]; }
    if m.names.plannedShards != m.names.completedShards || m.names.plannedSymbols != m.names.completedSymbols {
      errors := errors + [NamesCounts];
    }
    if |tables| != m.names.plannedShards { errors := errors + [NamesShards]; }
    if |combined| != |keys| || KeySet(NameChange, combined) != keys { errors := errors + [NamesCombined]; }
  }

  method CollectShards(m: Manifest, files: map<Key, Table>) returns (tables: set<Key>, keys: set<BusinessKey>)
    ensures tables == ShardTables(m, files) && keys == ShardKeys(m, files)
  {
    hide KeySet;
    tables, keys := {}, {};
    for i := 0 to |m.partitions|
      invariant forall key :: key in tables <==>
        exists j :: 0 <= j < i && m.partitions[j].key == key && key.dataset == NameShard && key in files
      invariant forall k :: k in keys <==> exists key :: key in tables && k in KeySet(NameChange, files[key].rows)
    {
      var key := m.partitions[i].key;
      if key.dataset == NameShard && key in files {
        tables, keys := tables + {key}, keys + KeySet(NameChange, files[key].rows);
      }
    }
    TablesCollected(m, files, tables, keys);
  }

  lemma TablesCollected(m: Manifest, files: map<Key, Table>, tables: set<Key>, keys: set<BusinessKey>)
    requires forall key :: key in tables <==>
      exists j :: 0 <= j < |m.partitions| && m.partitions[j].key == key && key.dataset == NameShard && key in files
    requires forall k :: k in keys <==> exists key :: key in tables && k in KeySet(NameChange, files[key].rows)
    ensures tables == ShardTables(m, files) && keys == ShardKeys(m, files)
  {
    assert tables == ShardTables(m, files);
    forall key | key in tables ensures TableAt(m, files, key) == files[key].rows {
    }
  }

  method LedgerErrors(m: Manifest, files: map<Key, Table>) returns (errors: seq<Complaint>)
    ensures forall c :: c in errors <==> LedgerComplaint(m, files, c)
  {
    hide UnexplainedDaily, TableAt, Codes;
    errors := if UnexplainedDaily(m.auditedOver) then [Unexplained] else [];
    var stocks, codes := Codes(TableAt(m, files, STOCK_KEY)), SortedSet(m.resolutions.Keys);
    for i := 0 to |codes|
      invariant forall c :: c in errors <==>
        LedgerComplaint(m, files, c) && (c.Unexplained? || (c.BadResolution? && c.code in codes[..i]))
    {
      assert codes[..i + 1] == codes[..i] + [codes[i]];
      var current := ResolvedCurrent(m, codes[i]);
      if current.Some? && (current.value == "" || current.value !in stocks) { errors := errors + [BadResolution(codes[i])]; }
    }
  }

  /** `validate_snapshot` on a manifest the builder wrote. */
  method ValidateSnapshot(config: Config, m: Manifest, files: map<Key, Table>) returns (errors: seq<Complaint>)
    ensures forall c :: c in errors <==> Complains(config, m, files, c)
  {
    hide PartitionComplaint, PresenceComplaint, UniverseComplaint, RangeComplaint, CapabilityComplaint, NamesComplaint, LedgerComplaint;
    var partitions := PartitionErrors(m, files);
    var presence := PresenceErrors(m, files);
    var masters := MasterErrors(m, files);
    var days := DayErrors(m, files);
    var range := RangeErrors(config, m, files);
    var capabilities := CapabilityErrors(m, files);
    var names := NamesErrors(m, files);
    var ledger := LedgerErrors(m, files);
    errors := partitions + presence + masters + days + range + capabilities + names + ledger;
    assert forall c :: c in errors <==> PlainComplaint(config, m, files, c);
    assert errors != [] ==> errors[0] in errors;
    if m.completed && ((exists note :: note in m.failed && note.required) || errors != []) {
      errors := errors + [StatusInconsistent];
    }
  }

  /** The optional datasets among the complaints. */
  method NamedIn(config: Config, m: Manifest, files: map<Key, Table>, errors: seq<Complaint>) returns (named: set<Dataset>)
    requires forall c :: c in errors <==> Complains(config, m, files, c)
    ensures named == Named(config, m, files)
  {
    hide Complains, Mentions;
    named := {};
    for i := 0 to |OPTIONAL_DATASETS|
      invariant named == set d | d in OPTIONAL_DATASETS[..i] && exists c :: c in errors && d in Mentions(c)
    {
      var d := OPTIONAL_DATASETS[i];
      assert OPTIONAL_DATASETS[..i + 1] == OPTIONAL_DATASETS[..i] + [d];
      if exists c :: c in errors && d in Mentions(c) { named := named + {d}; }
    }
  }
}
