/** What it takes to pass the local validation, in terms of the rows that are stored. */
module SnapshotPass {
  import opened Outcomes
  import opened Texts
  import opened SnapshotRows
  import opened SnapshotModel
  import opened SnapshotValidator
  import opened SnapshotNames
  import opened SnapshotMeaning
  import opened SnapshotListing

  ghost predicate Listed(m: Manifest, key: Key) {
    exists i :: 0 <= i < |m.partitions| && m.partitions[i].key == key
  }

  /** The rows of a listed partition that is on disk; none of any other. */
  ghost function Rows(m: Manifest, files: map<Key, Table>, key: Key): seq<Row> {
    if Listed(m, key) && key in files then files[key].rows else []
  }

  lemma RowsAre(m: Manifest, files: map<Key, Table>, key: Key)
    ensures Listed(m, key) <==> HasKey(m.partitions, key)
    ensures Rows(m, files, key) == TableAt(m, files, key)
  {
    if entry :| entry in m.partitions && entry.key == key {
      var i :| 0 <= i < |m.partitions| && m.partitions[i] == entry;
    }
  }

  ghost predicate Offered(m: Manifest, dataset: Dataset) {
    dataset in m.capabilities && m.capabilities[dataset] == Available
  }

  /** Datasets whose defects are errors: the required ones, and optional ones that the
      manifest calls available. */
  ghost predicate Matters(m: Manifest, dataset: Dataset) {
    && (dataset in {DailyBasic, Suspend, Limits, NameChange} ==> Offered(m, dataset))
    && (dataset == NameShard ==> Offered(m, NameChange))
  }

  lemma MattersIff(m: Manifest, dataset: Dataset)
    ensures Active(m, dataset) <==> Matters(m, dataset)
    ensures CapabilityOf(m, dataset) == Available <==> Offered(m, dataset)
  {
  }

  // ----- Partitions

  /** The file is there as recorded; its rows have their key fields, are of different records,
      and bear the date of the partition. */
  ghost predicate EntryFine(files: map<Key, Table>, entry: Entry) {
    var key := entry.key;
    && key in files
    && entry.hash.content == files[key] && entry.rowCount == |files[key].rows|
    && entry.schema == files[key].schema && entry.schema == SchemaOf(key.dataset)
    && (forall row :: row in files[key].rows ==> WellKeyed(key.dataset, row))
    && (forall i, j :: 0 <= i < j < |files[key].rows| ==> !SameRecord(key.dataset, files[key].rows[i], files[key].rows[j]))
    && (key.tag.Session? ==> forall row :: row in files[key].rows ==> Text(row, TradeDate) == key.tag.date)
  }

  ghost predicate PartitionsFine(m: Manifest, files: map<Key, Table>) {
    && (forall i, j :: 0 <= i < j < |m.partitions| ==> m.partitions[i].key != m.partitions[j].key)
    && (forall entry :: entry in m.partitions && Matters(m, entry.key.dataset) ==> EntryFine(files, entry))
  }

  lemma EntryPasses(m: Manifest, files: map<Key, Table>, entry: Entry)
    ensures (forall c :: !EntryComplaint(m, files, entry, c)) <==> (Matters(m, entry.key.dataset) ==> EntryFine(files, entry))
  {
    MattersIff(m, entry.key.dataset);
    var key := entry.key;
    hide HasNullKey, WellKeyed, DistinctKeys, SameRecord, Active, Matters;
    if key in files {
      var rows := files[key].rows;
      forall row | row in rows ensures HasNullKey(key.dataset, row) <==> !WellKeyed(key.dataset, row) {
        NullIffNotKeyed(key.dataset, row);
      }
      DistinctRecords(key.dataset, rows);
      if forall c :: !EntryComplaint(m, files, entry, c) {
        assert !EntryComplaint(m, files, entry, Mismatch(key)) && !EntryComplaint(m, files, entry, NullKeys(key.dataset));
        assert !EntryComplaint(m, files, entry, RepeatedKeys(key.dataset)) && !EntryComplaint(m, files, entry, WrongDate(key));
      }
    } else {
      if forall c :: !EntryComplaint(m, files, entry, c) { assert !EntryComplaint(m, files, entry, Missing(key)); }
    }
  }

  lemma DistinctRecords(dataset: Dataset, rows: seq<Row>)
    ensures DistinctKeys(dataset, rows) <==> forall i, j :: 0 <= i < j < |rows| ==> !SameRecord(dataset, rows[i], rows[j])
  {
    hide KeyOf, SameRecord, DistinctKeys;
    DistinctIff(dataset, rows);
    forall i, j | 0 <= i < j < |rows| ensures KeyOf(dataset, rows[i]) == KeyOf(dataset, rows[j]) <==> SameRecord(dataset, rows[i], rows[j]) {
      SameKeyIff(dataset, rows[i], rows[j]);
    }
  }

  lemma PartitionsPass(m: Manifest, files: map<Key, Table>)
    ensures (forall c :: !PartitionComplaint(m, files, c)) <==> PartitionsFine(m, files)
  {
    hide EntryComplaint, EntryFine, Matters;
    forall entry ensures (forall c :: !EntryComplaint(m, files, entry, c)) <==> (Matters(m, entry.key.dataset) ==> EntryFine(files, entry)) {
      EntryPasses(m, files, entry);
    }
    if forall c :: !PartitionComplaint(m, files, c) {
      forall i, j | 0 <= i < j < |m.partitions| ensures m.partitions[i].key != m.partitions[j].key {
        assert !PartitionComplaint(m, files, Repeated(m.partitions[i].key));
      }
      forall entry | entry in m.partitions && Matters(m, entry.key.dataset) ensures EntryFine(files, entry) {
        forall c ensures !EntryComplaint(m, files, entry, c) {
          assert !PartitionComplaint(m, files, c);
        }
      }
    }
  }

  // ----- Presence

  /** The manifest lists a partition of the dataset. */
  ghost predicate ListsSome(m: Manifest, d: Dataset) {
    exists i :: 0 <= i < |m.partitions| && m.partitions[i].key.dataset == d
  }

  ghost predicate Stored(m: Manifest, files: map<Key, Table>, key: Key) {
    Listed(m, key) && key in files
  }

  /** Every required dataset is listed, and every session has its daily bars and factors. */
  ghost predicate PresenceFine(m: Manifest, files: map<Key, Table>) {
    && ListsSome(m, StockBasic) && ListsSome(m, Calendar) && ListsSome(m, Daily) && ListsSome(m, AdjFactor) && ListsSome(m, Benchmark)
    && (forall date :: date in Sessions(Rows(m, files, CALENDAR_KEY)) ==>
          Stored(m, files, Key(Daily, Session(date))) && Stored(m, files, Key(AdjFactor, Session(date))))
  }

  lemma ListsSomeIff(m: Manifest, d: Dataset)
    ensures HasDataset(m, d) <==> ListsSome(m, d)
  {
    if entry :| entry in m.partitions && entry.key.dataset == d {
      var i :| 0 <= i < |m.partitions| && m.partitions[i] == entry;
    }
  }

  lemma StoredIff(m: Manifest, files: map<Key, Table>, key: Key)
    ensures Readable(m, files, key) <==> Stored(m, files, key)
  {
    RowsAre(m, files, key);
  }

  lemma RequiredPass(m: Manifest, files: map<Key, Table>)
    ensures (forall d :: !PresenceComplaint(m, files, RequiredMissing(d))) <==>
      ListsSome(m, StockBasic) && ListsSome(m, Calendar) && ListsSome(m, Daily) && ListsSome(m, AdjFactor) && ListsSome(m, Benchmark)
  {
    assert forall d :: d in REQUIRED_DATASETS <==> d in {StockBasic, Calendar, Daily, AdjFactor, Benchmark};
    hide Readable, SessionsOf, ListsSome, HasDataset;
    forall d ensures HasDataset(m, d) <==> ListsSome(m, d) {
      ListsSomeIff(m, d);
    }
    if forall d :: !PresenceComplaint(m, files, RequiredMissing(d)) {
      assert !PresenceComplaint(m, files, RequiredMissing(StockBasic)) && !PresenceComplaint(m, files, RequiredMissing(Calendar))
          && !PresenceComplaint(m, files, RequiredMissing(Daily)) && !PresenceComplaint(m, files, RequiredMissing(AdjFactor))
          && !PresenceComplaint(m, files, RequiredMissing(Benchmark));
    }
  }

  lemma DayMissing(m: Manifest, files: map<Key, Table>, key: Key)
    ensures PresenceComplaint(m, files, SessionMissing(key)) <==>
      && key.dataset in {Daily, AdjFactor} && key.tag.Session? && key.tag.date in Sessions(Rows(m, files, CALENDAR_KEY))
      && !Stored(m, files, key)
  {
    RowsAre(m, files, CALENDAR_KEY);
    StoredIff(m, files, key);
    assert key.dataset in [Daily, AdjFactor] <==> key.dataset in {Daily, AdjFactor};
    hide Rows, TableAt, Sessions, Readable, Stored;
  }

  lemma PresencePasses(m: Manifest, files: map<Key, Table>)
    ensures (forall c :: !PresenceComplaint(m, files, c)) <==> PresenceFine(m, files)
  {
    RequiredPass(m, files);
    OnlyPresenceKinds(m, files);
    hide PresenceComplaint, ListsSome, Sessions, Rows, Stored;
    forall key ensures PresenceComplaint(m, files, SessionMissing(key)) <==>
      && key.dataset in {Daily, AdjFactor} && key.tag.Session? && key.tag.date in Sessions(Rows(m, files, CALENDAR_KEY))
      && !Stored(m, files, key)
    {
      DayMissing(m, files, key);
    }
    if forall c :: !PresenceComplaint(m, files, c) {
      forall date | date in Sessions(Rows(m, files, CALENDAR_KEY))
        ensures Stored(m, files, Key(Daily, Session(date))) && Stored(m, files, Key(AdjFactor, Session(date)))
      {
        assert !PresenceComplaint(m, files, SessionMissing(Key(Daily, Session(date))))
            && !PresenceComplaint(m, files, SessionMissing(Key(AdjFactor, Session(date))));
      }
    }
    if PresenceFine(m, files) {
      forall c ensures !PresenceComplaint(m, files, c) {
        if c.SessionMissing? && c.key.tag.Session? { assert c.key == Key(c.key.dataset, Session(c.key.tag.date)); }
        if c.RequiredMissing? { assert !PresenceComplaint(m, files, RequiredMissing(c.dataset)); }
      }
    }
  }

  lemma OnlyPresenceKinds(m: Manifest, files: map<Key, Table>)
    ensures forall c :: PresenceComplaint(m, files, c) ==> c.RequiredMissing? || c.SessionMissing?
  {
  }

  // ----- Universe

  /** The code is one of `codes`, or the manifest resolves it to one of them. */
  ghost predicate Accounted(m: Manifest, codes: set<string>, code: string) {
    code in codes || (code in m.resolutions && m.resolutions[code].Resolved? && m.resolutions[code].current in codes)
  }

  ghost predicate AllAccounted(m: Manifest, codes: set<string>, rows: seq<Row>) {
    forall row :: row in rows ==> Accounted(m, codes, Text(row, TsCode))
  }

  /** Every stored row is of the stock master, or of a code resolved to it. */
  ghost predicate MasterFine(m: Manifest, files: map<Key, Table>) {
    forall i :: 0 <= i < |m.partitions| && m.partitions[i].key.dataset !in {Benchmark, Calendar, StockBasic} ==>
      AllAccounted(m, Codes(Rows(m, files, STOCK_KEY)), Rows(m, files, m.partitions[i].key))
  }

  /** Every daily row is of a stock that was on the market that day, or of a code resolved
      to one. */
  ghost predicate DaysFine(m: Manifest, files: map<Key, Table>) {
    forall date :: date in Sessions(Rows(m, files, CALENDAR_KEY)) ==>
      AllAccounted(m, PitCodes(Rows(m, files, STOCK_KEY), date), Rows(m, files, Key(Daily, Session(date))))
  }

  ghost predicate Covers(m: Manifest, d: Dataset) {
    d == AdjFactor || (d in {DailyBasic, Limits} && Offered(m, d))
  }

  /** Factors, and the daily figures and limits that are available, cover every daily code. */
  ghost predicate CoverageFine(m: Manifest, files: map<Key, Table>) {
    forall d, date :: Covers(m, d) && date in Sessions(Rows(m, files, CALENDAR_KEY)) ==>
      Codes(Rows(m, files, Key(Daily, Session(date)))) <= Codes(Rows(m, files, Key(d, Session(date))))
  }

  lemma TablesAre(m: Manifest, files: map<Key, Table>)
    ensures forall key :: Rows(m, files, key) == TableAt(m, files, key)
  {
    forall key ensures Rows(m, files, key) == TableAt(m, files, key) {
      RowsAre(m, files, key);
    }
  }

  lemma MasterPasses(m: Manifest, files: map<Key, Table>)
    ensures (forall c: Complaint :: c.OutsideMaster? ==> !UniverseComplaint(m, files, c)) <==> MasterFine(m, files)
  {
    TablesAre(m, files);
    hide Rows, TableAt, Codes, Text;
    if forall c: Complaint :: c.OutsideMaster? ==> !UniverseComplaint(m, files, c) {
      forall i | 0 <= i < |m.partitions| && m.partitions[i].key.dataset !in {Benchmark, Calendar, StockBasic}
        ensures AllAccounted(m, Codes(Rows(m, files, STOCK_KEY)), Rows(m, files, m.partitions[i].key))
      {
        assert !UniverseComplaint(m, files, OutsideMaster(m.partitions[i].key.dataset)) && m.partitions[i] in m.partitions;
      }
    }
  }

  lemma DaysPass(m: Manifest, files: map<Key, Table>)
    ensures (forall c: Complaint :: c.OutsidePit? ==> !UniverseComplaint(m, files, c)) <==> DaysFine(m, files)
  {
    TablesAre(m, files);
    hide Rows, TableAt, Codes, PitCodes, Text, Sessions;
    if forall c: Complaint :: c.OutsidePit? ==> !UniverseComplaint(m, files, c) {
      forall date | date in Sessions(Rows(m, files, CALENDAR_KEY))
        ensures AllAccounted(m, PitCodes(Rows(m, files, STOCK_KEY), date), Rows(m, files, Key(Daily, Session(date))))
      {
        assert !UniverseComplaint(m, files, OutsidePit(date));
      }
    }
  }

  lemma CoveragePasses(m: Manifest, files: map<Key, Table>)
    ensures (forall c: Complaint :: c.CoverageGap? ==> !UniverseComplaint(m, files, c)) <==> CoverageFine(m, files)
  {
    TablesAre(m, files);
    hide Rows, TableAt, Codes, Sessions;
    forall d ensures MustCover(m, d) <==> Covers(m, d) {
      MattersIff(m, d);
    }
    hide MustCover, Offered, Covers;
    if forall c: Complaint :: c.CoverageGap? ==> !UniverseComplaint(m, files, c) {
      forall d, date | Covers(m, d) && date in Sessions(Rows(m, files, CALENDAR_KEY))
        ensures Codes(Rows(m, files, Key(Daily, Session(date)))) <= Codes(Rows(m, files, Key(d, Session(date))))
      {
        assert !UniverseComplaint(m, files, CoverageGap(Key(d, Session(date))));
      }
    }
    if CoverageFine(m, files) {
      forall c: Complaint | c.CoverageGap? ensures !UniverseComplaint(m, files, c) {
        if c.key.tag.Session? { assert c.key == Key(c.key.dataset, Session(c.key.tag.date)); }
      }
    }
  }

  lemma UniversePasses(m: Manifest, files: map<Key, Table>)
    ensures (forall c :: !UniverseComplaint(m, files, c)) <==> MasterFine(m, files) && DaysFine(m, files) && CoverageFine(m, files)
  {
    MasterPasses(m, files);
    DaysPass(m, files);
    CoveragePasses(m, files);
    OnlyUniverseKinds(m, files);
    hide UniverseComplaint, MasterFine, DaysFine, CoverageFine;
  }

  lemma OnlyUniverseKinds(m: Manifest, files: map<Key, Table>)
    ensures forall c :: UniverseComplaint(m, files, c) ==> c.OutsideMaster? || c.OutsidePit? || c.CoverageGap?
  {
    hide TableAt, AllKnown, SessionsOf, MustCover;
  }

  // ----- Ranges

  /** A benchmark that has rows covers the sessions; the sessions lie in the range asked for
      and are as many as the manifest's calendar has, with the same first and last; a
      calendar that has rows covers the range. */
  ghost predicate RangeFine(config: Config, m: Manifest, files: map<Key, Table>) {
    var sessions, recorded := Sessions(Rows(m, files, CALENDAR_KEY)), Sessions(m.calendar);
    var benchmark, calendar := Rows(m, files, BENCHMARK_KEY), Rows(m, files, CALENDAR_KEY);
    && (benchmark != [] ==> forall date :: date in sessions ==> exists i :: 0 <= i < |benchmark| && Text(benchmark[i], TradeDate) == date)
    && (sessions != [] ==>
          && |recorded| == |sessions|
          && recorded[0] == sessions[0] && recorded[|sessions| - 1] == sessions[|sessions| - 1]
          && Le(config.start, sessions[0]) && Le(sessions[|sessions| - 1], config.end))
    && (calendar != [] ==>
          && (exists row :: row in calendar && Has(row, CalDate) && Le(row[CalDate], config.start))
          && (exists row :: row in calendar && Has(row, CalDate) && Le(config.end, row[CalDate]))
          && (exists row :: row in calendar && Has(row, Exchange)))
  }

  lemma RangePasses(config: Config, m: Manifest, files: map<Key, Table>)
    ensures (forall c :: !RangeComplaint(config, m, files, c)) <==> RangeFine(config, m, files)
  {
    TablesAre(m, files);
    hide Rows, TableAt, Sessions, Le, Has;
    CoversIff(Rows(m, files, CALENDAR_KEY), config.start, config.end);
    BenchmarkCoversIff(Rows(m, files, BENCHMARK_KEY), Sessions(Rows(m, files, CALENDAR_KEY)));
    hide CalendarCovers, CoversSessions;
    if forall c :: !RangeComplaint(config, m, files, c) {
      assert !RangeComplaint(config, m, files, BenchmarkShort) && !RangeComplaint(config, m, files, RangeWrong)
          && !RangeComplaint(config, m, files, OutsideRange) && !RangeComplaint(config, m, files, CalendarShort)
          && !RangeComplaint(config, m, files, CountWrong);
    }
  }

  // ----- Capabilities

  /** A dataset that is called available is listed, and a market dataset for every session. */
  ghost predicate OfferFine(m: Manifest, files: map<Key, Table>, d: Dataset) {
    Offered(m, d) ==>
      && ListsSome(m, d)
      && (d != NameChange ==> forall date :: date in Sessions(Rows(m, files, CALENDAR_KEY)) ==> Stored(m, files, Key(d, Session(date))))
  }

  ghost predicate CapabilityFine(m: Manifest, files: map<Key, Table>) {
    OfferFine(m, files, DailyBasic) && OfferFine(m, files, Suspend) && OfferFine(m, files, Limits) && OfferFine(m, files, NameChange)
  }

  lemma NoDatasetIff(m: Manifest, files: map<Key, Table>, d: Dataset)
    requires d in OPTIONAL_DATASETS
    ensures CapabilityComplaint(m, files, NoDataset(d)) <==> Offered(m, d) && !ListsSome(m, d)
  {
    ListsSomeIff(m, d);
    MattersIff(m, d);
    hide HasDataset, ListsSome, CapabilityOf, Offered, SessionsOf, Readable;
  }

  lemma NoSessionsIff(m: Manifest, files: map<Key, Table>, d: Dataset)
    requires d in OPTIONAL_DATASETS
    ensures CapabilityComplaint(m, files, NoSessions(d)) <==>
      && Offered(m, d) && d != NameChange
      && exists date :: date in SessionsOf(m, files) && !Readable(m, files, SessionKey(d, date))
  {
    MattersIff(m, d);
    hide HasDataset, ListsSome, CapabilityOf, Offered, SessionsOf, Readable, SessionKey;
  }

  lemma SessionsStored(m: Manifest, files: map<Key, Table>, d: Dataset)
    ensures (exists date :: date in SessionsOf(m, files) && !Readable(m, files, SessionKey(d, date))) <==>
      !(forall date :: date in Sessions(Rows(m, files, CALENDAR_KEY)) ==> Stored(m, files, Key(d, Session(date))))
  {
    RowsAre(m, files, CALENDAR_KEY);
    hide Rows, TableAt, Sessions, Readable, Stored;
    forall date ensures Readable(m, files, SessionKey(d, date)) <==> Stored(m, files, Key(d, Session(date))) {
      StoredIff(m, files, SessionKey(d, date));
    }
  }

  lemma OfferPasses(m: Manifest, files: map<Key, Table>, d: Dataset)
    requires d in OPTIONAL_DATASETS
    ensures !CapabilityComplaint(m, files, NoDataset(d)) && !CapabilityComplaint(m, files, NoSessions(d)) <==> OfferFine(m, files, d)
  {
    hide CapabilityComplaint, Rows, Sessions, ListsSome, Readable, Stored, Offered, SessionsOf, SessionKey;
    NoDatasetIff(m, files, d);
    NoSessionsIff(m, files, d);
    SessionsStored(m, files, d);
  }

  lemma EveryOffer(m: Manifest, files: map<Key, Table>)
    requires CapabilityFine(m, files)
    ensures forall d :: d in OPTIONAL_DATASETS ==> OfferFine(m, files, d)
  {
    OptionalAre();
    hide OfferFine;
  }

  lemma AllOffers(m: Manifest, files: map<Key, Table>)
    requires forall d :: d in OPTIONAL_DATASETS ==> OfferFine(m, files, d)
    ensures CapabilityFine(m, files)
  {
    OptionalAre();
    hide OfferFine;
    assert OfferFine(m, files, DailyBasic);
  }

  lemma CapabilityPasses(m: Manifest, files: map<Key, Table>)
    ensures (forall c :: !CapabilityComplaint(m, files, c)) <==> CapabilityFine(m, files)
  {
    hide CapabilityComplaint, OfferFine, CapabilityFine;
    CapabilityDatasets(m, files);
    if forall c :: !CapabilityComplaint(m, files, c) {
      forall d | d in OPTIONAL_DATASETS ensures OfferFine(m, files, d) {
        OfferPasses(m, files, d);
      }
      AllOffers(m, files);
    }
    if CapabilityFine(m, files) {
      EveryOffer(m, files);
      forall c ensures !CapabilityComplaint(m, files, c) {
        if (c.NoDataset? || c.NoSessions?) && c.dataset in OPTIONAL_DATASETS {
          OfferPasses(m, files, c.dataset);
          assert c == NoDataset(c.dataset) || c == NoSessions(c.dataset);
        }
      }
    }
  }

  lemma OptionalAre()
    ensures forall d :: d in OPTIONAL_DATASETS <==> d == DailyBasic || d == Suspend || d == Limits || d == NameChange
  {
  }

  // ----- Name history

  /** A shard of the name history that is listed and on disk. */
  ghost predicate StoredShard(m: Manifest, files: map<Key, Table>, key: Key)
    ensures StoredShard(m, files, key) ==> key in files
  {
    key.dataset == NameShard && Stored(m, files, key)
  }

  ghost predicate InShards(m: Manifest, files: map<Key, Table>, row: Row) {
    exists key :: StoredShard(m, files, key) && HasRecord(files[key].rows, row)
  }

  /** The rows have one of the same name record. */
  ghost predicate HasRecord(rows: seq<Row>, row: Row) {
    exists i :: 0 <= i < |rows| && SameRecord(NameChange, rows[i], row)
  }

  /** An available name history is complete: planned and completed counts agree, as many shards
      are on disk as planned, and the combined table has one row for every record of the
      shards and no other. */
  ghost predicate NamesFine(m: Manifest, files: map<Key, Table>) {
    Offered(m, NameChange) ==>
      var combined := Rows(m, files, NAMES_KEY);
      && m.names.complete
      && m.names.plannedShards == m.names.completedShards && m.names.plannedSymbols == m.names.completedSymbols
      && |set entry | entry in m.partitions && entry.key.dataset == NameShard && entry.key in files :: entry.key| == m.names.plannedShards
      && (forall row :: row in combined ==> InShards(m, files, row))
      && (forall key, row :: StoredShard(m, files, key) && row in files[key].rows ==> HasRecord(combined, row))
      && (forall i, j :: 0 <= i < j < |combined| ==> !SameRecord(NameChange, combined[i], combined[j]))
  }

  lemma RecordIff(rows: seq<Row>, row: Row)
    ensures HasRecord(rows, row) <==> KeyOf(NameChange, row) in KeySet(NameChange, rows)
  {
    hide KeyOf, SameRecord;
    KeySetHas(NameChange, rows, KeyOf(NameChange, row));
    forall i | 0 <= i < |rows| ensures KeyOf(NameChange, rows[i]) == KeyOf(NameChange, row) <==> SameRecord(NameChange, rows[i], row) {
      SameKeyIff(NameChange, rows[i], row);
    }
  }

  lemma ShardKeysHave(m: Manifest, files: map<Key, Table>, k: BusinessKey)
    ensures k in ShardKeys(m, files) <==>
      exists key :: StoredShard(m, files, key) && k in KeySet(NameChange, files[key].rows)
  {
    hide KeySet;
    TablesAre(m, files);
    if key :| key in ShardTables(m, files) && k in KeySet(NameChange, TableAt(m, files, key)) {
      StoredIff(m, files, key);
      assert StoredShard(m, files, key);
    }
    if key :| StoredShard(m, files, key) && k in KeySet(NameChange, files[key].rows) {
      StoredIff(m, files, key);
      assert key in ShardTables(m, files) && TableAt(m, files, key) == files[key].rows;
    }
  }

  lemma InShardsIff(m: Manifest, files: map<Key, Table>, row: Row)
    ensures InShards(m, files, row) <==> KeyOf(NameChange, row) in ShardKeys(m, files)
  {
    hide KeyOf, KeySet, HasRecord, StoredShard, ShardKeys;
    ShardKeysHave(m, files, KeyOf(NameChange, row));
    forall key | StoredShard(m, files, key)
      ensures HasRecord(files[key].rows, row) <==> KeyOf(NameChange, row) in KeySet(NameChange, files[key].rows)
    {
      RecordIff(files[key].rows, row);
    }
  }

  /** The combined table has the shards' records, each once. */
  lemma CombinedIff(m: Manifest, files: map<Key, Table>, combined: seq<Row>)
    ensures KeySet(NameChange, combined) == ShardKeys(m, files) <==>
      && (forall row :: row in combined ==> InShards(m, files, row))
      && (forall key, row :: StoredShard(m, files, key) && row in files[key].rows ==> HasRecord(combined, row))
  {
    hide KeyOf, KeySet, HasRecord, StoredShard, ShardKeys, InShards;
    forall row ensures InShards(m, files, row) <==> KeyOf(NameChange, row) in ShardKeys(m, files) {
      InShardsIff(m, files, row);
    }
    forall row ensures HasRecord(combined, row) <==> KeyOf(NameChange, row) in KeySet(NameChange, combined) {
      RecordIff(combined, row);
    }
    KeysFromRows(combined);
    forall k ensures k in ShardKeys(m, files) <==> exists key :: HasKeyIn(m, files, key, k) {
      ShardKeyRow(m, files, k);
    }
    ShardRowsKeyed(m, files);
  }

  ghost predicate HasKeyIn(m: Manifest, files: map<Key, Table>, key: Key, k: BusinessKey) {
    StoredShard(m, files, key) && exists row :: row in files[key].rows && KeyOf(NameChange, row) == k
  }

  lemma KeysFromRows(rows: seq<Row>)
    ensures forall k :: k in KeySet(NameChange, rows) <==> exists row :: row in rows && KeyOf(NameChange, row) == k
  {
    hide KeyOf, KeySet;
    forall k ensures k in KeySet(NameChange, rows) <==> exists row :: row in rows && KeyOf(NameChange, row) == k {
      KeySetHas(NameChange, rows, k);
    }
  }

  lemma ShardKeyRow(m: Manifest, files: map<Key, Table>, k: BusinessKey)
    ensures k in ShardKeys(m, files) <==> exists key :: HasKeyIn(m, files, key, k)
  {
    hide KeyOf, KeySet, ShardKeys;
    ShardKeysHave(m, files, k);
    forall key | StoredShard(m, files, key) ensures k in KeySet(NameChange, files[key].rows) <==> HasKeyIn(m, files, key, k) {
      KeysFromRows(files[key].rows);
    }
  }

  lemma ShardRowsKeyed(m: Manifest, files: map<Key, Table>)
    ensures forall key, row :: StoredShard(m, files, key) && row in files[key].rows ==> HasKeyIn(m, files, key, KeyOf(NameChange, row))
  {
    hide KeyOf;
  }

  lemma {:induction false} CountIsDistinct(rows: seq<Row>)
    ensures |KeySet(NameChange, rows)| <= |rows|
    ensures |KeySet(NameChange, rows)| == |rows| <==> DistinctKeys(NameChange, rows)
  {
    hide KeyOf;
    if rows != [] {
      CountIsDistinct(rows[1..]);
      var key, rest := KeyOf(NameChange, rows[0]), KeySet(NameChange, rows[1..]);
      assert KeySet(NameChange, rows) == {key} + rest;
      if key in rest {
        assert {key} + rest == rest;
      } else {
        assert |{key} + rest| == 1 + |rest|;
      }
    }
  }

  lemma CombinedPasses(m: Manifest, files: map<Key, Table>)
    ensures var combined := Rows(m, files, NAMES_KEY);
      |combined| == |ShardKeys(m, files)| && KeySet(NameChange, combined) == ShardKeys(m, files) <==>
        && (forall row :: row in combined ==> InShards(m, files, row))
        && (forall key, row :: StoredShard(m, files, key) && row in files[key].rows ==> HasRecord(combined, row))
        && (forall i, j :: 0 <= i < j < |combined| ==> !SameRecord(NameChange, combined[i], combined[j]))
  {
    hide KeySet, ShardKeys, InShards, StoredShard, HasRecord, SameRecord, Rows, DistinctKeys;
    var combined := Rows(m, files, NAMES_KEY);
    CombinedIff(m, files, combined);
    CountIsDistinct(combined);
    DistinctRecords(NameChange, combined);
  }

  lemma NamesPasses(m: Manifest, files: map<Key, Table>)
    ensures (forall c :: !NamesComplaint(m, files, c)) <==> NamesFine(m, files)
  {
    CombinedPasses(m, files);
    RowsAre(m, files, NAMES_KEY);
    MattersIff(m, NameChange);
    hide KeySet, ShardKeys, InShards, StoredShard, HasRecord, SameRecord, Rows, TableAt, CapabilityOf, Offered;
    if forall c :: !NamesComplaint(m, files, c) {
      assert !NamesComplaint(m, files, NamesIncomplete) && !NamesComplaint(m, files, NamesCounts)
          && !NamesComplaint(m, files, NamesShards) && !NamesComplaint(m, files, NamesCombined);
    }
  }

  // ----- Resolutions, audits and status

  ghost predicate Counted(audit: Audit, kind: Kind) {
    kind in audit.examples && kind in audit.counts && audit.counts[kind] > 0
  }

  /** No daily partition counts a code that is absent from the master or unknown, and every
      resolution names a code of the master. */
  ghost predicate LedgerFine(m: Manifest, files: map<Key, Table>) {
    && (forall entry :: entry in m.auditedOver && entry.key.dataset == Daily && entry.audit.Some? ==>
          !Counted(entry.audit.value, AbsentStockBasic) && !Counted(entry.audit.value, UnknownKind))
    && (forall code :: code in m.resolutions && m.resolutions[code].Resolved? ==>
          m.resolutions[code].current != "" && m.resolutions[code].current in Codes(Rows(m, files, STOCK_KEY)))
  }

  lemma UnexplainedIff(audit: Audit)
    ensures UnexplainedIn(audit) <==> Counted(audit, AbsentStockBasic) || Counted(audit, UnknownKind)
  {
    assert AbsentStockBasic in [AbsentStockBasic, UnknownKind] && UnknownKind in [AbsentStockBasic, UnknownKind];
  }

  lemma LedgerPasses(m: Manifest, files: map<Key, Table>)
    ensures (forall c :: !LedgerComplaint(m, files, c)) <==> LedgerFine(m, files)
  {
    RowsAre(m, files, STOCK_KEY);
    hide Rows, TableAt, Codes, UnexplainedIn, Counted;
    forall audit ensures UnexplainedIn(audit) <==> Counted(audit, AbsentStockBasic) || Counted(audit, UnknownKind) {
      UnexplainedIff(audit);
    }
    if forall c :: !LedgerComplaint(m, files, c) {
      assert !LedgerComplaint(m, files, Unexplained);
      forall code | code in m.resolutions && m.resolutions[code].Resolved?
        ensures m.resolutions[code].current != "" && m.resolutions[code].current in Codes(Rows(m, files, STOCK_KEY))
      {
        assert !LedgerComplaint(m, files, BadResolution(code));
      }
    }
  }

  ghost predicate AllFine(config: Config, m: Manifest, files: map<Key, Table>) {
    && PartitionsFine(m, files) && PresenceFine(m, files)
    && MasterFine(m, files) && DaysFine(m, files) && CoverageFine(m, files)
    && RangeFine(config, m, files) && CapabilityFine(m, files) && NamesFine(m, files) && LedgerFine(m, files)
  }

  lemma PlainPasses(config: Config, m: Manifest, files: map<Key, Table>)
    ensures (forall c :: !PlainComplaint(config, m, files, c)) <==> AllFine(config, m, files)
  {
    PartitionsPass(m, files);
    PresencePasses(m, files);
    UniversePasses(m, files);
    RangePasses(config, m, files);
    CapabilityPasses(m, files);
    NamesPasses(m, files);
    LedgerPasses(m, files);
    hide PartitionComplaint, PresenceComplaint, UniverseComplaint, RangeComplaint, CapabilityComplaint, NamesComplaint, LedgerComplaint,
      PartitionsFine, PresenceFine, MasterFine, DaysFine, CoverageFine, RangeFine, CapabilityFine, NamesFine, LedgerFine;
    assert forall c :: PlainComplaint(config, m, files, c) <==>
      || PartitionComplaint(m, files, c) || PresenceComplaint(m, files, c) || UniverseComplaint(m, files, c)
      || RangeComplaint(config, m, files, c) || CapabilityComplaint(m, files, c) || NamesComplaint(m, files, c) || LedgerComplaint(m, files, c);
  }

  /** What passing the validation means: it complains of nothing exactly if everything stored
      is in order and a manifest that calls itself completed has no required failure. */
  lemma PassesIff(config: Config, m: Manifest, files: map<Key, Table>)
    ensures (forall c :: !Complains(config, m, files, c)) <==>
      AllFine(config, m, files) && (m.completed ==> forall note :: note in m.failed ==> !note.required)
  {
    PlainPasses(config, m, files);
    hide PlainComplaint, AllFine;
    if forall c :: !Complains(config, m, files, c) {
      assert !Complains(config, m, files, StatusInconsistent);
      forall c ensures !PlainComplaint(config, m, files, c) {
        assert !Complains(config, m, files, c);
      }
    }
  }

  // ----- Demotion

  /** The complaint is about this optional dataset; shards belong to the name history. */
  ghost predicate Concerns(c: Complaint, d: Dataset) {
    match c
    case Repeated(key) => PartOf(key.dataset, d)
    case Missing(key) => PartOf(key.dataset, d)
    case Mismatch(key) => PartOf(key.dataset, d)
    case WrongDate(key) => PartOf(key.dataset, d)
    case CoverageGap(key) => PartOf(key.dataset, d)
    case NullKeys(dataset) => PartOf(dataset, d)
    case RepeatedKeys(dataset) => PartOf(dataset, d)
    case OutsideMaster(dataset) => PartOf(dataset, d)
    case NoDataset(dataset) => PartOf(dataset, d)
    case NoSessions(dataset) => PartOf(dataset, d)
    case NamesIncomplete | NamesCounts | NamesShards | NamesCombined => d == NameChange
    case _ => false
  }

  ghost predicate PartOf(dataset: Dataset, d: Dataset) {
    d in {DailyBasic, Suspend, Limits, NameChange} && (dataset == d || (dataset == NameShard && d == NameChange))
  }

  ghost predicate Faulted(config: Config, m: Manifest, files: map<Key, Table>, d: Dataset) {
    exists c :: Complains(config, m, files, c) && Concerns(c, d)
  }

  lemma NamedIff(config: Config, m: Manifest, files: map<Key, Table>, d: Dataset)
    ensures d in Named(config, m, files) <==> Faulted(config, m, files, d)
  {
    hide Complains;
    OptionalAre();
    forall c ensures d in Mentions(c) && d in OPTIONAL_DATASETS <==> Concerns(c, d) {
      MentionsIff(c, d);
    }
    hide Concerns, Mentions;
  }

  lemma MentionsIff(c: Complaint, d: Dataset)
    ensures d in Mentions(c) && d in OPTIONAL_DATASETS <==> Concerns(c, d)
  {
    OptionalAre();
  }

  lemma {:induction false} NotesAre(a: Attempt, named: set<Dataset>, datasets: seq<Dataset>)
    ensures forall note :: note in DemotionNotes(a, named, datasets) ==>
      !note.required && note.dataset.Some? && note.dataset.value in named && note.tag == NoTag
      && note.reason == LocalValidation && note.stamp == a.now(note.dataset, NoTag)
    ensures forall d :: d in datasets && d in named ==> exists note :: note in DemotionNotes(a, named, datasets) && note.dataset == Some(d)
    ensures |DemotionNotes(a, named, datasets)| <= |datasets|
  {
    if datasets != [] {
      NotesAre(a, named, datasets[1..]);
      var rest := DemotionNotes(a, named, datasets[1..]);
      var note := FailureNote(Some(datasets[0]), NoTag, false, LocalValidation, a.now(Some(datasets[0]), NoTag));
      var notes := DemotionNotes(a, named, datasets);
      assert notes == (if datasets[0] in named then [note] else []) + rest;
      assert forall other :: other in notes <==> (datasets[0] in named && other == note) || other in rest;
    }
  }

  /** A completed first manifest that does not pass is demoted. If optional datasets are at
      fault, exactly these become incomplete, each with a note that is not required, and the
      build stays completed; if none is, the build is not completed any more and a required
      note says so. Any other manifest is kept as it is. Files and listing stay. */
  lemma DemotionMeans(e: Env, a: Attempt, w: Work)
    ensures var s := Settled(e, a, w);
      var faulted := exists d :: Faulted(e.config, w.m, w.files, d);
      var passes := AllFine(e.config, w.m, w.files) && (w.m.completed ==> forall note :: note in w.m.failed ==> !note.required);
      && s.files == w.files && s.m.partitions == w.m.partitions && s.m.resolutions == w.m.resolutions
      && (!w.m.completed || passes ==> s == w)
      && (w.m.completed && !passes && faulted ==>
            && s.m.completed
            && (forall d :: d in s.m.capabilities <==> d in w.m.capabilities || Faulted(e.config, w.m, w.files, d))
            && (forall d :: d in s.m.capabilities ==>
                  s.m.capabilities[d] == if Faulted(e.config, w.m, w.files, d) then Incomplete else w.m.capabilities[d])
            && |w.m.failed| <= |s.m.failed| && s.m.failed[..|w.m.failed|] == w.m.failed
            && (forall note :: note in s.m.failed[|w.m.failed|..] ==> !note.required && note.reason == LocalValidation))
      && (w.m.completed && !passes && !faulted ==>
            && !s.m.completed && s.m.capabilities == w.m.capabilities
            && s.m.failed == w.m.failed + [FailureNote(None, NoTag, true, LocalValidation, a.now(None, NoTag))])
  {
    hide Complains, Named, Faulted, AllFine, Demoted, Objects, RequiredFailed;
    PassesIff(e.config, w.m, w.files);
    var named := Named(e.config, w.m, w.files);
    ObjectsIsComplaint(e.config, w.m, w.files);
    forall d ensures d in named <==> Faulted(e.config, w.m, w.files, d) {
      NamedIff(e.config, w.m, w.files, d);
    }
    DemotedShape(a, w.m, named);
    if named != {} {
      var d :| d in named;
      assert Faulted(e.config, w.m, w.files, d);
    }
  }

  lemma ObjectsIsComplaint(config: Config, m: Manifest, files: map<Key, Table>)
    ensures Objects(config, m, files) <==> !(forall c :: !Complains(config, m, files, c))
  {
    hide Complains;
  }

  lemma DemotedShape(a: Attempt, m: Manifest, named: set<Dataset>)
    ensures var s := Demoted(a, m, named);
      && s.partitions == m.partitions && s.resolutions == m.resolutions
      && (named == {} ==>
            && !s.completed && s.capabilities == m.capabilities
            && s.failed == m.failed + [FailureNote(None, NoTag, true, LocalValidation, a.now(None, NoTag))])
      && (named != {} ==>
            && s.completed == m.completed
            && (forall d :: d in s.capabilities <==> d in m.capabilities || d in named)
            && (forall d :: d in s.capabilities ==> s.capabilities[d] == if d in named then Incomplete else m.capabilities[d])
            && |m.failed| <= |s.failed| && s.failed[..|m.failed|] == m.failed
            && (forall note :: note in s.failed[|m.failed|..] ==> !note.required && note.reason == LocalValidation))
  {
    hide DemotionNotes;
    NotesAre(a, named, OPTIONAL_DATASETS);
    var notes := DemotionNotes(a, named, OPTIONAL_DATASETS);
    assert (m.failed + notes)[..|m.failed|] == m.failed && (m.failed + notes)[|m.failed|..] == notes;
  }
}
