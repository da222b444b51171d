/** When a step of the build trusts a file it finds, what it lists, which capability an optional
    dataset earns, and whose name histories are fetched; for any directory at all. */
module SnapshotSteps {
  import opened Outcomes
  import opened Texts
  import opened SnapshotRows
  import opened SnapshotModel
  import opened SnapshotNames
  import opened SnapshotMeaning
  import opened SnapshotKinds

  // ----- What the manifest offers

  /** Of the entries that a manifest lists under a key the last one is offered for reuse. */
  lemma {:induction false} LastIsOffered(partitions: seq<Entry>, key: Key, i: nat)
    ensures key in OldEntries(partitions) <==> exists j :: 0 <= j < |partitions| && partitions[j].key == key
    ensures i < |partitions| && partitions[i].key == key && (forall j :: i < j < |partitions| ==> partitions[j].key != key) ==>
      key in OldEntries(partitions) && OldEntries(partitions)[key] == partitions[i]
  {
    if partitions != [] {
      var n := |partitions| - 1;
      var front := partitions[..n];
      LastIsOffered(front, key, i);
      assert OldEntries(partitions) == OldEntries(front)[partitions[n].key := partitions[n]];
      assert forall j :: 0 <= j < n ==> front[j] == partitions[j];
      if key in OldEntries(partitions) && partitions[n].key != key {
        var j :| 0 <= j < |front| && front[j].key == key;
        assert partitions[j].key == key;
      }
      if key in OldEntries(front) {
        var j :| 0 <= j < |front| && front[j].key == key;
        assert partitions[j].key == key;
      }
      if j :| 0 <= j < |partitions| && partitions[j].key == key {
        if j < n { assert front[j].key == key; }
      }
    }
  }

  // ----- Reuse

  /** The file that the entry names is there with the very content, row count and columns that
      were recorded, and the entry is for this partition. */
  ghost predicate Intact(files: map<Key, Table>, entry: Entry, key: Key) {
    && entry.key.tag == key.tag && entry.key in files
    && entry.hash.content == files[entry.key] && entry.rowCount == |files[entry.key].rows|
    && entry.schema == files[entry.key].schema && entry.schema == SchemaOf(key.dataset)
  }

  /** Of the two requests for a range, the file still covers what is asked. */
  ghost predicate StillEnough(e: Env, sessions: seq<string>, key: Key, rows: seq<Row>) {
    && (key.dataset == Calendar ==>
          && (exists row :: row in rows && Has(row, CalDate) && Le(row[CalDate], e.config.start))
          && (exists row :: row in rows && Has(row, CalDate) && Le(e.config.end, row[CalDate]))
          && (exists row :: row in rows && Has(row, Exchange)))
    && (key.dataset == Benchmark ==>
          |rows| > 0 && forall date :: date in sessions ==> exists i :: 0 <= i < |rows| && Text(rows[i], TradeDate) == date)
  }

  ghost predicate Trusted(e: Env, a: Attempt, files: map<Key, Table>, sessions: seq<string>, key: Key) {
    && key in a.previous && Intact(files, a.previous[key], key)
    && StillEnough(e, sessions, key, files[a.previous[key].key].rows)
  }

  lemma ReusableIff(e: Env, a: Attempt, files: map<Key, Table>, sessions: seq<string>, key: Key)
    ensures Reusable(e, a, files, sessions, key) <==> Trusted(e, a, files, sessions, key)
  {
    if key in a.previous && a.previous[key].key in files {
      IntactIff(files, a.previous[key], key);
      CoversIff(files[a.previous[key].key].rows, e.config.start, e.config.end);
      BenchmarkCoversIff(files[a.previous[key].key].rows, sessions);
    }
    hide CalendarCovers, CoversSessions, PartitionValid, Intact, Has, Le;
    if Reusable(e, a, files, sessions, key) { ValidIsThere(files, a.previous[key], key); }
    if Trusted(e, a, files, sessions, key) { IntactIsThere(files, a.previous[key], key); }
  }

  lemma IntactIff(files: map<Key, Table>, entry: Entry, key: Key)
    ensures PartitionValid(files, entry, key) <==> Intact(files, entry, key)
  {
  }

  lemma ValidIsThere(files: map<Key, Table>, entry: Entry, key: Key)
    ensures PartitionValid(files, entry, key) ==> entry.key in files
  {
  }

  lemma IntactIsThere(files: map<Key, Table>, entry: Entry, key: Key)
    ensures Intact(files, entry, key) ==> entry.key in files
  {
  }

  /** A required partition is taken over from the directory exactly if its file is intact and
      still enough, and is then listed as it was recorded, without touching a file. */
  lemma ReusedIffTrusted(e: Env, a: Attempt, stocks: seq<Row>, sessions: seq<string>, w: Work, key: Key)
    requires w.stopped.None?
    ensures var next := RequiredStep(e, a, stocks, sessions, w, key);
      && (next.m.resumed == w.m.resumed + 1 <==> Trusted(e, a, w.files, sessions, key))
      && (next.m.resumed != w.m.resumed + 1 ==> next.m.resumed == w.m.resumed)
      && (next.m.resumed == w.m.resumed + 1 ==>
            next == w.(m := w.m.(partitions := w.m.partitions + [a.previous[key]], resumed := w.m.resumed + 1)))
  {
    ReusableIff(e, a, w.files, sessions, key);
    hide Reusable, Trusted;
    if !Reusable(e, a, w.files, sessions, key) { FetchResumesNothing(e, a, stocks, sessions, w, key); }
    hide Fetched, CallFor;
  }

  /** The same for an optional partition and for a shard of the name history. */
  lemma OptionalReusedIffTrusted(e: Env, a: Attempt, stocks: seq<Row>, sessions: seq<string>, w: Work, key: Key, codes: seq<string>, index: nat)
    ensures OptionalStep(e, a, stocks, sessions, w, key).m.resumed == w.m.resumed + (if Trusted(e, a, w.files, sessions, key) then 1 else 0)
    ensures Trusted(e, a, w.files, sessions, key) ==>
      OptionalStep(e, a, stocks, sessions, w, key)
        == w.(m := w.m.(partitions := w.m.partitions + [a.previous[key]], resumed := w.m.resumed + 1))
    ensures ShardStep(e, a, codes, w, index).m.resumed
      == w.m.resumed + (if Trusted(e, a, w.files, [], Key(NameShard, Shard(index))) then 1 else 0)
  {
    ReusableIff(e, a, w.files, sessions, key);
    ReusableIff(e, a, w.files, [], ShardKey(index));
    hide Reusable, Trusted, FreshRows, AuditFor, ShardRows, CallFor, TableFor, EntryFor;
  }

  lemma FetchResumesNothing(e: Env, a: Attempt, stocks: seq<Row>, sessions: seq<string>, w: Work, key: Key)
    ensures Fetched(e, a, stocks, sessions, w, key).m.resumed == w.m.resumed
  {
    hide FreshRows, AuditFor, WithLookups, CountAt, TableFor, EntryFor;
  }

  /** So a file that was changed after it was recorded is not trusted but fetched again; if
      that succeeds, the file holds the fetched rows and the entry added records them. */
  lemma ChangedIsFetched(e: Env, a: Attempt, stocks: seq<Row>, sessions: seq<string>, w: Work, key: Key)
    requires w.stopped.None? && key in a.previous && a.previous[key].key in w.files
    requires w.files[a.previous[key].key] != a.previous[key].hash.content
    ensures var next := RequiredStep(e, a, stocks, sessions, w, key);
      && next.m.resumed == w.m.resumed
      && (next.stopped.None? ==>
            && key in next.files
            && |next.m.partitions| == |w.m.partitions| + 1 && next.m.partitions[..|w.m.partitions|] == w.m.partitions
            && Intact(next.files, next.m.partitions[|w.m.partitions|], key))
  {
    ReusedIffTrusted(e, a, stocks, sessions, w, key);
    ReusableIff(e, a, w.files, sessions, key);
    assert !Trusted(e, a, w.files, sessions, key);
    FetchLists(e, a, stocks, sessions, w, key);
    hide Reusable, Trusted, Fetched, CallFor, Intact;
  }

  lemma FetchLists(e: Env, a: Attempt, stocks: seq<Row>, sessions: seq<string>, w: Work, key: Key)
    ensures var next := Fetched(e, a, stocks, sessions, w, key);
      next.stopped.None? ==>
        && key in next.files
        && |next.m.partitions| == |w.m.partitions| + 1 && next.m.partitions[..|w.m.partitions|] == w.m.partitions
        && Intact(next.files, next.m.partitions[|w.m.partitions|], key)
  {
    hide FreshRows, AuditFor, WithLookups, CountAt, SchemaOf;
    var resolved := ResolveDay(e, a, stocks, w, key);
    var audit := AuditFor(e, stocks, resolved.m.resolutions, key);
    var noted := NoteAbsent(a, resolved, key, audit);
    assert noted.files == w.files && noted.m.partitions == w.m.partitions && noted.stopped == w.stopped;
    hide NoteAbsent, ResolveDay;
    var rows := FreshRows(e, stocks, sessions, resolved.m.resolutions, key);
    if rows.Success? { WrittenIsIntact(noted, key, rows.value, audit); }
  }

  lemma WrittenIsIntact(w: Work, key: Key, rows: seq<Row>, audit: Option<Audit>)
    ensures var next := Write(w, key, rows, audit);
      && key in next.files && next.files[key].rows == rows
      && next.m.partitions == w.m.partitions + [next.m.partitions[|w.m.partitions|]]
      && Intact(next.files, next.m.partitions[|w.m.partitions|], key)
  {
  }

  // ----- Absent symbols

  lemma {:induction false} TallyIs(u: Universe, rows: seq<Row>, kind: Kind)
    ensures Tally(u, rows, kind) == |CodesOfKind(u, rows, kind)|
  {
    hide Classify;
    if rows != [] { TallyIs(u, rows[..|rows| - 1], kind); }
  }

  /** A fetched day with codes that count as absent from the stock master is noted as a
      required failure, with the first twenty of them; any other day is not noted. */
  lemma AbsentNoted(e: Env, a: Attempt, stocks: seq<Row>, w: Work, key: Key)
    requires IsMarket(key.dataset)
    ensures var codes := CodesOfKind(UniverseFor(stocks, w.m.resolutions, key), MarketRows(e, key), AbsentStockBasic);
      var next := NoteAbsent(a, w, key, AuditFor(e, stocks, w.m.resolutions, key));
      && (codes == [] ==> next == w)
      && (codes != [] ==>
            var first := if |codes| <= 20 then codes else codes[..20];
            var note := FailureNote(Some(key.dataset), key.tag, true, SymbolsAbsent(first), a.now(Some(key.dataset), key.tag));
            next == w.(m := w.m.(failed := w.m.failed + [note])))
  {
    var u, rows := UniverseFor(stocks, w.m.resolutions, key), MarketRows(e, key);
    AuditCounts(u, rows, AbsentStockBasic);
    TallyIs(u, rows, AbsentStockBasic);
    hide Filtered, Tally, CodesOfKind, UniverseFor, MarketRows, CountAt;
  }

  /** Columns tell the datasets apart, except bars of stocks and of the benchmark, and the name
      history and its shards. */
  lemma ColumnsTell(d: Dataset, other: Dataset)
    ensures SchemaOf(d) == SchemaOf(other) <==>
      d == other || {d, other} == {Daily, Benchmark} || {d, other} == {NameChange, NameShard}
  {
    assert d in {d, other} && other in {d, other};
  }

  // ----- Capabilities

  /** An optional dataset is available after its sessions exactly if none of them was noted as
      failed and each is listed; unavailable if nothing of it is listed. */
  lemma CapabilityEarned(e: Env, a: Attempt, stocks: seq<Row>, sessions: seq<string>, w: Work, dataset: Dataset)
    requires sessions != []
    ensures var next := OptionalDataset(e, a, stocks, sessions, w, dataset);
      var listed := (date: string) => exists entry :: entry in next.m.partitions && entry.key == Key(dataset, Session(date));
      && dataset in next.m.capabilities
      && (next.m.capabilities[dataset] == Available <==>
            |next.m.failed| <= |w.m.failed| && forall i :: 0 <= i < |sessions| ==> listed(sessions[i]))
      && (next.m.capabilities[dataset] == Unavailable <==> forall entry :: entry in next.m.partitions ==> entry.key.dataset != dataset)
  {
    hide OptionalDays;
    var next := OptionalDataset(e, a, stocks, sessions, w, dataset);
    if forall d :: d in sessions ==> HasKey(next.m.partitions, SessionKey(dataset, d)) {
      assert sessions[0] in sessions && HasKey(next.m.partitions, SessionKey(dataset, sessions[0]));
    }
    forall i | 0 <= i < |sessions|
      ensures HasKey(next.m.partitions, SessionKey(dataset, sessions[i])) <==>
        exists entry :: entry in next.m.partitions && entry.key == Key(dataset, Session(sessions[i]))
    {
    }
  }

  // ----- Name histories

  lemma {:induction false} ListedSymbolsAre(stocks: seq<Row>, end: string, symbol: string)
    ensures symbol in ListedSymbols(stocks, end) <==>
      exists i :: 0 <= i < |stocks| && Has(stocks[i], ListDate) && Le(stocks[i][ListDate], end) && Text(stocks[i], TsCode) == symbol
  {
    hide Le;
    if stocks != [] {
      ListedSymbolsAre(stocks[1..], end, symbol);
      if i :| 0 <= i < |stocks| && Has(stocks[i], ListDate) && Le(stocks[i][ListDate], end) && Text(stocks[i], TsCode) == symbol {
        if i > 0 { assert stocks[1..][i - 1] == stocks[i]; }
      }
    }
  }

  /** The planned shards hold, in order, the codes of the stocks listed by the end of the
      range, in shards of the configured size, of one if that is not positive. */
  lemma PlannedShards(e: Env, stocks: seq<Row>)
    ensures ShardSize(e) > 0
    ensures var shards, size := Shards(Symbols(e, stocks), ShardSize(e)), if e.config.shardSize < 1 then 1 else e.config.shardSize;
      && Sorted(Flatten(shards))
      && (forall symbol :: symbol in Flatten(shards) <==>
            exists i :: 0 <= i < |stocks| && Has(stocks[i], ListDate) && Le(stocks[i][ListDate], e.config.end) && Text(stocks[i], TsCode) == symbol)
      && (forall i :: 0 <= i < |shards| ==> 0 < |shards[i]| <= size)
      && (forall i :: 0 <= i < |shards| - 1 ==> |shards[i]| == size)
  {
    var listed := ListedSymbols(stocks, e.config.end);
    ShardsPartition(Symbols(e, stocks), ShardSize(e));
    SortSorted(listed);
    forall symbol ensures symbol in Symbols(e, stocks) <==>
      exists i :: 0 <= i < |stocks| && Has(stocks[i], ListDate) && Le(stocks[i][ListDate], e.config.end) && Text(stocks[i], TsCode) == symbol
    {
      ListedSymbolsAre(stocks, e.config.end, symbol);
      assert symbol in Symbols(e, stocks) <==> symbol in multiset(Symbols(e, stocks));
    }
    hide Shards, Flatten, Le;
  }

  /** The records of a shard are the histories of its codes, one after the other; one failed
      call, or one answer of ten thousand rows or more, fails the shard. */
  lemma {:induction false} RecordsAre(e: Env, fails: map<Call, string>, codes: seq<string>)
    ensures var records := NameRecords(e, fails, codes);
      && (records.Success? <==> forall i :: 0 <= i < |codes| ==> CallNames(codes[i]) !in fails && |e.provider.names(codes[i])| < 10000)
      && (records.Success? && codes != [] ==>
            NameRecords(e, fails, codes[1..]).Success? &&
            records.value == e.provider.names(codes[0]) + NameRecords(e, fails, codes[1..]).value)
      && (records.Success? && codes == [] ==> records.value == [])
  {
    if codes != [] {
      RecordsAre(e, fails, codes[1..]);
      var rest := codes[1..];
      assert forall i :: 0 <= i < |rest| ==> rest[i] == codes[i + 1];
      if forall i :: 0 <= i < |rest| ==> CallNames(rest[i]) !in fails && |e.provider.names(rest[i])| < 10000 {
        forall i | 1 <= i < |codes| ensures CallNames(codes[i]) !in fails && |e.provider.names(codes[i])| < 10000 {
          assert codes[i] == rest[i - 1];
        }
      }
    }
  }

  /** The counted symbols are those of the shards that the entries stand for. */
  lemma {:induction false} CompletedCount(entries: seq<Entry>, shards: seq<seq<string>>)
    requires forall i :: 0 <= i < |entries| ==> entries[i].key.tag.Shard? && entries[i].key.tag.index < |shards|
    ensures CompletedSymbols(entries, shards) == |Flatten(seq(|entries|, i requires 0 <= i < |entries| => shards[entries[i].key.tag.index]))|
  {
    if entries != [] {
      CompletedCount(entries[1..], shards);
      var all := seq(|entries|, i requires 0 <= i < |entries| => shards[entries[i].key.tag.index]);
      assert all[1..] == seq(|entries[1..]|, i requires 0 <= i < |entries[1..]| => shards[entries[1..][i].key.tag.index]);
    }
  }
}
