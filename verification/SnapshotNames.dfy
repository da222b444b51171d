/** The sharded name history: shards partition the symbols, and completing all of them, by
    whatever attempts, gives a combined table of exactly the business keys of the shards. */
module SnapshotNames {
  import opened Outcomes
  import opened SnapshotRows
  import opened SnapshotModel
  import opened SnapshotValidator
  import opened SnapshotResume
  import opened SnapshotOptional
  import opened SnapshotRecovery
  import opened SnapshotValidate

  // ----- Shards are an ordered partition of the symbols

  function Flatten(shards: seq<seq<string>>): seq<string> {
    if shards == [] then [] else shards[0] + Flatten(shards[1..])
  }

  /** Joined in order the shards give back the symbols; every shard but the last is full,
      and no shard is empty or over the size. */
  lemma {:induction false} ShardsPartition(symbols: seq<string>, size: nat)
    requires size > 0
    ensures var shards := Shards(symbols, size);
      && Flatten(shards) == symbols
      && (forall i :: 0 <= i < |shards| ==> 0 < |shards[i]| <= size)
      && (forall i :: 0 <= i < |shards| - 1 ==> |shards[i]| == size)
    decreases |symbols|
  {
    var shards := Shards(symbols, size);
    if symbols == [] {
    } else if |symbols| <= size {
      assert Flatten([symbols]) == symbols + Flatten([]);
    } else {
      ShardsPartition(symbols[size..], size);
      assert shards[1..] == Shards(symbols[size..], size);
      assert symbols == symbols[..size] + symbols[size..];
      forall i | 1 <= i < |shards| ensures shards[i] == shards[1..][i - 1] {
      }
    }
  }

  lemma {:induction false} FlattenLength(shards: seq<seq<string>>, entries: seq<Entry>, j: nat)
    requires j <= |shards| == |entries|
    requires forall i: nat :: i < |entries| ==> entries[i].key == ShardKey(i)
    ensures CompletedSymbols(entries[j..], shards) == |Flatten(shards[j..])|
    decreases |shards| - j
  {
    if j < |shards| {
      FlattenLength(shards, entries, j + 1);
      assert entries[j..][1..] == entries[j + 1..] && shards[j..][1..] == shards[j + 1..];
      assert entries[j..][0].key == ShardKey(j);
    }
  }

  // ----- Business keys

  lemma {:induction false} KeySetConcat(dataset: Dataset, a: seq<Row>, b: seq<Row>)
    ensures KeySet(dataset, a + b) == KeySet(dataset, a) + KeySet(dataset, b)
  {
    if a == [] {
      assert a + b == b;
    } else {
      KeySetConcat(dataset, a[1..], b);
      assert (a + b)[1..] == a[1..] + b;
    }
  }

  lemma {:induction false} KeySetCount(dataset: Dataset, rows: seq<Row>)
    requires DistinctKeys(dataset, rows)
    ensures |KeySet(dataset, rows)| == |rows|
  {
    if rows != [] {
      KeySetCount(dataset, rows[1..]);
    }
  }

  function ShardKeySet(files: map<Key, Table>, entries: seq<Entry>): set<BusinessKey> {
    if entries == [] then {}
    else KeySet(NameChange, RowsOf(files, entries[0].key)) + ShardKeySet(files, entries[1..])
  }

  lemma {:induction false} ReadAllKeys(files: map<Key, Table>, entries: seq<Entry>)
    ensures KeySet(NameChange, ReadAll(files, entries)) == ShardKeySet(files, entries)
  {
    if entries != [] {
      ReadAllKeys(files, entries[1..]);
      KeySetConcat(NameChange, RowsOf(files, entries[0].key), ReadAll(files, entries[1..]));
    }
  }

  // ----- A complete history

  ghost predicate NameHistoryConsistent(m: Manifest, files: map<Key, Table>) {
    var shards := ShardEntries(m.partitions);
    var combined := RowsOf(files, NAMES_KEY);
    && m.names.complete
    && m.names.plannedShards == m.names.completedShards == |shards|
    && m.names.plannedSymbols == m.names.completedSymbols
    && |combined| == |ShardKeySet(files, shards)|
    && KeySet(NameChange, combined) == ShardKeySet(files, shards)
    && (forall j: nat :: j < |shards| ==> shards[j].key == ShardKey(j))
    && HasKey(m.partitions, NAMES_KEY) && NAMES_KEY in files
  }

  // ----- Which shards are listed

  /** Shard entries in ascending order of index, all below `count`. */
  ghost predicate Ascending(entries: seq<Entry>, count: nat) {
    forall j: nat :: j < |entries| ==>
      && entries[j].key.tag.Shard?
      && entries[j].key == ShardKey(entries[j].key.tag.index)
      && j <= entries[j].key.tag.index <= count - |entries| + j
  }

  lemma AscendingStep(before: seq<Entry>, after: seq<Entry>, count: nat)
    requires Ascending(ShardEntries(before), count) && Grows(before, after, ShardKey(count))
    requires |ShardEntries(before)| <= count
    ensures Ascending(ShardEntries(after), count + 1) && |ShardEntries(after)| <= count + 1
  {
    if |after| == |before| + 1 {
      assert after[..|after| - 1] == before;
    }
  }

  lemma {:induction false} ShardsAscend(e: Env, a: Attempt, files: map<Key, Table>, w: Work, count: nat, k: nat)
    requires Resumes(TruthOf(e), a, files, k) && Complete(TruthOf(e), files, w) && count <= |NameShards(e)|
    requires ShardEntries(w.m.partitions) == []
    ensures var entries := ShardEntries(ShardSteps(e, a, NameShards(e), w, count).m.partitions);
      Ascending(entries, count) && |entries| <= count
  {
    hide Resumes, Complete, ShardStep, ShardEntries, TruthOf, NameShards, Ascending, Grows;
    if count == 0 {
      AscendingEmpty();
    } else {
      ShardsAscend(e, a, files, w, count - 1, k);
      ShardStepsTry(e, a, files, w, count - 1, k);
      var before := ShardSteps(e, a, NameShards(e), w, count - 1);
      ShardStepTries(e, a, files, before, count - 1, k);
      AscendingStep(before.m.partitions, ShardStep(e, a, NameShards(e)[count - 1], before, count - 1).m.partitions, count - 1);
    }
  }

  lemma AscendingEmpty()
    ensures Ascending([], 0)
  {
  }

  ghost predicate NoShards(partitions: seq<Entry>) {
    forall entry :: entry in partitions ==> entry.key.dataset != NameShard
  }

  lemma {:induction false} NoShardsListed(partitions: seq<Entry>)
    requires NoShards(partitions)
    ensures ShardEntries(partitions) == []
  {
    if partitions != [] {
      NoShardsListed(partitions[..|partitions| - 1]);
    }
  }

  lemma {:induction false} OptionalNoShards(e: Env, a: Attempt, files: map<Key, Table>, w: Work, dataset: Dataset, days: nat, k: nat)
    requires Resumes(TruthOf(e), a, files, k) && Complete(TruthOf(e), files, w) && NoShards(w.m.partitions)
    requires IsOptionalMarket(dataset) && days <= |TruthOf(e).dates|
    ensures NoShards(OptionalDays(e, a, Stocks(e), TruthOf(e).dates, w, dataset, days).m.partitions)
  {
    hide Resumes, Complete, OptionalStep, TruthOf;
    if days > 0 {
      OptionalNoShards(e, a, files, w, dataset, days - 1, k);
      OptionalDaysTry(e, a, files, w, dataset, days - 1, k);
      var before := OptionalDays(e, a, Stocks(e), TruthOf(e).dates, w, dataset, days - 1);
      OptionalStepTries(e, a, files, before, k, SessionKey(dataset, TruthOf(e).dates[days - 1]));
    }
  }

  lemma DatasetNoShards(e: Env, a: Attempt, files: map<Key, Table>, w: Work, dataset: Dataset, k: nat)
    requires Resumes(TruthOf(e), a, files, k) && Complete(TruthOf(e), files, w) && NoShards(w.m.partitions)
    requires IsOptionalMarket(dataset)
    ensures var next := OptionalDataset(e, a, Stocks(e), TruthOf(e).dates, w, dataset);
      Complete(TruthOf(e), files, next) && NoShards(next.m.partitions)
  {
    hide TruthOf, Resumes, Complete, OptionalDays, NoShards;
    OptionalNoShards(e, a, files, w, dataset, |TruthOf(e).dates|, k);
    OptionalDatasetComplete(e, a, files, w, dataset, k);
  }

  lemma MarketNoShards(e: Env, a: Attempt, files: map<Key, Table>, w: Work, k: nat)
    requires Resumes(TruthOf(e), a, files, k) && Complete(TruthOf(e), files, w) && NoShards(w.m.partitions)
    ensures NoShards(OptionalMarket(e, a, Stocks(e), TruthOf(e).dates, w).m.partitions)
  {
    hide Resumes, Complete, OptionalDataset, TruthOf, NoShards;
    var dates := TruthOf(e).dates;
    DatasetNoShards(e, a, files, w, DailyBasic, k);
    var basic := OptionalDataset(e, a, Stocks(e), dates, w, DailyBasic);
    DatasetNoShards(e, a, files, basic, Suspend, k);
    DatasetNoShards(e, a, files, OptionalDataset(e, a, Stocks(e), dates, basic, Suspend), Limits, k);
  }

  lemma RequiredNoShards(e: Env, a: Attempt, files: map<Key, Table>, w: Work, r: nat, k: nat)
    requires EndsAt(e, a, files, w, r, k)
    ensures NoShards(w.m.partitions)
  {
    forall entry | entry in w.m.partitions ensures entry.key.dataset != NameShard {
      var j: nat :| j < |w.m.partitions| && w.m.partitions[j] == entry;
      assert w.m.partitions[j].key == PlanKey(TruthOf(e), j);
    }
  }

  // ----- An available history is consistent

  /** The combined table has exactly one row per business key of the shards. */
  lemma CombinedRows(files: map<Key, Table>, entries: seq<Entry>)
    ensures var rows := Dedup(NameChange, ReadAll(files, entries));
      rows.Success? ==>
        KeySet(NameChange, rows.value) == ShardKeySet(files, entries) && |rows.value| == |ShardKeySet(files, entries)|
  {
    DedupMeaning(NameChange, ReadAll(files, entries), {});
    ReadAllKeys(files, entries);
    var rows := Dedup(NameChange, ReadAll(files, entries));
    if rows.Success? {
      KeySetCount(NameChange, rows.value);
    }
  }

  lemma CountedSymbols(entries: seq<Entry>, shards: seq<seq<string>>)
    requires Ascending(entries, |shards|) && |entries| == |shards|
    ensures CompletedSymbols(entries, shards) == |Flatten(shards)|
    ensures forall j: nat :: j < |entries| ==> entries[j].key == ShardKey(j)
    ensures forall entry :: entry in entries ==> entry.key != NAMES_KEY
  {
    FlattenLength(shards, entries, 0);
    assert entries[0..] == entries && shards[0..] == shards;
  }

  lemma CombineAssembles(w: Work, next: Work, rows: seq<Row>)
    requires next.files == w.files[NAMES_KEY := TableFor(NAMES_KEY, rows)]
    requires next.m.partitions == w.m.partitions + [EntryFor(NAMES_KEY, rows, None)]
    requires forall entry :: entry in ShardEntries(w.m.partitions) ==> entry.key != NAMES_KEY
    requires forall j: nat :: j < |ShardEntries(w.m.partitions)| ==> ShardEntries(w.m.partitions)[j].key == ShardKey(j)
    requires KeySet(NameChange, rows) == ShardKeySet(w.files, ShardEntries(w.m.partitions))
    requires |rows| == |ShardKeySet(w.files, ShardEntries(w.m.partitions))|
    requires next.m.names.complete && next.m.names.plannedSymbols == next.m.names.completedSymbols
    requires next.m.names.plannedShards == next.m.names.completedShards == |ShardEntries(w.m.partitions)|
    ensures NameHistoryConsistent(next.m, next.files)
  {
    hide ShardEntries, ShardKeySet, KeySet;
    OtherEntry(w.m.partitions, EntryFor(NAMES_KEY, rows, None));
    SameShardKeys(w.files, next.files, ShardEntries(w.m.partitions));
    assert EntryFor(NAMES_KEY, rows, None) in next.m.partitions;
  }

  lemma OtherEntry(partitions: seq<Entry>, entry: Entry)
    requires entry.key.dataset != NameShard
    ensures ShardEntries(partitions + [entry]) == ShardEntries(partitions)
  {
    assert (partitions + [entry])[..|partitions|] == partitions;
  }

  lemma CombineConsistent(w: Work, shards: seq<seq<string>>)
    requires var entries := ShardEntries(w.m.partitions); Ascending(entries, |shards|) && |entries| == |shards|
    requires w.m.names.plannedShards == |shards| && w.m.names.plannedSymbols == |Flatten(shards)|
    requires w.stopped.None?
    ensures var next := CombineNames(w, shards);
      next.stopped.None? ==> NameHistoryConsistent(next.m, next.files)
  {
    var entries := ShardEntries(w.m.partitions);
    CombinedRows(w.files, entries);
    CountedSymbols(entries, shards);
    var rows := Dedup(NameChange, ReadAll(w.files, entries));
    hide Ascending, Dedup, ReadAll, CompletedSymbols, KeySet, RowIssue, NameHistoryConsistent, ShardEntries, ShardKeySet;
    if Checked(NAMES_KEY, rows).Success? {
      CombineAssembles(w, CombineNames(w, shards), rows.value);
    }
  }

  lemma {:induction false} SameShardKeys(files: map<Key, Table>, more: map<Key, Table>, entries: seq<Entry>)
    requires forall entry :: entry in entries ==> RowsOf(files, entry.key) == RowsOf(more, entry.key)
    ensures ShardKeySet(files, entries) == ShardKeySet(more, entries)
  {
    if entries != [] {
      SameShardKeys(files, more, entries[1..]);
    }
  }

  // ----- Combination never fails

  lemma ShardNullFree(e: Env, key: Key)
    requires key.dataset == NameShard && TruthOf(e).content(key).Success?
    ensures NullFree(NameChange, TruthOf(e).content(key).value)
  {
    ShardKeyIs(e, key);
    ShardContent(e, NO_FAILURES, key.tag.index);
    hide TruthOf, NameShards, ShardRows;
    ShardRowsNullFree(e, NameShards(e)[key.tag.index], key.tag.index);
  }

  lemma ShardKeyIs(e: Env, key: Key)
    requires key.dataset == NameShard && TruthOf(e).content(key).Success?
    ensures key.tag.Shard? && key.tag.index < |NameShards(e)| && key == ShardKey(key.tag.index)
  {
    assert TruthOf(e).content(key) == Content(e, TruthOf(e).dates, TruthOf(e).unknown, key);
    hide TruthOf, NameShards, ShardRows, FreshRows, Known;
  }

  lemma ShardRowsNullFree(e: Env, codes: seq<string>, index: nat)
    ensures var rows := ShardRows(e, NO_FAILURES, codes, index); rows.Success? ==> NullFree(NameChange, rows.value)
  {
    hide NameRecords, Dedup, DistinctKeys;
    assert forall row :: HasNullKey(NameChange, row) <==> HasNullKey(NameShard, row);
    hide HasNullKey;
  }

  lemma {:induction false} ReadAllNullFree(e: Env, files: map<Key, Table>, entries: seq<Entry>)
    requires Faithful(TruthOf(e), files) && forall entry :: entry in entries ==> entry.key.dataset == NameShard
    ensures NullFree(NameChange, ReadAll(files, entries))
  {
    hide TruthOf, HasNullKey;
    if entries != [] {
      ReadAllNullFree(e, files, entries[1..]);
      var key := entries[0].key;
      assert entries[0] in entries;
      if key in files { ShardNullFree(e, key); }
    }
  }

  /** De-duplicated name records without null keys have no structural issue. */
  lemma CombinedChecks(rows: seq<Row>)
    requires NullFree(NameChange, rows)
    ensures Checked(NAMES_KEY, Dedup(NameChange, rows)).Success?
  {
    DedupMeaning(NameChange, rows, {});
    hide DistinctKeys, KeySet, HasNullKey;
  }

  lemma CombineNeverStops(e: Env, files: map<Key, Table>, w: Work, shards: seq<seq<string>>)
    requires Complete(TruthOf(e), files, w) && w.stopped.None?
    ensures var next := CombineNames(w, shards);
      next.stopped.None? && (CapabilityOf(next.m, NameChange) == Available <==> |ShardEntries(w.m.partitions)| == |shards|)
  {
    var entries := ShardEntries(w.m.partitions);
    ShardEntriesListed(w.m.partitions);
    hide TruthOf, Dedup, Checked, ReadAll, ShardEntries, CompletedSymbols, TableFor, EntryFor;
    ReadAllNullFree(e, w.files, entries);
    CombinedChecks(ReadAll(w.files, entries));
  }

  // ----- Which shards a build completes

  /** A shard is completed by a build if an earlier attempt stored it, or all its fetches
      are answered below the response cap with usable rows. */
  predicate Completes(e: Env, a: Attempt, index: nat)
    requires index < |NameShards(e)|
  {
    ShardKey(index) in a.previous || ShardRows(e, a.fails, NameShards(e)[index], index).Success?
  }

  lemma StepCompletes(e: Env, a: Attempt, files: map<Key, Table>, w: Work, index: nat, k: nat)
    requires Resumes(TruthOf(e), a, files, k) && Complete(TruthOf(e), files, w) && index < |NameShards(e)|
    ensures var next := ShardStep(e, a, NameShards(e)[index], w, index);
      |ShardEntries(next.m.partitions)| == |ShardEntries(w.m.partitions)| + if Completes(e, a, index) then 1 else 0
  {
    hide TruthOf, Resumes, Reusable, ShardRows, TableFor, NameShards;
    ResumesStill(TruthOf(e), a, files, w.files, k);
    ReuseAccepted(e, a, w.files, [], k, ShardKey(index));
    var next := ShardStep(e, a, NameShards(e)[index], w, index);
    KeyOfReused(TruthOf(e), a, w.files, k, ShardKey(index));
    hide Complete;
    if Completes(e, a, index) {
      assert next.m.partitions[..|w.m.partitions|] == w.m.partitions;
    }
  }

  lemma KeyOfReused(t: Truth, a: Attempt, files: map<Key, Table>, k: nat, key: Key)
    requires Resumes(t, a, files, k) && key != NAMES_KEY
    ensures key in a.previous ==> a.previous[key].key == key
  {
  }

  lemma {:induction false} StepsComplete(e: Env, a: Attempt, files: map<Key, Table>, w: Work, count: nat, k: nat)
    requires Resumes(TruthOf(e), a, files, k) && Complete(TruthOf(e), files, w) && count <= |NameShards(e)|
    requires ShardEntries(w.m.partitions) == []
    ensures var listed := |ShardEntries(ShardSteps(e, a, NameShards(e), w, count).m.partitions)|;
      listed <= count && (listed == count <==> forall i: nat :: i < count ==> Completes(e, a, i))
  {
    hide TruthOf, Resumes, Complete, ShardStep, ShardEntries, NameShards, Completes;
    if count > 0 {
      StepsComplete(e, a, files, w, count - 1, k);
      ShardStepsTry(e, a, files, w, count - 1, k);
      StepCompletes(e, a, files, ShardSteps(e, a, NameShards(e), w, count - 1), count - 1, k);
    }
  }

  /** The name-history phase never stops a build. It ends with an available history exactly
      when every shard is completed, and then the history is consistent. */
  lemma NamesComplete(e: Env, a: Attempt, files: map<Key, Table>, w: Work, k: nat)
    requires Resumes(TruthOf(e), a, files, k) && Complete(TruthOf(e), files, w) && NoShards(w.m.partitions)
    requires w.stopped.None?
    ensures var next := NamesPhase(e, a, Stocks(e), w);
      && next.stopped.None?
      && (CapabilityOf(next.m, NameChange) == Available <==> forall i: nat :: i < |NameShards(e)| ==> Completes(e, a, i))
      && (CapabilityOf(next.m, NameChange) == Available ==> NameHistoryConsistent(next.m, next.files))
  {
    var shards, symbols := NameShards(e), Symbols(e, Stocks(e));
    var planned := w.(m := w.m.(names := w.m.names.(plannedSymbols := |symbols|, plannedShards := |shards|)));
    PlannedComplete(TruthOf(e), files, w, planned);
    NoShardsListed(w.m.partitions);
    ShardsPartition(symbols, ShardSize(e));
    assert NamesPhase(e, a, Stocks(e), w) == CombineNames(ShardSteps(e, a, shards, planned, |shards|), shards);
    hide Resumes, Complete, TruthOf, ShardSteps, Ascending, NameHistoryConsistent, Flatten, Shards, Symbols, ShardEntries, CombineNames,
      NamesPhase, Completes;
    StepsComplete(e, a, files, planned, |shards|, k);
    ShardsAscend(e, a, files, planned, |shards|, k);
    ShardStepsTry(e, a, files, planned, |shards|, k);
    var before := ShardSteps(e, a, shards, planned, |shards|);
    CombineNeverStops(e, files, before, shards);
    if |ShardEntries(before.m.partitions)| == |shards| {
      CombineConsistent(before, shards);
    }
  }

  lemma PlannedComplete(t: Truth, files: map<Key, Table>, w: Work, planned: Work)
    requires Complete(t, files, w) && planned.files == w.files
    requires planned.m.partitions == w.m.partitions && planned.m.resolutions == w.m.resolutions
    ensures Complete(t, files, planned)
  {
  }

  /** A build whose required part goes through is never stopped later; with optional datasets
      its first manifest has the name history available exactly when every shard is completed. */
  lemma DraftNames(e: Env, a: Attempt, files: map<Key, Table>, k: nat)
    requires Ready(TruthOf(e), a, files, k) && Required(e, a, files).stopped.None?
    ensures var w := Draft(e, a, files);
      && w.stopped.None?
      && (CapabilityOf(w.m, NameChange) == Available <==>
            e.config.includeOptional && forall i: nat :: i < |NameShards(e)| ==> Completes(e, a, i))
      && (CapabilityOf(w.m, NameChange) == Available ==> NameHistoryConsistent(w.m, w.files))
  {
    var r := RequiredEnds(e, a, files, k);
    var w := Required(e, a, files);
    RequiredNoShards(e, a, files, w, r, k);
    assert CapabilityOf(w.m, NameChange) == NotRequested;
    OptionalLeaves(e, a, files, w, k);
    var dates := TruthOf(e).dates;
    ReadyResumes(TruthOf(e), a, files, k);
    hide Required, Complete, OptionalMarket, NamesPhase, NoShards, NameHistoryConsistent, TruthOf, Completes, Resumes, EndsAt, Ready, Stocks;
    if e.config.includeOptional {
      MarketNoShards(e, a, files, w, k);
      NamesComplete(e, a, files, OptionalMarket(e, a, Stocks(e), dates, w), k);
      FinishConsistent(a, NamesPhase(e, a, Stocks(e), OptionalMarket(e, a, Stocks(e), dates, w)));
    }
  }

  lemma FinishConsistent(a: Attempt, w: Work)
    ensures NameHistoryConsistent(w.m, w.files) ==> NameHistoryConsistent(Finish(a, w).m, Finish(a, w).files)
    ensures CapabilityOf(Finish(a, w).m, NameChange) == CapabilityOf(w.m, NameChange)
  {
  }

  // ----- The validator's checks

  lemma {:induction false} ShardKeysCount(n: nat)
    ensures |set j: nat | j < n :: ShardKey(j)| == n
  {
    if n > 0 {
      ShardKeysCount(n - 1);
      assert (set j: nat | j < n :: ShardKey(j)) == (set j: nat | j < n - 1 :: ShardKey(j)) + {ShardKey(n - 1)};
    }
  }

  lemma {:induction false} ShardKeySetMeans(files: map<Key, Table>, entries: seq<Entry>, k: BusinessKey)
    ensures k in ShardKeySet(files, entries) <==> exists entry :: entry in entries && k in KeySet(NameChange, RowsOf(files, entry.key))
  {
    if entries != [] {
      ShardKeySetMeans(files, entries[1..], k);
      assert entries == [entries[0]] + entries[1..];
    }
  }

  /** A consistent history passes the validator's checks of an available one. */
  lemma ConsistentIsFine(m: Manifest, files: map<Key, Table>)
    requires NameHistoryConsistent(m, files)
    requires forall entry :: entry in m.partitions ==> entry.key in files
    ensures forall c :: !NamesComplaint(m, files, c)
  {
    var shards := ShardEntries(m.partitions);
    ShardEntriesListed(m.partitions);
    TablesAreShards(m, files, shards);
    ShardKeysCount(|shards|);
    KeysAreShardKeys(m, files, shards);
    assert TableAt(m, files, NAMES_KEY) == RowsOf(files, NAMES_KEY);
    hide ShardTables, ShardKeys, ShardKeySet, KeySet, TableAt, ShardEntries;
  }

  lemma TablesAreShards(m: Manifest, files: map<Key, Table>, shards: seq<Entry>)
    requires forall entry :: entry in shards <==> entry in m.partitions && entry.key.dataset == NameShard
    requires forall j: nat :: j < |shards| ==> shards[j].key == ShardKey(j)
    requires forall entry :: entry in m.partitions ==> entry.key in files
    ensures ShardTables(m, files) == set j: nat | j < |shards| :: ShardKey(j)
  {
    forall j: nat | j < |shards| ensures ShardKey(j) in ShardTables(m, files) {
      assert shards[j] in shards;
    }
    forall key | key in ShardTables(m, files) ensures exists j: nat :: j < |shards| && ShardKey(j) == key {
      var entry :| entry in m.partitions && entry.key.dataset == NameShard && entry.key == key;
      assert entry in shards;
      var j :| 0 <= j < |shards| && shards[j] == entry;
    }
  }

  lemma KeysAreShardKeys(m: Manifest, files: map<Key, Table>, shards: seq<Entry>)
    requires forall entry :: entry in shards <==> entry in m.partitions && entry.key.dataset == NameShard
    requires forall entry :: entry in m.partitions ==> entry.key in files
    ensures ShardKeys(m, files) == ShardKeySet(files, shards)
  {
    hide KeySet, ShardKeySet;
    forall k ensures k in ShardKeys(m, files) <==> k in ShardKeySet(files, shards) {
      ShardKeySetMeans(files, shards, k);
      forall entry | entry in shards ensures entry.key in ShardTables(m, files) && TableAt(m, files, entry.key) == RowsOf(files, entry.key) {
      }
    }
  }

  /** On a sound directory, a build whose required part goes through runs to its end, and its
      first manifest has the name history available exactly when it is wanted and every shard
      is listed or answered; then it is consistent. */
  lemma ShardsGiveNames(e: Env, a: Attempt, files: map<Key, Table>, k: nat)
    requires Ready(TruthOf(e), a, files, k) && Required(e, a, files).stopped.None?
    ensures var w := Draft(e, a, files);
      && w.stopped.None? && Hashed(w)
      && (CapabilityOf(w.m, NameChange) == Available <==>
            e.config.includeOptional && forall i: nat :: i < |NameShards(e)| ==> Completes(e, a, i))
      && (CapabilityOf(w.m, NameChange) == Available ==>
            NameHistoryConsistent(w.m, w.files) && forall c :: !NamesComplaint(w.m, w.files, c))
  {
    hide Ready, TruthOf, Draft, Required, Completes, NameHistoryConsistent, NamesComplaint;
    DraftNames(e, a, files, k);
    var r := DraftLeaves(e, a, files, k);
    if CapabilityOf(Draft(e, a, files).m, NameChange) == Available {
      ConsistentIsFine(Draft(e, a, files).m, Draft(e, a, files).files);
    }
  }
}
