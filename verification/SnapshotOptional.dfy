/** Crash and resume, continued: the optional datasets and the sharded name history, whose
    failures are noted and retried by a later attempt. */
module SnapshotOptional {
  import opened Outcomes
  import opened SnapshotRows
  import opened SnapshotModel
  import opened SnapshotResume

  /** All required partitions are listed and every unknown code is resolved. */
  ghost predicate Complete(t: Truth, files: map<Key, Table>, w: Work) {
    && files.Keys <= w.files.Keys
    && Lists(t, w.m, PlanLength(t))
    && Faithful(t, w.files)
    && EntriesRight(t, w.files, w.m.partitions)
    && !HasKey(w.m.partitions, NAMES_KEY)
    && w.m.resolutions == ResolveAll(All(t.dates, t.unknown), t.resolve)
  }

  /** A build that ran to its end: what `Complete` says, and every listed file matches. */
  ghost predicate Ended(t: Truth, files: map<Key, Table>, w: Work) {
    && files.Keys <= w.files.Keys
    && Lists(t, w.m, PlanLength(t))
    && Faithful(t, w.files)
    && EntriesRight(t, w.files, w.m.partitions)
    && Hashed(w)
    && w.m.resolutions == ResolveAll(All(t.dates, t.unknown), t.resolve)
  }

  /** Every listed partition is on disk with the content its entry records. */
  ghost predicate Hashed(w: Work) {
    forall entry :: entry in w.m.partitions ==> entry.key in w.files && Sha256(w.files[entry.key]) == entry.hash
  }

  lemma CompleteHashed(t: Truth, files: map<Key, Table>, w: Work)
    requires Complete(t, files, w)
    ensures Ended(t, files, w)
  {
  }

  lemma RequiredComplete(t: Truth, a: Attempt, files: map<Key, Table>, w: Work, k: nat)
    requires Standing(t, a, w, PlanLength(t), k) && k <= PlanLength(t) && t.dates != []
    requires files.Keys <= w.files.Keys
    ensures Complete(t, files, w)
  {
    SeenGrows(t, k, PlanLength(t));
    SeenCovered(t, w.m, PlanLength(t), |t.dates|);
    SeenIsAll(t);
    RightMapsAgree(t, w.m.resolutions, All(t.dates, t.unknown));
    forall entry | entry in w.m.partitions ensures entry.key != NAMES_KEY {
      var j: nat :| j < |w.m.partitions| && w.m.partitions[j] == entry;
      assert w.m.partitions[j].key == PlanKey(t, j);
    }
  }

  /** Appending a right partition that is not a daily one keeps a build complete. */
  lemma AppendComplete(t: Truth, files: map<Key, Table>, w: Work, next: Work, entry: Entry)
    requires Complete(t, files, w)
    requires next.m.partitions == w.m.partitions + [entry] && entry.key.dataset != Daily
    requires entry.key != NAMES_KEY && EntryRight(t, entry) && entry.key in next.files
    requires w.files.Keys <= next.files.Keys && Faithful(t, next.files)
    requires next.m.resolutions == w.m.resolutions
    ensures Complete(t, files, next)
  {
    forall j: nat | j < PlanLength(t) ensures next.m.partitions[j].key == PlanKey(t, j) {
      assert next.m.partitions[j] == w.m.partitions[j];
    }
    assert forall other :: other in next.m.partitions <==> other in w.m.partitions || other == entry;
  }

  function EntryAt(t: Truth, key: Key): seq<Entry> {
    if t.content(key).Success? then [EntryFor(key, t.content(key).value, t.audit(key))] else []
  }

  // ----- One optional market partition

  predicate IsOptionalMarket(dataset: Dataset) {
    dataset in {DailyBasic, Suspend, Limits}
  }

  lemma OptionalContent(e: Env, key: Key, resolutions: map<string, Resolution>)
    requires IsOptionalMarket(key.dataset) && key.tag.Session? && key.tag.date in TruthOf(e).dates
    requires resolutions == ResolveAll(All(TruthOf(e).dates, TruthOf(e).unknown), TruthOf(e).resolve)
    ensures FreshRows(e, Stocks(e), TruthOf(e).dates, resolutions, key) == TruthOf(e).content(key)
    ensures AuditFor(e, Stocks(e), resolutions, key) == TruthOf(e).audit(key)
  {
    var t := TruthOf(e);
    assert resolutions == Known(e, t.dates, t.unknown, key);
    assert t.content(key) == FreshRows(e, Stocks(e), t.dates, Known(e, t.dates, t.unknown, key), key);
  }

  /** The manifest fields that an optional step leaves alone. */
  predicate OnlyLists(m: Manifest, n: Manifest) {
    SameRest(m, n) && m.resolutions == n.resolutions
  }

  /** At most an entry for `key` is appended. */
  predicate Grows(before: seq<Entry>, after: seq<Entry>, key: Key) {
    || after == before
    || (|after| == |before| + 1 && after == before + [after[|before|]] && after[|before|].key == key)
  }

  /** What a step over a partition that may fail does: it stays complete, and without a
      failing fetch it lists the partition, or notes one failure, as the content decides. */
  ghost predicate Tries(t: Truth, a: Attempt, files: map<Key, Table>, w: Work, next: Work, key: Key) {
    && Complete(t, files, next)
    && next.stopped == w.stopped
    && w.m.resolutions == next.m.resolutions
    && Grows(w.m.partitions, next.m.partitions, key)
    && (a.fails == NO_FAILURES ==>
          && next.m.partitions == w.m.partitions + EntryAt(t, key)
          && |next.m.failed| == |w.m.failed| + if t.content(key).Success? then 0 else 1)
  }

  lemma ReuseTries(t: Truth, a: Attempt, files: map<Key, Table>, w: Work, k: nat, key: Key)
    requires Complete(t, files, w) && Resumes(t, a, files, k)
    requires key in a.previous && key != NAMES_KEY && key.dataset != Daily
    ensures Tries(t, a, files, w, Reuse(w, a.previous[key]), key)
  {
    AppendComplete(t, files, w, Reuse(w, a.previous[key]), a.previous[key]);
  }

  lemma WriteTries(t: Truth, a: Attempt, files: map<Key, Table>, w: Work, key: Key)
    requires Complete(t, files, w) && key != NAMES_KEY && key.dataset != Daily
    requires t.content(key).Success?
    ensures Tries(t, a, files, w, Write(w, key, t.content(key).value, t.audit(key)), key)
  {
    var rows := t.content(key).value;
    AppendComplete(t, files, w, Write(w, key, rows, t.audit(key)), EntryFor(key, rows, t.audit(key)));
  }

  lemma NoteTries(t: Truth, a: Attempt, files: map<Key, Table>, w: Work, next: Work, note: FailureNote, key: Key)
    requires Complete(t, files, w)
    requires next.files == w.files && next.stopped == w.stopped && next.m.failed == w.m.failed + [note]
    requires next.m.partitions == w.m.partitions && next.m.resolutions == w.m.resolutions
    requires a.fails == NO_FAILURES ==> t.content(key).Failure?
    ensures Tries(t, a, files, w, next, key)
  {
  }

  lemma OptionalStepTries(e: Env, a: Attempt, files: map<Key, Table>, w: Work, k: nat, key: Key)
    requires Resumes(TruthOf(e), a, files, k) && Complete(TruthOf(e), files, w)
    requires IsOptionalMarket(key.dataset) && key.tag.Session? && key.tag.date in TruthOf(e).dates
    ensures var next := OptionalStep(e, a, Stocks(e), TruthOf(e).dates, w, key);
      Tries(TruthOf(e), a, files, w, next, key) && SameRest(w.m, next.m)
  {
    hide FreshRows, AuditFor, TruthOf, Reusable, Resumes, Tries, Stocks, EntryFor, TableFor, CallFor, Faithful, EntriesRight, Lists, HasKey;
    ResumesStill(TruthOf(e), a, files, w.files, k);
    ReuseAccepted(e, a, w.files, TruthOf(e).dates, k, key);
    OptionalContent(e, key, w.m.resolutions);
    hide Complete;
    var t := TruthOf(e);
    if key in a.previous {
      ReuseTries(t, a, files, w, k, key);
    } else {
      var rows := if CallFor(w.m.partitions, w.m.failed, key) in a.fails then Failure(FetchFailed) else t.content(key);
      if rows.Failure? {
        var note := FailureNote(Some(key.dataset), key.tag, false, Raised(rows.error), a.now(Some(key.dataset), key.tag));
        NoteTries(t, a, files, w, Note(w, note), note, key);
      } else {
        WriteTries(t, a, files, w, key);
      }
    }
  }

  // ----- All sessions of one optional dataset

  function EntriesOf(t: Truth, dataset: Dataset, days: nat): seq<Entry>
    requires days <= |t.dates|
  {
    if days == 0 then [] else EntriesOf(t, dataset, days - 1) + EntryAt(t, SessionKey(dataset, t.dates[days - 1]))
  }

  function GapsOf(t: Truth, dataset: Dataset, days: nat): nat
    requires days <= |t.dates|
  {
    if days == 0 then 0
    else GapsOf(t, dataset, days - 1) + if t.content(SessionKey(dataset, t.dates[days - 1])).Success? then 0 else 1
  }

  lemma {:induction false} OptionalDaysTry(e: Env, a: Attempt, files: map<Key, Table>, w: Work, dataset: Dataset, days: nat, k: nat)
    requires Resumes(TruthOf(e), a, files, k) && Complete(TruthOf(e), files, w)
    requires IsOptionalMarket(dataset) && days <= |TruthOf(e).dates|
    ensures var t := TruthOf(e);
      var next := OptionalDays(e, a, Stocks(e), t.dates, w, dataset, days);
      && Complete(t, files, next) && OnlyLists(w.m, next.m) && next.stopped == w.stopped
      && (a.fails == NO_FAILURES ==>
            && next.m.partitions == w.m.partitions + EntriesOf(t, dataset, days)
            && |next.m.failed| == |w.m.failed| + GapsOf(t, dataset, days))
  {
    hide Resumes, Complete, OptionalStep, TruthOf, Grows, EntryAt;
    if days > 0 {
      OptionalDaysTry(e, a, files, w, dataset, days - 1, k);
      var t := TruthOf(e);
      var before := OptionalDays(e, a, Stocks(e), t.dates, w, dataset, days - 1);
      OptionalStepTries(e, a, files, before, k, SessionKey(dataset, t.dates[days - 1]));
    }
  }

  /** Two attempts agree so far, up to the time stamps of failed shards. */
  ghost predicate Alike(m: Manifest, n: Manifest) {
    && m.partitions == n.partitions && m.resolutions == n.resolutions
    && m.master == n.master && m.calendar == n.calendar && m.benchmarkRows == n.benchmarkRows
    && m.capabilities == n.capabilities && m.auditedOver == n.auditedOver
    && m.names.(failedShards := []) == n.names.(failedShards := [])
    && Unstamped(m.names.failedShards) == Unstamped(n.names.failedShards)
  }

  function Unstamped(failures: seq<ShardFailure>): seq<(nat, Error)> {
    seq(|failures|, i requires 0 <= i < |failures| => (failures[i].index, failures[i].error))
  }

  lemma OptionalDatasetAlike(e: Env, dataset: Dataset,
                             a: Attempt, files: map<Key, Table>, w: Work, k: nat,
                             b: Attempt, others: map<Key, Table>, v: Work, l: nat)
    requires IsOptionalMarket(dataset)
    requires Resumes(TruthOf(e), a, files, k) && Complete(TruthOf(e), files, w) && a.fails == NO_FAILURES
    requires Resumes(TruthOf(e), b, others, l) && Complete(TruthOf(e), others, v) && b.fails == NO_FAILURES
    requires Alike(w.m, v.m)
    ensures Alike(OptionalDataset(e, a, Stocks(e), TruthOf(e).dates, w, dataset).m,
                  OptionalDataset(e, b, Stocks(e), TruthOf(e).dates, v, dataset).m)
  {
    hide Resumes, Complete, OptionalDays, TruthOf;
    var t := TruthOf(e);
    OptionalDaysTry(e, a, files, w, dataset, |t.dates|, k);
    OptionalDaysTry(e, b, others, v, dataset, |t.dates|, l);
  }

  lemma OptionalDatasetComplete(e: Env, a: Attempt, files: map<Key, Table>, w: Work, dataset: Dataset, k: nat)
    requires IsOptionalMarket(dataset)
    requires Resumes(TruthOf(e), a, files, k) && Complete(TruthOf(e), files, w)
    ensures var next := OptionalDataset(e, a, Stocks(e), TruthOf(e).dates, w, dataset);
      Complete(TruthOf(e), files, next) && next.stopped == w.stopped
  {
    hide TruthOf, OptionalDays;
    OptionalDaysTry(e, a, files, w, dataset, |TruthOf(e).dates|, k);
  }

  lemma MarketComplete(e: Env, a: Attempt, files: map<Key, Table>, w: Work, k: nat)
    requires Resumes(TruthOf(e), a, files, k) && Complete(TruthOf(e), files, w)
    ensures var next := OptionalMarket(e, a, Stocks(e), TruthOf(e).dates, w);
      Complete(TruthOf(e), files, next) && next.stopped == w.stopped
  {
    hide Resumes, Complete, OptionalDataset, TruthOf;
    var dates := TruthOf(e).dates;
    OptionalDatasetComplete(e, a, files, w, DailyBasic, k);
    var basic := OptionalDataset(e, a, Stocks(e), dates, w, DailyBasic);
    OptionalDatasetComplete(e, a, files, basic, Suspend, k);
    OptionalDatasetComplete(e, a, files, OptionalDataset(e, a, Stocks(e), dates, basic, Suspend), Limits, k);
  }

  lemma MarketAlike(e: Env, a: Attempt, files: map<Key, Table>, w: Work, k: nat,
                    b: Attempt, others: map<Key, Table>, v: Work, l: nat)
    requires Resumes(TruthOf(e), a, files, k) && Complete(TruthOf(e), files, w) && a.fails == NO_FAILURES
    requires Resumes(TruthOf(e), b, others, l) && Complete(TruthOf(e), others, v) && b.fails == NO_FAILURES
    requires Alike(w.m, v.m)
    ensures Alike(OptionalMarket(e, a, Stocks(e), TruthOf(e).dates, w).m, OptionalMarket(e, b, Stocks(e), TruthOf(e).dates, v).m)
  {
    hide Resumes, Complete, OptionalDataset, TruthOf, Alike;
    var dates := TruthOf(e).dates;
    OptionalDatasetAlike(e, DailyBasic, a, files, w, k, b, others, v, l);
    OptionalDatasetComplete(e, a, files, w, DailyBasic, k);
    OptionalDatasetComplete(e, b, others, v, DailyBasic, l);
    var w1 := OptionalDataset(e, a, Stocks(e), dates, w, DailyBasic);
    var v1 := OptionalDataset(e, b, Stocks(e), dates, v, DailyBasic);
    OptionalDatasetAlike(e, Suspend, a, files, w1, k, b, others, v1, l);
    OptionalDatasetComplete(e, a, files, w1, Suspend, k);
    OptionalDatasetComplete(e, b, others, v1, Suspend, l);
    OptionalDatasetAlike(e, Limits, a, files, OptionalDataset(e, a, Stocks(e), dates, w1, Suspend), k,
                         b, others, OptionalDataset(e, b, Stocks(e), dates, v1, Suspend), l);
  }

  // ----- Name-history shards

  /** A shard that succeeds although some fetches may fail has the rows of a clean run. */
  lemma {:induction false} RecordsIfAnswered(e: Env, fails: map<Call, string>, codes: seq<string>)
    ensures NameRecords(e, fails, codes).Success? ==> NameRecords(e, NO_FAILURES, codes) == NameRecords(e, fails, codes)
  {
    if codes != [] {
      RecordsIfAnswered(e, fails, codes[1..]);
    }
  }

  lemma ShardContent(e: Env, fails: map<Call, string>, index: nat)
    requires index < |NameShards(e)|
    ensures var rows := ShardRows(e, fails, NameShards(e)[index], index);
      && (rows.Success? || fails == NO_FAILURES ==> rows == TruthOf(e).content(ShardKey(index)))
      && TruthOf(e).audit(ShardKey(index)) == None
  {
    var t := TruthOf(e);
    RecordsIfAnswered(e, fails, NameShards(e)[index]);
    assert t.content(ShardKey(index)) == Content(e, t.dates, t.unknown, ShardKey(index));
    assert Content(e, t.dates, t.unknown, ShardKey(index)) == ShardRows(e, NO_FAILURES, NameShards(e)[index], index);
  }

  /** The failed shards of an undisturbed attempt, without their stamps. */
  function ShardGap(t: Truth, index: nat): seq<(nat, Error)> {
    if t.content(ShardKey(index)).Failure? then [(index, t.content(ShardKey(index)).error)] else []
  }

  /** Every shard failure of a manifest carries this attempt's time stamp. */
  ghost predicate Stamped(a: Attempt, failures: seq<ShardFailure>) {
    forall i :: 0 <= i < |failures| ==> failures[i].stamp == a.now(Some(NameChange), Shard(failures[i].index))
  }

  ghost predicate ShardTries(t: Truth, a: Attempt, files: map<Key, Table>, w: Work, next: Work, index: nat) {
    && Tries(t, a, files, w, next, ShardKey(index))
    && SameRest(w.m, next.m.(names := w.m.names))
    && w.m.names.(failedShards := []) == next.m.names.(failedShards := [])
    && (Stamped(a, w.m.names.failedShards) ==> Stamped(a, next.m.names.failedShards))
    && (a.fails == NO_FAILURES ==>
          Unstamped(next.m.names.failedShards) == Unstamped(w.m.names.failedShards) + ShardGap(t, index))
  }

  lemma ShardReuse(t: Truth, a: Attempt, files: map<Key, Table>, w: Work, k: nat, index: nat)
    requires Complete(t, files, w) && Resumes(t, a, files, k) && ShardKey(index) in a.previous
    ensures ShardTries(t, a, files, w, Reuse(w, a.previous[ShardKey(index)]), index)
  {
    ReuseTries(t, a, files, w, k, ShardKey(index));
    assert t.content(ShardKey(index)).Success?;
  }

  lemma ShardWrite(t: Truth, a: Attempt, files: map<Key, Table>, w: Work, index: nat)
    requires Complete(t, files, w) && t.content(ShardKey(index)).Success?
    ensures ShardTries(t, a, files, w, Write(w, ShardKey(index), t.content(ShardKey(index)).value, t.audit(ShardKey(index))), index)
  {
    WriteTries(t, a, files, w, ShardKey(index));
  }

  lemma ShardNote(t: Truth, a: Attempt, files: map<Key, Table>, w: Work, index: nat, error: Error)
    requires Complete(t, files, w)
    requires a.fails == NO_FAILURES ==> t.content(ShardKey(index)) == Failure(error)
    ensures ShardTries(t, a, files, w, NoteShard(a, w, index, error), index)
  {
    var note := FailureNote(Some(NameChange), Shard(index), false, Raised(error), a.now(Some(NameChange), Shard(index)));
    NoteTries(t, a, files, w, NoteShard(a, w, index, error), note, ShardKey(index));
  }

  lemma ResumesStill(t: Truth, a: Attempt, files: map<Key, Table>, more: map<Key, Table>, k: nat)
    requires Resumes(t, a, files, k) && files.Keys <= more.Keys
    ensures Resumes(t, a, more, k)
  {
  }

  lemma ShardStepTries(e: Env, a: Attempt, files: map<Key, Table>, w: Work, index: nat, k: nat)
    requires Resumes(TruthOf(e), a, files, k) && Complete(TruthOf(e), files, w) && index < |NameShards(e)|
    ensures ShardTries(TruthOf(e), a, files, w, ShardStep(e, a, NameShards(e)[index], w, index), index)
  {
    var t, key := TruthOf(e), ShardKey(index);
    ResumesStill(t, a, files, w.files, k);
    ReuseAccepted(e, a, w.files, [], k, key);
    ShardContent(e, a.fails, index);
    hide ShardRows, TruthOf, Reusable, Resumes, Complete, ShardTries;
    var rows := ShardRows(e, a.fails, NameShards(e)[index], index);
    if key in a.previous {
      ShardReuse(t, a, files, w, k, index);
    } else if rows.Failure? {
      ShardNote(t, a, files, w, index, rows.error);
    } else {
      ShardWrite(t, a, files, w, index);
    }
  }

  // ----- All shards

  function ShardEntriesUpTo(t: Truth, count: nat): seq<Entry> {
    if count == 0 then [] else ShardEntriesUpTo(t, count - 1) + EntryAt(t, ShardKey(count - 1))
  }

  function ShardGapsUpTo(t: Truth, count: nat): seq<(nat, Error)> {
    if count == 0 then [] else ShardGapsUpTo(t, count - 1) + ShardGap(t, count - 1)
  }

  lemma {:induction false} ShardStepsTry(e: Env, a: Attempt, files: map<Key, Table>, w: Work, count: nat, k: nat)
    requires Resumes(TruthOf(e), a, files, k) && Complete(TruthOf(e), files, w) && count <= |NameShards(e)|
    ensures var t, next := TruthOf(e), ShardSteps(e, a, NameShards(e), w, count);
      && Complete(t, files, next) && next.stopped == w.stopped && next.m.resolutions == w.m.resolutions
      && SameRest(w.m, next.m.(names := w.m.names))
      && w.m.names.(failedShards := []) == next.m.names.(failedShards := [])
      && (Stamped(a, w.m.names.failedShards) ==> Stamped(a, next.m.names.failedShards))
      && (a.fails == NO_FAILURES ==>
            && next.m.partitions == w.m.partitions + ShardEntriesUpTo(t, count)
            && Unstamped(next.m.names.failedShards) == Unstamped(w.m.names.failedShards) + ShardGapsUpTo(t, count))
  {
    hide Resumes, Complete, ShardStep, TruthOf, Unstamped, Stamped, EntryAt, NameShards;
    if count > 0 {
      ShardStepsTry(e, a, files, w, count - 1, k);
      ShardStepTries(e, a, files, ShardSteps(e, a, NameShards(e), w, count - 1), count - 1, k);
    }
  }

  // ----- The combined name table

  lemma ReadAllAgree(t: Truth, files: map<Key, Table>, others: map<Key, Table>, entries: seq<Entry>)
    requires Faithful(t, files) && Faithful(t, others)
    requires forall entry :: entry in entries ==> entry.key != NAMES_KEY && entry.key in files && entry.key in others
    ensures ReadAll(files, entries) == ReadAll(others, entries)
  {
    if entries != [] {
      ReadAllAgree(t, files, others, entries[1..]);
      assert entries[0] in entries;
    }
  }

  lemma {:induction false} ShardEntriesListed(partitions: seq<Entry>)
    ensures forall entry :: entry in ShardEntries(partitions) <==> entry in partitions && entry.key.dataset == NameShard
  {
    if partitions != [] {
      var n := |partitions| - 1;
      ShardEntriesListed(partitions[..n]);
      assert partitions == partitions[..n] + [partitions[n]];
    }
  }

  lemma CombineEnds(t: Truth, files: map<Key, Table>, w: Work, shards: seq<seq<string>>)
    requires Complete(t, files, w)
    ensures Ended(t, files, CombineNames(w, shards))
  {
    CompleteHashed(t, files, w);
    var entries := ShardEntries(w.m.partitions);
    var rows := Checked(NAMES_KEY, Dedup(NameChange, ReadAll(w.files, entries)));
    hide Checked, Dedup, ReadAll, ShardEntries, CompletedSymbols, Complete;
    if |entries| == |shards| && rows.Success? {
      assert !HasKey(w.m.partitions, NAMES_KEY) by { NoNamesYet(t, files, w); }
      NamesWritten(t, files, w, CombineNames(w, shards), rows.value);
    }
  }

  lemma NoNamesYet(t: Truth, files: map<Key, Table>, w: Work)
    requires Complete(t, files, w)
    ensures !HasKey(w.m.partitions, NAMES_KEY)
  {
  }

  lemma NamesWritten(t: Truth, files: map<Key, Table>, w: Work, next: Work, rows: seq<Row>)
    requires Ended(t, files, w) && !HasKey(w.m.partitions, NAMES_KEY)
    requires next.files == w.files[NAMES_KEY := TableFor(NAMES_KEY, rows)]
    requires next.m.partitions == w.m.partitions + [EntryFor(NAMES_KEY, rows, None)]
    requires next.m.resolutions == w.m.resolutions
    ensures Ended(t, files, next)
  {
    var entry := EntryFor(NAMES_KEY, rows, None);
    forall j: nat | j < PlanLength(t) ensures next.m.partitions[j].key == PlanKey(t, j) {
      assert next.m.partitions[j] == w.m.partitions[j];
    }
    assert forall other :: other in next.m.partitions <==> other in w.m.partitions || other == entry;
  }

  lemma SameShardRows(t: Truth, files: map<Key, Table>, w: Work, others: map<Key, Table>, v: Work)
    requires Complete(t, files, w) && Complete(t, others, v) && w.m.partitions == v.m.partitions
    ensures ReadAll(w.files, ShardEntries(w.m.partitions)) == ReadAll(v.files, ShardEntries(v.m.partitions))
  {
    ShardEntriesListed(w.m.partitions);
    hide ShardEntries, EntryRight;
    ReadAllAgree(t, w.files, v.files, ShardEntries(w.m.partitions));
  }

  lemma CombineAlike(t: Truth, files: map<Key, Table>, w: Work, others: map<Key, Table>, v: Work, shards: seq<seq<string>>)
    requires Complete(t, files, w) && Complete(t, others, v) && Alike(w.m, v.m) && w.stopped == v.stopped
    ensures Alike(CombineNames(w, shards).m, CombineNames(v, shards).m)
    ensures CombineNames(w, shards).stopped == CombineNames(v, shards).stopped
  {
    hide Complete, Checked, Dedup, ReadAll, ShardEntries, CompletedSymbols, Unstamped, TableFor, CombineNames, Alike;
    AlikePartitions(w.m, v.m);
    SameShardRows(t, files, w, others, v);
    var entries := ShardEntries(w.m.partitions);
    var rows := Checked(NAMES_KEY, Dedup(NameChange, ReadAll(w.files, entries)));
    CombineShape(w, shards, entries, rows);
    CombineShape(v, shards, entries, rows);
    CombinedAlike(w.m, v.m, entries, shards, rows);
  }

  lemma AlikePartitions(m: Manifest, n: Manifest)
    requires Alike(m, n)
    ensures m.partitions == n.partitions
  {
  }

  /** What `CombineNames` makes of a manifest, given the shards' entries and combined rows. */
  function Combined(m: Manifest, entries: seq<Entry>, shards: seq<seq<string>>, rows: Result<seq<Row>, Error>): Manifest {
    var counted := m.(names := m.names.(completedShards := |entries|, completedSymbols := CompletedSymbols(entries, shards)));
    if |entries| != |shards| then
      counted.(capabilities := m.capabilities[NameChange := if entries == [] then Unavailable else Incomplete])
    else if rows.Failure? then counted
    else
      counted.(partitions := m.partitions + [EntryFor(NAMES_KEY, rows.value, None)],
               names := counted.names.(complete := true), capabilities := m.capabilities[NameChange := Available])
  }

  lemma CombineShape(w: Work, shards: seq<seq<string>>, entries: seq<Entry>, rows: Result<seq<Row>, Error>)
    requires entries == ShardEntries(w.m.partitions)
    requires rows == Checked(NAMES_KEY, Dedup(NameChange, ReadAll(w.files, entries)))
    ensures CombineNames(w, shards).m == Combined(w.m, entries, shards, rows)
    ensures CombineNames(w, shards).stopped == if |entries| == |shards| && rows.Failure? then Some(rows.error) else w.stopped
  {
    hide Checked, Dedup, ReadAll, ShardEntries, CompletedSymbols, TableFor, EntryFor;
  }

  lemma CombinedAlike(m: Manifest, n: Manifest, entries: seq<Entry>, shards: seq<seq<string>>, rows: Result<seq<Row>, Error>)
    requires Alike(m, n)
    ensures Alike(Combined(m, entries, shards, rows), Combined(n, entries, shards, rows))
  {
    hide CompletedSymbols, Unstamped, EntryFor;
  }

  lemma NamesEnd(e: Env, a: Attempt, files: map<Key, Table>, w: Work, k: nat)
    requires Resumes(TruthOf(e), a, files, k) && Complete(TruthOf(e), files, w)
    ensures Ended(TruthOf(e), files, NamesPhase(e, a, Stocks(e), w))
  {
    var shards := NameShards(e);
    var planned := w.(m := w.m.(names := w.m.names.(plannedSymbols := |Symbols(e, Stocks(e))|, plannedShards := |shards|)));
    assert Complete(TruthOf(e), files, planned);
    ShardStepsTry(e, a, files, planned, |shards|, k);
    CombineEnds(TruthOf(e), files, ShardSteps(e, a, shards, planned, |shards|), shards);
  }

  lemma NamesAlike(e: Env, a: Attempt, files: map<Key, Table>, w: Work, k: nat,
                   b: Attempt, others: map<Key, Table>, v: Work, l: nat)
    requires Resumes(TruthOf(e), a, files, k) && Complete(TruthOf(e), files, w) && a.fails == NO_FAILURES
    requires Resumes(TruthOf(e), b, others, l) && Complete(TruthOf(e), others, v) && b.fails == NO_FAILURES
    requires Alike(w.m, v.m) && w.stopped == v.stopped
    ensures Alike(NamesPhase(e, a, Stocks(e), w).m, NamesPhase(e, b, Stocks(e), v).m)
    ensures NamesPhase(e, a, Stocks(e), w).stopped == NamesPhase(e, b, Stocks(e), v).stopped
  {
    var shards := NameShards(e);
    var meta := w.m.names.(plannedSymbols := |Symbols(e, Stocks(e))|, plannedShards := |shards|);
    var meta' := v.m.names.(plannedSymbols := |Symbols(e, Stocks(e))|, plannedShards := |shards|);
    var planned, planned' := w.(m := w.m.(names := meta)), v.(m := v.m.(names := meta'));
    assert Complete(TruthOf(e), files, planned) && Complete(TruthOf(e), others, planned');
    hide Resumes, Complete, TruthOf, CombineNames, ShardSteps, Unstamped;
    ShardStepsTry(e, a, files, planned, |shards|, k);
    ShardStepsTry(e, b, others, planned', |shards|, l);
    CombineAlike(TruthOf(e), files, ShardSteps(e, a, shards, planned, |shards|),
                 others, ShardSteps(e, b, shards, planned', |shards|), shards);
  }
}
