/** What a build that ran through may claim after any history: that its validator cannot object
    to symbols, and that completed shards give the combined name history. */
module SnapshotClaims {
  import opened Outcomes
  import opened SnapshotRows
  import opened SnapshotModel
  import opened SnapshotValidator
  import opened SnapshotResume
  import opened SnapshotOptional
  import opened SnapshotRecovery
  import opened SnapshotValidate
  import opened SnapshotNames
  import opened SnapshotEquivalence
  import opened SnapshotPoison
  import opened SnapshotFrames
  import opened SnapshotHistory

  /** The manifest that an attempt writes first records right resolutions. */
  ghost predicate RecordsRight(e: Env, a: Attempt, files: map<Key, Table>) {
    ResolutionsRight(TruthOf(e), Draft(e, a, files).m.resolutions)
  }

  lemma RightFromSaved(e: Env, d: Disk, fails: map<Call, string>, now: Clock)
    requires RecordsRight(e, AttemptOn(d, fails, now), d.files)
    ensures SavedRight(e, d)
  {
    if d.saved.Some? {
      var a := AttemptOn(d, fails, now);
      ResolutionsAreFinal(e, d, fails, now);
      SettledKeeps(e, a, Draft(e, a, d.files));
      hide TruthOf, Draft, Settled, Preserves, ResolutionsRight;
      RightBefore(TruthOf(e), d.saved.value.resolutions, Draft(e, a, d.files).m.resolutions);
    }
  }

  /** An attempt after any history that records right resolutions does what the tamed attempt
      does on what matters of the directory. */
  lemma Trimmed(e: Env, tries: seq<Try>, fails: map<Call, string>, now: Clock) returns (k: nat)
    requires var d := AfterAll(e, EMPTY_DISK, tries); RecordsRight(e, AttemptOn(d, fails, now), d.files)
    ensures var d := AfterAll(e, EMPTY_DISK, tries);
      var a, files := AttemptOn(d, fails, now), Trim(d).files;
      && Ready(TruthOf(e), Tamed(e, a), files, k)
      && SameWork(a, Draft(e, a, d.files), Draft(e, Tamed(e, a), files))
      && SameWork(a, Required(e, a, d.files), Required(e, Tamed(e, a), files))
  {
    var d := AfterAll(e, EMPTY_DISK, tries);
    var a, files := AttemptOn(d, fails, now), Trim(d).files;
    RightFromSaved(e, d, fails, now);
    k := HistoryTrimmed(e, tries);
    TrimOffers(d, fails, now);
    ReadyTamed(e, d, k, fails, now);
    hide TruthOf, Draft, Required, Ready, Sound, Trim, SameWork, Harmless, ResolutionsRight, AfterAll;
    DraftMoves(e, a, d.files, files);
    RequiredMoves(e, a, d.files, files);
    SameManifest(a, Draft(e, a, d.files), Draft(e, a, files));
    DraftSame(e, a, files, k);
    DraftResolutions(e, a, files);
    RequiredSame(e, a, files, k);
  }

  /** After any history of attempts, the validator finds in what a build wrote that ran
      through and recorded right resolutions no market partition with a symbol outside the
      stock master, and no session with a daily symbol outside its point-in-time universe. */
  lemma BuilderSatisfiesValidator(e: Env, tries: seq<Try>, fails: map<Call, string>, now: Clock)
    requires var d := AfterAll(e, EMPTY_DISK, tries);
      var a := AttemptOn(d, fails, now);
      RecordsRight(e, a, d.files) && Build(e, a, d.files).stopped.None?
    ensures var d := AfterAll(e, EMPTY_DISK, tries);
      var w := Build(e, AttemptOn(d, fails, now), d.files);
      && (forall dataset :: IsMarket(dataset) ==> !Complains(e.config, w.m, w.files, OutsideMaster(dataset)))
      && (forall date :: !Complains(e.config, w.m, w.files, OutsidePit(date)))
  {
    hide TruthOf, Build, Draft, Ready, SameWork, SameTables, Harmless, Complains, AfterAll, Trim, RecordsRight;
    var d := AfterAll(e, EMPTY_DISK, tries);
    var a, files := AttemptOn(d, fails, now), Trim(d).files;
    var k := Trimmed(e, tries, fails, now);
    var b := Tamed(e, a);
    BuildsMatch(e, a, d.files, b, files, k);
    BuildSatisfies(e, b, files, k);
    var w, v := Build(e, a, d.files), Build(e, b, files);
    forall dataset | IsMarket(dataset) ensures !Complains(e.config, w.m, w.files, OutsideMaster(dataset)) {
      UniverseSame(e.config, w, v, OutsideMaster(dataset));
    }
    forall date ensures !Complains(e.config, w.m, w.files, OutsidePit(date)) {
      UniverseSame(e.config, w, v, OutsidePit(date));
    }
  }

  lemma UniverseSame(config: Config, w: Work, v: Work, c: Complaint)
    requires w.m == v.m && SameTables(w.m, w.files, v.files) && (c.OutsideMaster? || c.OutsidePit?)
    ensures Complains(config, w.m, w.files, c) <==> Complains(config, v.m, v.files, c)
  {
    hide Complains, UniverseComplaint, SameTables;
    OnlyUniverse(config, w.m, w.files, c);
    OnlyUniverse(config, v.m, v.files, c);
    SameUniverseComplaints(w.m, w.files, v.m, v.files, c);
  }

  lemma BuildsMatch(e: Env, a: Attempt, files: map<Key, Table>, b: Attempt, others: map<Key, Table>, k: nat)
    requires Ready(TruthOf(e), b, others, k) && a.now == b.now
    requires SameWork(a, Draft(e, a, files), Draft(e, b, others))
    ensures var w, v := Build(e, a, files), Build(e, b, others);
      w.m == v.m && w.stopped == v.stopped && SameTables(w.m, w.files, v.files)
  {
    hide TruthOf, Draft, Settled, Ready, SameWork, SameTables, Hashed, RequiredFailed;
    var x, y := Draft(e, a, files), Draft(e, b, others);
    DraftRecords(e, b, others);
    var r := DraftLeaves(e, b, others, k);
    SettledMoves(e, a, x, y);
    SettledByClock(e, a, b, y);
    SettledHashed(e, b, y);
    HashedSame(Settled(e, a, x), Settled(e, b, y));
  }

  lemma SettledByClock(e: Env, a: Attempt, b: Attempt, w: Work)
    requires a.now == b.now
    ensures Settled(e, a, w) == Settled(e, b, w)
  {
    hide Objects, Named;
    NotesByClock(a, b, Named(e.config, w.m, w.files), OPTIONAL_DATASETS);
  }

  lemma {:induction false} NotesByClock(a: Attempt, b: Attempt, named: set<Dataset>, datasets: seq<Dataset>)
    requires a.now == b.now
    ensures DemotionNotes(a, named, datasets) == DemotionNotes(b, named, datasets)
  {
    if datasets != [] { NotesByClock(a, b, named, datasets[1..]); }
  }

  /** Completing all shards, by whatever attempts and in whatever order, gives the combined
      table. After any history, a build that records right resolutions and whose required part
      goes through runs to its end, and its first manifest has the name history available
      exactly when optional datasets are wanted and every shard was listed before or is
      answered now. Then the table holds exactly one row per business key of the shards, and
      the validator has nothing to object to the name history. */
  lemma CompletedShardsGiveNames(e: Env, tries: seq<Try>, fails: map<Call, string>, now: Clock)
    requires var d := AfterAll(e, EMPTY_DISK, tries);
      var a := AttemptOn(d, fails, now);
      RecordsRight(e, a, d.files) && Required(e, a, d.files).stopped.None?
    ensures var d := AfterAll(e, EMPTY_DISK, tries);
      var a := AttemptOn(d, fails, now);
      var w := Draft(e, a, d.files);
      && w.stopped.None? && Build(e, a, d.files).stopped.None?
      && (CapabilityOf(w.m, NameChange) == Available <==>
            e.config.includeOptional && forall i: nat :: i < |NameShards(e)| ==> Completes(e, a, i))
      && (CapabilityOf(w.m, NameChange) == Available ==>
            NameHistoryConsistent(w.m, w.files) && forall c :: !NamesComplaint(w.m, w.files, c))
  {
    var d := AfterAll(e, EMPTY_DISK, tries);
    var a, files := AttemptOn(d, fails, now), Trim(d).files;
    var k := Trimmed(e, tries, fails, now);
    var b := Tamed(e, a);
    TamedHolds(e, a);
    hide TruthOf, Draft, Required, Settled, Ready, SameWork, SameFetches, Harmless, AfterAll, Trim, Hashed,
      NameHistoryConsistent, NamesComplaint, Completes, RecordsRight;
    SameManifest(a, Required(e, a, d.files), Required(e, b, files));
    ShardsGiveNames(e, b, files, k);
    var w, v := Draft(e, a, d.files), Draft(e, b, files);
    SameManifest(a, w, v);
    SettledKeeps(e, a, w);
    forall i: nat ensures i < |NameShards(e)| ==> (Completes(e, a, i) <==> Completes(e, b, i)) {
      if i < |NameShards(e)| { CompletesSame(e, a, b, i); }
    }
    ListedSame(a, w, v);
    if CapabilityOf(w.m, NameChange) == Available {
      ConsistentSame(w, v);
      forall c ensures !NamesComplaint(w.m, w.files, c) {
        AlikeItself(w.m);
        SameNamesComplaints(w.m, w.files, v.m, v.files, c);
      }
    }
  }

  lemma CompletesSame(e: Env, a: Attempt, b: Attempt, index: nat)
    requires SameFetches(a, b) && index < |NameShards(e)|
    ensures Completes(e, a, index) <==> Completes(e, b, index)
  {
    RecordsSame(e, a, b, NameShards(e)[index]);
    hide NameRecords, NameShards, Dedup, Checked;
  }

  lemma ListedSame(a: Attempt, w: Work, v: Work)
    requires SameWork(a, w, v) && Hashed(v)
    ensures SameTables(w.m, w.files, v.files)
  {
    forall entry | entry in w.m.partitions ensures entry.key in w.files && w.files[entry.key] == v.files[entry.key] {
      assert HasKey(w.m.partitions, entry.key) && Watched(a, w.m, entry.key) && SameFile(w.files, v.files, entry.key);
    }
  }

  lemma AlikeItself(m: Manifest)
    ensures Alike(m, m)
  {
  }

  lemma ConsistentSame(w: Work, v: Work)
    requires w.m == v.m && SameTables(w.m, w.files, v.files) && NameHistoryConsistent(v.m, v.files)
    ensures NameHistoryConsistent(w.m, w.files)
  {
    var shards := ShardEntries(w.m.partitions);
    ShardEntriesListed(w.m.partitions);
    forall entry | entry in shards ensures RowsOf(w.files, entry.key) == RowsOf(v.files, entry.key) {
      assert entry in w.m.partitions;
    }
    SameShardKeys(w.files, v.files, shards);
    var names :| names in w.m.partitions && names.key == NAMES_KEY;
    hide ShardEntries, ShardKeySet, KeySet;
  }
}
