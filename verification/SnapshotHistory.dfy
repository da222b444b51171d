/** Crash and resume over all histories: which attempts went before, what failed in them, and
    where they died, decides nothing but what the saved manifest records. */
module SnapshotHistory {
  import opened Outcomes
  import opened SnapshotRows
  import opened SnapshotModel
  import opened SnapshotValidator
  import opened SnapshotResume
  import opened SnapshotOptional
  import opened SnapshotRecovery
  import opened SnapshotStatus
  import opened SnapshotValidate
  import opened SnapshotEquivalence
  import opened SnapshotPoison
  import opened SnapshotFrames

  // ----- The part of the directory that matters

  /** The directory without the files that the saved manifest does not offer for reuse. */
  function Trim(d: Disk): Disk {
    Disk(map key | key in d.files && key != NAMES_KEY && d.saved.Some? && HasKey(d.saved.value.partitions, key) :: d.files[key], d.saved)
  }

  lemma TrimOffers(d: Disk, fails: map<Call, string>, now: Clock)
    ensures var a := AttemptOn(d, fails, now);
      && a == AttemptOn(Trim(d), fails, now) && OwnKeys(a)
      && (forall key :: key in a.previous <==> d.saved.Some? && HasKey(d.saved.value.partitions, key))
      && Kept(a, d.files, Trim(d).files) && Kept(a, Trim(d).files, d.files)
  {
    if d.saved.Some? { OldEntriesAre(d.saved.value.partitions); }
  }

  // ----- One attempt

  lemma RightEarlier(e: Env, d: Disk, t: Try)
    requires SavedRight(e, After(e, d, t))
    ensures SavedRight(e, d)
  {
    if d.saved.Some? {
      var a := AttemptOn(d, t.fails, t.now);
      ResolutionsAreFinal(e, d, t.fails, t.now);
      SettledKeeps(e, a, Draft(e, a, d.files));
      hide TruthOf, Draft, Settled, Preserves, ResolutionsRight;
      var after := After(e, d, t).saved.value;
      if t.ending != DiesUnsaved {
        assert after.resolutions == Draft(e, a, d.files).m.resolutions;
        RightBefore(TruthOf(e), d.saved.value.resolutions, after.resolutions);
      }
    }
  }

  lemma ReadyTamed(e: Env, d: Disk, k: nat, fails: map<Call, string>, now: Clock)
    requires Sound(e, Trim(d), k)
    ensures Offers(e, AttemptOn(d, fails, now), Trim(d).files, k)
  {
    var a := AttemptOn(d, fails, now);
    TrimOffers(d, fails, now);
    TamedHolds(e, a);
    hide TruthOf, Sound, Harmless, Ready, LookupsHold, Trim;
    SoundReady(e, Trim(d), k, Tamed(e, a).fails, now);
    assert Tamed(e, a) == AttemptOn(Trim(d), Tamed(e, a).fails, now);
  }

  lemma TryTrimmed(e: Env, d: Disk, l: nat, t: Try) returns (k: nat)
    requires Sound(e, Trim(d), l) && SavedRight(e, After(e, d, t))
    ensures Sound(e, Trim(After(e, d, t)), k)
  {
    var a := AttemptOn(d, t.fails, t.now);
    var files := Trim(d).files;
    TrimOffers(d, t.fails, t.now);
    ReadyTamed(e, d, l, t.fails, t.now);
    hide TruthOf, Draft, Settled, Sound, Ready, Harmless, Trim, SameWork, ResolutionsRight, Leaves;
    DraftMoves(e, a, d.files, files);
    var w, v := Draft(e, a, d.files), Draft(e, a, files);
    SettledKeeps(e, a, w);
    SameManifest(a, w, v);
    if t.ending == DiesUnsaved {
      DraftKeeps(e, a, files, l);
      DeadTrims(d, a, w, v, t.fails, t.now);
      k := l;
    } else {
      DraftSame(e, a, files, l);
      k := DraftLeaves(e, Tamed(e, a), files, l);
      LeftTrims(e, a, files, w, v, After(e, d, t).saved.value, k);
    }
  }

  /** A death before the manifest is written leaves what matters as it was. */
  lemma DeadTrims(d: Disk, a: Attempt, w: Work, v: Work, fails: map<Call, string>, now: Clock)
    requires a == AttemptOn(d, fails, now) && SameWork(a, w, v) && Kept(a, Trim(d).files, v.files)
    ensures Trim(Disk(w.files, d.saved)) == Trim(d)
  {
    TrimOffers(d, fails, now);
    forall key | key in a.previous && key != NAMES_KEY ensures SameFile(w.files, d.files, key) {
      assert Watched(a, w.m, key) && SameFile(w.files, v.files, key);
      assert SameFile(Trim(d).files, v.files, key) && SameFile(Trim(d).files, d.files, key);
    }
    var trimmed := Trim(Disk(w.files, d.saved)).files;
    forall key ensures SameFile(trimmed, Trim(d).files, key) {
      if d.saved.Some? && key != NAMES_KEY && HasKey(d.saved.value.partitions, key) {
        assert SameFile(w.files, d.files, key);
      }
    }
    assert trimmed == Trim(d).files;
  }

  /** A saved manifest offers what a sound build wrote. */
  lemma LeftTrims(e: Env, a: Attempt, start: map<Key, Table>, w: Work, v: Work, m: Manifest, k: nat)
    requires SameWork(a, w, v) && Leaves(TruthOf(e), start, v, k)
    requires m.partitions == w.m.partitions && m.resolutions == w.m.resolutions
    ensures Sound(e, Trim(Disk(w.files, Some(m))), k)
  {
    hide TruthOf, PlanKey, SeenAt, Hashed;
    var t, files := TruthOf(e), Trim(Disk(w.files, Some(m))).files;
    forall key | HasKey(m.partitions, key) ensures SameFile(w.files, v.files, key) {
      assert Watched(a, w.m, key);
    }
    forall entry | entry in m.partitions && entry.key != NAMES_KEY ensures EntryRight(t, entry) && entry.key in files {
      assert HasKey(m.partitions, entry.key) && SameFile(w.files, v.files, entry.key);
    }
  }

  /** Over any history whose saved resolutions are right, what matters of the directory is
      sound: attempts that recorded something else can only have died before saving it. */
  lemma {:induction false} HistoryTrimmed(e: Env, tries: seq<Try>) returns (k: nat)
    requires SavedRight(e, AfterAll(e, EMPTY_DISK, tries))
    ensures Sound(e, Trim(AfterAll(e, EMPTY_DISK, tries)), k)
  {
    hide SavedRight, Sound, After, Trim;
    if tries == [] {
      k := 0;
      NothingTrimmed(e);
    } else {
      var front, last := tries[..|tries| - 1], tries[|tries| - 1];
      var d := AfterAll(e, EMPTY_DISK, front);
      RightEarlier(e, d, last);
      var l := HistoryTrimmed(e, front);
      k := TryTrimmed(e, d, l, last);
    }
  }

  lemma NothingTrimmed(e: Env)
    ensures Sound(e, Trim(EMPTY_DISK), 0)
  {
  }

  // ----- Whole builds

  lemma SettledMoves(e: Env, a: Attempt, w: Work, v: Work)
    requires SameWork(a, w, v) && Hashed(v) && (v.m.completed ==> !RequiredFailed(v.m))
    ensures var s, u := Settled(e, a, w), Settled(e, a, v);
      s.m == u.m && s.stopped == u.stopped && Hashed(s)
  {
    forall entry | entry in w.m.partitions ensures entry.key in w.files && w.files[entry.key] == v.files[entry.key] {
      assert HasKey(w.m.partitions, entry.key) && Watched(a, w.m, entry.key) && SameFile(w.files, v.files, entry.key);
    }
    assert SameTables(w.m, w.files, v.files) && Hashed(w);
    SettledHashed(e, a, w);
    SameManifest(a, w, v);
    hide SameWork, SameTables, Hashed, RequiredFailed, Objects, Named;
    SameObjections(e.config, w.m, w.files, v.m, v.files);
  }

  /** A build on the whole directory is the build on what matters of it. */
  lemma BuildTrimmed(e: Env, d: Disk, now: Clock, k: nat)
    requires Sound(e, Trim(d), k)
    ensures var a := AttemptOn(d, NO_FAILURES, now);
      && a == AttemptOn(Trim(d), NO_FAILURES, now) && Ready(TruthOf(e), a, Trim(d).files, k)
      && var s, u := Build(e, a, d.files), Build(e, a, Trim(d).files);
         s.m == u.m && s.stopped == u.stopped && Hashed(s)
  {
    var a := AttemptOn(d, NO_FAILURES, now);
    TrimOffers(d, NO_FAILURES, now);
    NoneFail(e);
    SoundReady(e, Trim(d), k, NO_FAILURES, now);
    hide TruthOf, Draft, Settled, Sound, Ready, Trim, SameWork, LookupsHold;
    var files := Trim(d).files;
    DraftMoves(e, a, d.files, files);
    DraftRecords(e, a, files);
    var r := DraftLeaves(e, a, files, k);
    SettledMoves(e, a, Draft(e, a, d.files), Draft(e, a, files));
  }

  lemma NoneFail(e: Env)
    ensures LookupsHold(TruthOf(e), NO_FAILURES)
  {
  }

  /** Crash and resume, over all histories: whatever fetches and lookups failed in earlier
      attempts, and wherever they died.
      If the saved manifest records about historical codes only what a clean build would, one
      undisturbed build ends with the outcome, the partition entries and the files of a clean
      build, and with its status exactly if it fetches one of the days with symbols absent from
      the stock master, if there are any, or the validator names no optional dataset.
      The final digest is the clean one exactly when
      (1) the saved manifest records about historical codes only what a clean build would,
      (2) the clocks agree wherever a shard stays unavailable, whose time stamp is covered, and
      (3) the build fetches one of the days with absent symbols, if there are any, or the
      validator names no optional dataset that is not incomplete already. */
  lemma CrashResumeEquivalence(e: Env, tries: seq<Try>, now: Clock, cleanNow: Clock)
    ensures var d := AfterAll(e, EMPTY_DISK, tries);
      var a, b := AttemptOn(d, NO_FAILURES, now), AttemptOn(EMPTY_DISK, NO_FAILURES, cleanNow);
      var resumed, clean, draft := Build(e, a, d.files), Build(e, b, map[]), Draft(e, b, map[]);
      var sameStatus := clean.stopped.Some? || NotesAgain(a.previous, draft.m.partitions);
      && (SavedRight(e, d) ==>
            && resumed.stopped == clean.stopped && resumed.m.partitions == clean.m.partitions && Hashed(resumed) && Hashed(clean)
            && (resumed.m.completed == clean.m.completed <==> sameStatus || Named(e.config, draft.m, draft.files) == {}))
      && (DigestOf(resumed.m) == DigestOf(clean.m) <==>
            && SavedRight(e, d)
            && SameStamps(a, b, clean.m.names.failedShards)
            && (sameStatus || NothingToDemote(e.config, draft.m, draft.files)))
  {
    var d := AfterAll(e, EMPTY_DISK, tries);
    var a, b := AttemptOn(d, NO_FAILURES, now), AttemptOn(EMPTY_DISK, NO_FAILURES, cleanNow);
    hide Ready, TruthOf, Build, Draft, AfterAll, Sound, NotesAgain, NothingToDemote, Hashed, Named, SavedRight, SameStamps, Trim;
    if SavedRight(e, d) {
      var k := HistoryTrimmed(e, tries);
      BuildTrimmed(e, d, now, k);
      CleanReady(e, cleanNow);
      BuildsAlike(e, a, Trim(d).files, k, b, map[], 0);
    } else {
      WrongResolutionPoisonsDigest(e, d, NO_FAILURES, now, cleanNow);
    }
  }

  lemma CleanReady(e: Env, now: Clock)
    ensures Ready(TruthOf(e), AttemptOn(EMPTY_DISK, NO_FAILURES, now), map[], 0)
  {
    NoneFail(e);
    SoundReady(e, EMPTY_DISK, 0, NO_FAILURES, now);
  }

  /** Histories without a wrong lookup save right resolutions. */
  lemma HoldingHistoriesAreRight(e: Env, tries: seq<Try>)
    requires forall t :: t in tries ==> LookupsHold(TruthOf(e), t.fails)
    ensures SavedRight(e, AfterAll(e, EMPTY_DISK, tries))
  {
    hide TruthOf, LookupsHold, AfterAll;
    var k := HistorySound(e, tries);
  }
}
