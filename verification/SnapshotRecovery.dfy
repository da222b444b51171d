/** What any history of attempts at `build_snapshot` leaves behind, and that two undisturbed
    builds agree up to the manifest they write first. */
module SnapshotRecovery {
  import opened Outcomes
  import opened SnapshotRows
  import opened SnapshotModel
  import opened SnapshotValidator
  import opened SnapshotResume
  import opened SnapshotOptional

  /** The artifact directory: partition files, and the manifest once one was written. */
  datatype Disk = Disk(files: map<Key, Table>, saved: Option<Manifest>)

  const EMPTY_DISK := Disk(map[], None)

  /** How an attempt ends: on its own, or by a death of the process before its manifest is
      written, or after that but before the local validation is worked in. A death during
      the build is one where all later fetches failed. */
  datatype Ending = Finishes | DiesUnsaved | DiesUnsettled

  /** An earlier attempt, in which some fetches failed. */
  datatype Try = Try(fails: map<Call, string>, now: Clock, ending: Ending)

  function AttemptOn(d: Disk, fails: map<Call, string>, now: Clock): Attempt {
    match d.saved
    case None => Attempt(map[], map[], fails, now)
    case Some(m) => Attempt(OldEntries(m.partitions), m.resolutions, fails, now)
  }

  ghost function After(e: Env, d: Disk, t: Try): Disk {
    var a := AttemptOn(d, t.fails, t.now);
    var draft := Draft(e, a, d.files);
    Disk(draft.files,
         match t.ending
         case Finishes => Some(Build(e, a, d.files).m)
         case DiesUnsaved => d.saved
         case DiesUnsettled => Some(draft.m))
  }

  ghost function AfterAll(e: Env, d: Disk, tries: seq<Try>): Disk {
    if tries == [] then d else After(e, AfterAll(e, d, tries[..|tries| - 1]), tries[|tries| - 1])
  }

  // ----- What every build leaves

  ghost predicate Leaves(t: Truth, files: map<Key, Table>, w: Work, r: nat) {
    && files.Keys <= w.files.Keys
    && Faithful(t, w.files)
    && Saved(t, w.files, w.m, r)
    && Hashed(w)
  }

  lemma HaltedLeaves(e: Env, a: Attempt, files: map<Key, Table>, w: Work, r: nat, k: nat)
    requires EndsAt(e, a, files, w, r, k) && k <= r
    ensures Leaves(TruthOf(e), files, w, r)
  {
    var t := TruthOf(e);
    SeenGrows(t, k, r);
    forall entry | entry in w.m.partitions ensures entry.key != NAMES_KEY {
      var j: nat :| j < |w.m.partitions| && w.m.partitions[j] == entry;
      assert w.m.partitions[j].key == PlanKey(t, j);
    }
  }

  lemma EndedLeaves(t: Truth, files: map<Key, Table>, w: Work)
    requires Ended(t, files, w) && t.dates != []
    ensures Leaves(t, files, w, PlanLength(t))
  {
    SeenIsAll(t);
  }

  lemma FinishLeaves(t: Truth, a: Attempt, files: map<Key, Table>, w: Work, r: nat)
    requires Leaves(t, files, w, r)
    ensures Leaves(t, files, Finish(a, w), r)
  {
  }

  /** The optional part, after a required part that went through. */
  lemma OptionalLeaves(e: Env, a: Attempt, files: map<Key, Table>, w: Work, k: nat)
    requires Ready(TruthOf(e), a, files, k) && EndsAt(e, a, files, w, PlanLength(TruthOf(e)), k) && w.stopped.None?
    ensures w.m.master == Stocks(e) && Sessions(w.m.calendar) == TruthOf(e).dates && k <= PlanLength(TruthOf(e))
    ensures Complete(TruthOf(e), files, w)
    ensures var market := OptionalMarket(e, a, Stocks(e), TruthOf(e).dates, w);
      && Complete(TruthOf(e), files, market) && market.stopped.None?
      && Leaves(TruthOf(e), files, NamesPhase(e, a, Stocks(e), market), PlanLength(TruthOf(e)))
  {
    var t := TruthOf(e);
    RequiredComplete(t, a, files, w, k);
    assert t.dates == Sessions(CalendarRows(e));
    hide Complete, OptionalMarket, NamesPhase, Leaves;
    MarketComplete(e, a, files, w, k);
    var market := OptionalMarket(e, a, Stocks(e), t.dates, w);
    NamesEnd(e, a, files, market, k);
    EndedLeaves(t, files, NamesPhase(e, a, Stocks(e), market));
  }

  lemma DraftLeaves(e: Env, a: Attempt, files: map<Key, Table>, k: nat) returns (r: nat)
    requires Ready(TruthOf(e), a, files, k)
    ensures Leaves(TruthOf(e), files, Draft(e, a, files), r)
  {
    r := RequiredEnds(e, a, files, k);
    var t, w := TruthOf(e), Required(e, a, files);
    assert k <= r;
    HaltedLeaves(e, a, files, w, r, k);
    hide Required, Leaves, OptionalMarket, NamesPhase;
    if w.stopped.Some? || !e.config.includeOptional {
      FinishLeaves(t, a, files, w, r);
    } else {
      OptionalLeaves(e, a, files, w, k);
      FinishLeaves(t, a, files, NamesPhase(e, a, Stocks(e), OptionalMarket(e, a, Stocks(e), t.dates, w)), r);
    }
  }

  /** Working in the local validation changes neither files nor listing nor resolutions. */
  lemma SettledKeeps(e: Env, a: Attempt, w: Work)
    ensures var s := Settled(e, a, w);
      && s.files == w.files && s.stopped == w.stopped
      && s.m.partitions == w.m.partitions && s.m.resolutions == w.m.resolutions && s.m.names == w.m.names
  {
    hide Objects, Named, DemotionNotes;
  }

  /** Every attempt leaves a directory from which the next can resume. */
  lemma BuildLeaves(e: Env, a: Attempt, files: map<Key, Table>, k: nat) returns (r: nat)
    requires Ready(TruthOf(e), a, files, k)
    ensures Leaves(TruthOf(e), files, Draft(e, a, files), r) && Leaves(TruthOf(e), files, Build(e, a, files), r)
  {
    hide Draft, TruthOf, Settled;
    r := DraftLeaves(e, a, files, k);
    SettledKeeps(e, a, Draft(e, a, files));
  }

  // ----- The invariant of the artifact directory over any history

  ghost predicate Sound(e: Env, d: Disk, k: nat) {
    && Faithful(TruthOf(e), d.files)
    && (d.saved.None? ==> k == 0)
    && (d.saved.Some? ==> Saved(TruthOf(e), d.files, d.saved.value, k))
  }

  lemma {:induction false} OldEntriesAre(partitions: seq<Entry>)
    ensures forall key :: key in OldEntries(partitions) ==>
      OldEntries(partitions)[key].key == key && OldEntries(partitions)[key] in partitions
    ensures forall entry :: entry in partitions ==> entry.key in OldEntries(partitions)
  {
    if partitions != [] {
      var n := |partitions| - 1;
      OldEntriesAre(partitions[..n]);
      assert partitions == partitions[..n] + [partitions[n]];
    }
  }

  lemma SoundReady(e: Env, d: Disk, k: nat, fails: map<Call, string>, now: Clock)
    requires Sound(e, d, k) && LookupsHold(TruthOf(e), fails)
    ensures Ready(TruthOf(e), AttemptOn(d, fails, now), d.files, k)
  {
    var t := TruthOf(e);
    if d.saved.Some? {
      SavedResumes(t, d.files, d.saved.value, k, fails, now);
    }
  }

  lemma SavedResumes(t: Truth, files: map<Key, Table>, m: Manifest, k: nat, fails: map<Call, string>, now: Clock)
    requires Saved(t, files, m, k) && Faithful(t, files) && LookupsHold(t, fails)
    ensures Ready(t, Attempt(OldEntries(m.partitions), m.resolutions, fails, now), files, k)
  {
    OldEntriesAre(m.partitions);
    forall j: nat | j < k ensures PlanKey(t, j) in OldEntries(m.partitions) {
      assert m.partitions[j] in m.partitions;
    }
  }

  /** Every file that survives a history of failed, finished or killed attempts holds its
      final content, and the saved manifest lists a prefix of the required partitions. */
  lemma {:induction false} HistorySound(e: Env, tries: seq<Try>) returns (k: nat)
    requires forall t :: t in tries ==> LookupsHold(TruthOf(e), t.fails)
    ensures Sound(e, AfterAll(e, EMPTY_DISK, tries), k)
  {
    if tries == [] {
      k := 0;
    } else {
      var front, last := tries[..|tries| - 1], tries[|tries| - 1];
      var l := HistorySound(e, front);
      k := TrySound(e, AfterAll(e, EMPTY_DISK, front), l, last);
    }
  }

  lemma TrySound(e: Env, d: Disk, l: nat, t: Try) returns (k: nat)
    requires Sound(e, d, l) && LookupsHold(TruthOf(e), t.fails)
    ensures Sound(e, After(e, d, t), k)
  {
    SoundReady(e, d, l, t.fails, t.now);
    var a := AttemptOn(d, t.fails, t.now);
    hide Build, Draft, Ready, TruthOf, Faithful, Lists, EntriesRight, SeenAt, Hashed;
    k := BuildLeaves(e, a, d.files, l);
    if t.ending == DiesUnsaved {
      k := l;
      FilesOnlyGrow(TruthOf(e), d, Draft(e, a, d.files).files, l);
    } else {
      SettledKeeps(e, a, Draft(e, a, d.files));
    }
  }

  lemma FilesOnlyGrow(t: Truth, d: Disk, files: map<Key, Table>, k: nat)
    requires d.files.Keys <= files.Keys && (d.saved.Some? ==> Saved(t, d.files, d.saved.value, k))
    ensures d.saved.Some? ==> Saved(t, files, d.saved.value, k)
  {
  }

  // ----- Two undisturbed builds agree

  lemma ListedSucceeds(t: Truth, a: Attempt, w: Work, r: nat, k: nat)
    requires Standing(t, a, w, r, k)
    ensures forall j: nat :: j < r ==> t.content(PlanKey(t, j)).Success?
  {
    forall j: nat | j < r ensures t.content(PlanKey(t, j)).Success? {
      assert w.m.partitions[j] in w.m.partitions;
      assert PlanKey(t, j) != NAMES_KEY;
    }
  }

  lemma StopsAgree(e: Env, a: Attempt, files: map<Key, Table>, w: Work, r: nat, k: nat,
                   b: Attempt, others: map<Key, Table>, v: Work, q: nat, l: nat)
    requires EndsAt(e, a, files, w, r, k) && EndsAt(e, b, others, v, q, l) && a.fails == NO_FAILURES && b.fails == NO_FAILURES
    ensures r <= q
  {
    ListedSucceeds(TruthOf(e), a, w, r, k);
  }

  lemma ListingsAgree(t: Truth, a: Attempt, w: Work, k: nat, b: Attempt, v: Work, l: nat, r: nat)
    requires Standing(t, a, w, r, k) && Standing(t, b, v, r, l)
    ensures w.m.partitions == v.m.partitions
  {
    forall j: nat | j < r ensures w.m.partitions[j] == v.m.partitions[j] {
      assert w.m.partitions[j] in w.m.partitions && v.m.partitions[j] in v.m.partitions;
      assert PlanKey(t, j) != NAMES_KEY;
    }
  }

  lemma ResolutionsAgree(t: Truth, a: Attempt, w: Work, k: nat, r: nat)
    requires Standing(t, a, w, r, k) && k <= r && SeenAt(t, r) <= w.m.resolutions.Keys
    ensures w.m.resolutions == ResolveAll(SeenAt(t, r), t.resolve)
  {
    SeenGrows(t, k, r);
    RightMapsAgree(t, w.m.resolutions, SeenAt(t, r));
  }

  lemma SeenAtEnd(e: Env, a: Attempt, files: map<Key, Table>, w: Work, r: nat, k: nat)
    requires EndsAt(e, a, files, w, r, k) && a.fails == NO_FAILURES
    ensures SeenAt(TruthOf(e), r) <= w.m.resolutions.Keys
  {
    var t := TruthOf(e);
    if w.stopped.None? {
      SeenCovered(t, w.m, r, |t.dates|);
    }
  }

  lemma RequiredAlike(e: Env, a: Attempt, files: map<Key, Table>, k: nat,
                      b: Attempt, others: map<Key, Table>, l: nat) returns (r: nat)
    requires Ready(TruthOf(e), a, files, k) && Ready(TruthOf(e), b, others, l) && a.fails == NO_FAILURES && b.fails == NO_FAILURES
    ensures EndsAt(e, a, files, Required(e, a, files), r, k) && EndsAt(e, b, others, Required(e, b, others), r, l)
    ensures Alike(Required(e, a, files).m, Required(e, b, others).m)
    ensures Required(e, a, files).stopped == Required(e, b, others).stopped
    ensures Required(e, a, files).m.names.failedShards == []
    ensures Required(e, b, others).m.names.failedShards == []
  {
    r := RequiredEnds(e, a, files, k);
    var q := RequiredEnds(e, b, others, l);
    hide Required;
    EndsAlike(e, a, files, Required(e, a, files), r, k, b, others, Required(e, b, others), q, l);
  }

  lemma EndsAlike(e: Env, a: Attempt, files: map<Key, Table>, w: Work, r: nat, k: nat,
                  b: Attempt, others: map<Key, Table>, v: Work, q: nat, l: nat)
    requires EndsAt(e, a, files, w, r, k) && EndsAt(e, b, others, v, q, l) && a.fails == NO_FAILURES && b.fails == NO_FAILURES
    requires k <= PlanLength(TruthOf(e)) && l <= PlanLength(TruthOf(e))
    ensures r == q && w.stopped == v.stopped && Alike(w.m, v.m)
    ensures w.m.names.failedShards == [] && v.m.names.failedShards == []
  {
    var t := TruthOf(e);
    StopsAgree(e, a, files, w, r, k, b, others, v, q, l);
    StopsAgree(e, b, others, v, q, l, a, files, w, r, k);
    SeenAtEnd(e, a, files, w, r, k);
    SeenAtEnd(e, b, others, v, q, l);
    SameEnd(t, a, w, k, b, v, l, r);
    EndsAlikeDerived(e, a, files, w, k, b, others, v, l, r);
  }

  lemma SameEnd(t: Truth, a: Attempt, w: Work, k: nat, b: Attempt, v: Work, l: nat, r: nat)
    requires Standing(t, a, w, r, k) && Standing(t, b, v, r, l) && k <= r && l <= r
    requires SeenAt(t, r) <= w.m.resolutions.Keys && SeenAt(t, r) <= v.m.resolutions.Keys
    ensures w.m.partitions == v.m.partitions && w.m.resolutions == v.m.resolutions
  {
    ListingsAgree(t, a, w, k, b, v, l, r);
    ResolutionsAgree(t, a, w, k, r);
    ResolutionsAgree(t, b, v, l, r);
  }

  lemma EndsAlikeDerived(e: Env, a: Attempt, files: map<Key, Table>, w: Work, k: nat,
                         b: Attempt, others: map<Key, Table>, v: Work, l: nat, r: nat)
    requires EndsAt(e, a, files, w, r, k) && EndsAt(e, b, others, v, r, l) && a.fails == NO_FAILURES && b.fails == NO_FAILURES
    requires w.m.partitions == v.m.partitions && w.m.resolutions == v.m.resolutions
    ensures w.stopped == v.stopped && Alike(w.m, v.m)
    ensures w.m.names.failedShards == [] && v.m.names.failedShards == []
  {
    hide Standing;
    var t := TruthOf(e);
    if r == PlanLength(t) && w.stopped.Some? {
      assert t.dates == [];
    }
    if r == PlanLength(t) && v.stopped.Some? {
      assert t.dates == [];
    }
  }

  lemma FinishAlike(a: Attempt, w: Work, b: Attempt, v: Work)
    requires Alike(w.m, v.m) && w.stopped == v.stopped
    ensures Alike(Finish(a, w).m, Finish(b, v).m) && Finish(a, w).stopped == Finish(b, v).stopped
    ensures Finish(a, w).m.names == w.m.names && Finish(b, v).m.names == v.m.names
  {
  }

  lemma NamesStamped(e: Env, a: Attempt, files: map<Key, Table>, w: Work, k: nat)
    requires Resumes(TruthOf(e), a, files, k) && Complete(TruthOf(e), files, w)
    requires Stamped(a, w.m.names.failedShards)
    ensures Stamped(a, NamesPhase(e, a, Stocks(e), w).m.names.failedShards)
  {
    var shards := NameShards(e);
    var planned := w.(m := w.m.(names := w.m.names.(plannedSymbols := |Symbols(e, Stocks(e))|, plannedShards := |shards|)));
    assert Complete(TruthOf(e), files, planned);
    hide Complete, Resumes, Stamped, ShardSteps, TruthOf, CombineNames;
    ShardStepsTry(e, a, files, planned, |shards|, k);
    CombineKeepsFailures(ShardSteps(e, a, shards, planned, |shards|), shards);
  }

  lemma CombineKeepsFailures(w: Work, shards: seq<seq<string>>)
    ensures CombineNames(w, shards).m.names.failedShards == w.m.names.failedShards
  {
    hide Checked, Dedup, ReadAll, ShardEntries, CompletedSymbols;
  }

  lemma MarketKeepsNames(e: Env, a: Attempt, files: map<Key, Table>, w: Work, k: nat)
    requires Resumes(TruthOf(e), a, files, k) && Complete(TruthOf(e), files, w)
    ensures OptionalMarket(e, a, Stocks(e), TruthOf(e).dates, w).m.names == w.m.names
  {
    hide Resumes, Complete, OptionalDays, TruthOf;
    var dates, n := TruthOf(e).dates, |TruthOf(e).dates|;
    OptionalDaysTry(e, a, files, w, DailyBasic, n, k);
    var basic := OptionalDataset(e, a, Stocks(e), dates, w, DailyBasic);
    OptionalDatasetComplete(e, a, files, w, DailyBasic, k);
    OptionalDaysTry(e, a, files, basic, Suspend, n, k);
    OptionalDatasetComplete(e, a, files, basic, Suspend, k);
    OptionalDaysTry(e, a, files, OptionalDataset(e, a, Stocks(e), dates, basic, Suspend), Limits, n, k);
  }

  /** Two undisturbed builds of the same provider, each on its own sound directory, write the
      same first manifest, up to notes and time stamps. */
  lemma DraftsAlike(e: Env, a: Attempt, files: map<Key, Table>, k: nat,
                    b: Attempt, others: map<Key, Table>, l: nat)
    requires Ready(TruthOf(e), a, files, k) && Ready(TruthOf(e), b, others, l) && a.fails == NO_FAILURES && b.fails == NO_FAILURES
    ensures var w, v := Draft(e, a, files), Draft(e, b, others);
      && Alike(w.m, v.m) && w.stopped == v.stopped
      && Stamped(a, w.m.names.failedShards) && Stamped(b, v.m.names.failedShards)
  {
    var r := RequiredAlike(e, a, files, k, b, others, l);
    var w, v := Required(e, a, files), Required(e, b, others);
    hide Required, OptionalMarket, NamesPhase, Alike;
    if w.stopped.Some? || !e.config.includeOptional {
      FinishAlike(a, w, b, v);
    } else {
      OptionalAlike(e, a, files, w, k, b, others, v, l);
      var stocks, dates := Stocks(e), TruthOf(e).dates;
      FinishAlike(a, NamesPhase(e, a, stocks, OptionalMarket(e, a, stocks, dates, w)),
                  b, NamesPhase(e, b, stocks, OptionalMarket(e, b, stocks, dates, v)));
    }
  }

  lemma OptionalAlike(e: Env, a: Attempt, files: map<Key, Table>, w: Work, k: nat,
                      b: Attempt, others: map<Key, Table>, v: Work, l: nat)
    requires Ready(TruthOf(e), a, files, k) && EndsAt(e, a, files, w, PlanLength(TruthOf(e)), k) && w.stopped.None?
    requires Ready(TruthOf(e), b, others, l) && EndsAt(e, b, others, v, PlanLength(TruthOf(e)), l) && v.stopped.None?
    requires a.fails == NO_FAILURES && b.fails == NO_FAILURES && Alike(w.m, v.m)
    requires w.m.names.failedShards == [] && v.m.names.failedShards == []
    ensures w.m.master == Stocks(e) && Sessions(w.m.calendar) == TruthOf(e).dates
    ensures v.m.master == Stocks(e) && Sessions(v.m.calendar) == TruthOf(e).dates
    ensures var stocks, dates := Stocks(e), TruthOf(e).dates;
      var x := NamesPhase(e, a, stocks, OptionalMarket(e, a, stocks, dates, w));
      var y := NamesPhase(e, b, stocks, OptionalMarket(e, b, stocks, dates, v));
      && Alike(x.m, y.m) && x.stopped == y.stopped
      && Stamped(a, x.m.names.failedShards) && Stamped(b, y.m.names.failedShards)
  {
    OptionalLeaves(e, a, files, w, k);
    OptionalLeaves(e, b, others, v, l);
    hide EndsAt, Complete, OptionalMarket, NamesPhase, Alike;
    var t, stocks := TruthOf(e), Stocks(e);
    hide TruthOf;
    MarketAlike(e, a, files, w, k, b, others, v, l);
    MarketKeepsNames(e, a, files, w, k);
    MarketKeepsNames(e, b, others, v, l);
    var w1, v1 := OptionalMarket(e, a, stocks, t.dates, w), OptionalMarket(e, b, stocks, t.dates, v);
    NamesAlike(e, a, files, w1, k, b, others, v1, l);
    NamesStamped(e, a, files, w1, k);
    NamesStamped(e, b, others, v1, l);
  }

  /** The clocks agree where a shard is noted as failed. */
  predicate SameStamps(a: Attempt, b: Attempt, failures: seq<ShardFailure>) {
    forall failure :: failure in failures ==>
      a.now(Some(NameChange), Shard(failure.index)) == b.now(Some(NameChange), Shard(failure.index))
  }

  /** The digests of two alike manifests differ only through the stamps of failed shards. */
  lemma DigestsByStamps(a: Attempt, m: Manifest, b: Attempt, n: Manifest)
    requires Alike(m, n) && Stamped(a, m.names.failedShards) && Stamped(b, n.names.failedShards)
    ensures DigestOf(m) == DigestOf(n) <==> SameStamps(a, b, n.names.failedShards)
  {
    var x, y := m.names.failedShards, n.names.failedShards;
    assert |Unstamped(x)| == |Unstamped(y)|;
    forall i | 0 <= i < |x| ensures x[i].index == y[i].index && x[i].error == y[i].error {
      assert Unstamped(x)[i] == Unstamped(y)[i];
    }
    if SameStamps(a, b, y) {
      forall i | 0 <= i < |x| ensures x[i] == y[i] {
        assert y[i] in y;
      }
      assert x == y;
    } else {
      var failure :| failure in y && a.now(Some(NameChange), Shard(failure.index)) != b.now(Some(NameChange), Shard(failure.index));
      var i :| 0 <= i < |y| && y[i] == failure;
      assert x[i].stamp != y[i].stamp;
    }
  }
}
