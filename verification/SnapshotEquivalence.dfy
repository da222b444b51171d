/** Crash/resume equivalence of whole builds, local validation and demotion included: when the
    final status and digest of a resumed build are those of a clean one. */
module SnapshotEquivalence {
  import opened Outcomes
  import opened SnapshotRows
  import opened SnapshotModel
  import opened SnapshotValidator
  import opened SnapshotResume
  import opened SnapshotOptional
  import opened SnapshotRecovery
  import opened SnapshotStatus
  import opened SnapshotValidate

  // ----- The validator sees the same in two alike builds

  /** Every listed partition is on both disks, with the same content. */
  ghost predicate SameTables(m: Manifest, files: map<Key, Table>, others: map<Key, Table>) {
    forall entry :: entry in m.partitions ==> entry.key in files && entry.key in others && files[entry.key] == others[entry.key]
  }

  lemma HashedSame(w: Work, v: Work)
    requires Hashed(w) && Hashed(v) && w.m.partitions == v.m.partitions
    ensures SameTables(w.m, w.files, v.files)
  {
  }

  lemma SameReads(m: Manifest, files: map<Key, Table>, n: Manifest, others: map<Key, Table>)
    requires m.partitions == n.partitions && SameTables(m, files, others)
    ensures forall key :: Readable(m, files, key) <==> Readable(n, others, key)
    ensures forall key :: TableAt(m, files, key) == TableAt(n, others, key)
    ensures SessionsOf(m, files) == SessionsOf(n, others)
  {
  }

  lemma SamePartitionComplaints(m: Manifest, files: map<Key, Table>, n: Manifest, others: map<Key, Table>, c: Complaint)
    requires m.partitions == n.partitions && m.capabilities == n.capabilities && SameTables(m, files, others)
    ensures PartitionComplaint(m, files, c) <==> PartitionComplaint(n, others, c)
  {
    hide EntryComplaint;
    forall entry | entry in m.partitions ensures EntryComplaint(m, files, entry, c) <==> EntryComplaint(n, others, entry, c) {
      SameEntryComplaint(m, files, n, others, entry, c);
    }
  }

  lemma SameEntryComplaint(m: Manifest, files: map<Key, Table>, n: Manifest, others: map<Key, Table>, entry: Entry, c: Complaint)
    requires m.capabilities == n.capabilities
    requires entry.key in files && entry.key in others && files[entry.key] == others[entry.key]
    ensures EntryComplaint(m, files, entry, c) <==> EntryComplaint(n, others, entry, c)
  {
    hide HasNullKey, DistinctKeys, AsRecorded;
  }

  lemma SameNamesComplaints(m: Manifest, files: map<Key, Table>, n: Manifest, others: map<Key, Table>, c: Complaint)
    requires Alike(m, n) && SameTables(m, files, others)
    ensures NamesComplaint(m, files, c) <==> NamesComplaint(n, others, c)
  {
    SameReads(m, files, n, others);
    assert ShardTables(m, files) == ShardTables(n, others);
    assert ShardKeys(m, files) == ShardKeys(n, others);
    assert m.names.(failedShards := []) == n.names.(failedShards := []);
    hide ShardTables, ShardKeys, TableAt, KeySet, SameTables, Alike;
  }

  lemma SameUniverseComplaints(m: Manifest, files: map<Key, Table>, n: Manifest, others: map<Key, Table>, c: Complaint)
    requires m.partitions == n.partitions && m.capabilities == n.capabilities && m.resolutions == n.resolutions
    requires SameTables(m, files, others)
    ensures UniverseComplaint(m, files, c) <==> UniverseComplaint(n, others, c)
  {
    SameReads(m, files, n, others);
    SameKnown(m, n);
    hide TableAt, Readable, SessionsOf, SameTables, Codes, PitCodes, AllKnown;
  }

  lemma SameKnown(m: Manifest, n: Manifest)
    requires m.resolutions == n.resolutions
    ensures forall codes, rows :: AllKnown(m, codes, rows) <==> AllKnown(n, codes, rows)
  {
    assert forall codes, code :: KnownCode(m, codes, code) <==> KnownCode(n, codes, code);
    hide KnownCode;
  }

  lemma SamePresenceComplaints(m: Manifest, files: map<Key, Table>, n: Manifest, others: map<Key, Table>, c: Complaint)
    requires m.partitions == n.partitions && m.capabilities == n.capabilities && SameTables(m, files, others)
    ensures PresenceComplaint(m, files, c) <==> PresenceComplaint(n, others, c)
    ensures CapabilityComplaint(m, files, c) <==> CapabilityComplaint(n, others, c)
  {
    hide TableAt, Readable, SessionsOf, SameTables;
    SameReads(m, files, n, others);
  }

  lemma SameRangeComplaints(config: Config, m: Manifest, files: map<Key, Table>, n: Manifest, others: map<Key, Table>, c: Complaint)
    requires m.partitions == n.partitions && m.calendar == n.calendar && SameTables(m, files, others)
    ensures RangeComplaint(config, m, files, c) <==> RangeComplaint(config, n, others, c)
  {
    hide TableAt, SessionsOf, SameTables, CoversSessions, CalendarCovers, Sessions;
    SameReads(m, files, n, others);
  }

  lemma SameLedgerComplaints(m: Manifest, files: map<Key, Table>, n: Manifest, others: map<Key, Table>, c: Complaint)
    requires m.partitions == n.partitions && m.resolutions == n.resolutions && m.auditedOver == n.auditedOver
    requires SameTables(m, files, others)
    ensures LedgerComplaint(m, files, c) <==> LedgerComplaint(n, others, c)
  {
    SameReads(m, files, n, others);
    hide TableAt, SameTables, UnexplainedDaily, Codes;
  }

  lemma SameComplaints(config: Config, m: Manifest, files: map<Key, Table>, n: Manifest, others: map<Key, Table>)
    requires Alike(m, n) && SameTables(m, files, others)
    ensures forall c :: PlainComplaint(config, m, files, c) <==> PlainComplaint(config, n, others, c)
  {
    hide PartitionComplaint, PresenceComplaint, UniverseComplaint, RangeComplaint, CapabilityComplaint, NamesComplaint, LedgerComplaint, SameTables;
    forall c ensures PlainComplaint(config, m, files, c) <==> PlainComplaint(config, n, others, c) {
      SamePartitionComplaints(m, files, n, others, c);
      SameNamesComplaints(m, files, n, others, c);
      SamePresenceComplaints(m, files, n, others, c);
      SameUniverseComplaints(m, files, n, others, c);
      SameRangeComplaints(config, m, files, n, others, c);
      SameLedgerComplaints(m, files, n, others, c);
    }
  }

  /** The status adds no objection of its own to a manifest that is completed rightly. */
  lemma StatusAddsNothing(config: Config, m: Manifest, files: map<Key, Table>)
    requires m.completed ==> !RequiredFailed(m)
    ensures Objects(config, m, files) <==> exists c :: PlainComplaint(config, m, files, c)
    ensures forall d :: d in Named(config, m, files) <==>
      d in OPTIONAL_DATASETS && exists c :: PlainComplaint(config, m, files, c) && d in Mentions(c)
  {
    hide PlainComplaint, RequiredFailed;
    forall c | PlainComplaint(config, m, files, c) ensures Complains(config, m, files, c) {
    }
    forall d, c | Complains(config, m, files, c) && d in Mentions(c) ensures PlainComplaint(config, m, files, c) {
    }
  }

  lemma SameObjections(config: Config, m: Manifest, files: map<Key, Table>, n: Manifest, others: map<Key, Table>)
    requires Alike(m, n) && SameTables(m, files, others)
    requires (m.completed ==> !RequiredFailed(m)) && (n.completed ==> !RequiredFailed(n))
    ensures Objects(config, m, files) <==> Objects(config, n, others)
    ensures Named(config, m, files) == Named(config, n, others)
  {
    hide PlainComplaint, RequiredFailed, Objects, Named, Alike, SameTables, Mentions;
    SameComplaints(config, m, files, n, others);
    StatusAddsNothing(config, m, files);
    StatusAddsNothing(config, n, others);
  }

  // ----- The days that decide the status

  /** A listed day with a symbol absent from the stock master. */
  predicate AbsentDay(entry: Entry) {
    entry.key.dataset == Daily && AbsentIn(entry.audit)
  }

  /** If the listed days hold absent symbols at all, one such day is not reused. */
  predicate NotesAgain(previous: map<Key, Entry>, listed: seq<Entry>) {
    (exists entry :: entry in listed && AbsentDay(entry)) ==>
      exists entry :: entry in listed && AbsentDay(entry) && entry.key !in previous
  }

  lemma DaysListed(e: Env, files: map<Key, Table>, w: Work, date: string)
    requires Ended(TruthOf(e), files, w) && date in TruthOf(e).dates
    ensures var t, key := TruthOf(e), Key(Daily, Session(date));
      exists entry :: entry in w.m.partitions && entry.key == key && entry.audit == t.audit(key)
  {
    hide TruthOf, Faithful, Hashed, Covers, ResolutionsRight;
    var t := TruthOf(e);
    var i :| 0 <= i < |t.dates| && t.dates[i] == date;
    var entry := w.m.partitions[2 + 2 * i];
    assert entry.key == PlanKey(t, 2 + 2 * i) == Key(Daily, Session(date));
    assert entry in w.m.partitions;
  }

  lemma ListedDays(e: Env, files: map<Key, Table>, w: Work, entry: Entry)
    requires Ended(TruthOf(e), files, w) && entry in w.m.partitions && entry.key.dataset == Daily
    ensures var t := TruthOf(e);
      entry.key.tag.Session? && entry.key.tag.date in t.dates && entry.audit == t.audit(entry.key)
  {
    var t := TruthOf(e);
    assert t.content(entry.key) == Content(e, t.dates, t.unknown, entry.key);
    hide TruthOf, FreshRows, Known, Stocks, Faithful, Hashed, Lists;
  }

  lemma NotesByEntry(e: Env, a: Attempt, files: map<Key, Table>, w: Work)
    requires Ended(TruthOf(e), files, w)
    ensures (exists date :: date in TruthOf(e).dates && NotesDay(TruthOf(e), a, date)) <==>
      exists entry :: entry in w.m.partitions && AbsentDay(entry) && entry.key !in a.previous
  {
    hide TruthOf, Ended, AbsentIn;
    var t := TruthOf(e);
    forall date | date in t.dates && NotesDay(t, a, date)
      ensures exists entry :: entry in w.m.partitions && AbsentDay(entry) && entry.key !in a.previous
    {
      DaysListed(e, files, w, date);
    }
    forall entry | entry in w.m.partitions && AbsentDay(entry) && entry.key !in a.previous
      ensures exists date :: date in t.dates && NotesDay(t, a, date)
    {
      ListedDays(e, files, w, entry);
      assert entry.key == Key(Daily, Session(entry.key.tag.date)) && NotesDay(t, a, entry.key.tag.date);
    }
  }

  /** The status of a first manifest, read off its own listing. */
  lemma StatusByEntry(e: Env, a: Attempt, files: map<Key, Table>, k: nat)
    requires Ready(TruthOf(e), a, files, k)
    ensures var w := Draft(e, a, files);
      w.m.completed <==>
        w.stopped.None? && !exists entry :: entry in w.m.partitions && AbsentDay(entry) && entry.key !in a.previous
  {
    hide Draft, TruthOf, Ready, NotesDay, AbsentDay, Ended;
    DraftStatus(e, a, files, k);
    if Draft(e, a, files).stopped.None? {
      DraftEnds(e, a, files, k);
      NotesByEntry(e, a, files, Draft(e, a, files));
    }
  }

  lemma DraftRecords(e: Env, a: Attempt, files: map<Key, Table>)
    ensures var w := Draft(e, a, files);
      && (w.m.completed ==> w.stopped.None? && !RequiredFailed(w.m))
      && (w.stopped.None? ==> w.m.auditedOver == w.m.partitions)
  {
    hide Required, OptionalMarket, NamesPhase, Sessions, RequiredFailed;
    var required := Required(e, a, files);
    if required.stopped.Some? || !e.config.includeOptional {
      FinishRecords(a, required);
    } else {
      var stocks, sessions := required.m.master, Sessions(required.m.calendar);
      FinishRecords(a, NamesPhase(e, a, stocks, OptionalMarket(e, a, stocks, sessions, required)));
    }
  }

  lemma FinishRecords(a: Attempt, w: Work)
    ensures var f := Finish(a, w);
      && (f.m.completed ==> f.stopped.None? && !RequiredFailed(f.m))
      && (f.stopped.None? ==> f.m.auditedOver == f.m.partitions)
  {
    SameNotes(w.m, w.m.(auditedOver := w.m.partitions, completed := !RequiredFailed(w.m)));
  }

  /** An absent symbol is an objection of the validator. */
  lemma AbsentIsObjected(e: Env, files: map<Key, Table>, w: Work, entry: Entry)
    requires Ended(TruthOf(e), files, w) && w.m.auditedOver == w.m.partitions
    requires entry in w.m.partitions && AbsentDay(entry)
    ensures Objects(e.config, w.m, w.files)
  {
    hide TruthOf, Ended, AbsentIn;
    ListedDays(e, files, w, entry);
    AuditsOf(e, entry.key);
    AbsentUnexplained(w.m.auditedOver, entry);
    hide PartitionComplaint, PresenceComplaint, UniverseComplaint, RangeComplaint, CapabilityComplaint, NamesComplaint, UnexplainedDaily;
    assert Complains(e.config, w.m, w.files, Unexplained);
  }

  lemma AbsentUnexplained(audited: seq<Entry>, entry: Entry)
    requires entry in audited && AbsentDay(entry) && AbsentStockBasic in entry.audit.value.examples
    ensures UnexplainedDaily(audited)
  {
    assert AbsentStockBasic in [AbsentStockBasic, UnknownKind];
    assert UnexplainedIn(entry.audit.value);
  }

  // ----- Working in the local validation

  /** Demoting the datasets that the validator names changes no capability. */
  ghost predicate NothingToDemote(config: Config, m: Manifest, files: map<Key, Table>) {
    forall d :: d in Named(config, m, files) ==> CapabilityOf(m, d) == Incomplete
  }

  lemma DemoteSame(capabilities: map<Dataset, Capability>, named: set<Dataset>)
    ensures Demote(capabilities, named) == capabilities <==>
      forall d :: d in named ==> d in capabilities && capabilities[d] == Incomplete
  {
    if forall d :: d in named ==> d in capabilities && capabilities[d] == Incomplete {
      assert Demote(capabilities, named) == capabilities;
    } else {
      var d :| d in named && !(d in capabilities && capabilities[d] == Incomplete);
      assert d in Demote(capabilities, named) && Demote(capabilities, named)[d] == Incomplete;
    }
  }

  lemma SettledAgree(e: Env, a: Attempt, w: Work, b: Attempt, v: Work)
    requires Alike(w.m, v.m) && SameTables(w.m, w.files, v.files)
    requires (w.m.completed ==> !RequiredFailed(w.m)) && (v.m.completed ==> !RequiredFailed(v.m))
    requires w.m.completed != v.m.completed ==> Objects(e.config, v.m, v.files)
    ensures var s, u := Settled(e, a, w).m, Settled(e, b, v).m;
      && (s.capabilities == u.capabilities <==> w.m.completed == v.m.completed || NothingToDemote(e.config, v.m, v.files))
      && (s.completed == u.completed <==> w.m.completed == v.m.completed || Named(e.config, v.m, v.files) == {})
  {
    SameObjections(e.config, w.m, w.files, v.m, v.files);
    AlikeCapabilities(w.m, v.m);
    hide Objects, Named, RequiredFailed, Alike, SameTables, Demote, DemotionNotes;
    DemoteSame(v.m.capabilities, Named(e.config, v.m, v.files));
  }

  lemma AlikeCapabilities(m: Manifest, n: Manifest)
    requires Alike(m, n)
    ensures m.capabilities == n.capabilities
  {
  }

  /** Only the capabilities in the digest can change. */
  lemma SettledDigest(e: Env, a: Attempt, w: Work)
    ensures var s := Settled(e, a, w).m; DigestOf(s) == DigestOf(w.m).(capabilities := s.capabilities)
  {
    hide Objects, Named, Demote, DemotionNotes;
  }

  lemma DigestsAgree(m: Manifest, n: Manifest, p: Digest, q: Digest)
    requires Alike(m, n) && p == DigestOf(m).(capabilities := p.capabilities) && q == DigestOf(n).(capabilities := q.capabilities)
    ensures p == q <==> DigestOf(m) == DigestOf(n) && p.capabilities == q.capabilities
  {
    AlikeCapabilities(m, n);
    hide Alike;
  }

  // ----- Main results

  /** Two undisturbed builds, each on its own sound directory, agree on the outcome, the
      listing and the files, and exactly when on status and digest. */
  lemma BuildsAlike(e: Env, a: Attempt, files: map<Key, Table>, k: nat, b: Attempt, others: map<Key, Table>, l: nat)
    requires Ready(TruthOf(e), a, files, k) && Ready(TruthOf(e), b, others, l) && a.fails == NO_FAILURES && b.fails == NO_FAILURES
    requires b.previous == map[]
    ensures var w, v, draft := Build(e, a, files), Build(e, b, others), Draft(e, b, others);
      var sameStatus := v.stopped.Some? || NotesAgain(a.previous, draft.m.partitions);
      && w.stopped == v.stopped && w.m.partitions == v.m.partitions && Hashed(w) && Hashed(v)
      && (w.m.completed == v.m.completed <==> sameStatus || Named(e.config, draft.m, draft.files) == {})
      && (DigestOf(w.m) == DigestOf(v.m) <==>
            (SameStamps(a, b, v.m.names.failedShards)) && (sameStatus || NothingToDemote(e.config, draft.m, draft.files)))
  {
    hide Ready, TruthOf, Draft, Settled, Hashed, Alike, RequiredFailed, AbsentDay, Objects, Named, NothingToDemote, DigestOf, SameTables;
    var w, v := Draft(e, a, files), Draft(e, b, others);
    DraftsReady(e, a, files, k, b, others, l);
    StatusByEntry(e, a, files, k);
    StatusByEntry(e, b, others, l);
    DraftRecords(e, a, files);
    DraftRecords(e, b, others);
    if w.m.completed != v.m.completed {
      DivergenceIsObjected(e, b, others, l);
    }
    SettledAgree(e, a, w, b, v);
    SettledKeeps(e, a, w);
    SettledKeeps(e, b, v);
    SettledDigest(e, a, w);
    SettledDigest(e, b, v);
    DigestsAgree(w.m, v.m, DigestOf(Settled(e, a, w).m), DigestOf(Settled(e, b, v).m));
    SettledHashed(e, a, w);
    SettledHashed(e, b, v);
  }

  lemma SettledHashed(e: Env, a: Attempt, w: Work)
    requires Hashed(w)
    ensures Hashed(Settled(e, a, w))
  {
    hide Settled;
    SettledKeeps(e, a, w);
  }

  lemma DraftsReady(e: Env, a: Attempt, files: map<Key, Table>, k: nat, b: Attempt, others: map<Key, Table>, l: nat)
    requires Ready(TruthOf(e), a, files, k) && Ready(TruthOf(e), b, others, l) && a.fails == NO_FAILURES && b.fails == NO_FAILURES
    ensures var w, v := Draft(e, a, files), Draft(e, b, others);
      && Alike(w.m, v.m) && w.stopped == v.stopped && w.m.partitions == v.m.partitions
      && Hashed(w) && Hashed(v) && SameTables(w.m, w.files, v.files)
      && (DigestOf(w.m) == DigestOf(v.m) <==> SameStamps(a, b, v.m.names.failedShards))
  {
    hide Ready, TruthOf, Draft, Stamped, Unstamped;
    var w, v := Draft(e, a, files), Draft(e, b, others);
    var r := DraftLeaves(e, a, files, k);
    var q := DraftLeaves(e, b, others, l);
    DraftsAlike(e, a, files, k, b, others, l);
    HashedSame(w, v);
    DigestsByStamps(a, w.m, b, v.m);
  }

  lemma DivergenceIsObjected(e: Env, b: Attempt, others: map<Key, Table>, l: nat)
    requires Ready(TruthOf(e), b, others, l)
    requires var v := Draft(e, b, others); v.stopped.None? && exists entry :: entry in v.m.partitions && AbsentDay(entry)
    ensures var v := Draft(e, b, others); Objects(e.config, v.m, v.files)
  {
    hide Ready, TruthOf, Draft, AbsentDay, Objects, Ended;
    var v := Draft(e, b, others);
    DraftEnds(e, b, others, l);
    DraftRecords(e, b, others);
    var entry :| entry in v.m.partitions && AbsentDay(entry);
    AbsentIsObjected(e, others, v, entry);
  }
}
