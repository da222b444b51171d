/** The separate validator and the builder agree on the stock universe of every market
    partition, and on the point-in-time universe of every session. */
module SnapshotValidate {
  import opened Outcomes
  import opened Texts
  import opened SnapshotRows
  import opened SnapshotModel
  import opened SnapshotValidator
  import opened SnapshotResume
  import opened SnapshotOptional
  import opened SnapshotRecovery

  function RowsOf(files: map<Key, Table>, key: Key): seq<Row> {
    if key in files then files[key].rows else []
  }

  /** A build that ran through has resolved every unknown code of every session. */
  lemma DraftEnds(e: Env, a: Attempt, files: map<Key, Table>, k: nat)
    requires Ready(TruthOf(e), a, files, k) && Draft(e, a, files).stopped.None?
    ensures TruthOf(e).dates != [] && Ended(TruthOf(e), files, Draft(e, a, files))
  {
    var r := RequiredEnds(e, a, files, k);
    var t, w := TruthOf(e), Required(e, a, files);
    hide Required, OptionalMarket, NamesPhase, Ended, EndsAt, Ready;
    if w.stopped.None? {
      ThroughComplete(e, a, files, w, r, k);
      if e.config.includeOptional {
        OptionalEnds(e, a, files, w, k);
        FinishEnds(t, a, files, NamesPhase(e, a, Stocks(e), OptionalMarket(e, a, Stocks(e), t.dates, w)));
      } else {
        FinishEnds(t, a, files, w);
      }
    }
  }

  lemma ThroughComplete(e: Env, a: Attempt, files: map<Key, Table>, w: Work, r: nat, k: nat)
    requires Ready(TruthOf(e), a, files, k) && EndsAt(e, a, files, w, r, k) && w.stopped.None?
    ensures r == PlanLength(TruthOf(e)) && TruthOf(e).dates != []
    ensures Complete(TruthOf(e), files, w) && Ended(TruthOf(e), files, w)
  {
    var t := TruthOf(e);
    RequiredComplete(t, a, files, w, k);
    CompleteHashed(t, files, w);
  }

  lemma OptionalEnds(e: Env, a: Attempt, files: map<Key, Table>, w: Work, k: nat)
    requires Ready(TruthOf(e), a, files, k) && EndsAt(e, a, files, w, PlanLength(TruthOf(e)), k) && w.stopped.None?
    ensures w.m.master == Stocks(e) && Sessions(w.m.calendar) == TruthOf(e).dates
    ensures Ended(TruthOf(e), files, NamesPhase(e, a, Stocks(e), OptionalMarket(e, a, Stocks(e), TruthOf(e).dates, w)))
  {
    OptionalLeaves(e, a, files, w, k);
    hide Complete, OptionalMarket, NamesPhase, Ended;
    NamesEnd(e, a, files, OptionalMarket(e, a, Stocks(e), TruthOf(e).dates, w), k);
  }

  lemma FinishEnds(t: Truth, a: Attempt, files: map<Key, Table>, w: Work)
    requires Ended(t, files, w)
    ensures Ended(t, files, Finish(a, w))
  {
  }

  /** Rows kept by the filter are known to the validator, given the resolutions in force. */
  lemma KeptKnown(e: Env, key: Key, known: map<string, Resolution>, m: Manifest, row: Row)
    requires row in Filtered(UniverseFor(Stocks(e), known, key), MarketRows(e, key)).0
    requires forall code :: code in known ==> code in m.resolutions && m.resolutions[code] == known[code]
    ensures KnownCode(m, PitCodes(Stocks(e), if key.tag.Session? then key.tag.date else ""), Text(row, TsCode))
  {
    KeptRows(UniverseFor(Stocks(e), known, key), MarketRows(e, key), row);
  }

  lemma PitInMaster(stocks: seq<Row>, date: string)
    ensures PitCodes(stocks, date) <= Codes(stocks)
  {
  }

  lemma MarketContentKept(e: Env, key: Key, row: Row)
    requires IsMarket(key.dataset)
    requires var t := TruthOf(e); t.content(key).Success? && row in t.content(key).value
    ensures key.tag.Session?
    ensures var t := TruthOf(e);
      row in Filtered(UniverseFor(Stocks(e), Known(e, t.dates, t.unknown, key), key), MarketRows(e, key)).0
  {
    var t := TruthOf(e);
    var known := Known(e, t.dates, t.unknown, key);
    var kept := Filtered(UniverseFor(Stocks(e), known, key), MarketRows(e, key)).0;
    assert t.content(key) == Content(e, t.dates, t.unknown, key);
    DedupMeaning(key.dataset, kept, {});
    assert t.content(key) == FreshRows(e, Stocks(e), t.dates, known, key);
    assert t.content(key).value == Dedup(key.dataset, kept).value;
  }

  lemma KnownResolved(e: Env, key: Key, m: Manifest)
    requires m.resolutions == ResolveAll(All(TruthOf(e).dates, TruthOf(e).unknown), TruthOf(e).resolve)
    ensures var t := TruthOf(e);
      forall code :: code in Known(e, t.dates, t.unknown, key) ==>
        code in m.resolutions && m.resolutions[code] == Known(e, t.dates, t.unknown, key)[code]
  {
  }

  lemma MarketRowKnown(e: Env, files: map<Key, Table>, w: Work, key: Key, row: Row)
    requires Ended(TruthOf(e), files, w) && IsMarket(key.dataset)
    requires row in RowsOf(w.files, key)
    ensures key.tag.Session? && KnownCode(w.m, PitCodes(Stocks(e), key.tag.date), Text(row, TsCode))
  {
    var t := TruthOf(e);
    assert t.content(key).Success? && row in t.content(key).value;
    MarketContentKept(e, key, row);
    KnownResolved(e, key, w.m);
    KeptKnown(e, key, Known(e, t.dates, t.unknown, key), w.m, row);
  }

  lemma RangeFiles(e: Env, files: map<Key, Table>, w: Work)
    requires Ended(TruthOf(e), files, w)
    ensures RowsOf(w.files, STOCK_KEY) == Stocks(e)
    ensures Sessions(RowsOf(w.files, CALENDAR_KEY)) == TruthOf(e).dates
  {
    var t := TruthOf(e);
    assert PlanKey(t, 0) == STOCK_KEY && PlanKey(t, 1) == CALENDAR_KEY;
    assert w.m.partitions[0] in w.m.partitions && w.m.partitions[1] in w.m.partitions;
    RangeContent(e, [], [], map[], STOCK_KEY);
    RangeContent(e, [], [], map[], CALENDAR_KEY);
  }

  /** On a sound directory, the validator finds in what a build wrote that ran through no
      market partition with a symbol outside the stock master, and no session with a daily
      symbol outside its point-in-time universe. */
  lemma BuildSatisfies(e: Env, a: Attempt, files: map<Key, Table>, k: nat)
    requires Ready(TruthOf(e), a, files, k) && Build(e, a, files).stopped.None?
    ensures var w := Build(e, a, files);
      && (forall dataset :: IsMarket(dataset) ==> !Complains(e.config, w.m, w.files, OutsideMaster(dataset)))
      && (forall date :: !Complains(e.config, w.m, w.files, OutsidePit(date)))
  {
    hide Draft, Settled, Ready, TruthOf, Complains;
    var draft := Draft(e, a, files);
    SettledKeeps(e, a, draft);
    DraftEnds(e, a, files, k);
    var w := Build(e, a, files);
    SettledEnds(TruthOf(e), files, draft, w);
    EndedSatisfies(e, files, w);
    NoUniverseComplaint(e, files, w);
  }

  lemma SettledEnds(t: Truth, files: map<Key, Table>, w: Work, s: Work)
    requires Ended(t, files, w) && s.files == w.files && s.m.partitions == w.m.partitions && s.m.resolutions == w.m.resolutions
    ensures Ended(t, files, s)
  {
  }

  lemma NoUniverseComplaint(e: Env, files: map<Key, Table>, w: Work)
    requires Ended(TruthOf(e), files, w) && TruthOf(e).dates != []
    requires forall key: Key :: IsMarket(key.dataset) ==>
      AllKnown(w.m, Codes(RowsOf(w.files, STOCK_KEY)), RowsOf(w.files, key))
    requires forall date :: AllKnown(w.m, PitCodes(RowsOf(w.files, STOCK_KEY), date), RowsOf(w.files, SessionKey(Daily, date)))
    ensures forall dataset :: IsMarket(dataset) ==> !Complains(e.config, w.m, w.files, OutsideMaster(dataset))
    ensures forall date :: !Complains(e.config, w.m, w.files, OutsidePit(date))
  {
    hide Ended, TruthOf, Complains, UniverseComplaint, AllKnown, TableAt;
    StockListed(e, files, w);
    forall dataset | IsMarket(dataset) ensures !Complains(e.config, w.m, w.files, OutsideMaster(dataset)) {
      OnlyUniverse(e.config, w.m, w.files, OutsideMaster(dataset));
      MasterFine(w.m, w.files, dataset);
    }
    forall date ensures !Complains(e.config, w.m, w.files, OutsidePit(date)) {
      OnlyUniverse(e.config, w.m, w.files, OutsidePit(date));
      PitFine(w.m, w.files, date);
    }
  }

  lemma OnlyUniverse(config: Config, m: Manifest, files: map<Key, Table>, c: Complaint)
    requires c.OutsideMaster? || c.OutsidePit?
    ensures Complains(config, m, files, c) <==> UniverseComplaint(m, files, c)
  {
    hide UniverseComplaint, TableAt, SessionsOf, CapabilityOf, Readable;
  }

  lemma MasterFine(m: Manifest, files: map<Key, Table>, dataset: Dataset)
    requires Readable(m, files, STOCK_KEY) && IsMarket(dataset)
    requires forall key: Key :: IsMarket(key.dataset) ==> AllKnown(m, Codes(RowsOf(files, STOCK_KEY)), RowsOf(files, key))
    ensures !UniverseComplaint(m, files, OutsideMaster(dataset))
  {
    NothingKnown(m);
    hide AllKnown, Codes, HasKey;
    forall entry | entry in m.partitions && entry.key.dataset == dataset
      ensures AllKnown(m, Codes(TableAt(m, files, STOCK_KEY)), TableAt(m, files, entry.key))
    {
      assert TableAt(m, files, entry.key) == [] || TableAt(m, files, entry.key) == RowsOf(files, entry.key);
    }
  }

  lemma PitFine(m: Manifest, files: map<Key, Table>, date: string)
    requires Readable(m, files, STOCK_KEY)
    requires AllKnown(m, PitCodes(RowsOf(files, STOCK_KEY), date), RowsOf(files, SessionKey(Daily, date)))
    ensures !UniverseComplaint(m, files, OutsidePit(date))
  {
    NothingKnown(m);
    hide AllKnown, PitCodes, HasKey, SessionsOf;
  }

  lemma NothingKnown(m: Manifest)
    ensures forall codes :: AllKnown(m, codes, [])
  {
  }

  lemma StockListed(e: Env, files: map<Key, Table>, w: Work)
    requires Ended(TruthOf(e), files, w)
    ensures Readable(w.m, w.files, STOCK_KEY)
  {
    assert PlanKey(TruthOf(e), 0) == STOCK_KEY && w.m.partitions[0] in w.m.partitions;
  }

  lemma EndedSatisfies(e: Env, files: map<Key, Table>, w: Work)
    requires Ended(TruthOf(e), files, w)
    ensures forall key: Key :: IsMarket(key.dataset) ==>
      AllKnown(w.m, Codes(RowsOf(w.files, STOCK_KEY)), RowsOf(w.files, key))
    ensures forall date :: AllKnown(w.m, PitCodes(RowsOf(w.files, STOCK_KEY), date), RowsOf(w.files, SessionKey(Daily, date)))
  {
    RangeFiles(e, files, w);
    hide Ended, KnownCode;
    forall key: Key, row | IsMarket(key.dataset) && row in RowsOf(w.files, key)
      ensures KnownCode(w.m, Codes(Stocks(e)), Text(row, TsCode))
    {
      MarketRowKnown(e, files, w, key, row);
      PitInMaster(Stocks(e), key.tag.date);
      KnownMore(w.m, PitCodes(Stocks(e), key.tag.date), Codes(Stocks(e)), Text(row, TsCode));
    }
    forall date, row | row in RowsOf(w.files, SessionKey(Daily, date))
      ensures KnownCode(w.m, PitCodes(Stocks(e), date), Text(row, TsCode))
    {
      MarketRowKnown(e, files, w, SessionKey(Daily, date), row);
    }
  }

  lemma KnownMore(m: Manifest, few: set<string>, many: set<string>, code: string)
    requires few <= many && KnownCode(m, few, code)
    ensures KnownCode(m, many, code)
  {
  }
}
