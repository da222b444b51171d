/** Sequences of bundles through both stores, and the facts extracted from a daily report. */
module StoreHistory {
  import opened Outcomes
  import opened Store
  import opened StoreRefinement

  // ----- Runs

  function Run(m: Rows, bundles: seq<Bundle>, hash: string -> string): Rows {
    if bundles == [] then m
    else Persist(Run(m, bundles[..|bundles| - 1], hash), bundles[|bundles| - 1], hash)
  }

  /** The dictionaries after a sequence of bundles, and which bundles were accepted. */
  function MemoryRun(bundles: seq<Bundle>, hash: string -> string): (Tables, seq<bool>) {
    if bundles == [] then (EMPTY_TABLES, [])
    else
      var (t, accepted) := MemoryRun(bundles[..|bundles| - 1], hash);
      var after := Written(t, bundles[|bundles| - 1], hash);
      (if after.Some? then after.value else t, accepted + [after.Some?])
  }

  /** The committed tables after a sequence of bundles, and which bundles were accepted. */
  function DatabaseRun(bundles: seq<Bundle>, hash: string -> string): (Rows, seq<bool>) {
    if bundles == [] then (map[], [])
    else
      var (db, accepted) := DatabaseRun(bundles[..|bundles| - 1], hash);
      var after := Inserted(db, bundles[|bundles| - 1], hash);
      (if after.Some? then after.value else db, accepted + [after.Some?])
  }

  /** Both stores accept and reject the same bundles and hold the same rows, which are those
      of the abstract map. */
  lemma {:induction false} TwoStoresAgree(bundles: seq<Bundle>, hash: string -> string)
    requires forall i :: 0 <= i < |bundles| ==> Supported(bundles[i]) && Keyed(bundles[i])
    ensures MemoryRun(bundles, hash).1 == DatabaseRun(bundles, hash).1
    ensures DatabaseRun(bundles, hash).0 == Run(map[], bundles, hash)
    ensures Same(MemoryRun(bundles, hash).0, Run(map[], bundles, hash))
    ensures MemoryRun(bundles, hash).0.facts.Keys == FACT_TABLES
  {
    hide Supported, Keyed, Written, Inserted, Writes;
    if bundles == [] {
    } else {
      hide Same;
      var front, last := bundles[..|bundles| - 1], bundles[|bundles| - 1];
      TwoStoresAgree(front, hash);
      DictionariesRefine(MemoryRun(front, hash).0, Run(map[], front, hash), last, hash);
      RelationsRefine(Run(map[], front, hash), last, hash);
    }
  }

  /** What each store accepts. Both refuse a contradiction among the rows they would write and
      the stored ones: the dictionaries file every fact under the bundle's session id, the
      database under its own. The dictionaries refuse an unsupported table even without rows;
      the database refuses a row without an index, without a session id, in an unsupported
      table, or of a session that is not stored. */
  lemma StoresAcceptIff(t: Tables, db: Rows, b: Bundle, hash: string -> string)
    requires Same(t, db) && t.facts.Keys == FACT_TABLES && (Linked(db) || Owned(b))
    ensures Written(t, b, hash).Some? <==> Supported(b) && Acceptable(db, Writes(b, hash))
    ensures Inserted(db, b, hash).Some? <==> Placed(db, b) && Acceptable(db, OwnWrites(b, hash))
  {
    hide Same, Inserted, Acceptable, Placed, OwnWrites;
    AcceptedIff(db, Writes(b, hash));
    AcceptedIff(db, OwnWrites(b, hash));
    PlacedRefines(db, b, hash);
    if Supported(b) {
      DictionariesRefine(t, db, b, hash);
    } else if b.sessionId.Some? {
      UnsupportedRaises(t.facts, b.sessionId.value, b.facts, hash);
    }
  }

  lemma {:induction false} HeadKeepsLinked(db: Rows, rows: seq<(Slot, Entry)>)
    requires Linked(db)
    ensures InsertAll(db, rows).Some? ==> Linked(InsertAll(db, rows).value)
    decreases |rows|
  {
    if rows != [] {
      var next := CheckAndInsert(db, rows[0].0, rows[0].1);
      if next.Some? { HeadKeepsLinked(next.value, rows[1..]); }
    }
  }

  lemma {:induction false} RowsKeepLinked(db: Rows, table: string, rows: seq<Row>, hash: string -> string)
    requires Linked(db)
    ensures InsertRows(db, table, rows, hash).Some? ==> Linked(InsertRows(db, table, rows, hash).value)
    decreases |rows|
  {
    if rows != [] {
      var next := InsertRow(db, table, rows[0], hash);
      if next.Some? { RowsKeepLinked(next.value, table, rows[1..], hash); }
    }
  }

  lemma {:induction false} FactsKeepLinked(db: Rows, entries: seq<(string, seq<Row>)>, hash: string -> string)
    requires Linked(db)
    ensures InsertFacts(db, entries, hash).Some? ==> Linked(InsertFacts(db, entries, hash).value)
    decreases |entries|
  {
    hide Linked;
    if entries != [] {
      RowsKeepLinked(db, entries[0].0, entries[0].1, hash);
      var next := InsertRows(db, entries[0].0, entries[0].1, hash);
      if next.Some? { FactsKeepLinked(next.value, entries[1..], hash); }
    }
  }

  /** In every reachable database each row refers to a stored session. */
  lemma {:induction false} EveryDatabaseIsLinked(bundles: seq<Bundle>, hash: string -> string)
    ensures Linked(DatabaseRun(bundles, hash).0)
  {
    if bundles != [] {
      var front, b := bundles[..|bundles| - 1], bundles[|bundles| - 1];
      EveryDatabaseIsLinked(front, hash);
      var db := DatabaseRun(front, hash).0;
      if b.sessionId.Some? {
        var head := SessionRows(b.sessionId.value, b, hash);
        HeadKeepsLinked(db, head);
        if InsertAll(db, head).Some? { FactsKeepLinked(InsertAll(db, head).value, b.facts, hash); }
      }
    }
  }

  /** In the supported tables, and for rows that carry the bundle's session id, the stores
      differ exactly on rows without an index. */
  lemma DatabaseAcceptsIff(t: Tables, db: Rows, b: Bundle, hash: string -> string)
    requires Same(t, db) && t.facts.Keys == FACT_TABLES && Owned(b) && Supported(b)
    ensures Inserted(db, b, hash).Some? <==> Written(t, b, hash).Some? && Indexed(b)
  {
    hide Same, Inserted, Written, Acceptable, Owned, OwnWrites, Placed;
    StoresAcceptIff(t, db, b, hash);
    OwnedWrites(db, b, hash);
    if b.sessionId.None? { NoSession(db, b, hash); }
  }

  lemma NoSession(db: Rows, b: Bundle, hash: string -> string)
    requires b.sessionId.None?
    ensures !Acceptable(db, Writes(b, hash))
  {
    assert Writes(b, hash)[0].Bad?;
  }

  /** With rows keyed to the bundle they differ exactly on unsupported fact tables. */
  lemma MemoryAcceptsIff(t: Tables, db: Rows, b: Bundle, hash: string -> string)
    requires Same(t, db) && t.facts.Keys == FACT_TABLES && Keyed(b)
    ensures Written(t, b, hash).Some? <==> Inserted(db, b, hash).Some? && Supported(b)
  {
    hide Same, Inserted, Written, Acceptable, Owned, OwnWrites, Placed;
    StoresAcceptIff(t, db, b, hash);
    OwnedWrites(db, b, hash);
    if b.sessionId.None? { NoSession(db, b, hash); }
  }

  lemma {:induction false} UnsupportedRaises(facts: Facts, id: string, entries: seq<(string, seq<Row>)>, hash: string -> string)
    requires exists i :: 0 <= i < |entries| && entries[i].0 !in facts
    ensures WriteFacts(facts, id, entries, hash) == None
    decreases |entries|
  {
    var i :| 0 <= i < |entries| && entries[i].0 !in facts;
    if entries[0].0 in facts {
      var w := WriteRows(facts, entries[0].0, id, entries[0].1, hash);
      assert entries[1..][i - 1] == entries[i];
      if w.Some? { UnsupportedRaises(w.value, id, entries[1..], hash); }
    }
  }

  /** An unsupported table without rows, and a row without an index, are told apart. */
  lemma StoresCanDisagree(hash: string -> string)
    ensures var b := Bundle(Some("s"), Plain("s"), "r", "l", "a", [("orders", [])]);
      Written(EMPTY_TABLES, b, hash) == None && Inserted(map[], b, hash).Some?
    ensures var row := Row(Some("s"), Some("o"), None, Plain("p"));
      var b := Bundle(Some("s"), Plain("s"), "r", "l", "a", [("paper_orders", [row])]);
      Written(EMPTY_TABLES, b, hash).Some? && Inserted(map[], b, hash) == None
  {
    var b := Bundle(Some("s"), Plain("s"), "r", "l", "a", [("orders", [])]);
    var c := b.(facts := []);
    assert Supported(c) && Keyed(c);
    HeadAccepted(c, hash);
    RelationsRefine(map[], c, hash);
    assert InsertRows(map[], "orders", [], hash) == Some(map[]);
    var row := Row(Some("s"), Some("o"), None, Plain("p"));
    var facts := EMPTY_TABLES.facts;
    assert WriteRow(facts, "paper_orders", "s", row, hash).Some?;
  }

  lemma HeadAccepted(c: Bundle, hash: string -> string)
    requires c.sessionId.Some? && c.facts == []
    ensures PutAll(map[], Writes(c, hash)).Some?
  {
    var writes := Writes(c, hash);
    assert writes == HeadWrites(c.sessionId.value, c, hash);
    AcceptedIff(map[], writes);
  }

  // ----- Append-only and replay

  /** No stored row is ever replaced or removed, whatever is persisted later. */
  lemma {:induction false} NothingIsReplaced(m: Rows, bundles: seq<Bundle>, n: nat, hash: string -> string)
    requires n <= |bundles|
    ensures var earlier, later := Run(m, bundles[..n], hash), Run(m, bundles, hash);
      forall slot :: slot in earlier ==> slot in later && later[slot] == earlier[slot]
    decreases |bundles| - n
  {
    if n == |bundles| {
      assert bundles[..n] == bundles;
    } else {
      NothingIsReplaced(m, bundles, n + 1, hash);
      assert bundles[..n + 1][..n] == bundles[..n];
      var before, b := Run(m, bundles[..n], hash), bundles[n];
      if PutAll(before, Writes(b, hash)).Some? { AcceptedMeans(before, Writes(b, hash)); }
    }
  }

  /** Every row of an accepted bundle is present with the digest it came with. */
  lemma AcceptedRowsPresent(m: Rows, writes: seq<Write>)
    requires PutAll(m, writes).Some?
    ensures Settled(PutAll(m, writes).value, writes)
  {
    AcceptedIff(m, writes);
    AcceptedMeans(m, writes);
    var after := PutAll(m, writes).value;
    forall i | 0 <= i < |writes| ensures after[writes[i].slot].digest == writes[i].entry.digest {
      var slot := writes[i].slot;
      if slot !in m {
        var k :| 0 <= k < |writes| && writes[k] == Put(slot, after[slot]) && forall j :: 0 <= j < k ==> writes[j].slot != slot;
        assert k <= i;
      }
    }
  }

  ghost predicate Settled(m: Rows, writes: seq<Write>) {
    forall i :: 0 <= i < |writes| ==>
      writes[i].Put? && writes[i].slot in m && m[writes[i].slot].digest == writes[i].entry.digest
  }

  lemma {:induction false} SettledChangesNothing(m: Rows, writes: seq<Write>)
    requires Settled(m, writes)
    ensures PutAll(m, writes) == Some(m)
    decreases |writes|
  {
    if writes != [] {
      assert writes[0].Put?;
      SettledChangesNothing(m, writes[1..]);
    }
  }

  lemma SettledStays(earlier: Rows, later: Rows, writes: seq<Write>)
    requires Settled(earlier, writes) && forall slot :: slot in earlier ==> slot in later && later[slot] == earlier[slot]
    ensures Settled(later, writes)
  {
  }

  /** A bundle accepted at any time is accepted again at any later time, and that replay
      changes nothing. */
  lemma ReplayChangesNothing(m: Rows, bundles: seq<Bundle>, n: nat, hash: string -> string)
    requires n < |bundles|
    requires PutAll(Run(m, bundles[..n], hash), Writes(bundles[n], hash)).Some?
    ensures PutAll(Run(m, bundles, hash), Writes(bundles[n], hash)) == Some(Run(m, bundles, hash))
  {
    hide Writes, PutAll, Settled;
    var writes, later := Writes(bundles[n], hash), Run(m, bundles, hash);
    AcceptedRowsPresent(Run(m, bundles[..n], hash), writes);
    assert bundles[..n + 1][..n] == bundles[..n];
    NothingIsReplaced(m, bundles, n + 1, hash);
    assert Run(m, bundles[..n + 1], hash) == PutAll(Run(m, bundles[..n], hash), writes).value;
    SettledStays(Run(m, bundles[..n + 1], hash), later, writes);
    SettledChangesNothing(later, writes);
  }
}
