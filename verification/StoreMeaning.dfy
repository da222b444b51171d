/** What the two stores accept and keep, told by the contents and digests of the rows that a
    bundle brings. */
module StoreMeaning {
  import opened Outcomes
  import opened Store
  import opened StoreRefinement
  import opened StoreHistory

  /** The digest a row is known by: its own, or else that of its content. */
  ghost function Fingerprint(record: Record, hash: string -> string): string {
    match record.digest
    case Some(own) => own
    case None => hash(record.content)
  }

  /** The bundle has this row of facts for this key; `own` says under which session id, the
      row's own or the bundle's. A row without an index counts as the first in a dictionary. */
  ghost predicate HasFact(b: Bundle, own: bool, table: string, id: string, identity: string, index: int, record: Record, i: int, j: int) {
    && 0 <= i < |b.facts| && b.facts[i].0 == table && 0 <= j < |b.facts[i].1|
    && var row := b.facts[i].1[j];
       && (if own then row.sessionId else b.sessionId) == Some(id)
       && row.identity == Some(identity) && row.record == record
       && (row.index.Some? ==> row.index.value == index) && (row.index.None? ==> index == 0)
  }

  /** The rows of a bundle: its session, its three reports, and its facts. */
  ghost predicate Brings(b: Bundle, own: bool, slot: Slot, record: Record) {
    match slot
    case Session(id) => b.sessionId == Some(id) && record == b.session
    case Report(id) => b.sessionId == Some(id) && record == Record(b.report, None)
    case Learning(id) => b.sessionId == Some(id) && record == Record(b.learning, None)
    case Shadow(id) => b.sessionId == Some(id) && record == Record(b.shadow, None)
    case Fact(table, id, identity, index) => exists i, j :: HasFact(b, own, table, id, identity, index, record, i, j)
  }

  /** Every row of facts has an identity, and a session id to be filed under. */
  ghost predicate Identified(b: Bundle, own: bool) {
    forall i, j :: 0 <= i < |b.facts| && 0 <= j < |b.facts[i].1| ==>
      b.facts[i].1[j].identity.Some? && (own ==> b.facts[i].1[j].sessionId.Some?)
  }

  function WritesOf(b: Bundle, own: bool, hash: string -> string): seq<Write> {
    if own then OwnWrites(b, hash) else Writes(b, hash)
  }

  // ----- The rows written are the rows brought

  function WriteOf(own: bool, id: string, table: string, row: Row, hash: string -> string): Write {
    if own then OwnWrite(table, row, hash) else RowWrite(table, id, row, hash)
  }

  function FactWritesOf(own: bool, id: string, entries: seq<(string, seq<Row>)>, hash: string -> string): seq<Write> {
    if own then OwnFactWrites(entries, hash) else FactWrites(id, entries, hash)
  }

  lemma {:induction false} FactWritesHave(own: bool, id: string, entries: seq<(string, seq<Row>)>, hash: string -> string, w: Write)
    ensures w in FactWritesOf(own, id, entries, hash)
      <==> exists i, j :: 0 <= i < |entries| && 0 <= j < |entries[i].1| && w == WriteOf(own, id, entries[i].0, entries[i].1[j], hash)
    decreases |entries|
  {
    hide OwnWrite, RowWrite;
    if entries != [] {
      var first, rest := entries[0], entries[1..];
      FactWritesHave(own, id, rest, hash, w);
      var rows := if own then OwnRowWrites(first.0, first.1, hash) else RowWrites(first.0, id, first.1, hash);
      assert FactWritesOf(own, id, entries, hash) == rows + FactWritesOf(own, id, rest, hash);
      if w in rows {
        var j :| 0 <= j < |rows| && rows[j] == w;
        assert w == WriteOf(own, id, entries[0].0, entries[0].1[j], hash);
      }
      if w in FactWritesOf(own, id, rest, hash) {
        var i, j :| 0 <= i < |rest| && 0 <= j < |rest[i].1| && w == WriteOf(own, id, rest[i].0, rest[i].1[j], hash);
        assert entries[i + 1] == rest[i];
      }
      if i, j :| 0 <= i < |entries| && 0 <= j < |entries[i].1| && w == WriteOf(own, id, entries[i].0, entries[i].1[j], hash) {
        if i == 0 {
          assert rows[j] == w;
        } else {
          assert rest[i - 1] == entries[i];
        }
      }
    }
  }

  lemma SealedIs(record: Record, hash: string -> string)
    ensures Sealed(record, hash) == Entry(record.content, Fingerprint(record, hash))
  {
  }

  lemma WriteOfIs(own: bool, id: string, table: string, row: Row, hash: string -> string)
    ensures var w := WriteOf(own, id, table, row, hash);
      && (w.Bad? <==> row.identity.None? || (own && row.sessionId.None?))
      && (w.Put? ==> w == Put(
            Fact(table, if own then row.sessionId.value else id, row.identity.value, if row.index.Some? then row.index.value else 0),
            Entry(row.record.content, Fingerprint(row.record, hash))))
  {
  }

  ghost predicate BringsEntry(b: Bundle, own: bool, slot: Slot, entry: Entry, hash: string -> string) {
    exists record :: Brings(b, own, slot, record) && entry == Entry(record.content, Fingerprint(record, hash))
  }

  lemma HeadPuts(b: Bundle, own: bool, slot: Slot, entry: Entry, hash: string -> string)
    requires b.sessionId.Some? && !slot.Fact?
    ensures Put(slot, entry) in HeadWrites(b.sessionId.value, b, hash) <==> BringsEntry(b, own, slot, entry, hash)
  {
    var id := b.sessionId.value;
    var w := HeadWrites(id, b, hash);
    SealedIs(b.session, hash);
    SealedIs(Plain(b.report), hash);
    SealedIs(Plain(b.learning), hash);
    SealedIs(Plain(b.shadow), hash);
    hide Sealed, Fingerprint;
    assert w == [w[0], w[1], w[2], w[3]];
    if Put(slot, entry) in w {
      var record := if slot.Session? then b.session else if slot.Report? then Plain(b.report)
                    else if slot.Learning? then Plain(b.learning) else Plain(b.shadow);
      assert Brings(b, own, slot, record);
    }
  }

  lemma FactPuts(b: Bundle, own: bool, slot: Slot, entry: Entry, hash: string -> string)
    requires b.sessionId.Some? && slot.Fact?
    ensures Put(slot, entry) in FactWritesOf(own, b.sessionId.value, b.facts, hash) <==> BringsEntry(b, own, slot, entry, hash)
  {
    var id := b.sessionId.value;
    FactWritesHave(own, id, b.facts, hash, Put(slot, entry));
    hide FactWritesOf, WriteOf, Fingerprint;
    if i, j :| 0 <= i < |b.facts| && 0 <= j < |b.facts[i].1| && Put(slot, entry) == WriteOf(own, id, b.facts[i].0, b.facts[i].1[j], hash) {
      var row := b.facts[i].1[j];
      WriteOfIs(own, id, b.facts[i].0, row, hash);
      assert HasFact(b, own, slot.table, slot.id, slot.identity, slot.index, row.record, i, j);
      assert Brings(b, own, slot, row.record);
    }
    if record :| Brings(b, own, slot, record) && entry == Entry(record.content, Fingerprint(record, hash)) {
      var i, j :| HasFact(b, own, slot.table, slot.id, slot.identity, slot.index, record, i, j);
      WriteOfIs(own, id, b.facts[i].0, b.facts[i].1[j], hash);
    }
  }

  lemma PutsAreBrought(b: Bundle, own: bool, slot: Slot, entry: Entry, hash: string -> string)
    requires b.sessionId.Some?
    ensures Put(slot, entry) in WritesOf(b, own, hash) <==> BringsEntry(b, own, slot, entry, hash)
  {
    hide FactWritesOf, HeadWrites, BringsEntry;
    var id := b.sessionId.value;
    var head, facts := HeadWrites(id, b, hash), FactWritesOf(own, id, b.facts, hash);
    assert WritesOf(b, own, hash) == head + facts by { SplitWrites(b, own, hash); }
    if slot.Fact? {
      FactPuts(b, own, slot, entry, hash);
      HeadIsNoFact(id, b, hash);
    } else {
      HeadPuts(b, own, slot, entry, hash);
      FactsAreFacts(b, own, slot, entry, hash);
    }
  }

  lemma SplitWrites(b: Bundle, own: bool, hash: string -> string)
    requires b.sessionId.Some?
    ensures WritesOf(b, own, hash) == HeadWrites(b.sessionId.value, b, hash) + FactWritesOf(own, b.sessionId.value, b.facts, hash)
  {
  }

  lemma HeadIsNoFact(id: string, b: Bundle, hash: string -> string)
    ensures forall w :: w in HeadWrites(id, b, hash) ==> w.Put? && !w.slot.Fact?
  {
  }

  lemma FactsAreFacts(b: Bundle, own: bool, slot: Slot, entry: Entry, hash: string -> string)
    requires b.sessionId.Some? && !slot.Fact?
    ensures Put(slot, entry) !in FactWritesOf(own, b.sessionId.value, b.facts, hash)
  {
    FactWritesHave(own, b.sessionId.value, b.facts, hash, Put(slot, entry));
    hide FactWritesOf;
  }

  lemma BadIsUnidentified(b: Bundle, own: bool, hash: string -> string)
    ensures Bad in WritesOf(b, own, hash) <==> b.sessionId.None? || !Identified(b, own)
  {
    hide FactWritesOf, HeadWrites;
    if b.sessionId.Some? {
      var id := b.sessionId.value;
      SplitWrites(b, own, hash);
      HeadIsNoFact(id, b, hash);
      FactWritesHave(own, id, b.facts, hash, Bad);
      hide FactWritesOf, WriteOf;
      forall i, j | 0 <= i < |b.facts| && 0 <= j < |b.facts[i].1|
        ensures Bad == WriteOf(own, id, b.facts[i].0, b.facts[i].1[j], hash)
          <==> b.facts[i].1[j].identity.None? || (own && b.facts[i].1[j].sessionId.None?)
      {
        WriteOfIs(own, id, b.facts[i].0, b.facts[i].1[j], hash);
      }
    } else {
      assert WritesOf(b, own, hash)[0] == Bad;
    }
  }

  // ----- What is accepted

  /** The bundle has a session id, every fact can be keyed, and no row it brings is known by
      another digest than the stored row of its key or than another row it brings. */
  ghost predicate Agrees(m: Rows, b: Bundle, own: bool, hash: string -> string) {
    && b.sessionId.Some? && Identified(b, own)
    && (forall slot, record :: Brings(b, own, slot, record) && slot in m ==> m[slot].digest == Fingerprint(record, hash))
    && (forall slot, first, second :: Brings(b, own, slot, first) && Brings(b, own, slot, second) ==>
          Fingerprint(first, hash) == Fingerprint(second, hash))
  }

  lemma PutBringing(b: Bundle, own: bool, slot: Slot, record: Record, hash: string -> string)
    requires b.sessionId.Some? && Brings(b, own, slot, record)
    ensures Put(slot, Entry(record.content, Fingerprint(record, hash))) in WritesOf(b, own, hash)
  {
    hide WritesOf, Brings, Fingerprint;
    PutsAreBrought(b, own, slot, Entry(record.content, Fingerprint(record, hash)), hash);
  }

  lemma AcceptableAgrees(m: Rows, b: Bundle, own: bool, hash: string -> string)
    requires Acceptable(m, WritesOf(b, own, hash))
    ensures Agrees(m, b, own, hash)
  {
    hide WritesOf, Brings, Fingerprint, Identified;
    BadIsUnidentified(b, own, hash);
    var writes := WritesOf(b, own, hash);
    forall slot, record | Brings(b, own, slot, record) && slot in m ensures m[slot].digest == Fingerprint(record, hash) {
      PutBringing(b, own, slot, record, hash);
    }
    forall slot, first, second | Brings(b, own, slot, first) && Brings(b, own, slot, second)
      ensures Fingerprint(first, hash) == Fingerprint(second, hash)
    {
      PutBringing(b, own, slot, first, hash);
      PutBringing(b, own, slot, second, hash);
      var i :| 0 <= i < |writes| && writes[i] == Put(slot, Entry(first.content, Fingerprint(first, hash)));
      var j :| 0 <= j < |writes| && writes[j] == Put(slot, Entry(second.content, Fingerprint(second, hash)));
    }
  }

  lemma AgreesAcceptable(m: Rows, b: Bundle, own: bool, hash: string -> string)
    requires Agrees(m, b, own, hash)
    ensures Acceptable(m, WritesOf(b, own, hash))
  {
    hide WritesOf, Brings, Fingerprint, Identified;
    BadIsUnidentified(b, own, hash);
    var writes := WritesOf(b, own, hash);
    forall i | 0 <= i < |writes|
      ensures writes[i].Put?
      ensures exists record :: Brings(b, own, writes[i].slot, record) && writes[i].entry == Entry(record.content, Fingerprint(record, hash))
    {
      assert writes[i] in writes;
      PutsAreBrought(b, own, writes[i].slot, writes[i].entry, hash);
    }
  }

  /** Both stores accept exactly the bundles whose rows agree with the stored ones and among
      themselves: the dictionaries under the bundle's session id and in supported tables, the
      database under each row's own and where its key and session permit. */
  lemma AcceptedIffAgreeing(t: Tables, db: Rows, b: Bundle, hash: string -> string)
    requires Same(t, db) && t.facts.Keys == FACT_TABLES && (Linked(db) || Owned(b))
    ensures Written(t, b, hash).Some? <==> Supported(b) && Agrees(db, b, false, hash)
    ensures Inserted(db, b, hash).Some? <==> Placed(db, b) && Agrees(db, b, true, hash)
  {
    StoresAcceptIff(t, db, b, hash);
    AgreesIff(db, b, false, hash);
    AgreesIff(db, b, true, hash);
    hide Same, Agrees, Acceptable, Written, Inserted, Placed, Supported;
  }

  lemma AgreesIff(m: Rows, b: Bundle, own: bool, hash: string -> string)
    ensures Acceptable(m, WritesOf(b, own, hash)) <==> Agrees(m, b, own, hash)
  {
    if Agrees(m, b, own, hash) { AgreesAcceptable(m, b, own, hash); }
    if Acceptable(m, WritesOf(b, own, hash)) { AcceptableAgrees(m, b, own, hash); }
  }

  // ----- What is kept

  /** Old rows stay; a key that had none gets a row the bundle brings for it, with that row's
      content and the digest it is known by; nothing else appears. Every row brought is then
      there with its digest. */
  ghost predicate Kept(m: Rows, b: Bundle, own: bool, after: Rows, hash: string -> string) {
    && (forall slot :: slot in m ==> slot in after && after[slot] == m[slot])
    && (forall slot :: slot in after && slot !in m ==> BringsEntry(b, own, slot, after[slot], hash))
    && (forall slot, record :: Brings(b, own, slot, record) ==> slot in after && after[slot].digest == Fingerprint(record, hash))
  }

  lemma PutAllKeeps(m: Rows, b: Bundle, own: bool, hash: string -> string)
    requires PutAll(m, WritesOf(b, own, hash)).Some?
    ensures Kept(m, b, own, PutAll(m, WritesOf(b, own, hash)).value, hash)
  {
    hide WritesOf, Brings, BringsEntry, Fingerprint, Identified, PutAll;
    var writes := WritesOf(b, own, hash);
    var after := PutAll(m, writes).value;
    AcceptedMeans(m, writes);
    AcceptedIff(m, writes);
    BadIsUnidentified(b, own, hash);
    forall slot | slot in after && slot !in m ensures BringsEntry(b, own, slot, after[slot], hash) {
      PutsAreBrought(b, own, slot, after[slot], hash);
    }
    AcceptedRowsPresent(m, writes);
    forall slot, record | Brings(b, own, slot, record) ensures slot in after && after[slot].digest == Fingerprint(record, hash) {
      PutBringing(b, own, slot, record, hash);
    }
  }

  /** What an accepted bundle leaves in the dictionaries, and in the database. */
  lemma AcceptedIsKept(t: Tables, db: Rows, b: Bundle, hash: string -> string)
    requires Same(t, db) && t.facts.Keys == FACT_TABLES && (Linked(db) || Owned(b))
    ensures Written(t, b, hash).Some? ==>
      exists after :: Same(Written(t, b, hash).value, after) && Kept(db, b, false, after, hash)
    ensures Inserted(db, b, hash).Some? ==> Kept(db, b, true, Inserted(db, b, hash).value, hash)
  {
    StoresAcceptIff(t, db, b, hash);
    PlacedRefines(db, b, hash);
    if Written(t, b, hash).Some? {
      DictionariesRefine(t, db, b, hash);
      PutAllKeeps(db, b, false, hash);
    }
    if Inserted(db, b, hash).Some? {
      PutAllKeeps(db, b, true, hash);
    }
    hide Same, Kept, Written, Inserted, Placed, Supported, PutAll, Writes, OwnWrites;
  }

  // ----- The rows that dictionaries hold

  function SlotsOf(t: Tables): set<Slot> {
    (set id | id in t.sessions :: Session(id)) + (set id | id in t.reports :: Report(id))
      + (set id | id in t.learning :: Learning(id)) + (set id | id in t.shadow :: Shadow(id))
      + (set table, key | table in t.facts && key in t.facts[table] :: Fact(table, key.0, key.1, key.2))
  }

  lemma SlotHeld(t: Tables, slot: Slot)
    ensures slot in SlotsOf(t) <==> Lookup(t, slot).Some?
  {
    match slot
    case Fact(table, id, identity, index) =>
      if table in t.facts && (id, identity, index) in t.facts[table] {
        var key := (id, identity, index);
        assert Fact(table, key.0, key.1, key.2) in SlotsOf(t);
      }
    case _ =>
  }

  function RowsOf(t: Tables): Rows {
    map slot | slot in SlotsOf(t) && Lookup(t, slot).Some? :: Lookup(t, slot).value
  }

  lemma TablesHaveRows(t: Tables)
    ensures Same(t, RowsOf(t))
  {
    hide SlotsOf, Lookup;
    forall slot: Slot ensures Lookup(t, slot) == Get(RowsOf(t), slot) {
      SlotHeld(t, slot);
    }
  }

  // ----- What was accepted is final

  ghost predicate TablesHold(t: Tables, b: Bundle, hash: string -> string) {
    && t.facts.Keys == FACT_TABLES
    && forall slot, record :: Brings(b, false, slot, record) ==>
         Lookup(t, slot).Some? && Lookup(t, slot).value.digest == Fingerprint(record, hash)
  }

  ghost predicate RowsHold(db: Rows, b: Bundle, hash: string -> string) {
    forall slot, record :: Brings(b, true, slot, record) ==> slot in db && db[slot].digest == Fingerprint(record, hash)
  }

  /** One bundle into the dictionaries: it must agree; it is then held, as is all held before. */
  lemma MemoryStep(t: Tables, b: Bundle, hash: string -> string)
    requires t.facts.Keys == FACT_TABLES && Written(t, b, hash).Some?
    ensures TablesHold(Written(t, b, hash).value, b, hash)
    ensures forall other :: TablesHold(t, other, hash) ==> TablesHold(Written(t, b, hash).value, other, hash)
    ensures forall slot, record, e :: Brings(b, false, slot, record) && Lookup(t, slot) == Some(e) ==> e.digest == Fingerprint(record, hash)
  {
    var m := RowsOf(t);
    TablesHaveRows(t);
    hide RowsOf, Brings, Fingerprint, Written, Lookup, Writes, PutAll, Identified, Acceptable;
    MemoryPut(t, m, b, hash);
    AgreesIff(m, b, false, hash);
    AcceptedIff(m, Writes(b, hash));
    PutAllKeeps(m, b, false, hash);
  }

  lemma MemoryPut(t: Tables, m: Rows, b: Bundle, hash: string -> string)
    requires Same(t, m) && t.facts.Keys == FACT_TABLES && Written(t, b, hash).Some?
    ensures PutAll(m, Writes(b, hash)).Some? && Same(Written(t, b, hash).value, PutAll(m, Writes(b, hash)).value)
    ensures Written(t, b, hash).value.facts.Keys == FACT_TABLES
  {
    hide Same, Writes, PutAll, Written, Placed;
    MemorySupported(t, b, hash);
    DictionariesRefine(t, m, b, hash);
  }

  lemma MemorySupported(t: Tables, b: Bundle, hash: string -> string)
    requires t.facts.Keys == FACT_TABLES && Written(t, b, hash).Some?
    ensures Supported(b)
  {
    if !Supported(b) { UnsupportedRaises(t.facts, b.sessionId.value, b.facts, hash); }
  }

  lemma {:induction false} MemoryHolds(bundles: seq<Bundle>, n: nat, hash: string -> string)
    requires n < |bundles|
    ensures |MemoryRun(bundles, hash).1| == |bundles| && MemoryRun(bundles, hash).0.facts.Keys == FACT_TABLES
    ensures MemoryRun(bundles, hash).1[n] ==> TablesHold(MemoryRun(bundles, hash).0, bundles[n], hash)
    decreases |bundles|
  {
    hide Written, TablesHold, Lookup, Brings, Fingerprint;
    var last := |bundles| - 1;
    MemoryShape(bundles[..last], hash);
    MemoryShape(bundles, hash);
    if n < last { MemoryHolds(bundles[..last], n, hash); }
    var t := MemoryRun(bundles[..last], hash).0;
    if Written(t, bundles[last], hash).Some? { MemoryStep(t, bundles[last], hash); }
  }

  lemma {:induction false} MemoryShape(bundles: seq<Bundle>, hash: string -> string)
    ensures |MemoryRun(bundles, hash).1| == |bundles| && MemoryRun(bundles, hash).0.facts.Keys == FACT_TABLES
  {
    hide Written, Same;
    if bundles != [] {
      MemoryShape(bundles[..|bundles| - 1], hash);
      var t := MemoryRun(bundles[..|bundles| - 1], hash).0;
      if Written(t, bundles[|bundles| - 1], hash).Some? {
        TablesHaveRows(t);
        MemoryPut(t, RowsOf(t), bundles[|bundles| - 1], hash);
      }
    }
  }

  /** One bundle into a linked database. */
  lemma DatabaseStep(db: Rows, b: Bundle, hash: string -> string)
    requires Linked(db) && Inserted(db, b, hash).Some?
    ensures RowsHold(Inserted(db, b, hash).value, b, hash)
    ensures forall other :: RowsHold(db, other, hash) ==> RowsHold(Inserted(db, b, hash).value, other, hash)
    ensures forall slot, record :: Brings(b, true, slot, record) && slot in db ==> db[slot].digest == Fingerprint(record, hash)
  {
    hide Brings, Fingerprint, Inserted, OwnWrites, PutAll, Identified, Acceptable, Placed, Linked;
    PlacedRefines(db, b, hash);
    AgreesIff(db, b, true, hash);
    AcceptedIff(db, OwnWrites(b, hash));
    PutAllKeeps(db, b, true, hash);
  }

  lemma {:induction false} DatabaseHolds(bundles: seq<Bundle>, n: nat, hash: string -> string)
    requires n < |bundles|
    ensures |DatabaseRun(bundles, hash).1| == |bundles|
    ensures DatabaseRun(bundles, hash).1[n] ==> RowsHold(DatabaseRun(bundles, hash).0, bundles[n], hash)
    decreases |bundles|
  {
    hide Inserted, RowsHold, Brings, Fingerprint, Linked;
    var last := |bundles| - 1;
    DatabaseShape(bundles[..last], hash);
    EveryDatabaseIsLinked(bundles[..last], hash);
    if n < last { DatabaseHolds(bundles[..last], n, hash); }
    var db := DatabaseRun(bundles[..last], hash).0;
    if Inserted(db, bundles[last], hash).Some? { DatabaseStep(db, bundles[last], hash); }
  }

  lemma {:induction false} DatabaseShape(bundles: seq<Bundle>, hash: string -> string)
    ensures |DatabaseRun(bundles, hash).1| == |bundles|
  {
    hide Inserted;
    if bundles != [] { DatabaseShape(bundles[..|bundles| - 1], hash); }
  }

  /** The two bundles bring rows for one key that are known by different digests. */
  ghost predicate Contradicts(earlier: Bundle, later: Bundle, own: bool, hash: string -> string) {
    exists slot, x, y :: Brings(earlier, own, slot, x) && Brings(later, own, slot, y) && Fingerprint(x, hash) != Fingerprint(y, hash)
  }

  /** After any run, a bundle that contradicts one accepted at any time in it is refused, by
      both stores. */
  lemma ContradictionRefused(bundles: seq<Bundle>, n: nat, later: Bundle, hash: string -> string)
    requires n < |bundles|
    ensures |MemoryRun(bundles, hash).1| == |bundles| == |DatabaseRun(bundles, hash).1|
    ensures MemoryRun(bundles, hash).1[n] && Contradicts(bundles[n], later, false, hash) ==>
      Written(MemoryRun(bundles, hash).0, later, hash) == None
    ensures DatabaseRun(bundles, hash).1[n] && Contradicts(bundles[n], later, true, hash) ==>
      Inserted(DatabaseRun(bundles, hash).0, later, hash) == None
  {
    hide MemoryRun, DatabaseRun, Written, Inserted, Brings, Fingerprint, Lookup, Linked;
    MemoryHolds(bundles, n, hash);
    DatabaseHolds(bundles, n, hash);
    EveryDatabaseIsLinked(bundles, hash);
    var t, db := MemoryRun(bundles, hash).0, DatabaseRun(bundles, hash).0;
    if Written(t, later, hash).Some? { MemoryStep(t, later, hash); }
    if Inserted(db, later, hash).Some? { DatabaseStep(db, later, hash); }
  }

  ghost predicate Injective(hash: string -> string) {
    forall x, y :: hash(x) == hash(y) ==> x == y
  }

  /** With a digest that tells contents apart, nothing of an accepted session can be revised:
      a later bundle of the session with another report, learning report or shadow report is
      refused, and so is another session row or another row of facts under the same key when
      neither version brings a digest of its own. */
  lemma SessionsAreFinal(bundles: seq<Bundle>, n: nat, later: Bundle, hash: string -> string)
    requires n < |bundles| && Injective(hash) && later.sessionId.Some? && later.sessionId == bundles[n].sessionId
    requires var b := bundles[n];
      || later.report != b.report || later.learning != b.learning || later.shadow != b.shadow
      || (later.session.digest.None? && b.session.digest.None? && later.session.content != b.session.content)
    ensures |MemoryRun(bundles, hash).1| == |bundles| == |DatabaseRun(bundles, hash).1|
    ensures MemoryRun(bundles, hash).1[n] ==> Written(MemoryRun(bundles, hash).0, later, hash) == None
    ensures DatabaseRun(bundles, hash).1[n] ==> Inserted(DatabaseRun(bundles, hash).0, later, hash) == None
  {
    hide MemoryRun, DatabaseRun, Written, Inserted;
    ContradictionRefused(bundles, n, later, hash);
    var b, id := bundles[n], later.sessionId.value;
    forall own: bool ensures Contradicts(b, later, own, hash) {
      if later.report != b.report {
        assert Brings(b, own, Report(id), Record(b.report, None)) && Brings(later, own, Report(id), Record(later.report, None));
      } else if later.learning != b.learning {
        assert Brings(b, own, Learning(id), Record(b.learning, None)) && Brings(later, own, Learning(id), Record(later.learning, None));
      } else if later.shadow != b.shadow {
        assert Brings(b, own, Shadow(id), Record(b.shadow, None)) && Brings(later, own, Shadow(id), Record(later.shadow, None));
      } else {
        assert Brings(b, own, Session(id), b.session) && Brings(later, own, Session(id), later.session);
      }
    }
  }

  lemma FactsAreFinal(bundles: seq<Bundle>, n: nat, later: Bundle, own: bool, i: int, j: int, k: int, l: int,
      table: string, id: string, identity: string, index: int, x: string, y: string, hash: string -> string)
    requires n < |bundles| && Injective(hash) && x != y
    requires HasFact(bundles[n], own, table, id, identity, index, Record(x, None), i, j)
    requires HasFact(later, own, table, id, identity, index, Record(y, None), k, l)
    ensures |MemoryRun(bundles, hash).1| == |bundles| == |DatabaseRun(bundles, hash).1|
    ensures !own && MemoryRun(bundles, hash).1[n] ==> Written(MemoryRun(bundles, hash).0, later, hash) == None
    ensures own && DatabaseRun(bundles, hash).1[n] ==> Inserted(DatabaseRun(bundles, hash).0, later, hash) == None
  {
    hide MemoryRun, DatabaseRun, Written, Inserted, HasFact;
    ContradictionRefused(bundles, n, later, hash);
    var slot := Fact(table, id, identity, index);
    assert Brings(bundles[n], own, slot, Record(x, None)) && Brings(later, own, slot, Record(y, None));
  }
}
