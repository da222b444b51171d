/** Both stores are one abstract map: append-only, first write wins, all or nothing. */
module StoreRefinement {
  import opened Outcomes
  import opened Store

  // ----- The abstract store

  /** One row of a bundle; Bad when the row has no identity and writing it raises. */
  datatype Write = Put(slot: Slot, entry: Entry) | Bad

  function PutAll(m: Rows, writes: seq<Write>): Option<Rows>
    decreases |writes|
  {
    if writes == [] then Some(m)
    else if writes[0].Bad? then None
    else
      var next := Immutable(m, writes[0].slot, writes[0].entry);
      if next.None? then None else PutAll(next.value, writes[1..])
  }

  function RowWrite(table: string, id: string, row: Row, hash: string -> string): Write {
    if row.identity.None? then Bad
    else
      var index := if row.index.Some? then row.index.value else 0;
      Put(Fact(table, id, row.identity.value, index), Sealed(row.record, hash))
  }

  function RowWrites(table: string, id: string, rows: seq<Row>, hash: string -> string): (r: seq<Write>)
    ensures |r| == |rows|
    ensures forall i :: 0 <= i < |rows| ==> r[i] == RowWrite(table, id, rows[i], hash)
  {
    seq(|rows|, i requires 0 <= i < |rows| => RowWrite(table, id, rows[i], hash))
  }

  function FactWrites(id: string, entries: seq<(string, seq<Row>)>, hash: string -> string): seq<Write>
    decreases |entries|
  {
    if entries == [] then []
    else RowWrites(entries[0].0, id, entries[0].1, hash) + FactWrites(id, entries[1..], hash)
  }

  function HeadWrites(id: string, b: Bundle, hash: string -> string): seq<Write> {
    var rows := SessionRows(id, b, hash);
    [Put(rows[0].0, rows[0].1), Put(rows[1].0, rows[1].1), Put(rows[2].0, rows[2].1), Put(rows[3].0, rows[3].1)]
  }

  function Writes(b: Bundle, hash: string -> string): seq<Write> {
    if b.sessionId.None? then [Bad]
    else HeadWrites(b.sessionId.value, b, hash) + FactWrites(b.sessionId.value, b.facts, hash)
  }

  function Persist(m: Rows, b: Bundle, hash: string -> string): Rows {
    var after := PutAll(m, Writes(b, hash));
    if after.Some? then after.value else m
  }

  // ----- What acceptance means

  /** No row contradicts the store, and no two rows of the bundle contradict each other. */
  ghost predicate Acceptable(m: Rows, writes: seq<Write>) {
    && (forall i :: 0 <= i < |writes| ==> writes[i].Put?)
    && (forall i :: 0 <= i < |writes| && writes[i].slot in m ==> m[writes[i].slot].digest == writes[i].entry.digest)
    && (forall i, j :: 0 <= i < j < |writes| && writes[i].slot == writes[j].slot ==>
          writes[i].entry.digest == writes[j].entry.digest)
  }

  /** `after` holds `m` unchanged, and for each new slot the first row written to it. */
  ghost predicate FirstWrites(m: Rows, writes: seq<Write>, after: Rows) {
    && (forall slot :: slot in m ==> slot in after && after[slot] == m[slot])
    && (forall i :: 0 <= i < |writes| ==> writes[i].Put? && writes[i].slot in after)
    && (forall slot :: slot in after && slot !in m ==>
          exists i :: 0 <= i < |writes| && writes[i] == Put(slot, after[slot])
            && forall j :: 0 <= j < i ==> writes[j].slot != slot)
  }

  lemma {:induction false} AcceptedIff(m: Rows, writes: seq<Write>)
    ensures PutAll(m, writes).Some? <==> Acceptable(m, writes)
    decreases |writes|
  {
    if writes != [] && writes[0].Put? {
      var rest := writes[1..];
      var slot, entry := writes[0].slot, writes[0].entry;
      var next := Immutable(m, slot, entry);
      if next.Some? {
        AcceptedIff(next.value, rest);
        if Acceptable(next.value, rest) {
          forall i, j | 0 <= i < j < |writes| && writes[i].slot == writes[j].slot
            ensures writes[i].entry.digest == writes[j].entry.digest
          {
            assert writes[j] == rest[j - 1];
            if i > 0 { assert writes[i] == rest[i - 1]; }
          }
          forall i | 0 <= i < |writes| ensures writes[i].Put? {
            if i > 0 { assert writes[i] == rest[i - 1]; }
          }
          forall i | 0 <= i < |writes| && writes[i].slot in m ensures m[writes[i].slot].digest == writes[i].entry.digest {
            if i > 0 { assert writes[i] == rest[i - 1]; }
          }
        }
        if Acceptable(m, writes) {
          forall i | 0 <= i < |rest| ensures rest[i] == writes[i + 1] && writes[0].slot == writes[0].slot {
          }
          assert Acceptable(next.value, rest);
        }
      }
    }
  }

  lemma {:induction false} AcceptedMeans(m: Rows, writes: seq<Write>)
    requires PutAll(m, writes).Some?
    ensures FirstWrites(m, writes, PutAll(m, writes).value)
    decreases |writes|
  {
    if writes != [] {
      var rest := writes[1..];
      var slot, entry := writes[0].slot, writes[0].entry;
      var next, after := Immutable(m, slot, entry).value, PutAll(m, writes).value;
      AcceptedMeans(next, rest);
      forall i | 0 <= i < |writes| ensures writes[i].Put? && writes[i].slot in after {
        if i > 0 { assert writes[i] == rest[i - 1]; }
      }
      forall s | s in after && s !in m
        ensures exists i :: 0 <= i < |writes| && writes[i] == Put(s, after[s]) && forall j :: 0 <= j < i ==> writes[j].slot != s
      {
        if s == slot {
          assert after[s] == next[s] == entry && writes[0] == Put(s, after[s]);
        } else {
          var i :| 0 <= i < |rest| && rest[i] == Put(s, after[s]) && forall j :: 0 <= j < i ==> rest[j].slot != s;
          assert writes[i + 1] == Put(s, after[s]);
          forall j | 0 <= j < i + 1 ensures writes[j].slot != s {
            if j > 0 { assert writes[j] == rest[j - 1]; }
          }
        }
      }
    }
  }

  lemma {:induction false} PutAllConcat(m: Rows, first: seq<Write>, second: seq<Write>)
    ensures PutAll(m, first + second) ==
      if PutAll(m, first).None? then None else PutAll(PutAll(m, first).value, second)
    decreases |first|
  {
    if first == [] {
      assert first + second == second;
    } else {
      assert (first + second)[1..] == first[1..] + second;
      if first[0].Put? {
        var next := Immutable(m, first[0].slot, first[0].entry);
        if next.Some? { PutAllConcat(next.value, first[1..], second); }
      }
    }
  }

  // ----- The dictionaries refine it

  function Lookup(t: Tables, slot: Slot): Option<Entry> {
    match slot
    case Session(id) => Get(t.sessions, id)
    case Report(id) => Get(t.reports, id)
    case Learning(id) => Get(t.learning, id)
    case Shadow(id) => Get(t.shadow, id)
    case Fact(table, id, identity, index) =>
      if table in t.facts then Get(t.facts[table], (id, identity, index)) else None
  }

  function Get<K>(m: map<K, Entry>, key: K): Option<Entry> {
    if key in m then Some(m[key]) else None
  }

  ghost predicate Same(t: Tables, m: Rows) {
    forall slot: Slot :: Lookup(t, slot) == Get(m, slot)
  }

  /** One row into the dictionary its slot belongs to. */
  function Update(t: Tables, slot: Slot, entry: Entry): Option<Tables> {
    match slot
    case Session(id) => (match Immutable(t.sessions, id, entry) case None => None case Some(x) => Some(t.(sessions := x)))
    case Report(id) => (match Immutable(t.reports, id, entry) case None => None case Some(x) => Some(t.(reports := x)))
    case Learning(id) => (match Immutable(t.learning, id, entry) case None => None case Some(x) => Some(t.(learning := x)))
    case Shadow(id) => (match Immutable(t.shadow, id, entry) case None => None case Some(x) => Some(t.(shadow := x)))
    case Fact(table, id, identity, index) =>
      if table !in t.facts then None
      else
        match Immutable(t.facts[table], (id, identity, index), entry)
        case None => None
        case Some(x) => Some(t.(facts := t.facts[table := x]))
  }

  /** An update succeeds unless the slot holds another digest, and changes no other slot. */
  lemma UpdateMeans(t: Tables, slot: Slot, entry: Entry)
    requires slot.Fact? ==> slot.table in t.facts
    ensures Update(t, slot, entry).Some? <==> Lookup(t, slot).None? || Lookup(t, slot).value.digest == entry.digest
  {
  }

  lemma LookupUpdated(t: Tables, slot: Slot, entry: Entry, other: Slot)
    requires (slot.Fact? ==> slot.table in t.facts) && Update(t, slot, entry).Some?
    ensures Lookup(Update(t, slot, entry).value, other)
      == if other == slot && Lookup(t, slot).None? then Some(entry) else Lookup(t, other)
  {
  }

  lemma RowRefines(t: Tables, m: Rows, slot: Slot, entry: Entry)
    requires Same(t, m) && (slot.Fact? ==> slot.table in t.facts)
    ensures var w, p := Update(t, slot, entry), Immutable(m, slot, entry);
      w.Some? == p.Some? && (w.Some? ==> Same(w.value, p.value))
  {
    hide Update, Lookup;
    assert Lookup(t, slot) == Get(m, slot);
    UpdateMeans(t, slot, entry);
    if Update(t, slot, entry).Some? {
      var before, after := Update(t, slot, entry).value, Immutable(m, slot, entry).value;
      forall s: Slot ensures Lookup(before, s) == Get(after, s) {
        assert Lookup(t, s) == Get(m, s);
        LookupUpdated(t, slot, entry, s);
      }
    }
  }

  lemma {:induction false} RowsRefine(t: Tables, m: Rows, table: string, id: string, rows: seq<Row>, hash: string -> string)
    requires Same(t, m) && table in t.facts
    ensures var w := WriteRows(t.facts, table, id, rows, hash);
      var p := PutAll(m, RowWrites(table, id, rows, hash));
      w.Some? == p.Some? && (w.Some? ==> Same(t.(facts := w.value), p.value))
    decreases |rows|
  {
    hide Same, Immutable, Sealed;
    if rows == [] {
      assert t.(facts := t.facts) == t;
    } else {
      var writes := RowWrites(table, id, rows, hash);
      assert writes[1..] == RowWrites(table, id, rows[1..], hash);
      var w := WriteRow(t.facts, table, id, rows[0], hash);
      if rows[0].identity.Some? {
        var slot, entry := writes[0].slot, writes[0].entry;
        RowRefines(t, m, slot, entry);
        if w.Some? {
          var next := t.(facts := w.value);
          assert Update(t, slot, entry) == Some(next);
          RowsRefine(next, Immutable(m, slot, entry).value, table, id, rows[1..], hash);
        }
      }
    }
  }

  lemma {:induction false} FactsRefine(t: Tables, m: Rows, id: string, entries: seq<(string, seq<Row>)>, hash: string -> string)
    requires Same(t, m) && forall i :: 0 <= i < |entries| ==> entries[i].0 in t.facts
    ensures var w := WriteFacts(t.facts, id, entries, hash);
      var p := PutAll(m, FactWrites(id, entries, hash));
      w.Some? == p.Some? && (w.Some? ==> Same(t.(facts := w.value), p.value))
    decreases |entries|
  {
    hide Same;
    if entries == [] {
      assert t.(facts := t.facts) == t;
    } else {
      var (table, rows) := entries[0];
      RowsRefine(t, m, table, id, rows, hash);
      PutAllConcat(m, RowWrites(table, id, rows, hash), FactWrites(id, entries[1..], hash));
      var w := WriteRows(t.facts, table, id, rows, hash);
      if w.Some? {
        FactsRefine(t.(facts := w.value), PutAll(m, RowWrites(table, id, rows, hash)).value, id, entries[1..], hash);
      }
    }
  }

  /** The four session tables are written independently of each other and of the facts. */
  lemma HeadRefines(t: Tables, m: Rows, id: string, b: Bundle, hash: string -> string)
    requires Same(t, m)
    ensures var sessions := Immutable(t.sessions, id, Sealed(b.session, hash));
      var reports := Immutable(t.reports, id, Sealed(Plain(b.report), hash));
      var learning := Immutable(t.learning, id, Sealed(Plain(b.learning), hash));
      var shadow := Immutable(t.shadow, id, Sealed(Plain(b.shadow), hash));
      var p := PutAll(m, HeadWrites(id, b, hash));
      && p.Some? == (sessions.Some? && reports.Some? && learning.Some? && shadow.Some?)
      && (p.Some? ==> Same(Tables(sessions.value, reports.value, learning.value, shadow.value, t.facts), p.value))
  {
    hide Same, Immutable, Sealed, Lookup;
    var rows, writes := SessionRows(id, b, hash), HeadWrites(id, b, hash);
    var t1, m1 := Update(t, rows[0].0, rows[0].1), Immutable(m, rows[0].0, rows[0].1);
    RowRefines(t, m, rows[0].0, rows[0].1);
    if m1.Some? {
      var t2, m2 := Update(t1.value, rows[1].0, rows[1].1), Immutable(m1.value, rows[1].0, rows[1].1);
      RowRefines(t1.value, m1.value, rows[1].0, rows[1].1);
      assert PutAll(m, writes) == PutAll(m1.value, writes[1..]);
      if m2.Some? {
        var t3, m3 := Update(t2.value, rows[2].0, rows[2].1), Immutable(m2.value, rows[2].0, rows[2].1);
        RowRefines(t2.value, m2.value, rows[2].0, rows[2].1);
        assert PutAll(m1.value, writes[1..]) == PutAll(m2.value, writes[2..]) by { assert writes[1..][1..] == writes[2..]; }
        if m3.Some? {
          RowRefines(t3.value, m3.value, rows[3].0, rows[3].1);
          var m4 := Immutable(m3.value, rows[3].0, rows[3].1);
          assert PutAll(m2.value, writes[2..]) == PutAll(m3.value, writes[3..]) by { assert writes[2..][1..] == writes[3..]; }
          assert PutAll(m3.value, writes[3..]) == m4 by { assert writes[3..][1..] == []; }
        }
      }
    }
  }

  /** Every fact table is one the schema knows. */
  ghost predicate Supported(b: Bundle) {
    forall i :: 0 <= i < |b.facts| ==> b.facts[i].0 in FACT_TABLES
  }

  /** Every fact row carries the bundle's session id. */
  ghost predicate Owned(b: Bundle) {
    forall i, j :: 0 <= i < |b.facts| && 0 <= j < |b.facts[i].1| ==> b.facts[i].1[j].sessionId == b.sessionId
  }

  /** Every fact row has an index. */
  ghost predicate Indexed(b: Bundle) {
    forall i, j :: 0 <= i < |b.facts| && 0 <= j < |b.facts[i].1| ==> b.facts[i].1[j].index.Some?
  }

  /** Every fact row carries the bundle's session id and an index. */
  ghost predicate Keyed(b: Bundle) {
    Owned(b) && Indexed(b)
  }

  /** Every fact row has an index, a table the schema knows, and a session id of its own whose
      session is stored; an unknown table may be named without rows. */
  ghost predicate Storable(db: Rows, entries: seq<(string, seq<Row>)>) {
    forall i :: 0 <= i < |entries| ==> RowsStorable(db, entries[i].0, entries[i].1)
  }

  ghost predicate RowsStorable(db: Rows, table: string, rows: seq<Row>) {
    forall j :: 0 <= j < |rows| ==> RowStorable(db, table, rows[j])
  }

  predicate RowStorable(db: Rows, table: string, row: Row) {
    table in FACT_TABLES && row.index.Some? && row.sessionId.Some? && Session(row.sessionId.value) in db
  }

  /** The same with the bundle's own session among the stored ones. */
  ghost predicate Placed(db: Rows, b: Bundle) {
    forall i :: 0 <= i < |b.facts| ==> RowsPlaced(db, b.sessionId, b.facts[i].0, b.facts[i].1)
  }

  ghost predicate RowsPlaced(db: Rows, id: Option<string>, table: string, rows: seq<Row>) {
    forall j :: 0 <= j < |rows| ==> RowPlaced(db, id, table, rows[j])
  }

  predicate RowPlaced(db: Rows, id: Option<string>, table: string, row: Row) {
    table in FACT_TABLES && row.index.Some? && row.sessionId.Some? && (row.sessionId == id || Session(row.sessionId.value) in db)
  }

  /** A row under the session id that it carries. */
  function OwnWrite(table: string, row: Row, hash: string -> string): Write {
    if row.sessionId.None? then Bad else RowWrite(table, row.sessionId.value, row, hash)
  }

  function OwnRowWrites(table: string, rows: seq<Row>, hash: string -> string): (r: seq<Write>)
    ensures |r| == |rows|
    ensures forall i :: 0 <= i < |rows| ==> r[i] == OwnWrite(table, rows[i], hash)
  {
    seq(|rows|, i requires 0 <= i < |rows| => OwnWrite(table, rows[i], hash))
  }

  function OwnFactWrites(entries: seq<(string, seq<Row>)>, hash: string -> string): seq<Write>
    decreases |entries|
  {
    if entries == [] then [] else OwnRowWrites(entries[0].0, entries[0].1, hash) + OwnFactWrites(entries[1..], hash)
  }

  /** What the database writes: the rows of the session, and facts under their own ids. */
  function OwnWrites(b: Bundle, hash: string -> string): seq<Write> {
    if b.sessionId.None? then [Bad] else HeadWrites(b.sessionId.value, b, hash) + OwnFactWrites(b.facts, hash)
  }

  lemma DictionariesRefine(t: Tables, m: Rows, b: Bundle, hash: string -> string)
    requires Same(t, m) && t.facts.Keys == FACT_TABLES && Supported(b)
    ensures var w, p := Written(t, b, hash), PutAll(m, Writes(b, hash));
      w.Some? == p.Some? && (w.Some? ==> Same(w.value, p.value) && w.value.facts.Keys == FACT_TABLES)
  {
    hide Same, FactWrites, HeadWrites, Immutable, Sealed;
    if b.sessionId.Some? {
      var id := b.sessionId.value;
      var head := HeadWrites(id, b, hash);
      HeadRefines(t, m, id, b, hash);
      PutAllConcat(m, head, FactWrites(id, b.facts, hash));
      KeysStay(t.facts, id, b.facts, hash);
      if PutAll(m, head).Some? {
        var next := Tables(Immutable(t.sessions, id, Sealed(b.session, hash)).value,
                           Immutable(t.reports, id, Sealed(Plain(b.report), hash)).value,
                           Immutable(t.learning, id, Sealed(Plain(b.learning), hash)).value,
                           Immutable(t.shadow, id, Sealed(Plain(b.shadow), hash)).value, t.facts);
        FactsRefine(next, PutAll(m, head).value, id, b.facts, hash);
      }
    }
  }

  lemma {:induction false} KeysStay(facts: Facts, id: string, entries: seq<(string, seq<Row>)>, hash: string -> string)
    ensures var w := WriteFacts(facts, id, entries, hash); w.Some? ==> w.value.Keys == facts.Keys
    decreases |entries|
  {
    if entries != [] && entries[0].0 in facts {
      var w := WriteRows(facts, entries[0].0, id, entries[0].1, hash);
      if w.Some? { KeysStay(w.value, id, entries[1..], hash); }
    }
  }

  // ----- The relational tables refine it

  /** Facts add no session. */
  ghost predicate SameSessions(db: Rows, next: Rows) {
    forall id: string :: Session(id) in db <==> Session(id) in next
  }

  /** Every row refers to a stored session, as the foreign keys demand. */
  ghost predicate Linked(db: Rows) {
    forall slot :: slot in db ==> slot.Session? || Session(slot.id) in db
  }

  ghost predicate SessionsKnown(db: Rows, rows: seq<Row>) {
    forall j :: 0 <= j < |rows| ==> rows[j].sessionId.Some? && Session(rows[j].sessionId.value) in db
  }

  lemma {:induction false} InsertedRowsRefine(db: Rows, table: string, rows: seq<Row>, hash: string -> string)
    requires Linked(db) || SessionsKnown(db, rows)
    ensures var p := PutAll(db, OwnRowWrites(table, rows, hash));
      && InsertRows(db, table, rows, hash) == (if RowsStorable(db, table, rows) then p else None)
      && (RowsStorable(db, table, rows) && p.Some? ==> SameSessions(db, p.value) && (Linked(db) ==> Linked(p.value)))
    decreases |rows|
  {
    if rows != [] {
      assert OwnRowWrites(table, rows, hash)[1..] == OwnRowWrites(table, rows[1..], hash);
      var first := OwnWrite(table, rows[0], hash);
      StorableHead(db, table, rows);
      FirstInserted(db, table, rows[0], hash);
      var next := InsertRow(db, table, rows[0], hash);
      hide RowsStorable, InsertRow, CheckAndInsert, OwnWrite, RowSlot;
      if next.Some? {
        assert SessionsKnown(db, rows) ==> SessionsKnown(next.value, rows[1..]);
        InsertedRowsRefine(next.value, table, rows[1..], hash);
        StorableSame(db, next.value, table, rows[1..]);
      }
    }
  }

  lemma FirstInserted(db: Rows, table: string, row: Row, hash: string -> string)
    requires Linked(db) || (row.sessionId.Some? && Session(row.sessionId.value) in db)
    ensures var first, next := OwnWrite(table, row, hash), InsertRow(db, table, row, hash);
      && next == (if RowStorable(db, table, row) && first.Put?
                  then Immutable(db, first.slot, first.entry) else None)
      && (next.Some? ==> SameSessions(db, next.value) && (Linked(db) ==> Linked(next.value)))
  {
  }

  lemma StorableSame(db: Rows, next: Rows, table: string, rows: seq<Row>)
    requires SameSessions(db, next)
    ensures RowsStorable(db, table, rows) <==> RowsStorable(next, table, rows)
  {
  }

  lemma StorableHead(db: Rows, table: string, rows: seq<Row>)
    requires rows != []
    ensures RowsStorable(db, table, rows) <==> RowStorable(db, table, rows[0]) && RowsStorable(db, table, rows[1..])
  {
    assert rows == [rows[0]] + rows[1..];
  }

  lemma {:induction false} InsertedFactsRefine(db: Rows, entries: seq<(string, seq<Row>)>, hash: string -> string)
    requires Linked(db) || forall i :: 0 <= i < |entries| ==> SessionsKnown(db, entries[i].1)
    ensures InsertFacts(db, entries, hash) == if Storable(db, entries) then PutAll(db, OwnFactWrites(entries, hash)) else None
    decreases |entries|
  {
    hide RowsStorable, InsertRows, OwnRowWrites, Linked;
    if entries != [] {
      var (table, rows) := entries[0];
      InsertedRowsRefine(db, table, rows, hash);
      PutAllConcat(db, OwnRowWrites(table, rows, hash), OwnFactWrites(entries[1..], hash));
      assert Storable(db, entries) <==> RowsStorable(db, table, rows) && Storable(db, entries[1..]) by {
        assert entries == [entries[0]] + entries[1..];
      }
      var next := InsertRows(db, table, rows, hash);
      if next.Some? {
        forall i | 0 <= i < |entries[1..]| && SessionsKnown(db, entries[i + 1].1) ensures SessionsKnown(next.value, entries[1..][i].1) {
        }
        InsertedFactsRefine(next.value, entries[1..], hash);
        FactsStorableSame(db, next.value, entries[1..]);
      }
    }
  }

  lemma FactsStorableSame(db: Rows, next: Rows, entries: seq<(string, seq<Row>)>)
    requires SameSessions(db, next)
    ensures Storable(db, entries) <==> Storable(next, entries)
  {
    hide SameSessions, RowsStorable;
    forall i | 0 <= i < |entries| ensures RowsStorable(db, entries[i].0, entries[i].1) <==> RowsStorable(next, entries[i].0, entries[i].1) {
      StorableSame(db, next, entries[i].0, entries[i].1);
    }
  }

  /** The database accepts what the abstract map accepts of the rows it writes, if it can
      place every one of them. */
  lemma PlacedRefines(db: Rows, b: Bundle, hash: string -> string)
    requires Linked(db) || Owned(b)
    ensures Inserted(db, b, hash) == if Placed(db, b) then PutAll(db, OwnWrites(b, hash)) else None
  {
    hide OwnFactWrites, InsertFacts, Sealed, Storable, Placed;
    if b.sessionId.Some? {
      var id := b.sessionId.value;
      HeadInserted(db, id, b, hash);
      PutAllConcat(db, HeadWrites(id, b, hash), OwnFactWrites(b.facts, hash));
      var head := InsertAll(db, SessionRows(id, b, hash));
      if head.Some? {
        HeadSessions(db, id, b, hash);
        InsertedFactsRefine(head.value, b.facts, hash);
        PlacedIsStorable(db, head.value, b);
      }
    }
  }

  lemma HeadSessions(db: Rows, id: string, b: Bundle, hash: string -> string)
    requires PutAll(db, HeadWrites(id, b, hash)).Some?
    ensures forall x: string :: Session(x) in PutAll(db, HeadWrites(id, b, hash)).value <==> Session(x) in db || x == id
    ensures Linked(db) ==> Linked(PutAll(db, HeadWrites(id, b, hash)).value)
  {
    hide PutAll, Sealed, Linked;
    AcceptedMeans(db, HeadWrites(id, b, hash));
    if Linked(db) { HeadLinked(db, id, b, hash); }
    var after := PutAll(db, HeadWrites(id, b, hash)).value;
    assert HeadWrites(id, b, hash)[0].slot in after;
  }

  lemma HeadLinked(db: Rows, id: string, b: Bundle, hash: string -> string)
    requires PutAll(db, HeadWrites(id, b, hash)).Some? && Linked(db)
    ensures Linked(PutAll(db, HeadWrites(id, b, hash)).value)
  {
    hide PutAll, Sealed;
    AcceptedMeans(db, HeadWrites(id, b, hash));
    assert HeadWrites(id, b, hash)[0].slot == Session(id);
  }

  lemma PlacedIsStorable(db: Rows, head: Rows, b: Bundle)
    requires b.sessionId.Some? && forall x: string :: Session(x) in head <==> Session(x) in db || x == b.sessionId.value
    ensures Placed(db, b) <==> Storable(head, b.facts)
  {
    hide RowsStorable, RowsPlaced;
    forall i | 0 <= i < |b.facts|
      ensures RowsStorable(head, b.facts[i].0, b.facts[i].1) <==> RowsPlaced(db, b.sessionId, b.facts[i].0, b.facts[i].1)
    {
      RowsPlacedIff(db, head, b.sessionId.value, b.facts[i].0, b.facts[i].1);
    }
  }

  lemma RowsPlacedIff(db: Rows, head: Rows, id: string, table: string, rows: seq<Row>)
    requires forall x: string :: Session(x) in head <==> Session(x) in db || x == id
    ensures RowsStorable(head, table, rows) <==> RowsPlaced(db, Some(id), table, rows)
  {
    forall j | 0 <= j < |rows| ensures RowStorable(head, table, rows[j]) <==> RowPlaced(db, Some(id), table, rows[j]) {
    }
  }

  lemma {:induction false} OwnFacts(id: string, entries: seq<(string, seq<Row>)>, hash: string -> string)
    requires forall i, j :: 0 <= i < |entries| && 0 <= j < |entries[i].1| ==> entries[i].1[j].sessionId == Some(id)
    ensures OwnFactWrites(entries, hash) == FactWrites(id, entries, hash)
    decreases |entries|
  {
    if entries != [] {
      OwnFacts(id, entries[1..], hash);
      assert OwnRowWrites(entries[0].0, entries[0].1, hash) == RowWrites(entries[0].0, id, entries[0].1, hash);
    }
  }

  /** Rows that carry the bundle's session id are written alike, and placed exactly if they
      have an index and a supported table. */
  lemma OwnedWrites(db: Rows, b: Bundle, hash: string -> string)
    requires Owned(b)
    ensures OwnWrites(b, hash) == Writes(b, hash)
    ensures Supported(b) && b.sessionId.Some? ==> (Placed(db, b) <==> Indexed(b))
  {
    if b.sessionId.Some? {
      OwnFacts(b.sessionId.value, b.facts, hash);
    }
  }

  lemma RelationsRefine(db: Rows, b: Bundle, hash: string -> string)
    requires Supported(b) && Keyed(b)
    ensures Inserted(db, b, hash) == PutAll(db, Writes(b, hash))
  {
    PlacedRefines(db, b, hash);
    OwnedWrites(db, b, hash);
  }

  lemma HeadInserted(db: Rows, id: string, b: Bundle, hash: string -> string)
    ensures var p := PutAll(db, HeadWrites(id, b, hash));
      InsertAll(db, SessionRows(id, b, hash)) == p && (p.Some? ==> Session(id) in p.value)
  {
    var rows, writes := SessionRows(id, b, hash), HeadWrites(id, b, hash);
    var next := Immutable(db, rows[0].0, rows[0].1);
    if next.Some? { TailInserted(next.value, id, rows[1..], writes[1..]); }
  }

  lemma {:induction false} TailInserted(db: Rows, id: string, rows: seq<(Slot, Entry)>, writes: seq<Write>)
    requires Session(id) in db && |rows| == |writes|
    requires forall i :: 0 <= i < |rows| ==> writes[i] == Put(rows[i].0, rows[i].1) && rows[i].0.id == id
    ensures var p := PutAll(db, writes); InsertAll(db, rows) == p && (p.Some? ==> Session(id) in p.value)
    decreases |rows|
  {
    if rows != [] {
      var next := Immutable(db, rows[0].0, rows[0].1);
      if next.Some? { TailInserted(next.value, id, rows[1..], writes[1..]); }
    }
  }
}
