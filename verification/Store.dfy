/** Atomic reporting persistence: a store of dictionaries that validates on copies and swaps,
    and a relational store that selects, then inserts, inside a transaction. */
module Store {
  import opened Outcomes

  // ----- Bundles

  /** A row's contents in canonical form, and the digest it brings along, if any. */
  datatype Record = Record(content: string, digest: Option<string>)

  datatype Row = Row(sessionId: Option<string>, identity: Option<string>, index: Option<int>, record: Record)

  /** `facts` lists the entries of a dictionary in its order. */
  datatype Bundle = Bundle(sessionId: Option<string>, session: Record, report: string, learning: string,
                           shadow: string, facts: seq<(string, seq<Row>)>)

  datatype Entry = Entry(content: string, digest: string)

  /** `row.setdefault(digest_key, payload_digest(...))`. */
  function Sealed(record: Record, hash: string -> string): Entry {
    Entry(record.content, if record.digest.Some? then record.digest.value else hash(record.content))
  }

  function Plain(content: string): Record {
    Record(content, None)
  }

  const FACT_TABLES: set<string> :=
    {"paper_orders", "paper_fills", "paper_positions", "paper_equity_curve", "paper_reconciliation"}

  // ----- Dictionaries

  type FactKey = (string, string, int)
  type Facts = map<string, map<FactKey, Entry>>

  datatype Tables = Tables(sessions: map<string, Entry>, reports: map<string, Entry>, learning: map<string, Entry>,
                           shadow: map<string, Entry>, facts: Facts)

  const EMPTY_TABLES := Tables(map[], map[], map[], map[], map name | name in FACT_TABLES :: map[])

  /** First write wins; a second one must agree on the digest. */
  function Immutable<K>(table: map<K, Entry>, key: K, entry: Entry): Option<map<K, Entry>> {
    if key !in table then Some(table[key := entry])
    else if table[key].digest != entry.digest then None
    else Some(table)
  }

  function WriteRow(facts: Facts, table: string, id: string, row: Row, hash: string -> string): Option<Facts>
    requires table in facts
  {
    if row.identity.None? then None
    else
      var index := if row.index.Some? then row.index.value else 0;
      var written := Immutable(facts[table], (id, row.identity.value, index), Sealed(row.record, hash));
      if written.None? then None else Some(facts[table := written.value])
  }

  function WriteRows(facts: Facts, table: string, id: string, rows: seq<Row>, hash: string -> string): (r: Option<Facts>)
    requires table in facts
    ensures r.Some? ==> r.value.Keys == facts.Keys
    decreases |rows|
  {
    if rows == [] then Some(facts)
    else
      var written := WriteRow(facts, table, id, rows[0], hash);
      if written.None? then None else WriteRows(written.value, table, id, rows[1..], hash)
  }

  function WriteFacts(facts: Facts, id: string, entries: seq<(string, seq<Row>)>, hash: string -> string): Option<Facts>
    decreases |entries|
  {
    if entries == [] then Some(facts)
    else if entries[0].0 !in facts then None
    else
      var written := WriteRows(facts, entries[0].0, id, entries[0].1, hash);
      if written.None? then None else WriteFacts(written.value, id, entries[1..], hash)
  }

  function Written(t: Tables, b: Bundle, hash: string -> string): Option<Tables> {
    if b.sessionId.None? then None
    else
      var id := b.sessionId.value;
      var sessions := Immutable(t.sessions, id, Sealed(b.session, hash));
      var reports := Immutable(t.reports, id, Sealed(Plain(b.report), hash));
      var learning := Immutable(t.learning, id, Sealed(Plain(b.learning), hash));
      var shadow := Immutable(t.shadow, id, Sealed(Plain(b.shadow), hash));
      var facts := WriteFacts(t.facts, id, b.facts, hash);
      if sessions.Some? && reports.Some? && learning.Some? && shadow.Some? && facts.Some? then
        Some(Tables(sessions.value, reports.value, learning.value, shadow.value, facts.value))
      else None
  }

  class InMemoryReportingStore {
    const hash: string -> string
    var sessions: map<string, Entry>
    var reports: map<string, Entry>
    var learning: map<string, Entry>
    var shadow: map<string, Entry>
    var facts: Facts

    function State(): Tables
      reads this
    {
      Tables(sessions, reports, learning, shadow, facts)
    }

    constructor (hash: string -> string)
      ensures State() == EMPTY_TABLES && this.hash == hash
    {
      this.hash := hash;
      sessions, reports, learning, shadow := map[], map[], map[], map[];
      facts := EMPTY_TABLES.facts;
    }

    /** Writes into copies, then swaps them in: an exception leaves everything as it was. */
    method PersistCycle(bundle: Bundle) returns (accepted: bool)
      modifies this
      ensures accepted == Written(old(State()), bundle, hash).Some?
      ensures State() == if accepted then Written(old(State()), bundle, hash).value else old(State())
    {
      var copies := Tables(sessions, reports, learning, shadow, facts);
      var written := WriteBundle(copies, bundle);
      accepted := written.Some?;
      if accepted {
        sessions, reports, learning := written.value.sessions, written.value.reports, written.value.learning;
        shadow, facts := written.value.shadow, written.value.facts;
      }
    }

    method WriteBundle(tables: Tables, bundle: Bundle) returns (written: Option<Tables>)
      ensures written == Written(tables, bundle, hash)
    {
      if bundle.sessionId.None? { return None; }
      var id := bundle.sessionId.value;
      var newSessions := Immutable(tables.sessions, id, Sealed(bundle.session, hash));
      if newSessions.None? { return None; }
      var newReports := Immutable(tables.reports, id, Sealed(Plain(bundle.report), hash));
      if newReports.None? { return None; }
      var newLearning := Immutable(tables.learning, id, Sealed(Plain(bundle.learning), hash));
      if newLearning.None? { return None; }
      var newShadow := Immutable(tables.shadow, id, Sealed(Plain(bundle.shadow), hash));
      if newShadow.None? { return None; }
      var newFacts := tables.facts;
      for i := 0 to |bundle.facts|
        invariant WriteFacts(newFacts, id, bundle.facts[i..], hash) == WriteFacts(tables.facts, id, bundle.facts, hash)
      {
        var (table, rows) := bundle.facts[i];
        assert bundle.facts[i..][1..] == bundle.facts[i + 1..];
        if table !in newFacts { return None; }
        ghost var before := newFacts;
        for j := 0 to |rows|
          invariant table in newFacts
          invariant WriteRows(newFacts, table, id, rows[j..], hash) == WriteRows(before, table, id, rows, hash)
        {
          assert rows[j..][1..] == rows[j + 1..];
          var added := WriteRow(newFacts, table, id, rows[j], hash);
          if added.None? { return None; }
          newFacts := added.value;
        }
      }
      return Some(Tables(newSessions.value, newReports.value, newLearning.value, newShadow.value, newFacts));
    }
  }

  // ----- Relational tables

  /** Primary keys across all tables. */
  datatype Slot =
    | Session(id: string)
    | Report(id: string)
    | Learning(id: string)
    | Shadow(id: string)
    | Fact(table: string, id: string, identity: string, index: int)

  type Rows = map<Slot, Entry>

  /** SELECT the digest; INSERT when there is none. Every table but the sessions refers to a
      session that must exist. */
  function CheckAndInsert(db: Rows, slot: Slot, entry: Entry): Option<Rows> {
    if slot in db then if db[slot].digest != entry.digest then None else Some(db)
    else if slot.Session? || Session(slot.id) in db then Some(db[slot := entry])
    else None
  }

  /** The key columns of a fact row; None when one is missing or there is no such table. */
  function RowSlot(table: string, row: Row): Option<Slot> {
    if table in FACT_TABLES && row.sessionId.Some? && row.identity.Some? && row.index.Some? then
      Some(Fact(table, row.sessionId.value, row.identity.value, row.index.value))
    else None
  }

  function InsertRow(db: Rows, table: string, row: Row, hash: string -> string): Option<Rows> {
    var slot := RowSlot(table, row);
    if slot.None? then None else CheckAndInsert(db, slot.value, Sealed(row.record, hash))
  }

  function InsertRows(db: Rows, table: string, rows: seq<Row>, hash: string -> string): Option<Rows>
    decreases |rows|
  {
    if rows == [] then Some(db)
    else
      var next := InsertRow(db, table, rows[0], hash);
      if next.None? then None else InsertRows(next.value, table, rows[1..], hash)
  }

  function InsertFacts(db: Rows, entries: seq<(string, seq<Row>)>, hash: string -> string): Option<Rows>
    decreases |entries|
  {
    if entries == [] then Some(db)
    else
      var next := InsertRows(db, entries[0].0, entries[0].1, hash);
      if next.None? then None else InsertFacts(next.value, entries[1..], hash)
  }

  /** The four rows of a session, in order. */
  function SessionRows(id: string, b: Bundle, hash: string -> string): seq<(Slot, Entry)> {
    [(Session(id), Sealed(b.session, hash)), (Report(id), Sealed(Plain(b.report), hash)),
     (Learning(id), Sealed(Plain(b.learning), hash)), (Shadow(id), Sealed(Plain(b.shadow), hash))]
  }

  function InsertAll(db: Rows, rows: seq<(Slot, Entry)>): Option<Rows>
    decreases |rows|
  {
    if rows == [] then Some(db)
    else
      var next := CheckAndInsert(db, rows[0].0, rows[0].1);
      if next.None? then None else InsertAll(next.value, rows[1..])
  }

  function Inserted(db: Rows, b: Bundle, hash: string -> string): Option<Rows> {
    if b.sessionId.None? then None
    else
      var head := InsertAll(db, SessionRows(b.sessionId.value, b, hash));
      if head.None? then None else InsertFacts(head.value, b.facts, hash)
  }

  class PostgreSQLReportingStore {
    const hash: string -> string
    /** What a new transaction sees. */
    var committed: Rows
    /** What the open transaction sees. */
    var working: Rows

    constructor (hash: string -> string)
      ensures committed == map[] && working == map[] && this.hash == hash
    {
      this.hash := hash;
      committed, working := map[], map[];
    }

    method Insert(slot: Slot, entry: Entry) returns (ok: bool)
      modifies this`working
      ensures ok == CheckAndInsert(old(working), slot, entry).Some?
      ensures working == if ok then CheckAndInsert(old(working), slot, entry).value else old(working)
    {
      if slot in working {
        return working[slot].digest == entry.digest;
      }
      ok := slot.Session? || Session(slot.id) in working;
      if ok { working := working[slot := entry]; }
    }

    /** Everything a bundle inserts becomes visible together, or nothing does. */
    method PersistCycle(bundle: Bundle) returns (accepted: bool)
      requires working == committed
      modifies this
      ensures working == committed
      ensures accepted == Inserted(old(committed), bundle, hash).Some?
      ensures committed == if accepted then Inserted(old(committed), bundle, hash).value else old(committed)
    {
      accepted := InsertBundle(bundle);
      if accepted {
        committed := working;
      } else {
        working := committed;
      }
    }

    method InsertBundle(bundle: Bundle) returns (ok: bool)
      modifies this`working
      ensures ok == Inserted(old(working), bundle, hash).Some?
      ensures ok ==> working == Inserted(old(working), bundle, hash).value
    {
      ghost var start := working;
      if bundle.sessionId.None? { return false; }
      var head := SessionRows(bundle.sessionId.value, bundle, hash);
      for i := 0 to |head|
        invariant InsertAll(working, head[i..]) == InsertAll(start, head)
      {
        assert head[i..][1..] == head[i + 1..];
        ok := Insert(head[i].0, head[i].1);
        if !ok { return; }
      }
      ghost var withSession := working;
      for i := 0 to |bundle.facts|
        invariant InsertFacts(working, bundle.facts[i..], hash) == InsertFacts(withSession, bundle.facts, hash)
      {
        var (table, rows) := bundle.facts[i];
        assert bundle.facts[i..][1..] == bundle.facts[i + 1..];
        ghost var before := working;
        for j := 0 to |rows|
          invariant InsertRows(working, table, rows[j..], hash) == InsertRows(before, table, rows, hash)
        {
          assert rows[j..][1..] == rows[j + 1..];
          var slot := RowSlot(table, rows[j]);
          if slot.None? { return false; }
          ok := Insert(slot.value, Sealed(rows[j].record, hash));
          if !ok { return; }
        }
      }
      ok := true;
    }
  }
}
