/** Fact rows extracted from a daily report, and why bundles built from them only ever
    conflict with what is already stored. */
module DailyFacts {
  import opened Outcomes
  import opened Store
  import opened StoreRefinement
  import opened StoreHistory
  import Texts

  /** A mapping's text fields; an empty text is falsy. */
  type Source = map<string, string>

  datatype Report = Report(sessionId: string, orders: seq<Source>, fills: seq<Source>, positions: map<string, string>,
                           equity: seq<Source>, reconciliation: seq<Source>)

  /** How sources and their digests are written out. */
  datatype Codec = Codec(text: Source -> string, hash: string -> string)

  function Field(source: Source, name: string): Option<string> {
    if name in source then Some(source[name]) else None
  }

  /** Python's `or`: the first operand if it is truthy, else the second. */
  function Or(first: Option<string>, second: Option<string>): Option<string> {
    if first.Some? && first.value != "" then first else second
  }

  function Identity(payload: Source, preferred: string, c: Codec): string {
    var named := Or(Or(Field(payload, preferred), Field(payload, "order_id")), Field(payload, "fill_id"));
    if named.Some? then named.value
    else
      var other := Or(Field(payload, "symbol"), Field(payload, "timestamp"));
      if other.Some? && other.value != "" then other.value else Shortened(c.hash(c.text(payload)))
  }

  function Shortened(digest: string): string {
    if |digest| <= 16 then digest else digest[..16]
  }

  function FactRow(sessionId: string, payload: Source, preferred: string, index: int, c: Codec): Row {
    Row(Some(sessionId), Some(Identity(payload, preferred, c)), Some(index), Record(c.text(payload), Some(c.hash(c.text(payload)))))
  }

  function FactRows(sessionId: string, items: seq<Source>, preferred: string, c: Codec): (r: seq<Row>)
    ensures |r| == |items|
    ensures forall i :: 0 <= i < |items| ==> r[i] == FactRow(sessionId, items[i], preferred, i, c)
  {
    seq(|items|, i requires 0 <= i < |items| => FactRow(sessionId, items[i], preferred, i, c))
  }

  function PositionItems(positions: map<string, string>): seq<Source> {
    var symbols := Texts.SortedSet(positions.Keys);
    seq(|symbols|, i requires 0 <= i < |symbols| => map["symbol" := symbols[i], "quantity" := positions[symbols[i]]])
  }

  function ExtractFacts(report: Report, c: Codec): seq<(string, seq<Row>)> {
    [("paper_orders", FactRows(report.sessionId, report.orders, "order_id", c)),
     ("paper_fills", FactRows(report.sessionId, report.fills, "fill_id", c)),
     ("paper_positions", FactRows(report.sessionId, PositionItems(report.positions), "symbol", c)),
     ("paper_equity_curve", FactRows(report.sessionId, report.equity, "timestamp", c)),
     ("paper_reconciliation", FactRows(report.sessionId, report.reconciliation, "reconciliation_id", c))]
  }

  /** The bundle the service persists for a report. */
  function BundleOf(report: Report, session: Record, text: string, learning: string, shadow: string, c: Codec): Bundle {
    Bundle(Some(report.sessionId), session, text, learning, shadow, ExtractFacts(report, c))
  }

  /** Extracted facts meet the condition under which the two stores agree. */
  lemma ExtractedFactsAreKeyed(report: Report, session: Record, text: string, learning: string, shadow: string, c: Codec)
    ensures var b := BundleOf(report, session, text, learning, shadow, c); Supported(b) && Keyed(b)
  {
  }

  /** No two writes share a slot. */
  ghost predicate Distinct(writes: seq<Write>) {
    forall i, j :: 0 <= i < j < |writes| && writes[i].Put? && writes[j].Put? ==> writes[i].slot != writes[j].slot
  }

  ghost predicate InTables(writes: seq<Write>, tables: set<string>, id: string) {
    forall i :: 0 <= i < |writes| ==>
      writes[i].Put? && writes[i].slot.Fact? && writes[i].slot.table in tables && writes[i].slot.id == id
  }

  function TableNames(entries: seq<(string, seq<Row>)>): set<string> {
    set i | 0 <= i < |entries| :: entries[i].0
  }

  /** Rows of one table, numbered by position. */
  ghost predicate Numbered(rows: seq<Row>) {
    forall j :: 0 <= j < |rows| ==> rows[j].identity.Some? && rows[j].index == Some(j)
  }

  lemma {:induction false} FactWritesDistinct(id: string, entries: seq<(string, seq<Row>)>, hash: string -> string)
    requires forall i :: 0 <= i < |entries| ==> Numbered(entries[i].1)
    requires forall i, j :: 0 <= i < j < |entries| ==> entries[i].0 != entries[j].0
    ensures var writes := FactWrites(id, entries, hash); Distinct(writes) && InTables(writes, TableNames(entries), id)
    decreases |entries|
  {
    if entries != [] {
      var rest := entries[1..];
      forall i | 0 <= i < |rest| ensures Numbered(rest[i].1) && rest[i].0 != entries[0].0 {
        assert rest[i] == entries[i + 1];
      }
      FactWritesDistinct(id, rest, hash);
      var first, later := RowWrites(entries[0].0, id, entries[0].1, hash), FactWrites(id, rest, hash);
      assert Numbered(entries[0].1);
      assert InTables(first, {entries[0].0}, id) && Distinct(first);
      assert entries[0].0 !in TableNames(rest);
      assert TableNames(entries) == {entries[0].0} + TableNames(rest) by {
        assert forall i :: 0 <= i < |rest| ==> rest[i] == entries[i + 1];
        forall t | t in TableNames(entries) ensures t in {entries[0].0} + TableNames(rest) {
          var i :| 0 <= i < |entries| && entries[i].0 == t;
          if i > 0 { assert rest[i - 1].0 == t; }
        }
        forall t | t in TableNames(rest) ensures t in TableNames(entries) {
          var i :| 0 <= i < |rest| && rest[i].0 == t;
          assert entries[i + 1].0 == t;
        }
      }
      DistinctConcat(first, {entries[0].0}, later, TableNames(rest), id);
    }
  }

  lemma DistinctConcat(first: seq<Write>, a: set<string>, later: seq<Write>, b: set<string>, id: string)
    requires Distinct(first) && InTables(first, a, id) && Distinct(later) && InTables(later, b, id) && a !! b
    ensures Distinct(first + later) && InTables(first + later, a + b, id)
  {
  }

  lemma BundleWritesDistinct(report: Report, session: Record, text: string, learning: string, shadow: string, c: Codec)
    ensures var writes := Writes(BundleOf(report, session, text, learning, shadow, c), c.hash);
      && Distinct(writes)
      && forall i :: 0 <= i < |writes| ==> writes[i].Put? && writes[i].slot.id == report.sessionId
  {
    hide FactRow;
    var b := BundleOf(report, session, text, learning, shadow, c);
    var id, facts := report.sessionId, FactWrites(report.sessionId, b.facts, c.hash);
    RowsNumbered(report, c);
    FactWritesDistinct(id, b.facts, c.hash);
    var head := HeadWrites(id, b, c.hash);
    assert forall i :: 0 <= i < |head| ==> head[i].Put? && !head[i].slot.Fact? && head[i].slot.id == id;
    assert Writes(b, c.hash) == head + facts;
  }

  lemma RowsNumbered(report: Report, c: Codec)
    ensures forall i :: 0 <= i < 5 ==> Numbered(ExtractFacts(report, c)[i].1)
  {
  }

  /** A bundle of extracted facts never contradicts itself: it is accepted exactly when every
      row already stored under one of its keys has the same digest, so a report of a session
      that is not stored yet is always accepted. */
  lemma OnlyStoredRowsConflict(m: Rows, report: Report, session: Record, text: string, learning: string, shadow: string, c: Codec)
    ensures var writes := Writes(BundleOf(report, session, text, learning, shadow, c), c.hash);
      && (PutAll(m, writes).Some? <==>
            forall i :: 0 <= i < |writes| ==>
              writes[i].Put? && (writes[i].slot in m ==> m[writes[i].slot].digest == writes[i].entry.digest))
      && ((forall slot :: slot in m ==> slot.id != report.sessionId) ==> PutAll(m, writes).Some?)
  {
    hide Writes, PutAll, BundleOf;
    var writes := Writes(BundleOf(report, session, text, learning, shadow, c), c.hash);
    BundleWritesDistinct(report, session, text, learning, shadow, c);
    AcceptedIff(m, writes);
  }

  // ----- Which rows a report gives

  ghost predicate Names(source: Source, field: string) {
    field in source && source[field] != ""
  }

  /** The identity of a row: the preferred field, else the order id, else the fill id, and
      only then the symbol, the timestamp, or the first sixteen characters of its digest. */
  lemma IdentityIs(source: Source, preferred: string, c: Codec)
    ensures var identity := Identity(source, preferred, c);
      var digest := c.hash(c.text(source));
      if Names(source, preferred) then identity == source[preferred]
      else if Names(source, "order_id") then identity == source["order_id"]
      else if "fill_id" in source then identity == source["fill_id"]
      else if Names(source, "symbol") then identity == source["symbol"]
      else if Names(source, "timestamp") then identity == source["timestamp"]
      else |identity| == (if |digest| < 16 then |digest| else 16) && identity <= digest
  {
  }

  /** Every item of a report becomes the row of its kind's table at its own place, with its
      text as content and the digest of that. */
  lemma RowsOfReport(report: Report, c: Codec)
    ensures var facts := ExtractFacts(report, c);
      && |facts| == 5
      && Extracted(facts[0], "paper_orders", report.sessionId, report.orders, "order_id", c)
      && Extracted(facts[1], "paper_fills", report.sessionId, report.fills, "fill_id", c)
      && facts[2].0 == "paper_positions"
      && Extracted(facts[3], "paper_equity_curve", report.sessionId, report.equity, "timestamp", c)
      && Extracted(facts[4], "paper_reconciliation", report.sessionId, report.reconciliation, "reconciliation_id", c)
  {
    hide Identity, PositionItems;
  }

  /** Every position becomes one row. */
  lemma RowOfPosition(report: Report, c: Codec, symbol: string)
    requires symbol in report.positions
    ensures |ExtractFacts(report, c)[2].1| == |report.positions|
    ensures exists i :: PositionAt(ExtractFacts(report, c)[2].1, i, symbol, report.positions[symbol], c)
  {
    hide Identity;
    var symbols, rows := Texts.SortedSet(report.positions.Keys), ExtractFacts(report, c)[2].1;
    SortedSize(report.positions.Keys);
    assert |rows| == |symbols| && |report.positions| == |report.positions.Keys|;
    var i :| 0 <= i < |symbols| && symbols[i] == symbol;
    IdentityIs(PositionItems(report.positions)[i], "symbol", c);
    assert rows[i] == FactRow(report.sessionId, PositionItems(report.positions)[i], "symbol", i, c);
    assert PositionAt(rows, i, symbol, report.positions[symbol], c);
  }

  /** The i-th row is the position in the symbol. */
  ghost predicate PositionAt(rows: seq<Row>, i: int, symbol: string, quantity: string, c: Codec) {
    && 0 <= i < |rows| && rows[i].index == Some(i)
    && rows[i].record.content == c.text(map["symbol" := symbol, "quantity" := quantity])
    && (symbol != "" ==> rows[i].identity == Some(symbol))
  }

  ghost predicate Extracted(entry: (string, seq<Row>), table: string, sessionId: string, items: seq<Source>, preferred: string, c: Codec) {
    && entry.0 == table && |entry.1| == |items|
    && forall i :: 0 <= i < |items| ==>
         && entry.1[i].sessionId == Some(sessionId) && entry.1[i].index == Some(i)
         && entry.1[i].identity == Some(Identity(items[i], preferred, c))
         && entry.1[i].record == Record(c.text(items[i]), Some(c.hash(c.text(items[i]))))
  }

  lemma {:induction false} SortedSize(s: set<string>)
    ensures |Texts.SortedSet(s)| == |s|
  {
    if s != {} { SortedSize(s - {Texts.LeastOf(s)}); }
  }
}
