/** What the row-level rules of the snapshot mean for single rows and codes: keys, listing,
    calendar, instrument kinds and historical codes, in the terms of the rows' own texts. */
module SnapshotMeaning {
  import opened Outcomes
  import opened Texts
  import opened SnapshotRows

  // ----- Fields

  /** The row carries a text for the field, and not an empty one. */
  ghost predicate Has(row: Row, field: Field) {
    field in row && row[field] != ""
  }

  ghost predicate SameField(x: Row, y: Row, field: Field) {
    (field in x <==> field in y) && (field in x && field in y ==> x[field] == y[field])
  }

  // ----- Listing

  /** A stock is on the market from its list date through its delist date, if it has one. */
  lemma ListedDays(stocks: seq<Row>, stock: Row, day: string)
    requires stock in stocks && forall other :: other in stocks && Text(other, TsCode) == Text(stock, TsCode) ==> other == stock
    ensures var listed := Text(stock, TsCode) in PitCodes(stocks, day);
      && (!Has(stock, ListDate) ==> !listed)
      && (Has(stock, ListDate) && !Has(stock, DelistDate) ==> (listed <==> Le(stock[ListDate], day)))
      && (Has(stock, ListDate) && Has(stock, DelistDate) ==> (listed <==> Le(stock[ListDate], day) && Le(day, stock[DelistDate])))
  {
  }

  /** So it is listed on its list date and every later day, on no earlier one, and on no day
      after its delist date. */
  lemma ListedFromListDate(stocks: seq<Row>, stock: Row, day: string)
    requires stock in stocks && forall other :: other in stocks && Text(other, TsCode) == Text(stock, TsCode) ==> other == stock
    requires Has(stock, ListDate)
    ensures !Has(stock, DelistDate) || Le(stock[ListDate], stock[DelistDate]) ==> Text(stock, TsCode) in PitCodes(stocks, stock[ListDate])
    ensures !Has(stock, DelistDate) && Le(stock[ListDate], day) ==> Text(stock, TsCode) in PitCodes(stocks, day)
    ensures day != stock[ListDate] && Le(day, stock[ListDate]) ==> Text(stock, TsCode) !in PitCodes(stocks, day)
    ensures Has(stock, DelistDate) && day != stock[DelistDate] && Le(stock[DelistDate], day) ==> Text(stock, TsCode) !in PitCodes(stocks, day)
  {
    ListedDays(stocks, stock, day);
    ListedDays(stocks, stock, stock[ListDate]);
    LeTotal(stock[ListDate], stock[ListDate]);
    if Le(day, stock[ListDate]) && Le(stock[ListDate], day) { LeAntisymmetric(day, stock[ListDate]); }
    if Has(stock, DelistDate) && Le(day, stock[DelistDate]) && Le(stock[DelistDate], day) {
      LeAntisymmetric(day, stock[DelistDate]);
    }
    hide PitCodes;
  }

  // ----- Business keys

  /** The fields without which a row of the dataset is refused. */
  ghost predicate WellKeyed(dataset: Dataset, row: Row) {
    match dataset
    case StockBasic => Has(row, TsCode)
    case Calendar => Has(row, Exchange) && Has(row, CalDate)
    case Daily | AdjFactor | Benchmark | DailyBasic | Limits => Has(row, TsCode) && Has(row, TradeDate)
    case Suspend => Has(row, TsCode) && Has(row, TradeDate) && Has(row, SuspendType)
    case NameChange | NameShard => Has(row, TsCode) && Has(row, Name) && Has(row, StartDate)
  }

  /** The fields that tell two rows of the dataset apart. */
  ghost predicate SameRecord(dataset: Dataset, x: Row, y: Row) {
    match dataset
    case StockBasic => SameField(x, y, TsCode)
    case Calendar => SameField(x, y, Exchange) && SameField(x, y, CalDate)
    case Daily | AdjFactor | Benchmark | DailyBasic | Limits => SameField(x, y, TsCode) && SameField(x, y, TradeDate)
    case Suspend => SameField(x, y, TsCode) && SameField(x, y, TradeDate) && SameField(x, y, SuspendType) && SameField(x, y, SuspendTiming)
    case NameChange | NameShard =>
      && SameField(x, y, TsCode) && SameField(x, y, Name) && SameField(x, y, StartDate) && SameField(x, y, EndDate)
      && SameField(x, y, AnnDate) && SameField(x, y, ChangeReason)
  }

  lemma NullIffNotKeyed(dataset: Dataset, row: Row)
    ensures HasNullKey(dataset, row) <==> !WellKeyed(dataset, row)
  {
    var fields := RequiredFields(dataset);
    assert forall field :: field in fields ==> (Has(row, field) <==> Text(row, field) != "");
    match dataset
    case StockBasic => assert fields == [TsCode];
    case Calendar => assert fields == [Exchange, CalDate];
    case Suspend => assert fields == [TsCode, TradeDate, SuspendType];
    case NameChange => assert fields == [TsCode, Name, StartDate];
    case NameShard => assert fields == [TsCode, Name, StartDate];
    case _ => assert fields == [TsCode, TradeDate];
  }

  lemma SameKeyIff(dataset: Dataset, x: Row, y: Row)
    ensures KeyOf(dataset, x) == KeyOf(dataset, y) <==> SameRecord(dataset, x, y)
  {
    var fields, k, l := StructuralKeys(dataset), KeyOf(dataset, x), KeyOf(dataset, y);
    assert |k| == |l| == |fields|;
    assert forall i :: 0 <= i < |fields| ==> (k[i] == l[i] <==> SameField(x, y, fields[i]));
    if forall i :: 0 <= i < |fields| ==> SameField(x, y, fields[i]) {
      assert k == l;
      assert forall field :: field in fields ==> SameField(x, y, field);
    }
    FieldsOf(dataset);
    hide SameField, StructuralKeys, KeyOf;
  }

  lemma FieldsOf(dataset: Dataset)
    ensures StructuralKeys(dataset) ==
      if dataset == StockBasic then [TsCode]
      else if dataset == Calendar then [Exchange, CalDate]
      else if dataset == Suspend then [TsCode, TradeDate, SuspendType, SuspendTiming]
      else if dataset == NameChange || dataset == NameShard then [TsCode, Name, StartDate, EndDate, AnnDate, ChangeReason]
      else [TsCode, TradeDate]
  {
  }

  lemma {:induction false} KeySetHas(dataset: Dataset, rows: seq<Row>, key: BusinessKey)
    ensures key in KeySet(dataset, rows) <==> exists i :: 0 <= i < |rows| && KeyOf(dataset, rows[i]) == key
  {
    hide KeyOf;
    if rows != [] {
      KeySetHas(dataset, rows[1..], key);
      if i :| 0 <= i < |rows| && KeyOf(dataset, rows[i]) == key {
        if i > 0 { assert rows[1..][i - 1] == rows[i]; }
      }
    }
  }

  lemma {:induction false} DistinctIff(dataset: Dataset, rows: seq<Row>)
    ensures DistinctKeys(dataset, rows) <==> forall i, j :: 0 <= i < j < |rows| ==> KeyOf(dataset, rows[i]) != KeyOf(dataset, rows[j])
  {
    hide KeyOf;
    if rows != [] {
      var rest := rows[1..];
      KeySetHas(dataset, rest, KeyOf(dataset, rows[0]));
      DistinctIff(dataset, rest);
      assert forall i :: 0 <= i < |rest| ==> rest[i] == rows[i + 1];
      assert DistinctKeys(dataset, rows) <==> KeyOf(dataset, rows[0]) !in KeySet(dataset, rest) && DistinctKeys(dataset, rest);
      if DistinctKeys(dataset, rows) {
        forall i, j | 0 <= i < j < |rows| ensures KeyOf(dataset, rows[i]) != KeyOf(dataset, rows[j]) {
          if i > 0 { assert rows[i] == rest[i - 1] && rows[j] == rest[j - 1]; } else { assert rows[j] == rest[j - 1]; }
        }
      }
    }
  }

  /** The rows that a partition may hold: every one with its key fields, outside the name
      history no two of the same record, and all of the partition's day if it has one. */
  ghost predicate Storable(dataset: Dataset, rows: seq<Row>, day: Option<string>) {
    && (forall row :: row in rows ==> WellKeyed(dataset, row))
    && (dataset != NameChange && dataset != NameShard ==>
          forall i, j :: 0 <= i < j < |rows| ==> !SameRecord(dataset, rows[i], rows[j]))
    && (day.Some? ==> forall row :: row in rows ==> Text(row, TradeDate) == day.value)
  }

  /** `_row_issues` finds nothing exactly in such tables. */
  lemma NoIssueIff(dataset: Dataset, rows: seq<Row>, day: Option<string>)
    ensures RowIssue(dataset, rows, day).None? <==> Storable(dataset, rows, day)
  {
    hide HasNullKey, WellKeyed, SameRecord, KeyOf, DistinctKeys;
    forall row | row in rows ensures HasNullKey(dataset, row) <==> !WellKeyed(dataset, row) {
      NullIffNotKeyed(dataset, row);
    }
    DistinctIff(dataset, rows);
    forall i, j | 0 <= i < j < |rows| ensures KeyOf(dataset, rows[i]) == KeyOf(dataset, rows[j]) <==> SameRecord(dataset, rows[i], rows[j]) {
      SameKeyIff(dataset, rows[i], rows[j]);
    }
  }

  /** De-duplication refuses what may not be stored; it leaves such a table as it is, and of
      a name history keeps one row of every record. */
  lemma DedupStores(dataset: Dataset, rows: seq<Row>)
    ensures Dedup(dataset, rows).Success? <==>
      && (forall row :: row in rows ==> WellKeyed(dataset, row))
      && (dataset != NameChange && dataset != NameShard ==> Storable(dataset, rows, None))
    ensures Dedup(dataset, rows).Success? ==>
      var out := Dedup(dataset, rows).value;
      && (dataset != NameChange && dataset != NameShard ==> out == rows)
      && (forall row :: row in out ==> row in rows)
      && (forall row :: row in rows ==> exists i :: 0 <= i < |out| && SameRecord(dataset, out[i], row))
      && (forall i, j :: 0 <= i < j < |out| ==> !SameRecord(dataset, out[i], out[j]))
  {
    DedupMeaning(dataset, rows, {});
    NoIssueIff(dataset, rows, None);
    hide HasNullKey, WellKeyed, SameRecord, KeyOf, DistinctKeys, Storable;
    forall row | row in rows ensures HasNullKey(dataset, row) <==> !WellKeyed(dataset, row) {
      NullIffNotKeyed(dataset, row);
    }
    if Dedup(dataset, rows).Success? { DedupKeeps(dataset, rows, Dedup(dataset, rows).value); }
    if dataset != NameChange && dataset != NameShard { StorableNone(dataset, rows); }
  }

  lemma StorableNone(dataset: Dataset, rows: seq<Row>)
    requires dataset != NameChange && dataset != NameShard
    ensures Storable(dataset, rows, None) <==> (forall row :: row in rows ==> WellKeyed(dataset, row)) && DistinctKeys(dataset, rows)
  {
    NoIssueIff(dataset, rows, None);
    hide HasNullKey, WellKeyed, SameRecord, KeyOf, DistinctKeys;
    forall row | row in rows ensures HasNullKey(dataset, row) <==> !WellKeyed(dataset, row) {
      NullIffNotKeyed(dataset, row);
    }
  }

  lemma DedupKeeps(dataset: Dataset, rows: seq<Row>, out: seq<Row>)
    requires DistinctKeys(dataset, out) && KeySet(dataset, out) == KeySet(dataset, rows)
    ensures forall row :: row in rows ==> exists i :: 0 <= i < |out| && SameRecord(dataset, out[i], row)
    ensures forall i, j :: 0 <= i < j < |out| ==> !SameRecord(dataset, out[i], out[j])
  {
    hide KeyOf, SameRecord, KeySet, DistinctKeys;
    DistinctIff(dataset, out);
    forall i, j | 0 <= i < j < |out| ensures !SameRecord(dataset, out[i], out[j]) {
      SameKeyIff(dataset, out[i], out[j]);
    }
    forall row | row in rows ensures exists i :: 0 <= i < |out| && SameRecord(dataset, out[i], row) {
      var k :| 0 <= k < |rows| && rows[k] == row;
      KeySetHas(dataset, rows, KeyOf(dataset, row));
      KeySetHas(dataset, out, KeyOf(dataset, row));
      var i :| 0 <= i < |out| && KeyOf(dataset, out[i]) == KeyOf(dataset, row);
      SameKeyIff(dataset, out[i], row);
    }
  }

  /** Repeated records of a name history keep their first row, and the rows keep their order:
      `at` gives the place of every row that stays. */
  lemma {:induction false} FirstsStay(dataset: Dataset, rows: seq<Row>, seen: set<BusinessKey>) returns (at: seq<nat>)
    requires DedupFrom(dataset, rows, seen).Success?
    ensures var out := DedupFrom(dataset, rows, seen).value;
      && |at| == |out|
      && (forall i :: 0 <= i < |at| ==> at[i] < |rows| && out[i] == rows[at[i]])
      && (forall i, j :: 0 <= i < j < |at| ==> at[i] < at[j])
      && (forall i, k :: 0 <= i < |at| && 0 <= k < at[i] ==> KeyOf(dataset, rows[k]) != KeyOf(dataset, rows[at[i]]))
      && (forall i :: 0 <= i < |at| ==> KeyOf(dataset, out[i]) !in seen)
  {
    hide KeyOf, HasNullKey;
    if rows == [] {
      at := [];
    } else {
      var key, rest := KeyOf(dataset, rows[0]), rows[1..];
      assert forall k :: 0 <= k < |rest| ==> rest[k] == rows[k + 1];
      if key in seen {
        var more := FirstsStay(dataset, rest, seen);
        at := seq(|more|, i requires 0 <= i < |more| => more[i] + 1);
      } else {
        var more := FirstsStay(dataset, rest, seen + {key});
        at := [0] + seq(|more|, i requires 0 <= i < |more| => more[i] + 1);
      }
    }
  }

  // ----- Calendar and benchmark

  ghost predicate Open(row: Row) {
    IsOpen in row && (row[IsOpen] == "1" || row[IsOpen] == "True" || row[IsOpen] == "true")
  }

  lemma {:induction false} OpenDatesAre(rows: seq<Row>, date: string)
    ensures date in OpenDates(rows) <==> exists i :: 0 <= i < |rows| && Open(rows[i]) && Text(rows[i], CalDate) == date
  {
    if rows != [] {
      OpenDatesAre(rows[1..], date);
      if i :| 0 <= i < |rows| && Open(rows[i]) && Text(rows[i], CalDate) == date {
        if i > 0 { assert rows[1..][i - 1] == rows[i]; }
      }
    }
  }

  /** The sessions are the open dates of the calendar, in order. */
  lemma SessionsAre(calendar: seq<Row>)
    ensures Sorted(Sessions(calendar))
    ensures forall date :: date in Sessions(calendar) <==> exists i :: 0 <= i < |calendar| && Open(calendar[i]) && Text(calendar[i], CalDate) == date
  {
    SortSorted(OpenDates(calendar));
    forall date ensures date in Sessions(calendar) <==> date in OpenDates(calendar) {
      assert date in Sessions(calendar) <==> date in multiset(Sessions(calendar));
    }
    forall date ensures date in OpenDates(calendar) <==> exists i :: 0 <= i < |calendar| && Open(calendar[i]) && Text(calendar[i], CalDate) == date {
      OpenDatesAre(calendar, date);
    }
    hide Sessions, OpenDates, Open;
  }

  /** A calendar covers a range with dates on both sides of it, and an exchange named. */
  lemma CoversIff(rows: seq<Row>, start: string, end: string)
    ensures CalendarCovers(rows, start, end) <==>
      && (exists row :: row in rows && Has(row, CalDate) && Le(row[CalDate], start))
      && (exists row :: row in rows && Has(row, CalDate) && Le(end, row[CalDate]))
      && (exists row :: row in rows && Has(row, Exchange))
  {
    hide Le;
    assert forall row, field :: Has(row, field) ==> Text(row, field) == row[field] && row[field] != "";
    if CalendarCovers(rows, start, end) {
      var x :| x in rows && Text(x, CalDate) != "" && Le(Text(x, CalDate), start);
      var y :| y in rows && Text(y, CalDate) != "" && Le(end, Text(y, CalDate));
      var z :| z in rows && Text(z, Exchange) != "";
      assert Has(x, CalDate) && Has(y, CalDate) && Has(z, Exchange);
    }
  }

  /** A benchmark covers the sessions if it has rows, and one of every session. */
  lemma BenchmarkCoversIff(benchmark: seq<Row>, sessions: seq<string>)
    ensures CoversSessions(benchmark, sessions) <==>
      |benchmark| > 0 && forall date :: date in sessions ==> exists i :: 0 <= i < |benchmark| && Text(benchmark[i], TradeDate) == date
  {
    if CoversSessions(benchmark, sessions) {
      forall date | date in sessions ensures exists i :: 0 <= i < |benchmark| && Text(benchmark[i], TradeDate) == date {
        var row :| row in benchmark && Text(row, TradeDate) == date;
      }
    }
  }

  // ----- Codes

  lemma UpperAt(code: string, i: nat)
    requires i < |code|
    ensures |Upper(code)| == |code|
    ensures !('a' <= code[i] <= 'z') ==> Upper(code)[i] == code[i]
    ensures 'a' <= code[i] <= 'z' ==> 'A' <= Upper(code)[i] <= 'Z' && Upper(code)[i] - 'A' == code[i] - 'a'
  {
  }

  /** The parts of a code around its first dot. */
  lemma {:induction false} AroundDot(code: string)
    ensures '.' !in BeforeDot(code)
    ensures '.' in code ==> code == BeforeDot(code) + "." + AfterDot(code)
    ensures '.' !in code ==> BeforeDot(code) == code && AfterDot(code) == ""
  {
    if code != [] {
      assert code == [code[0]] + code[1..];
      if code[0] != '.' { AroundDot(code[1..]); }
    }
  }

  ghost predicate LastDot(code: string, i: int) {
    0 <= i < |code| && code[i] == '.' && forall k :: i < k < |code| ==> code[k] != '.'
  }

  /** `suffix` is what follows the last dot, or all of a code without one. */
  ghost predicate EndsIn(code: string, suffix: string) {
    if '.' in code then exists i :: LastDot(code, i) && suffix == code[i + 1..] else suffix == code
  }

  /** The exchange suffix of a code is the one text it ends in after its last dot. */
  lemma {:induction false} SuffixIs(code: string, suffix: string)
    ensures Suffix(code) == suffix <==> EndsIn(code, suffix)
    decreases |code|
  {
    if '.' in code {
      AroundDot(code);
      hide BeforeDot, AfterDot;
      var rest := AfterDot(code);
      var n := |BeforeDot(code)|;
      assert rest == code[n + 1..];
      SuffixIs(rest, suffix);
      TailDots(code, n);
    }
  }

  lemma TailDots(code: string, n: nat)
    requires n < |code| && code[n] == '.'
    ensures '.' in code && forall suffix :: EndsIn(code, suffix) <==> EndsIn(code[n + 1..], suffix)
  {
    var rest := code[n + 1..];
    assert forall i :: 0 <= i < |rest| ==> rest[i] == code[n + 1 + i];
    if '.' in rest {
      var i :| 0 <= i < |rest| && rest[i] == '.';
      forall j ensures LastDot(code, j) <==> LastDot(rest, j - n - 1) {
        if LastDot(code, j) { assert j >= n + 1 + i; }
        if LastDot(rest, j - n - 1) { LaterDots(code, n, j); }
      }
      forall suffix ensures EndsIn(code, suffix) <==> EndsIn(rest, suffix) {
        if j :| LastDot(code, j) && suffix == code[j + 1..] { assert LastDot(rest, j - n - 1) && rest[j - n..] == code[j + 1..]; }
        if j :| LastDot(rest, j) && suffix == rest[j + 1..] { assert LastDot(code, j + n + 1) && rest[j + 1..] == code[j + n + 2..]; }
      }
    } else {
      OnlyDot(code, n);
    }
  }

  lemma LaterDots(code: string, n: nat, j: int)
    requires n < |code| && LastDot(code[n + 1..], j - n - 1)
    ensures LastDot(code, j)
  {
    forall k | j < k < |code| ensures code[k] != '.' {
      assert code[k] == code[n + 1..][k - n - 1];
    }
  }

  lemma OnlyDot(code: string, n: nat)
    requires n < |code| && code[n] == '.' && '.' !in code[n + 1..]
    ensures forall suffix :: EndsIn(code, suffix) <==> suffix == code[n + 1..]
  {
    forall k | n < k < |code| ensures code[k] != '.' {
      assert code[k] == code[n + 1..][k - n - 1];
    }
    assert LastDot(code, n);
  }
}
