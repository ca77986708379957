/**
 * The bulk import: each CSV row is mapped to a draft document (header
 * aliases, numeric fallbacks, tag splitting), and the drafts are written in
 * batches of 1000 after the collection has been emptied.
 */
module Seed {
  import opened Wrappers
  import opened TransactionModel
  import opened RecordStore
  import Text

  const BATCH_SIZE: nat := 1000

  /** A parsed CSV row: header to cell text; a header the file lacks is absent. */
  type Row = map<string, string>

  /**
   * The JavaScript conversions the mapping uses: `Number` on a cell that
   * `isNaN` accepts (`None` for one it rejects), `new Date(text)`, and the
   * clock `new Date()` reads: `clock(i)` is the instant at which the row at
   * position `i` of the file is mapped.
   */
  datatype Parsers = Parsers(number: string -> Option<int>, date: string -> Date, clock: nat -> Date)

  /** `row[header]`. */
  function Cell(row: Row, header: string): Option<string> {
    if header in row then Some(row[header]) else None
  }

  /** A cell that is present and non-empty, as `if (val)` tests it. */
  predicate Filled(v: Option<string>) {
    v.Some? && v.value != ""
  }

  /** `parseNumber(val)`: the numeric value of a filled, numeric cell, and 0 for anything else. */
  function ParseNumber(p: Parsers, v: Option<string>): (n: int)
    ensures !Filled(v) ==> n == 0
    ensures Filled(v) && p.number(v.value).None? ==> n == 0
    ensures Filled(v) && p.number(v.value).Some? ==> n == p.number(v.value).value
  {
    if Filled(v) then p.number(v.value).GetOr(0) else 0
  }

  /** `parseDate(val)`: the date a filled cell names, otherwise the instant `now` at which it is called. */
  function ParseDate(p: Parsers, v: Option<string>, now: Date): (d: Date)
    ensures !Filled(v) ==> d == now
    ensures Filled(v) ==> d == p.date(v.value)
  {
    if Filled(v) then p.date(v.value) else now
  }

  /** A column known under two headers: the primary header's cell when filled, otherwise the secondary's as it is. */
  function Alias(row: Row, primary: string, secondary: string): (v: Option<string>)
    ensures Filled(Cell(row, primary)) ==> v == Some(row[primary])
    ensures !Filled(Cell(row, primary)) ==> v == Cell(row, secondary)
  {
    if Filled(Cell(row, primary)) then Cell(row, primary) else Cell(row, secondary)
  }

  /**
   * The tags of a row: none for a missing or empty cell, otherwise the cell
   * split at every comma and each piece trimmed, empty pieces included.
   */
  function Tags(v: Option<string>): (tags: seq<string>)
    ensures !Filled(v) ==> tags == []
    ensures Filled(v) ==> |tags| == |Text.Split(v.value, ',')| == multiset(v.value)[','] + 1
    ensures Filled(v) ==> forall i :: 0 <= i < |tags| ==>
                            tags[i] == Text.Trim(Text.Split(v.value, ',')[i]) && Text.Trimmed(tags[i]) && ',' !in tags[i]
  {
    if Filled(v) then
      var parts := Text.Split(v.value, ',');
      Text.SplitCount(v.value, ',');
      Text.SplitPieces(v.value, ',');
      assert forall i :: 0 <= i < |parts| ==> ',' !in Text.Trim(parts[i]) by {
        forall i | 0 <= i < |parts| { Text.TrimWithin(parts[i]); }
      }
      seq(|parts|, i requires 0 <= i < |parts| => Text.Trim(parts[i]))
    else []
  }

  /** `mapRowToTransaction(row)`, called at instant `now`: the draft document for one CSV row. */
  function MapRowToTransaction(row: Row, p: Parsers, now: Date): (d: Draft)
    ensures d.quantity.Some? && d.date.Some?
    ensures d.currency.None? && d.imageUrl.None?
  {
    Draft(
      Alias(row, "Customer ID", "Customer_ID"),
      Alias(row, "Customer Name", "Customer_Name"),
      Alias(row, "Phone Number", "Phone_Number"),
      Cell(row, "Gender"),
      Some(ParseNumber(p, Cell(row, "Age"))),
      Alias(row, "Customer Region", "Customer_Region"),
      Alias(row, "Customer Type", "Customer_Type"),
      Alias(row, "Product ID", "Product_ID"),
      Alias(row, "Product Name", "Product_Name"),
      Cell(row, "Brand"),
      Alias(row, "Product Category", "Product_Category"),
      Some(Tags(Cell(row, "Tags"))),
      Some(ParseNumber(p, Cell(row, "Quantity"))),
      Some(ParseNumber(p, Cell(row, "Price per Unit"))),
      Some(ParseNumber(p, Cell(row, "Discount Percentage"))),
      Some(ParseNumber(p, Cell(row, "Total Amount"))),
      None,
      Some(ParseNumber(p, Cell(row, "Final Amount"))),
      Some(ParseDate(p, Cell(row, "Date"), now)),
      Alias(row, "Payment Method", "Payment_Method"),
      Alias(row, "Order Status", "Order_Status"),
      Alias(row, "Delivery Type", "Delivery_Type"),
      Alias(row, "Store ID", "Store_ID"),
      Alias(row, "Store Location", "Store_Location"),
      Alias(row, "Salesperson ID", "Salesperson_ID"),
      Alias(row, "Employee Name", "Employee_Name"),
      None)
  }

  /**
   * A mapped row is accepted exactly when its five text identities are
   * non-empty under one header or the other; quantity and date always get a
   * value. An accepted row is stored with currency "INR".
   */
  lemma RowAccepted(row: Row, p: Parsers, now: Date)
    ensures var d := MapRowToTransaction(row, p, now);
            Validate(d).Ok? <==>
              && HasText(Alias(row, "Customer ID", "Customer_ID"))
              && HasText(Alias(row, "Customer Name", "Customer_Name"))
              && HasText(Alias(row, "Phone Number", "Phone_Number"))
              && HasText(Alias(row, "Product ID", "Product_ID"))
              && HasText(Alias(row, "Product Name", "Product_Name"))
    ensures var r := Validate(MapRowToTransaction(row, p, now));
            r.Ok? ==> r.value.currency == DEFAULT_CURRENCY && r.value.quantity == ParseNumber(p, Cell(row, "Quantity"))
  {
  }

  // -------------------------------------------------------------------------
  // Batching

  /** The drafts of all rows, in input order, the row at position `i` mapped at instant `clock(i)`. */
  function Mapped(rows: seq<Row>, p: Parsers): (ds: seq<Draft>)
    ensures |ds| == |rows|
  {
    seq(|rows|, i requires 0 <= i < |rows| => MapRowToTransaction(rows[i], p, p.clock(i)))
  }

  /** Each row becomes its own draft, mapped at its own instant: the mapping looks at no other row. */
  lemma MappedRows(rows: seq<Row>, p: Parsers)
    ensures forall i :: 0 <= i < |rows| ==> Mapped(rows, p)[i] == MapRowToTransaction(rows[i], p, p.clock(i))
  {
  }

  function Flatten<T>(bs: seq<seq<T>>): seq<T>
    decreases |bs|
  {
    if bs == [] then [] else bs[0] + Flatten(bs[1..])
  }

  lemma {:induction false} FlattenAppend<T>(bs: seq<seq<T>>, b: seq<T>)
    ensures Flatten(bs + [b]) == Flatten(bs) + b
    decreases |bs|
  {
    if bs == [] {
      assert [] + [b] == [b];
    } else {
      assert (bs + [b])[1..] == bs[1..] + [b];
      FlattenAppend(bs[1..], b);
    }
  }

  /** The batches of `n` a stream of drafts is cut into, front to back. */
  function Chunks<T>(ds: seq<T>, n: nat): seq<seq<T>>
    requires n > 0
    decreases |ds|
  {
    if ds == [] then []
    else if |ds| <= n then [ds]
    else [ds[..n]] + Chunks(ds[n..], n)
  }

  /**
   * The chunks are consecutive pieces of the stream: each non-empty, all but
   * the last exactly `n` long, and together the whole stream in order.
   */
  lemma {:induction false} ChunksLaws<T>(ds: seq<T>, n: nat)
    requires n > 0
    ensures Flatten(Chunks(ds, n)) == ds
    ensures forall k :: 0 <= k < |Chunks(ds, n)| ==> 0 < |Chunks(ds, n)[k]| <= n
    ensures forall k :: 0 <= k < |Chunks(ds, n)| - 1 ==> |Chunks(ds, n)[k]| == n
    decreases |ds|
  {
    if |ds| > n {
      ChunksLaws(ds[n..], n);
      var bs := Chunks(ds, n);
      assert bs == [ds[..n]] + Chunks(ds[n..], n);
      assert bs[1..] == Chunks(ds[n..], n);
      assert ds == ds[..n] + ds[n..];
      assert forall k :: 1 <= k < |bs| ==> bs[k] == Chunks(ds[n..], n)[k - 1];
    } else if ds != [] {
      assert Flatten([ds]) == ds + Flatten([ds][1..]);
    }
  }

  /** Full batches at the front of a stream are its first chunks. */
  lemma {:induction false} ChunksAfterFull<T>(done: seq<seq<T>>, rest: seq<T>, n: nat)
    requires n > 0 && forall k :: 0 <= k < |done| ==> |done[k]| == n
    ensures Chunks(Flatten(done) + rest, n) == done + Chunks(rest, n)
    decreases |done|
  {
    if done != [] {
      var head, others := done[0], done[1..];
      var tail := Flatten(others) + rest;
      assert Flatten(done) == head + Flatten(others);
      assert Flatten(done) + rest == head + tail;
      ChunksAfterFull(others, rest, n);
      FullHead(head, tail, n);
      var rs := Chunks(rest, n);
      assert Chunks(Flatten(done) + rest, n) == [head] + (others + rs);
      assert [head] + (others + rs) == ([head] + others) + rs;
      assert done == [head] + others;
    } else {
      assert Flatten(done) + rest == rest;
      assert done + Chunks(rest, n) == Chunks(rest, n);
    }
  }

  /** Full batches alone are their own chunks. */
  lemma ChunksOfFull<T>(done: seq<seq<T>>, n: nat)
    requires n > 0 && forall k :: 0 <= k < |done| ==> |done[k]| == n
    ensures Chunks(Flatten(done), n) == done
  {
    ChunksAfterFull(done, [], n);
    assert Flatten(done) + [] == Flatten(done);
    assert done + [] == done;
  }

  /** One more element of a stream extends the slice that ends before it. */
  lemma Extend<T>(s: seq<T>, from: nat, i: nat)
    requires from <= i < |s|
    ensures s[from..i] + [s[i]] == s[from..i + 1]
  {
  }

  /** Consecutive slices of a stream put back together. */
  lemma Rejoin<T>(s: seq<T>, from: nat, i: nat)
    requires from <= i <= |s|
    ensures s[..from] + s[from..i] == s[..i]
    ensures s[..i] + s[i..] == s
    ensures s[..|s|] == s
  {
  }

  /** A full batch at the front of a stream is its first chunk. */
  lemma FullHead<T>(head: seq<T>, tail: seq<T>, n: nat)
    requires |head| == n > 0
    ensures Chunks(head + tail, n) == [head] + Chunks(tail, n)
  {
    var ds := head + tail;
    if tail == [] {
      assert ds == head;
    } else {
      assert ds[..n] == head && ds[n..] == tail;
    }
  }

  /**
   * A batch cut from the stream behind full batches is the next chunk: full
   * when rows follow it, the last chunk when none do.
   */
  lemma NextChunk<T>(done: seq<seq<T>>, batch: seq<T>, after: seq<T>, n: nat)
    requires n > 0 && forall k :: 0 <= k < |done| ==> |done[k]| == n
    requires 0 < |batch| <= n && (after != [] ==> |batch| == n)
    ensures Flatten(done + [batch]) == Flatten(done) + batch
    ensures done + [batch] <= Chunks(Flatten(done) + batch + after, n)
    ensures after == [] ==> Chunks(Flatten(done) + batch, n) == done + [batch]
  {
    FlattenAppend(done, batch);
    var ds := Flatten(done) + batch + after;
    if after != [] {
      ChunksAfterFull(done + [batch], after, n);
      assert Chunks(ds, n) == (done + [batch]) + Chunks(after, n);
    } else {
      assert ds == Flatten(done) + batch;
      ChunksAfterFull(done, batch, n);
      assert Chunks(batch, n) == [batch];
    }
  }

  lemma AllValidAppend(a: seq<Draft>, b: seq<Draft>)
    ensures AllValid(a + b) <==> AllValid(a) && AllValid(b)
  {
    if AllValid(a) && AllValid(b) {
      forall i | 0 <= i < |a + b|
        ensures ValidAt(a + b, i)
      {
        if i < |a| {
          assert ValidAt(a, i) && (a + b)[i] == a[i];
        } else {
          assert ValidAt(b, i - |a|) && (a + b)[i] == b[i - |a|];
        }
      }
    }
    if AllValid(a + b) {
      forall i | 0 <= i < |a|
        ensures ValidAt(a, i)
      {
        assert ValidAt(a + b, i) && (a + b)[i] == a[i];
      }
      forall i | 0 <= i < |b|
        ensures ValidAt(b, i)
      {
        assert ValidAt(a + b, |a| + i) && (a + b)[|a| + i] == b[i];
      }
    }
  }

  /** The records of two runs of valid drafts are the records of each, in order. */
  lemma RecordsAppend(a: seq<Draft>, b: seq<Draft>)
    requires AllValid(a) && AllValid(b)
    ensures AllValid(a + b) && Records(a + b) == Records(a) + Records(b)
  {
    AllValidAppend(a, b);
    RecordsSpec(a + b);
    RecordsSpec(a);
    RecordsSpec(b);
    var x, y, z := Records(a + b), Records(a), Records(b);
    forall i | 0 <= i < |x|
      ensures x[i] == (y + z)[i]
    {
      if i < |a| {
        assert (a + b)[i] == a[i];
      } else {
        assert (a + b)[i] == b[i - |a|];
      }
    }
    assert x == y + z;
  }

  /** Numbering a run and then the run behind it is numbering both at once. */
  lemma NumberedAppend<T>(start: Id, a: seq<T>, b: seq<T>)
    ensures Numbered(start, a) + Numbered(start + |a|, b) == Numbered(start, a + b)
  {
    var next: Id := start + |a|;
    var m1: map<Id, T> := Numbered(start, a);
    var m2: map<Id, T> := Numbered(next, b);
    var m: map<Id, T> := Numbered(start, a + b);
    NumberedSpec(start, a);
    NumberedSpec(next, b);
    NumberedSpec(start, a + b);
    assert (m1 + m2).Keys == m.Keys;
    forall id | id in m
      ensures (m1 + m2)[id] == m[id]
    {
      var i := id - start;
      assert m[start + i] == (a + b)[i];
      if i < |a| {
        assert (a + b)[i] == a[i];
      } else {
        assert m2[next + (i - |a|)] == b[i - |a|];
        assert (a + b)[i] == b[i - |a|];
      }
    }
  }

  /**
   * After a batch is written behind the earlier ones, the store holds the
   * records of all of them, numbered consecutively.
   */
  lemma WrittenBehind(start: Id, written: seq<Draft>, batch: seq<Draft>)
    requires AllValid(written) && AllValid(batch)
    ensures AllValid(written + batch)
    ensures Numbered(start, Records(written)) + Numbered(start + |written|, Records(batch)) ==
            Numbered(start, Records(written + batch))
  {
    AllValidAppend(written, batch);
    RecordsAppend(written, batch);
    var a, b := Records(written), Records(batch);
    NumberedAppend(start, a, b);
  }

  /**
   * `Transaction.insertMany(batch)` behind the `written` drafts already
   * stored under consecutive ids from `start`.
   */
  method InsertBatch(store: Store, ghost start: Id, ghost written: seq<Draft>, batch: seq<Draft>) returns (r: Result<nat, string>)
    requires store.Valid() && AllValid(written)
    requires store.nextId == start + |written| && store.records == Numbered(start, Records(written))
    modifies store
    ensures store.Valid()
    ensures r.Ok? <==> AllValid(batch)
    ensures r.Ok? ==> && AllValid(written + batch) && store.nextId == start + |written + batch|
                      && store.records == Numbered(start, Records(written + batch))
    ensures r.Err? ==> && r.error == ValidationMessage(FirstInvalid(batch).value)
                       && store.records == old(store.records)
  {
    r := store.InsertMany(batch, None);
    if r.Ok? {
      WrittenBehind(start, written, batch);
    } else {
      assert !AllValid(batch);
    }
  }

  /** The import ran to the end: the batches were the chunks of `ds`, and every draft is stored, numbered from `start`. */
  ghost predicate Completed(ds: seq<Draft>, start: Id, records: map<Id, Transaction>, batches: seq<seq<Draft>>) {
    && AllValid(ds)
    && batches == Chunks(ds, BATCH_SIZE)
    && records == Numbered(start, Records(ds))
  }

  /**
   * The import stopped at a refused batch: the batches written were the
   * first chunks of `ds`, all valid but the last, whose first validation
   * error is the one reported, and the store holds the records of the
   * batches before it.
   */
  ghost predicate Stopped(ds: seq<Draft>, start: Id, records: map<Id, Transaction>, batches: seq<seq<Draft>>, error: string) {
    && batches != [] && batches <= Chunks(ds, BATCH_SIZE)
    && AllValid(Flatten(batches[..|batches| - 1]))
    && !AllValid(batches[|batches| - 1])
    && error == ValidationMessage(FirstInvalid(batches[|batches| - 1]).value)
    && records == Numbered(start, Records(Flatten(batches[..|batches| - 1])))
  }

  /**
   * A batch that has just filled, `ds[from..i + 1]`, is inserted behind the
   * full batches already written; a refused batch ends the import.
   */
  method WriteFull(store: Store, ds: seq<Draft>, ghost start: Id, ghost done: seq<seq<Draft>>, from: nat, i: nat,
                   batch: seq<Draft>)
    returns (r: Result<nat, string>, ghost batches: seq<seq<Draft>>)
    requires from <= i < |ds| && batch == ds[from..i + 1] && |batch| == BATCH_SIZE
    requires forall k :: 0 <= k < |done| ==> |done[k]| == BATCH_SIZE
    requires Flatten(done) == ds[..from] && AllValid(ds[..from])
    requires store.Valid() && store.nextId == start + from && store.records == Numbered(start, Records(ds[..from]))
    modifies store
    ensures store.Valid()
    ensures r.Ok? ==> && batches == done + [batch]
                      && (forall k :: 0 <= k < |batches| ==> |batches[k]| == BATCH_SIZE)
                      && Flatten(batches) == ds[..i + 1] && AllValid(ds[..i + 1])
                      && store.nextId == start + i + 1 && store.records == Numbered(start, Records(ds[..i + 1]))
    ensures r.Err? ==> !AllValid(ds) && Stopped(ds, start, store.records, batches, r.error)
  {
    var inserted := InsertBatch(store, start, ds[..from], batch);
    Rejoin(ds, from, i + 1);
    NextChunk(done, batch, ds[i + 1..], BATCH_SIZE);
    batches := done + [batch];
    if inserted.Err? {
      AllValidAppend(ds[..i + 1], ds[i + 1..]);
      AllValidAppend(ds[..from], batch);
      r := Err(inserted.error);
      assert batches[..|batches| - 1] == done;
    } else {
      r := Ok(|batch|);
    }
  }

  /**
   * After the rows run out: the leftover batch, if any, is inserted behind
   * the full batches already written.
   */
  method WriteLeftover(store: Store, ds: seq<Draft>, ghost start: Id, ghost done: seq<seq<Draft>>, from: nat, batch: seq<Draft>)
    returns (r: Result<nat, string>, ghost batches: seq<seq<Draft>>)
    requires from <= |ds| && batch == ds[from..] && |batch| < BATCH_SIZE
    requires forall k :: 0 <= k < |done| ==> |done[k]| == BATCH_SIZE
    requires Flatten(done) == ds[..from] && AllValid(ds[..from])
    requires store.Valid() && store.nextId == start + from && store.records == Numbered(start, Records(ds[..from]))
    modifies store
    ensures store.Valid()
    ensures r.Ok? <==> AllValid(ds)
    ensures r.Ok? ==> r.value == |ds| && Completed(ds, start, store.records, batches)
    ensures r.Err? ==> Stopped(ds, start, store.records, batches, r.error)
  {
    Rejoin(ds, from, |ds|);
    if |batch| > 0 {
      var inserted := InsertBatch(store, start, ds[..from], batch);
      NextChunk(done, batch, ds[|ds|..], BATCH_SIZE);
      batches := done + [batch];
      if inserted.Err? {
        AllValidAppend(ds[..from], batch);
        r := Err(inserted.error);
        assert batches[..|batches| - 1] == done;
        return;
      }
    } else {
      ChunksOfFull(done, BATCH_SIZE);
      batches := done;
    }
    r := Ok(from + |batch|);
  }

  /**
   * The streaming loop of `seedDatabase()` over the mapped rows `ds`, into a
   * store that the earlier `deleteMany` emptied: every full batch of 1000 is
   * inserted as soon as it fills and the leftover once the rows run out. The
   * batches are the chunks of `ds`; when one is refused the import stops
   * with its error, keeping the batches written before it.
   */
  method WriteInBatches(store: Store, ds: seq<Draft>) returns (r: Result<nat, string>, ghost batches: seq<seq<Draft>>)
    requires store.Valid() && store.records == map[]
    modifies store
    ensures store.Valid()
    ensures r.Ok? <==> AllValid(ds)
    ensures r.Ok? ==> r.value == |ds| && Completed(ds, old(store.nextId), store.records, batches)
    ensures r.Err? ==> Stopped(ds, old(store.nextId), store.records, batches, r.error)
  {
    ghost var start := store.nextId;
    var batch: seq<Draft> := [];
    ghost var done: seq<seq<Draft>> := [];
    var from := 0;
    var i := 0;
    while i < |ds|
      invariant 0 <= from <= i <= |ds|
      invariant batch == ds[from..i] && |batch| < BATCH_SIZE
      invariant forall k :: 0 <= k < |done| ==> |done[k]| == BATCH_SIZE
      invariant Flatten(done) == ds[..from]
      invariant AllValid(ds[..from])
      invariant store.Valid() && store.nextId == start + from
      invariant store.records == Numbered(start, Records(ds[..from]))
    {
      Extend(ds, from, i);
      batch := batch + [ds[i]];
      if |batch| >= BATCH_SIZE {
        r, batches := WriteFull(store, ds, start, done, from, i, batch);
        if r.Err? {
          return;
        }
        done := batches;
        from := i + 1;
        batch := [];
      }
      i := i + 1;
    }
    r, batches := WriteLeftover(store, ds, start, done, from, batch);
  }

  /**
   * `seedDatabase()` after connecting: empty the collection, then write the
   * rows, mapped in order, in batches of 1000.
   */
  method SeedDatabase(store: Store, rows: seq<Row>, p: Parsers) returns (r: Result<nat, string>, ghost batches: seq<seq<Draft>>)
    requires store.Valid()
    modifies store
    ensures store.Valid()
    ensures r.Ok? <==> AllValid(Mapped(rows, p))
    ensures r.Ok? ==> r.value == |rows| && Completed(Mapped(rows, p), old(store.nextId), store.records, batches)
    ensures r.Err? ==> Stopped(Mapped(rows, p), old(store.nextId), store.records, batches, r.error)
  {
    store.Clear();
    var ds := Mapped(rows, p);
    r, batches := WriteInBatches(store, ds);
  }
}
