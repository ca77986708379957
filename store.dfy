/**
 * The document store as the service sees it: the collection of transactions
 * keyed by id, the part of the query language the service produces (`$or` of
 * case-insensitive regexes, `$in`, `$gte`/`$lte`), and the store calls the
 * service makes, each stated by what it returns or how the collection changes.
 * Query execution, indexing and regular-expression matching belong to the
 * store; the regex test is a parameter.
 */
module RecordStore {
  import opened Wrappers
  import opened TransactionModel
  import opened QueryParams

  /** Document ids; the store hands them out in increasing order. */
  type Id = nat

  // -------------------------------------------------------------------------
  // The filter language

  /** `{ field: { $regex: pattern, $options: options } }` */
  datatype TextMatch = TextMatch(field: string, pattern: QueryValue, options: string)

  /** `{ $gte: lower, $lte: upper }`, either bound optional. */
  datatype Range<T> = Range(gte: Option<T>, lte: Option<T>)

  /** A filter document, one optional member per key the service may set. */
  datatype Filter = Filter(
    or: Option<seq<TextMatch>>,
    gender: Option<seq<string>>,
    region: Option<seq<string>>,
    category: Option<seq<string>>,
    paymentMethod: Option<seq<string>>,
    tags: Option<seq<string>>,
    totalAmount: Option<Range<int>>,
    date: Option<Range<Date>>)

  const NO_FILTER: Filter := Filter(None, None, None, None, None, None, None, None)

  function Count<T>(o: Option<T>): nat {
    if o.Some? then 1 else 0
  }

  /** `Object.keys(filter).length` */
  function KeyCount(f: Filter): nat {
    Count(f.or) + Count(f.gender) + Count(f.region) + Count(f.category) + Count(f.paymentMethod) +
    Count(f.tags) + Count(f.totalAmount) + Count(f.date)
  }

  lemma KeyCountZero(f: Filter)
    ensures KeyCount(f) == 0 <==> f == NO_FILTER
  {
  }

  /** A sort document with a single key: `{ key: direction }`. */
  datatype Sort = Sort(key: string, direction: int)

  /** The store's regular-expression test: does `subject` match `pattern` under `options`? */
  datatype Engine = Engine(regex: (QueryValue, string, string) -> bool)

  /** The string-valued path `name` of a record, or `None` when the record lacks it. */
  function StringField(t: Transaction, name: string): Option<string> {
    if name == "customerName" then Some(t.customerName)
    else if name == "phoneNumber" then Some(t.phoneNumber)
    else if name == "productName" then Some(t.productName)
    else if name == "gender" then t.gender
    else if name == "region" then t.region
    else if name == "category" then t.category
    else if name == "paymentMethod" then t.paymentMethod
    else None
  }

  predicate MatchesText(e: Engine, c: TextMatch, t: Transaction) {
    var s := StringField(t, c.field);
    s.Some? && e.regex(c.pattern, c.options, s.value)
  }

  /** `$in` on a string path: the path is present and one of the listed values. */
  predicate InList(v: Option<string>, list: Option<seq<string>>) {
    list.None? || (v.Some? && v.value in list.value)
  }

  /** `$in` on an array path: some element of the array is listed. */
  predicate AnyInList(vs: seq<string>, list: Option<seq<string>>) {
    list.None? || exists x :: x in vs && x in list.value
  }

  /** `$gte`/`$lte` on a path: the path is present and within every given bound. */
  predicate InRange(v: Option<int>, r: Option<Range<int>>) {
    r.None? ||
    (v.Some? && (r.value.gte.Some? ==> v.value >= r.value.gte.value) && (r.value.lte.Some? ==> v.value <= r.value.lte.value))
  }

  /** Whether a record satisfies a filter: every member holds, and `$or` holds when some branch does. */
  predicate Matches(e: Engine, f: Filter, t: Transaction) {
    && (f.or.None? || exists c :: c in f.or.value && MatchesText(e, c, t))
    && InList(t.gender, f.gender)
    && InList(t.region, f.region)
    && InList(t.category, f.category)
    && InList(t.paymentMethod, f.paymentMethod)
    && AnyInList(t.tags, f.tags)
    && InRange(t.totalAmount, f.totalAmount)
    && InRange(Some(t.date), f.date)
  }

  /** The empty filter matches every record. */
  lemma NoFilterMatchesAll(e: Engine, t: Transaction)
    ensures Matches(e, NO_FILTER, t)
  {
  }

  // -------------------------------------------------------------------------
  // Results of store calls, as functions of the collection

  function MatchingIds(m: map<Id, Transaction>, e: Engine, f: Filter): set<Id> {
    set id | id in m && Matches(e, f, m[id])
  }

  /** Without a filter the whole collection matches, so the estimated count is the matching count. */
  lemma NoFilterCountsAll(m: map<Id, Transaction>, e: Engine)
    ensures |MatchingIds(m, e, NO_FILTER)| == |m|
  {
    assert MatchingIds(m, e, NO_FILTER) == m.Keys;
  }

  /** `ids` lists every key of `keys` exactly once, in some order. */
  ghost predicate Lists(ids: seq<Id>, keys: set<Id>) {
    && |ids| == |keys|
    && (forall i, j :: 0 <= i < j < |ids| ==> ids[i] != ids[j])
    && (forall i :: 0 <= i < |ids| ==> ids[i] in keys)
    && (forall k :: k in keys ==> k in ids)
  }

  function Min(a: int, b: int): int {
    if a <= b then a else b
  }

  /** `.skip(skip).limit(limit)` over the records listed by `ids`. */
  function Page(m: map<Id, Transaction>, ids: seq<Id>, skip: nat, limit: nat): (data: seq<Transaction>)
    requires forall i :: 0 <= i < |ids| ==> ids[i] in m
    ensures |data| == if skip >= |ids| then 0 else Min(limit, |ids| - skip)
    ensures forall i :: 0 <= i < |data| ==> data[i] == m[ids[skip + i]]
  {
    var lo := Min(skip, |ids|);
    var hi := Min(skip + limit, |ids|);
    seq(hi - lo, i requires 0 <= i < hi - lo => m[ids[lo + i]])
  }

  /**
   * `find(filter).skip(skip).limit(limit)`: a window of the matching records
   * in some arrangement of them. Which arrangement is the store's sort.
   */
  ghost predicate IsPage(m: map<Id, Transaction>, e: Engine, f: Filter, skip: nat, limit: nat, data: seq<Transaction>) {
    exists ids :: Lists(ids, MatchingIds(m, e, f)) && data == Page(m, ids, skip, limit)
  }

  /** Every record of a page matches the filter. */
  lemma PageMatches(m: map<Id, Transaction>, e: Engine, f: Filter, skip: nat, limit: nat, data: seq<Transaction>)
    requires IsPage(m, e, f, skip, limit, data)
    ensures forall i :: 0 <= i < |data| ==> Matches(e, f, data[i])
  {
    var ids :| Lists(ids, MatchingIds(m, e, f)) && data == Page(m, ids, skip, limit);
    forall i | 0 <= i < |data|
      ensures Matches(e, f, data[i])
    {
      assert ids[skip + i] in MatchingIds(m, e, f);
    }
  }

  /** `distinct(field)`: the values the records hold under a string path, each once. */
  function DistinctValues(m: map<Id, Transaction>, field: string): set<string> {
    set id | id in m && StringField(m[id], field).Some? :: StringField(m[id], field).value
  }

  /** The path a `$sum` accumulator adds up. */
  datatype Measure = Units | Amount

  /** What one record adds to a `$sum`; a record without `totalAmount` adds nothing. */
  function Value(t: Transaction, u: Measure): int {
    match u
    case Units => t.quantity
    case Amount => t.totalAmount.GetOr(0)
  }

  /** `$sum` of a path over the records listed by `ids`, in that order. */
  function Sum(m: map<Id, Transaction>, ids: seq<Id>, u: Measure): int
    requires forall i :: 0 <= i < |ids| ==> ids[i] in m
    decreases |ids|
  {
    if ids == [] then 0 else Value(m[ids[0]], u) + Sum(m, ids[1..], u)
  }

  /** `ids` without its element at `k`. */
  function Without(ids: seq<Id>, k: nat): (r: seq<Id>)
    requires k < |ids|
    ensures |r| == |ids| - 1
    ensures forall i :: 0 <= i < |r| ==> r[i] == if i < k then ids[i] else ids[i + 1]
  {
    ids[..k] + ids[k + 1..]
  }

  lemma WithoutOne(ids: seq<Id>, k: nat)
    requires k < |ids|
    ensures multiset(Without(ids, k)) == multiset(ids) - multiset{ids[k]}
  {
    assert ids == ids[..k] + [ids[k]] + ids[k + 1..];
    assert Without(ids, k) == ids[..k] + ids[k + 1..];
  }

  /** Taking one record out of a listing takes its value out of the sum. */
  lemma {:induction false} SumWithout(m: map<Id, Transaction>, ids: seq<Id>, k: nat, u: Measure)
    requires forall i :: 0 <= i < |ids| ==> ids[i] in m
    requires k < |ids|
    ensures forall i :: 0 <= i < |ids| - 1 ==> Without(ids, k)[i] in m
    ensures Sum(m, ids, u) == Value(m[ids[k]], u) + Sum(m, Without(ids, k), u)
    decreases k
  {
    var rest := Without(ids, k);
    if k == 0 {
      assert rest == ids[1..];
    } else {
      var tail := ids[1..];
      SumWithout(m, tail, k - 1, u);
      var r := Without(tail, k - 1);
      assert rest[0] == ids[0];
      assert rest[1..] == r;
      assert Sum(m, rest, u) == Value(m[ids[0]], u) + Sum(m, r, u);
    }
  }

  /** A `$sum` does not depend on the order in which the records are visited. */
  lemma {:induction false} SumIgnoresOrder(m: map<Id, Transaction>, a: seq<Id>, b: seq<Id>, u: Measure)
    requires forall i :: 0 <= i < |a| ==> a[i] in m
    requires forall i :: 0 <= i < |b| ==> b[i] in m
    requires multiset(a) == multiset(b)
    ensures Sum(m, a, u) == Sum(m, b, u)
    decreases |a|
  {
    if a != [] {
      var x := a[0];
      DropFirst(a);
      assert x in b by {
        assert x in multiset(a);
      }
      var k :| 0 <= k < |b| && b[k] == x;
      WithoutOne(b, k);
      SumWithout(m, b, k, u);
      var rest := Without(b, k);
      assert multiset(a[1..]) == multiset(rest);
      SumIgnoresOrder(m, a[1..], rest, u);
    }
  }

  /** Dropping the head of a sequence removes one occurrence of it. */
  lemma DropFirst<T>(s: seq<T>)
    requires s != []
    ensures multiset(s[1..]) == multiset(s) - multiset{s[0]}
  {
    assert s == [s[0]] + s[1..];
  }

  /** A list without repetitions holds each of its elements once. */
  lemma {:induction false} DistinctOnce(ids: seq<Id>, x: Id)
    requires forall i, j :: 0 <= i < j < |ids| ==> ids[i] != ids[j]
    ensures multiset(ids)[x] == if x in ids then 1 else 0
    decreases |ids|
  {
    if ids != [] {
      assert ids == [ids[0]] + ids[1..];
      DistinctOnce(ids[1..], x);
      if x == ids[0] {
        assert x !in ids[1..];
      }
    }
  }

  /** Two listings of the same keys are arrangements of each other. */
  lemma ListingsPermute(a: seq<Id>, b: seq<Id>, keys: set<Id>)
    requires Lists(a, keys) && Lists(b, keys)
    ensures multiset(a) == multiset(b)
  {
    forall x
      ensures multiset(a)[x] == multiset(b)[x]
    {
      DistinctOnce(a, x);
      DistinctOnce(b, x);
    }
  }

  /**
   * A stats document: the output of the `$group` stage carries `_id: null`
   * besides its three sums (`nullId` true); the service's fallback object has
   * no `_id` member (`nullId` false).
   */
  datatype Totals = Totals(nullId: bool, totalUnits: int, totalAmount: int, totalDiscount: int)

  /**
   * `aggregate([{ $group: { _id: null, totalUnits, totalAmount, totalDiscount: { $sum: 0 } } }])`:
   * no group on an empty collection, otherwise one group summing over all records.
   */
  ghost predicate IsAggregate(m: map<Id, Transaction>, groups: seq<Totals>) {
    if |m| == 0 then groups == []
    else exists ids :: Lists(ids, m.Keys) && groups == [Totals(true, Sum(m, ids, Units), Sum(m, ids, Amount), 0)]
  }

  /** `keep` holds `n` records of `m` and none of the others is more recent than any of them. */
  predicate IsMostRecent(m: map<Id, Transaction>, keep: set<Id>, n: nat) {
    && keep <= m.Keys
    && |keep| == n
    && forall a, b :: a in keep && b in m && b !in keep ==> m[a].date >= m[b].date
  }

  /** Some record among the non-empty key set `s` is at least as recent as every other of `s`. */
  lemma LatestIn(m: map<Id, Transaction>, s: set<Id>)
    requires s != {} && s <= m.Keys
    ensures exists k :: k in s && forall j :: j in s ==> m[j].date <= m[k].date
    decreases s
  {
    var x :| x in s;
    var rest := s - {x};
    assert forall j :: j in s ==> j == x || j in rest;
    if rest != {} {
      LatestIn(m, rest);
      var k :| k in rest && forall j :: j in rest ==> m[j].date <= m[k].date;
      if m[x].date <= m[k].date {
        assert k in s && forall j :: j in s ==> m[j].date <= m[k].date;
      } else {
        assert x in s && forall j :: j in s ==> m[j].date <= m[x].date;
      }
    } else {
      assert x in s && forall j :: j in s ==> m[j].date <= m[x].date;
    }
  }

  /** `keep` holds `n` of the keys `s`, none of the other keys of `s` more recent than any of them. */
  predicate TopOf(m: map<Id, Transaction>, s: set<Id>, keep: set<Id>, n: nat)
    requires s <= m.Keys
  {
    && keep <= s
    && |keep| == n
    && forall a, b :: a in keep && b in s && b !in keep ==> m[a].date >= m[b].date
  }

  lemma {:induction false} TopExists(m: map<Id, Transaction>, s: set<Id>, n: nat)
    requires s <= m.Keys && n <= |s|
    ensures exists keep :: TopOf(m, s, keep, n)
    decreases n
  {
    if n == 0 {
      assert TopOf(m, s, {}, 0);
    } else {
      LatestIn(m, s);
      var k :| k in s && forall j :: j in s ==> m[j].date <= m[k].date;
      var rest := s - {k};
      TopExists(m, rest, n - 1);
      var keep' :| TopOf(m, rest, keep', n - 1);
      var keep := keep' + {k};
      assert k !in keep';
      assert TopOf(m, s, keep, n);
    }
  }

  /** For every `n` up to the size of the collection there is a set of its `n` most recent records. */
  lemma MostRecentExists(m: map<Id, Transaction>, n: nat)
    requires n <= |m|
    ensures exists keep :: IsMostRecent(m, keep, n)
  {
    assert |m.Keys| == |m|;
    TopExists(m, m.Keys, n);
    var keep :| TopOf(m, m.Keys, keep, n);
    assert IsMostRecent(m, keep, n);
  }

  /** The records `ts` stored under consecutive ids from `start`. */
  function Numbered<T>(start: Id, ts: seq<T>): (m: map<Id, T>)
    decreases |ts|
  {
    if ts == [] then map[] else Numbered(start + 1, ts[1..])[start := ts[0]]
  }

  /** Record `i` of the run is stored under id `start + i`, and no other id is used. */
  lemma {:induction false} NumberedSpec<T>(start: Id, ts: seq<T>)
    ensures forall id :: id in Numbered(start, ts) <==> start <= id < start + |ts|
    ensures forall i :: 0 <= i < |ts| ==> Numbered(start, ts)[start + i] == ts[i]
    decreases |ts|
  {
    if ts != [] {
      NumberedSpec(start + 1, ts[1..]);
      assert forall i :: 1 <= i < |ts| ==> ts[i] == ts[1..][i - 1] && start + i == (start + 1) + (i - 1);
    }
  }

  /** The draft at place `i` passes validation. */
  predicate ValidAt(ds: seq<Draft>, i: nat)
    requires i < |ds|
  {
    Validate(ds[i]).Ok?
  }

  /** Every draft passes validation. */
  predicate AllValid(ds: seq<Draft>) {
    forall i :: 0 <= i < |ds| ==> ValidAt(ds, i)
  }

  /** A run of drafts is valid when its head and its tail are. */
  lemma AllValidCons(ds: seq<Draft>)
    requires ds != []
    ensures AllValid(ds) <==> ValidAt(ds, 0) && AllValid(ds[1..])
  {
    if AllValid(ds) {
      forall i | 0 <= i < |ds| - 1
        ensures ValidAt(ds[1..], i)
      {
        assert ValidAt(ds, i + 1) && ds[1..][i] == ds[i + 1];
      }
    }
    if ValidAt(ds, 0) && AllValid(ds[1..]) {
      forall i | 0 <= i < |ds|
        ensures ValidAt(ds, i)
      {
        if i > 0 {
          assert ValidAt(ds[1..], i - 1) && ds[1..][i - 1] == ds[i];
        }
      }
    }
  }

  /** The records the schema makes of valid drafts, in order. */
  function Records(ds: seq<Draft>): (ts: seq<Transaction>)
    requires AllValid(ds)
    ensures |ts| == |ds|
    decreases |ds|
  {
    if ds == [] then []
    else
      AllValidCons(ds);
      [Validate(ds[0]).value] + Records(ds[1..])
  }

  /** Each record is what validation made of the draft at its place. */
  lemma {:induction false} RecordsSpec(ds: seq<Draft>)
    requires AllValid(ds)
    ensures forall i :: 0 <= i < |ds| ==> Validate(ds[i]) == Ok(Records(ds)[i])
    decreases |ds|
  {
    if ds != [] {
      AllValidCons(ds);
      RecordsSpec(ds[1..]);
      assert forall i :: 1 <= i < |ds| ==> ds[i] == ds[1..][i - 1] && Records(ds)[i] == Records(ds[1..])[i - 1];
    }
  }

  /** The missing paths of the first invalid draft, if there is one: every draft before it is valid. */
  function FirstInvalid(ds: seq<Draft>): (r: Option<seq<string>>)
    ensures r.None? <==> AllValid(ds)
    ensures r.Some? ==> exists i :: 0 <= i < |ds| && AllValid(ds[..i]) && Validate(ds[i]) == Err(r.value)
    decreases |ds|
  {
    if ds == [] then None
    else if Validate(ds[0]).Err? then
      AllValidCons(ds);
      assert AllValid(ds[..0]);
      Some(Validate(ds[0]).error)
    else
      AllValidCons(ds);
      var r := FirstInvalid(ds[1..]);
      FirstInvalidBehind(ds, r);
      r
  }

  /** An invalid draft of the tail, with only valid drafts before it, is one of `ds` behind a valid head. */
  lemma FirstInvalidBehind(ds: seq<Draft>, r: Option<seq<string>>)
    requires ds != [] && ValidAt(ds, 0)
    requires r.Some? ==> exists j :: 0 <= j < |ds| - 1 && AllValid(ds[1..][..j]) && Validate(ds[1..][j]) == Err(r.value)
    ensures r.Some? ==> exists i :: 0 <= i < |ds| && AllValid(ds[..i]) && Validate(ds[i]) == Err(r.value)
  {
    if r.Some? {
      var j :| 0 <= j < |ds| - 1 && AllValid(ds[1..][..j]) && Validate(ds[1..][j]) == Err(r.value);
      var prefix := ds[..j + 1];
      AllValidCons(prefix);
      assert prefix[1..] == ds[1..][..j];
      assert ValidAt(prefix, 0);
      assert ds[j + 1] == ds[1..][j];
    }
  }

  /** Lists the elements of a finite set of ids, in some order. */
  method ListIds(keys: set<Id>) returns (ids: seq<Id>)
    ensures Lists(ids, keys)
  {
    ids := [];
    var rest := keys;
    while rest != {}
      invariant rest <= keys
      invariant |ids| + |rest| == |keys|
      invariant forall i, j :: 0 <= i < j < |ids| ==> ids[i] != ids[j]
      invariant forall i :: 0 <= i < |ids| ==> ids[i] in keys && ids[i] !in rest
      invariant forall k :: k in keys ==> k in rest || k in ids
      decreases |rest|
    {
      var k :| k in rest;
      ids := ids + [k];
      rest := rest - {k};
    }
  }

  /**
   * The database refusing an ordered bulk write: `accepted` documents were
   * written before the refused one, and `message` is the error it reports.
   */
  datatype Refusal = Refusal(accepted: nat, message: string)

  /** How many documents of a bulk write of `n` a refusal leaves written. */
  function Written(f: Refusal, n: nat): (k: nat)
    ensures k <= n && (f.accepted < n ==> k == f.accepted)
  {
    if f.accepted < n then f.accepted else n
  }

  /**
   * The collection after a refused bulk write of the valid drafts `ds`
   * behind `before`: the documents written before the refusal are added
   * under consecutive fresh ids from `start`.
   */
  ghost predicate PartlyWritten(before: map<Id, Transaction>, start: Id, ds: seq<Draft>, f: Refusal,
                                after: map<Id, Transaction>, next: Id)
    requires AllValid(ds)
  {
    var k := Written(f, |ds|);
    after == before + Numbered(start, Records(ds)[..k]) && next == start + k
  }

  class Store {
    var records: map<Id, Transaction>
    var nextId: Id

    /** Every stored id was handed out before `nextId`. */
    ghost predicate Valid()
      reads this
    {
      forall id :: id in records ==> id < nextId
    }

    constructor ()
      ensures Valid() && records == map[]
    {
      records := map[];
      nextId := 0;
    }

    /** `countDocuments(filter)` */
    method CountDocuments(e: Engine, f: Filter) returns (n: nat)
      ensures n == |MatchingIds(records, e, f)|
    {
      n := |MatchingIds(records, e, f)|;
    }

    /** `estimatedDocumentCount()`, read from collection metadata; here it is exact. */
    method EstimatedDocumentCount() returns (n: nat)
      ensures n == |records|
    {
      n := |records|;
    }

    /** `find(filter).sort(sort).skip(skip).limit(limit)`; the arrangement stands for the sort. */
    method Find(e: Engine, f: Filter, sort: Sort, skip: nat, limit: nat) returns (data: seq<Transaction>)
      ensures IsPage(records, e, f, skip, limit, data)
    {
      var ids := ListIds(MatchingIds(records, e, f));
      data := Page(records, ids, skip, limit);
    }

    /** `distinct(field)` */
    method Distinct(field: string) returns (values: set<string>)
      ensures values == DistinctValues(records, field)
    {
      values := DistinctValues(records, field);
    }

    /** The stats aggregation pipeline. */
    method Aggregate() returns (groups: seq<Totals>)
      ensures IsAggregate(records, groups)
    {
      if |records| == 0 {
        groups := [];
      } else {
        var ids := ListIds(records.Keys);
        groups := [Totals(true, Sum(records, ids, Units), Sum(records, ids, Amount), 0)];
      }
    }

    /**
     * `new Transaction(d).save()`: validate, then write under a fresh id. A
     * validation failure is reported with its message; a draft that
     * validates can still be refused by the database, with the message
     * `fault`. Either failure leaves the collection as it was.
     */
    method Save(d: Draft, fault: Option<string>) returns (r: Result<(Id, Transaction), string>)
      requires Valid()
      modifies this
      ensures Valid()
      ensures r.Err? <==> Validate(d).Err? || fault.Some?
      ensures Validate(d).Err? ==> r == Err(ValidationMessage(Validate(d).error))
      ensures Validate(d).Ok? && fault.Some? ==> r == Err(fault.value)
      ensures r.Err? ==> records == old(records) && nextId == old(nextId)
      ensures r.Ok? ==> r.value == (old(nextId), Validate(d).value) && old(nextId) !in old(records)
                        && records == old(records)[old(nextId) := Validate(d).value] && nextId == old(nextId) + 1
    {
      var v := Validate(d);
      if v.Err? {
        r := Err(ValidationMessage(v.error));
      } else if fault.Some? {
        r := Err(fault.value);
      } else {
        r := Ok((nextId, v.value));
        records := records[nextId := v.value];
        nextId := nextId + 1;
      }
    }

    /** `findByIdAndUpdate(id, patch, { new: true })`: the updated record, or `None` when there is none. */
    method FindByIdAndUpdate(id: Id, patch: Draft) returns (r: Option<Transaction>)
      requires Valid()
      modifies this
      ensures Valid() && nextId == old(nextId)
      ensures r.Some? <==> id in old(records)
      ensures r.Some? ==> r.value == ApplyPatch(old(records)[id], patch) && records == old(records)[id := r.value]
      ensures r.None? ==> records == old(records)
    {
      if id in records {
        var t := ApplyPatch(records[id], patch);
        records := records[id := t];
        r := Some(t);
      } else {
        r := None;
      }
    }

    /** `findByIdAndDelete(id)`: the deleted record, or `None` when there is none. */
    method FindByIdAndDelete(id: Id) returns (r: Option<Transaction>)
      requires Valid()
      modifies this
      ensures Valid() && nextId == old(nextId)
      ensures r.Some? <==> id in old(records)
      ensures r.Some? ==> r.value == old(records)[id] && records == old(records) - {id}
      ensures r.None? ==> records == old(records)
    {
      if id in records {
        r := Some(records[id]);
        records := records - {id};
      } else {
        r := None;
      }
    }

    /** `deleteMany({})` */
    method Clear()
      requires Valid()
      modifies this
      ensures Valid() && records == map[] && nextId == old(nextId)
    {
      records := map[];
    }

    /**
     * `insertMany(ds)`, ordered: if any draft fails validation nothing is
     * inserted and the first failure is reported. A batch that validates can
     * still be refused by the database partway, as `fault`: the documents
     * before the refused one stay written and the error is reported;
     * otherwise all drafts are stored under consecutive fresh ids.
     */
    method InsertMany(ds: seq<Draft>, fault: Option<Refusal>) returns (r: Result<nat, string>)
      requires Valid()
      modifies this
      ensures Valid()
      ensures r.Ok? <==> AllValid(ds) && fault.None?
      ensures !AllValid(ds) ==> && r == Err(ValidationMessage(FirstInvalid(ds).value))
                                && records == old(records) && nextId == old(nextId)
      ensures AllValid(ds) && fault.Some? ==>
                r == Err(fault.value.message) && PartlyWritten(old(records), old(nextId), ds, fault.value, records, nextId)
      ensures r.Ok? ==> r.value == |ds| && nextId == old(nextId) + |ds|
                        && records == old(records) + Numbered(old(nextId), Records(ds))
    {
      var bad := FirstInvalid(ds);
      if bad.Some? {
        r := Err(ValidationMessage(bad.value));
      } else if fault.Some? {
        var k := Written(fault.value, |ds|);
        NumberedSpec(nextId, Records(ds)[..k]);
        records := records + Numbered(nextId, Records(ds)[..k]);
        nextId := nextId + k;
        r := Err(fault.value.message);
      } else {
        NumberedSpec(nextId, Records(ds));
        records := records + Numbered(nextId, Records(ds));
        nextId := nextId + |ds|;
        r := Ok(|ds|);
      }
    }

    /** `find().sort({ date: -1 }).limit(n)`, keeping the ids. */
    method MostRecentIds(n: nat) returns (keep: set<Id>)
      ensures IsMostRecent(records, keep, Min(n, |records|))
    {
      MostRecentExists(records, Min(n, |records|));
      keep :| keep <= records.Keys && IsMostRecent(records, keep, Min(n, |records|));
    }

    /** `deleteMany({ _id: { $nin: keep } })`, reporting how many were deleted. */
    method DeleteNotIn(keep: set<Id>) returns (deletedCount: nat)
      requires Valid()
      modifies this
      ensures Valid() && nextId == old(nextId)
      ensures records == map id | id in old(records) && id in keep :: old(records)[id]
      ensures deletedCount == |old(records)| - |records|
    {
      var before := |records|;
      var kept := map id | id in records && id in keep :: records[id];
      assert kept.Keys <= records.Keys;
      LessKeys(kept, records);
      records := kept;
      deletedCount := before - |records|;
    }
  }

  lemma LessKeys(small: map<Id, Transaction>, big: map<Id, Transaction>)
    requires small.Keys <= big.Keys
    ensures |small| <= |big|
  {
    var extra := big.Keys - small.Keys;
    assert big.Keys == small.Keys + extra && small.Keys !! extra;
    assert |big.Keys| == |small.Keys| + |extra|;
  }
}
