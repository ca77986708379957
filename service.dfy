/**
 * The transaction service: the query translator that turns a request's query
 * parameters into a store filter, a single-key sort and a skip/limit window,
 * the listing it returns with its pagination metadata, and the stats call
 * with its zero fallback.
 */
module TransactionService {
  import opened Wrappers
  import opened TransactionModel
  import opened QueryParams
  import opened RecordStore
  import Text

  /**
   * The JavaScript coercions applied to raw parameter values: `parseInt`
   * (page, perPage), `Number` (price bounds) and `new Date` (date bounds).
   */
  datatype Coercions = Coercions(parseInt: QueryValue -> int, number: QueryValue -> int, date: QueryValue -> Date)

  const DEFAULT_PAGE: int := 1
  const DEFAULT_PER_PAGE: int := 10
  const DEFAULT_SORT_BY: string := "date"

  // -------------------------------------------------------------------------
  // Pagination parameters

  /** `parseInt(page)`, where `page` defaults to 1 when absent. */
  function ParsedPage(q: Query, c: Coercions): int {
    match Lookup(q, "page")
    case None => DEFAULT_PAGE
    case Some(v) => c.parseInt(v)
  }

  /** `parseInt(perPage)`, where `perPage` defaults to 10 when absent. */
  function ParsedPerPage(q: Query, c: Coercions): int {
    match Lookup(q, "perPage")
    case None => DEFAULT_PER_PAGE
    case Some(v) => c.parseInt(v)
  }

  /** The service assumes both pagination parameters parse to positive integers. */
  predicate ValidPaging(q: Query, c: Coercions) {
    ParsedPage(q, c) >= 1 && ParsedPerPage(q, c) >= 1
  }

  // -------------------------------------------------------------------------
  // Filter construction

  /** The `$or` clause for a truthy search value. */
  function SearchClause(v: Option<QueryValue>): Option<seq<TextMatch>> {
    if v.Some? && Truthy(v.value) then
      Some([TextMatch("customerName", v.value, "i"), TextMatch("phoneNumber", v.value, "i"),
            TextMatch("productName", v.value, "i")])
    else None
  }

  /** A value normalised to a list: a string becomes the one-element list, a list is kept. */
  function AsList(v: QueryValue): seq<string> {
    match v
    case Single(s) => [s]
    case Multi(xs) => xs
  }

  /** The `$in` list for a truthy value whose normalised list is non-empty. */
  function InClause(v: Option<QueryValue>): Option<seq<string>> {
    if v.Some? && Truthy(v.value) && |AsList(v.value)| > 0 then Some(AsList(v.value)) else None
  }

  /** The range clause: present when either bound is truthy, with exactly the truthy bounds. */
  function RangeClause<T>(lo: Option<QueryValue>, hi: Option<QueryValue>, convert: QueryValue -> T): Option<Range<T>> {
    var hasLo := lo.Some? && Truthy(lo.value);
    var hasHi := hi.Some? && Truthy(hi.value);
    if hasLo || hasHi then
      Some(Range(if hasLo then Some(convert(lo.value)) else None, if hasHi then Some(convert(hi.value)) else None))
    else None
  }

  /** The filter document `getTransactions` builds from the query; `FilterClauses` and `FilterSemantics` state it. */
  function BuildFilter(q: Query, c: Coercions): Filter {
    Filter(SearchClause(Lookup(q, "search")),
           InClause(Lookup(q, "gender")),
           InClause(Lookup(q, "region")),
           InClause(Lookup(q, "category")),
           InClause(Lookup(q, "paymentMethod")),
           InClause(Lookup(q, "tags")),
           RangeClause(Lookup(q, "minPrice"), Lookup(q, "maxPrice"), c.number),
           RangeClause(Lookup(q, "startDate"), Lookup(q, "endDate"), c.date))
  }

  /** A list-valued parameter that contributes an `$in` clause: truthy, with a non-empty list. */
  predicate Listed(q: Query, name: string) {
    Given(q, name) && |AsList(Lookup(q, name).value)| > 0
  }

  /**
   * A clause of the filter appears exactly when its parameter passes the
   * truthiness test (a list parameter also needs a non-empty list), and a
   * range appears when either of its bounds does.
   */
  lemma FilterClauses(q: Query, c: Coercions)
    ensures var f := BuildFilter(q, c);
            && (f.or.Some? <==> Given(q, "search"))
            && (f.gender.Some? <==> Listed(q, "gender"))
            && (f.region.Some? <==> Listed(q, "region"))
            && (f.category.Some? <==> Listed(q, "category"))
            && (f.paymentMethod.Some? <==> Listed(q, "paymentMethod"))
            && (f.tags.Some? <==> Listed(q, "tags"))
            && (f.totalAmount.Some? <==> Given(q, "minPrice") || Given(q, "maxPrice"))
            && (f.date.Some? <==> Given(q, "startDate") || Given(q, "endDate"))
  {
  }

  // -------------------------------------------------------------------------
  // Sort

  /** The property name `sort[sortBy]` creates: a list is converted with `join(",")`. */
  function PropertyName(v: QueryValue): (name: string)
    ensures v.Single? ==> name == v.text
    ensures v.Multi? && |v.items| == 1 ==> name == v.items[0]
    ensures v.Multi? && v.items == [] ==> name == ""
  {
    match v
    case Single(s) => s
    case Multi(xs) => Text.Join(xs, ',')
  }

  /** `sort[sortBy] = sortOrder === 'asc' ? 1 : -1`, with `sortBy` defaulting to "date". */
  function BuildSort(q: Query): (sort: Sort)
    ensures Lookup(q, "sortBy").None? ==> sort.key == "date"
    ensures Lookup(q, "sortBy").Some? ==> sort.key == PropertyName(Lookup(q, "sortBy").value)
    ensures sort.direction == 1 <==> Lookup(q, "sortOrder") == Some(Single("asc"))
    ensures sort.direction == 1 || sort.direction == -1
  {
    var key := match Lookup(q, "sortBy")
      case None => DEFAULT_SORT_BY
      case Some(v) => PropertyName(v);
    Sort(key, if Lookup(q, "sortOrder") == Some(Single("asc")) then 1 else -1)
  }

  // -------------------------------------------------------------------------
  // The translated query

  datatype QuerySpec = QuerySpec(filter: Filter, sort: Sort, skip: nat, limit: nat, page: int)

  /** Some search, list or range parameter contributes a clause. */
  predicate Filtered(q: Query) {
    || Given(q, "search")
    || Listed(q, "gender") || Listed(q, "region") || Listed(q, "category") || Listed(q, "paymentMethod")
    || Listed(q, "tags")
    || Given(q, "minPrice") || Given(q, "maxPrice") || Given(q, "startDate") || Given(q, "endDate")
  }

  /** The number of records before page `page`. */
  function Offset(page: int, perPage: int): (skip: nat)
    requires page >= 1 && perPage >= 1
    ensures skip == (page - 1) * perPage
  {
    (page - 1) * perPage
  }

  /**
   * `getTransactions` up to the store calls: the filter, the sort on one key
   * (descending unless `sortOrder` is exactly "asc", on `date` unless
   * `sortBy` is given) and the window `skip = (page - 1) * perPage`,
   * `limit = perPage`.
   */
  function Translate(q: Query, c: Coercions): (spec: QuerySpec)
    requires ValidPaging(q, c)
    ensures spec.filter == BuildFilter(q, c)
    ensures spec.limit == ParsedPerPage(q, c) && spec.page == ParsedPage(q, c) && spec.limit > 0
    ensures spec.skip == (spec.page - 1) * spec.limit
    ensures Lookup(q, "sortBy").None? ==> spec.sort.key == "date"
    ensures Lookup(q, "sortBy") == Some(Single(spec.sort.key)) || Lookup(q, "sortBy").None? ||
            Lookup(q, "sortBy").value.Multi?
    ensures spec.sort.direction == 1 <==> Lookup(q, "sortOrder") == Some(Single("asc"))
    ensures spec.sort.direction == 1 || spec.sort.direction == -1
  {
    var page := ParsedPage(q, c);
    var limit := ParsedPerPage(q, c);
    QuerySpec(BuildFilter(q, c), BuildSort(q), Offset(page, limit), limit, page)
  }

  /** The record passes the `$in` test of a list-valued string path, or the path is not filtered. */
  predicate Allows(q: Query, name: string, v: Option<string>) {
    Listed(q, name) ==> v.Some? && v.value in AsList(Lookup(q, name).value)
  }

  /**
   * Which records the parameters admit, stated directly over the query: the
   * search value matches one of the three searched paths case-insensitively,
   * each listed path holds one of its listed values, some tag is listed, and
   * the amount and date lie within every given bound.
   */
  predicate Admits(q: Query, c: Coercions, e: Engine, t: Transaction) {
    && (Given(q, "search") ==>
          var v := Lookup(q, "search").value;
          e.regex(v, "i", t.customerName) || e.regex(v, "i", t.phoneNumber) || e.regex(v, "i", t.productName))
    && Allows(q, "gender", t.gender)
    && Allows(q, "region", t.region)
    && Allows(q, "category", t.category)
    && Allows(q, "paymentMethod", t.paymentMethod)
    && (Listed(q, "tags") ==> exists x :: x in t.tags && x in AsList(Lookup(q, "tags").value))
    && (Given(q, "minPrice") ==> t.totalAmount.Some? && t.totalAmount.value >= c.number(Lookup(q, "minPrice").value))
    && (Given(q, "maxPrice") ==> t.totalAmount.Some? && t.totalAmount.value <= c.number(Lookup(q, "maxPrice").value))
    && (Given(q, "startDate") ==> t.date >= c.date(Lookup(q, "startDate").value))
    && (Given(q, "endDate") ==> t.date <= c.date(Lookup(q, "endDate").value))
  }

  lemma SearchMatches(q: Query, c: Coercions, e: Engine, t: Transaction)
    ensures var f := BuildFilter(q, c);
            (f.or.None? || exists m :: m in f.or.value && MatchesText(e, m, t)) <==>
            (Given(q, "search") ==>
               var v := Lookup(q, "search").value;
               e.regex(v, "i", t.customerName) || e.regex(v, "i", t.phoneNumber) || e.regex(v, "i", t.productName))
  {
    var f := BuildFilter(q, c);
    if Given(q, "search") {
      var v := Lookup(q, "search").value;
      var ms := f.or.value;
      assert ms == [TextMatch("customerName", v, "i"), TextMatch("phoneNumber", v, "i"), TextMatch("productName", v, "i")];
      if e.regex(v, "i", t.customerName) {
        assert MatchesText(e, ms[0], t);
      } else if e.regex(v, "i", t.phoneNumber) {
        assert MatchesText(e, ms[1], t);
      } else if e.regex(v, "i", t.productName) {
        assert MatchesText(e, ms[2], t);
      }
    }
  }

  /** The filter the translator builds selects exactly the records the parameters admit. */
  lemma FilterSemantics(q: Query, c: Coercions, e: Engine, t: Transaction)
    ensures Matches(e, BuildFilter(q, c), t) <==> Admits(q, c, e, t)
  {
    SearchMatches(q, c, e, t);
  }

  /** The filter has no key at all exactly when no parameter contributes a clause. */
  lemma FilterEmptiness(q: Query, c: Coercions)
    ensures KeyCount(BuildFilter(q, c)) == 0 <==> !Filtered(q)
    ensures BuildFilter(q, c) == NO_FILTER <==> !Filtered(q)
  {
    KeyCountZero(BuildFilter(q, c));
  }

  /** A price bound alone gives a one-sided range; the other side stays open. */
  lemma OneSidedRanges(q: Query, c: Coercions)
    ensures Given(q, "minPrice") && !Given(q, "maxPrice") ==>
              BuildFilter(q, c).totalAmount == Some(Range(Some(c.number(Lookup(q, "minPrice").value)), None))
    ensures !Given(q, "minPrice") && Given(q, "maxPrice") ==>
              BuildFilter(q, c).totalAmount == Some(Range(None, Some(c.number(Lookup(q, "maxPrice").value))))
    ensures Given(q, "startDate") && !Given(q, "endDate") ==>
              BuildFilter(q, c).date == Some(Range(Some(c.date(Lookup(q, "startDate").value)), None))
    ensures !Given(q, "startDate") && Given(q, "endDate") ==>
              BuildFilter(q, c).date == Some(Range(None, Some(c.date(Lookup(q, "endDate").value))))
  {
  }

  /** The translation depends only on the parameters, never on their order in the query string. */
  lemma TranslateIgnoresOrder(q1: Query, q2: Query, c: Coercions)
    requires SameEntries(q1, q2)
    ensures ValidPaging(q1, c) <==> ValidPaging(q2, c)
    ensures ValidPaging(q1, c) ==> Translate(q1, c) == Translate(q2, c)
  {
    var keys := ["search", "gender", "region", "category", "paymentMethod", "tags", "minPrice", "maxPrice",
                 "startDate", "endDate", "sortBy", "sortOrder", "page", "perPage"];
    forall k | k in keys
      ensures Lookup(q1, k) == Lookup(q2, k)
    {
      LookupIgnoresOrder(q1, q2, k);
    }
    assert BuildFilter(q1, c) == BuildFilter(q2, c);
    assert BuildSort(q1) == BuildSort(q2);
  }

  /** Listing two genders admits exactly the records of either gender. */
  lemma TwoGenders(c: Coercions, e: Engine, t: Transaction)
    ensures var q: Query := [("gender", Multi(["Male", "Female"]))];
            Matches(e, BuildFilter(q, c), t) <==> t.gender == Some("Male") || t.gender == Some("Female")
  {
    var q: Query := [("gender", Multi(["Male", "Female"]))];
    FilterSemantics(q, c, e, t);
  }

  /** With no pagination or sort parameters: the first ten records, most recent first. */
  lemma DefaultWindow(q: Query, c: Coercions)
    requires Lookup(q, "page").None? && Lookup(q, "perPage").None?
    requires Lookup(q, "sortBy").None? && Lookup(q, "sortOrder").None?
    ensures ValidPaging(q, c)
    ensures var spec := Translate(q, c); spec.skip == 0 && spec.limit == 10 && spec.page == 1 && spec.sort == Sort("date", -1)
  {
  }

  // -------------------------------------------------------------------------
  // Pagination metadata

  /** `Math.ceil(a / b)` for a positive `b`: the fewest pages of `b` that hold `a` items. */
  function CeilDiv(a: nat, b: nat): (r: nat)
    requires b > 0
    ensures r * b >= a
    ensures r > 0 ==> (r - 1) * b < a
  {
    var r := (a + b - 1) / b;
    assert a + b - 1 == r * b + (a + b - 1) % b;
    assert (r - 1) * b == r * b - b;
    r
  }

  datatype Meta = Meta(total: nat, page: int, perPage: nat, totalPages: nat)

  function MetaFor(total: nat, spec: QuerySpec): Meta
    requires spec.limit > 0
  {
    Meta(total, spec.page, spec.limit, CeilDiv(total, spec.limit))
  }

  /** Multiplying by a positive number keeps order. */
  lemma MulMonotone(a: int, b: int, k: int)
    requires a <= b && k > 0
    ensures a * k <= b * k
  {
    assert b * k - a * k == (b - a) * k;
  }

  /** A page holds records exactly when its number is at most `totalPages`. */
  lemma PageHoldsRecords(total: nat, page: int, perPage: int)
    requires page >= 1 && perPage >= 1
    ensures Offset(page, perPage) < total <==> page <= CeilDiv(total, perPage)
  {
    var r := CeilDiv(total, perPage);
    if page <= r {
      MulMonotone(page - 1, r - 1, perPage);
    } else {
      MulMonotone(r, page - 1, perPage);
    }
  }

  /** 23 matching records at 10 per page: three pages, the third holding the last three. */
  lemma ThirdOfThreePages(m: map<Id, Transaction>, ids: seq<Id>)
    requires |ids| == 23 && forall i :: 0 <= i < |ids| ==> ids[i] in m
    ensures CeilDiv(23, 10) == 3
    ensures Page(m, ids, Offset(3, 10), 10) == [m[ids[20]], m[ids[21]], m[ids[22]]]
    ensures Page(m, ids, Offset(4, 10), 10) == []
  {
    var data := Page(m, ids, Offset(3, 10), 10);
    assert |data| == 3;
  }

  datatype Listing = Listing(data: seq<Transaction>, meta: Meta)

  /**
   * What a listing holds: the window of matching records the spec selects,
   * and metadata whose total is the number of matching records.
   */
  ghost predicate IsListing(m: map<Id, Transaction>, spec: QuerySpec, e: Engine, r: Listing)
    requires spec.limit > 0
  {
    IsPage(m, e, spec.filter, spec.skip, spec.limit, r.data) && r.meta == MetaFor(|MatchingIds(m, e, spec.filter)|, spec)
  }

  /**
   * `getTransactions(query)`: translate, fetch the window, and count — with
   * the estimated count when the filter has no key, the exact count otherwise.
   */
  method GetTransactions(store: Store, q: Query, c: Coercions, e: Engine) returns (r: Listing)
    requires ValidPaging(q, c)
    ensures IsListing(store.records, Translate(q, c), e, r)
    ensures r.meta.page == ParsedPage(q, c) && r.meta.perPage == ParsedPerPage(q, c)
  {
    var spec := Translate(q, c);
    var data := store.Find(e, spec.filter, spec.sort, spec.skip, spec.limit);
    var total;
    if KeyCount(spec.filter) == 0 {
      total := store.EstimatedDocumentCount();
      KeyCountZero(spec.filter);
      NoFilterCountsAll(store.records, e);
    } else {
      total := store.CountDocuments(e, spec.filter);
    }
    r := Listing(data, MetaFor(total, spec));
  }

  // -------------------------------------------------------------------------
  // Stats

  const ZERO_TOTALS: Totals := Totals(false, 0, 0, 0)

  /**
   * What `getStats` answers for a collection: the fallback object of zeros,
   * without `_id`, when it is empty; otherwise the group document, with
   * `_id: null`, the units and amounts summed over all records, and a
   * discount total of zero.
   */
  ghost predicate IsStats(m: map<Id, Transaction>, t: Totals) {
    if |m| == 0 then t == ZERO_TOTALS
    else exists ids :: Lists(ids, m.Keys) && t == Totals(true, Sum(m, ids, Units), Sum(m, ids, Amount), 0)
  }

  /** The stats of a collection are determined by it: the order the aggregation visits records in does not matter. */
  lemma StatsDetermined(m: map<Id, Transaction>, t1: Totals, t2: Totals)
    requires IsStats(m, t1) && IsStats(m, t2)
    ensures t1 == t2
  {
    if |m| > 0 {
      var a :| Lists(a, m.Keys) && t1 == Totals(true, Sum(m, a, Units), Sum(m, a, Amount), 0);
      var b :| Lists(b, m.Keys) && t2 == Totals(true, Sum(m, b, Units), Sum(m, b, Amount), 0);
      ListingsPermute(a, b, m.Keys);
      SumIgnoresOrder(m, a, b, Units);
      SumIgnoresOrder(m, a, b, Amount);
    }
  }

  /** `getStats()`: the single group of the aggregation, or the zero fallback when there is none. */
  method GetStats(store: Store) returns (t: Totals)
    ensures IsStats(store.records, t)
    ensures t.totalDiscount == 0
    ensures |store.records| == 0 ==> t == ZERO_TOTALS
    ensures t.nullId <==> |store.records| > 0
  {
    var groups := store.Aggregate();
    t := if |groups| > 0 then groups[0] else ZERO_TOTALS;
  }
}
