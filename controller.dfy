/**
 * The HTTP handlers: cache-aside reads of listings, filter options and
 * stats, and writes that empty the whole cache once they succeed. The
 * service's failures are a `fault` parameter: `Some(message)` is the error
 * the store call throws, and the handler answers 500.
 */
module TransactionController {
  import opened Wrappers
  import opened TransactionModel
  import opened QueryParams
  import opened RecordStore
  import opened TransactionService
  import opened CacheKey
  import opened ResponseCache

  /** Time-to-live, in seconds, of each kind of cached answer. */
  const LIST_TTL: nat := 3600
  const OPTIONS_TTL: nat := 86400
  const STATS_TTL: nat := 3600

  const SERVER_ERROR: string := "Server Error"
  const OPTIONS_FAILED: string := "Failed to fetch options"
  const CREATE_FAILED: string := "Failed to create transaction"
  const NOT_FOUND: string := "Transaction not found"
  const UPDATE_FAILED: string := "Failed to update transaction"
  const DELETE_FAILED: string := "Failed to delete transaction"
  const STATS_FAILED: string := "Failed to fetch stats"
  const DELETED: string := "Transaction deleted successfully"

  /** The answers the read handlers compute and cache. */
  datatype Payload =
    | ListingPayload(listing: Listing)
    | OptionsPayload(regions: set<string>, categories: set<string>)
    | StatsPayload(stats: Totals)

  /** The JSON body of a response. */
  datatype Body =
    | Json(payload: Payload)
    | Record(record: Transaction)
    | Message(message: string)
    | Failure(error: string, details: Option<string>)

  datatype Response = Response(status: nat, body: Body)

  /**
   * A cached payload is what its handler would compute now: a listing stored
   * under the key of a query it answers, the options under their fixed key
   * holding the current distinct values, the stats under theirs holding the
   * current totals.
   */
  ghost predicate Serves(m: map<Id, Transaction>, c: Coercions, e: Engine, key: string, p: Payload) {
    match p
    case ListingPayload(l) =>
      exists q: Query :: ListKey(q) == key && ValidPaging(q, c) && IsListing(m, Translate(q, c), e, l)
    case OptionsPayload(regions, categories) =>
      key == OPTIONS_KEY && regions == DistinctValues(m, "region") && categories == DistinctValues(m, "category")
    case StatsPayload(t) =>
      key == STATS_KEY && IsStats(m, t)
  }

  class Controller {
    const store: Store
    const cache: Cache<Payload>
    const coerce: Coercions
    const engine: Engine

    /** The store keeps its id invariant, and every cached answer is current. */
    ghost predicate Valid()
      reads this, store, cache
    {
      store.Valid() && Coherent()
    }

    ghost predicate Coherent()
      reads this, store, cache
    {
      forall key :: key in cache.entries ==> Serves(store.records, coerce, engine, key, cache.entries[key].value)
    }

    constructor (store: Store, cache: Cache<Payload>, coerce: Coercions, engine: Engine)
      requires store.Valid() && cache.entries == map[]
      ensures this.store == store && this.cache == cache && this.coerce == coerce && this.engine == engine
      ensures Valid()
    {
      this.store := store;
      this.cache := cache;
      this.coerce := coerce;
      this.engine := engine;
    }

    /**
     * `GET /api/transactions`: the cached listing under the query's key, or
     * the service's listing, cached for an hour. Either way the answer is the
     * listing the current collection gives for this query.
     */
    method GetAllTransactions(q: Query, fault: Option<string>) returns (res: Response)
      requires Valid() && ValidPaging(q, coerce)
      modifies cache
      ensures Valid()
      ensures res.status == 200 ==>
                res.body.Json? && res.body.payload.ListingPayload? &&
                IsListing(store.records, Translate(q, coerce), engine, res.body.payload.listing)
      ensures ListKey(q) in old(cache.entries) ==>
                res == Response(200, Json(old(cache.entries)[ListKey(q)].value)) && cache.entries == old(cache.entries)
      ensures ListKey(q) !in old(cache.entries) && fault.Some? ==>
                res == Response(500, Failure(SERVER_ERROR, fault)) && cache.entries == old(cache.entries)
      ensures ListKey(q) !in old(cache.entries) && fault.None? ==>
                res.status == 200 && cache.entries == old(cache.entries)[ListKey(q) := Entry(res.body.payload, LIST_TTL)]
    {
      var key := ListKey(q);
      var cached := cache.Get(key);
      if cached.Some? {
        ListKeyIsolated(q);
        forall q': Query | ListKey(q') == key && ValidPaging(q', coerce)
          ensures Translate(q', coerce) == Translate(q, coerce)
        {
          ListKeyDetermines(q', q);
          TranslateIgnoresOrder(q', q, coerce);
        }
        res := Response(200, Json(cached.value));
        return;
      }
      if fault.Some? {
        res := Response(500, Failure(SERVER_ERROR, fault));
        return;
      }
      var listing := GetTransactions(store, q, coerce, engine);
      cache.Set(key, ListingPayload(listing), LIST_TTL);
      res := Response(200, Json(ListingPayload(listing)));
    }

    /**
     * `GET /api/transactions/options`: the distinct regions and categories,
     * served from the cache when present and otherwise cached for a day.
     */
    method GetFilterOptions(fault: Option<string>) returns (res: Response)
      requires Valid()
      modifies cache
      ensures Valid()
      ensures res.status == 200 ==>
                res.body == Json(OptionsPayload(DistinctValues(store.records, "region"),
                                                DistinctValues(store.records, "category")))
      ensures OPTIONS_KEY in old(cache.entries) ==>
                res == Response(200, Json(old(cache.entries)[OPTIONS_KEY].value)) && cache.entries == old(cache.entries)
      ensures OPTIONS_KEY !in old(cache.entries) && fault.Some? ==>
                res == Response(500, Failure(OPTIONS_FAILED, None)) && cache.entries == old(cache.entries)
      ensures OPTIONS_KEY !in old(cache.entries) && fault.None? ==>
                res.status == 200 && cache.entries == old(cache.entries)[OPTIONS_KEY := Entry(res.body.payload, OPTIONS_TTL)]
    {
      var cached := cache.Get(OPTIONS_KEY);
      if cached.Some? {
        forall q': Query
          ensures ListKey(q') != OPTIONS_KEY
        {
          ListKeyIsolated(q');
        }
        res := Response(200, Json(cached.value));
        return;
      }
      if fault.Some? {
        res := Response(500, Failure(OPTIONS_FAILED, None));
        return;
      }
      var regions := store.Distinct("region");
      var categories := store.Distinct("category");
      var payload := OptionsPayload(regions, categories);
      cache.Set(OPTIONS_KEY, payload, OPTIONS_TTL);
      res := Response(200, Json(payload));
    }

    /**
     * `GET /api/transactions/stats`: the collection totals, served from the
     * cache when present and otherwise cached for an hour.
     */
    method GetStats(fault: Option<string>) returns (res: Response)
      requires Valid()
      modifies cache
      ensures Valid()
      ensures res.status == 200 ==>
                res.body.Json? && res.body.payload.StatsPayload? && IsStats(store.records, res.body.payload.stats)
      ensures STATS_KEY in old(cache.entries) ==>
                res == Response(200, Json(old(cache.entries)[STATS_KEY].value)) && cache.entries == old(cache.entries)
      ensures STATS_KEY !in old(cache.entries) && fault.Some? ==>
                res == Response(500, Failure(STATS_FAILED, None)) && cache.entries == old(cache.entries)
      ensures STATS_KEY !in old(cache.entries) && fault.None? ==>
                res.status == 200 && cache.entries == old(cache.entries)[STATS_KEY := Entry(res.body.payload, STATS_TTL)]
    {
      var cached := cache.Get(STATS_KEY);
      if cached.Some? {
        forall q': Query
          ensures ListKey(q') != STATS_KEY
        {
          ListKeyIsolated(q');
        }
        res := Response(200, Json(cached.value));
        return;
      }
      if fault.Some? {
        res := Response(500, Failure(STATS_FAILED, None));
        return;
      }
      var stats := TransactionService.GetStats(store);
      cache.Set(STATS_KEY, StatsPayload(stats), STATS_TTL);
      res := Response(200, Json(StatsPayload(stats)));
    }

    /**
     * `POST /api/transactions`: a saved record answers 201 and empties the
     * cache; a validation or database failure answers 500 with its message
     * and changes nothing.
     */
    method CreateTransaction(d: Draft, fault: Option<string>) returns (res: Response)
      requires Valid()
      modifies store, cache
      ensures Valid()
      ensures Validate(d).Ok? && fault.None? ==>
                && res == Response(201, Record(Validate(d).value))
                && store.records == old(store.records)[old(store.nextId) := Validate(d).value]
                && cache.entries == map[]
      ensures Validate(d).Err? ==>
                && res == Response(500, Failure(CREATE_FAILED, Some(ValidationMessage(Validate(d).error))))
                && store.records == old(store.records) && cache.entries == old(cache.entries)
      ensures Validate(d).Ok? && fault.Some? ==>
                && res == Response(500, Failure(CREATE_FAILED, fault))
                && store.records == old(store.records) && cache.entries == old(cache.entries)
    {
      var saved := store.Save(d, fault);
      if saved.Err? {
        res := Response(500, Failure(CREATE_FAILED, Some(saved.error)));
        return;
      }
      cache.Flush();
      res := Response(201, Record(saved.value.1));
    }

    /**
     * `PUT /api/transactions/:id`: the patched record, after which the cache
     * is empty; 404 and no change for an unknown id; 500 and no change when
     * the store call fails.
     */
    method UpdateTransaction(id: Id, patch: Draft, fault: Option<string>) returns (res: Response)
      requires Valid()
      modifies store, cache
      ensures Valid()
      ensures fault.Some? ==>
                res == Response(500, Failure(UPDATE_FAILED, None)) &&
                store.records == old(store.records) && cache.entries == old(cache.entries)
      ensures fault.None? && id !in old(store.records) ==>
                res == Response(404, Failure(NOT_FOUND, None)) &&
                store.records == old(store.records) && cache.entries == old(cache.entries)
      ensures fault.None? && id in old(store.records) ==>
                && res == Response(200, Record(ApplyPatch(old(store.records)[id], patch)))
                && store.records == old(store.records)[id := ApplyPatch(old(store.records)[id], patch)]
                && cache.entries == map[]
    {
      if fault.Some? {
        res := Response(500, Failure(UPDATE_FAILED, None));
        return;
      }
      var updated := store.FindByIdAndUpdate(id, patch);
      if updated.None? {
        res := Response(404, Failure(NOT_FOUND, None));
        return;
      }
      cache.Flush();
      res := Response(200, Record(updated.value));
    }

    /**
     * `DELETE /api/transactions/:id`: a confirmation message once the record
     * is gone and the cache emptied; 404 and no change for an unknown id; 500
     * and no change when the store call fails.
     */
    method DeleteTransaction(id: Id, fault: Option<string>) returns (res: Response)
      requires Valid()
      modifies store, cache
      ensures Valid()
      ensures fault.Some? ==>
                res == Response(500, Failure(DELETE_FAILED, None)) &&
                store.records == old(store.records) && cache.entries == old(cache.entries)
      ensures fault.None? && id !in old(store.records) ==>
                res == Response(404, Failure(NOT_FOUND, None)) &&
                store.records == old(store.records) && cache.entries == old(cache.entries)
      ensures fault.None? && id in old(store.records) ==>
                && res == Response(200, Message(DELETED))
                && store.records == old(store.records) - {id}
                && cache.entries == map[]
    {
      if fault.Some? {
        res := Response(500, Failure(DELETE_FAILED, None));
        return;
      }
      var deleted := store.FindByIdAndDelete(id);
      if deleted.None? {
        res := Response(404, Failure(NOT_FOUND, None));
        return;
      }
      cache.Flush();
      res := Response(200, Message(DELETED));
    }
  }
}
