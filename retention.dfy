/**
 * The `reduceData` maintenance script: it trims the collection to its 5000
 * most recent transactions by date and deletes the rest.
 */
module Retention {
  import opened TransactionModel
  import opened RecordStore

  /** How many records the collection is trimmed to. */
  const KEEP: nat := 5000

  /**
   * `reduceData()` after connecting: count the whole collection; above 5000
   * records, find the ids of the 5000 most recent by date and delete every
   * other record; at or below 5000, change nothing. The survivors keep their
   * contents, and no deleted record is more recent than any survivor.
   */
  method ReduceData(store: Store, e: Engine) returns (deletedCount: nat)
    requires store.Valid()
    modifies store
    ensures store.Valid() && store.nextId == old(store.nextId)
    ensures |old(store.records)| <= KEEP ==> store.records == old(store.records) && deletedCount == 0
    ensures |old(store.records)| > KEEP ==> |store.records| == KEEP && deletedCount == |old(store.records)| - KEEP
    ensures forall id :: id in store.records ==> id in old(store.records) && store.records[id] == old(store.records)[id]
    ensures IsMostRecent(old(store.records), store.records.Keys, Min(KEEP, |old(store.records)|))
  {
    var count := store.CountDocuments(e, NO_FILTER);
    NoFilterCountsAll(store.records, e);
    if count > KEEP {
      var keep := store.MostRecentIds(KEEP);
      deletedCount := store.DeleteNotIn(keep);
      assert store.records.Keys == keep;
    } else {
      deletedCount := 0;
      assert |store.records.Keys| == |store.records|;
    }
  }

  /**
   * Two selections of the `n` most recent records differ only in records
   * dated alike: whatever one keeps and the other drops has the same date.
   */
  lemma SelectionsDifferOnlyInTies(m: map<Id, Transaction>, k1: set<Id>, k2: set<Id>, n: nat)
    requires IsMostRecent(m, k1, n) && IsMostRecent(m, k2, n)
    ensures forall a, b :: a in k1 - k2 && b in k2 - k1 ==> m[a].date == m[b].date
  {
  }

  /** When no two records share a date, the `n` most recent records are determined. */
  lemma DistinctDatesDetermineSelection(m: map<Id, Transaction>, k1: set<Id>, k2: set<Id>, n: nat)
    requires IsMostRecent(m, k1, n) && IsMostRecent(m, k2, n)
    requires forall a, b :: a in m && b in m && a != b ==> m[a].date != m[b].date
    ensures k1 == k2
  {
    var common := k1 * k2;
    assert k1 == common + (k1 - k2) && common !! (k1 - k2);
    assert k2 == common + (k2 - k1) && common !! (k2 - k1);
    assert |k1 - k2| == |k2 - k1|;
    SelectionsDifferOnlyInTies(m, k1, k2, n);
    assert k1 - k2 == {};
  }
}
