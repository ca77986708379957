/**
 * The parsed query string of a request: an object from parameter names to
 * values, in the order the parameters appeared. A parameter given once is a
 * string; a parameter repeated is the list of its values.
 */
module QueryParams {
  import opened Wrappers

  datatype QueryValue = Single(text: string) | Multi(items: seq<string>)

  type Param = (string, QueryValue)

  predicate DistinctKeys(q: seq<Param>) {
    forall i, j :: 0 <= i < j < |q| ==> q[i].0 != q[j].0
  }

  /** An object has each key once. */
  type Query = q: seq<Param> | DistinctKeys(q) witness []

  /** Two queries hold the same name/value pairs, possibly in different orders. */
  ghost predicate SameEntries(q1: seq<Param>, q2: seq<Param>) {
    forall p :: p in q1 <==> p in q2
  }

  /** `query[key]`: the value under `key`, or `None` for `undefined`. */
  function Lookup(q: seq<Param>, key: string): (r: Option<QueryValue>)
    decreases |q|
  {
    if q == [] then None
    else if q[0].0 == key then Some(q[0].1)
    else Lookup(q[1..], key)
  }

  /** A lookup finds a value exactly when some parameter has the name, and the value it finds is a pair of the query. */
  lemma {:induction false} LookupSpec(q: seq<Param>, key: string)
    ensures Lookup(q, key).Some? <==> exists i :: 0 <= i < |q| && q[i].0 == key
    ensures Lookup(q, key).Some? ==> (key, Lookup(q, key).value) in q
    decreases |q|
  {
    if q != [] && q[0].0 != key {
      LookupSpec(q[1..], key);
      assert forall i :: 1 <= i < |q| ==> q[i] == q[1..][i - 1];
      if Lookup(q, key).None? {
        forall i | 0 <= i < |q|
          ensures q[i].0 != key
        {
          if i > 0 {
            assert q[i] == q[1..][i - 1];
          }
        }
      }
    }
  }

  /** In an object, a pair present under `key` is the value a lookup of `key` finds. */
  lemma LookupFinds(q: Query, key: string, v: QueryValue)
    requires (key, v) in q
    ensures Lookup(q, key) == Some(v)
  {
    LookupSpec(q, key);
    var r := Lookup(q, key);
    var i :| 0 <= i < |q| && q[i] == (key, v);
    var j :| 0 <= j < |q| && q[j] == (key, r.value);
    assert i == j;
  }

  /** Lookups see only the pairs of a query, never their order. */
  lemma LookupIgnoresOrder(q1: Query, q2: Query, key: string)
    requires SameEntries(q1, q2)
    ensures Lookup(q1, key) == Lookup(q2, key)
  {
    var r1, r2 := Lookup(q1, key), Lookup(q2, key);
    if r1.Some? {
      LookupSpec(q1, key);
      LookupFinds(q2, key, r1.value);
    } else if r2.Some? {
      LookupSpec(q2, key);
      LookupFinds(q1, key, r2.value);
    }
  }

  /** JavaScript truthiness of a value: a non-empty string, or any list, even an empty one. */
  predicate Truthy(v: QueryValue) {
    v.Multi? || v.text != ""
  }

  /** `if (query[key])`: the parameter is present and truthy. */
  predicate Given(q: seq<Param>, key: string) {
    var v := Lookup(q, key);
    v.Some? && Truthy(v.value)
  }
}
