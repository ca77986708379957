/**
 * The cache key of a listing request: `"transactions_"` followed by the JSON
 * text of the query object rebuilt with its keys in sorted order, so that the
 * same parameters in any order share one cache entry.
 */
module CacheKey {
  import opened QueryParams
  import Text

  const LIST_PREFIX: string := "transactions_"
  const OPTIONS_KEY: string := "filter_options"
  const STATS_KEY: string := "transaction_stats"

  /** The keys of `q` appear in strictly increasing order. */
  predicate KeysAscending(q: seq<Param>) {
    forall i, j :: 0 <= i < j < |q| ==> Text.Less(q[i].0, q[j].0)
  }

  predicate KeyAbsent(q: seq<Param>, key: string) {
    forall i :: 0 <= i < |q| ==> q[i].0 != key
  }

  /** Insert a pair whose key is new into a key-ordered sequence. */
  function Insert(p: Param, s: seq<Param>): (r: seq<Param>)
    requires KeysAscending(s) && KeyAbsent(s, p.0)
    ensures KeysAscending(r)
    ensures multiset(r) == multiset(s) + multiset{p}
    decreases |s|
  {
    if s == [] then [p]
    else if Text.Less(p.0, s[0].0) then
      forall j | 0 <= j < |s|
        ensures Text.Less(p.0, s[j].0)
      {
        Text.LessTransitive(p.0, s[0].0, s[j].0);
      }
      [p] + s
    else
      assert s == [s[0]] + s[1..];
      var r := Insert(p, s[1..]);
      Text.LessTotal(p.0, s[0].0);
      forall x | x in r
        ensures Text.Less(s[0].0, x.0)
      {
        assert x in multiset(r);
      }
      [s[0]] + r
  }

  /**
   * `Object.keys(q).sort()` followed by rebuilding the object key by key:
   * the same pairs, now in ascending key order.
   */
  function SortByKey(q: seq<Param>): (r: seq<Param>)
    requires DistinctKeys(q)
    ensures KeysAscending(r)
    ensures multiset(r) == multiset(q)
    decreases |q|
  {
    if q == [] then []
    else
      assert q == [q[0]] + q[1..];
      var rest := SortByKey(q[1..]);
      forall i | 0 <= i < |rest|
        ensures rest[i].0 != q[0].0
      {
        assert rest[i] in multiset(q[1..]);
      }
      Insert(q[0], rest)
  }

  /** Two key-ordered sequences with the same pairs are the same sequence. */
  lemma {:induction false} AscendingUnique(a: seq<Param>, b: seq<Param>)
    requires KeysAscending(a) && KeysAscending(b)
    requires forall p :: p in a <==> p in b
    ensures a == b
    decreases |a|
  {
    assert a == [] || a[0] in a;
    assert b == [] || b[0] in b;
    if a != [] && b != [] {
      var i :| 0 <= i < |a| && a[i] == b[0];
      var j :| 0 <= j < |b| && b[j] == a[0];
      Text.LessAsymmetric(a[0].0, a[i].0);
      Text.LessIrreflexive(a[0].0);
      assert i == 0;
      forall p
        ensures p in a[1..] <==> p in b[1..]
      {
        if p in a[1..] {
          var k :| 1 <= k < |a| && a[k] == p;
          assert p in b && p != b[0];
          var l :| 0 <= l < |b| && b[l] == p;
          assert l != 0;
          assert p == b[1..][l - 1];
        }
        if p in b[1..] {
          var l :| 1 <= l < |b| && b[l] == p;
          Text.LessIrreflexive(b[0].0);
          assert p in a && p != a[0];
          var k :| 0 <= k < |a| && a[k] == p;
          assert k != 0;
          assert p == a[1..][k - 1];
        }
      }
      AscendingUnique(a[1..], b[1..]);
      assert a == [a[0]] + a[1..] && b == [b[0]] + b[1..];
    }
  }

  /** `JSON.stringify` of a list of strings, without the brackets. */
  function Items(xs: seq<string>): string
    decreases |xs|
  {
    if xs == [] then []
    else if |xs| == 1 then Text.Quote(xs[0])
    else Text.Quote(xs[0]) + "," + Items(xs[1..])
  }

  /** `JSON.stringify` of a parameter value: a string literal or an array of them. */
  function ValueJson(v: QueryValue): string {
    match v
    case Single(s) => Text.Quote(s)
    case Multi(xs) => "[" + Items(xs) + "]"
  }

  /** The members of an object, `"key":value` separated by commas. */
  function Members(ps: seq<Param>): string
    decreases |ps|
  {
    if ps == [] then []
    else if |ps| == 1 then Member(ps[0])
    else Member(ps[0]) + "," + Members(ps[1..])
  }

  /** `JSON.stringify` of an object whose members are `ps`, in that order. */
  function ObjectJson(ps: seq<Param>): string {
    "{" + Members(ps) + "}"
  }

  /** The cache key of `getAllTransactions`. */
  function ListKey(q: Query): (key: string)
    ensures |key| > |LIST_PREFIX| && key[..|LIST_PREFIX|] == LIST_PREFIX
  {
    LIST_PREFIX + ObjectJson(SortByKey(q))
  }

  /** The pairs of a sorted query are exactly those of the query. */
  lemma SortKeepsPairs(q: Query)
    ensures forall p :: p in SortByKey(q) <==> p in q
  {
    var r := SortByKey(q);
    forall p
      ensures p in r <==> p in q
    {
      assert p in r <==> p in multiset(r);
      assert p in q <==> p in multiset(q);
    }
  }

  /** The same parameters in any order give the same cache key. */
  lemma ListKeyIgnoresOrder(q1: Query, q2: Query)
    requires SameEntries(q1, q2)
    ensures ListKey(q1) == ListKey(q2)
  {
    SortKeepsPairs(q1);
    SortKeepsPairs(q2);
    AscendingUnique(SortByKey(q1), SortByKey(q2));
  }

  /** A listing key never collides with the fixed keys of the options and stats handlers. */
  lemma ListKeyIsolated(q: Query)
    ensures ListKey(q) != OPTIONS_KEY
    ensures ListKey(q) != STATS_KEY
  {
    var key := ListKey(q);
    assert key[0] == key[..|LIST_PREFIX|][0] == 't' && OPTIONS_KEY[0] == 'f';
    assert key[11] == key[..|LIST_PREFIX|][11] == 's' && STATS_KEY[11] == '_';
  }

  // -------------------------------------------------------------------------
  // Decoding: the key determines the query

  /** How a string literal followed by a text begins. */
  lemma QuoteHead(x: string, rest: string)
    ensures (Text.Quote(x) + rest)[0] == '"'
  {
  }

  /** How the items of a list followed by a text begin. */
  lemma ItemsHead(xs: seq<string>, rest: string)
    ensures xs == [] ==> Items(xs) + rest == rest
    ensures |xs| == 1 ==> Items(xs) + rest == Text.Quote(xs[0]) + rest
    ensures |xs| > 1 ==> Items(xs) + rest == Text.Quote(xs[0]) + ("," + (Items(xs[1..]) + rest))
    ensures xs != [] ==> (Items(xs) + rest)[0] == '"'
  {
    if |xs| == 1 {
      QuoteHead(xs[0], rest);
    } else if |xs| > 1 {
      var q, tail := Text.Quote(xs[0]), Items(xs[1..]);
      assert Items(xs) == q + "," + tail;
      Text.Associative(q, ",", tail);
      Text.Associative(q, "," + tail, rest);
      Text.Associative(",", tail, rest);
      QuoteHead(xs[0], "," + (tail + rest));
    }
  }

  /** A list's items followed by its closing bracket determine the list and what follows. */
  lemma {:induction false} ItemsPrefixFree(xs: seq<string>, ys: seq<string>, s: string, t: string)
    requires Items(xs) + "]" + s == Items(ys) + "]" + t
    ensures xs == ys && s == t
    decreases |xs|
  {
    var rs, rt := "]" + s, "]" + t;
    Text.Associative(Items(xs), "]", s);
    Text.Associative(Items(ys), "]", t);
    var tx := ItemsSplit(xs, rs);
    var ty := ItemsSplit(ys, rt);
    if xs == [] {
      Text.DropCommon("]", s, t);
    } else {
      Text.QuotePrefixFree(xs[0], ys[0], tx, ty);
      if |xs| == 1 {
        Text.DropCommon("]", s, t);
      } else {
        Text.DropCommon(",", Items(xs[1..]) + rs, Items(ys[1..]) + rt);
        Text.Associative(Items(xs[1..]), "]", s);
        Text.Associative(Items(ys[1..]), "]", t);
        ItemsPrefixFree(xs[1..], ys[1..], s, t);
      }
      assert xs == [xs[0]] + xs[1..] && ys == [ys[0]] + ys[1..];
    }
  }

  /** The items of a list followed by a closing bracket and a text: the first literal, then what follows it. */
  lemma ItemsSplit(xs: seq<string>, rest: string) returns (tail: string)
    requires rest != [] && rest[0] == ']'
    ensures xs == [] ==> Items(xs) + rest == rest
    ensures xs != [] ==> Items(xs) + rest == Text.Quote(xs[0]) + tail
    ensures xs != [] ==> tail != [] && (tail[0] == ']' <==> |xs| == 1)
    ensures |xs| == 1 ==> tail == rest
    ensures |xs| > 1 ==> tail == "," + (Items(xs[1..]) + rest)
    ensures xs != [] ==> (Items(xs) + rest)[0] == '"'
  {
    ItemsHead(xs, rest);
    tail := if |xs| <= 1 then rest else "," + (Items(xs[1..]) + rest);
  }

  lemma BracketHead(xs: seq<string>, s: string)
    ensures ValueJson(Multi(xs)) + s == "[" + (Items(xs) + "]" + s)
  {
    var i := Items(xs);
    Text.Associative("[", i, "]");
    Text.Associative("[" + i, "]", s);
    Text.Associative("[", i + "]", s);
  }

  /** The JSON text of a value at the head of a text determines the value and what follows. */
  lemma ValuePrefixFree(v: QueryValue, w: QueryValue, s: string, t: string)
    requires ValueJson(v) + s == ValueJson(w) + t
    ensures v == w && s == t
  {
    if v.Single? {
      QuoteHead(v.text, s);
      assert w.Single?;
      Text.QuotePrefixFree(v.text, w.text, s, t);
    } else {
      assert w.Multi? by {
        if w.Single? {
          QuoteHead(w.text, t);
        }
      }
      BracketHead(v.items, s);
      BracketHead(w.items, t);
      Text.DropCommon("[", Items(v.items) + "]" + s, Items(w.items) + "]" + t);
      ItemsPrefixFree(v.items, w.items, s, t);
    }
  }

  /** The text of one member, `"key":value`. */
  function Member(p: Param): string {
    Text.Quote(p.0) + ":" + ValueJson(p.1)
  }

  lemma MemberHead(p: Param, rest: string)
    ensures Member(p) + rest == Text.Quote(p.0) + (":" + (ValueJson(p.1) + rest))
    ensures (Member(p) + rest)[0] == '"'
  {
    var q, v := Text.Quote(p.0), ValueJson(p.1);
    Text.Associative(q, ":", v);
    Text.Associative(q, ":" + v, rest);
    Text.Associative(":", v, rest);
    QuoteHead(p.0, ":" + (v + rest));
  }

  /** How the members of an object followed by a text begin. */
  lemma MembersHead(ps: seq<Param>, rest: string)
    ensures ps == [] ==> Members(ps) + rest == rest
    ensures |ps| == 1 ==> Members(ps) + rest == Member(ps[0]) + rest
    ensures |ps| > 1 ==> Members(ps) + rest == Member(ps[0]) + ("," + (Members(ps[1..]) + rest))
    ensures ps != [] ==> (Members(ps) + rest)[0] == '"'
  {
    if |ps| == 1 {
      MemberHead(ps[0], rest);
    } else if |ps| > 1 {
      var m, tail := Member(ps[0]), Members(ps[1..]);
      assert Members(ps) == m + "," + tail;
      Text.Associative(m, ",", tail);
      Text.Associative(m, "," + tail, rest);
      Text.Associative(",", tail, rest);
      MemberHead(ps[0], "," + (tail + rest));
    }
  }

  /** An object's members followed by its closing brace determine the members and what follows. */
  lemma {:induction false} MembersPrefixFree(a: seq<Param>, b: seq<Param>, s: string, t: string)
    requires Members(a) + "}" + s == Members(b) + "}" + t
    ensures a == b && s == t
    decreases |a|
  {
    var rs, rt := "}" + s, "}" + t;
    Text.Associative(Members(a), "}", s);
    Text.Associative(Members(b), "}", t);
    var ta := MembersSplit(a, rs);
    var tb := MembersSplit(b, rt);
    if a == [] {
      Text.DropCommon("}", s, t);
    } else {
      MemberHead(a[0], ta);
      MemberHead(b[0], tb);
      Text.QuotePrefixFree(a[0].0, b[0].0, ":" + (ValueJson(a[0].1) + ta), ":" + (ValueJson(b[0].1) + tb));
      Text.DropCommon(":", ValueJson(a[0].1) + ta, ValueJson(b[0].1) + tb);
      ValuePrefixFree(a[0].1, b[0].1, ta, tb);
      if |a| == 1 {
        Text.DropCommon("}", s, t);
      } else {
        Text.DropCommon(",", Members(a[1..]) + rs, Members(b[1..]) + rt);
        Text.Associative(Members(a[1..]), "}", s);
        Text.Associative(Members(b[1..]), "}", t);
        MembersPrefixFree(a[1..], b[1..], s, t);
      }
      assert a == [a[0]] + a[1..] && b == [b[0]] + b[1..];
    }
  }

  /** The members of an object followed by a closing brace and a text: the first member, then what follows it. */
  lemma MembersSplit(ps: seq<Param>, rest: string) returns (tail: string)
    requires rest != [] && rest[0] == '}'
    ensures ps == [] ==> Members(ps) + rest == rest
    ensures ps != [] ==> Members(ps) + rest == Member(ps[0]) + tail
    ensures ps != [] ==> tail != [] && (tail[0] == '}' <==> |ps| == 1)
    ensures |ps| == 1 ==> tail == rest
    ensures |ps| > 1 ==> tail == "," + (Members(ps[1..]) + rest)
    ensures ps != [] ==> (Members(ps) + rest)[0] == '"'
  {
    MembersHead(ps, rest);
    tail := if |ps| <= 1 then rest else "," + (Members(ps[1..]) + rest);
  }

  lemma KeyShape(ps: seq<Param>)
    ensures LIST_PREFIX + ObjectJson(ps) == (LIST_PREFIX + "{") + (Members(ps) + "}" + [])
  {
    var m := Members(ps);
    assert m + "}" + [] == m + "}";
    Text.Associative("{", m, "}");
    Text.Associative(LIST_PREFIX, "{", m + "}");
  }

  /** Queries with the same cache key hold the same parameters. */
  lemma ListKeyDetermines(q1: Query, q2: Query)
    requires ListKey(q1) == ListKey(q2)
    ensures SameEntries(q1, q2)
  {
    var s1, s2 := SortByKey(q1), SortByKey(q2);
    KeyShape(s1);
    KeyShape(s2);
    Text.DropCommon(LIST_PREFIX + "{", Members(s1) + "}" + [], Members(s2) + "}" + []);
    MembersPrefixFree(s1, s2, [], []);
    SortKeepsPairs(q1);
    SortKeepsPairs(q2);
  }

  /** The cache key is canonical: two queries share a key exactly when they hold the same parameters. */
  lemma ListKeyCanonical(q1: Query, q2: Query)
    ensures ListKey(q1) == ListKey(q2) <==> SameEntries(q1, q2)
  {
    if ListKey(q1) == ListKey(q2) {
      ListKeyDetermines(q1, q2);
    }
    if SameEntries(q1, q2) {
      ListKeyIgnoresOrder(q1, q2);
    }
  }
}
