/**
 * The part of the relational datastore the listings depend on: a table is a
 * map from primary key to row; a listing selects the rows a filter keeps,
 * orders them by a timestamp, most recent first, and cuts the window
 * `OFFSET offset LIMIT limit` out of that order. The order among rows with
 * equal timestamps is left to the datastore.
 */
module Query {

  ghost predicate Distinct<T>(s: seq<T>) {
    forall i, j :: 0 <= i < j < |s| ==> s[i] != s[j]
  }

  /** A sequence without repetitions has as many elements as its set. */
  lemma {:induction false} DistinctCardinality<T>(s: seq<T>)
    requires Distinct(s)
    ensures |set x | x in s| == |s|
  {
    if |s| > 0 {
      DistinctCardinality(s[1..]);
      assert (set x | x in s) == {s[0]} + (set x | x in s[1..]);
      assert s[0] !in (set x | x in s[1..]);
    }
  }

  /** Reordering keeps a sequence free of repetitions. */
  lemma DistinctPermutation<T>(s: seq<T>, t: seq<T>)
    requires Distinct(s) && multiset(s) == multiset(t)
    ensures Distinct(t)
  {
    forall x | x in multiset(s)
      ensures multiset(s)[x] == 1
    {
      MultiplicityOfDistinct(s, x);
    }
    forall i, j | 0 <= i < j < |t|
      ensures t[i] != t[j]
    {
      if t[i] == t[j] {
        TwoOccurrences(t, i, j);
      }
    }
  }

  lemma {:induction false} MultiplicityOfDistinct<T>(s: seq<T>, x: T)
    requires Distinct(s) && x in s
    ensures multiset(s)[x] == 1
  {
    assert s == [s[0]] + s[1..];
    if s[0] == x {
      assert x !in s[1..];
    } else {
      MultiplicityOfDistinct(s[1..], x);
    }
  }

  lemma {:induction false} TwoOccurrences<T>(t: seq<T>, i: int, j: int)
    requires 0 <= i < j < |t| && t[i] == t[j]
    ensures multiset(t)[t[i]] >= 2
  {
    var x := t[i];
    assert t == t[..i] + [x] + t[i + 1..j] + [x] + t[j + 1..];
  }

  // ---------------------------------------------------------------------------
  // ORDER BY key DESC
  // ---------------------------------------------------------------------------

  ghost predicate SortedDesc<T>(s: seq<T>, key: T -> int) {
    forall i, j :: 0 <= i < j < |s| ==> key(s[i]) >= key(s[j])
  }

  function InsertDesc<T>(x: T, s: seq<T>, key: T -> int): (r: seq<T>)
    requires SortedDesc(s, key)
    ensures multiset(r) == multiset(s) + multiset{x}
    ensures SortedDesc(r, key)
  {
    if |s| == 0 then [x]
    else if key(x) >= key(s[0]) then [x] + s
    else
      var rest := InsertDesc(x, s[1..], key);
      assert s == [s[0]] + s[1..];
      assert forall y | y in multiset(rest) :: key(y) <= key(s[0]) by {
        forall y | y in multiset(rest) ensures key(y) <= key(s[0]) {
          if y != x {
            assert y in multiset(s[1..]);
            var k :| 0 <= k < |s[1..]| && s[1..][k] == y;
            assert s[k + 1] == y;
          }
        }
      }
      SortedCons(s[0], rest, key);
      [s[0]] + rest
  }

  lemma SortedCons<T>(x: T, s: seq<T>, key: T -> int)
    requires SortedDesc(s, key)
    requires forall y | y in multiset(s) :: key(y) <= key(x)
    ensures SortedDesc([x] + s, key)
  {
    forall i, j | 0 <= i < j < |[x] + s|
      ensures key(([x] + s)[i]) >= key(([x] + s)[j])
    {
      if i == 0 {
        assert ([x] + s)[j] == s[j - 1];
        assert s[j - 1] in multiset(s);
      }
    }
  }

  /** The rows of `s` ordered by `key`, largest first. */
  function SortDesc<T>(s: seq<T>, key: T -> int): (r: seq<T>)
    ensures multiset(r) == multiset(s)
    ensures SortedDesc(r, key)
  {
    if |s| == 0 then []
    else
      assert s == [s[0]] + s[1..];
      InsertDesc(s[0], SortDesc(s[1..], key), key)
  }

  // ---------------------------------------------------------------------------
  // OFFSET offset LIMIT limit
  // ---------------------------------------------------------------------------

  /** Skip `offset` rows, then keep at most `limit`. */
  function Window<T>(s: seq<T>, offset: int, limit: int): (w: seq<T>)
    requires offset >= 0 && limit >= 0
    ensures |w| <= limit
    ensures |w| == if offset >= |s| then 0 else if |s| - offset < limit then |s| - offset else limit
    ensures forall i :: 0 <= i < |w| ==> w[i] == s[offset + i]
  {
    if offset >= |s| then []
    else if |s| - offset < limit then s[offset..]
    else s[offset..offset + limit]
  }

  /** A window of a descending listing is itself descending. */
  lemma WindowSorted<T>(s: seq<T>, key: T -> int, offset: int, limit: int)
    requires offset >= 0 && limit >= 0 && SortedDesc(s, key)
    ensures SortedDesc(Window(s, offset, limit), key)
  {
    var w := Window(s, offset, limit);
    forall i, j | 0 <= i < j < |w|
      ensures key(w[i]) >= key(w[j])
    {
      assert w[i] == s[offset + i] && w[j] == s[offset + j];
    }
  }

  /** Consecutive windows of one listing tile it: page after page, no row lost or repeated. */
  lemma WindowsTile<T>(s: seq<T>, offset: int, limit: int)
    requires offset >= 0 && limit >= 0
    ensures Window(s, offset, limit) + Window(s, offset + limit, limit) == Window(s, offset, 2 * limit)
  {
    var a, b, c := Window(s, offset, limit), Window(s, offset + limit, limit), Window(s, offset, 2 * limit);
    assert |a + b| == |c|;
    forall i | 0 <= i < |c|
      ensures (a + b)[i] == c[i]
    {
      if i >= |a| {
        assert |a| == limit;
        assert b[i - limit] == s[offset + i];
      }
    }
  }

  // ---------------------------------------------------------------------------
  // WHERE
  // ---------------------------------------------------------------------------

  /** `and(...conditions)`, each condition judged by `holds`; no condition at all accepts every row. */
  predicate AllOf<C, R>(conds: seq<C>, holds: (C, R) -> bool, row: R) {
    forall i :: 0 <= i < |conds| ==> holds(conds[i], row)
  }

  /** Pushing one more condition narrows the selection to the rows that also satisfy it. */
  lemma AllOfPush<C, R>(conds: seq<C>, cond: C, holds: (C, R) -> bool, row: R)
    ensures AllOf(conds + [cond], holds, row) <==> AllOf(conds, holds, row) && holds(cond, row)
  {
    if AllOf(conds, holds, row) && holds(cond, row) {
      forall i | 0 <= i < |conds + [cond]| ensures holds((conds + [cond])[i], row) {
        if i < |conds| {
          assert (conds + [cond])[i] == conds[i];
        }
      }
    }
    if AllOf(conds + [cond], holds, row) {
      forall i | 0 <= i < |conds| ensures holds(conds[i], row) {
        assert (conds + [cond])[i] == conds[i];
      }
      assert (conds + [cond])[|conds|] == cond;
    }
  }

  /** The keys of the rows `keep` accepts. */
  ghost function MatchingKeys<K, V>(m: map<K, V>, keep: V -> bool): set<K> {
    set k | k in m && keep(m[k])
  }

  /** Scans a table and collects, each once and in no particular order, the keys of the rows `keep` accepts. */
  method SelectKeys<K, V>(m: map<K, V>, keep: V -> bool) returns (keys: seq<K>)
    ensures Distinct(keys)
    ensures forall k :: k in keys <==> k in m && keep(m[k])
    ensures |keys| == |MatchingKeys(m, keep)|
  {
    keys := [];
    var rest := m.Keys;
    while rest != {}
      invariant rest <= m.Keys
      invariant Distinct(keys)
      invariant forall k :: k in keys <==> k in m && k !in rest && keep(m[k])
      decreases |rest|
    {
      var k :| k in rest;
      if keep(m[k]) {
        keys := keys + [k];
      }
      rest := rest - {k};
    }
    assert (set k | k in keys) == MatchingKeys(m, keep);
    DistinctCardinality(keys);
  }

  // ---------------------------------------------------------------------------
  // Fetching the selected rows
  // ---------------------------------------------------------------------------

  /** Distinct keys hold distinct rows, as when each row carries its own primary key. */
  ghost predicate Injective<K, V>(m: map<K, V>) {
    forall k1, k2 | k1 in m && k2 in m && m[k1] == m[k2] :: k1 == k2
  }

  /** The rows stored under `keys`, in the same order. */
  function RowsOf<K, V>(m: map<K, V>, keys: seq<K>): (rows: seq<V>)
    requires forall i :: 0 <= i < |keys| ==> keys[i] in m
    ensures |rows| == |keys|
    ensures forall i :: 0 <= i < |keys| ==> rows[i] == m[keys[i]]
  {
    seq(|keys|, i requires 0 <= i < |keys| => m[keys[i]])
  }

  /**
   * The result of `SELECT ... WHERE keep ORDER BY key DESC` before the
   * window: each selected row once, none other, ordered by `key`, as many as
   * the count query reports.
   */
  ghost predicate IsListing<K, V(!new)>(listing: seq<V>, m: map<K, V>, keep: V -> bool, key: V -> int) {
    && Distinct(listing)
    && (forall v :: v in listing <==> v in m.Values && keep(v))
    && SortedDesc(listing, key)
    && |listing| == |MatchingKeys(m, keep)|
  }

  /** Fetching and sorting the rows of the selected keys yields the listing. */
  lemma ListingOfSelection<K, V(!new)>(m: map<K, V>, keep: V -> bool, key: V -> int, keys: seq<K>)
    requires Injective(m) && Distinct(keys)
    requires forall k :: k in keys <==> k in m && keep(m[k])
    requires |keys| == |MatchingKeys(m, keep)|
    ensures forall i :: 0 <= i < |keys| ==> keys[i] in m
    ensures IsListing(SortDesc(RowsOf(m, keys), key), m, keep, key)
  {
    assert forall i :: 0 <= i < |keys| ==> keys[i] in m by {
      forall i | 0 <= i < |keys| ensures keys[i] in m {
        assert keys[i] in keys;
      }
    }
    var rows := RowsOf(m, keys);
    var sorted := SortDesc(rows, key);
    assert Distinct(rows) by {
      forall i, j | 0 <= i < j < |rows| ensures rows[i] != rows[j] {
        assert keys[i] != keys[j];
      }
    }
    DistinctPermutation(rows, sorted);
    forall v ensures v in sorted <==> v in m.Values && keep(v) {
      assert v in sorted <==> v in multiset(sorted);
      assert v in rows <==> v in multiset(rows);
      if v in m.Values && keep(v) {
        var k :| k in m && m[k] == v;
        assert k in keys;
        var i :| 0 <= i < |keys| && keys[i] == k;
        assert rows[i] == v;
      }
    }
    assert |sorted| == |multiset(sorted)| == |multiset(rows)| == |rows|;
  }

  /** Two filters that accept the same rows describe the same listing. */
  lemma ListingUnderEquivalentFilter<K, V(!new)>(listing: seq<V>, m: map<K, V>, keep: V -> bool, keep': V -> bool, key: V -> int)
    requires forall v :: keep(v) == keep'(v)
    requires IsListing(listing, m, keep, key)
    ensures IsListing(listing, m, keep', key)
    ensures MatchingKeys(m, keep) == MatchingKeys(m, keep')
  {
    assert MatchingKeys(m, keep) == MatchingKeys(m, keep') by {
      forall k ensures k in MatchingKeys(m, keep) <==> k in MatchingKeys(m, keep') {
        if k in m {
          assert keep(m[k]) == keep'(m[k]);
        }
      }
    }
  }

  // ---------------------------------------------------------------------------
  // Filtering a fetched list
  // ---------------------------------------------------------------------------

  /** `r` is `s` with some elements dropped and the rest in their original order. */
  predicate IsSubsequence<T(==)>(r: seq<T>, s: seq<T>)
    decreases |s|
  {
    if |r| == 0 then true
    else if |s| == 0 then false
    else if r[0] == s[0] then IsSubsequence(r[1..], s[1..])
    else IsSubsequence(r, s[1..])
  }

  /** `s.filter(p)`. */
  function Filter<T(==,!new)>(s: seq<T>, p: T -> bool): (r: seq<T>)
    ensures |r| <= |s|
    ensures forall x :: x in r <==> x in s && p(x)
    ensures IsSubsequence(r, s)
    ensures forall x :: multiset(r)[x] == if p(x) then multiset(s)[x] else 0
    ensures (forall i :: 0 <= i < |s| ==> p(s[i])) ==> r == s
  {
    if |s| == 0 then []
    else
      var rest := Filter(s[1..], p);
      assert forall x :: x in s <==> x == s[0] || x in s[1..];
      assert s == [s[0]] + s[1..];
      assert multiset(s) == multiset([s[0]]) + multiset(s[1..]);
      if p(s[0]) then
        assert ([s[0]] + rest)[1..] == rest;
        [s[0]] + rest
      else
        assert !p(s[0]);
        rest
  }
}
