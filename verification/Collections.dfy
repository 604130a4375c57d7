/** Optional values, sums, filters and groupings over the rows that a query returns.

    A query without a complete ORDER BY may return its rows in any order. A result set is a
    sequence here, and what must not depend on the order is stated for any two sequences
    that hold the same multiset of rows. */
module Collections {

  datatype Option<+T> = None | Some(value: T) {
    function GetOr(default: T): T {
      match this
      case Some(v) => v
      case None => default
    }
  }

  datatype Result<+T, +E> = Ok(value: T) | Err(error: E)

  function Max(a: int, b: int): int { if a < b then b else a }

  function Min(a: int, b: int): int { if a < b then a else b }

  /** Rounds n / d up. */
  function CeilDiv(n: nat, d: nat): nat
    requires d > 0
  {
    (n + d - 1) / d
  }

  // ---------------------------------------------------------------- sums

  function Sum<T>(s: seq<T>, f: T -> int): int {
    if s == [] then 0 else Sum(s[..|s| - 1], f) + f(s[|s| - 1])
  }

  function SumReal<T>(s: seq<T>, f: T -> real): real {
    if s == [] then 0.0 else SumReal(s[..|s| - 1], f) + f(s[|s| - 1])
  }

  lemma {:induction false} SumAppend<T>(s: seq<T>, t: seq<T>, f: T -> int)
    ensures Sum(s + t, f) == Sum(s, f) + Sum(t, f)
  {
    if t == [] {
      assert s + t == s;
    } else {
      assert (s + t)[..|s + t| - 1] == s + t[..|t| - 1];
      SumAppend(s, t[..|t| - 1], f);
    }
  }

  lemma {:induction false} SumRealAppend<T>(s: seq<T>, t: seq<T>, f: T -> real)
    ensures SumReal(s + t, f) == SumReal(s, f) + SumReal(t, f)
  {
    if t == [] {
      assert s + t == s;
    } else {
      assert (s + t)[..|s + t| - 1] == s + t[..|t| - 1];
      SumRealAppend(s, t[..|t| - 1], f);
    }
  }

  lemma SumSnoc<T>(s: seq<T>, x: T, f: T -> int)
    ensures Sum(s + [x], f) == Sum(s, f) + f(x)
  {
    assert (s + [x])[..|s|] == s;
  }

  lemma SumRealSnoc<T>(s: seq<T>, x: T, f: T -> real)
    ensures SumReal(s + [x], f) == SumReal(s, f) + f(x)
  {
    assert (s + [x])[..|s|] == s;
  }

  lemma FilterSnoc<T>(s: seq<T>, x: T, keep: T -> bool)
    ensures Filter(s + [x], keep) == if keep(x) then Filter(s, keep) + [x] else Filter(s, keep)
  {
    assert (s + [x])[..|s|] == s;
  }

  /** Splits s around the position k. */
  lemma SplitAt<T>(s: seq<T>, k: nat)
    requires k < |s|
    ensures s == s[..k] + [s[k]] + s[k + 1..]
    ensures multiset(s) == multiset(s[..k] + s[k + 1..]) + multiset{s[k]}
  {
    assert s == s[..k] + [s[k]] + s[k + 1..];
    assert multiset(s[..k] + [s[k]] + s[k + 1..]) == multiset(s[..k]) + multiset{s[k]} + multiset(s[k + 1..]);
  }

  /** Finds where the last row of p sits in q, when q holds the same rows. */
  lemma PositionIn<T>(p: seq<T>, q: seq<T>) returns (k: nat)
    requires p != [] && multiset(p) == multiset(q)
    ensures k < |q| && q[k] == p[|p| - 1]
    ensures multiset(p[..|p| - 1]) == multiset(q[..k] + q[k + 1..])
  {
    var x := p[|p| - 1];
    assert p == p[..|p| - 1] + [x];
    assert x in multiset(q);
    k :| 0 <= k < |q| && q[k] == x;
    SplitAt(q, k);
    var a, b := multiset(p[..|p| - 1]), multiset(q[..k] + q[k + 1..]);
    assert a == multiset(p) - multiset{x};
    assert b == multiset(q) - multiset{x};
  }

  lemma {:induction false} SumPermutation<T>(p: seq<T>, q: seq<T>, f: T -> int)
    requires multiset(p) == multiset(q)
    ensures Sum(p, f) == Sum(q, f)
  {
    if p == [] {
      assert multiset(q) == multiset{};
      assert q == [];
    } else {
      var k := PositionIn(p, q);
      SumPermutation(p[..|p| - 1], q[..k] + q[k + 1..], f);
      SplitAt(q, k);
      SumAppend(q[..k] + [q[k]], q[k + 1..], f);
      SumAppend(q[..k], [q[k]], f);
      SumAppend(q[..k], q[k + 1..], f);
    }
  }

  lemma {:induction false} SumRealPermutation<T>(p: seq<T>, q: seq<T>, f: T -> real)
    requires multiset(p) == multiset(q)
    ensures SumReal(p, f) == SumReal(q, f)
  {
    if p == [] {
      assert multiset(q) == multiset{};
      assert q == [];
    } else {
      var k := PositionIn(p, q);
      SumRealPermutation(p[..|p| - 1], q[..k] + q[k + 1..], f);
      SplitAt(q, k);
      SumRealAppend(q[..k] + [q[k]], q[k + 1..], f);
      SumRealAppend(q[..k], [q[k]], f);
      SumRealAppend(q[..k], q[k + 1..], f);
    }
  }

  lemma {:induction false} SumNonNegative<T>(s: seq<T>, f: T -> int)
    requires forall x | x in s :: f(x) >= 0
    ensures Sum(s, f) >= 0
  {
    if s == [] {
    } else {
      SumNonNegative(s[..|s| - 1], f);
    }
  }

  lemma {:induction false} SumEqual<T>(s: seq<T>, f: T -> int, g: T -> int)
    requires forall x | x in s :: f(x) == g(x)
    ensures Sum(s, f) == Sum(s, g)
  {
    if s == [] {
    } else {
      SumEqual(s[..|s| - 1], f, g);
    }
  }

  lemma {:induction false} SumRealEqual<T>(s: seq<T>, f: T -> real, g: T -> real)
    requires forall x | x in s :: f(x) == g(x)
    ensures SumReal(s, f) == SumReal(s, g)
  {
    if s == [] {
    } else {
      SumRealEqual(s[..|s| - 1], f, g);
    }
  }

  lemma {:induction false} SumScaled<T>(s: seq<T>, f: T -> int, g: T -> int, m: int)
    requires forall x | x in s :: g(x) == f(x) * m
    ensures Sum(s, g) == Sum(s, f) * m
  {
    if s == [] {
    } else {
      SumScaled(s[..|s| - 1], f, g, m);
    }
  }

  lemma {:induction false} SumOfTwo<T>(s: seq<T>, f: T -> int, g: T -> int, h: T -> int)
    requires forall x | x in s :: h(x) == f(x) + g(x)
    ensures Sum(s, h) == Sum(s, f) + Sum(s, g)
  {
    if s == [] {
    } else {
      SumOfTwo(s[..|s| - 1], f, g, h);
    }
  }

  lemma {:induction false} SumRealScaled<T>(s: seq<T>, f: T -> int, g: T -> real, m: real)
    requires forall x | x in s :: g(x) == f(x) as real * m
    ensures SumReal(s, g) == Sum(s, f) as real * m
  {
    if s == [] {
    } else {
      var front, last := s[..|s| - 1], s[|s| - 1];
      SumRealScaled(front, f, g, m);
      AddScaled(Sum(front, f), f(last), m);
    }
  }

  lemma AddScaled(a: int, b: int, m: real)
    ensures (a + b) as real * m == a as real * m + b as real * m
  {
  }

  // ---------------------------------------------------------------- filters

  function Filter<T>(s: seq<T>, keep: T -> bool): seq<T> {
    if s == [] then []
    else
      var rest := Filter(s[..|s| - 1], keep);
      if keep(s[|s| - 1]) then rest + [s[|s| - 1]] else rest
  }

  function MapSeq<T, U>(s: seq<T>, f: T -> U): seq<U> {
    seq(|s|, i requires 0 <= i < |s| => f(s[i]))
  }

  lemma {:induction false} FilterContains<T>(s: seq<T>, keep: T -> bool, x: T)
    ensures x in Filter(s, keep) <==> x in s && keep(x)
  {
    if s == [] {
    } else {
      FilterContains(s[..|s| - 1], keep, x);
      assert s == s[..|s| - 1] + [s[|s| - 1]];
    }
  }

  lemma {:induction false} FilterEqual<T>(s: seq<T>, keep: T -> bool, keep': T -> bool)
    requires forall x | x in s :: keep(x) == keep'(x)
    ensures Filter(s, keep) == Filter(s, keep')
  {
    if s == [] {
    } else {
      FilterEqual(s[..|s| - 1], keep, keep');
    }
  }

  /** Filtering twice is filtering once by both conditions. */
  lemma {:induction false} FilterTwice<T>(s: seq<T>, first: T -> bool, second: T -> bool, both: T -> bool)
    requires forall x | x in s :: both(x) == (first(x) && second(x))
    ensures Filter(Filter(s, first), second) == Filter(s, both)
  {
    if s == [] {
    } else {
      FilterTwice(s[..|s| - 1], first, second, both);
      var rest := Filter(s[..|s| - 1], first);
      var last := s[|s| - 1];
      if first(last) {
        assert (rest + [last])[..|rest|] == rest;
      }
    }
  }

  lemma {:induction false} FilterAppend<T>(s: seq<T>, t: seq<T>, keep: T -> bool)
    ensures Filter(s + t, keep) == Filter(s, keep) + Filter(t, keep)
  {
    if t == [] {
      assert s + t == s;
    } else {
      assert (s + t)[..|s + t| - 1] == s + t[..|t| - 1];
      FilterAppend(s, t[..|t| - 1], keep);
    }
  }

  lemma {:induction false} FilterMultiplicity<T>(s: seq<T>, keep: T -> bool, x: T)
    ensures multiset(Filter(s, keep))[x] == if keep(x) then multiset(s)[x] else 0
  {
    if s == [] {
    } else {
      FilterMultiplicity(s[..|s| - 1], keep, x);
      assert s == s[..|s| - 1] + [s[|s| - 1]];
    }
  }

  lemma FilterPermutation<T(!new)>(p: seq<T>, q: seq<T>, keep: T -> bool)
    requires multiset(p) == multiset(q)
    ensures multiset(Filter(p, keep)) == multiset(Filter(q, keep))
  {
    forall x: T ensures multiset(Filter(p, keep))[x] == multiset(Filter(q, keep))[x] {
      FilterMultiplicity(p, keep, x);
      FilterMultiplicity(q, keep, x);
    }
  }

  /** Rows that add nothing to a sum can be filtered out before it. */
  lemma {:induction false} SumOverFilter<T>(s: seq<T>, keep: T -> bool, f: T -> int)
    requires forall x | x in s && !keep(x) :: f(x) == 0
    ensures Sum(Filter(s, keep), f) == Sum(s, f)
  {
    if s == [] {
    } else {
      var front, last := s[..|s| - 1], s[|s| - 1];
      SumOverFilter(front, keep, f);
      SumSnoc(Filter(front, keep), last, f);
    }
  }

  lemma {:induction false} FilterAll<T>(s: seq<T>, keep: T -> bool)
    requires forall x | x in s :: keep(x)
    ensures Filter(s, keep) == s
  {
    if s == [] {
    } else {
      FilterAll(s[..|s| - 1], keep);
    }
  }

  lemma {:induction false} FilterNone<T>(s: seq<T>, keep: T -> bool)
    requires forall x | x in s :: !keep(x)
    ensures Filter(s, keep) == []
  {
    if s == [] {
    } else {
      FilterNone(s[..|s| - 1], keep);
    }
  }

  // ---------------------------------------------------------------- distinct rows and groups

  ghost predicate NoDuplicates<T>(s: seq<T>) {
    forall i, j | 0 <= i < j < |s| :: s[i] != s[j]
  }

  /** SELECT DISTINCT: every value of s once, in order of first appearance. */
  function Distinct<T(==,!new)>(s: seq<T>): (r: seq<T>)
    ensures forall x :: x in r <==> x in s
    ensures NoDuplicates(r)
  {
    if s == [] then []
    else
      var rest := Distinct(s[..|s| - 1]);
      assert s == s[..|s| - 1] + [s[|s| - 1]];
      if s[|s| - 1] in rest then rest else rest + [s[|s| - 1]]
  }

  /** The groups of a GROUP BY are the values that occur. */
  lemma DistinctOfMapped<T(!new), U(!new)>(s: seq<T>, f: T -> U, y: U)
    ensures y in Distinct(MapSeq(s, f)) <==> exists x :: x in s && f(x) == y
  {
    var all := MapSeq(s, f);
    if y in all {
      var i :| 0 <= i < |all| && all[i] == y;
      assert s[i] in s && f(s[i]) == y;
    }
    if x :| x in s && f(x) == y {
      var i :| 0 <= i < |s| && s[i] == x;
      assert all[i] == y;
    }
  }

  /** A UNION of rows that are already distinct drops nothing. */
  lemma {:induction false} DistinctOfNoDuplicates<T(!new)>(s: seq<T>)
    requires NoDuplicates(s)
    ensures Distinct(s) == s
  {
    if s == [] {
    } else {
      DistinctOfNoDuplicates(s[..|s| - 1]);
      assert s[|s| - 1] !in s[..|s| - 1];
    }
  }

  lemma {:induction false} FilterNoDuplicates<T>(s: seq<T>, keep: T -> bool)
    requires NoDuplicates(s)
    ensures NoDuplicates(Filter(s, keep))
  {
    if s == [] {
    } else {
      var front, last := s[..|s| - 1], s[|s| - 1];
      FilterNoDuplicates(front, keep);
      FilterContains(front, keep, last);
      assert last !in front;
    }
  }

  lemma {:induction false} NoDuplicatesCardinality<T>(s: seq<T>)
    requires NoDuplicates(s)
    ensures |set x | x in s| == |s|
  {
    if s == [] {
    } else {
      var front, last := s[..|s| - 1], s[|s| - 1];
      NoDuplicatesCardinality(front);
      assert s == front + [last];
      assert (set x | x in s) == (set x | x in front) + {last};
      assert last !in front;
    }
  }

  lemma {:induction false} NoDuplicatesMultiplicity<T>(s: seq<T>, x: T)
    requires NoDuplicates(s)
    ensures multiset(s)[x] == if x in s then 1 else 0
  {
    if s == [] {
    } else {
      var front, last := s[..|s| - 1], s[|s| - 1];
      NoDuplicatesMultiplicity(front, x);
      assert s == front + [last];
      assert last !in front;
    }
  }

  /** Two duplicate-free results with the same rows differ only in their order. */
  lemma SameRowsSameMultiset<T(!new)>(p: seq<T>, q: seq<T>)
    requires NoDuplicates(p) && NoDuplicates(q)
    requires forall x :: x in p <==> x in q
    ensures multiset(p) == multiset(q)
  {
    forall x: T ensures multiset(p)[x] == multiset(q)[x] {
      NoDuplicatesMultiplicity(p, x);
      NoDuplicatesMultiplicity(q, x);
    }
  }

  /** The part of a GROUP BY sum that belongs to one key. */
  function Only<T, K(==)>(key: T -> K, f: T -> int, k: K): T -> int {
    (x: T) => if key(x) == k then f(x) else 0
  }

  function OnlyReal<T, K(==)>(key: T -> K, f: T -> real, k: K): T -> real {
    (x: T) => if key(x) == k then f(x) else 0.0
  }

  /** The grouped sums, one per key, added up. */
  function GroupTotal<T, K(==)>(s: seq<T>, key: T -> K, f: T -> int, keys: seq<K>): int {
    if keys == [] then 0
    else GroupTotal(s, key, f, keys[..|keys| - 1]) + Sum(s, Only(key, f, keys[|keys| - 1]))
  }

  function GroupTotalReal<T, K(==)>(s: seq<T>, key: T -> K, f: T -> real, keys: seq<K>): real {
    if keys == [] then 0.0
    else GroupTotalReal(s, key, f, keys[..|keys| - 1]) + SumReal(s, OnlyReal(key, f, keys[|keys| - 1]))
  }

  /** One more row adds its value to the group of its key, and to no other. */
  lemma {:induction false} GroupTotalStep<T, K>(s: seq<T>, x: T, key: T -> K, f: T -> int, keys: seq<K>)
    requires NoDuplicates(keys)
    ensures GroupTotal(s + [x], key, f, keys) == GroupTotal(s, key, f, keys) + if key(x) in keys then f(x) else 0
  {
    if keys == [] {
    } else {
      var front, last := keys[..|keys| - 1], keys[|keys| - 1];
      GroupTotalStep(s, x, key, f, front);
      assert (s + [x])[..|s|] == s;
      assert keys == front + [last];
      assert last !in front;
    }
  }

  lemma {:induction false} GroupTotalRealStep<T, K>(s: seq<T>, x: T, key: T -> K, f: T -> real, keys: seq<K>)
    requires NoDuplicates(keys)
    ensures GroupTotalReal(s + [x], key, f, keys)
         == GroupTotalReal(s, key, f, keys) + if key(x) in keys then f(x) else 0.0
  {
    if keys == [] {
    } else {
      var front, last := keys[..|keys| - 1], keys[|keys| - 1];
      GroupTotalRealStep(s, x, key, f, front);
      assert (s + [x])[..|s|] == s;
      assert keys == front + [last];
      assert last !in front;
    }
  }

  lemma {:induction false} GroupTotalEmpty<T, K>(key: T -> K, f: T -> int, keys: seq<K>)
    ensures GroupTotal([], key, f, keys) == 0
  {
    if keys == [] {
    } else {
      GroupTotalEmpty(key, f, keys[..|keys| - 1]);
    }
  }

  lemma {:induction false} GroupTotalRealEmpty<T, K>(key: T -> K, f: T -> real, keys: seq<K>)
    ensures GroupTotalReal([], key, f, keys) == 0.0
  {
    if keys == [] {
    } else {
      GroupTotalRealEmpty(key, f, keys[..|keys| - 1]);
    }
  }

  /** Conservation: grouping loses nothing, whatever the key and the order of the groups. */
  lemma {:induction false} GroupTotalConserved<T, K>(s: seq<T>, key: T -> K, f: T -> int, keys: seq<K>)
    requires NoDuplicates(keys)
    requires forall x | x in s && f(x) != 0 :: key(x) in keys
    ensures GroupTotal(s, key, f, keys) == Sum(s, f)
  {
    if s == [] {
      GroupTotalEmpty(key, f, keys);
    } else {
      var front, last := s[..|s| - 1], s[|s| - 1];
      assert s == front + [last];
      GroupTotalConserved(front, key, f, keys);
      GroupTotalStep(front, last, key, f, keys);
    }
  }

  lemma {:induction false} GroupTotalRealConserved<T, K>(s: seq<T>, key: T -> K, f: T -> real, keys: seq<K>)
    requires NoDuplicates(keys)
    requires forall x | x in s :: key(x) in keys
    ensures GroupTotalReal(s, key, f, keys) == SumReal(s, f)
  {
    if s == [] {
      GroupTotalRealEmpty(key, f, keys);
    } else {
      var front, last := s[..|s| - 1], s[|s| - 1];
      assert s == front + [last];
      GroupTotalRealConserved(front, key, f, keys);
      GroupTotalRealStep(front, last, key, f, keys);
    }
  }

  // ---------------------------------------------------------------- writing rows by their key

  datatype Entry<K, V> = Entry(key: K, value: V)

  /** Postgres refuses an INSERT ... ON CONFLICT DO UPDATE that would touch a row twice. */
  predicate RepeatsKey<K(==), V>(rows: seq<Entry<K, V>>) {
    exists i, j :: 0 <= i < j < |rows| && rows[i].key == rows[j].key
  }

  /** INSERT ... ON CONFLICT DO UPDATE, on the primary key. */
  function Upsert<K, V>(table: map<K, V>, rows: seq<Entry<K, V>>): map<K, V> {
    if rows == [] then table
    else Upsert(table, rows[..|rows| - 1])[rows[|rows| - 1].key := rows[|rows| - 1].value]
  }

  lemma {:induction false} UpsertKeepsOthers<K, V>(table: map<K, V>, rows: seq<Entry<K, V>>, k: K)
    requires forall i | 0 <= i < |rows| :: rows[i].key != k
    ensures k in Upsert(table, rows) <==> k in table
    ensures k in table ==> Upsert(table, rows)[k] == table[k]
  {
    if rows == [] {
    } else {
      UpsertKeepsOthers(table, rows[..|rows| - 1], k);
    }
  }

  lemma {:induction false} UpsertWrites<K, V>(table: map<K, V>, rows: seq<Entry<K, V>>, i: nat)
    requires i < |rows| && !RepeatsKey(rows)
    ensures rows[i].key in Upsert(table, rows) && Upsert(table, rows)[rows[i].key] == rows[i].value
  {
    var front := rows[..|rows| - 1];
    if i == |front| {
    } else {
      assert rows[i].key != rows[|rows| - 1].key;
      assert forall a, b | 0 <= a < b < |front| :: front[a].key == rows[a].key && front[b].key == rows[b].key;
      UpsertWrites(table, front, i);
    }
  }

  lemma UpsertTwice<K(!new), V>(table: map<K, V>, rows: seq<Entry<K, V>>)
    requires !RepeatsKey(rows)
    ensures Upsert(Upsert(table, rows), rows) == Upsert(table, rows)
  {
    hide Upsert, RepeatsKey;
    var once := Upsert(table, rows);
    var twice := Upsert(once, rows);
    forall k: K ensures (k in twice <==> k in once) && (k in once ==> twice[k] == once[k]) {
      if i :| 0 <= i < |rows| && rows[i].key == k {
        UpsertWrites(table, rows, i);
        UpsertWrites(once, rows, i);
      } else {
        UpsertKeepsOthers(once, rows, k);
      }
    }
  }
}
