// pandas' `groupby(key)[value].sum().reset_index()` over a table of
// (key, value) rows: one output row per distinct key, keys in ascending order,
// each value the sum of the values of the rows with that key.

module Grouping {

  /** `lt` is a strict total order on keys (irreflexive, transitive, total). */
  ghost predicate StrictTotalOrder<K(!new)>(lt: (K, K) -> bool) {
    && (forall a :: !lt(a, a))
    && (forall a, b, c :: lt(a, b) && lt(b, c) ==> lt(a, c))
    && (forall a, b :: a != b ==> lt(a, b) || lt(b, a))
  }

  /** Keys strictly ascending: sorted, and so no key appears twice. */
  ghost predicate StrictlySorted<K>(g: seq<(K, int)>, lt: (K, K) -> bool) {
    forall i, j :: 0 <= i < j < |g| ==> lt(g[i].0, g[j].0)
  }

  /** The set of keys that occur in a table. */
  function KeysOf<K>(rows: seq<(K, int)>): set<K> {
    set i | 0 <= i < |rows| :: rows[i].0
  }

  /** Sum of the values of the rows whose key is `k` (0 when there is none). */
  function SumFor<K(==)>(rows: seq<(K, int)>, k: K): int {
    if rows == [] then 0
    else SumFor(rows[..|rows| - 1], k) + (if rows[|rows| - 1].0 == k then rows[|rows| - 1].1 else 0)
  }

  /** Sum of all values. */
  function Total<K>(rows: seq<(K, int)>): int {
    if rows == [] then 0 else rows[0].1 + Total(rows[1..])
  }

  /** Value of the first row with key `k`, 0 when there is none. */
  function Lookup<K(==)>(g: seq<(K, int)>, k: K): int {
    if g == [] then 0 else if g[0].0 == k then g[0].1 else Lookup(g[1..], k)
  }

  /** Adds `v` to the row of key `k`, or inserts a new row in key order. */
  function Insert<K(==)>(acc: seq<(K, int)>, k: K, v: int, lt: (K, K) -> bool): seq<(K, int)> {
    if acc == [] then [(k, v)]
    else if acc[0].0 == k then [(k, acc[0].1 + v)] + acc[1..]
    else if lt(k, acc[0].0) then [(k, v)] + acc
    else [acc[0]] + Insert(acc[1..], k, v, lt)
  }

  /** Group by key and sum the values, keys ascending under `lt`. */
  function GroupSum<K(==)>(rows: seq<(K, int)>, lt: (K, K) -> bool): seq<(K, int)> {
    if rows == [] then []
    else Insert(GroupSum(rows[..|rows| - 1], lt), rows[|rows| - 1].0, rows[|rows| - 1].1, lt)
  }

  lemma {:induction false} TotalAppend<K>(a: seq<(K, int)>, b: seq<(K, int)>)
    ensures Total(a + b) == Total(a) + Total(b)
  {
    if a == [] {
      assert a + b == b;
    } else {
      assert (a + b)[1..] == a[1..] + b;
      TotalAppend(a[1..], b);
    }
  }

  lemma {:induction false} SumForAppend<K>(a: seq<(K, int)>, b: seq<(K, int)>, k: K)
    ensures SumFor(a + b, k) == SumFor(a, k) + SumFor(b, k)
  {
    if b == [] {
      assert a + b == a;
    } else {
      assert (a + b)[..|a + b| - 1] == a + b[..|b| - 1];
      SumForAppend(a, b[..|b| - 1], k);
    }
  }

  lemma {:induction false} LookupAbsent<K>(g: seq<(K, int)>, k: K)
    requires k !in KeysOf(g)
    ensures Lookup(g, k) == 0
  {
    if g != [] {
      assert KeysOf(g[1..]) <= KeysOf(g) by {
        forall x | x in KeysOf(g[1..]) ensures x in KeysOf(g) {
          var i :| 0 <= i < |g[1..]| && g[1..][i].0 == x;
          assert g[i + 1].0 == x;
        }
      }
      assert g[0].0 in KeysOf(g);
      LookupAbsent(g[1..], k);
    }
  }

  lemma KeysOfHead<K>(g: seq<(K, int)>)
    ensures g == [] <==> KeysOf(g) == {}
  {
    if g != [] {
      assert g[0].0 in KeysOf(g);
    }
  }

  lemma KeysOfCons<K>(x: (K, int), g: seq<(K, int)>)
    ensures KeysOf([x] + g) == {x.0} + KeysOf(g)
  {
    var h := [x] + g;
    forall y | y in KeysOf(h) ensures y in {x.0} + KeysOf(g) {
      var i :| 0 <= i < |h| && h[i].0 == y;
      if i > 0 {
        assert g[i - 1].0 == y;
      }
    }
    forall y | y in KeysOf(g) ensures y in KeysOf(h) {
      var i :| 0 <= i < |g| && g[i].0 == y;
      assert h[i + 1].0 == y;
    }
    assert h[0].0 == x.0;
  }

  lemma KeysOfSnoc<K>(g: seq<(K, int)>, x: (K, int))
    ensures KeysOf(g + [x]) == KeysOf(g) + {x.0}
  {
    var h := g + [x];
    forall y | y in KeysOf(h) ensures y in KeysOf(g) + {x.0} {
      var i :| 0 <= i < |h| && h[i].0 == y;
      if i < |g| {
        assert g[i].0 == y;
      }
    }
    forall y | y in KeysOf(g) ensures y in KeysOf(h) {
      var i :| 0 <= i < |g| && g[i].0 == y;
      assert h[i].0 == y;
    }
    assert h[|g|].0 == x.0;
  }

  /** In a strictly sorted table every key after the first is above the first. */
  lemma HeadBelowTail<K(!new)>(g: seq<(K, int)>, lt: (K, K) -> bool)
    requires StrictTotalOrder(lt) && StrictlySorted(g, lt) && g != []
    ensures forall x :: x in KeysOf(g[1..]) ==> lt(g[0].0, x) && x != g[0].0
  {
    forall x | x in KeysOf(g[1..]) ensures lt(g[0].0, x) && x != g[0].0 {
      var m :| 0 <= m < |g[1..]| && g[1..][m].0 == x;
      assert g[m + 1].0 == x;
    }
  }

  /** Inserting adds `k` to the keys and nothing else. */
  lemma {:induction false} InsertKeys<K>(acc: seq<(K, int)>, k: K, v: int, lt: (K, K) -> bool)
    ensures KeysOf(Insert(acc, k, v, lt)) == KeysOf(acc) + {k}
  {
    if acc == [] {
      KeysOfCons((k, v), []);
    } else if acc[0].0 == k {
      assert acc == [acc[0]] + acc[1..];
      KeysOfCons(acc[0], acc[1..]);
      KeysOfCons((k, acc[0].1 + v), acc[1..]);
    } else if lt(k, acc[0].0) {
      KeysOfCons((k, v), acc);
    } else {
      InsertKeys(acc[1..], k, v, lt);
      assert acc == [acc[0]] + acc[1..];
      KeysOfCons(acc[0], acc[1..]);
      KeysOfCons(acc[0], Insert(acc[1..], k, v, lt));
    }
  }

  /** Inserting adds `v` to the total. */
  lemma {:induction false} InsertTotal<K>(acc: seq<(K, int)>, k: K, v: int, lt: (K, K) -> bool)
    ensures Total(Insert(acc, k, v, lt)) == Total(acc) + v
  {
    if acc != [] && acc[0].0 != k && !lt(k, acc[0].0) {
      InsertTotal(acc[1..], k, v, lt);
    }
  }

  /** Inserting into a strictly sorted table keeps it strictly sorted. */
  lemma {:induction false} InsertSorted<K(!new)>(acc: seq<(K, int)>, k: K, v: int, lt: (K, K) -> bool)
    requires StrictTotalOrder(lt) && StrictlySorted(acc, lt)
    ensures StrictlySorted(Insert(acc, k, v, lt), lt)
  {
    var r := Insert(acc, k, v, lt);
    if acc == [] {
    } else if acc[0].0 == k {
    } else if lt(k, acc[0].0) {
      forall j | 0 <= j < |acc| ensures lt(k, acc[j].0) {
        if j > 0 {
          assert lt(acc[0].0, acc[j].0);
        }
      }
    } else {
      var tl := acc[1..];
      InsertSorted(tl, k, v, lt);
      InsertKeys(tl, k, v, lt);
      HeadBelowTail(acc, lt);
      var t := Insert(tl, k, v, lt);
      forall i | 0 <= i < |t| ensures lt(acc[0].0, t[i].0) {
        assert t[i].0 in KeysOf(t);
      }
      forall i, j | 0 <= i < j < |r| ensures lt(r[i].0, r[j].0) {
        if i > 0 {
          assert r[i] == t[i - 1] && r[j] == t[j - 1];
        } else {
          assert r[j] == t[j - 1];
        }
      }
    }
  }

  /** Inserting into a strictly sorted table adds `v` to the value of `k` only. */
  lemma {:induction false} InsertLookup<K(!new)>(acc: seq<(K, int)>, k: K, v: int, lt: (K, K) -> bool)
    requires StrictTotalOrder(lt) && StrictlySorted(acc, lt)
    ensures forall j :: Lookup(Insert(acc, k, v, lt), j) == Lookup(acc, j) + (if j == k then v else 0)
  {
    if acc == [] {
    } else if acc[0].0 == k {
    } else if lt(k, acc[0].0) {
      forall j | 0 <= j < |acc| ensures acc[j].0 != k {
        if j > 0 {
          assert lt(acc[0].0, acc[j].0);
        }
      }
      LookupAbsent(acc, k);
    } else {
      InsertLookup(acc[1..], k, v, lt);
    }
  }

  /**
   * The group-by-sum has one row per distinct key of the input, in strictly
   * ascending key order; the value of every key is the sum of that key's input
   * values; and the grand total is conserved.
   */
  lemma {:induction false} GroupSumSpec<K(!new)>(rows: seq<(K, int)>, lt: (K, K) -> bool)
    requires StrictTotalOrder(lt)
    ensures StrictlySorted(GroupSum(rows, lt), lt)
    ensures KeysOf(GroupSum(rows, lt)) == KeysOf(rows)
    ensures forall k :: Lookup(GroupSum(rows, lt), k) == SumFor(rows, k)
    ensures Total(GroupSum(rows, lt)) == Total(rows)
  {
    if rows != [] {
      var n := |rows| - 1;
      var pre := rows[..n];
      GroupSumSpec(pre, lt);
      var g := GroupSum(pre, lt);
      InsertSorted(g, rows[n].0, rows[n].1, lt);
      InsertKeys(g, rows[n].0, rows[n].1, lt);
      InsertLookup(g, rows[n].0, rows[n].1, lt);
      InsertTotal(g, rows[n].0, rows[n].1, lt);
      assert rows == pre + [rows[n]];
      KeysOfSnoc(pre, rows[n]);
      TotalAppend(pre, [rows[n]]);
    }
  }

  /** In a strictly sorted table the value at row `i` is the value of its key. */
  lemma {:induction false} LookupAt<K(!new)>(g: seq<(K, int)>, i: nat, lt: (K, K) -> bool)
    requires StrictTotalOrder(lt) && StrictlySorted(g, lt) && i < |g|
    ensures Lookup(g, g[i].0) == g[i].1
  {
    if i > 0 {
      assert lt(g[0].0, g[i].0);
      assert StrictlySorted(g[1..], lt);
      LookupAt(g[1..], i - 1, lt);
    }
  }

  /** Every row of a group-by-sum carries the sum of its key's input values. */
  lemma GroupSumRows<K(!new)>(rows: seq<(K, int)>, lt: (K, K) -> bool)
    requires StrictTotalOrder(lt)
    ensures forall i :: 0 <= i < |GroupSum(rows, lt)| ==> GroupSum(rows, lt)[i].1 == SumFor(rows, GroupSum(rows, lt)[i].0)
  {
    var g := GroupSum(rows, lt);
    GroupSumSpec(rows, lt);
    forall i | 0 <= i < |g| ensures g[i].1 == SumFor(rows, g[i].0) {
      LookupAt(g, i, lt);
    }
  }

  /**
   * Two strictly sorted tables with the same keys and the same value for
   * every key are equal.
   */
  lemma {:induction false} SortedUnique<K(!new)>(g1: seq<(K, int)>, g2: seq<(K, int)>, lt: (K, K) -> bool)
    requires StrictTotalOrder(lt) && StrictlySorted(g1, lt) && StrictlySorted(g2, lt)
    requires KeysOf(g1) == KeysOf(g2)
    requires forall k :: Lookup(g1, k) == Lookup(g2, k)
    ensures g1 == g2
    decreases |g1|
  {
    KeysOfHead(g1);
    KeysOfHead(g2);
    if g1 != [] {
      var h := g1[0].0;
      assert h in KeysOf(g1) && g2[0].0 in KeysOf(g2);
      var i :| 0 <= i < |g1| && g1[i].0 == g2[0].0;
      var j :| 0 <= j < |g2| && g2[j].0 == h;
      assert g2[0].0 == h;
      LookupAt(g1, 0, lt);
      LookupAt(g2, 0, lt);
      var t1, t2 := g1[1..], g2[1..];
      assert g1 == [g1[0]] + t1 && g2 == [g2[0]] + t2;
      KeysOfCons(g1[0], t1);
      KeysOfCons(g2[0], t2);
      HeadBelowTail(g1, lt);
      HeadBelowTail(g2, lt);
      forall k ensures Lookup(t1, k) == Lookup(t2, k) {
        if k == h {
          LookupAbsent(t1, k);
          LookupAbsent(t2, k);
        } else {
          assert Lookup(g1, k) == Lookup(t1, k);
          assert Lookup(g2, k) == Lookup(t2, k);
        }
      }
      assert StrictlySorted(t1, lt) && StrictlySorted(t2, lt);
      SortedUnique(t1, t2, lt);
    }
  }

  /** The group-by-sum of `a + b` equals that of `b + a`: input order does not matter. */
  lemma GroupSumConcatCommutes<K(!new)>(a: seq<(K, int)>, b: seq<(K, int)>, lt: (K, K) -> bool)
    requires StrictTotalOrder(lt)
    ensures GroupSum(a + b, lt) == GroupSum(b + a, lt)
  {
    GroupSumSpec(a + b, lt);
    GroupSumSpec(b + a, lt);
    forall k ensures SumFor(a + b, k) == SumFor(b + a, k) {
      SumForAppend(a, b, k);
      SumForAppend(b, a, k);
    }
    assert KeysOf(a + b) == KeysOf(b + a) by {
      forall x | x in KeysOf(a + b) ensures x in KeysOf(b + a) {
        var i :| 0 <= i < |a + b| && (a + b)[i].0 == x;
        if i < |a| {
          assert (b + a)[|b| + i] == a[i];
        } else {
          assert (b + a)[i - |a|] == b[i - |a|];
        }
      }
      forall x | x in KeysOf(b + a) ensures x in KeysOf(a + b) {
        var i :| 0 <= i < |b + a| && (b + a)[i].0 == x;
        if i < |b| {
          assert (a + b)[|a| + i] == b[i];
        } else {
          assert (a + b)[i - |b|] == a[i - |b|];
        }
      }
    }
    SortedUnique(GroupSum(a + b, lt), GroupSum(b + a, lt), lt);
  }

  /** A key that does not occur contributes nothing. */
  lemma {:induction false} SumForAbsent<K>(rows: seq<(K, int)>, k: K)
    requires k !in KeysOf(rows)
    ensures SumFor(rows, k) == 0
  {
    if rows != [] {
      var n := |rows| - 1;
      assert rows[n].0 in KeysOf(rows);
      assert KeysOf(rows[..n]) <= KeysOf(rows) by {
        forall x | x in KeysOf(rows[..n]) ensures x in KeysOf(rows) {
          var i :| 0 <= i < n && rows[..n][i].0 == x;
          assert rows[i].0 == x;
        }
      }
      SumForAbsent(rows[..n], k);
    }
  }

  /** In a strictly sorted table (one row per key) the first match is the sum of all matches. */
  lemma {:induction false} SortedLookupIsSum<K(!new)>(g: seq<(K, int)>, lt: (K, K) -> bool, k: K)
    requires StrictTotalOrder(lt) && StrictlySorted(g, lt)
    ensures Lookup(g, k) == SumFor(g, k)
  {
    if g != [] {
      assert g == [g[0]] + g[1..];
      SumForAppend([g[0]], g[1..], k);
      assert [g[0]][..0] == [];
      assert StrictlySorted(g[1..], lt);
      if g[0].0 == k {
        HeadBelowTail(g, lt);
        SumForAbsent(g[1..], k);
      } else {
        SortedLookupIsSum(g[1..], lt, k);
      }
    }
  }

  /** Sum of the values, each weighted by a function of its key. */
  function Weighted<K>(rows: seq<(K, int)>, w: K -> int): int {
    if rows == [] then 0 else w(rows[0].0) * rows[0].1 + Weighted(rows[1..], w)
  }

  lemma {:induction false} WeightedAppend<K>(a: seq<(K, int)>, b: seq<(K, int)>, w: K -> int)
    ensures Weighted(a + b, w) == Weighted(a, w) + Weighted(b, w)
  {
    if a == [] {
      assert a + b == b;
    } else {
      assert (a + b)[1..] == a[1..] + b;
      WeightedAppend(a[1..], b, w);
    }
  }

  /** Inserting adds `w(k) * v` to the weighted sum. */
  lemma {:induction false} InsertWeighted<K>(acc: seq<(K, int)>, k: K, v: int, lt: (K, K) -> bool, w: K -> int)
    ensures Weighted(Insert(acc, k, v, lt), w) == Weighted(acc, w) + w(k) * v
  {
    if acc == [] {
    } else if acc[0].0 == k {
      assert w(k) * (acc[0].1 + v) == w(k) * acc[0].1 + w(k) * v;
    } else if lt(k, acc[0].0) {
    } else {
      InsertWeighted(acc[1..], k, v, lt, w);
    }
  }

  /**
   * Grouping keeps any key-weighted sum: summing `w(key) * value` over the
   * grouped rows gives the same as over the input rows (multiplication by a
   * per-key factor distributes over the per-key sums).
   */
  lemma {:induction false} GroupSumWeighted<K>(rows: seq<(K, int)>, lt: (K, K) -> bool, w: K -> int)
    ensures Weighted(GroupSum(rows, lt), w) == Weighted(rows, w)
  {
    if rows != [] {
      var n := |rows| - 1;
      GroupSumWeighted(rows[..n], lt, w);
      InsertWeighted(GroupSum(rows[..n], lt), rows[n].0, rows[n].1, lt, w);
      assert rows == rows[..n] + [rows[n]];
      WeightedAppend(rows[..n], [rows[n]], w);
    }
  }
}
