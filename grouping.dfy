/** Counting, summing, filtering and grouping rows: what `WHERE`, `COUNT`,
    `SUM` and `GROUP BY` compute, and what the report code computes with
    dictionaries. Rows are consumed from the front; groups appear in the
    order their key first occurs. */
module Grouping {

  /** The number of rows satisfying `p`. */
  function Count<T>(rows: seq<T>, p: T -> bool): (n: nat)
    ensures n <= |rows|
  {
    if rows == [] then 0 else Count(rows[..|rows| - 1], p) + (if p(rows[|rows| - 1]) then 1 else 0)
  }

  /** The sum of `f` over the rows. */
  function Sum<T>(rows: seq<T>, f: T -> real): real {
    if rows == [] then 0.0 else Sum(rows[..|rows| - 1], f) + f(rows[|rows| - 1])
  }

  /** The rows satisfying `p`, in their order. */
  function Filter<T>(rows: seq<T>, p: T -> bool): (r: seq<T>)
    ensures |r| == Count(rows, p)
    ensures forall x | x in r :: x in rows && p(x)
    ensures forall x | x in rows && p(x) :: x in r
  {
    if rows == [] then []
    else
      var init := rows[..|rows| - 1];
      assert rows == init + [rows[|rows| - 1]];
      Filter(init, p) + (if p(rows[|rows| - 1]) then [rows[|rows| - 1]] else [])
  }

  lemma {:induction false} CountAppend<T>(rows: seq<T>, x: T, p: T -> bool)
    ensures Count(rows + [x], p) == Count(rows, p) + (if p(x) then 1 else 0)
  {
    assert (rows + [x])[..|rows|] == rows;
  }

  lemma {:induction false} SumAppend<T>(rows: seq<T>, x: T, f: T -> real)
    ensures Sum(rows + [x], f) == Sum(rows, f) + f(x)
  {
    assert (rows + [x])[..|rows|] == rows;
  }

  /** A weaker condition never counts fewer rows: narrowing a query never
      grows its result. */
  lemma {:induction false} CountMono<T>(rows: seq<T>, p: T -> bool, q: T -> bool)
    requires forall x | x in rows :: p(x) ==> q(x)
    ensures Count(rows, p) <= Count(rows, q)
  {
    if rows != [] {
      var init := rows[..|rows| - 1];
      assert forall x | x in init :: x in rows;
      CountMono(init, p, q);
    }
  }

  /** Nothing satisfies `p` exactly when the count is zero. */
  lemma {:induction false} CountZero<T>(rows: seq<T>, p: T -> bool)
    ensures Count(rows, p) == 0 <==> forall x | x in rows :: !p(x)
  {
    if rows != [] {
      var init := rows[..|rows| - 1];
      CountZero(init, p);
      assert rows == init + [rows[|rows| - 1]];
    }
  }

  // ---------------------------------------------------------------------
  // Grouping

  predicate NoDuplicates<K(==)>(ks: seq<K>) {
    forall i, j | 0 <= i < j < |ks| :: ks[i] != ks[j]
  }

  /** The distinct keys of the rows, in order of first occurrence. */
  function KeysOf<T, K(==)>(rows: seq<T>, key: T -> K): (ks: seq<K>)
    ensures NoDuplicates(ks)
    ensures forall x | x in rows :: key(x) in ks
    ensures forall k | k in ks :: exists x | x in rows :: key(x) == k
  {
    if rows == [] then []
    else
      var init := rows[..|rows| - 1];
      var x := rows[|rows| - 1];
      assert rows == init + [x];
      var ks := KeysOf(init, key);
      if key(x) in ks then ks else ks + [key(x)]
  }

  /** The number of rows whose key is `k`. */
  function CountKey<T, K(==)>(rows: seq<T>, key: T -> K, k: K): nat {
    Count(rows, x => key(x) == k)
  }

  /** One more row adds one to the count of its own key only. */
  lemma CountKeyStep<T, K>(rows: seq<T>, x: T, key: T -> K, k: K)
    ensures CountKey(rows + [x], key, k) == CountKey(rows, key, k) + (if key(x) == k then 1 else 0)
  {
    CountAppend(rows, x, y => key(y) == k);
  }

  /** A key no row has is counted zero times. */
  lemma CountKeyAbsent<T, K>(rows: seq<T>, key: T -> K, k: K)
    requires k !in KeysOf(rows, key)
    ensures CountKey(rows, key, k) == 0
  {
    CountZero(rows, y => key(y) == k);
  }

  /** One more row adds its key at the end, unless it was already seen. */
  lemma KeysOfStep<T, K>(rows: seq<T>, x: T, key: T -> K)
    ensures KeysOf(rows + [x], key) ==
            if key(x) in KeysOf(rows, key) then KeysOf(rows, key) else KeysOf(rows, key) + [key(x)]
  {
    assert (rows + [x])[..|rows|] == rows;
  }

  /** The sum of `weight` over the rows whose key is `k`. */
  function SumKey<T, K(==)>(rows: seq<T>, key: T -> K, weight: T -> real, k: K): real {
    Sum(rows, x => if key(x) == k then weight(x) else 0.0)
  }

  /** One output row of `GROUP BY key` with `COUNT(*)` and `SUM(weight)`. */
  datatype Group<K> = Group(key: K, count: nat, total: real)

  function Tally<T, K(==)>(rows: seq<T>, key: T -> K, weight: T -> real): (g: seq<Group<K>>)
    ensures |g| == |KeysOf(rows, key)|
    ensures forall i | 0 <= i < |g| :: g[i].key == KeysOf(rows, key)[i]
    ensures forall i | 0 <= i < |g| :: g[i].count == CountKey(rows, key, g[i].key) > 0
    ensures forall i | 0 <= i < |g| :: g[i].total == SumKey(rows, key, weight, g[i].key)
  {
    var ks := KeysOf(rows, key);
    seq(|ks|, i requires 0 <= i < |ks| => Group(ks[i], KeysCounted(rows, key, ks[i]), SumKey(rows, key, weight, ks[i])))
  }

  /** No two groups share a key. */
  lemma TallyDistinct<T, K>(rows: seq<T>, key: T -> K, weight: T -> real)
    ensures var g := Tally(rows, key, weight);
            forall a, b | 0 <= a < b < |g| :: g[a].key != g[b].key
  {
    var g := Tally(rows, key, weight);
    var ks := KeysOf(rows, key);
    forall a, b | 0 <= a < b < |g| ensures g[a].key != g[b].key {
      assert g[a].key == ks[a] && g[b].key == ks[b];
    }
  }

  /** The count of a key that occurs, known to be positive. */
  function KeysCounted<T, K(==)>(rows: seq<T>, key: T -> K, k: K): (n: nat)
    requires k in KeysOf(rows, key)
    ensures n == CountKey(rows, key, k) > 0
  {
    KeyPresent(rows, key, k);
    CountKey(rows, key, k)
  }

  lemma KeyPresent<T, K>(rows: seq<T>, key: T -> K, k: K)
    requires exists x | x in rows :: key(x) == k
    ensures CountKey(rows, key, k) > 0
  {
    CountZero(rows, y => key(y) == k);
  }

  /** The total of the counts of the given keys. */
  function CountsOver<T, K(==)>(ks: seq<K>, rows: seq<T>, key: T -> K): nat {
    if ks == [] then 0 else CountKey(rows, key, ks[0]) + CountsOver(ks[1..], rows, key)
  }

  lemma {:induction false} CountsOverAppendKey<T, K>(ks: seq<K>, k: K, rows: seq<T>, key: T -> K)
    ensures CountsOver(ks + [k], rows, key) == CountsOver(ks, rows, key) + CountKey(rows, key, k)
  {
    if ks != [] {
      assert (ks + [k])[1..] == ks[1..] + [k];
      CountsOverAppendKey(ks[1..], k, rows, key);
    }
  }

  lemma {:induction false} CountsOverAppendRow<T, K>(ks: seq<K>, rows: seq<T>, x: T, key: T -> K)
    requires NoDuplicates(ks)
    ensures CountsOver(ks, rows + [x], key) == CountsOver(ks, rows, key) + (if key(x) in ks then 1 else 0)
  {
    if ks != [] {
      CountAppend(rows, x, y => key(y) == ks[0]);
      assert NoDuplicates(ks[1..]);
      CountsOverAppendRow(ks[1..], rows, x, key);
      assert key(x) in ks <==> key(x) == ks[0] || key(x) in ks[1..];
      if key(x) == ks[0] {
        assert key(x) !in ks[1..];
      }
    }
  }

  /** Every row falls in exactly one group: the counts add up to the rows. */
  lemma {:induction false} CountsCover<T, K>(rows: seq<T>, key: T -> K)
    ensures CountsOver(KeysOf(rows, key), rows, key) == |rows|
  {
    if rows != [] {
      var init := rows[..|rows| - 1];
      var x := rows[|rows| - 1];
      assert rows == init + [x];
      var ks := KeysOf(init, key);
      CountsCover(init, key);
      CountsOverAppendRow(ks, init, x, key);
      if key(x) !in ks {
        CountsOverAppendKey(ks, key(x), rows, key);
        CountZero(init, y => key(y) == key(x));
        CountAppend(init, x, y => key(y) == key(x));
      }
    }
  }

  /** Every row's key has its group. */
  lemma TallyCovers<T, K>(rows: seq<T>, key: T -> K, weight: T -> real)
    ensures forall x | x in rows :: exists i | 0 <= i < |Tally(rows, key, weight)| :: Tally(rows, key, weight)[i].key == key(x)
  {
    var g := Tally(rows, key, weight);
    var ks := KeysOf(rows, key);
    forall x | x in rows ensures exists i | 0 <= i < |g| :: g[i].key == key(x) {
      var i :| 0 <= i < |ks| && ks[i] == key(x);
      assert g[i].key == key(x);
    }
  }

  /** Every group's key is the key of some row. */
  lemma TallyKeysOccur<T, K>(rows: seq<T>, key: T -> K, weight: T -> real)
    ensures forall i | 0 <= i < |Tally(rows, key, weight)| :: exists x | x in rows :: key(x) == Tally(rows, key, weight)[i].key
  {
    var g := Tally(rows, key, weight);
    var ks := KeysOf(rows, key);
    forall i | 0 <= i < |g| ensures exists x | x in rows :: key(x) == g[i].key {
      assert ks[i] in ks;
    }
  }

  /** Filters that agree on every row keep the same rows. */
  lemma {:induction false} FilterAgree<T>(rows: seq<T>, p: T -> bool, q: T -> bool)
    requires forall x | x in rows :: p(x) == q(x)
    ensures Filter(rows, p) == Filter(rows, q)
  {
    if rows != [] {
      var init := rows[..|rows| - 1];
      assert forall x | x in init :: x in rows;
      FilterAgree(init, p, q);
    }
  }

  /** A filter every row passes keeps them all. */
  lemma {:induction false} FilterKeepsAll<T>(rows: seq<T>, p: T -> bool)
    requires forall x | x in rows :: p(x)
    ensures Filter(rows, p) == rows
  {
    if rows != [] {
      var init, last := rows[..|rows| - 1], rows[|rows| - 1];
      assert rows == init + [last];
      forall x | x in init ensures p(x) {
        assert x in init + [last];
      }
      FilterKeepsAll(init, p);
      assert p(last);
    }
  }

  /** What a filter keeps comes from the rows and passes the filter. */
  lemma FilterSound<T>(rows: seq<T>, keep: T -> bool, x: T)
    requires x in Filter(rows, keep)
    ensures x in rows && keep(x)
  {
  }

  /** The sum of the counts of some groups. */
  function GroupCounts<K>(g: seq<Group<K>>): nat {
    if g == [] then 0 else g[0].count + GroupCounts(g[1..])
  }

  lemma {:induction false} GroupCountsOver<T, K>(g: seq<Group<K>>, ks: seq<K>, rows: seq<T>, key: T -> K)
    requires |g| == |ks| && forall i | 0 <= i < |g| :: g[i].count == CountKey(rows, key, ks[i])
    ensures GroupCounts(g) == CountsOver(ks, rows, key)
  {
    if g != [] {
      GroupCountsOver(g[1..], ks[1..], rows, key);
    }
  }

  /** The counts of a `GROUP BY` add up to the number of rows grouped. */
  lemma TallyCounts<T, K>(rows: seq<T>, key: T -> K, weight: T -> real)
    ensures GroupCounts(Tally(rows, key, weight)) == |rows|
  {
    GroupCountsOver(Tally(rows, key, weight), KeysOf(rows, key), rows, key);
    CountsCover(rows, key);
  }

  /** Filtering twice keeps the rows that pass both filters. */
  lemma {:induction false} CountFilter<T>(rows: seq<T>, p: T -> bool, q: T -> bool, both: T -> bool)
    requires forall x :: both(x) == (p(x) && q(x))
    ensures Count(Filter(rows, p), q) == Count(rows, both)
  {
    if rows != [] {
      var init := rows[..|rows| - 1];
      var x := rows[|rows| - 1];
      assert rows == init + [x];
      CountFilter(init, p, q, both);
      var fp := Filter(init, p);
      if p(x) {
        assert Filter(rows, p) == fp + [x];
        CountAppend(fp, x, q);
      } else {
        assert Filter(rows, p) == fp;
      }
    }
  }
}
