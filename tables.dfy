/** Database tables as maps from row id to record. A query scans rows in
    ascending id order, which is also how ties between equal sort keys are
    broken; sums over a table are taken over its set of ids. */
module Tables {

  /** A non-empty set has an element. */
  lemma NonEmpty(s: set<int>)
    requires s != {}
    ensures exists y :: y in s
  {
    if forall y :: y !in s { assert false; }
  }

  /** The smallest id of a non-empty set. */
  function Min(s: set<int>): (m: int)
    requires s != {}
    ensures m in s && forall x | x in s :: m <= x
  {
    MinExists(s);
    var m :| m in s && forall x | x in s :: m <= x;
    m
  }

  lemma MinExists(s: set<int>)
    requires s != {}
    ensures exists m :: m in s && forall x | x in s :: m <= x
  {
    NonEmpty(s);
    var y :| y in s;
    if s != {y} {
      MinExists(s - {y});
      var m :| m in s - {y} && forall x | x in s - {y} :: m <= x;
      var least := if y < m then y else m;
      forall x | x in s ensures least <= x {
        if x != y { assert x in s - {y}; }
      }
      assert least in s;
    } else {
      assert forall x | x in s :: y <= x;
    }
  }

  /** The largest id of a non-empty set. */
  function Max(s: set<int>): (m: int)
    requires s != {}
    ensures m in s && forall x | x in s :: x <= m
  {
    MaxExists(s);
    var m :| m in s && forall x | x in s :: x <= m;
    m
  }

  lemma MaxExists(s: set<int>)
    requires s != {}
    ensures exists m :: m in s && forall x | x in s :: x <= m
  {
    NonEmpty(s);
    var y :| y in s;
    if s != {y} {
      MaxExists(s - {y});
      var m :| m in s - {y} && forall x | x in s - {y} :: x <= m;
      var most := if y > m then y else m;
      forall x | x in s ensures x <= most {
        if x != y { assert x in s - {y}; }
      }
      assert most in s;
    } else {
      assert forall x | x in s :: x <= y;
    }
  }

  predicate Increasing(r: seq<int>) {
    forall i, j | 0 <= i < j < |r| :: r[i] < r[j]
  }

  /** The ids of `s` in ascending order. */
  function SortedKeys(s: set<int>): (r: seq<int>)
    ensures |r| == |s| && Increasing(r)
    ensures forall x :: x in r <==> x in s
    decreases |s|
  {
    if s == {} then []
    else
      var m := Min(s);
      var rest := SortedKeys(s - {m});
      assert forall x | x in rest :: m < x;
      [m] + rest
  }

  /** The rows of a table in scan order. */
  function Rows<V>(t: map<int, V>): (r: seq<V>)
    ensures |r| == |t|
    ensures forall i | 0 <= i < |r| :: SortedKeys(t.Keys)[i] in t && r[i] == t[SortedKeys(t.Keys)[i]]
    ensures forall k | k in t :: t[k] in r
  {
    var keys := SortedKeys(t.Keys);
    RowsOfCover(t, keys);
    RowsOf(t, keys)
  }

  /** Every row whose id is listed is among the rows read. */
  lemma RowsOfCover<V>(t: map<int, V>, keys: seq<int>)
    requires forall i | 0 <= i < |keys| :: keys[i] in t
    requires forall k | k in t :: k in keys
    ensures forall k | k in t :: t[k] in RowsOf(t, keys)
  {
    var r := RowsOf(t, keys);
    forall k | k in t ensures t[k] in r {
      var i := IndexOf(keys, k);
      assert r[i] == t[k];
    }
  }

  /** An id above every id of a set comes last in ascending order. */
  lemma SortedKeysAddTop(s: set<int>, m: int)
    requires forall k | k in s :: k < m
    ensures SortedKeys(s + {m}) == SortedKeys(s) + [m]
  {
    var keys := SortedKeys(s);
    var r := keys + [m];
    forall i, j | 0 <= i < j < |r| ensures r[i] < r[j] {
      if j == |keys| {
        assert r[i] == keys[i] && keys[i] in s;
      } else {
        assert r[i] == keys[i] && r[j] == keys[j];
      }
    }
    IncreasingUnique(SortedKeys(s + {m}), r);
  }

  /** Two increasing sequences with the same elements are equal. */
  lemma {:induction false} IncreasingUnique(a: seq<int>, b: seq<int>)
    requires Increasing(a) && Increasing(b)
    requires forall x :: x in a <==> x in b
    ensures a == b
    decreases |a|
  {
    SameElementsEmpty(a, b);
    if a != [] {
      assert a[0] <= b[0] by {
        assert b[0] in b;
        var i :| 0 <= i < |a| && a[i] == b[0];
        if i > 0 { assert a[0] < a[i]; }
      }
      assert b[0] <= a[0] by {
        assert a[0] in a;
        var j :| 0 <= j < |b| && b[j] == a[0];
        if j > 0 { assert b[0] < b[j]; }
      }
      forall x ensures x in a[1..] <==> x in b[1..] {
        TailOfIncreasing(a, x);
        TailOfIncreasing(b, x);
      }
      IncreasingUnique(a[1..], b[1..]);
      assert a == [a[0]] + a[1..] && b == [b[0]] + b[1..];
    }
  }

  /** Sequences with the same elements are both empty or both not. */
  lemma SameElementsEmpty(a: seq<int>, b: seq<int>)
    requires forall x :: x in a <==> x in b
    ensures a == [] <==> b == []
  {
    if a != [] {
      var x := a[0];
      assert x in a;
      assert x in b;
    }
    if b != [] {
      var x := b[0];
      assert x in b;
      assert x in a;
    }
  }

  /** The tail of an increasing sequence holds every element but the first. */
  lemma TailOfIncreasing(a: seq<int>, x: int)
    requires Increasing(a) && a != []
    ensures x in a[1..] <==> x in a && x != a[0]
  {
    if x in a && x != a[0] {
      var i :| 0 <= i < |a| && a[i] == x;
      assert a[1..][i - 1] == x;
    }
    if x in a[1..] {
      var i :| 0 <= i < |a[1..]| && a[1..][i] == x;
      assert a[i + 1] == x;
    }
  }

  /** A row stored under an id above all others is scanned last. */
  lemma RowsAddTop<V>(t: map<int, V>, id: int, v: V)
    requires forall k | k in t :: k < id
    ensures Rows(t[id := v]) == Rows(t) + [v]
  {
    KeysAddTop(t, id, v);
    RowsOfAddTop(t, SortedKeys(t.Keys), id, v);
  }

  lemma KeysAddTop<V>(t: map<int, V>, id: int, v: V)
    requires forall k | k in t :: k < id
    ensures SortedKeys(t[id := v].Keys) == SortedKeys(t.Keys) + [id]
  {
    assert t[id := v].Keys == t.Keys + {id};
    SortedKeysAddTop(t.Keys, id);
  }

  lemma {:induction false} RowsOfAddTop<V>(t: map<int, V>, keys: seq<int>, id: int, v: V)
    requires forall i | 0 <= i < |keys| :: keys[i] in t
    requires id !in t
    ensures RowsOf(t[id := v], keys + [id]) == RowsOf(t, keys) + [v]
  {
    if keys == [] {
      assert keys + [id] == [id];
    } else {
      assert (keys + [id])[1..] == keys[1..] + [id];
      RowsOfAddTop(t, keys[1..], id, v);
    }
  }

  /** The rows with the given ids, in the order of the ids. */
  function RowsOf<V>(t: map<int, V>, keys: seq<int>): (r: seq<V>)
    requires forall i | 0 <= i < |keys| :: keys[i] in t
    ensures |r| == |keys|
    ensures forall i | 0 <= i < |r| :: r[i] == t[keys[i]]
  {
    if keys == [] then [] else [t[keys[0]]] + RowsOf(t, keys[1..])
  }

  function IndexOf(keys: seq<int>, k: int): (i: nat)
    requires k in keys
    ensures i < |keys| && keys[i] == k
  {
    if keys[0] == k then 0 else 1 + IndexOf(keys[1..], k)
  }

  /** SQLite's choice of id for a table without `AUTOINCREMENT`: one more than
      the largest id in use, or 1 for an empty table. */
  function NewId<V>(t: map<int, V>): (id: int)
    ensures id !in t && id >= 1
    ensures forall k | k in t :: k < id
  {
    if |t| == 0 then 1
    else
      var top := Max(t.Keys);
      if top + 1 >= 1 then top + 1 else 1
  }

  // ---------------------------------------------------------------------
  // Sums over a set of ids

  /** The sum of `f` over `s`, taken in ascending order. */
  function SumSet(s: set<int>, f: int -> real): real
    decreases |s|
  {
    if s == {} then 0.0 else f(Min(s)) + SumSet(s - {Min(s)}, f)
  }

  /** Any element can be taken out of the sum first. */
  lemma {:induction false} SumSetRemove(s: set<int>, f: int -> real, k: int)
    requires k in s
    ensures SumSet(s, f) == f(k) + SumSet(s - {k}, f)
    decreases |s|
  {
    var j := Min(s);
    if j != k {
      SumSetRemove(s - {j}, f, k);
      assert s - {j} - {k} == s - {k} - {j};
      assert Min(s - {k}) == j;
    }
  }

  /** Two functions that agree on `s` have the same sum over it. */
  lemma {:induction false} SumSetAgree(s: set<int>, f: int -> real, g: int -> real)
    requires forall k | k in s :: f(k) == g(k)
    ensures SumSet(s, f) == SumSet(s, g)
    decreases s
  {
    if s != {} {
      var k := Min(s);
      SumSetRemove(s, f, k);
      SumSetRemove(s, g, k);
      SumSetAgree(s - {k}, f, g);
    }
  }

  /** A sum of zeroes is zero. */
  lemma {:induction false} SumSetZero(s: set<int>, f: int -> real)
    requires forall k | k in s :: f(k) == 0.0
    ensures SumSet(s, f) == 0.0
    decreases s
  {
    if s != {} {
      var k := Min(s);
      SumSetRemove(s, f, k);
      SumSetZero(s - {k}, f);
    }
  }

  /** Every row of a table is stored under some id. */
  lemma RowIn<V>(t: map<int, V>, v: V)
    requires v in Rows(t)
    ensures exists k | k in t :: t[k] == v
  {
    var rows := Rows(t);
    var i :| 0 <= i < |rows| && rows[i] == v;
    assert t[SortedKeys(t.Keys)[i]] == v;
  }

  /** A row scanned after a removal is stored under another id. */
  lemma RowInRemoved<V>(t: map<int, V>, id: int, v: V)
    requires v in Rows(t - {id})
    ensures exists k | k in t && k != id :: t[k] == v
  {
    RowIn(t - {id}, v);
  }
}
