/** `SELECT * FROM t WHERE keep ORDER BY le`: the rows of a table that pass a
    filter, sorted. */
module Selection {

  import opened Tables
  import opened Grouping
  import opened Sorting

  function Select<V>(t: map<int, V>, keep: V -> bool, le: (V, V) -> bool): seq<V> {
    SortBy(Filter(Rows(t), keep), le)
  }

  /** Every selected row is a stored row that passes the filter, every stored
      row that passes is selected, and as many rows as pass. */
  lemma SelectMembers<V>(t: map<int, V>, keep: V -> bool, le: (V, V) -> bool)
    ensures var r := Select(t, keep, le);
            && (forall v | v in r :: keep(v) && exists id | id in t :: t[id] == v)
            && (forall id | id in t && keep(t[id]) :: t[id] in r)
            && |r| == Count(Rows(t), keep)
  {
    var kept := Filter(Rows(t), keep);
    var r := SortBy(kept, le);
    forall v | v in r ensures keep(v) && exists id | id in t :: t[id] == v {
      assert v in multiset(r);
      assert v in kept;
      RowIn(t, v);
    }
    forall id | id in t && keep(t[id]) ensures t[id] in r {
      assert t[id] in kept;
      assert t[id] in multiset(kept);
    }
  }

  /** The selection as `SelectMembers` says, and in the order `le` gives. */
  lemma SelectSpec<V(!new)>(t: map<int, V>, keep: V -> bool, le: (V, V) -> bool)
    requires TotalPreorder(le)
    ensures var r := Select(t, keep, le);
            && (forall v | v in r :: keep(v) && exists id | id in t :: t[id] == v)
            && (forall id | id in t && keep(t[id]) :: t[id] in r)
            && |r| == Count(Rows(t), keep)
            && SortedBy(r, le)
  {
    SelectMembers(t, keep, le);
    SortBySorted(Filter(Rows(t), keep), le);
  }
}
