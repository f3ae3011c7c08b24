/**
 * Sorting message records by `timestamp`, as the queries' `.sort({ timestamp: 1 })`
 * and `.sort({ timestamp: -1 })` do. The database leaves the order of equal
 * timestamps open; the contracts below promise only what it promises:
 * the result is a permutation of the input, ordered by timestamp.
 */
module Ordering {
  import opened MessageModel

  /** The sort direction: `1` is ascending, `-1` descending. */
  datatype SortOrder = Ascending | Descending

  /** `a` may come before `b` in the given order. */
  predicate InOrder(a: Record, b: Record, order: SortOrder) {
    match order
    case Ascending => a.timestamp <= b.timestamp
    case Descending => a.timestamp >= b.timestamp
  }

  predicate SortedBy(rs: seq<Record>, order: SortOrder) {
    forall i, j :: 0 <= i < j < |rs| ==> InOrder(rs[i], rs[j], order)
  }

  /** `a` may come before every record of `rs`. */
  predicate Precedes(a: Record, rs: seq<Record>, order: SortOrder) {
    forall i :: 0 <= i < |rs| ==> InOrder(a, rs[i], order)
  }

  /** Whatever `a` precedes, it still precedes after a permutation that adds `x`. */
  lemma PrecedesPermutation(a: Record, x: Record, rs: seq<Record>, t: seq<Record>, order: SortOrder)
    requires Precedes(a, rs, order) && InOrder(a, x, order)
    requires multiset(t) == multiset(rs) + multiset{x}
    ensures Precedes(a, t, order)
  {
    forall i | 0 <= i < |t| ensures InOrder(a, t[i], order) {
      assert t[i] in multiset(t);
      if t[i] != x {
        assert t[i] in multiset(rs);
        var k :| 0 <= k < |rs| && rs[k] == t[i];
      }
    }
  }

  lemma ConsSorted(a: Record, rs: seq<Record>, order: SortOrder)
    requires Precedes(a, rs, order) && SortedBy(rs, order)
    ensures SortedBy([a] + rs, order)
  {
    var s := [a] + rs;
    forall i, j | 0 <= i < j < |s| ensures InOrder(s[i], s[j], order) {
      if i > 0 {
        assert s[i] == rs[i - 1] && s[j] == rs[j - 1];
      } else {
        assert s[j] == rs[j - 1];
      }
    }
  }

  /** Inserts `x` into a sorted sequence, keeping it sorted. */
  function Insert(x: Record, rs: seq<Record>, order: SortOrder): (r: seq<Record>)
    requires SortedBy(rs, order)
    ensures SortedBy(r, order)
    ensures multiset(r) == multiset(rs) + multiset{x}
  {
    if rs == [] then [x]
    else if InOrder(x, rs[0], order) then
      assert Precedes(x, rs, order);
      ConsSorted(x, rs, order);
      [x] + rs
    else
      var tail := Insert(x, rs[1..], order);
      assert rs == [rs[0]] + rs[1..];
      assert Precedes(rs[0], rs[1..], order);
      PrecedesPermutation(rs[0], x, rs[1..], tail, order);
      ConsSorted(rs[0], tail, order);
      [rs[0]] + tail
  }

  /** The records of `rs` ordered by timestamp. */
  function SortByTimestamp(rs: seq<Record>, order: SortOrder): (r: seq<Record>)
    ensures SortedBy(r, order)
    ensures multiset(r) == multiset(rs)
  {
    if rs == [] then []
    else
      assert rs == rs[..|rs| - 1] + [rs[|rs| - 1]];
      Insert(rs[|rs| - 1], SortByTimestamp(rs[..|rs| - 1], order), order)
  }
}
