/**
 * `trainsToArray` and `stretchesToArray` (train.go, stretch.go): the values
 * of a map keyed by their own byte id, appended in the map's iteration
 * order and then sorted by id.
 */
module IdOrder {
  import opened Wrappers
  import opened ServerUtils
  import opened Sorting

  /** No two records share an id. */
  predicate DistinctIds<T>(s: seq<T>, id: T -> uint8)
  {
    forall i, j :: 0 <= i < j < |s| ==> id(s[i]) != id(s[j])
  }

  lemma AtMostOnce<T>(s: seq<T>, id: T -> uint8, x: T)
    requires DistinctIds(s, id)
    ensures multiset(s)[x] <= 1
  {
    if s != [] {
      var init := s[..|s| - 1];
      assert s == init + [s[|s| - 1]];
      assert DistinctIds(init, id);
      AtMostOnce(init, id, x);
      if x == s[|s| - 1] {
        assert x !in init;
      }
    }
  }

  lemma TwoPositions<T>(s: seq<T>, i: int, j: int)
    requires 0 <= i < j < |s| && s[i] == s[j]
    ensures multiset(s)[s[i]] >= 2
  {
    assert s == s[..i] + [s[i]] + s[i + 1..j] + [s[j]] + s[j + 1..];
  }

  /** A permutation of records with distinct ids, all taken from one map keyed by id, has distinct ids. */
  lemma PermutationKeepsDistinct<T>(a: seq<T>, b: seq<T>, id: T -> uint8, m: map<uint8, T>)
    requires DistinctIds(a, id) && multiset(a) == multiset(b)
    requires forall i :: 0 <= i < |a| ==> id(a[i]) in m && a[i] == m[id(a[i])]
    ensures DistinctIds(b, id)
  {
    forall i, j | 0 <= i < j < |b| ensures id(b[i]) != id(b[j]) {
      if id(b[i]) == id(b[j]) {
        assert b[i] in multiset(a) && b[j] in multiset(a);
        var p :| 0 <= p < |a| && a[p] == b[i];
        var q :| 0 <= q < |a| && a[q] == b[j];
        assert b[i] == b[j];
        TwoPositions(b, i, j);
        AtMostOnce(a, id, b[i]);
        assert false;
      }
    }
  }

  /**
   * Each value of `m` exactly once, in strictly ascending id order; the
   * map's own iteration order, which Go leaves unspecified, is the choice
   * the loop makes.
   */
  method ValuesInIdOrder<T(==)>(m: map<uint8, T>, id: T -> uint8) returns (r: seq<T>)
    requires forall k :: k in m ==> id(m[k]) == k
    ensures |r| == |m|
    ensures forall i :: 0 <= i < |r| ==> id(r[i]) in m && r[i] == m[id(r[i])]
    ensures forall k :: k in m ==> m[k] in r
    ensures forall i, j :: 0 <= i < j < |r| ==> id(r[i]) < id(r[j])
  {
    var values: seq<T> := [];
    var rest := m.Keys;
    while rest != {}
      invariant rest <= m.Keys
      invariant |values| + |rest| == |m.Keys|
      invariant forall i :: 0 <= i < |values| ==> id(values[i]) in m && id(values[i]) !in rest && values[i] == m[id(values[i])]
      invariant forall k :: k in m && k !in rest ==> m[k] in values
      invariant DistinctIds(values, id)
      decreases |rest|
    {
      var k :| k in rest;
      values := values + [m[k]];
      rest := rest - {k};
    }
    var key := (t: T) => Some(id(t) as int);
    r := SortByKey(values, key);
    SortPermutes(values, key);
    SortSorted(values, key);
    SortLength(values, key);
    forall x | x in values ensures x in r {
      SortMembers(values, key, x);
    }
    forall i | 0 <= i < |r| ensures id(r[i]) in m && r[i] == m[id(r[i])] {
      SortMembers(values, key, r[i]);
    }
    PermutationKeepsDistinct(values, r, id, m);
    forall i, j | 0 <= i < j < |r| ensures id(r[i]) < id(r[j]) {
      assert !Before(key, r[j], r[i]);
    }
  }
}
