/**
 * A stable insertion sort by an integer key, the model of both JavaScript's
 * `Array.prototype.sort` with the comparator `a.id - b.id` and Go's
 * `sort.Slice` on `Id`. A record whose key is missing (`None`) stands for a
 * JavaScript `undefined` id, for which the comparator's difference is NaN.
 * This sort treats such a record as equal to every other and never moves one
 * past it; JavaScript leaves the order of such a comparator to the engine.
 */
module Sorting {
  import opened Wrappers

  /** `a` must come strictly before `b`: both keys are present and `a`'s is smaller. */
  predicate Before<T>(key: T -> Option<int>, a: T, b: T)
  {
    key(a).Some? && key(b).Some? && key(a).value < key(b).value
  }

  /** No record is followed by one with a smaller (present) key. */
  predicate SortedByKey<T>(s: seq<T>, key: T -> Option<int>)
  {
    forall i, j :: 0 <= i < j < |s| ==> !Before(key, s[j], s[i])
  }

  /** Puts `x` in front of the first record that must follow it. */
  function Insert<T>(x: T, s: seq<T>, key: T -> Option<int>): seq<T>
  {
    if s == [] then [x]
    else if Before(key, x, s[0]) then [x] + s
    else [s[0]] + Insert(x, s[1..], key)
  }

  /** Inserts the records one by one, in their original order. */
  function SortByKey<T>(s: seq<T>, key: T -> Option<int>): seq<T>
    decreases |s|
  {
    if s == [] then [] else Insert(s[|s| - 1], SortByKey(s[..|s| - 1], key), key)
  }

  lemma {:induction false} InsertPermutes<T>(x: T, s: seq<T>, key: T -> Option<int>)
    ensures multiset(Insert(x, s, key)) == multiset(s) + multiset{x}
  {
    if s != [] && !Before(key, x, s[0]) {
      InsertPermutes(x, s[1..], key);
      assert s == [s[0]] + s[1..];
    }
  }

  lemma {:induction false} InsertSorted<T>(x: T, s: seq<T>, key: T -> Option<int>)
    requires SortedByKey(s, key)
    ensures SortedByKey(Insert(x, s, key), key)
  {
    if s == [] {
    } else if Before(key, x, s[0]) {
      var r := [x] + s;
      forall i, j | 0 <= i < j < |r| ensures !Before(key, r[j], r[i]) {
        if i == 0 {
          assert r[j] == s[j - 1];
          if j > 1 { assert !Before(key, s[j - 1], s[0]); }
        } else {
          assert r[i] == s[i - 1] && r[j] == s[j - 1];
        }
      }
    } else {
      var t := s[1..];
      assert SortedByKey(t, key) by {
        forall i, j | 0 <= i < j < |t| ensures !Before(key, t[j], t[i]) {
          assert t[i] == s[i + 1] && t[j] == s[j + 1];
        }
      }
      InsertSorted(x, t, key);
      InsertPermutes(x, t, key);
      var rest := Insert(x, t, key);
      var r := [s[0]] + rest;
      forall i, j | 0 <= i < j < |r| ensures !Before(key, r[j], r[i]) {
        if i == 0 {
          var e := rest[j - 1];
          assert e in multiset(rest);
          if e != x {
            assert e in multiset(t);
            var k :| 0 <= k < |t| && t[k] == e;
            assert s[k + 1] == e;
          }
        } else {
          assert r[i] == rest[i - 1] && r[j] == rest[j - 1];
        }
      }
    }
  }

  /** The sorted sequence holds exactly the records given, each as often as given. */
  lemma {:induction false} SortPermutes<T>(s: seq<T>, key: T -> Option<int>)
    ensures multiset(SortByKey(s, key)) == multiset(s)
    decreases |s|
  {
    if s != [] {
      var init := s[..|s| - 1];
      SortPermutes(init, key);
      InsertPermutes(s[|s| - 1], SortByKey(init, key), key);
      assert s == init + [s[|s| - 1]];
    }
  }

  /** The result never puts a record after one with a larger key. */
  lemma {:induction false} SortSorted<T>(s: seq<T>, key: T -> Option<int>)
    ensures SortedByKey(SortByKey(s, key), key)
    decreases |s|
  {
    if s != [] {
      SortSorted(s[..|s| - 1], key);
      InsertSorted(s[|s| - 1], SortByKey(s[..|s| - 1], key), key);
    }
  }

  lemma SortLength<T>(s: seq<T>, key: T -> Option<int>)
    ensures |SortByKey(s, key)| == |s|
  {
    SortPermutes(s, key);
    assert |multiset(SortByKey(s, key))| == |multiset(s)|;
  }

  /** A record belongs to the sorted sequence iff it belongs to the input. */
  lemma SortMembers<T>(s: seq<T>, key: T -> Option<int>, x: T)
    ensures x in SortByKey(s, key) <==> x in s
  {
    SortPermutes(s, key);
    assert x in SortByKey(s, key) <==> x in multiset(SortByKey(s, key));
    assert x in s <==> x in multiset(s);
  }

  /** Deleting one position keeps a sorted sequence sorted. */
  lemma DeleteKeepsSorted<T>(s: seq<T>, k: int, key: T -> Option<int>)
    requires SortedByKey(s, key) && 0 <= k < |s|
    ensures SortedByKey(s[..k] + s[k + 1..], key)
  {
    var r := s[..k] + s[k + 1..];
    forall i, j | 0 <= i < j < |r| ensures !Before(key, r[j], r[i]) {
      var i' := if i < k then i else i + 1;
      var j' := if j < k then j else j + 1;
      assert r[i] == s[i'] && r[j] == s[j'];
    }
  }
}
