/**
 * The client's list of trains (redux/trainsSlice.ts). Each reducer edits
 * the list with `push`, `splice` and `sort`; the model keeps the list as a
 * sequence field that each method reassigns, one step per source statement.
 */
module TrainsSlice {
  import opened Wrappers
  import opened JsData
  import opened ClientTrain
  import opened Sorting

  /**
   * The number the comparator `a.id - b.id` reads for a train's id:
   * JavaScript's subtraction turns `null` into 0, and `undefined` into NaN,
   * which has no place in the order.
   */
  function IdKey(t: Train): (k: Option<int>)
    ensures t.id.Val? ==> k == Some(t.id.v)
    ensures t.id.Null? ==> k == Some(0)
    ensures k.None? <==> t.id.Undefined?
  {
    match t.id
    case Val(v) => Some(v)
    case Null => Some(0)
    case Undefined => None
  }

  function SortById(s: seq<Train>): seq<Train>
  {
    SortByKey(s, IdKey)
  }

  predicate SortedById(s: seq<Train>)
  {
    SortedByKey(s, IdKey)
  }

  /** `state.findIndex(train => train.id === id)`: the first match, or -1. */
  function FindIndex(s: seq<Train>, id: Js<int>): (i: int)
    ensures -1 <= i < |s|
    ensures 0 <= i ==> s[i].id == id && forall k :: 0 <= k < i ==> s[k].id != id
    ensures i < 0 <==> forall k :: 0 <= k < |s| ==> s[k].id != id
  {
    if |s| == 0 then -1
    else if s[0].id == id then 0
    else
      var k := FindIndex(s[1..], id);
      if k < 0 then -1 else k + 1
  }

  /** `s.splice(start, 1)`: a negative start counts back from the end, anything past the end deletes nothing. */
  function SpliceOne<T>(s: seq<T>, start: int): (r: seq<T>)
    ensures 0 <= start < |s| ==> r == s[..start] + s[start + 1..]
    ensures start == -1 && |s| > 0 ==> r == s[..|s| - 1]
    ensures |s| == 0 ==> r == []
  {
    var k := if start < 0 then (if |s| + start < 0 then 0 else |s| + start)
             else (if start < |s| then start else |s|);
    if k < |s| then s[..k] + s[k + 1..] else s
  }

  // The four reducers as functions of the old list.

  /** `add`: one record more, the payload among them. */
  function Added(state: seq<Train>, t: Train): (r: seq<Train>)
    ensures |r| == |state| + 1 && t in r
  {
    SortLength(state + [t], IdKey);
    SortMembers(state + [t], IdKey, t);
    SortById(state + [t])
  }

  /** `addMultiple`: as many records as the list and the batch together. */
  function AddedMultiple(state: seq<Train>, batch: seq<Train>): (r: seq<Train>)
    ensures |r| == |state| + |batch|
  {
    SortLength(state + batch, IdKey);
    SortById(state + batch)
  }

  /** `update`: the payload is in the list, which keeps its length unless it was empty. */
  function Updated(state: seq<Train>, t: Train): (r: seq<Train>)
    ensures t in r
    ensures |state| > 0 ==> |r| == |state|
    ensures |state| == 0 ==> r == [t]
  {
    var rest := SpliceOne(state, FindIndex(state, t.id));
    SortLength(rest + [t], IdKey);
    SortMembers(rest + [t], IdKey, t);
    SortById(rest + [t])
  }

  /** `remove`: one record fewer, and nothing from an empty list. */
  function Removed(state: seq<Train>, t: Train): (r: seq<Train>)
    ensures |state| > 0 ==> |r| == |state| - 1
    ensures |state| == 0 ==> r == []
  {
    SpliceOne(state, FindIndex(state, t.id))
  }

  /** A train whose id is `null` sorts as id 0, so it goes before a train with id 5. */
  lemma NullIdSortsAsZero(a: Train, b: Train)
    requires a.id == Val(5) && b.id == Null
    ensures SortById([a, b]) == [b, a]
  {
    assert [a, b][..1] == [a];
    assert [a][..0] == [];
    assert SortByKey([a][..0], IdKey) == [];
    assert SortByKey([a], IdKey) == Insert(a, [], IdKey) == [a];
    assert SortByKey([a, b], IdKey) == Insert(b, [a], IdKey);
    assert Before(IdKey, b, a);
  }

  /** No two records share an id. */
  predicate UniqueIds(s: seq<Train>)
  {
    forall i, j :: 0 <= i < j < |s| ==> s[i].id != s[j].id
  }

  class TrainsStore {
    var state: seq<Train>

    constructor()
      ensures state == []
    {
      state := [];
    }

    method Add(payload: Train)
      modifies this
      ensures state == Added(old(state), payload)
    {
      state := state + [payload];
      state := SortById(state);
    }

    method AddMultiple(payload: seq<Train>)
      modifies this
      ensures state == AddedMultiple(old(state), payload)
    {
      state := state + payload;
      state := SortById(state);
    }

    method Update(payload: Train)
      modifies this
      ensures state == Updated(old(state), payload)
    {
      var i := FindIndex(state, payload.id);
      state := SpliceOne(state, i);
      state := state + [payload];
      state := SortById(state);
    }

    method Remove(payload: Train)
      modifies this
      ensures state == Removed(old(state), payload)
    {
      var i := FindIndex(state, payload.id);
      state := SpliceOne(state, i);
    }
  }

  // ----- properties of the reducers -----

  /** `add` gives a sorted permutation of the old list plus the payload, one longer. */
  lemma AddSortsAndKeepsAll(state: seq<Train>, t: Train)
    ensures SortedById(Added(state, t))
    ensures multiset(Added(state, t)) == multiset(state) + multiset{t}
    ensures |Added(state, t)| == |state| + 1
  {
    SortSorted(state + [t], IdKey);
    SortPermutes(state + [t], IdKey);
    SortLength(state + [t], IdKey);
  }

  /** `addMultiple` gives a sorted permutation of the old list followed by the batch. */
  lemma AddMultipleSortsAndKeepsAll(state: seq<Train>, batch: seq<Train>)
    ensures SortedById(AddedMultiple(state, batch))
    ensures multiset(AddedMultiple(state, batch)) == multiset(state) + multiset(batch)
  {
    SortSorted(state + batch, IdKey);
    SortPermutes(state + batch, IdKey);
  }

  /** `add` does not look for an existing id: the old record and the payload both remain. */
  lemma AddKeepsDuplicateIds(state: seq<Train>, t: Train, k: int)
    requires 0 <= k < |state| && state[k].id == t.id && state[k] != t
    ensures exists i, j ::
              && 0 <= i < |Added(state, t)| && 0 <= j < |Added(state, t)| && i != j
              && Added(state, t)[i] == state[k] && Added(state, t)[j] == t
              && Added(state, t)[i].id == Added(state, t)[j].id
  {
    AddSortsAndKeepsAll(state, t);
    var r := Added(state, t);
    assert state[k] in multiset(r) && t in multiset(r);
    var i :| 0 <= i < |r| && r[i] == state[k];
    var j :| 0 <= j < |r| && r[j] == t;
  }

  /** `update` of a present id: same length, the matched record is swapped for the payload, still sorted. */
  lemma UpdatePresentReplaces(state: seq<Train>, t: Train)
    requires FindIndex(state, t.id) >= 0
    ensures var i := FindIndex(state, t.id);
      && |Updated(state, t)| == |state|
      && multiset(Updated(state, t)) == multiset(state) - multiset{state[i]} + multiset{t}
      && SortedById(Updated(state, t))
  {
    var i := FindIndex(state, t.id);
    var rest := state[..i] + state[i + 1..];
    assert state == state[..i] + [state[i]] + state[i + 1..];
    assert multiset(rest) == multiset(state) - multiset{state[i]};
    SortPermutes(rest + [t], IdKey);
    SortSorted(rest + [t], IdKey);
    SortLength(rest + [t], IdKey);
  }

  /** With unique ids, after `update` the payload is the one and only record with its id. */
  lemma UpdatePresentIsFullReplace(state: seq<Train>, t: Train)
    requires UniqueIds(state) && FindIndex(state, t.id) >= 0
    ensures t in Updated(state, t)
    ensures forall r :: r in Updated(state, t) && r.id == t.id ==> r == t
  {
    var i := FindIndex(state, t.id);
    var rest := state[..i] + state[i + 1..];
    SortPermutes(rest + [t], IdKey);
    forall k | 0 <= k < |rest| ensures rest[k].id != t.id {
      var k' := if k < i then k else k + 1;
      assert rest[k] == state[k'];
    }
    forall r | r in Updated(state, t) && r.id == t.id ensures r == t {
      assert r in multiset(rest + [t]);
      assert r in rest + [t];
    }
    assert t in multiset(rest + [t]);
  }

  /** `update` of an absent id: `findIndex` gives -1, so the last record is dropped before the payload goes in. */
  lemma UpdateAbsentDropsLast(state: seq<Train>, t: Train)
    requires FindIndex(state, t.id) < 0 && |state| > 0
    ensures Updated(state, t) == SortById(state[..|state| - 1] + [t])
    ensures |Updated(state, t)| == |state|
    ensures multiset(Updated(state, t)) == multiset(state) - multiset{state[|state| - 1]} + multiset{t}
  {
    var init := state[..|state| - 1];
    assert state == init + [state[|state| - 1]];
    SortPermutes(init + [t], IdKey);
    SortLength(init + [t], IdKey);
  }

  /** `remove` of a present id removes exactly the first record with that id and keeps the rest in order. */
  lemma RemovePresentDeletesMatch(state: seq<Train>, t: Train)
    requires FindIndex(state, t.id) >= 0
    ensures var i := FindIndex(state, t.id);
      Removed(state, t) == state[..i] + state[i + 1..] && state[i].id == t.id
    ensures SortedById(state) ==> SortedById(Removed(state, t))
  {
    var i := FindIndex(state, t.id);
    if SortedById(state) {
      DeleteKeepsSorted(state, i, IdKey);
    }
  }

  /** `remove` of an absent id drops the last record. */
  lemma RemoveAbsentDropsLast(state: seq<Train>, t: Train)
    requires FindIndex(state, t.id) < 0
    ensures |state| > 0 ==> Removed(state, t) == state[..|state| - 1]
    ensures |state| == 0 ==> Removed(state, t) == []
  {
  }

  /** So removing the same train twice removes two records: a repeated `remove` is not a no-op. */
  lemma RemoveTwiceRemovesTwo(state: seq<Train>, t: Train)
    requires UniqueIds(state) && FindIndex(state, t.id) >= 0 && |state| >= 2
    ensures |Removed(Removed(state, t), t)| == |state| - 2
    ensures Removed(Removed(state, t), t) != Removed(state, t)
  {
    var i := FindIndex(state, t.id);
    var once := Removed(state, t);
    assert once == state[..i] + state[i + 1..];
    forall k | 0 <= k < |once| ensures once[k].id != t.id {
      var k' := if k < i then k else k + 1;
      assert once[k] == state[k'];
    }
    RemoveAbsentDropsLast(once, t);
  }
}
