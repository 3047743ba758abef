/** Sequence operations shared by the linked lists and by every model that keeps a list as a value. */
module Sequences {

  ghost predicate NoDup<T>(s: seq<T>) {
    forall i, j :: 0 <= i < j < |s| ==> s[i] != s[j]
  }

  function InsertAt<T>(s: seq<T>, p: nat, x: T): (r: seq<T>)
    requires p <= |s|
    ensures |r| == |s| + 1 && r[p] == x
  {
    s[..p] + [x] + s[p..]
  }

  lemma InsertMembers<T>(s: seq<T>, p: nat, x: T)
    requires p <= |s|
    ensures forall y :: y in InsertAt(s, p, x) <==> y == x || y in s
  {
    var r := InsertAt(s, p, x);
    assert forall i :: 0 <= i < |s| ==> s[i] == r[if i < p then i else i + 1];
  }

  function RemoveAt<T>(s: seq<T>, p: nat): (r: seq<T>)
    requires p < |s|
    ensures |r| == |s| - 1
  {
    s[..p] + s[p + 1..]
  }

  lemma InsertKeepsNoDup<T>(s: seq<T>, p: nat, x: T)
    requires NoDup(s) && x !in s && p <= |s|
    ensures NoDup(InsertAt(s, p, x))
  {
  }

  lemma RemoveKeepsNoDup<T>(s: seq<T>, p: nat)
    requires NoDup(s) && p < |s|
    ensures NoDup(RemoveAt(s, p))
    ensures forall y :: y in RemoveAt(s, p) <==> y in s && y != s[p]
  {
    var r := RemoveAt(s, p);
    assert forall i :: 0 <= i < |r| ==> r[i] == s[if i < p then i else i + 1];
    assert forall i :: 0 <= i < |s| && i != p ==> s[i] == r[if i < p then i else i - 1];
  }

  /** Does a sorted insertion stop in front of an element with key `have`? */
  predicate StopsAt(have: int, key: int, ascending: bool, front: bool) {
    if ascending then (if front then have >= key else have > key)
    else (if front then have <= key else have < key)
  }

  /** The index at which `sorted_insert_slist` (front == false) or `sorted_insert_slist_front`
      (front == true) places an element: the first one where the search loop stops. */
  function InsertPos(keys: seq<int>, key: int, ascending: bool, front: bool): (p: nat)
    ensures p <= |keys|
    ensures forall i :: 0 <= i < p ==> !StopsAt(keys[i], key, ascending, front)
    ensures p < |keys| ==> StopsAt(keys[p], key, ascending, front)
  {
    if keys == [] || StopsAt(keys[0], key, ascending, front) then 0
    else 1 + InsertPos(keys[1..], key, ascending, front)
  }

  ghost predicate Ordered(keys: seq<int>, ascending: bool) {
    forall i, j :: 0 <= i < j < |keys| ==> if ascending then keys[i] <= keys[j] else keys[i] >= keys[j]
  }

  /** Sorted insertion keeps the order, and it is stable: without `front` the new element goes behind
      every equal one, with `front` ahead of every equal one. */
  lemma InsertKeepsOrder(keys: seq<int>, key: int, ascending: bool, front: bool)
    requires Ordered(keys, ascending)
    ensures Ordered(InsertAt(keys, InsertPos(keys, key, ascending, front), key), ascending)
    ensures forall i :: 0 <= i < |keys| && keys[i] == key ==>
      (i < InsertPos(keys, key, ascending, front) <==> !front)
  {
    hide InsertPos;
    var p := InsertPos(keys, key, ascending, front);
    var r := InsertAt(keys, p, key);
    forall i | 0 <= i < |keys|
      ensures StopsAt(keys[i], key, ascending, front) <==> p <= i
    {
      if p < i { assert StopsAt(keys[p], key, ascending, front); }
    }
    forall i, j | 0 <= i < j < |r| ensures if ascending then r[i] <= r[j] else r[i] >= r[j] {
      assert r[i] == if i < p then keys[i] else if i == p then key else keys[i - 1];
      assert r[j] == if j < p then keys[j] else if j == p then key else keys[j - 1];
      if i == p {
        assert StopsAt(keys[j - 1], key, ascending, front);
      } else if j == p {
        assert !StopsAt(keys[i], key, ascending, front);
      }
    }
  }
}
