/** Sized lists over intrusive links: slist.c, with the sequence of its links as the abstract value. */
module Slist {
  import opened ListHead
  import opened Sequences
  import opened StableSort

  class Slist<T> {
    const head: Link<T>
    var size: nat
    /** The links on the list, first to last. */
    ghost var links: seq<Link<T>>

    ghost function Ring(): (r: seq<Link<T>>)
      reads this
      ensures |r| == |links| + 2
    {
      [head] + links + [head]
    }

    /** The links form one circle through the head, in both directions. */
    ghost predicate Valid()
      reads this, head, links
    {
      && size == |links|
      && head !in links
      && NoDup(links)
      && Circle(Ring())
    }

    /** `init_slist`. */
    constructor (dummy: T)
      ensures Valid() && links == [] && fresh(head)
    {
      head := new Link(dummy);
      size := 0;
      links := [];
      new;
      InitListHead(head);
    }

    /** `head_slist`. */
    function Head(): (r: Link?<T>)
      requires Valid()
      reads this, head, links
      ensures r == if links == [] then null else links[0]
    {
      assert Ring()[0] == head && Ring()[1] == if links == [] then head else links[0];
      if ListEmpty(head) then null else head.next
    }

    /** `next_slist`. */
    method Next(link: Link?<T>, ghost k: nat) returns (r: Link?<T>)
      requires Valid() && (link != null ==> k < |links| && links[k] == link)
      ensures link == null ==> r == null
      ensures link != null ==> r == if k + 1 < |links| then links[k + 1] else null
    {
      if link == null { return null; }
      assert Ring()[k + 1] == link && Ring()[k + 2] == if k + 1 < |links| then links[k + 1] else head;
      r := if link.next == head then null else link.next;
    }

    /** `prev_slist`. */
    method Prev(link: Link?<T>, ghost k: nat) returns (r: Link?<T>)
      requires Valid() && (link != null ==> k < |links| && links[k] == link)
      ensures link == null ==> r == null
      ensures link != null ==> r == if k > 0 then links[k - 1] else null
    {
      if link == null { return null; }
      assert Ring()[k + 1] == link && Ring()[k] == if k > 0 then links[k - 1] else head;
      r := if link.prev == head then null else link.prev;
    }

    /** Links `link` between the k-th and the next element of the ring. */
    method InsertAtRing(link: Link<T>, before: Link<T>, ghost k: nat)
      requires Valid() && k <= |links| && before == Ring()[k + 1]
      requires link != head && link !in links
      modifies this, head, links, link
      ensures Valid() && links == InsertAt(old(links), k, link)
    {
      ghost var ring := Ring();
      assert ring[k].next == ring[k + 1] && ring[k + 1].prev == ring[k];
      assert DistinctRing(ring);
      ListAddTail(link, before);
      size := size + 1;
      InsertKeepsNoDup(links, k, link);
      InsertMembers(links, k, link);
      links := InsertAt(links, k, link);
      ghost var ring' := Ring();
      RingInsert(head, old(links), k, link);
      assert ring' == ring[..k + 1] + [link] + ring[k + 1..];
      forall i | 0 <= i < |ring'| - 1 ensures ring'[i].next == ring'[i + 1] && ring'[i + 1].prev == ring'[i] {
        if i < k {
          assert old(ring[i].next == ring[i + 1] && ring[i + 1].prev == ring[i]);
        } else if i > k + 1 {
          assert old(ring[i - 1].next == ring[i] && ring[i].prev == ring[i - 1]);
        }
      }
    }

    /** The same, starting from the element in front. */
    method InsertAfterRing(link: Link<T>, after: Link<T>, ghost k: nat)
      requires Valid() && k <= |links| && after == Ring()[k]
      requires link != head && link !in links
      modifies this, head, links, link
      ensures Valid() && links == InsertAt(old(links), k, link)
    {
      ghost var ring := Ring();
      assert ring[k].next == ring[k + 1] && ring[k + 1].prev == ring[k];
      assert DistinctRing(ring);
      assert after.next == ring[k + 1] && (k + 1 < |ring| - 1 ==> after.next == links[k]);
      ListAdd(link, after);
      size := size + 1;
      InsertKeepsNoDup(links, k, link);
      InsertMembers(links, k, link);
      links := InsertAt(links, k, link);
      ghost var ring' := Ring();
      RingInsert(head, old(links), k, link);
      assert ring' == ring[..k + 1] + [link] + ring[k + 1..];
      forall i | 0 <= i < |ring'| - 1 ensures ring'[i].next == ring'[i + 1] && ring'[i + 1].prev == ring'[i] {
        if i < k {
          assert old(ring[i].next == ring[i + 1] && ring[i + 1].prev == ring[i]);
        } else if i > k + 1 {
          assert old(ring[i - 1].next == ring[i] && ring[i].prev == ring[i - 1]);
        }
      }
    }

    /** `insert_slist`: at the end. */
    method Insert(link: Link<T>)
      requires Valid() && link != head && link !in links
      modifies this, head, links, link
      ensures Valid() && links == old(links) + [link]
    {
      InsertAtRing(link, head, |links|);
    }

    /** `insert_slist_head`: at the front. */
    method InsertHead(link: Link<T>)
      requires Valid() && link != head && link !in links
      modifies this, head, links, link
      ensures Valid() && links == [link] + old(links)
    {
      InsertAfterRing(link, head, 0);
    }

    /** `remove_slist`. */
    method Remove(link: Link<T>, ghost k: nat)
      requires Valid() && k < |links| && links[k] == link
      modifies this, head, links
      ensures Valid() && links == RemoveAt(old(links), k)
      ensures link.next == null && link.prev == null
    {
      ghost var ring := Ring();
      assert ring[k].next == ring[k + 1] && ring[k + 1].prev == ring[k];
      assert ring[k + 1].next == ring[k + 2] && ring[k + 2].prev == ring[k + 1];
      assert DistinctRing(ring);
      ListDel(link);
      size := size - 1;
      RemoveKeepsNoDup(links, k);
      links := RemoveAt(links, k);
      ghost var ring' := Ring();
      RingRemove(head, old(links), k);
      assert ring' == ring[..k + 1] + ring[k + 2..];
      forall i | 0 <= i < |ring'| - 1 ensures ring'[i].next == ring'[i + 1] && ring'[i + 1].prev == ring'[i] {
        if i < k {
          assert old(ring[i].next == ring[i + 1] && ring[i + 1].prev == ring[i]);
        } else if i > k {
          assert old(ring[i + 1].next == ring[i + 2] && ring[i + 2].prev == ring[i + 1]);
        }
      }
    }

    /** `insert_after_slist`: with no element to insert after, at the front. */
    method InsertAfter(link: Link?<T>, newLink: Link<T>, ghost k: nat)
      requires Valid() && (link != null ==> k < |links| && links[k] == link)
      requires newLink != head && newLink !in links
      modifies this, head, links, newLink
      ensures Valid() && links == InsertAt(old(links), if link == null then 0 else k + 1, newLink)
    {
      if link == null {
        InsertHead(newLink);
      } else {
        InsertAfterRing(newLink, link, k + 1);
      }
    }

    /** `insert_before_slist`: with no element to insert before, at the end. */
    method InsertBefore(link: Link?<T>, newLink: Link<T>, ghost k: nat)
      requires Valid() && (link != null ==> k < |links| && links[k] == link)
      requires newLink != head && newLink !in links
      modifies this, head, links, newLink
      ensures Valid() && links == InsertAt(old(links), if link == null then |old(links)| else k, newLink)
    {
      if link == null {
        Insert(newLink);
      } else {
        InsertAtRing(newLink, link, k);
      }
    }

    /** `sorted_insert_slist` (front == false) and `sorted_insert_slist_front` (front == true). */
    method SortedInsert(link: Link<T>, ascending: bool, front: bool, key: T -> int)
      requires Valid() && link != head && link !in links
      modifies this, head, links, link
      ensures Valid()
      ensures links == InsertAt(old(links), InsertPos(LinkKeys(old(links), key), key(link.elem), ascending, front), link)
    {
      var cur := Head();
      ghost var k := 0;
      ghost var keys := LinkKeys(links, key);
      while cur != null && !StopsAt(key(cur.elem), key(link.elem), ascending, front)
        invariant k <= |links| && cur == if k < |links| then links[k] else null
        invariant forall i :: 0 <= i < k ==> !StopsAt(keys[i], key(link.elem), ascending, front)
        decreases |links| - k
        modifies {}
      {
        cur := Next(cur, k);
        k := k + 1;
      }
      FirstStop(keys, key(link.elem), ascending, front, k);
      InsertBefore(cur, link, k);
    }

    /** The search of one turn of `sort_slist`: the first best element from index i on. */
    method Select(start: Link<T>, ascending: bool, key: T -> int, ghost i: nat) returns (selected: Link<T>, ghost m: nat)
      requires Valid() && i < |links| && links[i] == start
      ensures i <= m < |links| && links[m] == selected && FirstBest(LinkKeys(links, key), i, m, |links|, ascending)
    {
      var cur: Link?<T> := start;
      selected := start;
      ghost var k := i;
      m := i;
      ghost var keys := LinkKeys(links, key);
      while cur != null
        invariant i <= k <= |links| && cur == if k < |links| then links[k] else null
        invariant i <= m < |links| && links[m] == selected
        invariant if k == i then m == i else m < k && FirstBest(keys, i, m, k, ascending)
        decreases |links| - k
      {
        if (if ascending then key(cur.elem) < key(selected.elem) else key(cur.elem) > key(selected.elem)) {
          selected, m := cur, k;
        }
        cur := Next(cur, k);
        k := k + 1;
      }
    }

    /** The turn of the sort: the best of the rest moves behind the element selected before. */
    method MoveBest(prevSelected: Link?<T>, cur: Link<T>, ascending: bool, key: T -> int, ghost i: nat)
        returns (selected: Link<T>, ghost m: nat)
      requires Valid() && i < |links| && links[i] == cur && prevSelected == (if i == 0 then null else links[i - 1])
      modifies this, head, links
      ensures Valid() && size == old(size)
      ensures i <= m < |old(links)| && FirstBest(LinkKeys(old(links), key), i, m, |old(links)|, ascending)
      ensures selected == old(links)[m] && links == InsertAt(RemoveAt(old(links), m), i, selected)
    {
      hide FirstBest;
      selected, m := Select(cur, ascending, key, i);
      Remove(selected, m);
      InsertAfter(prevSelected, selected, if i == 0 then 0 else i - 1);
    }

    /** `sort_slist`: a selection sort on the links, and a stable one. */
    method Sort(ascending: bool, key: T -> int)
      requires Valid()
      modifies this, head, links
      ensures Valid()
      ensures Ordered(LinkKeys(links, key), ascending)
      ensures StablyRearranged(old(links), links, LinkKey(key))
    {
      if size <= 1 { return; }
      var cur := Head();
      var prevSelected: Link?<T> := null;
      var i := 0;
      while i < size - 1 && cur != null
        invariant Valid() && size == old(size) && i <= size - 1
        invariant prevSelected == (if i == 0 then null else links[i - 1]) && cur == links[i]
        invariant SortedPrefix(LinkKeys(links, key), i, ascending)
        invariant StablyRearranged(old(links), links, LinkKey(key))
        invariant forall j :: 0 <= j < |links| ==> links[j] in old(links)
        decreases size - i
      {
        ghost var before := links;
        var selected, m := MoveBest(prevSelected, cur, ascending, key, i);
        MoveLemma(before, links, i, m, ascending, key);
        StableTrans(old(links), before, links, LinkKey(key));
        prevSelected := selected;
        cur := Next(selected, i);
        i := i + 1;
      }
      SortedAll(LinkKeys(links, key), i, ascending);
    }
  }

  function LinkKey<T>(key: T -> int): Link<T> -> int {
    (l: Link<T>) => key(l.elem)
  }

  /** Is a no worse than b in the order asked for? */
  predicate NoWorse(a: int, b: int, ascending: bool) {
    if ascending then a <= b else a >= b
  }

  /** Among keys[i..k], m is the first best. */
  ghost predicate FirstBest(keys: seq<int>, i: nat, m: nat, k: nat, ascending: bool) {
    && i <= m < k <= |keys|
    && (forall j :: i <= j < k ==> NoWorse(keys[m], keys[j], ascending))
    && (forall j :: i <= j < m ==> keys[j] != keys[m])
  }

  /** The first i keys are in order and no worse than the others. */
  ghost predicate SortedPrefix(keys: seq<int>, i: nat, ascending: bool) {
    i <= |keys| && forall a, b :: 0 <= a < i && a < b < |keys| ==> NoWorse(keys[a], keys[b], ascending)
  }

  lemma SortedAll(keys: seq<int>, i: nat, ascending: bool)
    requires SortedPrefix(keys, i, ascending) && i + 1 >= |keys|
    ensures Ordered(keys, ascending)
  {
  }

  lemma MovedKeys(keys: seq<int>, keys': seq<int>, i: nat, m: nat, ascending: bool)
    requires SortedPrefix(keys, i, ascending) && i <= m < |keys| && FirstBest(keys, i, m, |keys|, ascending)
    requires keys' == InsertAt(RemoveAt(keys, m), i, keys[m])
    ensures SortedPrefix(keys', i + 1, ascending)
  {
    MovedAt(keys, keys', i, m);
    hide InsertAt, RemoveAt, NoWorse;
    forall a, b | 0 <= a < i + 1 && a < b < |keys'| ensures NoWorse(keys'[a], keys'[b], ascending) {
      var c := if a == i then m else a;
      var d := if b < i || b > m then b else if b == i then m else b - 1;
      assert keys'[a] == keys[c] && keys'[b] == keys[d];
      assert NoWorse(keys[c], keys[d], ascending);
    }
  }

  lemma MovedAt(keys: seq<int>, keys': seq<int>, i: nat, m: nat)
    requires i <= m < |keys| && keys' == InsertAt(RemoveAt(keys, m), i, keys[m])
    ensures |keys'| == |keys|
    ensures forall b :: 0 <= b < |keys'| ==>
      keys'[b] == (if b < i || b > m then keys[b] else if b == i then keys[m] else keys[b - 1])
  {
  }

  /** One turn of the sort: the selected element moves in front of the unsorted rest. */
  lemma MoveLemma<T>(s: seq<Link<T>>, s': seq<Link<T>>, i: nat, m: nat, ascending: bool, key: T -> int)
    requires i <= m < |s| && FirstBest(LinkKeys(s, key), i, m, |s|, ascending)
    requires s' == InsertAt(RemoveAt(s, m), i, s[m])
    requires SortedPrefix(LinkKeys(s, key), i, ascending)
    ensures SortedPrefix(LinkKeys(s', key), i + 1, ascending)
    ensures StablyRearranged(s, s', LinkKey(key))
    ensures forall j :: 0 <= j < |s'| ==> s'[j] in s
  {
    var keys := LinkKeys(s, key);
    assert SortedPrefix(LinkKeys(s', key), i + 1, ascending) by {
      assert LinkKeys(s', key) == InsertAt(RemoveAt(keys, m), i, keys[m]);
      MovedKeys(keys, LinkKeys(s', key), i, m, ascending);
    }
    MoveIsStable(s, s', i, m, ascending, key);
  }

  lemma MoveIsStable<T>(s: seq<Link<T>>, s': seq<Link<T>>, i: nat, m: nat, ascending: bool, key: T -> int)
    requires i <= m < |s| && FirstBest(LinkKeys(s, key), i, m, |s|, ascending)
    requires s' == InsertAt(RemoveAt(s, m), i, s[m])
    ensures StablyRearranged(s, s', LinkKey(key))
    ensures forall j :: 0 <= j < |s'| ==> s'[j] in s
  {
    var a, b, x, c := s[..i], s[i..m], s[m], s[m + 1..];
    forall j | 0 <= j < |b| ensures LinkKey(key)(b[j]) != LinkKey(key)(x) {
      assert LinkKeys(s, key)[i + j] != LinkKeys(s, key)[m];
    }
    MoveAhead(a, b, x, c, LinkKey(key));
    assert s == a + b + [x] + c;
    assert s' == a + [x] + b + c;
  }

  lemma StableTrans<X>(a: seq<X>, b: seq<X>, c: seq<X>, key: X -> int)
    requires StablyRearranged(a, b, key) && StablyRearranged(b, c, key)
    ensures StablyRearranged(a, c, key)
  {
    forall v ensures WithKey(c, key, v) == WithKey(a, key, v) {
      assert WithKey(b, key, v) == WithKey(a, key, v) && WithKey(c, key, v) == WithKey(b, key, v);
    }
  }

  function LinkKeys<T>(links: seq<Link<T>>, key: T -> int): (r: seq<int>)
    ensures |r| == |links|
  {
    Keys(links, (l: Link<T>) => key(l.elem))
  }

  lemma {:induction false} FirstStop(keys: seq<int>, key: int, ascending: bool, front: bool, k: nat)
    requires k <= |keys|
    requires forall i :: 0 <= i < k ==> !StopsAt(keys[i], key, ascending, front)
    requires k < |keys| ==> StopsAt(keys[k], key, ascending, front)
    ensures InsertPos(keys, key, ascending, front) == k
  {
  }

  /** In a ring only the head occurs twice, at both ends. */
  lemma RingInsert<L>(h: L, links: seq<L>, k: nat, x: L)
    requires k <= |links|
    ensures var ring := [h] + links + [h];
      [h] + InsertAt(links, k, x) + [h] == ring[..k + 1] + [x] + ring[k + 1..]
  {
  }

  lemma RingRemove<L>(h: L, links: seq<L>, k: nat)
    requires k < |links|
    ensures var ring := [h] + links + [h];
      [h] + RemoveAt(links, k) + [h] == ring[..k + 1] + ring[k + 2..]
  {
  }

  ghost predicate DistinctRing<T>(ring: seq<Link<T>>) {
    forall i, j :: 0 <= i < j < |ring| && ring[i] == ring[j] ==> i == 0 && j == |ring| - 1
  }

  ghost predicate Circle<T>(ring: seq<Link<T>>)
    reads ring
  {
    forall i :: 0 <= i < |ring| - 1 ==> ring[i].next == ring[i + 1] && ring[i + 1].prev == ring[i]
  }
}
