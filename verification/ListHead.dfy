/** Intrusive circular doubly linked lists: the `struct list_head` operations, on the links themselves. */
module ListHead {

  /** A link embedded in an element; a link that is on no list has no neighbours. */
  class Link<T> {
    var next: Link?<T>
    var prev: Link?<T>
    const elem: T

    constructor (elem: T)
      ensures this.elem == elem && next == null && prev == null
    {
      this.elem := elem;
      next, prev := null, null;
    }
  }

  /** `INIT_LIST_HEAD`. */
  method InitListHead<T>(head: Link<T>)
    modifies head
    ensures head.next == head && head.prev == head
  {
    head.next := head;
    head.prev := head;
  }

  /** `list_empty`. */
  predicate ListEmpty<T>(head: Link<T>)
    reads head
  {
    head.next == head
  }

  /** `__list_add`. */
  method ListInsert<T>(link: Link<T>, prev: Link<T>, next: Link<T>)
    requires link != prev && link != next
    modifies link, prev, next
    ensures link.next == next && link.prev == prev && prev.next == link && next.prev == link
    ensures prev != next ==> prev.prev == old(prev.prev) && next.next == old(next.next)
  {
    next.prev := link;
    link.next := next;
    link.prev := prev;
    prev.next := link;
  }

  /** `list_add`: insert after `head`. */
  method ListAdd<T>(link: Link<T>, head: Link<T>)
    requires head.next != null && link != head && link != head.next
    modifies link, head, head.next
    ensures link.prev == head && link.next == old(head.next) && head.next == link && old(head.next).prev == link
    ensures old(head.next) != head ==> head.prev == old(head.prev) && old(head.next).next == old(head.next.next)
  {
    ListInsert(link, head, head.next);
  }

  /** `list_add_tail`: insert before `head`. */
  method ListAddTail<T>(link: Link<T>, head: Link<T>)
    requires head.prev != null && link != head && link != head.prev
    modifies link, head, head.prev
    ensures link.next == head && link.prev == old(head.prev) && head.prev == link && old(head.prev).next == link
    ensures old(head.prev) != head ==> head.next == old(head.next) && old(head.prev).prev == old(head.prev.prev)
  {
    ListInsert(link, head.prev, head);
  }

  /** `list_del`: the removed link is left without neighbours. */
  method ListDel<T>(link: Link<T>)
    requires link.prev != null && link.next != null
    modifies link, link.prev, link.next
    ensures link.next == null && link.prev == null
    ensures old(link.prev) != link ==> old(link.prev).next == old(link.next)
    ensures old(link.next) != link ==> old(link.next).prev == old(link.prev)
    ensures old(link.prev) != old(link.next) && old(link.prev) != link ==> old(link.prev).prev == old(link.prev.prev)
    ensures old(link.prev) != old(link.next) && old(link.next) != link ==> old(link.next).next == old(link.next.next)
  {
    var prev, next := link.prev, link.next;
    next.prev := prev;
    prev.next := next;
    link.next, link.prev := null, null;
  }
}
