/** What a stable sort is: the result is ordered, and for every key the elements with that key are the same, in
    the same order. */
module StableSort {
  import opened Sequences

  function Keys<X>(s: seq<X>, key: X -> int): (r: seq<int>)
    ensures |r| == |s|
  {
    seq(|s|, i requires 0 <= i < |s| => key(s[i]))
  }

  /** The elements with key v, in order. */
  function WithKey<X>(s: seq<X>, key: X -> int, v: int): seq<X> {
    if s == [] then []
    else WithKey(s[..|s| - 1], key, v) + (if key(s[|s| - 1]) == v then [s[|s| - 1]] else [])
  }

  ghost predicate StablyRearranged<X>(s: seq<X>, r: seq<X>, key: X -> int) {
    |r| == |s| && forall v :: WithKey(r, key, v) == WithKey(s, key, v)
  }

  lemma {:induction false} WithKeyConcat<X>(a: seq<X>, b: seq<X>, key: X -> int, v: int)
    ensures WithKey(a + b, key, v) == WithKey(a, key, v) + WithKey(b, key, v)
  {
    if b == [] {
      assert a + b == a;
    } else {
      var n := |b| - 1;
      assert (a + b)[..|a + b| - 1] == a + b[..n];
      WithKeyConcat(a, b[..n], key, v);
    }
  }

  lemma {:induction false} WithKeyNone<X>(s: seq<X>, key: X -> int, v: int)
    requires forall i :: 0 <= i < |s| ==> key(s[i]) != v
    ensures WithKey(s, key, v) == []
  {
    if s != [] { WithKeyNone(s[..|s| - 1], key, v); }
  }

  lemma WithKeyOne<X>(x: X, key: X -> int, v: int)
    ensures WithKey([x], key, v) == if key(x) == v then [x] else []
  {
    assert [x][..0] == [];
  }

  /** Moving an element in front of a stretch that has no element with its key is a stable rearrangement. */
  lemma MoveAhead<X>(a: seq<X>, b: seq<X>, x: X, c: seq<X>, key: X -> int)
    requires forall i :: 0 <= i < |b| ==> key(b[i]) != key(x)
    ensures StablyRearranged(a + b + [x] + c, a + [x] + b + c, key)
  {
    hide WithKey;
    forall v ensures WithKey(a + [x] + b + c, key, v) == WithKey(a + b + [x] + c, key, v) {
      MoveAheadKey(a, b, x, c, key, v);
    }
  }

  lemma MoveAheadKey<X>(a: seq<X>, b: seq<X>, x: X, c: seq<X>, key: X -> int, v: int)
    requires forall i :: 0 <= i < |b| ==> key(b[i]) != key(x)
    ensures WithKey(a + [x] + b + c, key, v) == WithKey(a + b + [x] + c, key, v)
  {
    hide WithKey;
    FourParts(a, [x], b, c, key, v);
    FourParts(a, b, [x], c, key, v);
    WithKeyOne(x, key, v);
    var p := WithKey(a, key, v);
    if v == key(x) {
      WithKeyNone(b, key, v);
      assert p + [x] + [] == p + [] + [x];
    } else {
      assert p + [] + WithKey(b, key, v) == p + WithKey(b, key, v) + [];
    }
  }

  lemma FourParts<X>(a: seq<X>, b: seq<X>, c: seq<X>, d: seq<X>, key: X -> int, v: int)
    ensures WithKey(a + b + c + d, key, v) == WithKey(a, key, v) + WithKey(b, key, v) + WithKey(c, key, v) + WithKey(d, key, v)
  {
    hide WithKey;
    WithKeyConcat(a + b + c, d, key, v);
    WithKeyConcat(a + b, c, key, v);
    WithKeyConcat(a, b, key, v);
  }

  lemma CountSnoc<X>(s: seq<X>, y: X, x: X)
    ensures multiset(s + [y])[x] == multiset(s)[x] + if y == x then 1 else 0
  {
  }

  lemma {:induction false} WithKeyMembers<X>(s: seq<X>, key: X -> int, x: X)
    ensures multiset(WithKey(s, key, key(x)))[x] == multiset(s)[x]
  {
    if s != [] {
      var init, y := s[..|s| - 1], s[|s| - 1];
      WithKeyMembers(init, key, x);
      assert s == init + [y];
      CountSnoc(init, y, x);
      CountSnoc(WithKey(init, key, key(x)), y, x);
      if key(y) != key(x) { assert WithKey(init, key, key(x)) + [] == WithKey(init, key, key(x)); }
    }
  }

  /** A stable rearrangement is a permutation. */
  lemma RearrangedIsPermutation<X>(s: seq<X>, r: seq<X>, key: X -> int)
    requires StablyRearranged(s, r, key)
    ensures multiset(r) == multiset(s)
  {
    forall x: X ensures multiset(r)[x] == multiset(s)[x] {
      WithKeyMembers(s, key, x);
      WithKeyMembers(r, key, x);
    }
  }

  /** Being ordered and a stable rearrangement determines the result. */
  lemma {:induction false} StableSortUnique<X>(a: seq<X>, b: seq<X>, key: X -> int, ascending: bool)
    requires Ordered(Keys(a, key), ascending) && Ordered(Keys(b, key), ascending)
    requires StablyRearranged(a, b, key)
    ensures a == b
  {
    if a != [] {
      var n := |a| - 1;
      LastKey(a, b, key, ascending);
      var v := key(a[n]);
      assert WithKey(a, key, v) == WithKey(b, key, v);
      SameLast(WithKey(a[..n], key, v), a[n], WithKey(b[..n], key, v), b[n]);
      forall w ensures WithKey(b[..n], key, w) == WithKey(a[..n], key, w) {
        assert WithKey(a, key, w) == WithKey(b, key, w);
        DropLastSame(a, b, key, w);
      }
      assert Keys(a[..n], key) == Keys(a, key)[..n] && Keys(b[..n], key) == Keys(b, key)[..n];
      StableSortUnique(a[..n], b[..n], key, ascending);
      assert a == a[..n] + [a[n]] && b == b[..n] + [b[n]];
    }
  }

  lemma SameLast<X>(p: seq<X>, x: X, q: seq<X>, y: X)
    requires p + [x] == q + [y]
    ensures x == y && p == q
  {
    assert (p + [x])[|p|] == x && (q + [y])[|q|] == y;
    assert (p + [x])[..|p|] == p && (q + [y])[..|q|] == q;
  }

  lemma DropLastSame<X>(a: seq<X>, b: seq<X>, key: X -> int, w: int)
    requires |a| == |b| > 0 && a[|a| - 1] == b[|b| - 1]
    requires WithKey(a, key, w) == WithKey(b, key, w)
    ensures WithKey(b[..|b| - 1], key, w) == WithKey(a[..|a| - 1], key, w)
  {
    var n := |a| - 1;
    if key(a[n]) == w {
      SameLast(WithKey(a[..n], key, w), a[n], WithKey(b[..n], key, w), b[n]);
    } else {
      assert WithKey(a, key, w) == WithKey(a[..n], key, w) && WithKey(b, key, w) == WithKey(b[..n], key, w);
    }
  }

  /** Both ordered sequences end with the same key. */
  lemma LastKey<X>(a: seq<X>, b: seq<X>, key: X -> int, ascending: bool)
    requires a != [] && Ordered(Keys(a, key), ascending) && Ordered(Keys(b, key), ascending)
    requires StablyRearranged(a, b, key)
    ensures key(a[|a| - 1]) == key(b[|b| - 1])
  {
    var n := |a| - 1;
    var x, y := a[n], b[n];
    RearrangedIsPermutation(a, b, key);
    assert x in multiset(b) && y in multiset(a) by {
      assert x in multiset(a) && y in multiset(b);
    }
    var i :| 0 <= i < |b| && b[i] == x;
    var j :| 0 <= j < |a| && a[j] == y;
    assert Keys(b, key)[i] == key(x) && Keys(a, key)[j] == key(y);
    assert Keys(b, key)[n] == key(y) && Keys(a, key)[n] == key(x);
  }
}
