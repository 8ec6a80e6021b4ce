/**
 * Go map iteration.  `for k, v := range m` visits every key exactly once in
 * an unspecified order; the model records the order a run chose as a
 * sequence and states results for EVERY such order.  A result built by
 * concatenating one block per key is then the same multiset whatever the
 * order, and the block of one key can be picked back out of it.
 */
module MapOrder {

  predicate Distinct<K(==)>(order: seq<K>) {
    forall i, j :: 0 <= i < j < |order| ==> order[i] != order[j]
  }

  /** `order` is one possible iteration order of a map whose key set is `keys`. */
  predicate IsEnumeration<K(==)>(order: seq<K>, keys: set<K>) {
    Distinct(order) && (forall k :: k in order ==> k in keys) && (forall k :: k in keys ==> k in order)
  }

  /** One block per visited key, in visiting order. */
  function ConcatMap<K(==), T>(order: seq<K>, f: K -> seq<T>): seq<T>
    decreases |order|
  {
    if order == [] then [] else ConcatMap(order[..|order| - 1], f) + f(order[|order| - 1])
  }

  /** The sum of the block lengths. */
  function BlockLengths<K(==), T>(order: seq<K>, f: K -> seq<T>): nat
    decreases |order|
  {
    if order == [] then 0 else BlockLengths(order[..|order| - 1], f) + |f(order[|order| - 1])|
  }

  lemma {:induction false} ConcatMapLength<K, T>(order: seq<K>, f: K -> seq<T>)
    ensures |ConcatMap(order, f)| == BlockLengths(order, f)
    decreases |order|
  {
    if order != [] {
      ConcatMapLength(order[..|order| - 1], f);
    }
  }

  lemma {:induction false} ConcatMapEmpty<K, T>(order: seq<K>, f: K -> seq<T>)
    requires forall k :: k in order ==> f(k) == []
    ensures ConcatMap(order, f) == []
    decreases |order|
  {
    if order != [] {
      ConcatMapEmpty(order[..|order| - 1], f);
    }
  }

  /** An element is in the concatenation exactly when it is in the block of a visited key. */
  lemma {:induction false} ConcatMapMember<K, T>(order: seq<K>, f: K -> seq<T>, x: T)
    ensures x in ConcatMap(order, f) <==> exists k :: k in order && x in f(k)
    decreases |order|
  {
    if order != [] {
      var init, last := order[..|order| - 1], order[|order| - 1];
      ConcatMapMember(init, f, x);
      assert order == init + [last];
      assert x in ConcatMap(order, f) <==> x in ConcatMap(init, f) || x in f(last);
    }
  }

  /** Block functions that agree on the visited keys give the same concatenation. */
  lemma {:induction false} ConcatMapAgree<K, T>(order: seq<K>, f: K -> seq<T>, g: K -> seq<T>)
    requires forall k :: k in order ==> f(k) == g(k)
    ensures ConcatMap(order, f) == ConcatMap(order, g)
    decreases |order|
  {
    if order != [] {
      var n := |order| - 1;
      assert forall k :: k in order[..n] ==> k in order;
      assert order[n] in order;
      ConcatMapAgree(order[..n], f, g);
    }
  }

  lemma {:induction false} ConcatMapAppend<K, T>(a: seq<K>, b: seq<K>, f: K -> seq<T>)
    ensures ConcatMap(a + b, f) == ConcatMap(a, f) + ConcatMap(b, f)
    decreases |b|
  {
    if b == [] {
      assert a + b == a;
    } else {
      var n := |b| - 1;
      assert (a + b)[..|a + b| - 1] == a + b[..n];
      assert (a + b)[|a + b| - 1] == b[n];
      ConcatMapAppend(a, b[..n], f);
    }
  }

  /** Visiting the same keys in another order permutes the concatenation. */
  lemma {:induction false} ConcatMapPermutation<K, T>(o1: seq<K>, o2: seq<K>, f: K -> seq<T>)
    requires multiset(o1) == multiset(o2)
    ensures multiset(ConcatMap(o1, f)) == multiset(ConcatMap(o2, f))
    decreases |o1|
  {
    if o1 == [] {
      assert |o2| == |multiset(o2)| == 0;
    } else {
      var n := |o1| - 1;
      var x := o1[n];
      assert o1 == o1[..n] + [x];
      assert multiset(o1) == multiset(o1[..n]) + multiset{x};
      assert x in multiset(o2);
      var j :| 0 <= j < |o2| && o2[j] == x;
      MultisetRemove(o2, j);
      ConcatMapPermutation(o1[..n], o2[..j] + o2[j + 1..], f);
      ConcatMapRemove(o2, j, f);
      ConcatMapAppend(o1[..n], [x], f);
      ConcatMapSingle(x, f);
    }
  }

  lemma MultisetRemove<K>(s: seq<K>, j: nat)
    requires j < |s|
    ensures multiset(s[..j] + s[j + 1..]) == multiset(s) - multiset{s[j]}
  {
    assert s == s[..j] + [s[j]] + s[j + 1..];
  }

  lemma ConcatMapSingle<K, T>(x: K, f: K -> seq<T>)
    ensures ConcatMap([x], f) == f(x)
  {
    assert [x][..0] == [];
  }

  /** Taking one key out of the order takes its block out of the concatenation. */
  lemma ConcatMapRemove<K, T>(o: seq<K>, j: nat, f: K -> seq<T>)
    requires j < |o|
    ensures multiset(ConcatMap(o, f)) == multiset(ConcatMap(o[..j] + o[j + 1..], f)) + multiset(f(o[j]))
  {
    var p, x, q := o[..j], o[j], o[j + 1..];
    assert o == (p + [x]) + q;
    ConcatMapAppend(p + [x], q, f);
    ConcatMapAppend(p, [x], f);
    ConcatMapAppend(p, q, f);
    ConcatMapSingle(x, f);
    var a, b, c := ConcatMap(p, f), f(x), ConcatMap(q, f);
    assert ConcatMap(o, f) == (a + b) + c;
    assert ConcatMap(p + q, f) == a + c;
    assert multiset((a + b) + c) == multiset(a + c) + multiset(b);
  }

  lemma AppendAssoc<T>(a: seq<T>, b: seq<T>, c: seq<T>)
    ensures (a + b) + c == a + (b + c)
  {
  }

  lemma {:induction false} DistinctMultiset<K>(o: seq<K>, k: K)
    requires Distinct(o)
    ensures multiset(o)[k] == if k in o then 1 else 0
    decreases |o|
  {
    if o != [] {
      var n := |o| - 1;
      assert o == o[..n] + [o[n]];
      assert Distinct(o[..n]);
      DistinctMultiset(o[..n], k);
      if k == o[n] {
        assert k !in o[..n];
      }
    }
  }

  /** Two iteration orders of one map are permutations of each other. */
  lemma EnumerationsPermute<K>(o1: seq<K>, o2: seq<K>, keys: set<K>)
    requires IsEnumeration(o1, keys) && IsEnumeration(o2, keys)
    ensures multiset(o1) == multiset(o2)
  {
    forall k
      ensures multiset(o1)[k] == multiset(o2)[k]
    {
      DistinctMultiset(o1, k);
      DistinctMultiset(o2, k);
    }
  }

  /** The elements of `s` whose tag is `k`, in order. */
  function Select<K(==), T>(s: seq<T>, tag: T -> K, k: K): seq<T>
    decreases |s|
  {
    if s == [] then []
    else Select(s[..|s| - 1], tag, k) + (if tag(s[|s| - 1]) == k then [s[|s| - 1]] else [])
  }

  lemma {:induction false} SelectAppend<K, T>(a: seq<T>, b: seq<T>, tag: T -> K, k: K)
    ensures Select(a + b, tag, k) == Select(a, tag, k) + Select(b, tag, k)
    decreases |b|
  {
    if b == [] {
      assert a + b == a;
    } else {
      var n := |b| - 1;
      assert (a + b)[..|a + b| - 1] == a + b[..n];
      assert (a + b)[|a + b| - 1] == b[n];
      SelectAppend(a, b[..n], tag, k);
    }
  }

  lemma SelectSnoc<K, T>(s: seq<T>, x: T, tag: T -> K, k: K)
    ensures Select(s + [x], tag, k) == Select(s, tag, k) + (if tag(x) == k then [x] else [])
  {
    assert (s + [x])[..|s|] == s;
  }

  lemma {:induction false} SelectUniform<K, T>(s: seq<T>, tag: T -> K, k: K, k': K)
    requires forall i :: 0 <= i < |s| ==> tag(s[i]) == k'
    ensures Select(s, tag, k) == if k == k' then s else []
    decreases |s|
  {
    if s != [] {
      var n := |s| - 1;
      var pre := s[..n];
      forall i | 0 <= i < |pre|
        ensures tag(pre[i]) == k'
      {
        assert pre[i] == s[i];
      }
      SelectUniform(pre, tag, k, k');
      assert Select(s, tag, k) == Select(pre, tag, k) + (if tag(s[n]) == k then [s[n]] else []);
      if k == k' {
        assert s == pre + [s[n]];
      }
    }
  }

  /**
   * When every element of a key's block carries that key as its tag, the
   * block of `k` is recovered from the concatenation by its tag, whatever
   * the visiting order; a key that was not visited selects nothing.
   */
  lemma {:induction false} SelectConcatMap<K, T>(order: seq<K>, f: K -> seq<T>, tag: T -> K, k: K)
    requires Distinct(order)
    requires forall key, i :: key in order && 0 <= i < |f(key)| ==> tag(f(key)[i]) == key
    ensures Select(ConcatMap(order, f), tag, k) == if k in order then f(k) else []
    decreases |order|
  {
    if order != [] {
      var n := |order| - 1;
      var pre := order[..n];
      var last := order[n];
      assert order == pre + [last];
      assert Distinct(pre);
      forall key, i | key in pre && 0 <= i < |f(key)|
        ensures tag(f(key)[i]) == key
      {
        assert key in order;
      }
      SelectConcatMap(pre, f, tag, k);
      assert ConcatMap(order, f) == ConcatMap(pre, f) + f(last);
      SelectAppend(ConcatMap(pre, f), f(last), tag, k);
      SelectUniform(f(last), tag, k, last);
      if k == last {
        assert k !in pre;
      } else {
        assert k in order <==> k in pre;
      }
    }
  }
}
