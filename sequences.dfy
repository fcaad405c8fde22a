/** Order-preserving selection over sequences: the shape of every repository query here. */
module Sequences {
  import opened Wrappers

  /** The elements of `s` that satisfy `p`, in their original order. */
  function Filter<T(!new)>(s: seq<T>, p: T -> bool): (r: seq<T>)
    ensures |r| <= |s|
    ensures forall x :: x in r <==> x in s && p(x)
    ensures forall i :: 0 <= i < |r| ==> p(r[i])
    decreases |s|
  {
    if s == [] then []
    else (if p(s[0]) then [s[0]] else []) + Filter(s[1..], p)
  }

  /** Appending one element appends it to the selection when it qualifies. */
  lemma {:induction false} FilterAppend<T(!new)>(s: seq<T>, x: T, p: T -> bool)
    ensures Filter(s + [x], p) == Filter(s, p) + (if p(x) then [x] else [])
    decreases |s|
  {
    if s == [] {
      assert [] + [x] == [x];
    } else {
      var head := if p(s[0]) then [s[0]] else [];
      assert (s + [x])[0] == s[0] && (s + [x])[1..] == s[1..] + [x];
      FilterAppend(s[1..], x, p);
      Associative(head, Filter(s[1..], p), if p(x) then [x] else []);
    }
  }

  /** When every element qualifies, nothing is dropped. */
  lemma {:induction false} FilterAll<T(!new)>(s: seq<T>, p: T -> bool)
    requires forall i :: 0 <= i < |s| ==> p(s[i])
    ensures Filter(s, p) == s
    decreases |s|
  {
    if s != [] {
      FilterAll(s[1..], p);
    }
  }

  /** Selection distributes over concatenation. */
  lemma {:induction false} FilterConcat<T(!new)>(s: seq<T>, u: seq<T>, p: T -> bool)
    ensures Filter(s + u, p) == Filter(s, p) + Filter(u, p)
    decreases |s|
  {
    if s == [] {
      assert s + u == u;
    } else {
      var head := if p(s[0]) then [s[0]] else [];
      var tail := s[1..] + u;
      assert (s + u)[0] == s[0] && (s + u)[1..] == tail;
      FilterConcat(s[1..], u, p);
      Associative(head, Filter(s[1..], p), Filter(u, p));
    }
  }

  lemma Associative<T>(a: seq<T>, b: seq<T>, c: seq<T>)
    ensures a + (b + c) == (a + b) + c
  {
  }

  /** When nothing qualifies, nothing is selected. */
  lemma FilterNone<T(!new)>(s: seq<T>, p: T -> bool)
    requires forall i :: 0 <= i < |s| ==> !p(s[i])
    ensures Filter(s, p) == []
  {
  }

  /** How many elements of `s` satisfy `p`. */
  function Count<T>(s: seq<T>, p: T -> bool): (n: nat)
    ensures n <= |s|
    decreases |s|
  {
    if s == [] then 0 else (if p(s[0]) then 1 else 0) + Count(s[1..], p)
  }

  /** A positive count has a witness. */
  lemma {:induction false} CountPositive<T>(s: seq<T>, p: T -> bool)
    requires Count(s, p) > 0
    ensures exists i :: 0 <= i < |s| && p(s[i])
    decreases |s|
  {
    if !p(s[0]) {
      CountPositive(s[1..], p);
      var i :| 0 <= i < |s[1..]| && p(s[1..][i]);
      assert p(s[i + 1]);
    }
  }

  /** A witness makes the count positive. */
  lemma {:induction false} CountWitness<T>(s: seq<T>, p: T -> bool, k: nat)
    requires k < |s| && p(s[k])
    ensures Count(s, p) > 0
    decreases |s|
  {
    if k > 0 {
      CountWitness(s[1..], p, k - 1);
    }
  }

  /** When only position `k` may satisfy `p`, the count is 1 or 0 according to `s[k]`. */
  lemma {:induction false} CountOnlyAt<T>(s: seq<T>, p: T -> bool, k: nat)
    requires k < |s|
    requires forall i :: 0 <= i < |s| && i != k ==> !p(s[i])
    ensures Count(s, p) == if p(s[k]) then 1 else 0
    decreases |s|
  {
    if k == 0 {
      CountNone(s[1..], p);
    } else {
      CountOnlyAt(s[1..], p, k - 1);
    }
  }

  /** When nothing satisfies `p`, the count is 0. */
  lemma {:induction false} CountNone<T>(s: seq<T>, p: T -> bool)
    requires forall i :: 0 <= i < |s| ==> !p(s[i])
    ensures Count(s, p) == 0
    decreases |s|
  {
    if s != [] {
      CountNone(s[1..], p);
    }
  }

  /** No two positions of `s` share a key. */
  ghost predicate KeysDistinct<T, K>(s: seq<T>, key: T -> K) {
    forall i, j :: 0 <= i < j < |s| ==> key(s[i]) != key(s[j])
  }

  /** Selection keeps a key that was injective on the whole sequence injective on the selection. */
  lemma {:induction false} FilterKeepsKeysDistinct<T(!new), K>(s: seq<T>, p: T -> bool, key: T -> K)
    requires KeysDistinct(s, key)
    ensures KeysDistinct(Filter(s, p), key)
    decreases |s|
  {
    if s != [] {
      var tail := s[1..];
      FilterKeepsKeysDistinct(tail, p, key);
      var rest := Filter(tail, p);
      forall x | x in rest
        ensures key(x) != key(s[0])
      {
        assert x in tail;
        var m :| 0 <= m < |tail| && tail[m] == x;
        assert s[m + 1] == x;
      }
      var r := Filter(s, p);
      if p(s[0]) {
        assert r == [s[0]] + rest;
        forall i, j | 0 <= i < j < |r|
          ensures key(r[i]) != key(r[j])
        {
          assert r[j] == rest[j - 1] && r[j] in rest;
          if i > 0 {
            assert r[i] == rest[i - 1];
            assert key(rest[i - 1]) != key(rest[j - 1]);
          } else {
            assert r[i] == s[0];
          }
        }
      } else {
        assert r == rest;
      }
    }
  }

  /** The position of the first element whose key is `k`, if any: a lookup by primary key. */
  function IndexBy<T, K(==)>(s: seq<T>, key: T -> K, k: K): (r: Option<nat>)
    ensures r.Some? ==> r.value < |s| && key(s[r.value]) == k
    ensures r.None? <==> forall i :: 0 <= i < |s| ==> key(s[i]) != k
    decreases |s|
  {
    if s == [] then None
    else if key(s[0]) == k then Some(0)
    else
      match IndexBy(s[1..], key, k)
      case Some(i) => Some(i + 1)
      case None => None
  }

  /** The lookup reads only the keys: two sequences with the same keys in the same order agree. */
  lemma {:induction false} IndexBySameKeys<T, K>(s: seq<T>, u: seq<T>, key: T -> K, k: K)
    requires |s| == |u| && forall i :: 0 <= i < |s| ==> key(s[i]) == key(u[i])
    ensures IndexBy(s, key, k) == IndexBy(u, key, k)
    decreases |s|
  {
    if s != [] && key(s[0]) != k {
      IndexBySameKeys(s[1..], u[1..], key, k);
    }
  }

  /** With distinct keys, the position found is the only one carrying the key. */
  lemma IndexByUnique<T, K>(s: seq<T>, key: T -> K, k: K, i: nat)
    requires forall a, b :: 0 <= a < b < |s| ==> key(s[a]) != key(s[b])
    requires i < |s| && key(s[i]) == k
    ensures IndexBy(s, key, k) == Some(i)
  {
  }
}
