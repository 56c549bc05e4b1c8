/** Sequence combinators shared by the model: the list comprehensions, filters and
    `list.remove` of the source, each defined once and proved about once. The
    recursive definitions peel off the LAST element, so that a loop that appends
    one element at a time keeps `acc == F(s[..i])` as its invariant. */
module Seqs {

  /** `[x for x in s if p(x)]` */
  function Filter<T>(s: seq<T>, p: T -> bool): (r: seq<T>)
    ensures |r| <= |s|
  {
    if s == [] then [] else Filter(s[..|s| - 1], p) + (if p(s[|s| - 1]) then [s[|s| - 1]] else [])
  }

  /** `[g(x) for x in s]` */
  function Map<A, B>(s: seq<A>, g: A -> B): (r: seq<B>)
    ensures |r| == |s|
    ensures forall i :: 0 <= i < |s| ==> r[i] == g(s[i])
  {
    if s == [] then [] else Map(s[..|s| - 1], g) + [g(s[|s| - 1])]
  }

  /** Concatenation of `g(x)` over `s`: what a loop that extends a list per element builds. */
  function FlatMap<A, B>(s: seq<A>, g: A -> seq<B>): seq<B>
  {
    if s == [] then [] else FlatMap(s[..|s| - 1], g) + g(s[|s| - 1])
  }

  /** Number of elements satisfying `p`: `sum(1 for x in s if p(x))`. */
  function Count<T>(s: seq<T>, p: T -> bool): nat
  {
    if s == [] then 0 else Count(s[..|s| - 1], p) + (if p(s[|s| - 1]) then 1 else 0)
  }

  /** `list.remove(x)` on a list that contains `x`: drops the first occurrence. */
  function RemoveFirst<T(==)>(s: seq<T>, x: T): (r: seq<T>)
    requires x in s
    ensures |r| == |s| - 1
    ensures multiset(r) == multiset(s) - multiset{x}
  {
    assert s == [s[0]] + s[1..];
    if s[0] == x then s[1..] else [s[0]] + RemoveFirst(s[1..], x)
  }

  /** No element occurs twice. */
  predicate NoDup<T(==)>(s: seq<T>)
  {
    forall i, j :: 0 <= i < j < |s| ==> s[i] != s[j]
  }

  // ---------------------------------------------------------------------------
  // Filter

  lemma {:induction false} FilterMembership<T>(s: seq<T>, p: T -> bool, x: T)
    ensures x in Filter(s, p) <==> x in s && p(x)
  {
    if s != [] {
      FilterMembership(s[..|s| - 1], p, x);
      assert s == s[..|s| - 1] + [s[|s| - 1]];
    }
  }

  lemma {:induction false} FilterConcat<T>(a: seq<T>, b: seq<T>, p: T -> bool)
    ensures Filter(a + b, p) == Filter(a, p) + Filter(b, p)
  {
    if b == [] {
      assert a + b == a;
    } else {
      var b' := b[..|b| - 1];
      assert (a + b)[..|a + b| - 1] == a + b';
      FilterConcat(a, b', p);
    }
  }

  /** Filtering keeps every element that passes and nothing else: when all pass it is
      the identity, when none pass it is empty. */
  lemma {:induction false} FilterAll<T>(s: seq<T>, p: T -> bool)
    requires forall i :: 0 <= i < |s| ==> p(s[i])
    ensures Filter(s, p) == s
  {
    if s != [] {
      FilterAll(s[..|s| - 1], p);
    }
  }

  lemma {:induction false} FilterNone<T>(s: seq<T>, p: T -> bool)
    requires forall i :: 0 <= i < |s| ==> !p(s[i])
    ensures Filter(s, p) == []
  {
    if s != [] {
      FilterNone(s[..|s| - 1], p);
    }
  }

  /** Every element of a filter passes the predicate. */
  lemma {:induction false} FilterSatisfies<T>(s: seq<T>, p: T -> bool)
    ensures forall i :: 0 <= i < |Filter(s, p)| ==> p(Filter(s, p)[i])
  {
    if s != [] {
      FilterSatisfies(s[..|s| - 1], p);
    }
  }

  /** Filtering twice with the same predicate changes nothing the second time. */
  lemma FilterIdempotent<T>(s: seq<T>, p: T -> bool)
    ensures Filter(Filter(s, p), p) == Filter(s, p)
  {
    FilterSatisfies(s, p);
    FilterAll(Filter(s, p), p);
  }

  lemma {:induction false} CountIsFilterLength<T>(s: seq<T>, p: T -> bool)
    ensures Count(s, p) == |Filter(s, p)|
  {
    if s != [] {
      CountIsFilterLength(s[..|s| - 1], p);
    }
  }

  // ---------------------------------------------------------------------------
  // FlatMap and Map

  lemma {:induction false} FlatMapConcat<A, B>(a: seq<A>, b: seq<A>, g: A -> seq<B>)
    ensures FlatMap(a + b, g) == FlatMap(a, g) + FlatMap(b, g)
  {
    if b == [] {
      assert a + b == a;
    } else {
      var b' := b[..|b| - 1];
      assert (a + b)[..|a + b| - 1] == a + b';
      FlatMapConcat(a, b', g);
    }
  }

  /** When every element contributes at most `k` results, the whole contributes at most
      `k` per element. */
  lemma {:induction false} FlatMapLengthBound<A, B>(s: seq<A>, g: A -> seq<B>, k: nat)
    requires forall i :: 0 <= i < |s| ==> |g(s[i])| <= k
    ensures |FlatMap(s, g)| <= k * |s|
  {
    if s != [] {
      FlatMapLengthBound(s[..|s| - 1], g, k);
    }
  }

  /** Every result of a flat map comes from the contribution of some element. */
  lemma {:induction false} FlatMapMembership<A, B>(s: seq<A>, g: A -> seq<B>, y: B)
    ensures y in FlatMap(s, g) <==> exists i :: 0 <= i < |s| && y in g(s[i])
  {
    if s != [] {
      var s' := s[..|s| - 1];
      FlatMapMembership(s', g, y);
      if y in FlatMap(s, g) && y !in FlatMap(s', g) {
        assert y in g(s[|s| - 1]);
      }
      if exists i :: 0 <= i < |s| && y in g(s[i]) {
        var i :| 0 <= i < |s| && y in g(s[i]);
        if i < |s| - 1 {
          assert s'[i] == s[i];
        }
      }
    }
  }

  lemma {:induction false} MapConcat<A, B>(a: seq<A>, b: seq<A>, g: A -> B)
    ensures Map(a + b, g) == Map(a, g) + Map(b, g)
  {
  }

  /** What one more step of a loop over `s` appends. */
  lemma MapPrefix<A, B>(s: seq<A>, i: nat, g: A -> B)
    requires i < |s|
    ensures Map(s[..i + 1], g) == Map(s[..i], g) + [g(s[i])]
  {
    assert s[..i + 1][..i] == s[..i];
  }

  // ---------------------------------------------------------------------------
  // RemoveFirst

  lemma {:induction false} RemoveFirstMembership<T>(s: seq<T>, x: T, y: T)
    requires x in s
    ensures y != x ==> (y in RemoveFirst(s, x) <==> y in s)
  {
    assert y in multiset(s) - multiset{x} <==> y in RemoveFirst(s, x);
  }

  /** In a list without duplicates `remove` takes the element out completely and keeps
      the list duplicate-free. */
  lemma {:induction false} RemoveFirstNoDup<T>(s: seq<T>, x: T)
    requires x in s && NoDup(s)
    ensures x !in RemoveFirst(s, x) && NoDup(RemoveFirst(s, x))
  {
    if s[0] == x {
      assert x !in s[1..];
    } else {
      assert NoDup(s[1..]);
      RemoveFirstNoDup(s[1..], x);
      assert s[0] !in s[1..];
      RemoveFirstMembership(s[1..], x, s[0]);
    }
  }

  lemma AppendNoDup<T>(s: seq<T>, x: T)
    requires NoDup(s) && x !in s
    ensures NoDup(s + [x])
  {
  }

  lemma ConcatAssoc<T>(a: seq<T>, b: seq<T>, c: seq<T>)
    ensures a + b + c == a + (b + c)
  {
  }
}
