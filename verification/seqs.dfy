/**
 * Sequence helpers shared by the handlers: the `filter(...)`, `filter(...).length`,
 * `slice`, `.range(from, to)` and "newest first" shapes that the routes and pages use.
 */
module Seqs {

  /** `s.filter(p)`: the elements of `s` that satisfy `p`, in their original order. */
  function Filter<T>(s: seq<T>, p: T -> bool): (r: seq<T>)
    ensures |r| <= |s|
    ensures forall i :: 0 <= i < |r| ==> p(r[i])
    ensures forall x :: x in r ==> x in s && p(x)
    ensures forall x :: x in s && p(x) ==> x in r
  {
    if s == [] then []
    else (if p(s[0]) then [s[0]] else []) + Filter(s[1..], p)
  }

  /** `s.filter(p).length` */
  function Count<T>(s: seq<T>, p: T -> bool): nat
  {
    |Filter(s, p)|
  }

  /** Filtering distributes over concatenation, so it keeps the relative order of elements. */
  lemma {:induction false} FilterConcat<T>(a: seq<T>, b: seq<T>, p: T -> bool)
    ensures Filter(a + b, p) == Filter(a, p) + Filter(b, p)
  {
    if a == [] {
      assert a + b == b;
    } else {
      assert (a + b)[1..] == a[1..] + b;
      FilterConcat(a[1..], b, p);
    }
  }

  /** A filter that every element passes leaves the sequence unchanged. */
  lemma {:induction false} FilterKeepsAll<T>(s: seq<T>, p: T -> bool)
    requires forall i :: 0 <= i < |s| ==> p(s[i])
    ensures Filter(s, p) == s
  {
    if s != [] {
      FilterKeepsAll(s[1..], p);
    }
  }

  /** Counting with two disjoint predicates adds up. */
  lemma {:induction false} CountDisjoint<T>(s: seq<T>, p: T -> bool, q: T -> bool, both: T -> bool)
    requires forall x :: both(x) == (p(x) || q(x))
    requires forall x :: !(p(x) && q(x))
    ensures Count(s, both) == Count(s, p) + Count(s, q)
  {
    if s != [] {
      CountDisjoint(s[1..], p, q, both);
    }
  }

  /** Counting with two predicates that agree on every element gives the same count. */
  lemma {:induction false} CountSame<T>(s: seq<T>, p: T -> bool, q: T -> bool)
    requires forall i :: 0 <= i < |s| ==> p(s[i]) == q(s[i])
    ensures Filter(s, p) == Filter(s, q)
  {
    if s != [] {
      CountSame(s[1..], p, q);
    }
  }

  /** `s.map(f)` */
  function Map<T, U>(s: seq<T>, f: T -> U): (r: seq<U>)
    ensures |r| == |s|
    ensures forall i :: 0 <= i < |s| ==> r[i] == f(s[i])
  {
    seq(|s|, i requires 0 <= i < |s| => f(s[i]))
  }

  /** Mapping distributes over concatenation. */
  lemma MapConcat<T, U>(a: seq<T>, b: seq<T>, f: T -> U)
    ensures Map(a + b, f) == Map(a, f) + Map(b, f)
  {
    assert forall i :: 0 <= i < |a + b| ==> Map(a + b, f)[i] == (Map(a, f) + Map(b, f))[i];
  }

  /** Filtering mapped elements is mapping the elements whose image passes. */
  lemma {:induction false} FilterMap<T, U>(s: seq<T>, f: T -> U, p: U -> bool, q: T -> bool)
    requires forall x :: q(x) == p(f(x))
    ensures Filter(Map(s, f), p) == Map(Filter(s, q), f)
  {
    if s != [] {
      var t := s[1..];
      var head := if q(s[0]) then [s[0]] else [];
      FilterMap(t, f, p, q);
      assert s == [s[0]] + t;
      MapConcat([s[0]], t, f);
      FilterConcat([f(s[0])], Map(t, f), p);
      assert Filter([f(s[0])], p) == Map(head, f);
      assert Filter(s, q) == head + Filter(t, q);
      MapConcat(head, Filter(t, q), f);
    }
  }

  /** Two filters in a row are one filter with both conditions. */
  lemma {:induction false} FilterFilter<T>(s: seq<T>, p: T -> bool, q: T -> bool, both: T -> bool)
    requires forall x :: both(x) == (p(x) && q(x))
    ensures Filter(Filter(s, p), q) == Filter(s, both)
  {
    if s != [] {
      FilterFilter(s[1..], p, q, both);
      FilterConcat(if p(s[0]) then [s[0]] else [], Filter(s[1..], p), q);
    }
  }

  /** The elements in the opposite order: index `i` of the result is index `|s| - 1 - i` of `s`. */
  function Reverse<T>(s: seq<T>): (r: seq<T>)
    ensures |r| == |s|
    ensures forall i :: 0 <= i < |s| ==> r[i] == s[|s| - 1 - i]
  {
    if s == [] then [] else Reverse(s[1..]) + [s[0]]
  }

  lemma ReverseMembership<T>(s: seq<T>, x: T)
    ensures x in Reverse(s) <==> x in s
  {
    if x in s {
      var i :| 0 <= i < |s| && s[i] == x;
      assert Reverse(s)[|s| - 1 - i] == x;
    }
  }

  /** Filtering the reversed sequence is reversing the filtered one. */
  lemma {:induction false} FilterReverse<T>(s: seq<T>, p: T -> bool)
    ensures Filter(Reverse(s), p) == Reverse(Filter(s, p))
  {
    if s != [] {
      var t := s[1..];
      var head := if p(s[0]) then [s[0]] else [];
      FilterReverse(t, p);
      assert Reverse(s) == Reverse(t) + [s[0]];
      FilterConcat(Reverse(t), [s[0]], p);
      assert Filter([s[0]], p) == head;
      assert Filter(s, p) == head + Filter(t, p);
      ReverseConcat(head, Filter(t, p));
      assert Reverse(head) == head;
    }
  }

  lemma ReverseConcat<T>(a: seq<T>, b: seq<T>)
    ensures Reverse(a + b) == Reverse(b) + Reverse(a)
  {
    var r := Reverse(a + b);
    assert forall i :: 0 <= i < |r| ==> r[i] == (Reverse(b) + Reverse(a))[i];
  }

  /** Reversing does not change how many elements satisfy a predicate. */
  lemma {:induction false} CountReverse<T>(s: seq<T>, p: T -> bool)
    ensures Count(Reverse(s), p) == Count(s, p)
  {
    if s != [] {
      CountReverse(s[1..], p);
      FilterConcat(Reverse(s[1..]), [s[0]], p);
      FilterConcat([s[0]], s[1..], p);
      assert s == [s[0]] + s[1..];
    }
  }

  /** `s.slice(0, n)`: at most the first `n` elements. */
  function Take<T>(s: seq<T>, n: int): (r: seq<T>)
    ensures |r| <= |s| && |r| <= (if n < 0 then 0 else n)
    ensures |r| == (if n < 0 then 0 else if n < |s| then n else |s|)
    ensures r == s[..|r|]
  {
    if n <= 0 then [] else if n < |s| then s[..n] else s
  }

  /**
   * The rows at positions `offset ..= offset + limit - 1` (PostgREST's `.range(from, to)`,
   * whose bounds are inclusive), restricted to the rows that exist. A negative offset
   * selects nothing. The store refuses a range that starts past an exact count it was asked
   * for; the handlers that ask for one check that before taking the window.
   */
  function Window<T>(s: seq<T>, offset: int, limit: int): (r: seq<T>)
    ensures |r| <= (if limit < 0 then 0 else limit)
    ensures forall k :: 0 <= k < |r| ==> 0 <= offset + k < |s| && r[k] == s[offset + k]
    ensures 0 <= offset && 0 <= limit && offset + limit <= |s| ==> |r| == limit
    ensures 0 <= offset < |s| && 0 < limit && |s| < offset + limit ==> |r| == |s| - offset
  {
    if offset < 0 || limit <= 0 || offset >= |s| then []
    else if offset + limit <= |s| then s[offset..offset + limit]
    else s[offset..]
  }

  /** Mapping a window: element `k` is the image of element `offset + k`, as many as the window holds. */
  lemma MapWindow<T, U>(s: seq<T>, offset: int, limit: int, f: T -> U)
    ensures var r := Map(Window(s, offset, limit), f);
      && |r| <= (if limit < 0 then 0 else limit)
      && (0 <= offset && 0 <= limit && offset + limit <= |s| ==> |r| == limit)
      && (0 <= offset < |s| && 0 < limit && |s| < offset + limit ==> |r| == |s| - offset)
      && forall k :: 0 <= k < |r| ==> 0 <= offset + k < |s| && r[k] == f(s[offset + k])
  {
  }

  /** Keys strictly increasing along the sequence (oldest first). */
  ghost predicate Increasing<T>(s: seq<T>, key: T -> int)
  {
    forall i, j :: 0 <= i < j < |s| ==> key(s[i]) < key(s[j])
  }

  /** No two elements share a key. */
  ghost predicate Distinct<T>(s: seq<T>, key: T -> int)
  {
    forall i, j :: 0 <= i < j < |s| ==> key(s[i]) != key(s[j])
  }

  /** Appending an element whose key is above every key keeps the keys increasing. */
  lemma AppendIncreasing<T>(s: seq<T>, x: T, key: T -> int)
    requires Increasing(s, key)
    requires forall i :: 0 <= i < |s| ==> key(s[i]) < key(x)
    ensures Increasing(s + [x], key)
  {
  }

  /** Appending an element whose key is above every key keeps the keys distinct. */
  lemma AppendDistinct<T>(s: seq<T>, x: T, key: T -> int)
    requires Distinct(s, key)
    requires forall i :: 0 <= i < |s| ==> key(s[i]) < key(x)
    ensures Distinct(s + [x], key)
  {
  }

  /** A filtered sequence keeps distinct keys distinct. */
  lemma {:induction false} FilterDistinct<T>(s: seq<T>, p: T -> bool, key: T -> int)
    requires Distinct(s, key)
    ensures Distinct(Filter(s, p), key)
  {
    if s != [] {
      FilterDistinct(s[1..], p, key);
      var rest := Filter(s[1..], p);
      forall i | 0 <= i < |rest| ensures key(s[0]) != key(rest[i]) {
        assert rest[i] in s[1..];
      }
    }
  }

  /** Reversing keeps distinct keys distinct. */
  lemma ReverseDistinct<T>(s: seq<T>, key: T -> int)
    requires Distinct(s, key)
    ensures Distinct(Reverse(s), key)
  {
    var r := Reverse(s);
    forall i, j | 0 <= i < j < |r| ensures key(r[i]) != key(r[j]) {
      assert r[i] == s[|s| - 1 - i] && r[j] == s[|s| - 1 - j];
    }
  }

  /** Keys strictly decreasing along the sequence (newest first). */
  ghost predicate Decreasing<T>(s: seq<T>, key: T -> int)
  {
    forall i, j :: 0 <= i < j < |s| ==> key(s[i]) > key(s[j])
  }

  /** A filtered chronological table is still chronological. */
  lemma {:induction false} FilterIncreasing<T>(s: seq<T>, p: T -> bool, key: T -> int)
    requires Increasing(s, key)
    ensures Increasing(Filter(s, p), key)
  {
    if s != [] {
      FilterIncreasing(s[1..], p, key);
      var rest := Filter(s[1..], p);
      forall i | 0 <= i < |rest| ensures key(s[0]) < key(rest[i]) {
        assert rest[i] in s[1..];
      }
    }
  }

  /** Reversing an oldest-first sequence lists it newest first. */
  lemma ReverseDecreasing<T>(s: seq<T>, key: T -> int)
    requires Increasing(s, key)
    ensures Decreasing(Reverse(s), key)
  {
  }

  /** A window of a newest-first sequence is newest first. */
  lemma WindowDecreasing<T>(s: seq<T>, offset: int, limit: int, key: T -> int)
    requires Decreasing(s, key)
    ensures Decreasing(Window(s, offset, limit), key)
  {
    var w := Window(s, offset, limit);
    forall i, j | 0 <= i < j < |w| ensures key(w[i]) > key(w[j]) {
      assert w[i] == s[offset + i] && w[j] == s[offset + j];
    }
  }
}
