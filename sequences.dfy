/**
 * The list operations the resource bookkeeping relies on: removing the first
 * occurrence of an element (what Collection<T>.Remove does), doing so for each
 * element of a second list in turn, and filtering out every element of a
 * second list while keeping the order of the rest.
 */
module Sequences {

  /** The list with its first occurrence of x taken out; the list itself when x is absent. */
  function RemoveFirst<T(==)>(s: seq<T>, x: T): (r: seq<T>)
    ensures x !in s ==> r == s
    ensures x in s ==> |r| == |s| - 1
  {
    if s == [] then []
    else
      assert s == [s[0]] + s[1..];
      if s[0] == x then s[1..]
      else [s[0]] + RemoveFirst(s[1..], x)
  }

  /** Removing the first occurrence takes exactly one copy of x out of the list's contents. */
  lemma {:induction false} RemoveFirstContents<T>(s: seq<T>, x: T)
    ensures multiset(RemoveFirst(s, x)) == multiset(s) - multiset{x}
  {
    if s != [] {
      assert s == [s[0]] + s[1..];
      if s[0] != x {
        RemoveFirstContents(s[1..], x);
      }
    }
  }

  /** The list after removing the first occurrence of each element of xs, in the order of xs. */
  function RemoveEach<T(==)>(s: seq<T>, xs: seq<T>): seq<T>
  {
    if xs == [] then s
    else
      var n := |xs| - 1;
      RemoveFirst(RemoveEach(s, xs[..n]), xs[n])
  }

  /** The subsequence of s made of the elements that do not occur in gone, in their original order. */
  function Without<T(==)>(s: seq<T>, gone: seq<T>): (r: seq<T>)
    ensures forall i :: 0 <= i < |r| ==> r[i] in s && r[i] !in gone
    ensures forall i :: 0 <= i < |s| && s[i] !in gone ==> s[i] in r
    ensures |r| <= |s|
  {
    if s == [] then []
    else
      assert s == [s[0]] + s[1..];
      if s[0] in gone then Without(s[1..], gone)
      else [s[0]] + Without(s[1..], gone)
  }

  /** Filtering never makes an element occur more often. */
  lemma {:induction false} WithoutCount<T>(s: seq<T>, gone: seq<T>, x: T)
    ensures multiset(Without(s, gone))[x] <= multiset(s)[x]
  {
    if s != [] {
      assert s == [s[0]] + s[1..];
      WithoutCount(s[1..], gone, x);
    }
  }

  /** Filtering out elements a list does not contain leaves it as it is. */
  lemma {:induction false} WithoutNothing<T>(s: seq<T>, gone: seq<T>)
    requires forall i :: 0 <= i < |s| ==> s[i] !in gone
    ensures Without(s, gone) == s
  {
    if s != [] {
      WithoutNothing(s[1..], gone);
    }
  }

  /** Filtering twice is filtering by both lists. */
  lemma {:induction false} WithoutWithout<T>(s: seq<T>, a: seq<T>, b: seq<T>)
    ensures Without(Without(s, a), b) == Without(s, a + b)
  {
    if s != [] {
      WithoutWithout(s[1..], a, b);
    }
  }

  /** For an element that occurs at most once, removing its first occurrence removes it altogether. */
  lemma {:induction false} RemoveFirstUnique<T>(s: seq<T>, x: T)
    requires multiset(s)[x] <= 1
    ensures RemoveFirst(s, x) == Without(s, [x])
  {
    if s != [] {
      assert s == [s[0]] + s[1..];
      if s[0] == x {
        assert x !in s[1..];
        WithoutNothing(s[1..], [x]);
      } else {
        RemoveFirstUnique(s[1..], x);
      }
    }
  }

  /**
   * When every element of xs occurs at most once in s, removing each of them in
   * turn filters all of them out and leaves the remaining elements in order.
   */
  lemma {:induction false} RemoveEachIsWithout<T>(s: seq<T>, xs: seq<T>)
    requires forall i :: 0 <= i < |xs| ==> multiset(s)[xs[i]] <= 1
    ensures RemoveEach(s, xs) == Without(s, xs)
  {
    if xs == [] {
      WithoutNothing(s, []);
    } else {
      var n := |xs| - 1;
      var prefix := xs[..n];
      assert RemoveEach(s, prefix) == Without(s, prefix) by {
        RemoveEachIsWithout(s, prefix);
      }
      assert RemoveFirst(Without(s, prefix), xs[n]) == Without(s, prefix + [xs[n]]) by {
        RemoveAfterWithout(s, prefix, xs[n]);
      }
      assert prefix + [xs[n]] == xs;
    }
  }

  /**
   * Once the elements of gone are filtered out, removing the first occurrence of
   * a further element that s holds at most once filters that element out too.
   */
  lemma RemoveAfterWithout<T>(s: seq<T>, gone: seq<T>, x: T)
    requires multiset(s)[x] <= 1
    ensures RemoveFirst(Without(s, gone), x) == Without(s, gone + [x])
  {
    WithoutCount(s, gone, x);
    RemoveFirstUnique(Without(s, gone), x);
    WithoutWithout(s, gone, [x]);
  }
}
