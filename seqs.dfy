/** Sequence helpers shared by the expand and flatten loops. */
module Seqs {

  /** Every element of `s` is in the domain of `f`. */
  ghost predicate Defined<T, U>(f: T --> seq<U>, s: seq<T>) {
    forall i :: 0 <= i < |s| ==> f.requires(s[i])
  }

  /**
   * The concatenation of f(x) for each x of s, in order: the shape of a loop
   * that appends zero or more results per input element to a slice.
   */
  function FlatMap<T, U>(f: T --> seq<U>, s: seq<T>): seq<U>
    requires Defined(f, s)
    decreases |s|
  {
    if s == [] then [] else f(s[0]) + FlatMap(f, s[1..])
  }

  /** FlatMap distributes over concatenation: the results of a prefix come first. */
  lemma {:induction false} FlatMapAppend<T, U>(f: T --> seq<U>, a: seq<T>, b: seq<T>)
    requires Defined(f, a) && Defined(f, b)
    ensures Defined(f, a + b)
    ensures FlatMap(f, a + b) == FlatMap(f, a) + FlatMap(f, b)
    decreases |a|
  {
    if a == [] {
      assert a + b == b;
    } else {
      assert (a + b)[1..] == a[1..] + b;
      FlatMapAppend(f, a[1..], b);
    }
  }

  /** y is produced exactly when some element of s produces it. */
  lemma {:induction false} FlatMapMember<T, U>(f: T --> seq<U>, s: seq<T>, y: U)
    requires Defined(f, s)
    ensures y in FlatMap(f, s) <==> exists i :: 0 <= i < |s| && y in f(s[i])
    decreases |s|
  {
    if s != [] {
      FlatMapMember(f, s[1..], y);
      if y in FlatMap(f, s[1..]) {
        var j :| 0 <= j < |s[1..]| && y in f(s[1..][j]);
        assert y in f(s[j + 1]);
      }
      if exists i :: 0 <= i < |s| && y in f(s[i]) {
        var i :| 0 <= i < |s| && y in f(s[i]);
        if i > 0 {
          assert y in f(s[1..][i - 1]);
        }
      }
    }
  }

  /** When every element yields exactly one result, FlatMap is an element-wise map. */
  lemma {:induction false} FlatMapSingletons<T, U>(f: T --> seq<U>, s: seq<T>)
    requires Defined(f, s)
    requires forall i :: 0 <= i < |s| ==> |f(s[i])| == 1
    ensures |FlatMap(f, s)| == |s|
    ensures forall i :: 0 <= i < |s| ==> FlatMap(f, s)[i] == f(s[i])[0]
    decreases |s|
  {
    if s != [] {
      FlatMapSingletons(f, s[1..]);
      forall i | 0 < i < |s|
        ensures FlatMap(f, s)[i] == f(s[i])[0]
      {
        assert s[1..][i - 1] == s[i];
      }
    }
  }
}
