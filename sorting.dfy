/**
 * Python's `sorted` on file names, for an order under which names that compare equal are
 * equal: its result is then determined by the multiset of its input, and insertion sort
 * computes it.
 */
module Sorting {

  ghost predicate Total(le: (string, string) -> bool)
  {
    forall a, b :: le(a, b) || le(b, a)
  }

  /** Each name is ordered before its successor. */
  predicate SortedBy(s: seq<string>, le: (string, string) -> bool)
  {
    forall i :: 0 < i < |s| ==> le(s[i - 1], s[i])
  }

  function InsertBy(x: string, s: seq<string>, le: (string, string) -> bool): (r: seq<string>)
    ensures multiset(r) == multiset(s) + multiset{x}
    ensures r[0] == x || (s != [] && r[0] == s[0])
    ensures Total(le) && SortedBy(s, le) ==> SortedBy(r, le)
  {
    if s == [] then [x]
    else if le(x, s[0]) then [x] + s
    else
      var t := InsertBy(x, s[1..], le);
      assert s == [s[0]] + s[1..];
      [s[0]] + t
  }

  /** `sorted(s)`: a sorted permutation of `s`. */
  function SortBy(s: seq<string>, le: (string, string) -> bool): (r: seq<string>)
    ensures multiset(r) == multiset(s)
    ensures Total(le) ==> SortedBy(r, le)
  {
    if s == [] then []
    else
      assert s == [s[0]] + s[1..];
      InsertBy(s[0], SortBy(s[1..], le), le)
  }

  ghost predicate Transitive(le: (string, string) -> bool)
  {
    forall a, b, c :: le(a, b) && le(b, c) ==> le(a, c)
  }

  /** Each name is ordered before every later one. */
  predicate OrderedBy(s: seq<string>, le: (string, string) -> bool)
  {
    forall i, j :: 0 <= i < j < |s| ==> le(s[i], s[j])
  }

  /** Under a transitive order, a sequence sorted step by step is ordered throughout. */
  lemma {:induction false} OrderedFromSorted(s: seq<string>, le: (string, string) -> bool)
    requires Transitive(le) && SortedBy(s, le)
    ensures OrderedBy(s, le)
  {
    if |s| > 1 {
      var n := |s| - 1;
      assert SortedBy(s[..n], le);
      OrderedFromSorted(s[..n], le);
      assert forall i :: 0 <= i < n ==> s[..n][i] == s[i];
      forall i | 0 <= i < n - 1
        ensures le(s[i], s[n])
      {
        assert le(s[i], s[n - 1]) && le(s[n - 1], s[n]);
      }
    }
  }

  /** The names of `s` that `keep` selects, in their order in `s`. */
  function Filter(s: seq<string>, keep: string -> bool): seq<string>
  {
    if s == [] then []
    else
      var n := |s| - 1;
      if keep(s[n]) then Filter(s[..n], keep) + [s[n]] else Filter(s[..n], keep)
  }

  /** Filtering keeps exactly the names `keep` selects. */
  lemma {:induction false} FilterMembers(s: seq<string>, keep: string -> bool)
    ensures forall x :: x in Filter(s, keep) <==> x in s && keep(x)
  {
    if s != [] {
      var n := |s| - 1;
      FilterMembers(s[..n], keep);
      assert s == s[..n] + [s[n]];
    }
  }

  lemma {:induction false} FilterAppend(a: seq<string>, b: seq<string>, keep: string -> bool)
    ensures Filter(a + b, keep) == Filter(a, keep) + Filter(b, keep)
  {
    if b == [] {
      assert a + b == a;
    } else {
      var n := |b| - 1;
      assert (a + b)[..|a + b| - 1] == a + b[..n];
      FilterAppend(a, b[..n], keep);
    }
  }

  /** Filtering keeps the order of the names it keeps. */
  lemma {:induction false} FilterOrdered(s: seq<string>, keep: string -> bool, le: (string, string) -> bool)
    requires OrderedBy(s, le)
    ensures OrderedBy(Filter(s, keep), le)
  {
    if s != [] {
      var n := |s| - 1;
      assert OrderedBy(s[..n], le);
      FilterOrdered(s[..n], keep, le);
      FilterMembers(s[..n], keep);
      var rest := Filter(s[..n], keep);
      forall x | x in rest
        ensures le(x, s[n])
      {
        var k :| 0 <= k < n && s[..n][k] == x;
        assert s[k] == x;
      }
    }
  }
}
