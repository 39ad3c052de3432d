/**
 * Descending order by an integer key: the order `sort.Slice` produces with the
 * comparator `key(s[i]) > key(s[j])` (time.Time.After). The comparator is
 * strict, so elements with equal keys may end up in any relative order; the
 * contracts here promise nothing about ties.
 */
module Ordering {

  import Sequences

  /** No element is strictly later than an element before it. */
  predicate SortedDesc<T>(s: seq<T>, key: T -> int)
  {
    forall i, j :: 0 <= i < j < |s| ==> key(s[i]) >= key(s[j])
  }

  /** Inserts `x` into a descending sequence, in front of the first element it is not before. */
  function Insert<T>(x: T, s: seq<T>, key: T -> int): (r: seq<T>)
    requires SortedDesc(s, key)
    ensures |r| == |s| + 1
    ensures r[0] == x || (s != [] && r[0] == s[0])
    ensures SortedDesc(r, key)
    ensures multiset(r) == multiset(s) + multiset{x}
  {
    if s == [] || key(x) >= key(s[0]) then [x] + s
    else
      var rest := Insert(x, s[1..], key);
      assert s == [s[0]] + s[1..];
      assert key(s[0]) >= key(rest[0]);
      [s[0]] + rest
  }

  /**
   * Sorts `s` so that keys do not increase; the result is a permutation of `s`.
   * Stands for Go's `sort.Slice` with an `After` comparator.
   */
  method SortDesc<T>(s: seq<T>, key: T -> int) returns (r: seq<T>)
    ensures SortedDesc(r, key)
    ensures multiset(r) == multiset(s)
  {
    r := [];
    var i := 0;
    while i < |s|
      invariant 0 <= i <= |s|
      invariant SortedDesc(r, key)
      invariant multiset(r) == multiset(s[..i])
    {
      assert s[..i + 1] == s[..i] + [s[i]];
      r := Insert(s[i], r, key);
      i := i + 1;
    }
    assert s[..|s|] == s;
  }

  /** A subsequence of a descending sequence is descending: filtering never re-sorts. */
  lemma {:induction false} SortedSubsequence<T>(r: seq<T>, s: seq<T>, key: T -> int)
    requires SortedDesc(s, key)
    requires Sequences.IsSubsequence(r, s)
    ensures SortedDesc(r, key)
    decreases |s|
  {
    if r != [] && s != [] {
      assert SortedDesc(s[1..], key);
      if r[0] == s[0] && Sequences.IsSubsequence(r[1..], s[1..]) {
        SortedSubsequence(r[1..], s[1..], key);
        SubsequenceMembers(r[1..], s[1..]);
        forall j | 0 < j < |r| ensures key(r[0]) >= key(r[j]) {
          assert r[j] == r[1..][j - 1];
          assert r[j] in s[1..];
          var k :| 0 <= k < |s[1..]| && s[1..][k] == r[j];
          assert s[k + 1] == r[j];
        }
      } else {
        SortedSubsequence(r, s[1..], key);
      }
    }
  }

  lemma {:induction false} SubsequenceMembers<T>(r: seq<T>, s: seq<T>)
    requires Sequences.IsSubsequence(r, s)
    ensures forall x :: x in r ==> x in s
    decreases |s|
  {
    if r != [] && s != [] {
      if r[0] == s[0] && Sequences.IsSubsequence(r[1..], s[1..]) {
        SubsequenceMembers(r[1..], s[1..]);
        assert r == [r[0]] + r[1..];
      } else {
        SubsequenceMembers(r, s[1..]);
      }
    }
  }
}
