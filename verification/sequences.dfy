/**
 * Order-preserving selection and first-match search over sequences: the two
 * loop shapes the engine uses everywhere (`for _, x := range s { if p(x) { append } }`
 * and `for i, x := range s { if p(x) { ...; break } }`).
 */
module Sequences {

  /** The elements of `s` that satisfy `p`, in their original order. */
  function Select<T>(s: seq<T>, p: T -> bool): (r: seq<T>)
    ensures |r| <= |s|
    ensures forall i :: 0 <= i < |r| ==> r[i] in s && p(r[i])
    ensures forall i :: 0 <= i < |s| && p(s[i]) ==> s[i] in r
  {
    if s == [] then []
    else if p(s[0]) then [s[0]] + Select(s[1..], p)
    else Select(s[1..], p)
  }

  /** `r` can be obtained from `s` by deleting elements, without reordering. */
  predicate IsSubsequence<T(==)>(r: seq<T>, s: seq<T>)
    decreases |s|
  {
    if r == [] then true
    else if s == [] then false
    else (r[0] == s[0] && IsSubsequence(r[1..], s[1..])) || IsSubsequence(r, s[1..])
  }

  /** Index of the first element satisfying `p`, or `|s|` when there is none. */
  function FirstIndex<T>(s: seq<T>, p: T -> bool): (k: nat)
    ensures k <= |s|
    ensures forall j :: 0 <= j < k ==> !p(s[j])
    ensures k < |s| ==> p(s[k])
  {
    if s == [] then 0
    else if p(s[0]) then 0
    else 1 + FirstIndex(s[1..], p)
  }

  /**
   * `s` without its first element satisfying `p` (unchanged when there is
   * none); the others keep their order.
   */
  function RemoveFirst<T>(s: seq<T>, p: T -> bool): (r: seq<T>)
    ensures FirstIndex(s, p) == |s| ==> r == s
    ensures FirstIndex(s, p) < |s| ==> |r| == |s| - 1
    ensures forall j :: 0 <= j < |r| ==> r[j] == if j < FirstIndex(s, p) then s[j] else s[j + 1]
  {
    var k := FirstIndex(s, p);
    if k < |s| then s[..k] + s[k + 1..] else s
  }

  /** A selection keeps the order of the sequence it selects from. */
  lemma {:induction false} SelectIsSubsequence<T>(s: seq<T>, p: T -> bool)
    ensures IsSubsequence(Select(s, p), s)
  {
    if s != [] {
      SelectIsSubsequence(s[1..], p);
      if p(s[0]) {
        assert Select(s, p)[1..] == Select(s[1..], p);
      } else {
        SubsequenceOfTail(Select(s, p), s);
      }
    }
  }

  lemma {:induction false} SubsequenceOfTail<T>(r: seq<T>, s: seq<T>)
    requires s != [] && IsSubsequence(r, s[1..])
    ensures IsSubsequence(r, s)
  {
  }

  /** Selecting with a predicate that holds everywhere returns the sequence itself. */
  lemma {:induction false} SelectAll<T>(s: seq<T>, p: T -> bool)
    requires forall x :: x in s ==> p(x)
    ensures Select(s, p) == s
  {
    if s != [] {
      assert s[0] in s;
      assert forall x :: x in s[1..] ==> x in s;
      SelectAll(s[1..], p);
      assert [s[0]] + s[1..] == s;
    }
  }

  /** Two successive selections are one selection by the conjunction. */
  lemma {:induction false} SelectSelect<T>(s: seq<T>, p: T -> bool, q: T -> bool, pq: T -> bool)
    requires forall x :: pq(x) == (p(x) && q(x))
    ensures Select(Select(s, p), q) == Select(s, pq)
  {
    if s != [] {
      SelectSelect(s[1..], p, q, pq);
      if p(s[0]) {
        assert Select(s, p) == [s[0]] + Select(s[1..], p);
        assert ([s[0]] + Select(s[1..], p))[1..] == Select(s[1..], p);
      }
    }
  }

  /** Appending one element extends the selection by that element or by nothing. */
  lemma {:induction false} SelectAppend<T>(s: seq<T>, x: T, p: T -> bool)
    ensures Select(s + [x], p) == Select(s, p) + (if p(x) then [x] else [])
  {
    if s == [] {
      assert [x][1..] == [];
    } else {
      assert (s + [x])[0] == s[0];
      assert (s + [x])[1..] == s[1..] + [x];
      SelectAppend(s[1..], x, p);
    }
  }

  /**
   * The number of selected elements depends only on which positions satisfy
   * the predicate, not on what else the elements hold.
   */
  lemma {:induction false} SelectLengthPointwise<T, U>(s: seq<T>, p: T -> bool, t: seq<U>, q: U -> bool)
    requires |s| == |t|
    requires forall i :: 0 <= i < |s| ==> p(s[i]) == q(t[i])
    ensures |Select(s, p)| == |Select(t, q)|
  {
    if s != [] {
      assert p(s[0]) == q(t[0]);
      SelectLengthPointwise(s[1..], p, t[1..], q);
    }
  }

  /** Selecting nothing: no element satisfies the predicate. */
  lemma {:induction false} SelectNone<T>(s: seq<T>, p: T -> bool)
    requires forall i :: 0 <= i < |s| ==> !p(s[i])
    ensures Select(s, p) == []
  {
    if s != [] {
      assert !p(s[0]);
      SelectNone(s[1..], p);
    }
  }

  /** Selection commutes with a projection that preserves the predicate. */
  lemma {:induction false} SelectMap<T, U>(s: seq<T>, p: T -> bool, f: T -> U, q: U -> bool)
    requires forall x :: q(f(x)) == p(x)
    ensures MapSeq(Select(s, p), f) == Select(MapSeq(s, f), q)
  {
    if s != [] {
      SelectMap(s[1..], p, f, q);
      assert MapSeq(s, f)[1..] == MapSeq(s[1..], f);
    }
  }

  /** The first match depends only on where the predicate holds. */
  lemma {:induction false} FirstIndexPointwise<T>(s: seq<T>, t: seq<T>, p: T -> bool)
    requires |s| == |t|
    requires forall j :: 0 <= j < |s| ==> p(s[j]) == p(t[j])
    ensures FirstIndex(s, p) == FirstIndex(t, p)
  {
    if s != [] && !p(s[0]) {
      FirstIndexPointwise(s[1..], t[1..], p);
    }
  }

  /** Selections by predicates that agree everywhere are equal. */
  lemma {:induction false} SelectExt<T>(s: seq<T>, p: T -> bool, q: T -> bool)
    requires forall x :: p(x) == q(x)
    ensures Select(s, p) == Select(s, q)
  {
    if s != [] {
      SelectExt(s[1..], p, q);
    }
  }

  /** Applies `f` to every element, keeping the order. */
  function MapSeq<T, U>(s: seq<T>, f: T -> U): (r: seq<U>)
    ensures |r| == |s|
    ensures forall i :: 0 <= i < |s| ==> r[i] == f(s[i])
  {
    if s == [] then [] else [f(s[0])] + MapSeq(s[1..], f)
  }
}
