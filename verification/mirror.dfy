/**
 * A list of records mirrors a set of keys when the records' keys are
 * pairwise distinct and are exactly the keys of the set. This is the relation
 * the engine keeps between the feeds held in memory and the keys of the
 * store's feed bucket: every subscribe and unsubscribe updates both sides.
 */
module Mirror {

  import opened Sequences

  /** No key occurs at two positions of `s`. */
  predicate DistinctKeys<T>(s: seq<T>, key: T -> string)
  {
    forall i, j :: 0 <= i < j < |s| ==> key(s[i]) != key(s[j])
  }

  /** Some record of `s` has key `k`. */
  predicate Keyed<T>(s: seq<T>, key: T -> string, k: string)
  {
    exists i :: 0 <= i < |s| && key(s[i]) == k
  }

  /** The records' keys are distinct and are exactly `keys`. */
  ghost predicate Mirrors<T>(s: seq<T>, key: T -> string, keys: set<string>)
  {
    && DistinctKeys(s, key)
    && forall k :: Keyed(s, key, k) <==> k in keys
  }

  /** Appending a record under a key not yet present mirrors the set grown by that key. */
  lemma MirrorsAppend<T>(s: seq<T>, key: T -> string, keys: set<string>, x: T)
    requires Mirrors(s, key, keys) && key(x) !in keys
    ensures Mirrors(s + [x], key, keys + {key(x)})
    ensures !Mirrors(s + [x], key, keys)
  {
    var t := s + [x];
    assert t[|s|] == x;
    forall i, j | 0 <= i < j < |t| ensures key(t[i]) != key(t[j]) {
      if j == |s| {
        assert Keyed(s, key, key(s[i]));
      }
    }
    forall k ensures Keyed(t, key, k) <==> k in keys + {key(x)} {
      if Keyed(t, key, k) {
        var i :| 0 <= i < |t| && key(t[i]) == k;
        if i < |s| { assert Keyed(s, key, k); }
      }
      if k in keys {
        var i :| 0 <= i < |s| && key(s[i]) == k;
        assert t[i] == s[i];
      }
      if k == key(x) {
        assert t[|s|] == x;
      }
    }
  }

  /**
   * Removing the first record with key `k` mirrors the set without `k`:
   * since keys are distinct, no other record has that key.
   */
  lemma MirrorsRemoveFirst<T>(s: seq<T>, key: T -> string, keys: set<string>, p: T -> bool, k: string)
    requires Mirrors(s, key, keys)
    requires forall x :: p(x) <==> key(x) == k
    ensures Mirrors(RemoveFirst(s, p), key, keys - {k})
    ensures k in keys ==> !Mirrors(RemoveFirst(s, p), key, keys)
  {
    var n := FirstIndex(s, p);
    var r := RemoveFirst(s, p);
    assert forall j :: 0 <= j < |r| ==> r[j] == if j < n then s[j] else s[j + 1];
    forall i, j | 0 <= i < j < |r| ensures key(r[i]) != key(r[j]) {
      var i' := if i < n then i else i + 1;
      var j' := if j < n then j else j + 1;
      assert r[i] == s[i'] && r[j] == s[j'] && i' < j';
    }
    forall k' ensures Keyed(r, key, k') <==> k' in keys - {k} {
      if Keyed(r, key, k') {
        var j :| 0 <= j < |r| && key(r[j]) == k';
        var j' := if j < n then j else j + 1;
        assert r[j] == s[j'];
        assert Keyed(s, key, k');
      }
      if k' in keys - {k} {
        assert Keyed(s, key, k');
        var j :| 0 <= j < |s| && key(s[j]) == k';
        if n < |s| {
          assert j != n;
          if j < n { assert r[j] == s[j]; } else { assert r[j - 1] == s[j]; }
        } else {
          assert r[j] == s[j];
        }
      }
    }
    assert !Keyed(r, key, k);
  }

  /** Mirroring depends only on the keys, position by position. */
  lemma MirrorsPointwise<T>(s: seq<T>, t: seq<T>, key: T -> string, keys: set<string>)
    requires |s| == |t|
    requires forall i :: 0 <= i < |s| ==> key(s[i]) == key(t[i])
    ensures Mirrors(s, key, keys) <==> Mirrors(t, key, keys)
  {
    forall k ensures Keyed(s, key, k) <==> Keyed(t, key, k) {
      if Keyed(s, key, k) {
        var i :| 0 <= i < |s| && key(s[i]) == k;
        assert key(t[i]) == k;
      }
      if Keyed(t, key, k) {
        var i :| 0 <= i < |t| && key(t[i]) == k;
        assert key(s[i]) == k;
      }
    }
  }

  /**
   * Appending a record under a new key while a store write of that record may
   * or may not commit: the list mirrors the stored keys afterwards exactly
   * when the write committed.
   */
  lemma StoreAppend<T>(s: seq<T>, key: T -> string, stored: map<string, T>, stored': map<string, T>, x: T)
    requires Mirrors(s, key, stored.Keys) && !Keyed(s, key, key(x))
    requires stored' == stored || stored' == stored[key(x) := x]
    ensures Mirrors(s + [x], key, stored'.Keys) <==> key(x) in stored'
  {
    MirrorsAppend(s, key, stored.Keys, x);
    if key(x) in stored' {
      assert stored'.Keys == stored.Keys + {key(x)};
    }
  }

  /**
   * Dropping the first record with key `k` while a store delete of `k` may
   * or may not commit: the list mirrors the stored keys afterwards exactly
   * when `k` is no longer stored.
   */
  lemma StoreRemoveFirst<T>(s: seq<T>, key: T -> string, stored: map<string, T>, stored': map<string, T>,
                            p: T -> bool, k: string)
    requires Mirrors(s, key, stored.Keys)
    requires forall x :: p(x) <==> key(x) == k
    requires stored' == stored || stored' == stored - {k}
    ensures Mirrors(RemoveFirst(s, p), key, stored'.Keys) <==> k !in stored'
  {
    MirrorsRemoveFirst(s, key, stored.Keys, p, k);
    if k !in stored' {
      assert stored'.Keys == stored.Keys - {k};
    }
  }
}
