/**
 * A JavaScript `Map` as far as `new Map(pairs)` and `.values()` observe it:
 * a list of entries with distinct keys in insertion order. Setting a key that
 * is already present overwrites its value where it stands; a new key is
 * appended. So after building from a list of pairs, the keys are the pairs'
 * keys in order of first occurrence, and each carries the value of its last
 * occurrence.
 */
module OrderedMap {
  import opened Seqs

  /** The keys of a list of pairs, in order. */
  function Keys<K, V>(s: seq<(K, V)>): (r: seq<K>)
    ensures |r| == |s| && forall i :: 0 <= i < |s| ==> r[i] == s[i].0
  {
    if s == [] then [] else Keys(s[..|s| - 1]) + [s[|s| - 1].0]
  }

  /**
   * `Map.prototype.set(k, v)` on a map (whose keys are distinct): the entry
   * with key `k` gets value `v` in place, or a new entry goes last.
   */
  function Set<K(==), V>(e: seq<(K, V)>, k: K, v: V): (r: seq<(K, V)>)
    requires NoDuplicates(Keys(e))
    ensures NoDuplicates(Keys(r))
    ensures Keys(r) == if k in Keys(e) then Keys(e) else Keys(e) + [k]
    ensures forall i :: 0 <= i < |r| ==> r[i].1 == if r[i].0 == k then v else e[i].1
  {
    if k in Keys(e) then
      var r := seq(|e|, i requires 0 <= i < |e| => if e[i].0 == k then (k, v) else e[i]);
      assert Keys(r) == Keys(e);
      r
    else
      var r := e + [(k, v)];
      assert Keys(r) == Keys(e) + [k];
      r
  }

  /** `new Map(pairs)`: set each pair in turn. */
  function FromPairs<K(==), V>(pairs: seq<(K, V)>): (e: seq<(K, V)>)
    ensures NoDuplicates(Keys(e))
  {
    if pairs == [] then []
    else
      var last := pairs[|pairs| - 1];
      Set(FromPairs(pairs[..|pairs| - 1]), last.0, last.1)
  }

  /** `Array.from(map.values())`. */
  function Values<K, V>(e: seq<(K, V)>): (r: seq<V>)
    ensures |r| == |e| && forall i :: 0 <= i < |e| ==> r[i] == e[i].1
  {
    seq(|e|, i requires 0 <= i < |e| => e[i].1)
  }

  /**
   * Reference definition: the distinct values of `ks`, each at the place of
   * its first occurrence.
   */
  function FirstOccurrences<K(==)>(ks: seq<K>): (r: seq<K>)
    ensures NoDuplicates(r)
    ensures forall i :: 0 <= i < |ks| ==> ks[i] in r
    ensures forall j :: 0 <= j < |r| ==> r[j] in ks
  {
    if ks == [] then []
    else
      var pre := FirstOccurrences(ks[..|ks| - 1]);
      var x := ks[|ks| - 1];
      assert ks == ks[..|ks| - 1] + [x];
      if x in pre then pre else pre + [x]
  }

  /** The index of the first occurrence of `x` in `ks`. */
  function FirstIndex<K(==)>(ks: seq<K>, x: K): (i: nat)
    requires x in ks
    ensures i < |ks| && ks[i] == x
    ensures forall j :: 0 <= j < i ==> ks[j] != x
  {
    if ks[0] == x then 0
    else
      assert forall j :: 1 <= j < |ks| ==> ks[j] == ks[1..][j - 1];
      1 + FirstIndex(ks[1..], x)
  }

  /** A value occurring in a prefix has its first occurrence there. */
  lemma FirstIndexPrefix<K>(ks: seq<K>, n: nat, y: K)
    requires n <= |ks| && y in ks[..n]
    ensures FirstIndex(ks, y) == FirstIndex(ks[..n], y) < n
  {
    var i := FirstIndex(ks[..n], y);
    assert ks[i] == y;
  }

  /**
   * `FirstOccurrences` lists its values in the order of their first
   * occurrences in `ks`.
   */
  lemma {:induction false} FirstOccurrencesOrdered<K>(ks: seq<K>)
    ensures forall j, j' :: 0 <= j < j' < |FirstOccurrences(ks)| ==>
              FirstIndex(ks, FirstOccurrences(ks)[j]) < FirstIndex(ks, FirstOccurrences(ks)[j'])
  {
    if ks != [] {
      var n := |ks| - 1;
      var pre := FirstOccurrences(ks[..n]);
      var x := ks[n];
      var r := FirstOccurrences(ks);
      FirstOccurrencesOrdered(ks[..n]);
      forall j | 0 <= j < |pre|
        ensures FirstIndex(ks, pre[j]) == FirstIndex(ks[..n], pre[j]) < n
      {
        FirstIndexPrefix(ks, n, pre[j]);
      }
      if x !in pre {
        assert x !in ks[..n];
        assert r == pre + [x];
        assert FirstIndex(ks, x) == n;
      }
    }
  }

  /** Reference definition: the value paired with `k` by its last occurrence. */
  function LastValue<K(==), V>(pairs: seq<(K, V)>, k: K): V
    requires k in Keys(pairs)
  {
    var n := |pairs| - 1;
    if pairs[n].0 == k then pairs[n].1
    else
      assert Keys(pairs) == Keys(pairs[..n]) + [pairs[n].0];
      LastValue(pairs[..n], k)
  }

  /** `LastValue` is the value of some pair with key `k` after which no pair has key `k`. */
  lemma {:induction false} LastValueIsLast<K, V>(pairs: seq<(K, V)>, k: K)
    requires k in Keys(pairs)
    ensures exists i :: 0 <= i < |pairs| && pairs[i] == (k, LastValue(pairs, k)) &&
                        forall i' :: i < i' < |pairs| ==> pairs[i'].0 != k
  {
    var n := |pairs| - 1;
    if pairs[n].0 == k {
      assert pairs[n] == (k, LastValue(pairs, k));
    } else {
      assert Keys(pairs) == Keys(pairs[..n]) + [pairs[n].0];
      LastValueIsLast(pairs[..n], k);
      var i :| 0 <= i < n && pairs[..n][i] == (k, LastValue(pairs[..n], k)) &&
               forall i' :: i < i' < n ==> pairs[..n][i'].0 != k;
      assert pairs[i] == pairs[..n][i];
      assert forall i' :: i < i' < n ==> pairs[i'] == pairs[..n][i'];
    }
  }

  /**
   * What `new Map(pairs)` holds: the keys of `pairs` in order of first
   * occurrence, each with the value of its last occurrence.
   */
  lemma {:induction false} FromPairsSpec<K, V>(pairs: seq<(K, V)>)
    ensures Keys(FromPairs(pairs)) == FirstOccurrences(Keys(pairs))
    ensures forall j :: 0 <= j < |FromPairs(pairs)| ==>
              FromPairs(pairs)[j].0 in Keys(pairs) &&
              FromPairs(pairs)[j].1 == LastValue(pairs, FromPairs(pairs)[j].0)
  {
    if pairs != [] {
      var n := |pairs| - 1;
      var (k, v) := pairs[n];
      FromPairsSpec(pairs[..n]);
      var e0 := FromPairs(pairs[..n]);
      var e := FromPairs(pairs);
      assert e == Set(e0, k, v);
      assert Keys(pairs) == Keys(pairs[..n]) + [k];
      assert Keys(pairs)[..n] == Keys(pairs[..n]);
      forall j | 0 <= j < |e|
        ensures e[j].0 in Keys(pairs) && e[j].1 == LastValue(pairs, e[j].0)
      {
        assert e[j].0 == Keys(e)[j];
        if e[j].0 != k {
          assert Keys(e)[j] == Keys(e0)[j];
        }
      }
    }
  }
}
