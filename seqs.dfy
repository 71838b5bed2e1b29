/**
 * Stable filtering of sequences, the one list operation the task board is
 * built from (`Array.prototype.filter`), with the facts the components rely on:
 * the result is an order-preserving subsequence, it keeps exactly the elements
 * that satisfy the predicate (with their multiplicity), and filtering twice
 * changes nothing.
 */
module Seqs {

  /** `s.filter(p)`: the elements of `s` satisfying `p`, in their original order. */
  function Keep<T>(s: seq<T>, p: T -> bool): (r: seq<T>)
    ensures |r| <= |s|
  {
    if s == [] then []
    else (if p(s[0]) then [s[0]] else []) + Keep(s[1..], p)
  }

  /** `a` can be obtained from `b` by deleting elements (greedy matching decides it). */
  predicate SubseqOf<T(==)>(a: seq<T>, b: seq<T>)
    decreases |b|
  {
    if a == [] then true
    else if b == [] then false
    else if a[0] == b[0] then SubseqOf(a[1..], b[1..])
    else SubseqOf(a, b[1..])
  }

  lemma {:induction false} SubseqOfSelf<T>(s: seq<T>)
    ensures SubseqOf(s, s)
    decreases |s|
  {
    if s != [] {
      SubseqOfSelf(s[1..]);
    }
  }

  /** The filter result is an order-preserving subsequence of its input. */
  lemma {:induction false} KeepIsSubseq<T>(s: seq<T>, p: T -> bool)
    ensures SubseqOf(Keep(s, p), s)
    decreases |s|
  {
    if s != [] {
      KeepIsSubseq(s[1..], p);
      var rest := Keep(s[1..], p);
      if p(s[0]) {
        assert Keep(s, p) == [s[0]] + rest;
        assert (Keep(s, p))[1..] == rest;
      } else {
        assert Keep(s, p) == rest;
        SubseqOfTail(rest, s);
      }
    }
  }

  /** A subsequence of `s[1..]` is a subsequence of `s`. */
  lemma {:induction false} SubseqOfTail<T>(a: seq<T>, s: seq<T>)
    requires s != []
    requires SubseqOf(a, s[1..])
    ensures SubseqOf(a, s)
    decreases |s|, 0
  {
    if a != [] && a[0] == s[0] {
      // greedy matching takes s[0]; a[1..] must still be a subsequence of s[1..]
      SubseqDropHead(a, s[1..]);
    }
  }

  /** Dropping the first element of a subsequence keeps it a subsequence. */
  lemma {:induction false} SubseqDropHead<T>(a: seq<T>, b: seq<T>)
    requires a != []
    requires SubseqOf(a, b)
    ensures SubseqOf(a[1..], b)
    decreases |b|, 1
  {
    if a[0] == b[0] {
      SubseqOfTail(a[1..], b);
    } else {
      SubseqDropHead(a, b[1..]);
      SubseqOfTail(a[1..], b);
    }
  }

  /** An element is kept exactly when it occurs in the input and satisfies `p`. */
  lemma {:induction false} KeepMembership<T>(s: seq<T>, p: T -> bool, x: T)
    ensures x in Keep(s, p) <==> x in s && p(x)
    decreases |s|
  {
    if s != [] {
      KeepMembership(s[1..], p, x);
      assert x in s <==> x == s[0] || x in s[1..];
    }
  }

  /** Multiplicities: every satisfying element keeps all its occurrences, every other one loses them all. */
  lemma {:induction false} KeepMultiset<T>(s: seq<T>, p: T -> bool, x: T)
    ensures multiset(Keep(s, p))[x] == if p(x) then multiset(s)[x] else 0
    decreases |s|
  {
    if s != [] {
      KeepMultiset(s[1..], p, x);
      assert s == [s[0]] + s[1..];
      assert multiset(s) == multiset([s[0]]) + multiset(s[1..]);
    }
  }

  /** No value occurs twice. */
  predicate NoDuplicates<T(==)>(s: seq<T>)
  {
    forall i, j :: 0 <= i < j < |s| ==> s[i] != s[j]
  }

  /** Filtering a list without duplicates gives a list without duplicates. */
  lemma {:induction false} KeepNoDuplicates<T>(s: seq<T>, p: T -> bool)
    requires NoDuplicates(s)
    ensures NoDuplicates(Keep(s, p))
    decreases |s|
  {
    if s != [] {
      KeepNoDuplicates(s[1..], p);
      KeepMembership(s[1..], p, s[0]);
      assert s[0] !in s[1..] by {
        assert forall i :: 0 <= i < |s[1..]| ==> s[1..][i] == s[i + 1];
      }
    }
  }

  /** Filtering distributes over concatenation. */
  lemma {:induction false} KeepAppend<T>(a: seq<T>, b: seq<T>, p: T -> bool)
    ensures Keep(a + b, p) == Keep(a, p) + Keep(b, p)
    decreases |a|
  {
    if a == [] {
      assert a + b == b;
    } else {
      var head := if p(a[0]) then [a[0]] else [];
      assert (a + b)[0] == a[0];
      assert (a + b)[1..] == a[1..] + b;
      KeepAppend(a[1..], b, p);
      calc {
        Keep(a + b, p);
        head + Keep(a[1..] + b, p);
        head + (Keep(a[1..], p) + Keep(b, p));
        (head + Keep(a[1..], p)) + Keep(b, p);
        Keep(a, p) + Keep(b, p);
      }
    }
  }

  /** A predicate every element satisfies keeps the whole sequence. */
  lemma {:induction false} KeepAll<T>(s: seq<T>, p: T -> bool)
    requires forall i :: 0 <= i < |s| ==> p(s[i])
    ensures Keep(s, p) == s
    decreases |s|
  {
    if s != [] {
      KeepAll(s[1..], p);
    }
  }

  /** A predicate no element satisfies keeps nothing. */
  lemma {:induction false} KeepNone<T>(s: seq<T>, p: T -> bool)
    requires forall i :: 0 <= i < |s| ==> !p(s[i])
    ensures Keep(s, p) == []
    decreases |s|
  {
    if s != [] {
      KeepNone(s[1..], p);
    }
  }

  /** Predicates that agree on the elements of `s` keep the same elements. */
  lemma {:induction false} KeepCongruent<T>(s: seq<T>, p: T -> bool, q: T -> bool)
    requires forall i :: 0 <= i < |s| ==> p(s[i]) == q(s[i])
    ensures Keep(s, p) == Keep(s, q)
    decreases |s|
  {
    if s != [] {
      KeepCongruent(s[1..], p, q);
    }
  }

  /** Filtering is idempotent. */
  lemma KeepIdempotent<T>(s: seq<T>, p: T -> bool)
    ensures Keep(Keep(s, p), p) == Keep(s, p)
  {
    var r := Keep(s, p);
    forall i | 0 <= i < |r| ensures p(r[i]) {
      KeepMembership(s, p, r[i]);
    }
    KeepAll(r, p);
  }

  /** Three predicates that never hold together. */
  ghost predicate Exclusive<T(!new)>(p: T -> bool, q: T -> bool, u: T -> bool)
  {
    forall x :: !(p(x) && q(x)) && !(p(x) && u(x)) && !(q(x) && u(x))
  }

  /** The three filters' multiplicities of one value add up to at most its multiplicity in the input. */
  lemma KeepThreeAt<T>(s: seq<T>, p: T -> bool, q: T -> bool, u: T -> bool, x: T)
    requires !(p(x) && q(x)) && !(p(x) && u(x)) && !(q(x) && u(x))
    ensures multiset(Keep(s, p))[x] + multiset(Keep(s, q))[x] + multiset(Keep(s, u))[x] <= multiset(s)[x]
    ensures p(x) || q(x) || u(x) ==>
              multiset(Keep(s, p))[x] + multiset(Keep(s, q))[x] + multiset(Keep(s, u))[x] == multiset(s)[x]
  {
    KeepMultiset(s, p, x);
    KeepMultiset(s, q, x);
    KeepMultiset(s, u, x);
  }

  /**
   * Three mutually exclusive predicates split a sequence into three filters
   * whose multisets together are contained in the input.
   */
  lemma KeepThreeWay<T(!new)>(s: seq<T>, p: T -> bool, q: T -> bool, u: T -> bool)
    requires Exclusive(p, q, u)
    ensures multiset(Keep(s, p)) + multiset(Keep(s, q)) + multiset(Keep(s, u)) <= multiset(s)
    ensures |Keep(s, p)| + |Keep(s, q)| + |Keep(s, u)| <= |s|
  {
    var all := multiset(Keep(s, p)) + multiset(Keep(s, q)) + multiset(Keep(s, u));
    forall x ensures all[x] <= multiset(s)[x] {
      KeepThreeAt(s, p, q, u, x);
    }
    MultisetSubsetSize(all, multiset(s));
  }

  /** ... and equal to it when every element satisfies one of the three. */
  lemma KeepThreeWayCover<T(!new)>(s: seq<T>, p: T -> bool, q: T -> bool, u: T -> bool)
    requires Exclusive(p, q, u)
    requires forall i :: 0 <= i < |s| ==> p(s[i]) || q(s[i]) || u(s[i])
    ensures multiset(Keep(s, p)) + multiset(Keep(s, q)) + multiset(Keep(s, u)) == multiset(s)
    ensures |Keep(s, p)| + |Keep(s, q)| + |Keep(s, u)| == |s|
  {
    var all := multiset(Keep(s, p)) + multiset(Keep(s, q)) + multiset(Keep(s, u));
    forall x ensures all[x] == multiset(s)[x] {
      KeepThreeCoveredAt(s, p, q, u, x);
    }
    assert all == multiset(s);
  }

  /** One value's multiplicities when every element satisfies one of three exclusive predicates. */
  lemma KeepThreeCoveredAt<T>(s: seq<T>, p: T -> bool, q: T -> bool, u: T -> bool, x: T)
    requires !(p(x) && q(x)) && !(p(x) && u(x)) && !(q(x) && u(x))
    requires forall i :: 0 <= i < |s| ==> p(s[i]) || q(s[i]) || u(s[i])
    ensures multiset(Keep(s, p))[x] + multiset(Keep(s, q))[x] + multiset(Keep(s, u))[x] == multiset(s)[x]
  {
    KeepThreeAt(s, p, q, u, x);
    if x in s {
      var i :| 0 <= i < |s| && s[i] == x;
    }
  }

  /** A sub-multiset is no larger. */
  lemma {:induction false} MultisetSubsetSize<T>(a: multiset<T>, b: multiset<T>)
    requires a <= b
    ensures |a| <= |b|
    decreases |b|
  {
    if a != multiset{} {
      var x :| x in a;
      MultisetSubsetSize(a[x := a[x] - 1], b[x := b[x] - 1]);
      assert a == a[x := a[x] - 1] + multiset{x};
      assert b == b[x := b[x] - 1] + multiset{x};
    }
  }
}
