/** Sequence helpers shared by both models: duplicates, first-occurrence
    order and Python's prefix slice `s[:n]`. */
module Seqs {

  function Min(a: int, b: int): int { if a <= b then a else b }

  function Max(a: int, b: int): int { if a >= b then a else b }

  /** No element occurs twice. */
  predicate NoDup<T(==)>(s: seq<T>) {
    forall i, j :: 0 <= i < j < |s| ==> s[i] != s[j]
  }

  /** The distinct elements of `s` in order of first occurrence: the key
      order of a Python dict filled from `s`. */
  function Distinct<T(==)>(s: seq<T>): (d: seq<T>)
    ensures NoDup(d)
    ensures forall i :: 0 <= i < |d| ==> d[i] in s
    ensures forall i :: 0 <= i < |s| ==> s[i] in d
    ensures |d| <= |s|
  {
    if s == [] then []
    else
      var p := Distinct(s[..|s| - 1]);
      if s[|s| - 1] in p then p else p + [s[|s| - 1]]
  }

  /** Distinct lists the elements in the order they first occur. */
  lemma {:induction false} DistinctFirstOccurrence<T>(s: seq<T>)
    ensures FirstOccurrenceOrder(s, Distinct(s))
  {
    if s != [] {
      DistinctFirstOccurrence(s[..|s| - 1]);
      DistinctOrderStep(s, Distinct(s[..|s| - 1]));
    }
  }

  /** `d` lists elements in the order they first occur in `s`: whenever
      `d[j]` occurs at position `q`, every earlier `d[i]` occurs before `q`. */
  predicate FirstOccurrenceOrder<T(==)>(s: seq<T>, d: seq<T>) {
    forall i, j, q :: 0 <= i < j < |d| && 0 <= q < |s| && s[q] == d[j] ==> d[i] in s[..q]
  }

  /** One step of Distinct keeps first-occurrence order. */
  lemma DistinctOrderStep<T>(s: seq<T>, p: seq<T>)
    requires s != []
    requires FirstOccurrenceOrder(s[..|s| - 1], p)
    requires forall i :: 0 <= i < |p| ==> p[i] in s[..|s| - 1]
    requires forall i :: 0 <= i < |s| - 1 ==> s[i] in p
    ensures FirstOccurrenceOrder(s, if s[|s| - 1] in p then p else p + [s[|s| - 1]])
  {
    var t, x := s[..|s| - 1], s[|s| - 1];
    var d := if x in p then p else p + [x];
    forall i, j, q | 0 <= i < j < |d| && 0 <= q < |s| && s[q] == d[j]
      ensures d[i] in s[..q]
    {
      assert d[i] == p[i];
      if j < |p| {
        assert d[j] == p[j];
        if q < |t| {
          assert s[q] == t[q] && s[..q] == t[..q];
        } else {
          assert s[..q] == t;
        }
      } else {
        assert d[j] == x && x !in p;
        assert q == |t|;
        assert s[..q] == t;
      }
    }
  }

  /** Deduplicating a sequence without duplicates changes nothing. */
  lemma {:induction false} DistinctOfNoDup<T>(s: seq<T>)
    requires NoDup(s)
    ensures Distinct(s) == s
  {
    if s != [] {
      var p := s[..|s| - 1];
      assert NoDup(p);
      DistinctOfNoDup(p);
      assert s[|s| - 1] !in p by {
        forall i | 0 <= i < |p| ensures p[i] != s[|s| - 1] {
          assert s[i] == p[i];
        }
      }
      assert p + [s[|s| - 1]] == s;
    }
  }

  /** Appending `x` keeps a sequence free of duplicates exactly when `x` is new. */
  lemma NoDupSnoc<T>(p: seq<T>, x: T)
    ensures NoDup(p + [x]) <==> NoDup(p) && x !in p
  {
    var s := p + [x];
    if NoDup(s) {
      assert NoDup(p) by {
        forall i, j | 0 <= i < j < |p| ensures p[i] != p[j] {
          assert s[i] == p[i] && s[j] == p[j];
        }
      }
      forall i | 0 <= i < |p| ensures p[i] != x {
        assert s[i] == p[i] && s[|p|] == x;
      }
    }
  }

  /** A sequence has no duplicates iff every element has multiplicity at most one. */
  lemma {:induction false} NoDupIffMultiplicity<T>(s: seq<T>)
    ensures NoDup(s) <==> forall x :: multiset(s)[x] <= 1
  {
    if s != [] {
      var p, x := s[..|s| - 1], s[|s| - 1];
      assert s == p + [x];
      NoDupIffMultiplicity(p);
      NoDupSnoc(p, x);
      assert forall y :: multiset(s)[y] == multiset(p)[y] + (if y == x then 1 else 0);
      assert x in p <==> multiset(p)[x] >= 1;
    }
  }

  /** Reordering keeps a sequence free of duplicates. */
  lemma NoDupPermutation<T>(a: seq<T>, b: seq<T>)
    requires multiset(a) == multiset(b)
    requires NoDup(a)
    ensures NoDup(b)
  {
    NoDupIffMultiplicity(a);
    NoDupIffMultiplicity(b);
  }

  /** The length of Python's `s[:n]` for a sequence of length `len`. */
  function PrefixLength(len: nat, n: int): (k: nat)
    ensures k <= len
    ensures n >= 0 ==> k == Min(n, len)
    ensures n < 0 ==> k == Max(0, len + n)
  {
    if n >= len then len
    else if n >= 0 then n
    else if len + n >= 0 then len + n
    else 0
  }

  /** Python's slice `s[:n]`: the first `n` elements, or for negative `n`
      all but the last `-n`. */
  function PyPrefix<T>(s: seq<T>, n: int): (r: seq<T>)
    ensures |r| == PrefixLength(|s|, n)
    ensures r <= s
  {
    s[..PrefixLength(|s|, n)]
  }

  /** A prefix of a duplicate-free sequence is duplicate-free and a
      sub-multiset of it. */
  lemma PrefixKeepsNoDup<T>(s: seq<T>, n: int)
    requires NoDup(s)
    ensures NoDup(PyPrefix(s, n))
    ensures multiset(PyPrefix(s, n)) <= multiset(s)
  {
    var k := PrefixLength(|s|, n);
    assert s == s[..k] + s[k..];
  }

  /** Appending elements already present adds nothing to the distinct list. */
  lemma {:induction false} DistinctAppendSeen<T>(s: seq<T>, t: seq<T>)
    requires forall i :: 0 <= i < |t| ==> t[i] in s
    ensures Distinct(s + t) == Distinct(s)
  {
    if t != [] {
      var u := t[..|t| - 1];
      DistinctAppendSeen(s, u);
      assert (s + t)[..|s + t| - 1] == s + u;
    } else {
      assert s + t == s;
    }
  }

  /** Distinct extends by the last element exactly when it is new. */
  lemma DistinctSnoc<T>(p: seq<T>, x: T)
    ensures Distinct(p + [x]) == if x in Distinct(p) then Distinct(p) else Distinct(p) + [x]
  {
  }

  /** Repeating a prefix does not change the distinct list. */
  lemma {:induction false} DistinctRepeatedPrefix<T>(s: seq<T>, u: seq<T>)
    ensures Distinct(s + s + u) == Distinct(s + u)
  {
    if u == [] {
      assert s + s + u == s + s && s + u == s;
      DistinctAppendSeen(s, s);
    } else {
      var v, x := u[..|u| - 1], u[|u| - 1];
      DistinctRepeatedPrefix(s, v);
      assert s + s + u == (s + s + v) + [x];
      assert s + u == (s + v) + [x];
      DistinctSnoc(s + s + v, x);
      DistinctSnoc(s + v, x);
    }
  }

  /** Two duplicate-free sequences with no common element concatenate
      without duplicates. */
  lemma NoDupConcat<T>(a: seq<T>, b: seq<T>)
    requires NoDup(a) && NoDup(b)
    requires forall i :: 0 <= i < |b| ==> b[i] !in a
    ensures NoDup(a + b)
  {
  }

  /** A prefix of a reordering of a duplicate-free pool: duplicate-free, of
      the prefix's length, drawn from the pool, and the whole pool when the
      cut is at least the pool's size. */
  lemma PrefixOfPermutation<T>(pool: seq<T>, perm: seq<T>, n: int)
    requires NoDup(pool)
    requires multiset(perm) == multiset(pool)
    ensures NoDup(PyPrefix(perm, n))
    ensures |PyPrefix(perm, n)| == PrefixLength(|pool|, n)
    ensures multiset(PyPrefix(perm, n)) <= multiset(pool)
    ensures n >= |pool| ==> multiset(PyPrefix(perm, n)) == multiset(pool)
    ensures forall i :: 0 <= i < |PyPrefix(perm, n)| ==> PyPrefix(perm, n)[i] in pool
  {
    assert |multiset(perm)| == |perm| && |multiset(pool)| == |pool|;
    NoDupPermutation(pool, perm);
    PrefixKeepsNoDup(perm, n);
    var r := PyPrefix(perm, n);
    if n >= |pool| {
      assert r == perm[..|perm|] == perm;
    }
    forall i | 0 <= i < |r| ensures r[i] in pool {
      assert r[i] in multiset(perm);
    }
  }
}
