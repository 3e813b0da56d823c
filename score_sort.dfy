/** `sorted(mission_scores.items(), key=lambda x: x[1])`: a stable sort of
    (mission, score) pairs by score, here as an insertion sort, with the
    proof that every stable sort gives the same result. */
module ScoreSort {

  /** One dict item: a mission and its rounded score. */
  datatype Entry = Entry(mission: string, score: real)

  predicate SortedByScore(s: seq<Entry>) {
    forall i, j :: 0 <= i < j < |s| ==> s[i].score <= s[j].score
  }

  /** The entries of `s` whose score is `v`, in their order in `s`. */
  function WithScore(s: seq<Entry>, v: real): (r: seq<Entry>)
    ensures forall i :: 0 <= i < |r| ==> r[i].score == v
    ensures |r| <= |s|
  {
    if s == [] then []
    else (if s[0].score == v then [s[0]] else []) + WithScore(s[1..], v)
  }

  /** Places `e` before the first entry whose score is not smaller, so that
      `e` precedes the entries of equal score. */
  function Insert(e: Entry, s: seq<Entry>): (r: seq<Entry>)
    ensures multiset(r) == multiset(s) + multiset{e}
  {
    if s == [] || e.score <= s[0].score then [e] + s
    else
      assert s == [s[0]] + s[1..];
      [s[0]] + Insert(e, s[1..])
  }

  /** Inserting into a sorted sequence keeps it sorted. */
  lemma {:induction false} InsertSorted(e: Entry, s: seq<Entry>)
    requires SortedByScore(s)
    ensures SortedByScore(Insert(e, s))
  {
    if s != [] && e.score > s[0].score {
      var t := Insert(e, s[1..]);
      InsertSorted(e, s[1..]);
      forall x | x in t ensures s[0].score <= x.score {
        assert x in multiset(t);
        if x != e {
          assert x in multiset(s[1..]);
          var k :| 0 <= k < |s[1..]| && s[1..][k] == x;
          assert s[k + 1] == x;
        }
      }
    }
  }

  /** The stable sort by ascending score. */
  function SortByScore(s: seq<Entry>): (r: seq<Entry>)
    ensures |r| == |s|
    ensures SortedByScore(r)
    ensures multiset(r) == multiset(s)
  {
    if s == [] then []
    else
      assert s == [s[0]] + s[1..];
      var t := SortByScore(s[1..]);
      InsertSorted(s[0], t);
      assert |multiset(Insert(s[0], t))| == |Insert(s[0], t)|;
      Insert(s[0], t)
  }

  lemma {:induction false} InsertWithScore(e: Entry, s: seq<Entry>, v: real)
    ensures WithScore(Insert(e, s), v) == (if e.score == v then [e] else []) + WithScore(s, v)
  {
    if s == [] || e.score <= s[0].score {
      assert ([e] + s)[1..] == s;
    } else {
      var t := Insert(e, s[1..]);
      assert ([s[0]] + t)[1..] == t;
      InsertWithScore(e, s[1..], v);
    }
  }

  /** Stability: among entries of equal score the input order is kept. */
  lemma {:induction false} SortByScoreStable(s: seq<Entry>, v: real)
    ensures WithScore(SortByScore(s), v) == WithScore(s, v)
  {
    if s != [] {
      SortByScoreStable(s[1..], v);
      InsertWithScore(s[0], SortByScore(s[1..]), v);
    }
  }

  lemma SortedHeadIsLeast(s: seq<Entry>, e: Entry)
    requires SortedByScore(s) && e in s
    ensures s[0].score <= e.score
  {
  }

  /** A sorted sequence and its stable filters determine each other: two
      sorted sequences that agree on every score's entries are equal. So
      any stable sort by score, such as Python's `sorted`, agrees with
      SortByScore. */
  lemma {:induction false} StableSortUnique(a: seq<Entry>, b: seq<Entry>)
    requires SortedByScore(a) && SortedByScore(b)
    requires forall v :: WithScore(a, v) == WithScore(b, v)
    ensures a == b
  {
    if a != [] && b != [] {
      var v, w := a[0].score, b[0].score;
      assert WithScore(a, v)[0] == a[0];
      assert WithScore(b, w)[0] == b[0];
      assert WithScore(b, v) != [];
      var x := WithScore(b, v)[0];
      WithScoreMember(b, v, x);
      SortedHeadIsLeast(b, x);
      assert WithScore(a, w) != [];
      var y := WithScore(a, w)[0];
      WithScoreMember(a, w, y);
      SortedHeadIsLeast(a, y);
      assert v == w;
      assert a[0] == b[0];
      forall u ensures WithScore(a[1..], u) == WithScore(b[1..], u) {
        var p := if a[0].score == u then [a[0]] else [];
        assert WithScore(a, u) == p + WithScore(a[1..], u);
        assert WithScore(b, u) == p + WithScore(b[1..], u);
        assert (p + WithScore(a[1..], u))[|p|..] == WithScore(a[1..], u);
        assert (p + WithScore(b[1..], u))[|p|..] == WithScore(b[1..], u);
      }
      StableSortUnique(a[1..], b[1..]);
      assert a == [a[0]] + a[1..] && b == [b[0]] + b[1..];
    } else if a != [] {
      HeadKept(a);
      assert false;
    } else if b != [] {
      HeadKept(b);
      assert false;
    }
  }

  /** What WithScore keeps comes from its argument. */
  lemma {:induction false} WithScoreMember(s: seq<Entry>, v: real, e: Entry)
    requires e in WithScore(s, v)
    ensures e in s
  {
    if s[0] != e {
      WithScoreMember(s[1..], v, e);
    }
  }

  lemma HeadKept(s: seq<Entry>)
    requires s != []
    ensures WithScore(s, s[0].score) != []
  {
  }
}
