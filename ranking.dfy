/**
 * The ranking step of `getRecommendations`: `scored.sort((a, b) => b.score - a.score)`,
 * a stable sort by descending score. `SortByScore` is the insertion sort that
 * specifies it; `StableSortByScore` performs it in place on an array.
 */
module Ranking {
  import opened Scoring

  /** Scores never increase from left to right. */
  predicate SortedByScore(s: seq<Scored>) {
    forall i, j :: 0 <= i < j < |s| ==> s[i].score >= s[j].score
  }

  /** The items scoring exactly `v`, in their order in `s`. */
  function WithScore(s: seq<Scored>, v: real): seq<Scored> {
    if s == [] then []
    else WithScore(s[..|s| - 1], v) + (if s[|s| - 1].score == v then [s[|s| - 1]] else [])
  }

  /** Where `x` goes: after the last item scoring at least as much as `x`. */
  function InsertPos(t: seq<Scored>, x: Scored): (k: nat)
    ensures k <= |t|
    ensures forall i :: k <= i < |t| ==> t[i].score < x.score
    ensures 0 < k ==> t[k - 1].score >= x.score
  {
    if t == [] || t[|t| - 1].score >= x.score then |t|
    else InsertPos(t[..|t| - 1], x)
  }

  function Insert(t: seq<Scored>, x: Scored): (r: seq<Scored>)
    ensures |r| == |t| + 1
  {
    var k := InsertPos(t, x);
    t[..k] + [x] + t[k..]
  }

  /** Insertion sort, taking the items left to right. */
  function SortByScore(s: seq<Scored>): (r: seq<Scored>)
    ensures |r| == |s|
  {
    if s == [] then [] else Insert(SortByScore(s[..|s| - 1]), s[|s| - 1])
  }

  lemma {:induction false} WithScoreAppend(s: seq<Scored>, t: seq<Scored>, v: real)
    ensures WithScore(s + t, v) == WithScore(s, v) + WithScore(t, v)
    decreases |t|
  {
    if t != [] {
      var t' := t[..|t| - 1];
      assert (s + t)[..|s + t| - 1] == s + t';
      WithScoreAppend(s, t', v);
    } else {
      assert s + t == s;
    }
  }

  lemma {:induction false} WithScoreAllBelow(s: seq<Scored>, v: real)
    requires forall i :: 0 <= i < |s| ==> s[i].score < v
    ensures WithScore(s, v) == []
  {
    if s != [] {
      WithScoreAllBelow(s[..|s| - 1], v);
    }
  }

  lemma InsertSorted(t: seq<Scored>, x: Scored)
    requires SortedByScore(t)
    ensures SortedByScore(Insert(t, x))
  {
  }

  lemma WithScoreSingle(x: Scored, v: real)
    ensures WithScore([x], v) == if x.score == v then [x] else []
  {
    assert [x][..0] == [];
  }

  lemma WithScoreAround(lo: seq<Scored>, x: Scored, hi: seq<Scored>, v: real)
    requires forall i :: 0 <= i < |hi| ==> hi[i].score < x.score
    ensures WithScore(lo + [x] + hi, v) == WithScore(lo + hi, v) + (if x.score == v then [x] else [])
  {
    WithScoreAppend(lo + [x], hi, v);
    WithScoreAppend(lo, [x], v);
    WithScoreAppend(lo, hi, v);
    WithScoreSingle(x, v);
    if x.score == v {
      WithScoreAllBelow(hi, v);
    }
  }

  lemma InsertWithScore(t: seq<Scored>, x: Scored, v: real)
    ensures WithScore(Insert(t, x), v) == WithScore(t, v) + (if x.score == v then [x] else [])
  {
    var k := InsertPos(t, x);
    assert t == t[..k] + t[k..];
    WithScoreAround(t[..k], x, t[k..], v);
  }

  lemma InsertPermutes(t: seq<Scored>, x: Scored)
    ensures multiset(Insert(t, x)) == multiset(t) + multiset{x}
  {
    var k := InsertPos(t, x);
    assert t == t[..k] + t[k..];
  }

  /** The ranking is ordered by non-increasing score. */
  lemma {:induction false} SortByScoreSorted(s: seq<Scored>)
    ensures SortedByScore(SortByScore(s))
  {
    if s != [] {
      SortByScoreSorted(s[..|s| - 1]);
      InsertSorted(SortByScore(s[..|s| - 1]), s[|s| - 1]);
    }
  }

  /** The ranking is a permutation of its input: nothing dropped, nothing duplicated. */
  lemma {:induction false} SortByScorePermutes(s: seq<Scored>)
    ensures multiset(SortByScore(s)) == multiset(s)
  {
    if s != [] {
      SortByScorePermutes(s[..|s| - 1]);
      InsertPermutes(SortByScore(s[..|s| - 1]), s[|s| - 1]);
      assert s == s[..|s| - 1] + [s[|s| - 1]];
    }
  }

  /**
   * The sort is stable: the items of any one score appear in the ranking in
   * exactly the order they had in the input.
   */
  lemma {:induction false} SortByScoreStable(s: seq<Scored>, v: real)
    ensures WithScore(SortByScore(s), v) == WithScore(s, v)
  {
    if s != [] {
      SortByScoreStable(s[..|s| - 1], v);
      InsertWithScore(SortByScore(s[..|s| - 1]), s[|s| - 1], v);
    }
  }

  /** An input already in ranking order comes out unchanged. */
  lemma {:induction false} SortByScoreOfSorted(s: seq<Scored>)
    requires SortedByScore(s)
    ensures SortByScore(s) == s
  {
    if s != [] {
      var t := s[..|s| - 1];
      SortByScoreOfSorted(t);
      InsertPosUnique(t, s[|s| - 1], |t|);
      assert s == t + [s[|s| - 1]];
    }
  }

  /** Ranking is idempotent: sorting a ranking again changes nothing. */
  lemma SortByScoreIdempotent(s: seq<Scored>)
    ensures SortByScore(SortByScore(s)) == SortByScore(s)
  {
    SortByScoreSorted(s);
    SortByScoreOfSorted(SortByScore(s));
  }

  /** Sorts `a` in place by descending score, keeping ties in their order. */
  method StableSortByScore(a: array<Scored>)
    modifies a
    ensures a[..] == SortByScore(old(a[..]))
  {
    ghost var input := a[..];
    var i := 0;
    while i < a.Length
      invariant 0 <= i <= a.Length
      invariant a[..i] == SortByScore(input[..i])
      invariant a[i..] == input[i..]
    {
      InsertInPlace(a, i);
      assert input[..i + 1][..i] == input[..i];
      assert a[i + 1..] == input[i + 1..];
      i := i + 1;
    }
    assert input[..a.Length] == input;
  }

  /** One insertion step: moves `a[i]` left past every lower-scoring item of `a[..i]`. */
  method InsertInPlace(a: array<Scored>, i: nat)
    requires i < a.Length
    modifies a
    ensures a[..i + 1] == Insert(old(a[..i]), old(a[i]))
    ensures a[i + 1..] == old(a[i + 1..])
  {
    ghost var sorted := a[..i];
    var x := a[i];
    var j := ShiftLower(a, i);
    a[j] := x;
    InsertedAt(a[..i + 1], sorted, x, j);
  }

  /**
   * Shifts the items of `a[..i]` that score below `a[i]`, found from the
   * right, one place to the right, and returns the hole left for `a[i]`.
   */
  method ShiftLower(a: array<Scored>, i: nat) returns (j: nat)
    requires i < a.Length
    modifies a
    ensures j == InsertPos(old(a[..i]), old(a[i]))
    ensures forall k :: 0 <= k < j ==> a[k] == old(a[k])
    ensures forall k :: j < k <= i ==> a[k] == old(a[k - 1])
    ensures forall k :: i < k < a.Length ==> a[k] == old(a[k])
  {
    ghost var sorted := a[..i];
    var x := a[i];
    j := i;
    while j > 0 && a[j - 1].score < x.score
      invariant 0 <= j <= i
      invariant forall k :: 0 <= k < j ==> a[k] == sorted[k]
      invariant forall k :: j < k <= i ==> a[k] == sorted[k - 1]
      invariant forall k :: i < k < a.Length ==> a[k] == old(a[k])
      invariant forall k :: j <= k < i ==> sorted[k].score < x.score
    {
      a[j] := a[j - 1];
      j := j - 1;
    }
    InsertPosUnique(sorted, x, j);
  }

  /** `InsertPos` is the one place with no lower score before it and only lower scores after. */
  lemma {:induction false} InsertPosUnique(t: seq<Scored>, x: Scored, j: nat)
    requires j <= |t|
    requires j == 0 || t[j - 1].score >= x.score
    requires forall k :: j <= k < |t| ==> t[k].score < x.score
    ensures InsertPos(t, x) == j
    decreases |t|
  {
    if j < |t| {
      var t' := t[..|t| - 1];
      assert j == 0 || t'[j - 1].score >= x.score;
      InsertPosUnique(t', x, j);
    }
  }

  lemma InsertedAt(r: seq<Scored>, t: seq<Scored>, x: Scored, j: nat)
    requires j <= |t| && |r| == |t| + 1
    requires forall k :: 0 <= k < j ==> r[k] == t[k]
    requires r[j] == x
    requires forall k :: j < k < |r| ==> r[k] == t[k - 1]
    ensures r == t[..j] + [x] + t[j..]
  {
  }
}
