/**
 * How `getRecommendations` scores one candidate beverage against the answer
 * record: a mood part (up to 40), a taste part (up to 40), a tag part (up to
 * 20), the ceiling `maxScore` and the rounded `matchPercentage`.
 */
module Scoring {
  import opened Wrappers
  import opened Catalog
  import opened Answers

  /** A beverage with the fields the scoring pass adds to it. */
  datatype Scored = Scored(beverage: Beverage, score: real, maxScore: int, matchPercentage: int)

  /** `s.indexOf(x)`: the first position of `x`, absent when `x` is not listed. */
  function IndexOf(s: seq<Id>, x: Id): (r: Option<nat>)
    ensures r.None? <==> x !in s
    ensures r.Some? ==> r.value < |s| && s[r.value] == x && x !in s[..r.value]
  {
    if s == [] then None
    else if s[0] == x then Some(0)
    else
      var r := IndexOf(s[1..], x);
      assert s == [s[0]] + s[1..];
      if r.Some? then
        assert s[..r.value + 1] == [s[0]] + s[1..][..r.value];
        Some(r.value + 1)
      else None
  }

  /** Mood part: 40 - 5 * (first index of the mood), with no floor. */
  function MoodPoints(mood: Option<Id>, moods: seq<Id>): (r: int)
    ensures !Truthy(mood) || mood.value !in moods ==> r == 0
    ensures Truthy(mood) && mood.value in moods ==> r == 40 - 5 * IndexOf(moods, mood.value).value
    ensures r <= 40
  {
    if Truthy(mood) then
      match IndexOf(moods, mood.value)
      case Some(i) => 40 - 5 * i
      case None => 0
    else 0
  }

  /** Taste part: an exact match, else a partial match through "balanced". */
  function TastePoints(chosen: Option<Id>, profile: Id): (r: int)
    ensures !Truthy(chosen) ==> r == 0
    ensures Truthy(chosen) ==> (r == 40 <==> chosen.value == profile)
    ensures Truthy(chosen) ==> (r == 20 <==> chosen.value != profile && (chosen.value == Balanced || profile == Balanced))
    ensures r == 0 || r == 20 || r == 40
  {
    if Truthy(chosen) then
      if profile == chosen.value then 40
      else if chosen.value == Balanced || profile == Balanced then 20
      else 0
    else 0
  }

  /** `tags.filter(t => profileTags.includes(t))`, duplicates included. */
  function MatchingTags(tags: seq<Id>, profileTags: seq<Id>): (r: seq<Id>)
    ensures forall t :: multiset(r)[t] == if t in profileTags then multiset(tags)[t] else 0
    ensures |r| <= |tags|
  {
    if tags == [] then []
    else
      assert tags == [tags[0]] + tags[1..];
      (if tags[0] in profileTags then [tags[0]] else []) + MatchingTags(tags[1..], profileTags)
  }

  /** The taste profile record of the chosen profile, if the catalog has one. */
  function ChosenProfile(c: Catalog, a: AnswerState): Option<FlavorProfile> {
    FindProfile(c.flavorProfiles, a.flavorProfile)
  }

  /** Tag part: 20 times the share of the profile's tags the beverage carries. */
  function TagPoints(c: Catalog, a: AnswerState, tags: seq<Id>): (r: real)
    requires WellFormed(c)
    ensures ChosenProfile(c, a).None? ==> r == 0.0
    ensures 0.0 <= r
  {
    match ChosenProfile(c, a)
    case None => 0.0
    case Some(p) =>
      TagShare(|MatchingTags(tags, p.tags)|, |p.tags|)
  }

  /** 20 points times the share `matched / total` of the profile's tags. */
  function TagShare(matched: nat, total: nat): (r: real)
    requires 0 < total
    ensures 0.0 <= r
    ensures matched <= total ==> r <= 20.0
    ensures matched == total ==> r == 20.0
  {
    var share := matched as real / total as real;
    RatioBounds(matched as real, total as real);
    share * 20.0
  }

  /** A non-negative ratio whose numerator does not exceed its denominator lies in [0, 1]. */
  lemma RatioBounds(x: real, y: real)
    requires 0.0 < y
    ensures 0.0 <= x ==> 0.0 <= x / y
    ensures x <= y ==> x / y <= 1.0
    ensures x == y ==> x / y == 1.0
  {
    var q := x / y;
    assert q * y == x;
    if q < 0.0 {
      ProductPositive(-q, y);
    }
    if q < 1.0 {
      ProductPositive(1.0 - q, y);
    }
    if q > 1.0 {
      ProductPositive(q - 1.0, y);
    }
  }

  lemma ProductPositive(a: real, b: real)
    requires 0.0 < a && 0.0 < b
    ensures 0.0 < a * b
  {
  }

  /** The ceiling: 40 per answered mood and taste, 20 when the profile is in the catalog. */
  function MaxScore(c: Catalog, a: AnswerState): (r: int)
    ensures 0 <= r <= 100
    ensures r == 0 <==> !Truthy(a.mood) && !Truthy(a.flavorProfile) && ChosenProfile(c, a).None?
  {
    (if Truthy(a.mood) then 40 else 0)
    + (if Truthy(a.flavorProfile) then 40 else 0)
    + (if ChosenProfile(c, a).Some? then 20 else 0)
  }

  /** JavaScript's `Math.round`: the nearest integer, halves rounded up. */
  function Round(x: real): (r: int)
    ensures r as real - 0.5 <= x < r as real + 0.5
  {
    (x + 0.5).Floor
  }

  /** `maxScore > 0 ? Math.round((score / maxScore) * 100) : 50` */
  function MatchPercentage(score: real, maxScore: int): (r: int)
    ensures maxScore <= 0 ==> r == 50
    ensures maxScore > 0 ==> r as real - 0.5 <= (score / maxScore as real) * 100.0 < r as real + 0.5
    ensures maxScore > 0 && 0.0 <= score <= maxScore as real ==> 0 <= r <= 100
  {
    if maxScore > 0 then
      var pct := (score / maxScore as real) * 100.0;
      assert 0.0 <= score <= maxScore as real ==> 0.0 <= pct <= 100.0 by {
        RatioBounds(score, maxScore as real);
      }
      Round(pct)
    else 50
  }

  /** The scored record `getRecommendations` builds for one candidate. */
  function ScoreOf(c: Catalog, a: AnswerState, b: Beverage): (r: Scored)
    requires WellFormed(c)
    ensures r.beverage == b
    ensures r.maxScore == MaxScore(c, a)
    ensures r.matchPercentage == MatchPercentage(r.score, r.maxScore)
  {
    var score := MoodPoints(a.mood, b.moods) as real
                 + TastePoints(a.flavorProfile, b.flavorProfile) as real
                 + TagPoints(c, a, b.tags);
    var maxScore := MaxScore(c, a);
    Scored(b, score, maxScore, MatchPercentage(score, maxScore))
  }

  /** No element is listed twice. */
  predicate Distinct(s: seq<Id>) {
    forall i, j :: 0 <= i < j < |s| ==> s[i] != s[j]
  }

  lemma {:induction false} DistinctCardinality(s: seq<Id>)
    requires Distinct(s)
    ensures |set x | x in s| == |s|
  {
    if s != [] {
      DistinctCardinality(s[1..]);
      assert (set x | x in s) == {s[0]} + (set x | x in s[1..]);
      assert s[0] !in s[1..];
    }
  }

  lemma {:induction false} SetCardinalityAtMostLength(s: seq<Id>)
    ensures |set x | x in s| <= |s|
  {
    if s != [] {
      SetCardinalityAtMostLength(s[1..]);
      assert (set x | x in s) == {s[0]} + (set x | x in s[1..]);
    }
  }

  lemma {:induction false} MatchingTagsDistinct(tags: seq<Id>, profileTags: seq<Id>)
    requires Distinct(tags)
    ensures Distinct(MatchingTags(tags, profileTags))
  {
    if tags != [] {
      MatchingTagsDistinct(tags[1..], profileTags);
      var rest := MatchingTags(tags[1..], profileTags);
      assert multiset(rest)[tags[0]] == 0 by {
        assert tags[0] !in tags[1..];
      }
      assert tags[0] !in rest;
    }
  }

  /** A beverage with distinct tags matches at most as many tags as the profile lists. */
  lemma MatchingAtMostProfile(tags: seq<Id>, profileTags: seq<Id>)
    requires Distinct(tags)
    ensures |MatchingTags(tags, profileTags)| <= |profileTags|
  {
    var m := MatchingTags(tags, profileTags);
    MatchingTagsDistinct(tags, profileTags);
    DistinctCardinality(m);
    SetCardinalityAtMostLength(profileTags);
    var ms, ps := set x | x in m, set x | x in profileTags;
    assert ms <= ps by {
      forall x | x in ms ensures x in ps {
        assert multiset(m)[x] > 0;
      }
    }
    SubsetCardinality(ms, ps);
  }

  lemma SubsetCardinality(a: set<Id>, b: set<Id>)
    requires a <= b
    ensures |a| <= |b|
  {
    assert b == a + (b - a);
  }

  /**
   * With no tag listed twice on the beverage, the tag share is at most one,
   * so the tag part stays within its 20 points.
   */
  lemma TagPointsAtMostTwenty(c: Catalog, a: AnswerState, tags: seq<Id>)
    requires WellFormed(c)
    requires Distinct(tags)
    ensures TagPoints(c, a, tags) <= 20.0
  {
    match ChosenProfile(c, a)
    case None =>
    case Some(p) =>
      MatchingAtMostProfile(tags, p.tags);
  }

  /**
   * With distinct beverage tags the score never exceeds the ceiling, and when
   * the mood is not listed beyond index 8 it is not negative either, so the
   * percentage lies in [0, 100].
   */
  lemma ScoreWithinCeiling(c: Catalog, a: AnswerState, b: Beverage)
    requires WellFormed(c)
    requires Distinct(b.tags)
    requires Truthy(a.mood) && a.mood.value in b.moods ==> IndexOf(b.moods, a.mood.value).value <= 8
    ensures 0.0 <= ScoreOf(c, a, b).score <= MaxScore(c, a) as real
    ensures MaxScore(c, a) > 0 ==> 0 <= ScoreOf(c, a, b).matchPercentage <= 100
  {
    TagPointsAtMostTwenty(c, a, b.tags);
  }

  /** The mood part has no floor: a mood listed tenth scores -5. */
  lemma MoodPointsCanBeNegative()
    ensures MoodPoints(Some("solo"), ["a", "b", "c", "d", "e", "f", "g", "h", "i", "solo"]) == -5
  {
    var moods := ["a", "b", "c", "d", "e", "f", "g", "h", "i", "solo"];
    assert moods[9] == "solo";
  }

  /** With nothing answered that the scoring reads, every percentage is 50. */
  lemma NothingAnsweredGivesFifty(c: Catalog, a: AnswerState, b: Beverage)
    requires WellFormed(c)
    requires !Truthy(a.mood) && !Truthy(a.flavorProfile) && a.flavorProfile.None?
    ensures ScoreOf(c, a, b).matchPercentage == 50
    ensures ScoreOf(c, a, b).score == 0.0
  {
  }
}
