/**
 * A worked example of the whole engine: a one-mood, one-profile catalog with
 * a whisky that matches everything and one that matches only through the
 * "balanced" wildcard.
 */
module Scenario {
  import opened Wrappers
  import opened Catalog
  import opened Answers
  import opened Confidence
  import opened Scoring
  import opened Ranking
  import opened DecisionEngine

  const Peaty := Beverage("peaty", "Brand", "Peaty", "", "whiskey", ["solo"], "bold", ["smoky", "oak"])
  const Smooth := Beverage("smooth", "Brand", "Smooth", "", "whiskey", ["friends"], "balanced", [])

  const Shop := Catalog(
    [Category("whiskey", "")],
    [Mood("solo", "", Some(1))],
    [FlavorProfile("bold", "", ["smoky", "intense"])],
    [Peaty, Smooth])

  const Chosen := AnswerState(Some("whiskey"), Some("solo"), Some("bold"), 0, map[])

  const Bold := FlavorProfile("bold", "", ["smoky", "intense"])
  const PeatyScored := Scored(Peaty, 90.0, 100, 90)
  const SmoothScored := Scored(Smooth, 20.0, 100, 20)

  lemma ShopCandidates()
    ensures Candidates(Shop, Chosen) == [Peaty, Smooth]
  {
    assert BeveragesByCategory([Smooth], "whiskey") == [Smooth];
  }

  lemma ShopProfile()
    ensures WellFormed(Shop)
    ensures ChosenProfile(Shop, Chosen) == Some(Bold)
    ensures MaxScore(Shop, Chosen) == 100
  {
  }

  lemma PeatyTags()
    ensures WellFormed(Shop)
    ensures TagPoints(Shop, Chosen, Peaty.tags) == 10.0
  {
    ShopProfile();
    PeatyMatches();
    assert TagShare(1, 2) == 10.0;
  }

  lemma PeatyMatches()
    ensures MatchingTags(Peaty.tags, Bold.tags) == ["smoky"]
  {
    assert MatchingTags(["oak"], Bold.tags) == [];
  }

  /** Peaty: 40 (mood at index 0) + 40 (exact taste) + 10 (one of the two profile tags). */
  lemma PeatyScore()
    ensures WellFormed(Shop)
    ensures ScoreOf(Shop, Chosen, Peaty) == PeatyScored
  {
    ShopProfile();
    PeatyTags();
    assert IndexOf(Peaty.moods, "solo") == Some(0);
    assert MatchPercentage(90.0, 100) == 90;
  }

  /** Smooth: 0 (mood not listed) + 20 (balanced wildcard) + 0 (no tags). */
  lemma SmoothScore()
    ensures WellFormed(Shop)
    ensures ScoreOf(Shop, Chosen, Smooth) == SmoothScored
  {
    ShopProfile();
    assert IndexOf(Smooth.moods, "solo") == None;
    assert TagPoints(Shop, Chosen, Smooth.tags) == 0.0;
  }

  lemma ShopScored()
    ensures WellFormed(Shop)
    ensures ScoreAll(Shop, Chosen, Candidates(Shop, Chosen)) == [PeatyScored, SmoothScored]
  {
    ShopCandidates();
    PeatyScore();
    SmoothScore();
    var scored := ScoreAll(Shop, Chosen, [Peaty, Smooth]);
    assert scored[0] == PeatyScored;
    assert scored[1] == SmoothScored;
  }

  lemma RankedAlready()
    ensures SortByScore([PeatyScored, SmoothScored]) == [PeatyScored, SmoothScored]
  {
    SortByScoreOfSorted([PeatyScored, SmoothScored]);
  }

  lemma ShopRanking()
    ensures WellFormed(Shop)
    ensures Recommendations(Shop, Chosen) == [PeatyScored, SmoothScored]
  {
    ShopScored();
    RankedAlready();
  }

  lemma ShopResultCount()
    ensures ResultCount(Shop, Chosen.mood) == 1
  {
    assert FindMood(Shop.moods, Some("solo")) == Some(Mood("solo", "", Some(1)));
  }

  lemma ChosenConfidence()
    ensures ConfidenceOf(Chosen) == 100 && ConfidenceLevel(ConfidenceOf(Chosen)) == High
  {
    assert RawConfidence(Chosen) == 100;
  }

  /**
   * The ranking is Peaty (90%) before Smooth (20%); mood "solo" asks for one
   * result; nothing is missing or declined, so confidence is 100, tier "high".
   */
  lemma EndToEnd()
    ensures WellFormed(Shop)
    ensures Recommendations(Shop, Chosen) == [PeatyScored, SmoothScored]
    ensures ResultCount(Shop, Chosen.mood) == 1
    ensures SlicePrefix(Recommendations(Shop, Chosen), ResultCount(Shop, Chosen.mood)) == [PeatyScored]
    ensures ConfidenceOf(Chosen) == 100 && ConfidenceLevel(ConfidenceOf(Chosen)) == High
  {
    ShopRanking();
    ShopResultCount();
    ChosenConfidence();
    assert SlicePrefix([PeatyScored, SmoothScored], 1) == [PeatyScored];
  }
}
