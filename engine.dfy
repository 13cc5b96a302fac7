/**
 * The decision engine (src/engine/decisionEngine.js): the session's answer
 * record, the scoring and ranking of the catalog, the result count and the
 * packaged final results.
 */
module DecisionEngine {
  import opened Wrappers
  import opened Catalog
  import opened Answers
  import opened Confidence
  import opened Scoring
  import opened Ranking

  /** The category filter: only a chosen (truthy) category restricts the candidates. */
  predicate Selected(a: AnswerState, b: Beverage) {
    !Truthy(a.category) || b.category == a.category.value
  }

  /** The candidates: the chosen category's beverages, or the whole catalog when none is chosen. */
  function Candidates(c: Catalog, a: AnswerState): (r: seq<Beverage>)
    ensures forall b :: multiset(r)[b] == if Selected(a, b) then multiset(c.beverages)[b] else 0
  {
    if Truthy(a.category) then BeveragesByCategory(c.beverages, a.category.value) else c.beverages
  }

  /**
   * The candidates keep catalog order: a beverage appended to the catalog is
   * appended to the candidates when it passes the filter, and dropped otherwise.
   */
  lemma CandidatesAppend(c: Catalog, a: AnswerState, b: Beverage)
    ensures Candidates(c.(beverages := c.beverages + [b]), a)
            == Candidates(c, a) + (if Selected(a, b) then [b] else [])
  {
    if Truthy(a.category) {
      BeveragesByCategoryAppend(c.beverages, b, a.category.value);
    }
  }

  /** `candidates.map(...)`: every candidate scored, in catalog order. */
  function ScoreAll(c: Catalog, a: AnswerState, bs: seq<Beverage>): (r: seq<Scored>)
    requires WellFormed(c)
    ensures |r| == |bs|
    ensures forall i :: 0 <= i < |bs| ==> r[i] == ScoreOf(c, a, bs[i])
  {
    seq(|bs|, i requires 0 <= i < |bs| => ScoreOf(c, a, bs[i]))
  }

  /** What `getRecommendations` returns for an answer record. */
  function Recommendations(c: Catalog, a: AnswerState): (r: seq<Scored>)
    requires WellFormed(c)
    ensures |r| == |Candidates(c, a)|
  {
    SortByScore(ScoreAll(c, a, Candidates(c, a)))
  }

  /** The beverages of a ranking, in order. */
  function Beverages(s: seq<Scored>): (r: seq<Beverage>)
    ensures |r| == |s| && forall i :: 0 <= i < |s| ==> r[i] == s[i].beverage
  {
    seq(|s|, i requires 0 <= i < |s| => s[i].beverage)
  }

  /** The ranking is ordered by non-increasing score. */
  lemma RecommendationsSorted(c: Catalog, a: AnswerState)
    requires WellFormed(c)
    ensures SortedByScore(Recommendations(c, a))
  {
    SortByScoreSorted(ScoreAll(c, a, Candidates(c, a)));
  }

  /**
   * Beverages with equal scores keep their candidate order, which is their
   * catalog order (`CandidatesAppend`).
   */
  lemma RecommendationsStable(c: Catalog, a: AnswerState, v: real)
    requires WellFormed(c)
    ensures WithScore(Recommendations(c, a), v) == WithScore(ScoreAll(c, a, Candidates(c, a)), v)
  {
    SortByScoreStable(ScoreAll(c, a, Candidates(c, a)), v);
  }

  /** When every item naming `x`'s beverage is `x`, counting beverages counts `x`. */
  lemma {:induction false} CountByKey(s: seq<Scored>, x: Scored)
    requires forall i :: 0 <= i < |s| && s[i].beverage == x.beverage ==> s[i] == x
    ensures multiset(Beverages(s))[x.beverage] == multiset(s)[x]
  {
    if s != [] {
      var t, last := s[..|s| - 1], s[|s| - 1];
      assert forall i :: 0 <= i < |t| ==> t[i] == s[i];
      CountByKey(t, x);
      assert s == t + [last];
      assert Beverages(s) == Beverages(t) + [last.beverage];
      assert multiset(s) == multiset(t) + multiset{last};
      assert multiset(Beverages(s)) == multiset(Beverages(t)) + multiset{last.beverage};
    }
  }

  lemma CountByBeverage(c: Catalog, a: AnswerState, s: seq<Scored>, b: Beverage)
    requires WellFormed(c)
    requires forall i :: 0 <= i < |s| ==> s[i] == ScoreOf(c, a, s[i].beverage)
    ensures multiset(Beverages(s))[b] == multiset(s)[ScoreOf(c, a, b)]
  {
    CountByKey(s, ScoreOf(c, a, b));
  }

  /** Ranking permutes the scored candidates. */
  lemma RecommendationsPermute(c: Catalog, a: AnswerState)
    requires WellFormed(c)
    ensures multiset(Recommendations(c, a)) == multiset(ScoreAll(c, a, Candidates(c, a)))
    ensures |Recommendations(c, a)| == |Candidates(c, a)|
  {
    var all := ScoreAll(c, a, Candidates(c, a));
    SortByScorePermutes(all);
    assert |multiset(Recommendations(c, a))| == |multiset(all)|;
  }

  /** Every ranked item is a candidate carrying its own score. */
  lemma RecommendationsScored(c: Catalog, a: AnswerState)
    requires WellFormed(c)
    ensures forall x :: x in Recommendations(c, a) ==> x == ScoreOf(c, a, x.beverage) && Selected(a, x.beverage)
  {
    var cands := Candidates(c, a);
    var all := ScoreAll(c, a, cands);
    RecommendationsPermute(c, a);
    forall x | x in Recommendations(c, a) ensures x == ScoreOf(c, a, x.beverage) && Selected(a, x.beverage) {
      assert x in multiset(all);
      var i :| 0 <= i < |all| && all[i] == x;
      assert multiset(cands)[cands[i]] > 0;
    }
  }

  /**
   * The ranking holds exactly the candidates, each as often as in the
   * catalog (none dropped, none duplicated).
   */
  lemma RecommendationsAreCandidates(c: Catalog, a: AnswerState)
    requires WellFormed(c)
    ensures forall b :: multiset(Beverages(Recommendations(c, a)))[b] == if Selected(a, b) then multiset(c.beverages)[b] else 0
  {
    var cands := Candidates(c, a);
    var all := ScoreAll(c, a, cands);
    var r := Recommendations(c, a);
    RecommendationsPermute(c, a);
    RecommendationsScored(c, a);
    assert Beverages(all) == cands;
    forall b ensures multiset(Beverages(r))[b] == multiset(cands)[b] {
      CountByBeverage(c, a, r, b);
      CountByBeverage(c, a, all, b);
    }
  }

  /** With no mood, no taste profile and so no profile record, every match is 50%. */
  lemma NothingAnsweredAllFifty(c: Catalog, a: AnswerState)
    requires WellFormed(c)
    requires !Truthy(a.mood) && a.flavorProfile.None?
    ensures forall x :: x in Recommendations(c, a) ==> x.matchPercentage == 50
  {
    RecommendationsScored(c, a);
  }

  /** `moodData?.resultCount || 2`: an absent mood, an absent count and a count of 0 all give 2. */
  function ResultCount(c: Catalog, mood: Option<Id>): (n: int)
    ensures n != 0
    ensures FindMood(c.moods, mood).None? ==> n == 2
    ensures FindMood(c.moods, mood).Some? ==>
      var m := FindMood(c.moods, mood).value;
      n == if m.resultCount.Some? && m.resultCount.value != 0 then m.resultCount.value else 2
  {
    match FindMood(c.moods, mood)
    case None => 2
    case Some(m) =>
      match m.resultCount
      case Some(k) => if k != 0 then k else 2
      case None => 2
  }

  /** `s.slice(0, end)`: a negative end counts from the back. */
  function SlicePrefix(s: seq<Scored>, end: int): (r: seq<Scored>)
    ensures |r| == if 0 <= end then (if end < |s| then end else |s|) else (if 0 <= |s| + end then |s| + end else 0)
    ensures r == s[..|r|]
  {
    if 0 <= end then s[..if end < |s| then end else |s|]
    else s[..if 0 <= |s| + end then |s| + end else 0]
  }

  /** What `getFinalResults` returns. */
  datatype FinalResults = FinalResults(
    recommendations: seq<Scored>, allRecommendations: seq<Scored>,
    confidence: int, needsExtraQuestions: bool, answers: AnswerState)

  /**
   * The shortlist is the top of the ranking: with a positive count it holds
   * `min(count, n)` items, and none of the rest scores higher.
   */
  lemma ShortlistIsTop(c: Catalog, a: AnswerState)
    requires WellFormed(c)
    ensures var all := Recommendations(c, a);
            var n := ResultCount(c, a.mood);
            var top := SlicePrefix(all, n);
            && (0 < n ==> |top| == if n < |all| then n else |all|)
            && top == all[..|top|]
            && forall i, j :: 0 <= i < |top| <= j < |all| ==> top[i].score >= all[j].score
  {
    RecommendationsSorted(c, a);
  }

  /** The decision engine with its one mutable answer record. */
  class Engine {
    const catalog: Catalog
    var answers: AnswerState

    constructor(catalog: Catalog)
      ensures this.catalog == catalog
      ensures answers == Initial()
    {
      this.catalog := catalog;
      answers := Initial();
    }

    /** `resetAnswers()`: back to the fresh record; a second call changes nothing more. */
    method ResetAnswers()
      modifies this
      ensures answers == Initial()
    {
      answers := AnswerState(None, None, None, 0, map[]);
    }

    /** `setAnswer(question, answer)`, `None` being the decline. */
    method SetAnswer(question: Question, answer: Option<Id>)
      modifies this
      ensures answers == Record(old(answers), question, answer)
      ensures answers.unsureCount >= old(answers.unsureCount)
    {
      if answer.None? {
        answers := answers.(unsureCount := answers.unsureCount + 1);
        if question == FlavorProfileQ {
          answers := answers.(flavorProfile := Some(Balanced));
        }
      } else {
        match question
        case CategoryQ => answers := answers.(category := answer);
        case MoodQ => answers := answers.(mood := answer);
        case FlavorProfileQ => answers := answers.(flavorProfile := answer);
      }
    }

    /** `getAnswers()`: a copy the caller may change without reaching the engine. */
    method GetAnswers() returns (copy: AnswerState)
      ensures copy == answers
    {
      copy := answers;
    }

    /** The callback of `candidates.map`: builds up `score` and `maxScore` part by part. */
    method ScoreCandidate(b: Beverage) returns (s: Scored)
      requires WellFormed(catalog)
      ensures s == ScoreOf(catalog, answers, b)
    {
      var score: real := 0.0;
      var maxScore := 0;
      var mood, flavorProfile := answers.mood, answers.flavorProfile;
      if Truthy(mood) {
        maxScore := maxScore + 40;
        var moodIndex := IndexOf(b.moods, mood.value);
        if moodIndex.Some? {
          score := score + (40 - moodIndex.value as int * 5) as real;
        }
      }
      assert score == MoodPoints(mood, b.moods) as real;
      if Truthy(flavorProfile) {
        maxScore := maxScore + 40;
        if b.flavorProfile == flavorProfile.value {
          score := score + 40.0;
        } else if flavorProfile.value == Balanced || b.flavorProfile == Balanced {
          score := score + 20.0;
        }
      }
      assert score == MoodPoints(mood, b.moods) as real + TastePoints(flavorProfile, b.flavorProfile) as real;
      var profileData := FindProfile(catalog.flavorProfiles, flavorProfile);
      if profileData.Some? {
        maxScore := maxScore + 20;
        var matchingTags := MatchingTags(b.tags, profileData.value.tags);
        assert exists i :: 0 <= i < |catalog.flavorProfiles| && catalog.flavorProfiles[i] == profileData.value;
        score := score + (|matchingTags| as real / |profileData.value.tags| as real) * 20.0;
      }
      assert score == ScoreOf(catalog, answers, b).score;
      assert maxScore == MaxScore(catalog, answers);
      var matchPercentage := if maxScore > 0 then Round((score / maxScore as real) * 100.0) else 50;
      s := Scored(b, score, maxScore, matchPercentage);
    }

    /** `getRecommendations()`: filter, score each candidate, then sort in place. */
    method GetRecommendations() returns (ranked: seq<Scored>)
      requires WellFormed(catalog)
      ensures ranked == Recommendations(catalog, answers)
    {
      var candidates := Candidates(catalog, answers);
      var scored := ScoreCandidates(candidates);
      StableSortByScore(scored);
      ranked := scored[..];
    }

    /** `candidates.map(...)`: one scored record per candidate, in candidate order. */
    method ScoreCandidates(candidates: seq<Beverage>) returns (scored: array<Scored>)
      requires WellFormed(catalog)
      ensures fresh(scored)
      ensures scored[..] == ScoreAll(catalog, answers, candidates)
    {
      ghost var expected := ScoreAll(catalog, answers, candidates);
      scored := new Scored[|candidates|];
      for i := 0 to |candidates|
        invariant scored[..i] == expected[..i]
      {
        var s := ScoreCandidate(candidates[i]);
        assert s == expected[i];
        scored[i] := s;
        assert scored[..i + 1] == expected[..i] + [s];
      }
      assert scored[..] == scored[..|candidates|];
    }

    /** `getFinalResults()` */
    method GetFinalResults() returns (r: FinalResults)
      requires WellFormed(catalog)
      ensures r.allRecommendations == Recommendations(catalog, answers)
      ensures r.recommendations == SlicePrefix(r.allRecommendations, ResultCount(catalog, answers.mood))
      ensures r.confidence == ConfidenceOf(answers) && 20 <= r.confidence <= 100
      ensures r.needsExtraQuestions <==> r.confidence < 80
      ensures r.answers == answers
    {
      var recommendations := GetRecommendations();
      var resultCount := ResultCount(catalog, answers.mood);
      var confidence := CalculateConfidence(answers);
      r := FinalResults(SlicePrefix(recommendations, resultCount), recommendations,
                        confidence, confidence < 80, answers);
    }

    /**
     * The result screen's use of the engine: it overwrites `extraAnswers` on
     * the copy from `getAnswers()` and then asks for the final results, which
     * still see the engine's own, unchanged record.
     */
    method ResultWithExtras(extraAnswers: map<Id, Id>) returns (r: FinalResults)
      requires WellFormed(catalog)
      ensures r.answers == answers
      ensures r.confidence == ConfidenceOf(answers)
    {
      var copy := GetAnswers();
      copy := copy.(extraAnswers := extraAnswers);
      r := GetFinalResults();
    }
  }
}
