/**
 * The confidence calculator (src/engine/confidence.js): a score in [20, 100]
 * derived from how much of the questionnaire was answered, its five tiers,
 * the gate for supplementary questions and the list of those questions.
 */
module Confidence {
  import opened Wrappers
  import opened Catalog
  import opened Answers

  /**
   * The unclamped confidence: 100, minus 15 per declined question, minus 20
   * for no category, 15 for no mood and 15 for no taste profile, plus 5 per
   * supplementary answer.
   */
  function RawConfidence(a: AnswerState): (r: int)
    ensures r <= 100 - 15 * a.unsureCount + 5 * |a.extraAnswers|
    ensures r == 100 - 15 * a.unsureCount + 5 * |a.extraAnswers|
            <==> Truthy(a.category) && Truthy(a.mood) && Truthy(a.flavorProfile)
  {
    100 - 15 * a.unsureCount
    - (if Truthy(a.category) then 0 else 20)
    - (if Truthy(a.mood) then 0 else 15)
    - (if Truthy(a.flavorProfile) then 0 else 15)
    + 5 * |a.extraAnswers|
  }

  /** `Math.max(20, Math.min(100, x))` */
  function Clamp(x: int): (r: int)
    ensures 20 <= r <= 100
    ensures 20 <= x <= 100 ==> r == x
    ensures x < 20 ==> r == 20
    ensures x > 100 ==> r == 100
  {
    if x < 20 then 20 else if x > 100 then 100 else x
  }

  /** The confidence `calculateConfidence` returns for an answer record. */
  function ConfidenceOf(a: AnswerState): int {
    Clamp(RawConfidence(a))
  }

  /** `calculateConfidence(answers)`, adjusting a running score step by step. */
  method CalculateConfidence(a: AnswerState) returns (confidence: int)
    ensures confidence == ConfidenceOf(a)
    ensures 20 <= confidence <= 100
  {
    confidence := 100;
    confidence := confidence - a.unsureCount * 15;
    if !Truthy(a.category) {
      confidence := confidence - 20;
    }
    if !Truthy(a.mood) {
      confidence := confidence - 15;
    }
    if !Truthy(a.flavorProfile) {
      confidence := confidence - 15;
    }
    var extraAnswerCount := |a.extraAnswers|;
    confidence := confidence + extraAnswerCount * 5;
    confidence := if 100 < confidence then 100 else confidence;
    confidence := if confidence < 20 then 20 else confidence;
  }

  /** One more declined question, everything else fixed, never raises confidence. */
  lemma DeclineNeverRaises(a: AnswerState)
    ensures ConfidenceOf(a.(unsureCount := a.unsureCount + 1)) <= ConfidenceOf(a)
    ensures ConfidenceOf(a.(unsureCount := a.unsureCount + 1)) == Clamp(RawConfidence(a) - 15)
  {
  }

  /** One more supplementary answer, everything else fixed, never lowers confidence. */
  lemma ExtraAnswerNeverLowers(a: AnswerState, question: Id, option: Id)
    requires question !in a.extraAnswers
    ensures ConfidenceOf(a.(extraAnswers := a.extraAnswers[question := option])) >= ConfidenceOf(a)
    ensures ConfidenceOf(a.(extraAnswers := a.extraAnswers[question := option])) == Clamp(RawConfidence(a) + 5)
  {
    assert a.extraAnswers[question := option].Keys == a.extraAnswers.Keys + {question};
  }

  /** Three answered questions, no decline and no extras: full confidence. */
  lemma FullyAnsweredIsFull(a: AnswerState)
    requires Truthy(a.category) && Truthy(a.mood) && Truthy(a.flavorProfile)
    requires a.unsureCount == 0 && a.extraAnswers == map[]
    ensures ConfidenceOf(a) == 100
  {
  }

  /** A fresh session scores 100 - 20 - 15 - 15 = 50. */
  lemma InitialConfidence()
    ensures ConfidenceOf(Initial()) == 50
  {
  }

  /**
   * Declining the taste question while it is unanswered costs 15 for the
   * decline and saves 15 for the missing profile: confidence is unchanged.
   */
  lemma DecliningUnansweredTasteIsNeutral(a: AnswerState)
    requires !Truthy(a.flavorProfile)
    ensures ConfidenceOf(Record(a, FlavorProfileQ, None)) == ConfidenceOf(a)
  {
  }

  /** Declining any question never raises confidence. */
  lemma DeclineRecordNeverRaises(a: AnswerState, q: Question)
    ensures ConfidenceOf(Record(a, q, None)) <= ConfidenceOf(a)
  {
  }

  /** A non-empty explicit answer never lowers confidence. */
  lemma ExplicitAnswerNeverLowers(a: AnswerState, q: Question, answer: Id)
    requires answer != ""
    ensures ConfidenceOf(Record(a, q, Some(answer))) >= ConfidenceOf(a)
  {
  }

  datatype Tier = High | Good | Moderate | Uncertain | Low

  /** `getConfidenceLevel(confidence).level`, thresholds checked from the top. */
  function ConfidenceLevel(confidence: int): (tier: Tier)
    ensures tier == High <==> 90 <= confidence
    ensures tier == Good <==> 75 <= confidence < 90
    ensures tier == Moderate <==> 60 <= confidence < 75
    ensures tier == Uncertain <==> 40 <= confidence < 60
    ensures tier == Low <==> confidence < 40
  {
    if confidence >= 90 then High
    else if confidence >= 75 then Good
    else if confidence >= 60 then Moderate
    else if confidence >= 40 then Uncertain
    else Low
  }

  /** The tiers in order, lowest first. */
  function Rank(t: Tier): nat {
    match t
    case Low => 0
    case Uncertain => 1
    case Moderate => 2
    case Good => 3
    case High => 4
  }

  /** A higher score never falls in a lower tier. */
  lemma LevelMonotone(c1: int, c2: int)
    requires c1 <= c2
    ensures Rank(ConfidenceLevel(c1)) <= Rank(ConfidenceLevel(c2))
  {
  }

  /** `needsExtraQuestions(confidence)`: the gate for supplementary questions. */
  predicate NeedsExtraQuestions(confidence: int) {
    confidence < 80
  }

  /** Since 80 lies inside the clamp range, the gate can be read on the raw score. */
  lemma NeedsExtraOnRaw(a: AnswerState)
    ensures NeedsExtraQuestions(ConfidenceOf(a)) <==> RawConfidence(a) < 80
  {
  }

  lemma GateBoundary()
    ensures NeedsExtraQuestions(79) && !NeedsExtraQuestions(80)
  {
  }

  /** The gate fires exactly below the middle of the "good" tier. */
  lemma GateAgainstTiers(c: int)
    ensures NeedsExtraQuestions(c) ==> ConfidenceLevel(c) != High
    ensures ConfidenceLevel(c) in {Moderate, Uncertain, Low} ==> NeedsExtraQuestions(c)
  {
  }

  /** The supplementary questions, by id. */
  datatype ExtraQuestion = PriceRange | Experience | WineColor | Smoky

  predicate CategorySpecific(q: ExtraQuestion) {
    q == WineColor || q == Smoky
  }

  /** `getRequiredExtraQuestions(answers)`, pushing the questions in order. */
  method RequiredExtraQuestions(a: AnswerState) returns (questions: seq<ExtraQuestion>)
    ensures 1 <= |questions| <= 3
    ensures questions[0] == PriceRange
    ensures Experience in questions <==> a.unsureCount > 0
    ensures WineColor in questions <==> a.category == Some("wine")
    ensures Smoky in questions <==> a.category == Some("whiskey")
    ensures forall i :: 0 <= i < |questions| && CategorySpecific(questions[i]) ==> i == |questions| - 1
    ensures forall i, j :: 0 <= i < j < |questions| ==> questions[i] != questions[j]
  {
    questions := [];
    questions := questions + [PriceRange];
    if a.unsureCount > 0 {
      questions := questions + [Experience];
    }
    if a.category == Some("wine") {
      questions := questions + [WineColor];
    }
    if a.category == Some("whiskey") {
      questions := questions + [Smoky];
    }
  }
}
