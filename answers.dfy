/**
 * The answer record the decision engine keeps for the running session
 * (`userAnswers` in src/engine/decisionEngine.js) and the effect of recording
 * one answer on it.
 */
module Answers {
  import opened Wrappers
  import opened Catalog

  /** The three mandatory questions, the keys `setAnswer` is called with. */
  datatype Question = CategoryQ | MoodQ | FlavorProfileQ

  datatype AnswerState = AnswerState(
    category: Option<Id>, mood: Option<Id>, flavorProfile: Option<Id>,
    unsureCount: nat, extraAnswers: map<Id, Id>)

  /** The taste profile written when the user declines the taste question. */
  const Balanced: Id := "balanced"

  /** JavaScript truthiness of a nullable identifier: null and "" are falsy. */
  predicate Truthy(o: Option<Id>) {
    o.Some? && o.value != ""
  }

  /** The record a session starts with and `resetAnswers` restores. */
  function Initial(): (s: AnswerState)
    ensures s.category.None? && s.mood.None? && s.flavorProfile.None?
    ensures s.unsureCount == 0 && s.extraAnswers == map[]
  {
    AnswerState(None, None, None, 0, map[])
  }

  /** The field a question writes. */
  function Field(s: AnswerState, q: Question): Option<Id> {
    match q
    case CategoryQ => s.category
    case MoodQ => s.mood
    case FlavorProfileQ => s.flavorProfile
  }

  /**
   * `setAnswer(question, answer)`: `None` is the decline ("not sure"), which
   * counts one unsure answer and, for the taste question only, writes
   * "balanced"; any other answer is stored as given, without validation.
   */
  function Record(s: AnswerState, q: Question, answer: Option<Id>): (r: AnswerState)
    ensures r.extraAnswers == s.extraAnswers
    ensures answer.None? ==> r.unsureCount == s.unsureCount + 1
    ensures answer.None? ==> forall p :: Field(r, p) == if p == q == FlavorProfileQ then Some(Balanced) else Field(s, p)
    ensures answer.Some? ==> r.unsureCount == s.unsureCount
    ensures answer.Some? ==> forall p :: Field(r, p) == if p == q then answer else Field(s, p)
  {
    match answer
    case None =>
      var t := s.(unsureCount := s.unsureCount + 1);
      if q == FlavorProfileQ then t.(flavorProfile := Some(Balanced)) else t
    case Some(_) =>
      match q
      case CategoryQ => s.(category := answer)
      case MoodQ => s.(mood := answer)
      case FlavorProfileQ => s.(flavorProfile := answer)
  }

  /** Once the taste question has been answered or declined, the profile is set. */
  lemma AnsweringTasteSetsProfile(s: AnswerState, answer: Option<Id>)
    requires answer.None? || Truthy(answer)
    ensures Truthy(Record(s, FlavorProfileQ, answer).flavorProfile)
  {
  }

  /** Recording answers never lowers the unsure counter. */
  lemma {:induction false} UnsureCountNeverDecreases(s: AnswerState, qs: seq<(Question, Option<Id>)>)
    ensures RecordAll(s, qs).unsureCount >= s.unsureCount
    ensures RecordAll(s, qs).unsureCount == s.unsureCount + |Declines(qs)|
    decreases |qs|
  {
    if qs != [] {
      UnsureCountNeverDecreases(Record(s, qs[0].0, qs[0].1), qs[1..]);
    }
  }

  /** A sequence of `setAnswer` calls. */
  function RecordAll(s: AnswerState, qs: seq<(Question, Option<Id>)>): AnswerState
    decreases |qs|
  {
    if qs == [] then s else RecordAll(Record(s, qs[0].0, qs[0].1), qs[1..])
  }

  /** The declined answers of a sequence of `setAnswer` calls. */
  function Declines(qs: seq<(Question, Option<Id>)>): seq<(Question, Option<Id>)> {
    if qs == [] then [] else (if qs[0].1.None? then [qs[0]] else []) + Declines(qs[1..])
  }
}
