# SAKİ recommendation core in Dafny

This project models the decision core of the SAKİ drink-recommendation app:

- **Decision engine** (`src/engine/decisionEngine.js`). The engine keeps one
  mutable answer record for the running session. Category, mood and taste
  profile are each a nullable id; there is also an "unsure" counter and a map
  of supplementary answers. `setAnswer` updates the record and
  `resetAnswers` restores it.
- **Scoring.** `getRecommendations` filters the static catalog by the chosen
  category and scores each candidate:
  - mood: `40 - 5 * first index`;
  - taste: 40 for an exact match, 20 through the "balanced" wildcard, else 0;
  - tags: 20 times the share of the chosen profile's tags the beverage
    carries.
  Each candidate also gets a ceiling `maxScore` and a rounded
  `matchPercentage`. The list is then stable-sorted by descending score.
- **Results.** `getResultCount` and `getFinalResults` cut the shortlist and
  package it with the confidence.
- **Confidence calculator** (`src/engine/confidence.js`). A score clamped to
  [20, 100], its five tiers, the `< 80` gate for supplementary questions, and
  the ordered list of those questions.
- **Translation lookup** (`src/i18n/translations.js`).
  - `t(key)` splits a dotted key, walks the current language's nested table
    and falls back to the key on any miss.
  - The three name helpers are built on `t`.
  - The current language is one mutable setting.

Modules, one per concern:

| file | module | contents |
|---|---|---|
| `wrappers.dfy` | `Wrappers` | `Option` |
| `catalog.dfy` | `Catalog` | catalog datatypes, `getBeveragesByCategory`, `getBeverageById`, the mood and profile lookups |
| `answers.dfy` | `Answers` | the answer record and `Record`, the specification of `setAnswer` |
| `confidence.dfy` | `Confidence` | the confidence calculator |
| `scoring.dfy` | `Scoring` | the per-candidate score parts, `maxScore`, `matchPercentage` |
| `ranking.dfy` | `Ranking` | the stable descending sort |
| `engine.dfy` | `DecisionEngine` | the `Engine` class with its `answers` field, and the result packaging |
| `translations.dfy` | `Translations` | the table, `t`, the name helpers and the `Translator` class |
| `scenario.dfy` | `Scenario` | a worked example of the whole engine |

How the model represents the source:

- **Scores.** Scores are `real`. JavaScript's `Math.round(x)` is
  `Floor(x + 0.5)`.
- **Nullable ids.** A nullable id is an `Option<string>`. JavaScript
  truthiness makes `null` and `""` falsy.
- **Sorting.** The ranking is specified by a functional insertion sort,
  `SortByScore`. The engine performs the sort in place on an array,
  `StableSortByScore`, and that method is proved equal to the specification.
- **The unguarded tag division.** `src/engine/decisionEngine.js:126` divides
  by the profile's tag count with no guard. The model therefore requires every
  taste profile to have at least one tag (`WellFormed`) before it scores.
- **A configured result count of 0.** `resultCount || 2`
  (`src/engine/decisionEngine.js:155`) turns a configured 0 into 2, as it does
  an absent count.

## Model

| member | source | states |
|---|---|---|
| Catalog.BeveragesByCategory | src/engine/decisionEngine.js:179-181 | a beverage is in the result iff it is in the catalog with that category; each occurs exactly as often as in the catalog, and others not at all |
| Catalog.BeveragesByCategoryAppend | src/engine/decisionEngine.js:180 | the filter keeps catalog order: a beverage appended to the catalog is appended to the result when it has the category, and dropped otherwise |
| Catalog.BeverageById | src/engine/decisionEngine.js:186-188 | absent iff no beverage has the id; otherwise the first beverage with that id |
| Catalog.FindMood | src/engine/decisionEngine.js:153 | absent iff no mood record has the chosen id; otherwise the first mood record with that id |
| Catalog.FindProfile | src/engine/decisionEngine.js:122 | absent iff no profile record has the chosen id; otherwise the first profile record with that id |
| Answers.Initial | src/engine/decisionEngine.js:12-18 | the session starts with no category, mood or profile, no declines and no supplementary answers |
| Answers.Record | src/engine/decisionEngine.js:38-48 | a decline adds exactly one to the unsure count and changes only the taste field, to "balanced", and only for the taste question; an answer sets exactly the asked field and leaves the counter and every other field unchanged |
| Answers.AnsweringTasteSetsProfile | src/engine/decisionEngine.js:38-48 | after the taste question is answered (truthily) or declined, the profile is truthy |
| Answers.UnsureCountNeverDecreases | src/engine/decisionEngine.js:38-41 | over any sequence of `setAnswer` calls the unsure count grows by exactly the number of declines |
| Confidence.Clamp | src/engine/confidence.js:37 | the result lies in [20, 100] and equals the input inside that range, 20 below it and 100 above it |
| Confidence.CalculateConfidence | src/engine/confidence.js:11-40 | the step-by-step computation equals the clamped penalty/bonus sum and lies in [20, 100] |
| Confidence.DeclineNeverRaises | src/engine/confidence.js:15-37 | one more decline, everything else fixed, never raises confidence, and equals the clamp of the raw score minus 15 |
| Confidence.ExtraAnswerNeverLowers | src/engine/confidence.js:32-37 | one more supplementary answer never lowers confidence, and equals the clamp of the raw score plus 5 |
| Confidence.FullyAnsweredIsFull | src/engine/confidence.js:12-37 | all three questions answered, no declines and no extras gives 100 |
| Confidence.InitialConfidence | src/engine/confidence.js:12-37 | a fresh session scores 50 |
| Confidence.DecliningUnansweredTasteIsNeutral | src/engine/confidence.js:15-30 | declining the taste question while it is unanswered leaves confidence unchanged |
| Confidence.DeclineRecordNeverRaises | src/engine/confidence.js:15-30 | recording a decline for any question never raises confidence |
| Confidence.ExplicitAnswerNeverLowers | src/engine/confidence.js:19-30 | recording a non-empty answer never lowers confidence |
| Confidence.ConfidenceLevel | src/engine/confidence.js:47-84 | each tier holds exactly on its range: high at 90 and above, good on 75-89, moderate on 60-74, uncertain on 40-59, low below 40 |
| Confidence.LevelMonotone | src/engine/confidence.js:47-84 | a higher confidence never falls in a lower tier |
| Confidence.RawConfidence | src/engine/confidence.js:12-34 | the unclamped score never exceeds 100 minus 15 per decline plus 5 per supplementary answer, and reaches that bound iff category, mood and taste are all answered |
| Confidence.NeedsExtraQuestions | src/engine/confidence.js:91-93 | supplementary questions are asked iff confidence is below 80 |
| Confidence.NeedsExtraOnRaw | src/engine/confidence.js:91-93 | the gate on the clamped score agrees with the gate on the raw score |
| Confidence.GateBoundary | src/engine/confidence.js:91-93 | 79 needs supplementary questions and 80 does not |
| Confidence.GateAgainstTiers | src/engine/confidence.js:47-93 | the gate never fires in the high tier and always fires in the moderate, uncertain and low tiers |
| Confidence.RequiredExtraQuestions | src/engine/confidence.js:100-155 | 1 to 3 distinct questions, price range first; experience iff a decline was recorded; wine colour iff the category is wine; smokiness iff it is whiskey; a category question is always last |
| Scoring.IndexOf | src/engine/decisionEngine.js:100-102 | absent iff the mood is not listed; otherwise a position holding it with no earlier occurrence |
| Scoring.MoodPoints | src/engine/decisionEngine.js:97-105 | 0 without a truthy mood or when the mood is not listed; otherwise 40 minus 5 per position before the first occurrence; never above 40 |
| Scoring.TastePoints | src/engine/decisionEngine.js:107-119 | 0 without a truthy profile; 40 iff the profiles match; 20 iff they differ and either is "balanced"; always 0, 20 or 40 |
| Scoring.MatchingTags | src/engine/decisionEngine.js:125 | each beverage tag the profile lists is kept as often as it occurs, and no other tag is kept |
| Scoring.TagPoints | src/engine/decisionEngine.js:121-127 | 0 when the catalog has no record of the chosen profile, and never negative |
| Scoring.TagShare | src/engine/decisionEngine.js:126 | the share of 20 points is non-negative, at most 20 when at most all tags match, and exactly 20 when all do |
| Scoring.MaxScore | src/engine/decisionEngine.js:94-127 | the ceiling lies in [0, 100] and is 0 iff no mood, no profile and no profile record |
| Scoring.Round | src/engine/decisionEngine.js:138 | the result is within half a unit of the input, halves rounded up |
| Scoring.MatchPercentage | src/engine/decisionEngine.js:138 | 50 for a non-positive ceiling; otherwise the rounded `100 * score / maxScore`, which lies in [0, 100] when the score does not exceed the ceiling |
| Scoring.ScoreOf | src/engine/decisionEngine.js:93-140 | the record keeps its beverage, carries the ceiling, and its percentage is computed from its own score and ceiling |
| Scoring.TagPointsAtMostTwenty | src/engine/decisionEngine.js:121-127 | with no tag repeated on the beverage, the tag part is at most 20 |
| Scoring.ScoreWithinCeiling | src/engine/decisionEngine.js:93-140 | with distinct tags and the mood not listed past position 8, the score lies in [0, maxScore] and the percentage in [0, 100] |
| Scoring.MoodPointsCanBeNegative | src/engine/decisionEngine.js:103 | a mood listed tenth scores -5: the mood part has no floor |
| Scoring.NothingAnsweredGivesFifty | src/engine/decisionEngine.js:138 | with no mood and no profile, the score is 0 and the percentage 50 |
| Ranking.SortByScore | src/engine/decisionEngine.js:143 | the ranking has as many items as its input; its order, content and stability are the lemmas below |
| Ranking.SortByScoreSorted | src/engine/decisionEngine.js:143 | the ranking never increases in score from left to right |
| Ranking.SortByScorePermutes | src/engine/decisionEngine.js:143 | the ranking is a permutation of its input |
| Ranking.SortByScoreStable | src/engine/decisionEngine.js:143 | for every score, the items with that score appear in the same order as in the input |
| Ranking.SortByScoreOfSorted | src/engine/decisionEngine.js:143 | an input already in descending order is returned unchanged |
| Ranking.SortByScoreIdempotent | src/engine/decisionEngine.js:143 | ranking twice is ranking once |
| Ranking.StableSortByScore | src/engine/decisionEngine.js:143 | the in-place sort leaves in the array exactly the specification's ranking of its old contents |
| DecisionEngine.Candidates | src/engine/decisionEngine.js:85-90 | a truthy category keeps exactly that category's beverages with their multiplicities; otherwise the whole catalog |
| DecisionEngine.CandidatesAppend | src/engine/decisionEngine.js:85-90 | the candidates keep catalog order: a beverage appended to the catalog is appended to the candidates when it passes the filter, and dropped otherwise |
| DecisionEngine.ScoreAll | src/engine/decisionEngine.js:93-140 | one scored record per candidate, in candidate order |
| DecisionEngine.Recommendations | src/engine/decisionEngine.js:82-145 | one recommendation per candidate |
| DecisionEngine.RecommendationsSorted | src/engine/decisionEngine.js:142-145 | the recommendations are in non-increasing score order |
| DecisionEngine.RecommendationsStable | src/engine/decisionEngine.js:143 | equal-scoring recommendations keep candidate order, which is catalog order (`CandidatesAppend`) |
| DecisionEngine.RecommendationsPermute | src/engine/decisionEngine.js:143 | the recommendations are a permutation of the scored candidates |
| DecisionEngine.RecommendationsScored | src/engine/decisionEngine.js:82-145 | every recommendation carries its own beverage's score and passes the category filter |
| DecisionEngine.RecommendationsAreCandidates | src/engine/decisionEngine.js:85-90 | each beverage is recommended exactly as often as it passes the filter in the catalog: none dropped, none duplicated |
| DecisionEngine.NothingAnsweredAllFifty | src/engine/decisionEngine.js:93-140 | with no mood and no profile, every recommendation shows 50% |
| DecisionEngine.ResultCount | src/engine/decisionEngine.js:151-156 | never 0; 2 when the mood is not in the catalog; otherwise the configured count unless it is absent or 0, which give 2 |
| DecisionEngine.SlicePrefix | src/engine/decisionEngine.js:168 | a prefix of the list, of JavaScript `slice(0, end)` length (a negative end counts from the back) |
| DecisionEngine.ShortlistIsTop | src/engine/decisionEngine.js:162-174 | the shortlist is a prefix of the ranking, `min(count, n)` long for a positive count, and no item outside it scores higher than one inside |
| DecisionEngine.Engine.constructor | src/engine/decisionEngine.js:12-18 | the engine starts with the fresh answer record |
| DecisionEngine.Engine.ResetAnswers | src/engine/decisionEngine.js:23-31 | the record becomes the fresh record, whatever it was, so a second call changes nothing |
| DecisionEngine.Engine.SetAnswer | src/engine/decisionEngine.js:38-48 | the new record is `Record` of the old one, and the unsure count never decreases |
| DecisionEngine.Engine.GetAnswers | src/engine/decisionEngine.js:74-76 | the caller receives the current record as a value |
| DecisionEngine.Engine.ScoreCandidate | src/engine/decisionEngine.js:93-140 | the step-by-step accumulation of score and ceiling gives the scored record of the specification |
| DecisionEngine.Engine.ScoreCandidates | src/engine/decisionEngine.js:93-140 | the loop fills a new array with every candidate's scored record, in order |
| DecisionEngine.Engine.GetRecommendations | src/engine/decisionEngine.js:82-146 | the result is the sorted scored candidates of the current record |
| DecisionEngine.Engine.GetFinalResults | src/engine/decisionEngine.js:162-174 | full ranking, its `slice(0, resultCount)` shortlist, the confidence in [20, 100], the gate iff below 80, and the current record |
| DecisionEngine.Engine.ResultWithExtras | src/screens/Result.js:21-24 | overwriting `extraAnswers` on the copy leaves the engine's record, and hence the confidence, untouched |
| Translations.Split | src/i18n/translations.js:39 | at least one segment, and no segment contains a dot |
| Translations.JoinSplit | src/i18n/translations.js:39 | joining the segments with dots gives back the key |
| Translations.SplitJoin | src/i18n/translations.js:39 | splitting dot-joined dot-free segments gives back the segments |
| Translations.WalkAppend | src/i18n/translations.js:42-48 | walking a path in two legs is the same as walking it at once |
| Translations.Walk | src/i18n/translations.js:42-48 | a walk of no steps stays on the entry; a walk of at least one step that succeeds ends on a truthy value, since a missing or falsy segment stops it |
| Translations.Translate | src/i18n/translations.js:38-51 | the key itself for an unknown language or any missing or falsy segment; otherwise the value at the end of the path |
| Translations.TranslateTruthy | src/i18n/translations.js:38-51 | `t` never yields a falsy value for a non-empty key |
| Translations.TranslateTwoLevel | src/i18n/translations.js:38-51 | a two-segment key whose leaf is a non-empty string resolves to that string |
| Translations.CategoryName | src/i18n/translations.js:56-58 | equals `t("categories." + id)`: the fallback to `id` is never taken |
| Translations.MoodName | src/i18n/translations.js:63-65 | equals `t("moods." + id)`: the fallback is never taken |
| Translations.FlavorName | src/i18n/translations.js:70-72 | equals `t("flavors." + id)`: the fallback is never taken |
| Translations.CategoryNamed | src/i18n/translations.js:56-58 | a category listed in a language's table is named by its text there |
| Translations.WineInTurkish | src/i18n/translations.js:145 | `getCategoryName("wine")` in Turkish is "Şarap" |
| Translations.WineInEnglish | src/i18n/translations.js:284 | `getCategoryName("wine")` in English is "Wine" |
| Translations.UnknownLanguageEchoesKey | src/i18n/translations.js:38-47 | in any language the table lacks, every key translates to itself |
| Translations.Translator.constructor | src/i18n/translations.js:7 | the language starts as the stored preference, or "tr" when none is stored or it is empty |
| Translations.Translator.GetLanguage | src/i18n/translations.js:15-17 | returns the current language |
| Translations.Translator.T | src/i18n/translations.js:38-51 | `t(key)` in the current language: never falsy for a non-empty key, and the key itself when the language has no table |
| Translations.Translator.SetLanguage | src/i18n/translations.js:22-26 | the current language becomes the given one |
| Translations.SwitchLanguage | src/i18n/translations.js:15-26 | after `setLanguage(l)`, `getLanguage()` is `l` and `t` looks every key up in `l`'s table |
| Scenario.PeatyScore | src/engine/decisionEngine.js:93-140 | a whisky matching mood (first position), profile and one of two profile tags scores 90 of 100, 90% |
| Scenario.SmoothScore | src/engine/decisionEngine.js:93-140 | a whisky matching only through "balanced" scores 20 of 100, 20% |
| Scenario.EndToEnd | src/engine/decisionEngine.js:162-174 | the two whiskies rank 90% before 20%; mood "solo" asks for one result, so the shortlist is the first; confidence is 100, tier high |

## Left out

- Screens, components, the step router, gsap, timers and the DOM are presentation, not engine logic. `src/screens/Result.js` appears only through `ResultWithExtras`.
- The JSON catalog import is not part of this model. The catalog is an immutable `Catalog` value given to the engine's constructor.
- The `getCategories`, `getMoods` and `getFlavorProfiles` accessors are not modelled separately. They return the catalog's fields, which are fields of the `Catalog` value here.
- `localStorage` reads and writes are not modelled. The stored language is a constructor parameter of `Translator`.
- Language-change listeners (`onLanguageChange`) are not modelled: they are callbacks into UI code.
- Floating-point arithmetic is modelled as exact `real` arithmetic. A score or percentage that a binary double rounds differently is not captured.
- `setAnswer` with a question key other than the three mandatory ones, and with `undefined`, are not modelled. Only the three keys and `null` (as `None`) are.
- The empty `extraAnswers.priceRange` branch of the scoring is not modelled. It adds nothing to any score.
- The display text, emoji and description strings of `getConfidenceLevel` and of the question descriptors are not modelled. Only tier ids and question ids, in order, are.
- Aliasing is not modelled. `getAnswers` and `getFinalResults` return shallow copies whose `extraAnswers` object is still shared with the engine, but the model's records are values. Writing a key into that shared object would reach the engine in JavaScript but cannot happen here. Replacing the field, which is what the result screen does, is modelled.
- In `t`, a path that steps into a string's own properties (a character index or `length`) or into an inherited object property would resolve in JavaScript. The model's table has only the listed entries.
- The name helpers take the table and the language explicitly rather than reading the module-level setting. `Translator.T` is the lookup in the current language.
- Scoring.TagPointsAtMostTwenty, Scoring.ScoreWithinCeiling: these bounds are stated only for beverages with no repeated tag. A repeated matching tag counts twice, so the tag part, and with it the percentage, can exceed its ceiling.
- Scoring.ScoreWithinCeiling: the lower bound needs the mood listed no later than position 8, since a later mood scores below zero (`MoodPointsCanBeNegative`).
