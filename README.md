# Housing decision-support core, modelled in Dafny

This project models the decision-support core of a housing recommendation
system for people relocating within Nairobi. The core has four parts:

- **Keyword guard** (`main.py`, `validate_safety`): refuses a query whose
  lower-cased text contains one of four forbidden words.
- **Query guardrails** (`src/core/safety_guardrails.py`):
  - classify a free-text query by ordered regular-expression groups;
  - detect area stereotypes and reframe judgemental queries into neutral,
    trade-off-focused ones;
  - attach warnings and advisory disclaimers;
  - prepend safety instructions to a prompt;
  - post-process a generated response.
- **Risk engine** (`src/core/risk_engine.py`): checks a fixed, ordered table
  of eight situational rules against the user's context. It derives the risk
  factors, per-factor and overall levels, considerations and recommendations.
  It also compares options under a fixed comparison context.
- **Trade-off analyzer** (`src/core/tradeoff_analyzer.py`):
  - scores housing options on cost, commute, transport, amenities and a
    situational score;
  - combines the scores with the analyzer's weights;
  - writes strength, trade-off and warning sentences;
  - ranks the options by a stable descending sort and summarises the best one.

Modules, one file each:

- `Text`: an `Option` type, ASCII `lower()`/`title()`, substring tests and
  `join`.
- `KeywordGuard`.
- `SafetyGuardrails`.
- `RiskEngine`.
- `Ranking`: Python's stable `sorted(..., reverse=True)` as a ranking of
  positions.
- `TradeOffAnalyzer`.

Functions hold the pure logic and serve as specifications. Code that builds
its result step by step is a `method` proved equal to its specification
function:

- the rule loop of `evaluate`;
- the list-building helpers;
- the substitution loop of `postprocess_response`;
- the weighted-total loop;
- the transport and situational score accumulators;
- `analyze_options`.

No part of the core updates an object after construction. The rule table
and the analyzer's weights are set once, so the table is a constant and the
weights are a parameter (`TradeOffAnalyzer.AnalyzerWeights` gives the
default table for an empty one). A weight dictionary is a sequence of
(category, weight) pairs in iteration order. `ValidWeights` requires each
category to appear once, as in a dictionary.

Regular expressions are abstract. A `RegexEngine` value supplies `search`
(the matched text, if any) and `sub` (case-insensitive substitution). Every
guardrail property is proved for every engine. Number formatting (`{x:.0f}`,
`{x:,}`) is the abstract `Formats` value.

Behaviour of the code worth noting:

- **The module's demonstration ranking.** `tradeoff_analyzer.py:494-523`
  compares Kileleshwa, Ruaka and Westlands against a budget of 70000 and a
  30-minute commute. With the default weights, Kileleshwa totals 72.5,
  Ruaka 73.25 and Westlands 503/7 (about 71.86). The ranked order is
  therefore Ruaka, Kileleshwa, Westlands (`TradeOffAnalyzer.DemoRanking`).
- **Order of `TradeOffComparison.options`.** The field keeps the input
  order; only `ranked_order` is sorted (`tradeoff_analyzer.py:174-175`).
- **Reframing twice appends the sentence twice.** `reframe_query`
  (`safety_guardrails.py:171-178`) always appends its clarifying sentence.
  Reframing an already reframed dangerous-area query, when the rewrite
  finds nothing left to replace, ends with the sentence twice
  (`SafetyGuardrails.ReframeTwiceAppendsTwice`).
- **The demonstration query "Is Kibera safe to live in?"**
  (`safety_guardrails.py:410`). Whether it is flagged depends on what the
  regular expressions match, which is abstract here. What is proved is
  that any input that mentions a listed area together with one of the
  negative words is flagged (`SafetyGuardrails.AreaWithNegativeWordIsFlagged`).

## Model

| member | source | states |
|---|---|---|
| KeywordGuard.ValidateSafety | main.py:7-11 | The verdict is false exactly when some forbidden word ("dangerous", "ghetto", "crime", "sketchy") occurs in the lower-cased input. The message is the reframe text when refused and "Safe" otherwise. |
| KeywordGuard.CaseInsensitive | main.py:9 | Two inputs that differ only in letter case get the same verdict and message. |
| KeywordGuard.ExtendingKeepsRejected | main.py:9-10 | A refused input stays refused when any text is added before or after it. |
| SafetyGuardrails.FirstMatchingGroup | src/core/safety_guardrails.py:98-101 | Returns the first pattern group with a match: no earlier group matches, and the returned group (if any) does. |
| SafetyGuardrails.DetectQueryType | src/core/safety_guardrails.py:86-108 | Never BIASED. Dangerous-area, safety-ranking, crime-prediction and stereotypical queries are each recognised exactly when their group is the first to match, in that priority order; the generic stereotype patterns come next. STANDARD exactly when nothing matches. |
| SafetyGuardrails.AreaWordHitIsFirstPair | src/core/safety_guardrails.py:128-134 | The nested area/word scan reports "area + word" for the first listed area and the first negative word found in the text, and nothing when either is missing. |
| SafetyGuardrails.ContainsStereotype | src/core/safety_guardrails.py:111-136 | Flagged exactly when a pattern is reported. The first matching stereotype pattern's matched text wins; otherwise the area/word scan decides. |
| SafetyGuardrails.ExtractStereotypedArea | src/core/safety_guardrails.py:139-155 | None exactly when no listed area occurs in the lower-cased input. Otherwise the first listed area that occurs. |
| SafetyGuardrails.ReframeQuery | src/core/safety_guardrails.py:158-215 | Equals the per-type rewrite `Reframed`. STANDARD and BIASED inputs are unchanged. Dangerous-area and stereotypical rewrites end with their clarifying sentence. Crime-prediction rewrites start with "I can help you understand ". |
| SafetyGuardrails.ReframeTwiceAppendsTwice | src/core/safety_guardrails.py:171-178 | Reframing an already reframed dangerous-area query appends the clarifying sentence a second time once the rewrite no longer changes the text. |
| SafetyGuardrails.GenerateAdvisoryDisclaimer | src/core/safety_guardrails.py:218-263 | There is no disclaimer exactly for STANDARD queries. Each of the other five types (DANGEROUS_AREA, SAFETY_RANKING, CRIME_PREDICTION, STEREOTYPICAL, BIASED) gets its own text. |
| SafetyGuardrails.AreaWarningShape | src/core/safety_guardrails.py:277-288 | The area-specific warning differs from the generic one and contains the title-cased area. |
| SafetyGuardrails.GenerateWarningMessage | src/core/safety_guardrails.py:266-289 | Always yields a message. It differs from the generic warning exactly when a non-empty area is given, and then it names the area title-cased. |
| SafetyGuardrails.ValidateQuery | src/core/safety_guardrails.py:292-332 | Safe exactly when the type is STANDARD and no stereotype is found. A reframed query is present exactly when unsafe, and it is the type's rewrite. A warning is present exactly when a stereotype is found, and it is the warning for the extracted area (the area-specific text naming the place when an area is found, the generic warning otherwise). The disclaimer is the detected type's own text, absent exactly for STANDARD. |
| SafetyGuardrails.AreaWithNegativeWordIsFlagged | src/core/safety_guardrails.py:128-134 | Any input mentioning a listed area and one of the five negative words is unsafe and gets the area-specific warning, whatever the regular expressions do. |
| SafetyGuardrails.InjectSafetyContext | src/core/safety_guardrails.py:335-371 | The result starts with the safety instructions and ends with a newline and the prompt. The user-context block with "Not specified" defaults sits between them exactly when the context is non-empty. |
| SafetyGuardrails.PostprocessResponse | src/core/safety_guardrails.py:374-400 | Applies the five substitutions in order, then appends the advisory footer exactly when the cleaned text lacks the advisory marker and mentions "considerations" in any case. |
| RiskEngine.DetermineRiskLevel | src/core/risk_engine.py:272-288 | Non-commute rules give MODERATE. The commute rule gives ELEVATED above 90 minutes, MODERATE above 45 and LOW otherwise. |
| RiskEngine.OverallRisk | src/core/risk_engine.py:290-307 | ELEVATED exactly when at least two factors are ELEVATED. LOW exactly when every factor is LOW, which includes no factors. |
| RiskEngine.GenerateConsiderations | src/core/risk_engine.py:309-324 | One line per factor, in order. Elevated factors start with the warning sign, the others with a bullet. |
| RiskEngine.GenerateRecommendations | src/core/risk_engine.py:326-357 | Each factor's mitigation is bulleted in factor order, followed by exactly the nine general suggestions. |
| RiskEngine.Evaluate | src/core/risk_engine.py:195-270 | Equals `Profile`, built from the factors of the firing rules in table order. It has at most six factors and is never ELEVATED overall. It is LOW exactly when no rule fires. |
| RiskEngine.DefaultFirstRules | src/core/risk_engine.py:134-164 | Under the defaults, the factors from the commute, night, evening and walking rules are exactly the evening-return factor. |
| RiskEngine.DefaultFactorCount | src/core/risk_engine.py:134-193 | Under the defaults exactly four of the eight rules fire. |
| RiskEngine.DefaultEvaluation | src/core/risk_engine.py:195-204 | `evaluate()` with every default (30 minutes, evening, matatu, alone, unfamiliar, comfort 0.5) reports exactly the evening-return, living-alone, new-area and tight-budget factors, and an overall MODERATE level. |
| RiskEngine.FactorSource | src/core/risk_engine.py:240-251 | Every reported factor is the factor of a rule that fired. |
| RiskEngine.FiringRulesYieldFactors | src/core/risk_engine.py:240-251 | Every rule that fires contributes its factor. |
| RiskEngine.TriggeredLengthStep | src/core/risk_engine.py:240-251 | Each rule adds exactly one factor when it fires and none otherwise. |
| RiskEngine.AtMostOneElevated | src/core/risk_engine.py:272-288 | If only the first rule is the commute rule, at most one factor is ELEVATED. |
| RiskEngine.AtMostSixFactors | src/core/risk_engine.py:134-193 | Night and evening return exclude each other, as do walking and bodaboda, so at most six of the eight rules fire. |
| RiskEngine.CommuteFactorLevels | src/core/risk_engine.py:136-143 | The commute factor is present exactly for commutes over 60 minutes, and then it is never LOW. All other factors are MODERATE. |
| RiskEngine.NewAreaAndBudgetFactors | src/core/risk_engine.py:180-192 | The new-area factor fires exactly for an unfamiliar user. The tight-budget factor fires exactly for a budget comfort below 0.7. |
| RiskEngine.NeverElevatedOverall | src/core/risk_engine.py:290-307 | The rule table can never yield an ELEVATED overall level. |
| RiskEngine.LowIffNothingFired | src/core/risk_engine.py:290-307 | The overall level is LOW exactly when no rule fired. |
| RiskEngine.OptionTradeOffs | src/core/risk_engine.py:400-428 | Exactly one cost/commute clause, with missing rent counted as 0: "Lower rent…" for commute > 45 and rent < 50000, else "Shorter commute…" for commute < 30 and rent > 80000, else "Balanced…". |
| RiskEngine.CompareOne | src/core/risk_engine.py:375-394 | One loop step: the option's name ("Unknown" when missing), commute, mode and trade-offs, with its profile under the comparison context. |
| RiskEngine.ComparedAt | src/core/risk_engine.py:372-398 | Entry i of the comparison list is option i's comparison. |
| RiskEngine.CompareOptions | src/core/risk_engine.py:359-398 | One result per option, in input order, each evaluated under the fixed comparison context. A missing commute defaults to 30 and a missing mode to matatu. |
| RiskEngine.ComparedOptionsShareFourFactors | src/core/risk_engine.py:379-385 | Every compared option has the evening-return, living-alone, new-area and tight-budget factors, whatever its commute and transport. |
| Ranking.Insert | src/core/tradeoff_analyzer.py:164 | Inserting a later position into an ordered ranking keeps it ordered (descending key, ties by position) and adds exactly that position. |
| Ranking.RankIndices | src/core/tradeoff_analyzer.py:164 | The ranking of the first n positions holds each of 0..n-1 and is ordered by descending key, with equal keys in input order. |
| Ranking.RankIsStableDescending | src/core/tradeoff_analyzer.py:164 | `Rank` is a permutation of all positions, sorted by descending key, stable on ties. |
| Ranking.RankIsUnique | src/core/tradeoff_analyzer.py:164 | Any permutation of the positions that is sorted descending and stable on ties equals `Rank`. |
| TradeOffAnalyzer.AnalyzerWeights | src/core/tradeoff_analyzer.py:117-128 | The analyzer's weights are the caller's table when one is given, and the default table otherwise. They are never empty, and they are a valid table (distinct categories, non-negative weights summing to 1) whenever the caller's is or none is given. |
| TradeOffAnalyzer.CostFromRatio | src/core/tradeoff_analyzer.py:243-253 | The band score of a rent/budget ratio is in [0,100], and below 60 once the ratio exceeds 1. |
| TradeOffAnalyzer.ScoreCost | src/core/tradeoff_analyzer.py:236-253 | Exactly 50 for rent ≤ 0. Exactly 60 for positive rent without a positive budget. Always in [0,100]. |
| TradeOffAnalyzer.ScoreCostMonotone | src/core/tradeoff_analyzer.py:236-253 | For positive rents, a higher rent never scores higher. |
| TradeOffAnalyzer.ScoreCostBudgetBands | src/core/tradeoff_analyzer.py:241-253 | With a positive budget, rent over budget scores below 60 and rent within budget at least 60. Rent up to half the budget scores 100. |
| TradeOffAnalyzer.ScoreCommute | src/core/tradeoff_analyzer.py:255-266 | In [0,100], and exactly 100 when the commute is within the target. |
| TradeOffAnalyzer.ScoreCommuteMonotone | src/core/tradeoff_analyzer.py:255-266 | For a non-negative target, a longer commute never scores higher. |
| TradeOffAnalyzer.BonusSumMonotone | src/core/tradeoff_analyzer.py:276-285 | With non-negative bonuses, the bonus sum is non-negative and never shrinks when more modes are present. |
| TradeOffAnalyzer.TransportScoreMonotone | src/core/tradeoff_analyzer.py:268-287 | The transport score is in [50,100], and offering more modes never lowers it. |
| TradeOffAnalyzer.TransportScoreDependsOnModes | src/core/tradeoff_analyzer.py:276-285 | Each bonus counts once per mode present after lower-casing, so order, repetition and letter case do not matter. |
| TradeOffAnalyzer.TransportBonusTerms | src/core/tradeoff_analyzer.py:274-287 | The bonus table sums to the five per-mode terms: matatu 20, bodaboda 15, bus 15, walking 10, private 5. |
| TradeOffAnalyzer.ScoreTransport | src/core/tradeoff_analyzer.py:268-287 | The step-by-step bonuses equal min(100, 50 + table bonuses), which is in [50,100]. |
| TradeOffAnalyzer.ScoreConvenience | src/core/tradeoff_analyzer.py:289-292 | 60% of the transport score plus at most 20 points for amenities, saturating at five amenities. |
| TradeOffAnalyzer.ScoreAmenities | src/core/tradeoff_analyzer.py:294-296 | In [0,100], and exactly 100 from seven amenities on. |
| TradeOffAnalyzer.AnyMentions | src/core/tradeoff_analyzer.py:318-319 | True exactly when some lower-cased amenity contains one of the words. |
| TradeOffAnalyzer.SituationalScore | src/core/tradeoff_analyzer.py:298-326 | 70 with ±5 adjustments, always in [65,85]. |
| TradeOffAnalyzer.CalculateSafetyScore | src/core/tradeoff_analyzer.py:298-326 | The adjusted and clamped score equals the unclamped `SituationalScore`, so the clamp never acts. |
| TradeOffAnalyzer.CalculateWeightedTotal | src/core/tradeoff_analyzer.py:328-334 | The loop computes Σ weight·scores.get(category, 50) over the weight table. |
| TradeOffAnalyzer.WeightedSumBounds | src/core/tradeoff_analyzer.py:328-334 | With non-negative weights and sub-scores in [0,100], the total is between 0 and 100 times the weight sum. |
| TradeOffAnalyzer.WeightedTotalInRange | src/core/tradeoff_analyzer.py:328-334 | With non-negative weights summing to 1, the total is in [0,100]. |
| TradeOffAnalyzer.DefaultWeightsValid | src/core/tradeoff_analyzer.py:90-96 | The default weights name each category once, are non-negative and sum to 1. |
| TradeOffAnalyzer.DefaultWeightedSum | src/core/tradeoff_analyzer.py:90-96 | With the default weights the total is 0.30·cost + 0.25·commute + 0.20·convenience + 0.15·transport + 0.10·amenities, each defaulting to 50. |
| TradeOffAnalyzer.UnweightedScoreIgnored | src/core/tradeoff_analyzer.py:204-210 | With the default weights, the situational score has no effect on the total. |
| TradeOffAnalyzer.Strengths | src/core/tradeoff_analyzer.py:344-367 | 1 to 4 lines. The fallback alone when no threshold is met; otherwise one line per threshold met (cost ≥ 75, commute ≥ 75, transport ≥ 80, ≥ 4 amenities), in that order. Each line's sentence is stated: excellent value (cost ≥ 90) or reasonably priced (75–90), a very short commute (≥ 90) or a manageable one (75–90), several transport options, and good amenities last. |
| TradeOffAnalyzer.IdentifyStrengths | src/core/tradeoff_analyzer.py:336-367 | The appended list equals `Strengths` for the option's name ("This area" when missing). |
| TradeOffAnalyzer.CostCommuteTradeOff | src/core/tradeoff_analyzer.py:380-384 | At most one line, present exactly when one of the two conditions holds: "Lower rent in X but longer commute" for rent < 40000 and commute > 45, "Shorter commute in X comes with higher rent" for rent > 70000 and commute < 30. |
| TradeOffAnalyzer.TradeOffs | src/core/tradeoff_analyzer.py:377-399 | 1 to 4 lines. The balanced fallback alone when nothing applies; otherwise one line per condition met, in the source's order and position. The cost-against-commute sentence comes first. The limited-transport line follows it for transport < 60. The rent line comes next for rent > 60000, and the long-commute line is last for commute > 60. |
| TradeOffAnalyzer.IdentifyTradeoffs | src/core/tradeoff_analyzer.py:369-399 | The appended list equals `TradeOffs`. |
| TradeOffAnalyzer.Warnings | src/core/tradeoff_analyzer.py:409-421 | At most 3 warnings. The budget warning exactly when rent > budget. The long-commute warning exactly when commute > 90. The transport warning exactly when transport is empty or exactly ["walking"]. |
| TradeOffAnalyzer.GenerateWarnings | src/core/tradeoff_analyzer.py:401-421 | The appended list equals `Warnings`. |
| TradeOffAnalyzer.ScoreOption | src/core/tradeoff_analyzer.py:180-234 | The assembled score equals `OptionScore`, with defaults rent 50000, commute 30 and name "Unknown". |
| TradeOffAnalyzer.OptionScoreBounds | src/core/tradeoff_analyzer.py:180-234 | With valid weights, the total and every sub-score are in [0,100] and convenience in [30,80]. Strengths and trade-offs are never empty. |
| TradeOffAnalyzer.DefaultTotal | src/core/tradeoff_analyzer.py:204-213 | With the default weights the computed convenience score never counts: the total is 0.30·cost + 0.25·commute + 10 + 0.15·transport + 0.10·amenities. |
| TradeOffAnalyzer.RankedScores | src/core/tradeoff_analyzer.py:164 | The ranked list is the scores in `Rank` order, a non-increasing sequence of totals. |
| TradeOffAnalyzer.CostLine | src/core/tradeoff_analyzer.py:438-441 | The cost line names the lower-rent side when the best option's cost score is higher, and the higher-rent side otherwise. |
| TradeOffAnalyzer.CommuteLine | src/core/tradeoff_analyzer.py:444-447 | The commute line names the shorter side when the best option's commute score is higher, and the longer side otherwise. |
| TradeOffAnalyzer.TransportLine | src/core/tradeoff_analyzer.py:450-453 | The transport line names better transport when the best option's transport score is higher, and limited transport otherwise. |
| TradeOffAnalyzer.IdentifyDifferences | src/core/tradeoff_analyzer.py:423-455 | ["Only one option to compare"] for fewer than two options. Otherwise one line per gap between the top two: cost > 10, commute > 10, transport > 15 (missing transport read as 0). The cost line comes first, the commute line follows it (first when the cost gap is small), and the transport line comes last. |
| TradeOffAnalyzer.SummaryFrame | src/core/tradeoff_analyzer.py:463-482 | "No options to compare." for no options. Otherwise it opens with the budget sentence and ends with the advisory footer. |
| TradeOffAnalyzer.GenerateSummary | src/core/tradeoff_analyzer.py:457-482 | The incrementally built summary equals `SummaryText`. |
| TradeOffAnalyzer.BulletsMention | src/core/tradeoff_analyzer.py:472-473 | Every strength passed to the bullet loop appears as its own bullet line. |
| TradeOffAnalyzer.SummaryNamesBest | src/core/tradeoff_analyzer.py:466-470 | The summary names the best-ranked option in bold. |
| TradeOffAnalyzer.SummaryListsStrengths | src/core/tradeoff_analyzer.py:472-473 | The summary lists each of the best option's first two strengths as a bullet line. |
| TradeOffAnalyzer.SummaryNotesWarning | src/core/tradeoff_analyzer.py:477-478 | When the best option has warnings, the summary repeats the first one as a note. |
| TradeOffAnalyzer.ScoredAt | src/core/tradeoff_analyzer.py:154-161 | Entry i of the scored list is option i's score. |
| TradeOffAnalyzer.ScoreAll | src/core/tradeoff_analyzer.py:154-161 | The scoring loop yields every option's score, in input order. |
| TradeOffAnalyzer.AnalyzeOptions | src/core/tradeoff_analyzer.py:136-178 | `options` holds every option's score under the analyzer's weights, in input order. `ranked_order` holds the names in ranking order. Differences and summary are taken from the ranked list. All lists have the input's length. |
| TradeOffAnalyzer.RankedOrderIsStable | src/core/tradeoff_analyzer.py:164-165 | `ranked_order` lists the input names by descending total, with equal totals in input order. |
| TradeOffAnalyzer.MatatuBusPrivateScore | src/core/tradeoff_analyzer.py:274-287 | Matatu, bus and private transport score 90. |
| TradeOffAnalyzer.KileleshwaTotal | src/core/tradeoff_analyzer.py:495-501 | The demonstration's Kileleshwa option totals 72.5 with the default weights, a budget of 70000 and a 30-minute commute. |
| TradeOffAnalyzer.RuakaTotal | src/core/tradeoff_analyzer.py:502-508 | The demonstration's Ruaka option totals 73.25 under the same settings. |
| TradeOffAnalyzer.WestlandsTotal | src/core/tradeoff_analyzer.py:509-515 | The demonstration's Westlands option, over budget, totals 503/7 under the same settings. |
| TradeOffAnalyzer.RankThree | src/core/tradeoff_analyzer.py:164-165 | For three scores whose totals satisfy third < first < second, the names are ranked second, first, third, that is, from the highest total to the lowest. |
| TradeOffAnalyzer.DemoRanking | src/core/tradeoff_analyzer.py:494-523 | The demonstration's ranked order is Ruaka, Kileleshwa, Westlands. |

## Left out

- Regular-expression semantics: `re.search` and `re.sub` are the abstract `RegexEngine`. The pattern texts are kept as constants. Properties that depend on what a particular pattern matches are not proved.
- Unicode case mapping: `lower()` and `title()` act on ASCII letters only. Other characters are kept.
- Number formatting: `{x:.0f}`, `{budget_max:,}` and the `round(..., 2)` calls in the `to_dict` methods are not modelled. The formatted text is an abstract function of the number, and the `to_dict` serialisers are left out.
- Floating point: scores, ratios and weights are exact reals. Rounding of binary floating point is not modelled.
- `TradeOffAnalyzer.__init__`'s `user_priorities` list is stored but never read, so it is not modelled.
- Input checking in `_score_transport`: the wrapping of a non-list transport value into a list (`tradeoff_analyzer.py:271-272`) is not modelled. Transport options are always a sequence of strings.
- Skipped rules in `evaluate`: the `try`/`except (TypeError, KeyError)` that skips a rule (`risk_engine.py:241-254`) cannot fire on the typed context, so it is not modelled.
- RiskEngine.OptionTradeOffs: the transport clauses compare the mode with plain strings. Options carry a transport-mode value, so those clauses never apply and are not emitted.
- `RiskLevel.description()` (`risk_engine.py:65-71`) is called by no operation of the core, so it is not modelled.
- Unused context fields: `has_night_activities` and `risk_tolerance` are carried in the context but read by no rule.
- Context rendering: the values of `inject_safety_context`'s context are taken as already-rendered strings.
- Console and demo code: `main.py`'s interactive flow (`start_app`: `input`, `print`) and the printing in the `__main__` demonstration blocks are not modelled; the demonstration's trade-off inputs are (`TradeOffAnalyzer.DemoRanking`).
- TradeOffAnalyzer.TradeOffs: states the rent and long-commute lines in one direction only (present when their condition holds). The converse needs the name-bearing sentences to differ from them, which holds for every name but is not proved.
