/** The trade-off analyzer: scores housing options on cost, commute,
    transport, amenities and a situational score, combines the scores with
    the analyzer's weights, writes strength, trade-off and warning sentences
    for each option, and ranks the options by their weighted total. */
module TradeOffAnalyzer {
  import opened Text
  import opened Ranking

  /** A housing option as the caller's dictionary gives it. A missing
      `rent_kes`, `commute_minutes` or `name` is `None`; a missing list is
      the empty list, which the analyzer treats the same way. */
  datatype HousingOption = HousingOption(
    name: Option<string>,
    rentKes: Option<real>,
    commuteMinutes: Option<int>,
    transportOptions: seq<string>,
    amenities: seq<string>)

  /** The score breakdown of one option. */
  datatype TradeOffScore = TradeOffScore(
    optionName: string,
    totalScore: real,
    costScore: real,
    commuteScore: real,
    convenienceScore: real,
    priorityScores: map<string, real>,
    strengths: seq<string>,
    tradeOffs: seq<string>,
    warnings: seq<string>)

  /** The comparison of several options: `options` in input order,
      `rankedOrder` the names from the best total to the worst. */
  datatype TradeOffComparison = TradeOffComparison(
    options: seq<TradeOffScore>,
    rankedOrder: seq<string>,
    keyDifferences: seq<string>,
    recommendationSummary: string)

  /** Python's number formatting, `{x:.0f}` and `{x:,}`, left abstract. */
  datatype Formats = Formats(fixed0: real -> string, grouped: real -> string)

  /** The weight table, in the dictionary's iteration order. */
  type Weights = seq<(string, real)>

  const DefaultWeights: Weights :=
    [("cost", 0.30), ("commute", 0.25), ("convenience", 0.20), ("transport", 0.15), ("amenities", 0.10)]

  /** The analyzer's weights: the caller's table, or the defaults when the
      caller gives none or an empty one. The result is never empty, and it
      is a valid table whenever the caller's is or the caller gives none. */
  function AnalyzerWeights(custom: Weights): (w: Weights)
    ensures w != []
    ensures custom != [] ==> w == custom
    ensures custom == [] || ValidWeights(custom) ==> ValidWeights(w)
  {
    if custom == [] then DefaultWeightsValid(); DefaultWeights else custom
  }

  /** `analyze_options` compares against a 30-minute commute unless told
      otherwise. */
  const DefaultWorkplaceMinutes: int := 30

  const DefaultRent: real := 50000.0
  const DefaultCommute: int := 30
  const UnknownName: string := "Unknown"
  const ThisArea: string := "This area"

  function Rent(o: HousingOption): real {
    if o.rentKes.Some? then o.rentKes.value else DefaultRent
  }

  function Commute(o: HousingOption): int {
    if o.commuteMinutes.Some? then o.commuteMinutes.value else DefaultCommute
  }

  /** The name recorded in the score. */
  function OptionName(o: HousingOption): string {
    if o.name.Some? then o.name.value else UnknownName
  }

  /** The name used inside the strength and trade-off sentences. */
  function NarrativeName(o: HousingOption): string {
    if o.name.Some? then o.name.value else ThisArea
  }

  function Min(a: real, b: real): real { if a <= b then a else b }
  function Max(a: real, b: real): real { if a >= b then a else b }
  function Abs(x: real): real { if x < 0.0 then -x else x }

  /** 1 when the condition holds, else 0. */
  function Ind(b: bool): nat { if b then 1 else 0 }

  function When(c: bool, line: string): seq<string> {
    if c then [line] else []
  }

  /** The sentences, or the fallback sentence alone when there are none. */
  function OrElse(lines: seq<string>, fallback: string): (r: seq<string>)
    ensures lines == [] ==> r == [fallback]
    ensures lines != [] ==> r == lines
  {
    if lines == [] then [fallback] else lines
  }

  // ---------------------------------------------------------------------
  // Sub-scores

  /** The cost score of a rent-to-budget ratio: four bands, then a penalty
      of 50 points per whole budget over, floored at 0. */
  function CostFromRatio(ratio: real): (r: real)
    ensures 0.0 <= r <= 100.0
    ensures ratio > 1.0 ==> r < 60.0
  {
    if ratio <= 0.5 then 100.0
    else if ratio <= 0.7 then 90.0
    else if ratio <= 0.85 then 75.0
    else if ratio <= 1.0 then 60.0
    else Max(0.0, 60.0 - (ratio - 1.0) * 50.0)
  }

  /** `_score_cost`: 50 for a missing or non-positive rent, otherwise the
      band of rent / budget (a ratio of 1.0 when there is no positive
      budget). */
  function ScoreCost(rent: real, budgetMax: real): (r: real)
    ensures rent <= 0.0 ==> r == 50.0
    ensures rent > 0.0 && budgetMax <= 0.0 ==> r == 60.0
    ensures 0.0 <= r <= 100.0
  {
    if rent <= 0.0 then 50.0
    else
      var ratio := if budgetMax > 0.0 then rent / budgetMax else 1.0;
      CostFromRatio(ratio)
  }

  lemma CostFromRatioMonotone(x: real, y: real)
    requires x <= y
    ensures CostFromRatio(y) <= CostFromRatio(x)
  {
  }

  /** A higher positive rent never scores better. */
  lemma ScoreCostMonotone(rent1: real, rent2: real, budgetMax: real)
    requires 0.0 < rent1 <= rent2
    ensures ScoreCost(rent2, budgetMax) <= ScoreCost(rent1, budgetMax)
  {
    if budgetMax > 0.0 {
      assert rent2 / budgetMax - rent1 / budgetMax == (rent2 - rent1) / budgetMax;
      CostFromRatioMonotone(rent1 / budgetMax, rent2 / budgetMax);
    }
  }

  /** Rent above a positive budget scores below the at-budget band, and
      rent within half the budget scores the full 100. */
  lemma ScoreCostBudgetBands(rent: real, budgetMax: real)
    requires rent > 0.0 && budgetMax > 0.0
    ensures rent > budgetMax ==> ScoreCost(rent, budgetMax) < 60.0
    ensures rent <= budgetMax ==> ScoreCost(rent, budgetMax) >= 60.0
    ensures 2.0 * rent <= budgetMax ==> ScoreCost(rent, budgetMax) == 100.0
  {
    var ratio := rent / budgetMax;
    assert ratio * budgetMax == rent;
    if rent > budgetMax {
      assert ratio > 1.0;
    } else {
      assert ratio <= 1.0;
    }
    if 2.0 * rent <= budgetMax {
      assert ratio <= 0.5;
    }
  }

  /** `_score_commute`: 100 up to the target, then bands at 1.25, 1.5 and 2
      times the target, then 30 less half a point per minute beyond twice
      the target, floored at 0. */
  function ScoreCommute(commute: int, target: int): (r: real)
    ensures 0.0 <= r <= 100.0
    ensures r == 100.0 <==> commute <= target
  {
    if commute <= target then 100.0
    else if commute as real <= target as real * 1.25 then 85.0
    else if commute as real <= target as real * 1.5 then 70.0
    else if commute <= target * 2 then 50.0
    else Max(0.0, 30.0 - (commute - target * 2) as real * 0.5)
  }

  /** A longer commute never scores better. */
  lemma ScoreCommuteMonotone(commute1: int, commute2: int, target: int)
    requires target >= 0 && commute1 <= commute2
    ensures ScoreCommute(commute2, target) <= ScoreCommute(commute1, target)
  {
  }

  /** The transport bonuses, one per mode. */
  const TransportBonuses: seq<(string, real)> :=
    [("matatu", 20.0), ("bodaboda", 15.0), ("bus", 15.0), ("walking", 10.0), ("private", 5.0)]

  /** `[t.lower() for t in transport]`. */
  function LowerAll(items: seq<string>): (r: seq<string>)
    ensures |r| == |items|
    ensures forall i :: 0 <= i < |items| ==> r[i] == Lower(items[i])
  {
    seq(|items|, i requires 0 <= i < |items| => Lower(items[i]))
  }

  /** The sum of the bonuses whose mode is among `modes`, each counted once. */
  function BonusSum(bonuses: seq<(string, real)>, modes: seq<string>): real {
    if bonuses == [] then 0.0
    else (if bonuses[0].0 in modes then bonuses[0].1 else 0.0) + BonusSum(bonuses[1..], modes)
  }

  /** The transport score: 50 plus the bonuses of the modes present after
      lower-casing, capped at 100. */
  function TransportScore(transport: seq<string>): real {
    Min(100.0, 50.0 + BonusSum(TransportBonuses, LowerAll(transport)))
  }

  lemma {:induction false} BonusSumMonotone(bonuses: seq<(string, real)>, modes1: seq<string>, modes2: seq<string>)
    requires forall k :: 0 <= k < |bonuses| ==> bonuses[k].1 >= 0.0
    requires forall m :: m in modes1 ==> m in modes2
    ensures 0.0 <= BonusSum(bonuses, modes1) <= BonusSum(bonuses, modes2)
  {
    if bonuses != [] {
      BonusSumMonotone(bonuses[1..], modes1, modes2);
    }
  }

  /** The transport score lies in [50, 100], and offering more modes never
      lowers it. */
  lemma TransportScoreMonotone(transport1: seq<string>, transport2: seq<string>)
    requires forall m :: m in LowerAll(transport1) ==> m in LowerAll(transport2)
    ensures 50.0 <= TransportScore(transport1) <= TransportScore(transport2) <= 100.0
  {
    BonusSumMonotone(TransportBonuses, LowerAll(transport1), LowerAll(transport2));
  }

  /** The score depends only on which modes are present, not on their
      order, repetition or letter case. */
  lemma TransportScoreDependsOnModes(transport1: seq<string>, transport2: seq<string>)
    requires forall m :: m in LowerAll(transport1) <==> m in LowerAll(transport2)
    ensures TransportScore(transport1) == TransportScore(transport2)
  {
    TransportScoreMonotone(transport1, transport2);
    TransportScoreMonotone(transport2, transport1);
  }

  /** The bonus sum of the transport table, one term per mode. */
  lemma TransportBonusTerms(modes: seq<string>)
    ensures BonusSum(TransportBonuses, modes) ==
      Adjustment("matatu" in modes, 20.0) + Adjustment("bodaboda" in modes, 15.0) + Adjustment("bus" in modes, 15.0)
      + Adjustment("walking" in modes, 10.0) + Adjustment("private" in modes, 5.0)
  {
    var t4: seq<(string, real)> := [("private", 5.0)];
    var t3 := [("walking", 10.0)] + t4;
    var t2 := [("bus", 15.0)] + t3;
    var t1 := [("bodaboda", 15.0)] + t2;
    assert TransportBonuses == [("matatu", 20.0)] + t1;
    assert BonusSum(t4, modes) == Adjustment("private" in modes, 5.0) by {
      assert t4[1..] == [];
    }
    assert BonusSum(t3, modes) == Adjustment("walking" in modes, 10.0) + BonusSum(t4, modes) by {
      assert t3[1..] == t4;
    }
    assert BonusSum(t2, modes) == Adjustment("bus" in modes, 15.0) + BonusSum(t3, modes) by {
      assert t2[1..] == t3;
    }
    assert BonusSum(t1, modes) == Adjustment("bodaboda" in modes, 15.0) + BonusSum(t2, modes) by {
      assert t1[1..] == t2;
    }
    assert ([("matatu", 20.0)] + t1)[1..] == t1;
  }

  /** `_score_transport`: adds each mode's bonus in turn. */
  method ScoreTransport(o: HousingOption) returns (score: real)
    ensures score == TransportScore(o.transportOptions)
    ensures 50.0 <= score <= 100.0
  {
    var lowered := LowerAll(o.transportOptions);
    score := 50.0;
    if "matatu" in lowered {
      score := score + 20.0;
    }
    if "bodaboda" in lowered {
      score := score + 15.0;
    }
    if "bus" in lowered {
      score := score + 15.0;
    }
    if "walking" in lowered {
      score := score + 10.0;
    }
    if "private" in lowered {
      score := score + 5.0;
    }
    score := Min(100.0, score);
    TransportBonusTerms(lowered);
    TransportScoreMonotone(o.transportOptions, o.transportOptions);
  }

  /** `_score_convenience`: 60% of the transport score plus 40% of ten
      points per amenity, the amenity part capped at 50. */
  function ScoreConvenience(transportScore: real, amenitiesCount: nat): (r: real)
    ensures 0.6 * transportScore <= r <= 0.6 * transportScore + 20.0
    ensures amenitiesCount >= 5 ==> r == 0.6 * transportScore + 20.0
  {
    transportScore * 0.6 + Min(50.0, (amenitiesCount * 10) as real) * 0.4
  }

  /** `_score_amenities`: 15 points per amenity, capped at 100. */
  function ScoreAmenities(count: nat): (r: real)
    ensures 0.0 <= r <= 100.0
    ensures r == 100.0 <==> count >= 7
  {
    Min(100.0, (count * 15) as real)
  }

  const MarketWords: seq<string> := ["market"]
  const HealthWords: seq<string> := ["hospital", "clinic"]

  /** Some item, lower-cased, contains one of the words. */
  function AnyMentions(items: seq<string>, words: seq<string>): (b: bool)
    ensures b <==> exists i :: 0 <= i < |items| && AnyContained(Lower(items[i]), words)
  {
    if items == [] then false
    else AnyContained(Lower(items[0]), words) || AnyMentions(items[1..], words)
  }

  function Adjustment(c: bool, delta: real): real {
    if c then delta else 0.0
  }

  /** The situational score: 70, plus 5 for matatu access, a market and
      healthcare among the amenities, less 5 for a commute over an hour. */
  function SituationalScore(o: HousingOption): (r: real)
    ensures 65.0 <= r <= 85.0
  {
    70.0
    + Adjustment("matatu" in LowerAll(o.transportOptions), 5.0)
    + Adjustment(Commute(o) > 60, -5.0)
    + Adjustment(AnyMentions(o.amenities, MarketWords), 5.0)
    + Adjustment(AnyMentions(o.amenities, HealthWords), 5.0)
  }

  /** `_calculate_safety_score`: adjusts 70 step by step, then clamps to
      [0, 100]; the clamp never takes effect. */
  method CalculateSafetyScore(o: HousingOption) returns (score: real)
    ensures score == SituationalScore(o)
  {
    score := 70.0;
    if "matatu" in LowerAll(o.transportOptions) {
      score := score + 5.0;
    }
    if Commute(o) > 60 {
      score := score - 5.0;
    }
    var hasMarket := AnyMentions(o.amenities, MarketWords);
    var hasHealth := AnyMentions(o.amenities, HealthWords);
    if hasMarket {
      score := score + 5.0;
    }
    if hasHealth {
      score := score + 5.0;
    }
    score := Max(0.0, Min(100.0, score));
  }

  // ---------------------------------------------------------------------
  // Weighted total

  /** `scores.get(category, 50)`. */
  function Lookup(scores: map<string, real>, category: string): real {
    if category in scores then scores[category] else 50.0
  }

  /** The sum of weight times score over the weight table. */
  function WeightedSum(weights: Weights, scores: map<string, real>): real
    decreases |weights|
  {
    if weights == [] then 0.0
    else
      var last := weights[|weights| - 1];
      WeightedSum(weights[..|weights| - 1], scores) + Lookup(scores, last.0) * last.1
  }

  function TotalWeight(weights: Weights): real
    decreases |weights|
  {
    if weights == [] then 0.0 else TotalWeight(weights[..|weights| - 1]) + weights[|weights| - 1].1
  }

  /** Each category at most once, as in a dictionary. */
  predicate DistinctKeys(weights: Weights) {
    forall i, j :: 0 <= i < j < |weights| ==> weights[i].0 != weights[j].0
  }

  /** A dictionary of non-negative weights that sum to 1. */
  predicate ValidWeights(weights: Weights) {
    DistinctKeys(weights)
    && (forall k :: 0 <= k < |weights| ==> weights[k].1 >= 0.0) && TotalWeight(weights) == 1.0
  }

  predicate ScoresInRange(scores: map<string, real>) {
    forall c :: c in scores ==> 0.0 <= scores[c] <= 100.0
  }

  /** `_calculate_weighted_total`. */
  method CalculateWeightedTotal(weights: Weights, scores: map<string, real>) returns (total: real)
    ensures total == WeightedSum(weights, scores)
  {
    total := 0.0;
    for i := 0 to |weights|
      invariant total == WeightedSum(weights[..i], scores)
    {
      var (category, weight) := weights[i];
      var score := Lookup(scores, category);
      total := total + score * weight;
      assert weights[..i + 1][..i] == weights[..i];
    }
    assert weights[..|weights|] == weights;
  }

  lemma {:induction false} WeightedSumBounds(weights: Weights, scores: map<string, real>)
    requires forall k :: 0 <= k < |weights| ==> weights[k].1 >= 0.0
    requires ScoresInRange(scores)
    ensures 0.0 <= WeightedSum(weights, scores) <= 100.0 * TotalWeight(weights)
    decreases |weights|
  {
    if weights != [] {
      var n := |weights| - 1;
      WeightedSumBounds(weights[..n], scores);
      var s := Lookup(scores, weights[n].0);
      var w := weights[n].1;
      assert 0.0 <= s <= 100.0;
      assert 0.0 <= s * w <= 100.0 * w;
      assert TotalWeight(weights) == TotalWeight(weights[..n]) + w;
      assert WeightedSum(weights, scores) == WeightedSum(weights[..n], scores) + s * w;
    }
  }

  /** With non-negative weights summing to 1 and sub-scores in [0, 100],
      the weighted total lies in [0, 100]. */
  lemma WeightedTotalInRange(weights: Weights, scores: map<string, real>)
    requires ValidWeights(weights)
    requires ScoresInRange(scores)
    ensures 0.0 <= WeightedSum(weights, scores) <= 100.0
  {
    WeightedSumBounds(weights, scores);
  }

  lemma DefaultWeightsValid()
    ensures ValidWeights(DefaultWeights)
  {
    var w1: Weights := [("cost", 0.30)];
    var w2 := w1 + [("commute", 0.25)];
    var w3 := w2 + [("convenience", 0.20)];
    var w4 := w3 + [("transport", 0.15)];
    assert DefaultWeights == w4 + [("amenities", 0.10)];
    assert w1[..0] == [] && w2[..1] == w1 && w3[..2] == w2 && w4[..3] == w3 && (w4 + [("amenities", 0.10)])[..4] == w4;
    assert TotalWeight(w1) == 0.30;
    assert TotalWeight(w2) == 0.55;
    assert TotalWeight(w3) == 0.75;
    assert TotalWeight(w4) == 0.90;
  }

  /** With the default weights the total is 0.30 cost + 0.25 commute + 0.20
      convenience + 0.15 transport + 0.10 amenities, each read with the
      default of 50. */
  lemma DefaultWeightedSum(scores: map<string, real>)
    ensures WeightedSum(DefaultWeights, scores) ==
      0.30 * Lookup(scores, "cost") + 0.25 * Lookup(scores, "commute") + 0.20 * Lookup(scores, "convenience")
      + 0.15 * Lookup(scores, "transport") + 0.10 * Lookup(scores, "amenities")
  {
    var w1: Weights := [("cost", 0.30)];
    var w2 := w1 + [("commute", 0.25)];
    var w3 := w2 + [("convenience", 0.20)];
    var w4 := w3 + [("transport", 0.15)];
    assert DefaultWeights == w4 + [("amenities", 0.10)];
    assert w1[..0] == [] && w2[..1] == w1 && w3[..2] == w2 && w4[..3] == w3 && (w4 + [("amenities", 0.10)])[..4] == w4;
    assert WeightedSum(w1, scores) == 0.30 * Lookup(scores, "cost");
    assert WeightedSum(w2, scores) == WeightedSum(w1, scores) + 0.25 * Lookup(scores, "commute");
    assert WeightedSum(w3, scores) == WeightedSum(w2, scores) + 0.20 * Lookup(scores, "convenience");
    assert WeightedSum(w4, scores) == WeightedSum(w3, scores) + 0.15 * Lookup(scores, "transport");
  }

  /** With the default weights a score that has no weight, such as the
      situational score, does not change the total. */
  lemma UnweightedScoreIgnored(scores: map<string, real>, value: real)
    ensures WeightedSum(DefaultWeights, scores["safety_concerns" := value]) == WeightedSum(DefaultWeights, scores)
  {
    DefaultWeightedSum(scores);
    DefaultWeightedSum(scores["safety_concerns" := value]);
  }

  /** The sub-scores of one option, keyed as in the weight table; there is
      no "convenience" entry. */
  function PriorityScores(safety: real, cost: real, commute: real, transport: real, amenities: real): map<string, real> {
    map["safety_concerns" := safety, "cost" := cost, "commute" := commute,
        "transport" := transport, "amenities" := amenities]
  }

  // ---------------------------------------------------------------------
  // Sentences

  const GoodAmenities: string := "Good local amenities (market, shops, services)"

  function CostStrength(name: string, cost: real): seq<string> {
    if cost >= 90.0 then [name + " offers excellent value within your budget"]
    else if cost >= 75.0 then [name + " is reasonably priced"]
    else []
  }

  function CommuteStrength(name: string, commute: real): seq<string> {
    if commute >= 90.0 then ["Very short commute from " + name]
    else if commute >= 75.0 then [name + " has a manageable commute"]
    else []
  }

  /** The strengths: at most one cost line, at most one commute line, a
      transport line and an amenities line, or the fallback alone. */
  function Strengths(name: string, amenitiesCount: nat, cost: real, commute: real, transport: real): (r: seq<string>)
    ensures 1 <= |r| <= 4
    ensures cost < 75.0 && commute < 75.0 && transport < 80.0 && amenitiesCount < 4 ==>
      r == [name + " may suit your specific priorities"]
    ensures cost >= 75.0 || commute >= 75.0 || transport >= 80.0 || amenitiesCount >= 4 ==>
      |r| == Ind(cost >= 75.0) + Ind(commute >= 75.0) + Ind(transport >= 80.0) + Ind(amenitiesCount >= 4)
    ensures cost >= 90.0 ==> r[0] == name + " offers excellent value within your budget"
    ensures 75.0 <= cost < 90.0 ==> r[0] == name + " is reasonably priced"
    ensures commute >= 90.0 ==> r[Ind(cost >= 75.0)] == "Very short commute from " + name
    ensures 75.0 <= commute < 90.0 ==> r[Ind(cost >= 75.0)] == name + " has a manageable commute"
    ensures transport >= 80.0 ==>
      r[Ind(cost >= 75.0) + Ind(commute >= 75.0)] == "Multiple transport options available near " + name
    ensures amenitiesCount >= 4 ==> r[|r| - 1] == GoodAmenities
  {
    OrElse(
      CostStrength(name, cost)
      + CommuteStrength(name, commute)
      + When(transport >= 80.0, "Multiple transport options available near " + name)
      + When(amenitiesCount >= 4, GoodAmenities),
      name + " may suit your specific priorities")
  }

  /** `_identify_strengths`. */
  method IdentifyStrengths(o: HousingOption, cost: real, commute: real, transport: real) returns (strengths: seq<string>)
    ensures strengths == Strengths(NarrativeName(o), |o.amenities|, cost, commute, transport)
  {
    strengths := [];
    var name := NarrativeName(o);
    if cost >= 90.0 {
      strengths := strengths + [name + " offers excellent value within your budget"];
    } else if cost >= 75.0 {
      strengths := strengths + [name + " is reasonably priced"];
    }
    assert strengths == CostStrength(name, cost);
    if commute >= 90.0 {
      strengths := strengths + ["Very short commute from " + name];
    } else if commute >= 75.0 {
      strengths := strengths + [name + " has a manageable commute"];
    }
    assert strengths == CostStrength(name, cost) + CommuteStrength(name, commute);
    if transport >= 80.0 {
      strengths := strengths + ["Multiple transport options available near " + name];
    }
    if |o.amenities| >= 4 {
      strengths := strengths + [GoodAmenities];
    }
    if strengths == [] {
      strengths := strengths + [name + " may suit your specific priorities"];
    }
  }

  const HigherRentLine: string := "Higher rent means less flexibility for other expenses"
  const LongCommuteLine: string := "Long commute reduces time for other activities"

  /** At most one line weighing rent against commute: cheap but far, or
      close but expensive. */
  function CostCommuteTradeOff(name: string, rent: real, commute: int): (r: seq<string>)
    ensures |r| <= 1
    ensures r != [] <==> (rent < 40000.0 && commute > 45) || (rent > 70000.0 && commute < 30)
    ensures rent < 40000.0 && commute > 45 ==> r == ["Lower rent in " + name + " but longer commute"]
    ensures rent > 70000.0 && commute < 30 ==> r == ["Shorter commute in " + name + " comes with higher rent"]
  {
    if rent < 40000.0 && commute > 45 then ["Lower rent in " + name + " but longer commute"]
    else if rent > 70000.0 && commute < 30 then ["Shorter commute in " + name + " comes with higher rent"]
    else []
  }

  /** The trade-offs: at most one cost-against-commute line, a transport
      line, a rent line and a commute line, or the fallback alone. */
  function TradeOffs(name: string, rent: real, commute: int, transport: real): (r: seq<string>)
    ensures 1 <= |r| <= 4
    ensures rent > 60000.0 ==> HigherRentLine in r
    ensures commute > 60 ==> LongCommuteLine in r
    ensures CostCommuteTradeOff(name, rent, commute) == [] && transport >= 60.0 && rent <= 60000.0 && commute <= 60 ==>
      r == [name + " offers balanced trade-offs for your criteria"]
    ensures CostCommuteTradeOff(name, rent, commute) != [] || transport < 60.0 || rent > 60000.0 || commute > 60 ==>
      |r| == |CostCommuteTradeOff(name, rent, commute)| + Ind(transport < 60.0) + Ind(rent > 60000.0) + Ind(commute > 60)
    ensures rent < 40000.0 && commute > 45 ==> r[0] == "Lower rent in " + name + " but longer commute"
    ensures rent > 70000.0 && commute < 30 ==> r[0] == "Shorter commute in " + name + " comes with higher rent"
    ensures transport < 60.0 ==>
      r[|CostCommuteTradeOff(name, rent, commute)|] == "Limited transport options in " + name + " - consider availability"
    ensures rent > 60000.0 ==>
      r[|CostCommuteTradeOff(name, rent, commute)| + Ind(transport < 60.0)] == HigherRentLine
    ensures commute > 60 ==> r[|r| - 1] == LongCommuteLine
  {
    OrElse(
      CostCommuteTradeOff(name, rent, commute)
      + When(transport < 60.0, "Limited transport options in " + name + " - consider availability")
      + When(rent > 60000.0, HigherRentLine)
      + When(commute > 60, LongCommuteLine),
      name + " offers balanced trade-offs for your criteria")
  }

  /** `_identify_tradeoffs`. */
  method IdentifyTradeoffs(o: HousingOption, rent: real, commute: int, transport: real) returns (tradeoffs: seq<string>)
    ensures tradeoffs == TradeOffs(NarrativeName(o), rent, commute, transport)
  {
    tradeoffs := [];
    var name := NarrativeName(o);
    if rent < 40000.0 && commute > 45 {
      tradeoffs := tradeoffs + ["Lower rent in " + name + " but longer commute"];
    } else if rent > 70000.0 && commute < 30 {
      tradeoffs := tradeoffs + ["Shorter commute in " + name + " comes with higher rent"];
    }
    if transport < 60.0 {
      tradeoffs := tradeoffs + ["Limited transport options in " + name + " - consider availability"];
    }
    if rent > 60000.0 {
      tradeoffs := tradeoffs + [HigherRentLine];
    }
    if commute > 60 {
      tradeoffs := tradeoffs + [LongCommuteLine];
    }
    if tradeoffs == [] {
      tradeoffs := tradeoffs + [name + " offers balanced trade-offs for your criteria"];
    }
  }

  const OverBudgetWarning: string := "Rent exceeds your stated budget"
  const VeryLongCommuteWarning: string := "Very long commute - consider time and transport costs"
  const LimitedTransportWarning: string := "Limited transport options - verify reliability"

  /** The warnings, in this order: over budget, very long commute, and
      transport that is missing or walking alone (compared as given, without
      lower-casing). */
  function Warnings(transport: seq<string>, rent: real, budgetMax: real, commute: int): (r: seq<string>)
    ensures |r| <= 3
    ensures OverBudgetWarning in r <==> rent > budgetMax
    ensures VeryLongCommuteWarning in r <==> commute > 90
    ensures LimitedTransportWarning in r <==> transport == [] || transport == ["walking"]
  {
    var walkingOnly := |transport| == 1 && "walking" in transport;
    assert walkingOnly <==> transport == ["walking"] by {
      if walkingOnly {
        assert transport[0] == "walking";
      }
    }
    When(rent > budgetMax, OverBudgetWarning)
    + When(commute > 90, VeryLongCommuteWarning)
    + When(transport == [] || walkingOnly, LimitedTransportWarning)
  }

  /** `_generate_warnings`. */
  method GenerateWarnings(o: HousingOption, rent: real, budgetMax: real, commute: int) returns (warnings: seq<string>)
    ensures warnings == Warnings(o.transportOptions, rent, budgetMax, commute)
  {
    warnings := [];
    if rent > budgetMax {
      warnings := warnings + [OverBudgetWarning];
    }
    if commute > 90 {
      warnings := warnings + [VeryLongCommuteWarning];
    }
    var transport := o.transportOptions;
    if transport == [] || (|transport| == 1 && "walking" in transport) {
      warnings := warnings + [LimitedTransportWarning];
    }
  }

  // ---------------------------------------------------------------------
  // One option

  /** The full score breakdown of one option. */
  function OptionScore(weights: Weights, o: HousingOption, budgetMax: real, targetCommute: int): TradeOffScore {
    var rent := Rent(o);
    var commute := Commute(o);
    var transport := TransportScore(o.transportOptions);
    var count := |o.amenities|;
    var cost := ScoreCost(rent, budgetMax);
    var commuteScore := ScoreCommute(commute, targetCommute);
    var scores := PriorityScores(SituationalScore(o), cost, commuteScore, transport, ScoreAmenities(count));
    TradeOffScore(
      OptionName(o), WeightedSum(weights, scores), cost, commuteScore, ScoreConvenience(transport, count),
      scores,
      Strengths(NarrativeName(o), count, cost, commuteScore, transport),
      TradeOffs(NarrativeName(o), rent, commute, transport),
      Warnings(o.transportOptions, rent, budgetMax, commute))
  }

  /** `_score_option`. */
  method ScoreOption(weights: Weights, o: HousingOption, budgetMax: real, targetCommute: int) returns (s: TradeOffScore)
    ensures s == OptionScore(weights, o, budgetMax, targetCommute)
  {
    var rent := Rent(o);
    var commute := Commute(o);
    var transportScore := ScoreTransport(o);
    var amenitiesCount := |o.amenities|;
    var costScore := ScoreCost(rent, budgetMax);
    var commuteScore := ScoreCommute(commute, targetCommute);
    var convenienceScore := ScoreConvenience(transportScore, amenitiesCount);
    var safety := CalculateSafetyScore(o);
    var priorityScores := PriorityScores(safety, costScore, commuteScore, transportScore, ScoreAmenities(amenitiesCount));
    var totalScore := CalculateWeightedTotal(weights, priorityScores);
    var strengths := IdentifyStrengths(o, costScore, commuteScore, transportScore);
    var tradeOffs := IdentifyTradeoffs(o, rent, commute, transportScore);
    var warnings := GenerateWarnings(o, rent, budgetMax, commute);
    s := TradeOffScore(OptionName(o), totalScore, costScore, commuteScore, convenienceScore,
                       priorityScores, strengths, tradeOffs, warnings);
  }

  /** Every score of an option lies in [0, 100] when the weights are valid,
      and its strength and trade-off lists are never empty. */
  lemma OptionScoreBounds(weights: Weights, o: HousingOption, budgetMax: real, targetCommute: int)
    requires ValidWeights(weights)
    ensures var s := OptionScore(weights, o, budgetMax, targetCommute);
      0.0 <= s.totalScore <= 100.0 && 0.0 <= s.costScore <= 100.0 && 0.0 <= s.commuteScore <= 100.0
      && 30.0 <= s.convenienceScore <= 80.0 && ScoresInRange(s.priorityScores)
      && s.strengths != [] && s.tradeOffs != []
  {
    var transport := TransportScore(o.transportOptions);
    TransportScoreMonotone(o.transportOptions, o.transportOptions);
    var cost := ScoreCost(Rent(o), budgetMax);
    var commuteScore := ScoreCommute(Commute(o), targetCommute);
    var scores := PriorityScores(SituationalScore(o), cost, commuteScore, transport, ScoreAmenities(|o.amenities|));
    assert ScoresInRange(scores);
    WeightedTotalInRange(weights, scores);
  }

  /** With the default weights the convenience score and the situational
      score do not count: the total is 0.30 cost + 0.25 commute + 10 +
      0.15 transport + 0.10 amenities. */
  lemma DefaultTotal(o: HousingOption, budgetMax: real, targetCommute: int)
    ensures var s := OptionScore(DefaultWeights, o, budgetMax, targetCommute);
      s.totalScore == 0.30 * s.costScore + 0.25 * s.commuteScore + 0.20 * 50.0
        + 0.15 * TransportScore(o.transportOptions) + 0.10 * ScoreAmenities(|o.amenities|)
  {
    var s := OptionScore(DefaultWeights, o, budgetMax, targetCommute);
    DefaultWeightedSum(s.priorityScores);
    assert "convenience" !in s.priorityScores;
  }

  // ---------------------------------------------------------------------
  // Comparison

  function Totals(scored: seq<TradeOffScore>): (t: seq<real>)
    ensures |t| == |scored|
    ensures forall i :: 0 <= i < |scored| ==> t[i] == scored[i].totalScore
  {
    seq(|scored|, i requires 0 <= i < |scored| => scored[i].totalScore)
  }

  /** `sorted(scored, key=total_score, reverse=True)`: the scores in the
      order `Rank` gives their totals. */
  function RankedScores(scored: seq<TradeOffScore>): (r: seq<TradeOffScore>)
    ensures |r| == |scored|
    ensures forall k :: 0 <= k < |r| ==> Rank(Totals(scored))[k] < |scored| && r[k] == scored[Rank(Totals(scored))[k]]
    ensures forall a, b :: 0 <= a < b < |r| ==> r[a].totalScore >= r[b].totalScore
  {
    var p := Rank(Totals(scored));
    RankIsStableDescending(Totals(scored));
    seq(|p|, k requires 0 <= k < |p| => scored[p[k]])
  }

  function Names(scored: seq<TradeOffScore>): (r: seq<string>)
    ensures |r| == |scored|
    ensures forall k :: 0 <= k < |scored| ==> r[k] == scored[k].optionName
  {
    seq(|scored|, k requires 0 <= k < |scored| => scored[k].optionName)
  }

  const OnlyOneOption: string := "Only one option to compare"

  function CostGap(ranked: seq<TradeOffScore>): real
    requires |ranked| >= 2
  {
    ranked[0].costScore - ranked[1].costScore
  }

  function CommuteGap(ranked: seq<TradeOffScore>): real
    requires |ranked| >= 2
  {
    ranked[0].commuteScore - ranked[1].commuteScore
  }

  /** `priority_scores.get("transport", 0)`. */
  function TransportOf(s: TradeOffScore): real {
    if "transport" in s.priorityScores then s.priorityScores["transport"] else 0.0
  }

  function TransportGap(ranked: seq<TradeOffScore>): real
    requires |ranked| >= 2
  {
    TransportOf(ranked[0]) - TransportOf(ranked[1])
  }

  /** The cost line: which side of the gap the best option is on, and how
      many points it is. */
  function CostLine(fmt: Formats, gap: real): (line: string)
    ensures gap > 0.0 ==> "Cost: Lower rent option" <= line
    ensures gap <= 0.0 ==> "Cost: Higher rent option" <= line
  {
    "Cost: " + (if gap > 0.0 then "Lower rent option" else "Higher rent option")
    + " scores " + fmt.fixed0(Abs(gap)) + "% better"
  }

  function CommuteLine(fmt: Formats, gap: real): (line: string)
    ensures gap > 0.0 ==> "Commute: Shorter commute" <= line
    ensures gap <= 0.0 ==> "Commute: Longer commute" <= line
  {
    "Commute: " + (if gap > 0.0 then "Shorter commute" else "Longer commute")
    + " option scores " + fmt.fixed0(Abs(gap)) + "% better"
  }

  function TransportLine(fmt: Formats, gap: real): (line: string)
    ensures gap > 0.0 ==> "Transport: Better transport" <= line
    ensures gap <= 0.0 ==> "Transport: Limited transport" <= line
  {
    "Transport: " + (if gap > 0.0 then "Better transport" else "Limited transport")
    + " option is " + fmt.fixed0(Abs(gap)) + "% better"
  }

  /** `_identify_differences`: compares the two best options on cost,
      commute and transport, one line for each gap wider than 10, 10 and 15
      points, in that order. */
  function IdentifyDifferences(fmt: Formats, ranked: seq<TradeOffScore>): (r: seq<string>)
    ensures |ranked| < 2 ==> r == [OnlyOneOption]
    ensures |ranked| >= 2 ==>
      |r| == Ind(Abs(CostGap(ranked)) > 10.0) + Ind(Abs(CommuteGap(ranked)) > 10.0) + Ind(Abs(TransportGap(ranked)) > 15.0)
    ensures |ranked| >= 2 && Abs(CostGap(ranked)) > 10.0 ==> r[0] == CostLine(fmt, CostGap(ranked))
    ensures |ranked| >= 2 && Abs(CommuteGap(ranked)) > 10.0 ==>
      r[Ind(Abs(CostGap(ranked)) > 10.0)] == CommuteLine(fmt, CommuteGap(ranked))
    ensures |ranked| >= 2 && Abs(TransportGap(ranked)) > 15.0 ==> r[|r| - 1] == TransportLine(fmt, TransportGap(ranked))
  {
    if |ranked| < 2 then [OnlyOneOption]
    else
      var costDiff := CostGap(ranked);
      var commuteDiff := CommuteGap(ranked);
      var transportDiff := TransportGap(ranked);
      When(Abs(costDiff) > 10.0, CostLine(fmt, costDiff))
      + When(Abs(commuteDiff) > 10.0, CommuteLine(fmt, commuteDiff))
      + When(Abs(transportDiff) > 15.0, TransportLine(fmt, transportDiff))
  }

  const NoOptions: string := "No options to compare."
  const SummaryOpening: string := "Based on your criteria and budget of KES "
  const BestBalance: string := " appears to offer the best balance with:\n"
  const SummaryFooter: string := "\n*This is advisory information. Visit areas personally and verify current rents.*"
  const NoteOpening: string := "\n⚠️  Note: "

  function Bold(name: string): string {
    "**" + name + "**"
  }

  function Bullet(line: string): string {
    "• " + line + "\n"
  }

  /** One bullet line per strength. */
  function Bullets(lines: seq<string>): string
    decreases |lines|
  {
    if lines == [] then ""
    else Bullets(lines[..|lines| - 1]) + Bullet(lines[|lines| - 1])
  }

  function SummaryHead(fmt: Formats, budgetMax: real, name: string): string {
    SummaryOpening + fmt.grouped(budgetMax) + ":\n\n" + Bold(name) + BestBalance
  }

  function KeyTradeOffLine(tradeOffs: seq<string>): string {
    "\nKey trade-off: " + (if tradeOffs != [] then tradeOffs[0] else "Balanced across criteria") + "\n"
  }

  function NoteLine(warnings: seq<string>): string {
    if warnings != [] then NoteOpening + warnings[0] + "\n" else ""
  }

  function TopStrengths(s: TradeOffScore): seq<string> {
    if |s.strengths| <= 2 then s.strengths else s.strengths[..2]
  }

  /** The summary paragraph about the best-ranked option. */
  function SummaryText(fmt: Formats, ranked: seq<TradeOffScore>, budgetMax: real): string {
    if ranked == [] then NoOptions
    else
      var best := ranked[0];
      SummaryHead(fmt, budgetMax, best.optionName) + Bullets(TopStrengths(best))
      + KeyTradeOffLine(best.tradeOffs) + NoteLine(best.warnings) + SummaryFooter
  }

  /** Without options the summary says so; otherwise it opens with the
      budget sentence and closes with the advisory footer. */
  lemma SummaryFrame(fmt: Formats, ranked: seq<TradeOffScore>, budgetMax: real)
    ensures ranked == [] ==> SummaryText(fmt, ranked, budgetMax) == NoOptions
    ensures ranked != [] ==> SummaryOpening <= SummaryText(fmt, ranked, budgetMax)
    ensures ranked != [] ==> IsSuffix(SummaryFooter, SummaryText(fmt, ranked, budgetMax))
  {
    if ranked != [] {
      var best := ranked[0];
      var g := fmt.grouped(budgetMax);
      var p1 := SummaryOpening + g;
      var p2 := p1 + ":\n\n";
      var p3 := p2 + Bold(best.optionName);
      var head := p3 + BestBalance;
      var p5 := head + Bullets(TopStrengths(best));
      var p6 := p5 + KeyTradeOffLine(best.tradeOffs);
      var p7 := p6 + NoteLine(best.warnings);
      assert SummaryText(fmt, ranked, budgetMax) == p7 + SummaryFooter;
      PrefixExtend(SummaryOpening, SummaryOpening, g);
      PrefixExtend(SummaryOpening, p1, ":\n\n");
      PrefixExtend(SummaryOpening, p2, Bold(best.optionName));
      PrefixExtend(SummaryOpening, p3, BestBalance);
      PrefixExtend(SummaryOpening, head, Bullets(TopStrengths(best)));
      PrefixExtend(SummaryOpening, p5, KeyTradeOffLine(best.tradeOffs));
      PrefixExtend(SummaryOpening, p6, NoteLine(best.warnings));
      PrefixExtend(SummaryOpening, p7, SummaryFooter);
      SuffixOfAppend(p7, SummaryFooter);
    }
  }

  /** `_generate_summary`. */
  method GenerateSummary(fmt: Formats, ranked: seq<TradeOffScore>, budgetMax: real) returns (summary: string)
    ensures summary == SummaryText(fmt, ranked, budgetMax)
  {
    if ranked == [] {
      return NoOptions;
    }
    var best := ranked[0];
    var name := best.optionName;
    summary := SummaryOpening + fmt.grouped(budgetMax) + ":\n\n";
    summary := summary + Bold(name) + BestBalance;
    var head := summary;
    var top := TopStrengths(best);
    for i := 0 to |top|
      invariant summary == head + Bullets(top[..i])
    {
      assert top[..i + 1][..i] == top[..i];
      summary := summary + Bullet(top[i]);
    }
    assert top[..|top|] == top;
    summary := summary + KeyTradeOffLine(best.tradeOffs);
    if best.warnings != [] {
      summary := summary + NoteOpening + best.warnings[0] + "\n";
    }
    summary := summary + SummaryFooter;
  }

  lemma {:induction false} BulletsMention(lines: seq<string>, k: nat)
    requires k < |lines|
    ensures Contains(Bullets(lines), Bullet(lines[k]))
    decreases |lines|
  {
    var n := |lines| - 1;
    if k == n {
      ContainsItself(Bullet(lines[k]));
      ContainsExtendLeft(Bullets(lines[..n]), Bullet(lines[k]), Bullet(lines[k]));
    } else {
      BulletsMention(lines[..n], k);
      ContainsExtendRight(Bullets(lines[..n]), Bullet(lines[n]), Bullet(lines[k]));
    }
  }

  /** The summary names the best option in bold. */
  lemma SummaryNamesBest(fmt: Formats, ranked: seq<TradeOffScore>, budgetMax: real)
    requires ranked != []
    ensures Contains(SummaryText(fmt, ranked, budgetMax), Bold(ranked[0].optionName))
  {
    var best := ranked[0];
    var bold := Bold(best.optionName);
    var pre := SummaryOpening + fmt.grouped(budgetMax) + ":\n\n";
    var head := pre + bold + BestBalance;
    var p5 := head + Bullets(TopStrengths(best));
    var p6 := p5 + KeyTradeOffLine(best.tradeOffs);
    var p7 := p6 + NoteLine(best.warnings);
    assert SummaryText(fmt, ranked, budgetMax) == p7 + SummaryFooter;
    ContainsItself(bold);
    ContainsExtendLeft(pre, bold, bold);
    ContainsExtendRight(pre + bold, BestBalance, bold);
    ContainsExtendRight(head, Bullets(TopStrengths(best)), bold);
    ContainsExtendRight(p5, KeyTradeOffLine(best.tradeOffs), bold);
    ContainsExtendRight(p6, NoteLine(best.warnings), bold);
    ContainsExtendRight(p7, SummaryFooter, bold);
  }

  /** The summary lists the first two strengths of the best option as
      bullets. */
  lemma SummaryListsStrengths(fmt: Formats, ranked: seq<TradeOffScore>, budgetMax: real, k: nat)
    requires ranked != [] && k < |ranked[0].strengths| && k < 2
    ensures Contains(SummaryText(fmt, ranked, budgetMax), Bullet(ranked[0].strengths[k]))
  {
    var best := ranked[0];
    var line := Bullet(best.strengths[k]);
    var head := SummaryHead(fmt, budgetMax, best.optionName);
    var p5 := head + Bullets(TopStrengths(best));
    var p6 := p5 + KeyTradeOffLine(best.tradeOffs);
    var p7 := p6 + NoteLine(best.warnings);
    assert SummaryText(fmt, ranked, budgetMax) == p7 + SummaryFooter;
    assert TopStrengths(best)[k] == best.strengths[k];
    BulletsMention(TopStrengths(best), k);
    ContainsExtendLeft(head, Bullets(TopStrengths(best)), line);
    ContainsExtendRight(p5, KeyTradeOffLine(best.tradeOffs), line);
    ContainsExtendRight(p6, NoteLine(best.warnings), line);
    ContainsExtendRight(p7, SummaryFooter, line);
  }

  /** The summary repeats the first warning of the best option. */
  lemma SummaryNotesWarning(fmt: Formats, ranked: seq<TradeOffScore>, budgetMax: real)
    requires ranked != [] && ranked[0].warnings != []
    ensures Contains(SummaryText(fmt, ranked, budgetMax), NoteOpening + ranked[0].warnings[0] + "\n")
  {
    var best := ranked[0];
    var p6 := SummaryHead(fmt, budgetMax, best.optionName) + Bullets(TopStrengths(best)) + KeyTradeOffLine(best.tradeOffs);
    var note := NoteLine(best.warnings);
    assert note == NoteOpening + best.warnings[0] + "\n";
    assert SummaryText(fmt, ranked, budgetMax) == p6 + note + SummaryFooter;
    ContainsItself(note);
    ContainsExtendLeft(p6, note, note);
    ContainsExtendRight(p6 + note, SummaryFooter, note);
  }

  /** Every option scored, in input order. */
  function Scored(weights: Weights, options: seq<HousingOption>, budgetMax: real, workplaceMinutes: int): (r: seq<TradeOffScore>)
    ensures |r| == |options|
    decreases |options|
  {
    if options == [] then []
    else
      var last := |options| - 1;
      Scored(weights, options[..last], budgetMax, workplaceMinutes) + [OptionScore(weights, options[last], budgetMax, workplaceMinutes)]
  }

  /** Entry i of the scored list is option i's score. */
  lemma {:induction false} ScoredAt(weights: Weights, options: seq<HousingOption>, budgetMax: real, workplaceMinutes: int, i: nat)
    requires i < |options|
    ensures Scored(weights, options, budgetMax, workplaceMinutes)[i] == OptionScore(weights, options[i], budgetMax, workplaceMinutes)
    decreases |options|
  {
    if i < |options| - 1 {
      ScoredAt(weights, options[..|options| - 1], budgetMax, workplaceMinutes, i);
    }
  }

  lemma ScoredStep(weights: Weights, options: seq<HousingOption>, budgetMax: real, workplaceMinutes: int, i: nat)
    requires i < |options|
    ensures Scored(weights, options[..i + 1], budgetMax, workplaceMinutes) ==
      Scored(weights, options[..i], budgetMax, workplaceMinutes) + [OptionScore(weights, options[i], budgetMax, workplaceMinutes)]
  {
    assert options[..i + 1][..i] == options[..i];
  }

  /** The scoring loop of `analyze_options`: every option scored, in input
      order. */
  method ScoreAll(weights: Weights, options: seq<HousingOption>, budgetMax: real, workplaceMinutes: int)
    returns (scored: seq<TradeOffScore>)
    ensures scored == Scored(weights, options, budgetMax, workplaceMinutes)
    ensures |scored| == |options|
    ensures forall i :: 0 <= i < |options| ==> scored[i] == OptionScore(weights, options[i], budgetMax, workplaceMinutes)
  {
    scored := [];
    for i := 0 to |options|
      invariant scored == Scored(weights, options[..i], budgetMax, workplaceMinutes)
    {
      var score := ScoreOption(weights, options[i], budgetMax, workplaceMinutes);
      ScoredStep(weights, options, budgetMax, workplaceMinutes, i);
      scored := scored + [score];
    }
    assert options[..|options|] == options;
    forall i | 0 <= i < |options|
      ensures scored[i] == OptionScore(weights, options[i], budgetMax, workplaceMinutes)
    {
      ScoredAt(weights, options, budgetMax, workplaceMinutes, i);
    }
  }

  /** `analyze_options`: scores every option in input order, ranks the
      scores, and derives the differences and the summary from the ranking. */
  method AnalyzeOptions(custom: Weights, fmt: Formats, options: seq<HousingOption>, budgetMax: real, workplaceMinutes: int)
    returns (c: TradeOffComparison)
    ensures |c.options| == |options| && |c.rankedOrder| == |options|
    ensures forall i :: 0 <= i < |options| ==>
      c.options[i] == OptionScore(AnalyzerWeights(custom), options[i], budgetMax, workplaceMinutes)
    ensures c.rankedOrder == Names(RankedScores(c.options))
    ensures c.keyDifferences == IdentifyDifferences(fmt, RankedScores(c.options))
    ensures c.recommendationSummary == SummaryText(fmt, RankedScores(c.options), budgetMax)
  {
    var weights := AnalyzerWeights(custom);
    var scored := ScoreAll(weights, options, budgetMax, workplaceMinutes);
    var ranked := RankedScores(scored);
    var rankedNames := Names(ranked);
    var differences := IdentifyDifferences(fmt, ranked);
    var summary := GenerateSummary(fmt, ranked, budgetMax);
    c := TradeOffComparison(scored, rankedNames, differences, summary);
  }

  /** The ranked names are the names of the input options sorted by
      descending total, options with equal totals in input order. */
  lemma RankedOrderIsStable(scored: seq<TradeOffScore>)
    ensures var p := Rank(Totals(scored));
      |p| == |scored|
      && (forall k :: 0 <= k < |scored| ==> p[k] < |scored| && Names(RankedScores(scored))[k] == scored[p[k]].optionName)
      && (forall a, b :: 0 <= a < b < |scored| ==>
            scored[p[a]].totalScore > scored[p[b]].totalScore
            || (scored[p[a]].totalScore == scored[p[b]].totalScore && p[a] < p[b]))
  {
    RankIsStableDescending(Totals(scored));
  }

  // ---------------------------------------------------------------------
  // The module's demonstration: three Nairobi options against a budget of
  // 70000 KES and the default 30-minute commute

  const Kileleshwa: HousingOption :=
    HousingOption(Some("Kileleshwa"), Some(65000.0), Some(25), ["matatu", "bus", "private"],
                  ["market", "hospital", "schools", "shopping"])
  const Ruaka: HousingOption :=
    HousingOption(Some("Ruaka"), Some(35000.0), Some(45), ["matatu", "bodaboda"], ["market", "shops"])
  const Westlands: HousingOption :=
    HousingOption(Some("Westlands"), Some(80000.0), Some(20), ["matatu", "bus", "private"],
                  ["market", "hospital", "schools", "shopping", "mall"])
  const DemoBudget: real := 70000.0

  lemma LowerUnchanged(s: string)
    requires forall i :: 0 <= i < |s| ==> !IsUpper(s[i])
    ensures Lower(s) == s
  {
  }

  /** matatu, bus and private give 50 + 20 + 15 + 5. */
  lemma MatatuBusPrivateScore()
    ensures TransportScore(["matatu", "bus", "private"]) == 90.0
  {
    LowerUnchanged("matatu");
    LowerUnchanged("bus");
    LowerUnchanged("private");
    var modes := LowerAll(["matatu", "bus", "private"]);
    assert modes == ["matatu", "bus", "private"];
    TransportBonusTerms(modes);
  }

  /** Within budget (cost 60), on target (commute 100), transport 90 and
      four amenities (60). */
  lemma KileleshwaTotal()
    ensures OptionScore(DefaultWeights, Kileleshwa, DemoBudget, DefaultWorkplaceMinutes).totalScore == 72.5
  {
    MatatuBusPrivateScore();
    DefaultTotal(Kileleshwa, DemoBudget, DefaultWorkplaceMinutes);
  }

  /** Half the budget (cost 100), 15 minutes over, within 1.5 times the
      target (commute 70), transport
      85 and two amenities (30). */
  lemma RuakaTotal()
    ensures OptionScore(DefaultWeights, Ruaka, DemoBudget, DefaultWorkplaceMinutes).totalScore == 73.25
  {
    LowerUnchanged("matatu");
    LowerUnchanged("bodaboda");
    var modes := LowerAll(Ruaka.transportOptions);
    assert modes == ["matatu", "bodaboda"];
    TransportBonusTerms(modes);
    assert TransportScore(Ruaka.transportOptions) == 85.0;
    DefaultTotal(Ruaka, DemoBudget, DefaultWorkplaceMinutes);
  }

  /** Over budget by a seventh (cost 370/7), on target, transport 90 and
      five amenities (75). */
  lemma WestlandsTotal()
    ensures OptionScore(DefaultWeights, Westlands, DemoBudget, DefaultWorkplaceMinutes).totalScore == 503.0 / 7.0
  {
    MatatuBusPrivateScore();
    assert ScoreCost(80000.0, DemoBudget) == 370.0 / 7.0;
    DefaultTotal(Westlands, DemoBudget, DefaultWorkplaceMinutes);
  }

  /** Three options with different totals are ranked best first. */
  lemma RankThree(first: TradeOffScore, second: TradeOffScore, third: TradeOffScore)
    requires third.totalScore < first.totalScore < second.totalScore
    ensures Names(RankedScores([first, second, third])) ==
      [second.optionName, first.optionName, third.optionName]
  {
    var keys := Totals([first, second, third]);
    assert Ordered(keys, [1, 0, 2]);
    assert forall x: nat :: x in [1, 0, 2] <==> x < 3;
    RankIsUnique(keys, [1, 0, 2]);
  }

  /** The demonstration's ranked order: Ruaka (73.25), then Kileleshwa
      (72.5), then Westlands (about 71.86). */
  lemma DemoRanking()
    ensures Names(RankedScores([OptionScore(DefaultWeights, Kileleshwa, DemoBudget, DefaultWorkplaceMinutes),
                                OptionScore(DefaultWeights, Ruaka, DemoBudget, DefaultWorkplaceMinutes),
                                OptionScore(DefaultWeights, Westlands, DemoBudget, DefaultWorkplaceMinutes)]))
      == ["Ruaka", "Kileleshwa", "Westlands"]
  {
    KileleshwaTotal();
    RuakaTotal();
    WestlandsTotal();
    RankThree(OptionScore(DefaultWeights, Kileleshwa, DemoBudget, DefaultWorkplaceMinutes),
              OptionScore(DefaultWeights, Ruaka, DemoBudget, DefaultWorkplaceMinutes),
              OptionScore(DefaultWeights, Westlands, DemoBudget, DefaultWorkplaceMinutes));
  }
}
