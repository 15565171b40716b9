/** Rule-based situational risk evaluation. A fixed, ordered table of eight
    rules is checked against a user context; every rule that fires yields a
    risk factor, and the factors determine an overall level, a list of
    considerations and a list of recommendations. Nothing here is about
    areas: every rule reads only the user's own situation. */
module RiskEngine {
  import opened Text

  datatype TransportMode = Walking | Bodaboda | Matatu | Private | Bus
  datatype ReturnTime = Daytime | Evening | Night
  datatype LivingArrangement = Alone | Shared | Family
  datatype RiskTolerance = LowTolerance | MediumTolerance | HighTolerance
  datatype RiskLevel = Low | Moderate | Elevated

  /** `TransportMode.value`. */
  function TransportValue(m: TransportMode): string {
    match m
    case Walking => "walking"
    case Bodaboda => "bodaboda"
    case Matatu => "matatu"
    case Private => "private"
    case Bus => "bus"
  }

  /** The context dictionary `evaluate` builds from its arguments.
      `budgetComfort` is on a 0..1 scale. */
  datatype UserContext = UserContext(
    commuteMinutes: int,
    returnTime: ReturnTime,
    transportMode: TransportMode,
    livingArrangement: LivingArrangement,
    familiarWithArea: bool,
    budgetComfort: real,
    hasNightActivities: bool,
    riskTolerance: RiskTolerance)

  /** The context of `evaluate` called without arguments: a 30-minute
      commute, evening return by matatu, living alone, new to the area,
      budget comfort 0.5, no night activities, medium tolerance. */
  const DefaultContext: UserContext :=
    UserContext(30, Evening, Matatu, Alone, false, 0.5, false, MediumTolerance)

  datatype RiskFactor = RiskFactor(
    factorName: string,
    description: string,
    riskLevel: RiskLevel,
    mitigationSuggestion: string)

  datatype RiskProfile = RiskProfile(
    overallRiskLevel: RiskLevel,
    riskFactors: seq<RiskFactor>,
    keyConsiderations: seq<string>,
    recommendations: seq<string>)

  /** The condition of a rule, as a closed set of predicate shapes. */
  datatype Check =
    | CommuteOver(minutes: int)
    | ReturnIs(time: ReturnTime)
    | TransportIs(mode: TransportMode)
    | LivingIs(arrangement: LivingArrangement)
    | Unfamiliar
    | BudgetComfortBelow(limit: real)

  /** A rule record; only the commute rule carries thresholds. */
  datatype Rule = Rule(
    id: string,
    name: string,
    check: Check,
    description: string,
    mitigation: string,
    elevatedThreshold: Option<int>,
    moderateThreshold: Option<int>)

  predicate Holds(check: Check, ctx: UserContext) {
    match check
    case CommuteOver(minutes) => ctx.commuteMinutes > minutes
    case ReturnIs(time) => ctx.returnTime == time
    case TransportIs(mode) => ctx.transportMode == mode
    case LivingIs(arrangement) => ctx.livingArrangement == arrangement
    case Unfamiliar => !ctx.familiarWithArea
    case BudgetComfortBelow(limit) => ctx.budgetComfort < limit
  }

  const CommuteRuleId: string := "commute_duration"

  /** The rule table `_initialize_rules` builds, in evaluation order. */
  const Rules: seq<Rule> := [
    Rule(CommuteRuleId, "Long Commute Duration", CommuteOver(60),
      "Long commute times increase exposure to various situations",
      "Consider options closer to workplace or adjust timing", Some(90), Some(45)),
    Rule("night_return", "Night Return Time", ReturnIs(Night),
      "Returning late at night may have different considerations",
      "Plan reliable transport options in advance", None, None),
    Rule("evening_return", "Evening Return Time", ReturnIs(Evening),
      "Evening returns may have different transport availability",
      "Check matatu/bus schedules for evening availability", None, None),
    Rule("walking_commute", "Walking as Primary Transport", TransportIs(Walking),
      "Walking entire commute depends on distance and route",
      "Ensure route is well-lit and populated during your travel times", None, None),
    Rule("bodaboda_commute", "Bodaboda Transport", TransportIs(Bodaboda),
      "Bodaboda transport is common but safety depends on helmet use and rider behavior",
      "Always wear helmet, agree on fare before riding", None, None),
    Rule("alone_living", "Living Alone", LivingIs(Alone),
      "Living alone means no immediate household support",
      "Establish local contacts and emergency contacts", None, None),
    Rule("new_area", "New to Area", Unfamiliar,
      "Unfamiliarity with an area means learning local norms and routes",
      "Spend time exploring the area during daytime first", None, None),
    Rule("budget_tight", "Tight Budget Constraints", BudgetComfortBelow(0.7),
      "Very tight budgets may limit housing options to less central areas",
      "Consider commute trade-offs vs housing quality", None, None)
  ]

  /** `_determine_risk_level`: the commute rule grades the commute against
      its thresholds (90 and 45 when absent); every other rule is MODERATE. */
  function DetermineRiskLevel(rule: Rule, ctx: UserContext): (level: RiskLevel)
    ensures rule.id != CommuteRuleId ==> level == Moderate
    ensures rule == Rules[0] ==>
      (level == Elevated <==> ctx.commuteMinutes > 90) &&
      (level == Low <==> ctx.commuteMinutes <= 45)
  {
    if rule.id == CommuteRuleId then
      var elevated := match rule.elevatedThreshold case Some(t) => t case None => 90;
      var moderate := match rule.moderateThreshold case Some(t) => t case None => 45;
      if ctx.commuteMinutes > elevated then Elevated
      else if ctx.commuteMinutes > moderate then Moderate
      else Low
    else Moderate
  }

  function FactorOf(rule: Rule, ctx: UserContext): RiskFactor {
    RiskFactor(rule.name, rule.description, DetermineRiskLevel(rule, ctx), rule.mitigation)
  }

  /** The factors of the rules that fire, in table order. */
  function TriggeredFactors(rules: seq<Rule>, ctx: UserContext): seq<RiskFactor>
    decreases |rules|
  {
    if rules == [] then []
    else
      var prefix := TriggeredFactors(rules[..|rules| - 1], ctx);
      var last := rules[|rules| - 1];
      if Holds(last.check, ctx) then prefix + [FactorOf(last, ctx)] else prefix
  }

  function Count(factors: seq<RiskFactor>, level: RiskLevel): (n: nat)
    ensures n <= |factors|
    ensures n == 0 <==> forall i :: 0 <= i < |factors| ==> factors[i].riskLevel != level
  {
    if factors == [] then 0
    else Count(factors[..|factors| - 1], level) + (if factors[|factors| - 1].riskLevel == level then 1 else 0)
  }

  /** `_calculate_overall_risk`: ELEVATED exactly when at least two factors
      are ELEVATED; otherwise MODERATE when some factor is MODERATE or
      ELEVATED; otherwise LOW (also for no factors). */
  function OverallRisk(factors: seq<RiskFactor>): (level: RiskLevel)
    ensures level == Elevated <==> Count(factors, Elevated) >= 2
    ensures level == Low <==> forall i :: 0 <= i < |factors| ==> factors[i].riskLevel == Low
  {
    if factors == [] then Low
    else
      var elevated := Count(factors, Elevated);
      var moderate := Count(factors, Moderate);
      if elevated >= 2 then Elevated
      else if elevated >= 1 || moderate >= 3 then Moderate
      else if moderate >= 1 then Moderate
      else
        assert forall i :: 0 <= i < |factors| ==> factors[i].riskLevel == Low;
        Low
  }

  const ElevatedMarker: string := "⚠️  "
  const Bullet: string := "• "

  function ConsiderationLine(f: RiskFactor): string {
    (if f.riskLevel == Elevated then ElevatedMarker else Bullet) + f.factorName + ": " + f.description
  }

  /** One consideration per factor, in factor order. */
  function Considerations(factors: seq<RiskFactor>): (lines: seq<string>)
    ensures |lines| == |factors|
  {
    seq(|factors|, i requires 0 <= i < |factors| => ConsiderationLine(factors[i]))
  }

  /** The suggestions added after the factor mitigations, in order. */
  const GeneralRecommendations: seq<string> := [
    "• Consider verified ride-hailing services for late-night travel",
    "• Research women-only matatu options if applicable",
    "• Always agree on fares before using bodaboda",
    "• Use mobile payment apps to minimize cash handling",
    "• Share your travel itinerary with a trusted contact",
    "• Keep phone charged and emergency numbers saved",
    "• Join local neighborhood WhatsApp groups for real-time info",
    "• Connect with residents' association for community updates",
    "• Explore the area during daytime to build familiarity"
  ]

  function Recommendations(factors: seq<RiskFactor>): (lines: seq<string>)
    ensures |lines| == |factors| + |GeneralRecommendations|
  {
    seq(|factors|, i requires 0 <= i < |factors| => Bullet + factors[i].mitigationSuggestion)
      + GeneralRecommendations
  }

  /** The profile `evaluate` returns for a context. */
  function Profile(ctx: UserContext): RiskProfile {
    var factors := TriggeredFactors(Rules, ctx);
    RiskProfile(OverallRisk(factors), factors, Considerations(factors), Recommendations(factors))
  }

  // ---------------------------------------------------------------------
  // Operations

  /** `_generate_considerations`: one line per factor, in factor order; the
      line of an ELEVATED factor opens with the warning marker, any other
      with a bullet. */
  method GenerateConsiderations(factors: seq<RiskFactor>) returns (considerations: seq<string>)
    ensures |considerations| == |factors|
    ensures forall i :: 0 <= i < |factors| ==>
      considerations[i] == ConsiderationLine(factors[i]) &&
      (factors[i].riskLevel == Elevated ==> ElevatedMarker <= considerations[i]) &&
      (factors[i].riskLevel != Elevated ==> Bullet <= considerations[i])
    ensures considerations == Considerations(factors)
  {
    considerations := [];
    for i := 0 to |factors|
      invariant |considerations| == i
      invariant forall j :: 0 <= j < i ==> considerations[j] == ConsiderationLine(factors[j])
    {
      var f := factors[i];
      if f.riskLevel == Elevated {
        considerations := considerations + [ElevatedMarker + f.factorName + ": " + f.description];
      } else {
        considerations := considerations + [Bullet + f.factorName + ": " + f.description];
      }
    }
  }

  /** `_generate_recommendations`: "• " and each factor's mitigation, in
      factor order, followed by the nine general suggestions. */
  method GenerateRecommendations(factors: seq<RiskFactor>) returns (recommendations: seq<string>)
    ensures |recommendations| == |factors| + 9
    ensures forall i :: 0 <= i < |factors| ==> recommendations[i] == Bullet + factors[i].mitigationSuggestion
    ensures recommendations[|factors|..] == GeneralRecommendations
    ensures recommendations == Recommendations(factors)
  {
    recommendations := [];
    for i := 0 to |factors|
      invariant |recommendations| == i
      invariant forall j :: 0 <= j < i ==> recommendations[j] == Bullet + factors[j].mitigationSuggestion
    {
      recommendations := recommendations + [Bullet + factors[i].mitigationSuggestion];
    }
    recommendations := recommendations + GeneralRecommendations;
  }

  /** `evaluate`: checks the rules in table order and collects the factors
      of those that fire, then derives the overall level, the
      considerations and the recommendations from them. */
  method Evaluate(ctx: UserContext) returns (profile: RiskProfile)
    ensures profile == Profile(ctx)
    ensures |profile.riskFactors| <= 6
    ensures profile.overallRiskLevel != Elevated
    ensures profile.overallRiskLevel == Low <==> profile.riskFactors == []
  {
    var factors: seq<RiskFactor> := [];
    for i := 0 to |Rules|
      invariant factors == TriggeredFactors(Rules[..i], ctx)
    {
      assert Rules[..i + 1][..i] == Rules[..i];
      var rule := Rules[i];
      if Holds(rule.check, ctx) {
        var level := DetermineRiskLevel(rule, ctx);
        factors := factors + [RiskFactor(rule.name, rule.description, level, rule.mitigation)];
      }
    }
    assert Rules[..|Rules|] == Rules;
    var overall := OverallRisk(factors);
    var considerations := GenerateConsiderations(factors);
    var recommendations := GenerateRecommendations(factors);
    profile := RiskProfile(overall, factors, considerations, recommendations);
    AtMostSixFactors(ctx);
    NeverElevatedOverall(ctx);
    LowIffNothingFired(ctx);
  }

  // ---------------------------------------------------------------------
  // Properties of the rule table

  /** Every triggered factor is the factor of a rule that holds; `j` is
      that rule's position. */
  lemma {:induction false} FactorSource(rules: seq<Rule>, ctx: UserContext, i: nat) returns (j: nat)
    requires i < |TriggeredFactors(rules, ctx)|
    ensures j < |rules| && Holds(rules[j].check, ctx)
    ensures TriggeredFactors(rules, ctx)[i] == FactorOf(rules[j], ctx)
  {
    var init := rules[..|rules| - 1];
    if i < |TriggeredFactors(init, ctx)| {
      j := FactorSource(init, ctx, i);
      assert rules[j] == init[j];
    } else {
      j := |rules| - 1;
    }
  }

  /** Every rule that holds contributes its factor. */
  lemma {:induction false} FiringRulesYieldFactors(rules: seq<Rule>, ctx: UserContext, j: nat)
    requires j < |rules| && Holds(rules[j].check, ctx)
    ensures FactorOf(rules[j], ctx) in TriggeredFactors(rules, ctx)
  {
    var init := rules[..|rules| - 1];
    if j < |init| {
      FiringRulesYieldFactors(init, ctx, j);
      assert init[j] == rules[j];
    }
  }

  /** Adding a rule adds one factor when it holds and none otherwise. */
  lemma TriggeredLengthStep(rules: seq<Rule>, ctx: UserContext, k: nat)
    requires k < |rules|
    ensures |TriggeredFactors(rules[..k + 1], ctx)| ==
      |TriggeredFactors(rules[..k], ctx)| + (if Holds(rules[k].check, ctx) then 1 else 0)
  {
    assert rules[..k + 1][..k] == rules[..k];
  }

  /** When no rule but the first is the commute rule, at most one factor is
      ELEVATED. */
  lemma {:induction false} AtMostOneElevated(rules: seq<Rule>, ctx: UserContext)
    requires forall j :: 1 <= j < |rules| ==> rules[j].id != CommuteRuleId
    ensures Count(TriggeredFactors(rules, ctx), Elevated) <= 1
  {
    if |rules| > 1 {
      AtMostOneElevated(rules[..|rules| - 1], ctx);
    }
  }

  /** A factor with the given name is among the factors. */
  predicate HasFactor(factors: seq<RiskFactor>, name: string) {
    exists i :: 0 <= i < |factors| && factors[i].factorName == name
  }

  /** Night and evening return exclude each other, as do walking and
      bodaboda, so at most six of the eight rules fire. */
  lemma AtMostSixFactors(ctx: UserContext)
    ensures |TriggeredFactors(Rules, ctx)| <= 6
  {
    assert Rules[..0] == [];
    TriggeredLengthStep(Rules, ctx, 0);
    TriggeredLengthStep(Rules, ctx, 1);
    TriggeredLengthStep(Rules, ctx, 2);
    TriggeredLengthStep(Rules, ctx, 3);
    TriggeredLengthStep(Rules, ctx, 4);
    TriggeredLengthStep(Rules, ctx, 5);
    TriggeredLengthStep(Rules, ctx, 6);
    TriggeredLengthStep(Rules, ctx, 7);
    assert Rules[..8] == Rules;
  }

  /** The commute factor is present exactly when the commute exceeds 60
      minutes; it is ELEVATED exactly above 90 minutes and MODERATE
      otherwise, never LOW. Every other factor is MODERATE. */
  lemma CommuteFactorLevels(ctx: UserContext)
    ensures HasFactor(TriggeredFactors(Rules, ctx), Rules[0].name) <==> ctx.commuteMinutes > 60
    ensures forall i :: 0 <= i < |TriggeredFactors(Rules, ctx)| ==>
      var f := TriggeredFactors(Rules, ctx)[i];
      (f.factorName == Rules[0].name ==>
        (f.riskLevel == Elevated <==> ctx.commuteMinutes > 90) &&
        (f.riskLevel == Moderate <==> ctx.commuteMinutes <= 90)) &&
      (f.factorName != Rules[0].name ==> f.riskLevel == Moderate)
  {
    var fs := TriggeredFactors(Rules, ctx);
    if ctx.commuteMinutes > 60 {
      FiringRulesYieldFactors(Rules, ctx, 0);
      var i :| 0 <= i < |fs| && fs[i] == FactorOf(Rules[0], ctx);
    }
    forall i | 0 <= i < |fs|
      ensures fs[i].factorName == Rules[0].name ==> Holds(Rules[0].check, ctx) && fs[i] == FactorOf(Rules[0], ctx)
      ensures fs[i].factorName != Rules[0].name ==> fs[i].riskLevel == Moderate
    {
      var j := FactorSource(Rules, ctx, i);
      assert j != 0 ==> Rules[j].name != Rules[0].name && Rules[j].id != CommuteRuleId;
    }
  }

  /** The unfamiliar-area factor fires exactly for an unfamiliar user, the
      tight-budget factor exactly for a budget comfort below 0.7. */
  lemma NewAreaAndBudgetFactors(ctx: UserContext)
    ensures HasFactor(TriggeredFactors(Rules, ctx), Rules[6].name) <==> !ctx.familiarWithArea
    ensures HasFactor(TriggeredFactors(Rules, ctx), Rules[7].name) <==> ctx.budgetComfort < 0.7
  {
    var fs := TriggeredFactors(Rules, ctx);
    if !ctx.familiarWithArea {
      FiringRulesYieldFactors(Rules, ctx, 6);
      var i :| 0 <= i < |fs| && fs[i] == FactorOf(Rules[6], ctx);
    }
    if ctx.budgetComfort < 0.7 {
      FiringRulesYieldFactors(Rules, ctx, 7);
      var i :| 0 <= i < |fs| && fs[i] == FactorOf(Rules[7], ctx);
    }
    forall i | 0 <= i < |fs|
      ensures fs[i].factorName == Rules[6].name ==> !ctx.familiarWithArea
      ensures fs[i].factorName == Rules[7].name ==> ctx.budgetComfort < 0.7
    {
      var j := FactorSource(Rules, ctx, i);
      assert j != 6 ==> Rules[j].name != Rules[6].name;
      assert j != 7 ==> Rules[j].name != Rules[7].name;
    }
  }

  /** Only the commute rule can produce an ELEVATED factor, so `evaluate`
      never reports an ELEVATED overall level. */
  lemma NeverElevatedOverall(ctx: UserContext)
    ensures OverallRisk(TriggeredFactors(Rules, ctx)) != Elevated
  {
    assert forall j :: 1 <= j < |Rules| ==> Rules[j].id != CommuteRuleId;
    AtMostOneElevated(Rules, ctx);
  }

  /** Every factor that fires is at least MODERATE (the commute rule fires
      only above 60 minutes, past its 45-minute LOW band), so the overall
      level is LOW exactly when no rule fired. */
  lemma LowIffNothingFired(ctx: UserContext)
    ensures OverallRisk(TriggeredFactors(Rules, ctx)) == Low <==> TriggeredFactors(Rules, ctx) == []
  {
    var fs := TriggeredFactors(Rules, ctx);
    if fs != [] {
      var j := FactorSource(Rules, ctx, 0);
      assert j != 0 ==> Rules[j].id != CommuteRuleId;
      assert fs[0].riskLevel != Low;
    }
  }

  // ---------------------------------------------------------------------
  // Comparing options

  /** An option as `compare_options` reads it; absent keys are None. */
  datatype RiskOption = RiskOption(
    name: Option<string>,
    commuteMinutes: Option<int>,
    transportMode: Option<TransportMode>,
    rentKes: Option<real>)

  datatype OptionRisk = OptionRisk(
    name: string,
    commuteMinutes: int,
    transportMode: string,
    riskEvaluation: RiskProfile,
    tradeOffs: string)

  function CommuteOf(option: RiskOption): int {
    match option.commuteMinutes case Some(c) => c case None => 30
  }

  function TransportOf(option: RiskOption): TransportMode {
    match option.transportMode case Some(m) => m case None => Matatu
  }

  /** The context `compare_options` evaluates an option under: evening
      return, living alone, unfamiliar with the area, and the defaults of
      `evaluate` for the rest. */
  function CompareContext(option: RiskOption): UserContext {
    UserContext(CommuteOf(option), Evening, TransportOf(option), Alone, false, 0.5, false, MediumTolerance)
  }

  const LowerRentLongerCommute: string := "Lower rent but longer commute"
  const ShorterCommuteHigherRent: string := "Shorter commute but higher rent"
  const BalancedCostCommute: string := "Balanced cost and commute"

  /** `_generate_option_tradeoffs`: exactly one cost-versus-commute clause,
      chosen by the commute and the rent (absent rent counts as 0). The
      transport clauses compare the mode with plain strings and so never
      apply to a mode value; the clauses are joined with "; ". */
  function OptionTradeOffs(option: RiskOption): (summary: string)
    ensures var c := CommuteOf(option);
      var rent := match option.rentKes case Some(r) => r case None => 0.0;
      summary == (if c > 45 && rent < 50000.0 then LowerRentLongerCommute
                  else if c < 30 && rent > 80000.0 then ShorterCommuteHigherRent
                  else BalancedCostCommute)
  {
    var commute := CommuteOf(option);
    var rent := match option.rentKes case Some(r) => r case None => 0.0;
    var costClause :=
      if commute > 45 && rent < 50000.0 then LowerRentLongerCommute
      else if commute < 30 && rent > 80000.0 then ShorterCommuteHigherRent
      else BalancedCostCommute;
    Join([costClause], "; ")
  }

  function OptionRiskOf(option: RiskOption): OptionRisk {
    OptionRisk(
      match option.name case Some(n) => n case None => "Unknown",
      CommuteOf(option),
      TransportValue(TransportOf(option)),
      Profile(CompareContext(option)),
      OptionTradeOffs(option))
  }

  /** One entry of `compare_options`: the option evaluated under its
      comparison context, with its name, commute, mode and trade-offs. */
  method CompareOne(option: RiskOption) returns (result: OptionRisk)
    ensures result == OptionRiskOf(option)
  {
    var commute := CommuteOf(option);
    var transport := TransportOf(option);
    var profile := Evaluate(CompareContext(option));
    var name := match option.name case Some(n) => n case None => "Unknown";
    var tradeOffs := OptionTradeOffs(option);
    result := OptionRisk(name, commute, TransportValue(transport), profile, tradeOffs);
  }

  /** The results of `compare_options`: one per option, in input order. */
  function Compared(options: seq<RiskOption>): (r: seq<OptionRisk>)
    ensures |r| == |options|
    decreases |options|
  {
    if options == [] then []
    else Compared(options[..|options| - 1]) + [OptionRiskOf(options[|options| - 1])]
  }

  /** Entry i of the results is option i's comparison. */
  lemma {:induction false} ComparedAt(options: seq<RiskOption>, i: nat)
    requires i < |options|
    ensures Compared(options)[i] == OptionRiskOf(options[i])
    decreases |options|
  {
    if i < |options| - 1 {
      ComparedAt(options[..|options| - 1], i);
    }
  }

  lemma ComparedStep(options: seq<RiskOption>, i: nat)
    requires i < |options|
    ensures Compared(options[..i + 1]) == Compared(options[..i]) + [OptionRiskOf(options[i])]
  {
    assert options[..i + 1][..i] == options[..i];
  }

  /** `compare_options`: one result per option, in input order, each with
      the profile of its fixed comparison context. */
  method CompareOptions(options: seq<RiskOption>) returns (results: seq<OptionRisk>)
    ensures results == Compared(options)
    ensures |results| == |options|
    ensures forall i :: 0 <= i < |options| ==> results[i] == OptionRiskOf(options[i])
  {
    results := [];
    for i := 0 to |options|
      invariant results == Compared(options[..i])
    {
      var result := CompareOne(options[i]);
      ComparedStep(options, i);
      results := results + [result];
    }
    assert options[..|options|] == options;
    forall i | 0 <= i < |options| ensures results[i] == OptionRiskOf(options[i]) {
      ComparedAt(options, i);
    }
  }

  /** Because the comparison context fixes an evening return, living alone,
      an unfamiliar area and a budget comfort of 0.5, every compared option
      carries the evening-return, living-alone, new-area and tight-budget
      factors, whatever its commute and transport. */
  lemma ComparedOptionsShareFourFactors(option: RiskOption)
    ensures var fs := OptionRiskOf(option).riskEvaluation.riskFactors;
      HasFactor(fs, Rules[2].name) && HasFactor(fs, Rules[5].name) &&
      HasFactor(fs, Rules[6].name) && HasFactor(fs, Rules[7].name)
  {
    var ctx := CompareContext(option);
    var fs := TriggeredFactors(Rules, ctx);
    FiringRulesYieldFactors(Rules, ctx, 2);
    FiringRulesYieldFactors(Rules, ctx, 5);
    FiringRulesYieldFactors(Rules, ctx, 6);
    FiringRulesYieldFactors(Rules, ctx, 7);
    var i2 :| 0 <= i2 < |fs| && fs[i2] == FactorOf(Rules[2], ctx);
    var i5 :| 0 <= i5 < |fs| && fs[i5] == FactorOf(Rules[5], ctx);
    var i6 :| 0 <= i6 < |fs| && fs[i6] == FactorOf(Rules[6], ctx);
    var i7 :| 0 <= i7 < |fs| && fs[i7] == FactorOf(Rules[7], ctx);
  }

  /** Under the defaults the evening-return, living-alone, new-area and
      tight-budget rules fire and no other. */
  lemma DefaultFactorCount()
    ensures |TriggeredFactors(Rules, DefaultContext)| == 4
  {
    var ctx := DefaultContext;
    DefaultFirstRules();
    TriggeredLengthStep(Rules, ctx, 4);
    TriggeredLengthStep(Rules, ctx, 5);
    TriggeredLengthStep(Rules, ctx, 6);
    TriggeredLengthStep(Rules, ctx, 7);
    assert Rules[..8] == Rules;
  }

  /** Of the commute, night, evening and walking rules, only the evening
      rule fires under the defaults. */
  lemma DefaultFirstRules()
    ensures |TriggeredFactors(Rules[..4], DefaultContext)| == 1
    ensures TriggeredFactors(Rules[..4], DefaultContext) == [FactorOf(Rules[2], DefaultContext)]
  {
    var ctx := DefaultContext;
    assert Rules[..0] == [];
    TriggeredLengthStep(Rules, ctx, 0);
    TriggeredLengthStep(Rules, ctx, 1);
    TriggeredLengthStep(Rules, ctx, 2);
    TriggeredLengthStep(Rules, ctx, 3);
    assert !Holds(Rules[0].check, ctx) && !Holds(Rules[1].check, ctx);
    assert Holds(Rules[2].check, ctx) && !Holds(Rules[3].check, ctx);
    assert Rules[..2][..1] == Rules[..1] && Rules[..1][..0] == Rules[..0];
    assert Rules[..3][..2] == Rules[..2] && Rules[..4][..3] == Rules[..3];
  }

  /** `evaluate()` with every default reports exactly four factors (evening
      return, living alone, new to the area, tight budget) and an overall
      MODERATE level: it is the comparison context of an option that gives
      neither commute nor mode. */
  lemma DefaultEvaluation()
    ensures var p := Profile(DefaultContext);
      |p.riskFactors| == 4 && p.overallRiskLevel == Moderate
      && HasFactor(p.riskFactors, Rules[2].name) && HasFactor(p.riskFactors, Rules[5].name)
      && HasFactor(p.riskFactors, Rules[6].name) && HasFactor(p.riskFactors, Rules[7].name)
  {
    var bare := RiskOption(None, None, None, None);
    assert CompareContext(bare) == DefaultContext;
    ComparedOptionsShareFourFactors(bare);
    DefaultFactorCount();
    NeverElevatedOverall(DefaultContext);
    LowIffNothingFired(DefaultContext);
  }
}
