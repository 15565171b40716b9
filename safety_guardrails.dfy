/** Query guardrails: classify a free-text housing query, detect
    area-stereotyping language, rewrite problematic queries, and clean the
    text a language model sends back.

    Regular expressions are not interpreted here. A `RegexEngine` supplies
    `re.search` and `re.sub`, and every property below holds for every
    engine. Only the pattern tables, their order and the control flow around
    them are modelled. */
module SafetyGuardrails {
  import opened Text

  /** The two regular-expression operations the module uses.
      `search(pattern, text)` is `re.search`: the text of the first match, if
      any (an empty match is still a match). `sub(pattern, repl, text)` is
      `re.sub(pattern, repl, text, flags=re.IGNORECASE)`. */
  datatype RegexEngine = RegexEngine(
    search: (string, string) -> Option<string>,
    sub: (string, string, string) -> string)

  datatype QueryType =
    | Standard
    | Biased
    | Stereotypical
    | DangerousAreaQuery
    | SafetyRanking
    | CrimePrediction

  datatype GuardrailResult = GuardrailResult(
    isSafe: bool,
    queryType: QueryType,
    reframedQuery: Option<string>,
    warningMessage: Option<string>,
    advisoryDisclaimer: Option<string>)

  // ---------------------------------------------------------------------
  // Pattern tables

  const StereotypePatterns: seq<string> := [
    "\\b(dangerous|unsafe|risk[ey]|crime-ridden|ghetto|slum)\\b",
    "\\b(avoid|stay away from|never go to)\\b.*\\b(area|neighborhood|place)\\b",
    "\\b(people from|residents of)\\b.*\\b(are|is|can be)\\b.*\\b(dangerous|poor|criminal)\\b",
    "\\b(avoid|don\\'t live in|never move to)\\s+(kibera|mathare|kiambiu| Dandora|estcourt|lavington)\\b",
    "\\b(which|safe|dangerous|unsafe|risky)\\b.*\\b(area|neighborhood|place)\\b",
    "\\b(best|worst|most safe|most dangerous|top|worst)\\b.*\\b(area|neighborhood)\\b",
    "\\b(crime rate|most dangerous|safest)\\b",
    "\\b(is safe|is dangerous|will be|guarantee|certain)\\b",
    "\\b(will (happen|be|get)|going to|likely to)\\b.*\\b(robbed|attacked|harmed|crime)\\b"
  ]

  const DangerousAreaPatterns: seq<string> := [
    "\\b(which.*dangerous|which.*unsafe|areas.*dangerous|areas.*unsafe|dangerous areas|unsafe areas)\\b",
    "\\b(most dangerous|safest|highest crime)\\b"
  ]

  const SafetyRankingPatterns: seq<string> := [
    "\\b(rank|rating|score)\\b.*\\b(area|neighborhood|safety|security)\\b",
    "\\b(safe.*rating|security.*rating|compare.*safety)\\b"
  ]

  const CrimePredictionPatterns: seq<string> := [
    "\\b(will.*happen|likely.*crime|probability.*robbed|future.*crime)\\b",
    "\\b(predict|forecast)\\b.*\\b(crime|robbery|attack)\\b"
  ]

  const StereotypicalPatterns: seq<string> := [
    "\\b(kibera|mathare|kiambiu)\\b.*\\b(dangerous|unsafe|bad)\\b",
    "\\b(poor.*area|rich.*area|rich.*neighborhood)\\b.*\\b(safe|dangerous)\\b"
  ]

  /** The query-type groups in the order classification tries them. */
  const QueryTypePatterns: seq<(QueryType, seq<string>)> := [
    (DangerousAreaQuery, DangerousAreaPatterns),
    (SafetyRanking, SafetyRankingPatterns),
    (CrimePrediction, CrimePredictionPatterns),
    (Stereotypical, StereotypicalPatterns)
  ]

  /** Nairobi areas that often get stereotyped. */
  const StereotypedAreas: seq<string> := [
    "kibera", "mathare", "kiambiu", "dandora", "kangundo",
    "huruma", "bondeni", "laini saba", "githurai", "muguru"
  ]

  /** Negative words that, next to a listed area, count as a stereotype. */
  const DangerousWords: seq<string> := ["dangerous", "unsafe", "bad", "avoid", "never"]

  // ---------------------------------------------------------------------
  // First-match searches

  predicate Matches(re: RegexEngine, pattern: string, text: string) {
    re.search(pattern, text).Some?
  }

  /** Whether some pattern of the list matches the text. */
  function AnyMatch(re: RegexEngine, patterns: seq<string>, text: string): (b: bool)
    ensures b <==> exists k :: 0 <= k < |patterns| && Matches(re, patterns[k], text)
  {
    if patterns == [] then false
    else Matches(re, patterns[0], text) || AnyMatch(re, patterns[1..], text)
  }

  /** Index of the first pattern that matches, or |patterns| when none does. */
  function FirstMatching(re: RegexEngine, patterns: seq<string>, text: string): (k: nat)
    ensures k <= |patterns|
    ensures forall j :: 0 <= j < k ==> !Matches(re, patterns[j], text)
    ensures k < |patterns| ==> Matches(re, patterns[k], text)
  {
    if patterns == [] then 0
    else if Matches(re, patterns[0], text) then 0
    else 1 + FirstMatching(re, patterns[1..], text)
  }

  /** Index of the first group with a matching pattern, or |groups|. */
  function FirstMatchingGroup(re: RegexEngine, groups: seq<(QueryType, seq<string>)>, text: string): (k: nat)
    ensures k <= |groups|
    ensures forall j :: 0 <= j < k ==> !AnyMatch(re, groups[j].1, text)
    ensures k < |groups| ==> AnyMatch(re, groups[k].1, text)
  {
    if groups == [] then 0
    else if AnyMatch(re, groups[0].1, text) then 0
    else 1 + FirstMatchingGroup(re, groups[1..], text)
  }

  /** Index of the first word that is a substring of the text, or |words|. */
  function FirstContained(text: string, words: seq<string>): (k: nat)
    ensures k <= |words|
    ensures forall j :: 0 <= j < k ==> !Contains(text, words[j])
    ensures k < |words| ==> Contains(text, words[k])
  {
    if words == [] then 0
    else if Contains(text, words[0]) then 0
    else 1 + FirstContained(text, words[1..])
  }

  // ---------------------------------------------------------------------
  // Classification

  /** `detect_query_type`: the first query-type group with a matching
      pattern wins, in the order dangerous-area, safety-ranking,
      crime-prediction, stereotypical; failing that, any generic stereotype
      pattern gives STEREOTYPICAL; otherwise STANDARD. Patterns are searched
      in the lower-cased input. BIASED is never produced. */
  function DetectQueryType(re: RegexEngine, userInput: string): (qt: QueryType)
    ensures qt != Biased
    ensures qt == DangerousAreaQuery <==> AnyMatch(re, DangerousAreaPatterns, Lower(userInput))
    ensures qt == SafetyRanking <==>
      !AnyMatch(re, DangerousAreaPatterns, Lower(userInput)) &&
      AnyMatch(re, SafetyRankingPatterns, Lower(userInput))
    ensures qt == CrimePrediction <==>
      !AnyMatch(re, DangerousAreaPatterns, Lower(userInput)) &&
      !AnyMatch(re, SafetyRankingPatterns, Lower(userInput)) &&
      AnyMatch(re, CrimePredictionPatterns, Lower(userInput))
    ensures qt == Standard <==>
      !AnyMatch(re, DangerousAreaPatterns, Lower(userInput)) &&
      !AnyMatch(re, SafetyRankingPatterns, Lower(userInput)) &&
      !AnyMatch(re, CrimePredictionPatterns, Lower(userInput)) &&
      !AnyMatch(re, StereotypicalPatterns, Lower(userInput)) &&
      !AnyMatch(re, StereotypePatterns, Lower(userInput))
  {
    var lower := Lower(userInput);
    var k := FirstMatchingGroup(re, QueryTypePatterns, lower);
    assert k > 0 ==> !AnyMatch(re, QueryTypePatterns[0].1, lower);
    assert k > 1 ==> !AnyMatch(re, QueryTypePatterns[1].1, lower);
    assert k > 2 ==> !AnyMatch(re, QueryTypePatterns[2].1, lower);
    assert k > 3 ==> !AnyMatch(re, QueryTypePatterns[3].1, lower);
    if k < |QueryTypePatterns| then QueryTypePatterns[k].0
    else if AnyMatch(re, StereotypePatterns, lower) then Stereotypical
    else Standard
  }

  /** The area-and-word scan of `contains_stereotype`: for each listed area
      found in the text, in order, the first negative word found in the text
      gives "area + word"; an area with no negative word is passed over. */
  function AreaWordHit(text: string, areas: seq<string>): Option<string> {
    if areas == [] then None
    else
      var w := FirstContained(text, DangerousWords);
      if Contains(text, areas[0]) && w < |DangerousWords| then Some(areas[0] + " + " + DangerousWords[w])
      else AreaWordHit(text, areas[1..])
  }

  /** Whether the negative words occur does not depend on the area, so the
      scan reports the first listed area in the text together with the first
      negative word in the text, and nothing when either is missing. */
  lemma {:induction false} AreaWordHitIsFirstPair(text: string, areas: seq<string>)
    ensures
      var a := FirstContained(text, areas);
      var w := FirstContained(text, DangerousWords);
      AreaWordHit(text, areas) ==
        if a < |areas| && w < |DangerousWords| then Some(areas[a] + " + " + DangerousWords[w]) else None
  {
    if areas != [] {
      AreaWordHitIsFirstPair(text, areas[1..]);
    }
  }

  /** `contains_stereotype`: (True, the matched text of the first matching
      stereotype pattern), else (True, "area + word") from the area scan,
      else (False, None). */
  function ContainsStereotype(re: RegexEngine, userInput: string): (r: (bool, Option<string>))
    ensures r.0 <==> r.1.Some?
    ensures AnyMatch(re, StereotypePatterns, Lower(userInput)) ==>
      var k := FirstMatching(re, StereotypePatterns, Lower(userInput));
      r == (true, re.search(StereotypePatterns[k], Lower(userInput)))
    ensures !AnyMatch(re, StereotypePatterns, Lower(userInput)) ==>
      r.1 == AreaWordHit(Lower(userInput), StereotypedAreas)
  {
    var lower := Lower(userInput);
    var k := FirstMatching(re, StereotypePatterns, lower);
    if k < |StereotypePatterns| then (true, re.search(StereotypePatterns[k], lower))
    else
      match AreaWordHit(lower, StereotypedAreas)
      case Some(hit) => (true, Some(hit))
      case None => (false, None)
  }

  /** `extract_stereotyped_area`: the first listed area, in list order, that
      occurs in the lower-cased input. */
  function ExtractStereotypedArea(userInput: string): (r: Option<string>)
    ensures r.None? <==> forall j :: 0 <= j < |StereotypedAreas| ==> !Contains(Lower(userInput), StereotypedAreas[j])
    ensures r.Some? ==>
      exists k :: 0 <= k < |StereotypedAreas| && r.value == StereotypedAreas[k] &&
        Contains(Lower(userInput), StereotypedAreas[k]) &&
        forall j :: 0 <= j < k ==> !Contains(Lower(userInput), StereotypedAreas[j])
  {
    var k := FirstContained(Lower(userInput), StereotypedAreas);
    if k < |StereotypedAreas| then Some(StereotypedAreas[k]) else None
  }

  // ---------------------------------------------------------------------
  // Rewriting

  const DangerousAreaRewrite: string := "(which.*dangerous|which.*unsafe|areas.*dangerous|areas.*unsafe)"
  const DangerousAreaReplacement: string := "what factors should I consider for"
  const DangerousAreaSentence: string :=
    ". I'm interested in understanding trade-offs between safety, budget, and commute."
  const RankingRewrite: string := "(safest|most safe|most dangerous|best.*safety|worst.*safety)"
  const RankingReplacement: string := "with various safety considerations"
  const WhichAreaRewrite: string := "(which.*area|which.*neighborhood)"
  const WhichAreaReplacement: string := "what should I consider when choosing"
  const PredictionRewrite: string := "(will.*happen|likely|crime probability|predict)"
  const PredictionReplacement: string := "what situational factors affect"
  const PredictionPrefix: string := "I can help you understand "
  const StereotypeSentence: string :=
    ". I'd like to understand the trade-offs between different housing options."

  /** The pattern built for a stereotyped area. */
  function AreaRewrite(area: string): string {
    "\\b(" + area + ".*dangerous|" + area + ".*unsafe|" + area + ".*bad|avoid " + area + "|never " + area + ")\\b"
  }

  function AreaReplacement(area: string): string {
    "I have some concerns about " + Title(area) + ". What are the key factors I should consider?"
  }

  /** What `reframe_query` returns. */
  function Reframed(re: RegexEngine, userInput: string, qt: QueryType): string {
    match qt
    case DangerousAreaQuery =>
      re.sub(DangerousAreaRewrite, DangerousAreaReplacement, userInput) + DangerousAreaSentence
    case SafetyRanking =>
      re.sub(WhichAreaRewrite, WhichAreaReplacement, re.sub(RankingRewrite, RankingReplacement, userInput))
    case CrimePrediction =>
      PredictionPrefix + Lower(re.sub(PredictionRewrite, PredictionReplacement, userInput))
    case Stereotypical =>
      var body := match ExtractStereotypedArea(userInput)
        case Some(area) => re.sub(AreaRewrite(area), AreaReplacement(area), userInput)
        case None => userInput;
      body + StereotypeSentence
    case _ => userInput
  }

  /** `reframe_query`: rewrites the input step by step according to its
      query type. STANDARD and BIASED input comes back unchanged; the
      dangerous-area and stereotypical rewrites end with their clarifying
      sentence; the crime-prediction rewrite is lower-cased behind a fixed
      opening. */
  method ReframeQuery(re: RegexEngine, userInput: string, qt: QueryType) returns (reframed: string)
    ensures reframed == Reframed(re, userInput, qt)
    ensures qt == Standard || qt == Biased ==> reframed == userInput
    ensures qt == DangerousAreaQuery ==> IsSuffix(DangerousAreaSentence, reframed)
    ensures qt == Stereotypical ==> IsSuffix(StereotypeSentence, reframed)
    ensures qt == CrimePrediction ==> PredictionPrefix <= reframed
  {
    reframed := userInput;
    if qt == DangerousAreaQuery {
      reframed := re.sub(DangerousAreaRewrite, DangerousAreaReplacement, userInput);
      reframed := reframed + DangerousAreaSentence;
    } else if qt == SafetyRanking {
      reframed := re.sub(RankingRewrite, RankingReplacement, userInput);
      reframed := re.sub(WhichAreaRewrite, WhichAreaReplacement, reframed);
    } else if qt == CrimePrediction {
      reframed := re.sub(PredictionRewrite, PredictionReplacement, userInput);
      reframed := PredictionPrefix + Lower(reframed);
    } else if qt == Stereotypical {
      var area := ExtractStereotypedArea(userInput);
      if area.Some? {
        reframed := re.sub(AreaRewrite(area.value), AreaReplacement(area.value), userInput);
      }
      reframed := reframed + StereotypeSentence;
    }
  }

  /** The clarifying sentence is appended on every call, so reframing an
      already reframed dangerous-area query whose rewrite no longer finds
      anything to replace ends with the sentence twice. */
  lemma ReframeTwiceAppendsTwice(re: RegexEngine, userInput: string)
    requires
      var once := Reframed(re, userInput, DangerousAreaQuery);
      re.sub(DangerousAreaRewrite, DangerousAreaReplacement, once) == once
    ensures
      var once := Reframed(re, userInput, DangerousAreaQuery);
      Reframed(re, once, DangerousAreaQuery) == once + DangerousAreaSentence &&
      IsSuffix(DangerousAreaSentence + DangerousAreaSentence, Reframed(re, once, DangerousAreaQuery))
  {
    var once := Reframed(re, userInput, DangerousAreaQuery);
    var twice := once + DangerousAreaSentence;
    assert twice[|twice| - |DangerousAreaSentence + DangerousAreaSentence|..] == DangerousAreaSentence + DangerousAreaSentence;
  }

  // ---------------------------------------------------------------------
  // Messages

  const DangerousAreaDisclaimer: string :=
    "I can help you evaluate housing options based on your specific needs, "
    + "budget, and commute considerations. Instead of labeling areas, I focus on "
    + "objective factors like lighting, transport availability, and community initiatives. "
    + "What factors matter most to you?"
  const SafetyRankingDisclaimer: string :=
    "I don't rank neighborhoods by safety - these labels can be misleading and "
    + "perpetuate stereotypes. Instead, I can help you understand contextual factors "
    + "like street lighting, transport hours, and strategies that residents use. "
    + "What specific concerns do you have?"
  const CrimePredictionDisclaimer: string :=
    "I don't make predictions about safety outcomes. I can help you understand "
    + "situational factors you can influence - like commute timing, transport mode, "
    + "and community resources. Would you like to explore these instead?"
  const StereotypicalDisclaimer: string :=
    "I aim to provide balanced, evidence-based information without relying on "
    + "stereotypes. Every area has diverse communities with varying experiences. "
    + "I can help you understand factors to consider and strategies that work for "
    + "residents in different areas."
  const BiasedDisclaimer: string :=
    "Let me help you focus on objective factors like budget, commute, and amenities "
    + "rather than generalizations. I can also share strategies that residents in "
    + "various areas use to navigate their environments safely. What criteria matter most?"

  /** `generate_advisory_disclaimer`: a fixed text for every query type but
      STANDARD, which gets none. */
  function GenerateAdvisoryDisclaimer(qt: QueryType): (r: Option<string>)
    ensures r.None? <==> qt == Standard
    ensures qt == DangerousAreaQuery ==> r == Some(DangerousAreaDisclaimer)
    ensures qt == SafetyRanking ==> r == Some(SafetyRankingDisclaimer)
    ensures qt == CrimePrediction ==> r == Some(CrimePredictionDisclaimer)
    ensures qt == Biased ==> r == Some(BiasedDisclaimer)
    ensures qt == Stereotypical ==> r == Some(StereotypicalDisclaimer)
  {
    match qt
    case DangerousAreaQuery => Some(DangerousAreaDisclaimer)
    case SafetyRanking => Some(SafetyRankingDisclaimer)
    case CrimePrediction => Some(CrimePredictionDisclaimer)
    case Stereotypical => Some(StereotypicalDisclaimer)
    case Biased => Some(BiasedDisclaimer)
    case Standard => None
  }

  const GenericWarningOpening: string := "I noticed your"

  const GenericWarning: string :=
    GenericWarningOpening + " query includes some assumptions about safety. "
    + "I aim to provide balanced, advisory information rather than perpetuating stereotypes. "
    + "Let me help you focus on specific factors relevant to your situation."

  const AreaWarningOpening: string := "I noticed you mentioned concerns about "

  const AreaWarningClosing: string :=
    ". Rather than relying on generalizations, I can help you understand "
    + "specific factors like commute, budget, and amenities. "
    + "Would you like to discuss your priorities?"

  function AreaWarning(area: string): string {
    AreaWarningOpening + Title(area) + AreaWarningClosing
  }

  /** The area template differs from the generic warning (they part at the
      fourteenth character) and names the title-cased area. */
  lemma AreaWarningShape(area: string)
    ensures AreaWarning(area) != GenericWarning
    ensures Contains(AreaWarning(area), Title(area))
  {
    var msg := AreaWarning(area);
    assert msg[13] == AreaWarningOpening[13] == ' ';
    assert GenericWarning[13] == GenericWarningOpening[13] == 'r';
    assert msg[|AreaWarningOpening|..] == Title(area) + AreaWarningClosing;
  }

  /** `generate_warning_message`: always a message; the area template when
      an area is given (a non-empty string, as Python's truth test demands),
      otherwise the generic stereotype warning. The detected pattern is not
      used. */
  function GenerateWarningMessage(stereotype: Option<string>, area: Option<string>): (r: Option<string>)
    ensures r.Some?
    ensures r.value != GenericWarning <==> area.Some? && area.value != ""
    ensures area.Some? && area.value != "" ==> Contains(r.value, Title(area.value))
  {
    if area.Some? && area.value != "" then
      AreaWarningShape(area.value);
      Some(AreaWarning(area.value))
    else Some(GenericWarning)
  }

  /** `validate_query`: classify, look for stereotypes, and compose the
      result. A query is safe exactly when it is STANDARD and carries no
      stereotype; only unsafe queries get a rewrite (for a STANDARD query
      with a stereotype the rewrite is the input itself); a warning comes
      exactly with a stereotype; a disclaimer exactly with a non-STANDARD
      type. */
  function ValidateQuery(re: RegexEngine, userInput: string): (g: GuardrailResult)
    ensures g.queryType == DetectQueryType(re, userInput)
    ensures g.isSafe <==> g.queryType == Standard && !ContainsStereotype(re, userInput).0
    ensures g.reframedQuery.Some? <==> !g.isSafe
    ensures g.reframedQuery.Some? ==> g.reframedQuery.value == Reframed(re, userInput, g.queryType)
    ensures !g.isSafe && g.queryType == Standard ==> g.reframedQuery == Some(userInput)
    ensures g.warningMessage.Some? <==> ContainsStereotype(re, userInput).0
    ensures g.advisoryDisclaimer.None? <==> g.queryType == Standard
    ensures g.advisoryDisclaimer == GenerateAdvisoryDisclaimer(g.queryType)
    ensures g.warningMessage == (if ContainsStereotype(re, userInput).0
      then GenerateWarningMessage(ContainsStereotype(re, userInput).1, ExtractStereotypedArea(userInput))
      else None)
  {
    var qt := DetectQueryType(re, userInput);
    var (hasStereotype, pattern) := ContainsStereotype(re, userInput);
    var area := if hasStereotype then ExtractStereotypedArea(userInput) else None;
    var isSafe := qt == Standard && !hasStereotype;
    var reframed := if !isSafe then Some(Reframed(re, userInput, qt)) else None;
    var warning := if hasStereotype then GenerateWarningMessage(pattern, area) else None;
    GuardrailResult(isSafe, qt, reframed, warning, GenerateAdvisoryDisclaimer(qt))
  }

  /** A listed area and a negative word anywhere in the query make it
      unsafe and draw the area warning, whatever the regular expressions do. */
  lemma AreaWithNegativeWordIsFlagged(re: RegexEngine, userInput: string, area: nat, word: nat)
    requires area < |StereotypedAreas| && word < |DangerousWords|
    requires Contains(Lower(userInput), StereotypedAreas[area])
    requires Contains(Lower(userInput), DangerousWords[word])
    ensures !ValidateQuery(re, userInput).isSafe
    ensures ValidateQuery(re, userInput).warningMessage.Some?
    ensures ValidateQuery(re, userInput).warningMessage != Some(GenericWarning)
  {
    AreaAndWordFound(userInput, area, word);
    var st := ContainsStereotype(re, userInput);
    assert st.0;
    assert ValidateQuery(re, userInput).warningMessage == GenerateWarningMessage(st.1, ExtractStereotypedArea(userInput));
  }

  /** An input with a listed area and a negative word gives an area/word
      hit and a non-empty extracted area. */
  lemma AreaAndWordFound(userInput: string, area: nat, word: nat)
    requires area < |StereotypedAreas| && word < |DangerousWords|
    requires Contains(Lower(userInput), StereotypedAreas[area])
    requires Contains(Lower(userInput), DangerousWords[word])
    ensures AreaWordHit(Lower(userInput), StereotypedAreas).Some?
    ensures ExtractStereotypedArea(userInput).Some? && ExtractStereotypedArea(userInput).value != ""
  {
    var lower := Lower(userInput);
    AreaWordHitIsFirstPair(lower, StereotypedAreas);
    var a := FirstContained(lower, StereotypedAreas);
    assert a <= area;
    AreasNamed();
  }

  /** Every listed area has a name. */
  lemma AreasNamed()
    ensures forall k :: 0 <= k < |StereotypedAreas| ==> StereotypedAreas[k] != ""
  {
  }

  // ---------------------------------------------------------------------
  // Prompt wrapping and response cleaning

  const SafetyInstructions: string :=
    "\n"
    + "    IMPORTANT SAFETY GUIDELINES:\n"
    + "    \n"
    + "    1. You are an ADVISORY agent, not an authority. Do not make definitive claims about areas being \"safe\" or \"dangerous\".\n"
    + "    \n"
    + "    2. Do NOT accept user stereotypes as facts. If a user says \"X area is dangerous,\" do not repeat this as fact. Instead, focus on specific factors.\n"
    + "    \n"
    + "    3. Focus on TRADE-OFFS (cost vs commute vs amenities) rather than predictions or labels.\n"
    + "    \n"
    + "    4. Present BALANCED perspectives - every area has diverse communities and experiences.\n"
    + "    \n"
    + "    5. Use neutral language: \"factors to consider\" instead of \"dangerous areas.\"\n"
    + "    \n"
    + "    6. Include advisory language: \"Based on your criteria...\" not \"You should...\"\n"
    + "    \n"
    + "    7. Acknowledge uncertainty: \"Factors to consider include...\" not \"This area is safe.\"\n"
    + "    \n"
    + "    Remember: Your role is to help users make informed decisions, not to label neighborhoods.\n"
    + "    \n"
    + "    "

  /** `context.get(key, 'Not specified')`, values already rendered as text. */
  function ContextValue(context: map<string, string>, key: string): string {
    if key in context then context[key] else "Not specified"
  }

  function ContextInfo(context: map<string, string>): string {
    "\nUser Context:\n- Budget: KES " + ContextValue(context, "budget")
    + "\n- Location: " + ContextValue(context, "location")
    + "\n- Workplace: " + ContextValue(context, "workplace") + "\n"
  }

  /** `inject_safety_context`: the instruction block, then the user-context
      block when the context is non-empty (a missing context and an empty
      one are both false in Python), then a newline and the prompt. The
      prompt always ends the result, unchanged. */
  method InjectSafetyContext(prompt: string, context: map<string, string>) returns (r: string)
    ensures SafetyInstructions <= r
    ensures IsSuffix("\n" + prompt, r)
    ensures |context| == 0 ==> r == SafetyInstructions + ("\n" + prompt)
    ensures |context| > 0 ==> r == SafetyInstructions + ContextInfo(context) + ("\n" + prompt)
  {
    var instructions := SafetyInstructions;
    if |context| > 0 {
      instructions := instructions + ContextInfo(context);
      PrefixExtend(SafetyInstructions, SafetyInstructions, ContextInfo(context));
    }
    r := instructions + ("\n" + prompt);
    Framed(SafetyInstructions, instructions, "\n" + prompt);
  }

  /** The substitutions `postprocess_response` applies, in order. */
  const Replacements: seq<(string, string)> := [
    ("\\b(this area is|these areas are|that area is)\\b", "factors to consider in"),
    ("\\b(is safe|is dangerous|is risky|is unsafe)\\b", "has various characteristics to consider"),
    ("\\b(guarantee|certain|definitely|will be)\\b", "may be considered"),
    ("\\b(never|always)\\b", "often"),
    ("\\b(most dangerous|safest|highest crime)\\b", "various considerations")
  ]

  const AdvisoryMarker: string := "Based on your specific needs"
  const AdvisoryFooter: string :=
    "\n\n*This is advisory information. Always visit areas personally and consult local sources for the most current information.*"

  /** The text after applying the substitutions of `rules` in order, the
      first one first. */
  function ApplyAll(re: RegexEngine, rules: seq<(string, string)>, text: string): string
    decreases |rules|
  {
    if rules == [] then text
    else
      var last := rules[|rules| - 1];
      re.sub(last.0, last.1, ApplyAll(re, rules[..|rules| - 1], text))
  }

  predicate NeedsFooter(cleaned: string) {
    !Contains(cleaned, AdvisoryMarker) && Contains(Lower(cleaned), "considerations")
  }

  /** `postprocess_response`: the five substitutions applied in listed
      order; the advisory footer is appended exactly when the result lacks
      the advisory marker and mentions "considerations" in any case. */
  method PostprocessResponse(re: RegexEngine, response: string) returns (cleaned: string)
    ensures ApplyAll(re, Replacements, response) <= cleaned
    ensures NeedsFooter(ApplyAll(re, Replacements, response)) ==>
      cleaned == ApplyAll(re, Replacements, response) + AdvisoryFooter
    ensures !NeedsFooter(ApplyAll(re, Replacements, response)) ==>
      cleaned == ApplyAll(re, Replacements, response)
  {
    cleaned := response;
    var i := 0;
    while i < |Replacements|
      invariant 0 <= i <= |Replacements|
      invariant cleaned == ApplyAll(re, Replacements[..i], response)
    {
      assert Replacements[..i + 1][..i] == Replacements[..i];
      cleaned := re.sub(Replacements[i].0, Replacements[i].1, cleaned);
      i := i + 1;
    }
    assert Replacements[..i] == Replacements;
    if !Contains(cleaned, AdvisoryMarker) && Contains(Lower(cleaned), "considerations") {
      cleaned := cleaned + AdvisoryFooter;
    }
  }
}
