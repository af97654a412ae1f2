/**
 * The records of the fix finder agent and the range and literal constraints
 * their fields carry. Constrained fields are typed where a datatype can say
 * it (difficulty, feasibility, effort, tool name); the rest are checked by
 * the `Make*` constructors, which refuse a record with a validation error.
 */
module FixFinderModels {
  import opened Wrappers
  import opened JsonValue
  import LM = LoanModels

  datatype GuideCitation = GuideCitation(sectionId: string, gse: string, snippet: string, relevanceScore: real)
  {
    predicate Valid() {
      gse in LM.GseNames && 0.0 <= relevanceScore <= 1.0
    }
  }

  function MakeGuideCitation(sectionId: string, gse: string, snippet: string, relevanceScore: real): (r: Result<GuideCitation>)
    ensures r.Ok? <==> gse in LM.GseNames && 0.0 <= relevanceScore <= 1.0
    ensures r.Ok? ==> r.value.Valid() && r.value == GuideCitation(sectionId, gse, snippet, relevanceScore)
    ensures r.Err? ==> r.error == ValidationError
  {
    var c := GuideCitation(sectionId, gse, snippet, relevanceScore);
    if c.Valid() then Ok(c) else Err(ValidationError)
  }

  predicate CitationsValid(cs: seq<GuideCitation>) {
    forall i :: 0 <= i < |cs| ==> cs[i].Valid()
  }

  lemma CitationsAppend(a: seq<GuideCitation>, b: seq<GuideCitation>)
    requires CitationsValid(a) && CitationsValid(b)
    ensures CitationsValid(a + b)
  {
    assert forall k :: 0 <= k < |a + b| ==> (a + b)[k] == if k < |a| then a[k] else b[k - |a|];
  }

  datatype CompensatingFactor = CompensatingFactor(
    factorType: string, description: string, requirement: string, citations: seq<GuideCitation>)

  predicate ProductsValid(ps: seq<string>) {
    forall i :: 0 <= i < |ps| ==> ps[i] in LM.ProductNames
  }

  datatype EnhancedFixSuggestion = EnhancedFixSuggestion(
    description: string,
    impact: string,
    difficulty: LM.Difficulty,
    confidence: real,
    priorityOrder: int,
    estimatedTimeline: string,
    unlocksProducts: seq<string>,
    citations: seq<GuideCitation>,
    compensatingFactors: seq<CompensatingFactor>,
    tradeOffs: seq<string>)
  {
    predicate Valid() {
      && 0.0 <= confidence <= 1.0
      && priorityOrder >= 1
      && ProductsValid(unlocksProducts)
      && CitationsValid(citations)
    }
  }

  /** An enhanced suggestion with no products, citations, factors or trade-offs, as a sequence step has. */
  function MakeEnhancedFix(
    description: string, impact: string, difficulty: LM.Difficulty, confidence: real, priorityOrder: int,
    estimatedTimeline: string, unlocksProducts: seq<string>, citations: seq<GuideCitation>, tradeOffs: seq<string>): (r: Result<EnhancedFixSuggestion>)
    ensures r.Ok? <==> 0.0 <= confidence <= 1.0 && priorityOrder >= 1 && ProductsValid(unlocksProducts) && CitationsValid(citations)
    ensures r.Ok? ==> r.value.Valid()
    ensures r.Ok? ==> r.value == EnhancedFixSuggestion(description, impact, difficulty, confidence, priorityOrder,
                                   estimatedTimeline, unlocksProducts, citations, [], tradeOffs)
    ensures r.Err? ==> r.error == ValidationError
  {
    var f := EnhancedFixSuggestion(description, impact, difficulty, confidence, priorityOrder,
                                   estimatedTimeline, unlocksProducts, citations, [], tradeOffs);
    if f.Valid() then Ok(f) else Err(ValidationError)
  }

  datatype Feasibility = Easy | Moderate | Hard | VeryHard

  function FeasibilityName(f: Feasibility): string {
    match f
    case Easy => "easy"
    case Moderate => "moderate"
    case Hard => "hard"
    case VeryHard => "very_hard"
  }

  function FeasibilityFromString(s: string): (r: Option<Feasibility>)
    ensures r.Some? <==> s in {"easy", "moderate", "hard", "very_hard"}
    ensures r.Some? ==> FeasibilityName(r.value) == s
  {
    if s == "easy" then Some(Easy)
    else if s == "moderate" then Some(Moderate)
    else if s == "hard" then Some(Hard)
    else if s == "very_hard" then Some(VeryHard)
    else None
  }

  lemma FeasibilityRoundTrip(f: Feasibility)
    ensures FeasibilityFromString(FeasibilityName(f)) == Some(f)
  {
  }

  datatype SimulationResult = SimulationResult(
    scenarioDescription: string,
    parameterChanges: seq<(string, string)>,
    homereadyEligible: bool,
    homePossibleEligible: bool,
    violationsResolved: seq<string>,
    remainingViolations: seq<string>,
    feasibility: Feasibility)

  datatype Effort = Low | Medium | High | VeryHigh

  function EffortName(e: Effort): string {
    match e
    case Low => "low"
    case Medium => "medium"
    case High => "high"
    case VeryHigh => "very_high"
  }

  function EffortFromString(s: string): (r: Option<Effort>)
    ensures r.Some? <==> s in {"low", "medium", "high", "very_high"}
    ensures r.Some? ==> EffortName(r.value) == s
  {
    if s == "low" then Some(Low)
    else if s == "medium" then Some(Medium)
    else if s == "high" then Some(High)
    else if s == "very_high" then Some(VeryHigh)
    else None
  }

  lemma EffortRoundTrip(e: Effort)
    ensures EffortFromString(EffortName(e)) == Some(e)
  {
  }

  datatype FixSequence = FixSequence(
    sequenceName: string,
    description: string,
    steps: seq<EnhancedFixSuggestion>,
    totalEffort: Effort,
    effortVsBenefitScore: real,
    productsUnlocked: seq<string>,
    estimatedTotalTimeline: string)
  {
    predicate Valid() {
      0.0 <= effortVsBenefitScore <= 10.0 && ProductsValid(productsUnlocked)
    }
  }

  function MakeFixSequence(
    sequenceName: string, description: string, steps: seq<EnhancedFixSuggestion>, totalEffort: Effort,
    score: real, productsUnlocked: seq<string>, estimatedTotalTimeline: string): (r: Result<FixSequence>)
    ensures r.Ok? <==> 0.0 <= score <= 10.0 && ProductsValid(productsUnlocked)
    ensures r.Ok? ==> r.value.Valid()
    ensures r.Ok? ==> r.value == FixSequence(sequenceName, description, steps, totalEffort, score, productsUnlocked, estimatedTotalTimeline)
    ensures r.Err? ==> r.error == ValidationError
  {
    var s := FixSequence(sequenceName, description, steps, totalEffort, score, productsUnlocked, estimatedTotalTimeline);
    if s.Valid() then Ok(s) else Err(ValidationError)
  }

  datatype ToolName = QueryGuides | SimulateScenario | CompareProducts

  function ToolNameString(t: ToolName): string {
    match t
    case QueryGuides => "query_guides"
    case SimulateScenario => "simulate_scenario"
    case CompareProducts => "compare_products"
  }

  function ToolNameFromString(s: string): (r: Option<ToolName>)
    ensures r.Some? <==> s in {"query_guides", "simulate_scenario", "compare_products"}
    ensures r.Some? ==> ToolNameString(r.value) == s
  {
    if s == "query_guides" then Some(QueryGuides)
    else if s == "simulate_scenario" then Some(SimulateScenario)
    else if s == "compare_products" then Some(CompareProducts)
    else None
  }

  lemma ToolNameRoundTrip(t: ToolName)
    ensures ToolNameFromString(ToolNameString(t)) == Some(t)
  {
  }

  datatype ToolCall = ToolCall(toolName: ToolName, arguments: Dict, resultSummary: string)

  /** A tool call record: the name must be one of the three tools. */
  function MakeToolCall(name: string, arguments: Dict, resultSummary: string): (r: Result<ToolCall>)
    ensures r.Ok? <==> name in {"query_guides", "simulate_scenario", "compare_products"}
    ensures r.Ok? ==> ToolNameString(r.value.toolName) == name
    ensures r.Ok? ==> r.value.arguments == arguments && r.value.resultSummary == resultSummary
    ensures r.Err? ==> r.error == ValidationError
  {
    match ToolNameFromString(name)
    case Some(t) => Ok(ToolCall(t, arguments, resultSummary))
    case None => Err(ValidationError)
  }

  datatype ReactStep = ReactStep(
    stepNumber: int,
    observation: string,
    reasoning: string,
    action: string,
    toolCalls: seq<ToolCall>,
    findings: seq<string>)

  /** A step record: its number counts from one. */
  function MakeReactStep(stepNumber: int, observation: string, reasoning: string, action: string): (r: Result<ReactStep>)
    ensures r.Ok? <==> stepNumber >= 1
    ensures r.Ok? ==> r.value == ReactStep(stepNumber, observation, reasoning, action, [], [])
    ensures r.Err? ==> r.error == ValidationError
  {
    if stepNumber >= 1 then Ok(ReactStep(stepNumber, observation, reasoning, action, [], [])) else Err(ValidationError)
  }

  datatype FixFinderResult = FixFinderResult(
    enhancedFixes: seq<EnhancedFixSuggestion>,
    fixSequences: seq<FixSequence>,
    simulations: seq<SimulationResult>,
    recommendedPath: string,
    productComparison: seq<(string, string)>,
    reactTrace: seq<ReactStep>,
    totalIterations: int,
    totalTimeMs: int,
    tokensUsed: int)

  /** The result with every field at its default. */
  function DefaultResult(): (r: FixFinderResult)
    ensures r.enhancedFixes == [] && r.fixSequences == [] && r.simulations == []
    ensures r.recommendedPath == "" && r.productComparison == [] && r.reactTrace == []
    ensures r.totalIterations == 0 && r.totalTimeMs == 0 && r.tokensUsed == 0
  {
    FixFinderResult([], [], [], "", [], [], 0, 0, 0)
  }
}
