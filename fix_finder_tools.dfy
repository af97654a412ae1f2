/**
 * The three tools the fix finder agent may call: the what-if simulator,
 * which re-checks a copy of the scenario with some fields overridden
 * against fixed thresholds, the guide search and the product comparison,
 * and the dispatcher that runs a batch of tool requests by name.
 */
module FixFinderTools {
  import opened Wrappers
  import opened Strings
  import opened JsonValue
  import opened Amortization
  import LM = LoanModels
  import opened FixFinderModels

  /** The scenario as `model_dump` gives it, field by field. */
  function Dump(s: LM.LoanScenario): Dict {
    [("credit_score", JNum(s.creditScore as real)),
     ("annual_income", JNum(s.annualIncome)),
     ("is_first_time_buyer", JBool(s.isFirstTimeBuyer)),
     ("loan_amount", JNum(s.loanAmount)),
     ("property_value", JNum(s.propertyValue)),
     ("loan_term_years", JNum(s.loanTermYears as real)),
     ("monthly_debt_payments", JNum(s.monthlyDebtPayments)),
     ("property_type", JStr(s.propertyType)),
     ("property_state", JStr(s.propertyState)),
     ("property_county", JStr(s.propertyCounty)),
     ("occupancy", JStr(s.occupancy))]
  }

  /** The copy after the loop over the changes: a key the copy already has takes the change's value. */
  function Overridden(data: Dict, changes: Dict): Dict {
    if |changes| == 0 then data
    else
      var prev := Overridden(data, changes[..|changes| - 1]);
      var (k, v) := changes[|changes| - 1];
      if Lookup(prev, k).Some? then Assign(prev, k, v) else prev
  }

  /** Only keys of the copy change, and each takes the last value the changes give it. */
  lemma {:induction false} OverriddenLookup(data: Dict, changes: Dict, k: string)
    ensures Lookup(Overridden(data, changes), k)
         == if Lookup(data, k).Some? && LastLookup(changes, k).Some? then LastLookup(changes, k) else Lookup(data, k)
  {
    if |changes| > 0 {
      OverriddenLookup(data, changes[..|changes| - 1], k);
      var prev := Overridden(data, changes[..|changes| - 1]);
      var (k', v) := changes[|changes| - 1];
      OverriddenLookup(data, changes[..|changes| - 1], k');
    }
  }

  /** The value the simulator reads for a scenario field: the change when there is one, else the scenario's own. */
  function Modified(s: LM.LoanScenario, changes: Dict, k: string): Json {
    match Get(changes, k)
    case Some(v) => if Lookup(Dump(s), k).Some? then v else JNull
    case None => Lookup(Dump(s), k).UnwrapOr(JNull)
  }

  lemma ModifiedRead(s: LM.LoanScenario, changes: Dict, k: string)
    requires Lookup(Dump(s), k).Some?
    ensures Lookup(Overridden(Dump(s), Items(changes)), k) == Some(Modified(s, changes, k))
  {
    OverriddenLookup(Dump(s), Items(changes), k);
    ItemsLastLookup(changes, k);
  }

  /** `a / b` on JSON values. */
  function Divide(a: Json, b: Json): (r: Result<real>)
    ensures r.Ok? <==> AsNumber(a).Some? && AsNumber(b).Some? && AsNumber(b).value != 0.0
    ensures r.Ok? ==> r.value * AsNumber(b).value == AsNumber(a).value
    ensures AsNumber(a).Some? && AsNumber(b) == Some(0.0) ==> r == Err(ZeroDivisionError)
    ensures (AsNumber(a).None? || AsNumber(b).None?) ==> r == Err(TypeError)
  {
    match (AsNumber(a), AsNumber(b))
    case (Some(x), Some(y)) => if y == 0.0 then Err(ZeroDivisionError) else Ok(x / y)
    case _ => Err(TypeError)
  }

  /** `sum(abs(v) for v in values)`. */
  function Magnitude(items: Dict): (r: Result<real>)
    ensures r.Ok? <==> forall i :: 0 <= i < |items| ==> AsNumber(items[i].1).Some?
    ensures r.Ok? ==> r.value >= 0.0
    ensures r.Err? ==> r.error == TypeError
  {
    if |items| == 0 then Ok(0.0)
    else
      match (Magnitude(items[..|items| - 1]), AsNumber(items[|items| - 1].1))
      case (Ok(m), Some(x)) => Ok(m + (if x < 0.0 then -x else x))
      case (Err(e), _) => Err(e)
      case _ => Err(TypeError)
  }

  /** The feasibility band of a change magnitude. */
  function FeasibilityOf(magnitude: real): (f: Feasibility)
    ensures f == Easy <==> magnitude < 5000.0
    ensures f == Moderate <==> 5000.0 <= magnitude < 20000.0
    ensures f == Hard <==> 20000.0 <= magnitude < 50000.0
    ensures f == VeryHard <==> magnitude >= 50000.0
  {
    if magnitude < 5000.0 then Easy
    else if magnitude < 20000.0 then Moderate
    else if magnitude < 50000.0 then Hard
    else VeryHard
  }

  function FeasibilityRank(f: Feasibility): nat {
    match f
    case Easy => 0
    case Moderate => 1
    case Hard => 2
    case VeryHard => 3
  }

  /** A larger change is never judged more feasible. */
  lemma FeasibilityMonotone(m: real, n: real)
    requires m <= n
    ensures FeasibilityRank(FeasibilityOf(m)) <= FeasibilityRank(FeasibilityOf(n))
  {
  }

  datatype SimProduct = SimHomeReady | SimHomePossible

  /** The rule names the simulator reports for one product, in the order it checks them. */
  function SimViolations(p: SimProduct, credit: real, ltv: real, dti: real, occupancy: string): seq<string> {
    (if credit < (if p == SimHomeReady then 620.0 else 660.0) then ["min_credit_score"] else [])
    + (if ltv > 0.97 then ["max_ltv"] else [])
    + (if dti > (if p == SimHomeReady then 0.50 else 0.45) then ["max_dti"] else [])
    + (if occupancy != "primary" then ["occupancy"] else [])
  }

  /** A product passes the simulation exactly when it meets all four thresholds. */
  lemma SimEligibleIff(p: SimProduct, credit: real, ltv: real, dti: real, occupancy: string)
    ensures SimViolations(p, credit, ltv, dti, occupancy) == [] <==>
      (&& credit >= (if p == SimHomeReady then 620.0 else 660.0)
       && ltv <= 0.97
       && dti <= (if p == SimHomeReady then 0.50 else 0.45)
       && occupancy == "primary")
  {
  }

  /** `list(set(s))`: each element once (the model keeps first occurrences in order). */
  function Distinct(s: seq<string>): (r: seq<string>)
    ensures forall x :: x in r <==> x in s
    ensures forall i, j :: 0 <= i < j < |r| ==> r[i] != r[j]
  {
    if |s| == 0 then []
    else
      var rest := Distinct(s[..|s| - 1]);
      assert s == s[..|s| - 1] + [s[|s| - 1]];
      if s[|s| - 1] in rest then rest else rest + [s[|s| - 1]]
  }

  /** The simulator always prices a 30-year loan. */
  const SimulatedMonths: nat := 30 * 12

  /** The ratios the simulator derives from the modified fields. */
  datatype Metrics = Metrics(credit: real, ltv: real, dti: real)

  /** The number a JSON value stands for in arithmetic (zero where it stands for none). */
  function Num(j: Json): real {
    AsNumber(j).UnwrapOr(0.0)
  }

  predicate IsNumber(j: Json) {
    AsNumber(j).Some?
  }

  /** The five fields read after the override, as numbers, with the errors Python raises on the way. */
  function SimMetrics(s: LM.LoanScenario, changes: Dict): Result<Metrics>
  {
    MetricsOf(Modified(s, changes, "loan_amount"), Modified(s, changes, "property_value"), Modified(s, changes, "annual_income"),
              Modified(s, changes, "monthly_debt_payments"), Modified(s, changes, "credit_score"))
  }

  /** The ratios computed from the five field values in the order the simulator evaluates them. */
  function MetricsOf(loan: Json, value: Json, income: Json, debt: Json, credit: Json): Result<Metrics>
  {
    match Divide(loan, value)
    case Err(e) => Err(e)
    case Ok(ltv) =>
      match Divide(income, JNum(12.0))
      case Err(e) => Err(e)
      case Ok(monthly) =>
        var payment := Payment(AsNumber(loan).value, SimulatedMonths).value;
        match AsNumber(debt)
        case None => Err(TypeError)
        case Some(d) =>
          match Divide(JNum(d + payment), JNum(monthly))
          case Err(e) => Err(e)
          case Ok(dti) =>
            match AsNumber(credit)
            case None => Err(TypeError)
            case Some(c) => Ok(Metrics(c, ltv, dti))
  }

  /** The metrics exist exactly when the five fields are numbers and neither divisor is zero. */
  lemma MetricsOfOk(loan: Json, value: Json, income: Json, debt: Json, credit: Json)
    ensures && (MetricsOf(loan, value, income, debt, credit).Ok? <==> (&& IsNumber(loan) && IsNumber(value) && Num(value) != 0.0
                       && IsNumber(income) && Num(income) != 0.0 && IsNumber(debt) && IsNumber(credit)))
            && (IsNumber(loan) && IsNumber(value) && Num(value) == 0.0 ==> MetricsOf(loan, value, income, debt, credit) == Err(ZeroDivisionError))
  {
  }

  /** The metrics are the credit score, the loan over the value, and the debts plus the 30-year payment over the monthly income. */
  lemma MetricsOfValues(loan: Json, value: Json, income: Json, debt: Json, credit: Json)
    requires MetricsOf(loan, value, income, debt, credit).Ok?
    ensures var m := MetricsOf(loan, value, income, debt, credit).value;
      && m.credit == Num(credit)
      && m.ltv * Num(value) == Num(loan)
      && m.dti * (Num(income) / 12.0) == Num(debt) + Payment(Num(loan), SimulatedMonths).value
  {
    var ltv, monthly := Divide(loan, value), Divide(income, JNum(12.0));
    assert ltv.Ok? && monthly.Ok?;
    assert monthly.value == Num(income) / 12.0;
  }

  /** The formatting the simulation needs: changed values and the summary text. */
  datatype Formatting = Formatting(number: real -> string, simulationSummary: (SimulationResult, Metrics) -> string)

  /**
   * `_execute_simulate_scenario`: the scenario itself is a value and stays as
   * it was; the copy takes the changes for its own keys only, and the
   * occupancy is always the scenario's.
   */
  function SimulateScenario(s: LM.LoanScenario, changes: Json, description: Json, fmt: Formatting): (r: Result<(SimulationResult, string)>)
    ensures !changes.JObj? ==> r == Err(AttributeError)
  {
    if !changes.JObj? then Err(AttributeError)
    else
      var cd := changes.fields;
      match SimMetrics(s, cd)
      case Err(e) => Err(e)
      case Ok(m) =>
        var hr := SimViolations(SimHomeReady, m.credit, m.ltv, m.dti, s.occupancy);
        var hp := SimViolations(SimHomePossible, m.credit, m.ltv, m.dti, s.occupancy);
        match Magnitude(Items(cd))
        case Err(e) => Err(e)
        case Ok(magnitude) =>
          var items := Items(cd);
          var params := seq(|items|, i requires 0 <= i < |items| => (items[i].0, fmt.number(AsNumber(items[i].1).UnwrapOr(0.0))));
          if !description.JStr? then Err(ValidationError)
          else
            var sim := SimulationResult(description.s, params, hr == [], hp == [], [], Distinct(hr + hp), FeasibilityOf(magnitude));
            Ok((sim, fmt.simulationSummary(sim, m)))
  }

  /**
   * A simulation succeeds when the changes are an object whose values are
   * numbers, the fields it reads are numbers with non-zero divisors and the
   * description is a string; each product is then eligible exactly when it
   * has no violation, and the remaining violations are the union of both.
   */
  lemma SimulationSpec(s: LM.LoanScenario, changes: Json, description: Json, fmt: Formatting)
    ensures SimulateScenario(s, changes, description, fmt).Ok? ==> changes.JObj? && SimMetrics(s, changes.fields).Ok? && description.JStr?
    ensures SimulateScenario(s, changes, description, fmt).Ok? ==> Magnitude(Items(changes.fields)).Ok?
    ensures changes.JObj? && SimMetrics(s, changes.fields).Ok? && Magnitude(Items(changes.fields)).Ok? && description.JStr? ==> SimulateScenario(s, changes, description, fmt).Ok?
    ensures SimulateScenario(s, changes, description, fmt).Ok? ==>
      var m := SimMetrics(s, changes.fields).value;
      var sim := SimulateScenario(s, changes, description, fmt).value.0;
      && sim.scenarioDescription == description.s
      && (sim.homereadyEligible <==> SimViolations(SimHomeReady, m.credit, m.ltv, m.dti, s.occupancy) == [])
      && (sim.homePossibleEligible <==> SimViolations(SimHomePossible, m.credit, m.ltv, m.dti, s.occupancy) == [])
      && (forall x :: x in sim.remainingViolations <==>
            x in SimViolations(SimHomeReady, m.credit, m.ltv, m.dti, s.occupancy) || x in SimViolations(SimHomePossible, m.credit, m.ltv, m.dti, s.occupancy))
      && (forall i, j :: 0 <= i < j < |sim.remainingViolations| ==> sim.remainingViolations[i] != sim.remainingViolations[j])
      && sim.violationsResolved == []
      && sim.feasibility == FeasibilityOf(Magnitude(Items(changes.fields)).value)
      && |sim.parameterChanges| == |Items(changes.fields)|
      && (forall i :: 0 <= i < |sim.parameterChanges| ==> sim.parameterChanges[i].0 == Items(changes.fields)[i].0)
  {
  }

  /** One match of the guide search, with the metadata `query_guides` reads from it. */
  datatype GuideHit = GuideHit(section: Json, gse: Json, title: Json, text: string, score: real)

  /** What the embedding and vector search give back: the matches, or the failure's message. */
  datatype GuideSearch = Hits(hits: seq<GuideHit>) | SearchFailed(message: string)

  /** A `{"gse": {"$eq": g}}` filter, which "both" omits. */
  function GseFilter(gseFilter: Json): (f: Option<Json>)
    ensures f.None? <==> gseFilter == JStr("both")
    ensures f.Some? ==> f.value == JObj([("gse", JObj([("$eq", gseFilter)]))])
  {
    if gseFilter == JStr("both") then None else Some(JObj([("gse", JObj([("$eq", gseFilter)]))]))
  }

  /** The external calls and the text rendering the tools use. */
  datatype Services = Services(
    /** Embeds the query and searches the index: query, filter, number of matches. */
    search: (Json, Option<Json>, nat) -> GuideSearch,
    /** The summary `compare_products` writes for a requirement area. */
    comparison: Json -> string,
    /** `str(v)` for a value that is not a string. */
    repr: Json -> string,
    fmt: Formatting)

  /** The citation a match would become, before the record checks it. */
  function HitCitation(h: GuideHit): Result<GuideCitation> {
    match (StrField(h.section), StrField(h.gse))
    case (Ok(section), Ok(gse)) => MakeGuideCitation(section, gse, Take(h.text, 600), if h.score < 1.0 then h.score else 1.0)
    case _ => Err(ValidationError)
  }

  /** The citation records of all matches, or the first one refused. */
  function HitCitations(hits: seq<GuideHit>): (r: Result<seq<GuideCitation>>)
    ensures r.Ok? <==> forall i :: 0 <= i < |hits| ==> HitCitation(hits[i]).Ok?
    ensures r.Ok? ==> |r.value| == |hits| && forall i :: 0 <= i < |hits| ==> r.value[i] == HitCitation(hits[i]).value
    ensures r.Ok? ==> CitationsValid(r.value)
  {
    if |hits| == 0 then Ok([])
    else
      match (HitCitations(hits[..|hits| - 1]), HitCitation(hits[|hits| - 1]))
      case (Ok(cs), Ok(c)) => Ok(cs + [c])
      case (Err(e), _) => Err(e)
      case (_, Err(e)) => Err(e)
  }

  /** A match as the summary shows it: GSE label, section and title, then the text cut to 600 characters. */
  function HitText(h: GuideHit, repr: Json -> string): string {
    var gseLabel := if h.gse == JStr("fannie_mae") then "Fannie Mae" else "Freddie Mac";
    "[" + gseLabel + " " + PyStr(h.section, repr) + "] " + PyStr(h.title, repr) + "\n" + Take(h.text, 600)
  }

  /** `_execute_query_guides`: the matches and the summary; a failed search gives none and says so. */
  function QueryGuides(input: Dict, services: Services): (r: (seq<GuideHit>, string))
    ensures services.search(GetOr(input, "query", JStr("")), GseFilter(GetOr(input, "gse_filter", JStr("both"))), 4).SearchFailed? ==>
      r == ([], "Search failed: " + services.search(GetOr(input, "query", JStr("")), GseFilter(GetOr(input, "gse_filter", JStr("both"))), 4).message)
    ensures r.0 == [] ==> r.1 != ""
  {
    match services.search(GetOr(input, "query", JStr("")), GseFilter(GetOr(input, "gse_filter", JStr("both"))), 4)
    case SearchFailed(message) => ([], "Search failed: " + message)
    case Hits(hits) =>
      var parts := seq(|hits|, i requires 0 <= i < |hits| => HitText(hits[i], services.repr));
      (hits, if |parts| == 0 then "No relevant sections found." else Join(parts, "\n---\n"))
  }

  /** A tool request from a model reply. */
  datatype ToolRequest = ToolRequest(id: string, name: string, input: Dict)

  /** What one tool call contributes: its record, the result sent back to the model, citations and simulations. */
  datatype ToolOutcome = ToolOutcome(
    call: ToolCall, result: (string, string), citations: seq<GuideCitation>, simulations: seq<SimulationResult>)

  /** One pass of the loop in `_process_tool_calls`: run the tool the request names and record the call. */
  function RunTool(tc: ToolRequest, s: LM.LoanScenario, services: Services): Result<ToolOutcome>
  {
    var outcome: Result<(seq<GuideCitation>, seq<SimulationResult>, string)> :=
      if tc.name == "query_guides" then
        var (hits, summary) := QueryGuides(tc.input, services);
        match HitCitations(hits)
        case Ok(cs) => Ok((cs, [], summary))
        case Err(e) => Err(e)
      else if tc.name == "simulate_scenario" then
        match SimulateScenario(s, GetOr(tc.input, "changes", JObj([])), GetOr(tc.input, "description", JStr("")), services.fmt)
        case Ok((sim, summary)) => Ok(([], [sim], summary))
        case Err(e) => Err(e)
      else if tc.name == "compare_products" then
        Ok(([], [], services.comparison(GetOr(tc.input, "requirement_area", JStr("")))))
      else Ok(([], [], ""));
    match outcome
    case Err(e) => Err(e)
    case Ok((cs, sims, summary)) =>
      match MakeToolCall(tc.name, tc.input, Take(summary, 500))
      case Err(e) => Err(e)
      case Ok(call) => Ok(ToolOutcome(call, (tc.id, summary), cs, sims))
  }

  /**
   * An unknown tool name is refused; a call that succeeds records the name,
   * the arguments and the summary cut to 500 characters, answers with the
   * request's id, and only the guide search cites and only the simulator
   * simulates.
   */
  lemma RunToolSpec(tc: ToolRequest, s: LM.LoanScenario, services: Services)
    ensures tc.name !in {"query_guides", "simulate_scenario", "compare_products"} ==> RunTool(tc, s, services) == Err(ValidationError)
    ensures RunTool(tc, s, services).Ok? ==> ToolNameString(RunTool(tc, s, services).value.call.toolName) == tc.name && RunTool(tc, s, services).value.call.arguments == tc.input
    ensures RunTool(tc, s, services).Ok? ==> RunTool(tc, s, services).value.result.0 == tc.id && RunTool(tc, s, services).value.call.resultSummary == Take(RunTool(tc, s, services).value.result.1, 500)
    ensures RunTool(tc, s, services).Ok? ==> CitationsValid(RunTool(tc, s, services).value.citations)
    ensures RunTool(tc, s, services).Ok? && tc.name != "query_guides" ==> RunTool(tc, s, services).value.citations == []
    ensures RunTool(tc, s, services).Ok? && tc.name != "simulate_scenario" ==> RunTool(tc, s, services).value.simulations == []
    ensures RunTool(tc, s, services).Ok? && tc.name == "simulate_scenario" ==> |RunTool(tc, s, services).value.simulations| == 1
  {
  }

  /** The tool results of a batch, processed in order. */
  datatype ToolBatch = ToolBatch(
    calls: seq<ToolCall>, results: seq<(string, string)>, citations: seq<GuideCitation>, simulations: seq<SimulationResult>)

  /** The dispatcher with the scenario and the services fixed. */
  function Dispatch(s: LM.LoanScenario, services: Services): ToolRequest -> Result<ToolOutcome> {
    tc => RunTool(tc, s, services)
  }

  /** The outcome of every request of a batch, each run on its own. */
  function Outcomes(tcs: seq<ToolRequest>, run: ToolRequest -> Result<ToolOutcome>): (outs: seq<Result<ToolOutcome>>)
    ensures |outs| == |tcs| && forall i :: 0 <= i < |tcs| ==> outs[i] == run(tcs[i])
  {
    seq(|tcs|, i requires 0 <= i < |tcs| => run(tcs[i]))
  }

  predicate AllOk(outs: seq<Result<ToolOutcome>>) {
    forall i :: 0 <= i < |outs| ==> outs[i].Ok?
  }

  /** All citations of a batch whose calls all succeed, in call order. */
  function BatchCitations(outs: seq<Result<ToolOutcome>>): seq<GuideCitation>
    requires AllOk(outs)
  {
    if |outs| == 0 then [] else BatchCitations(outs[..|outs| - 1]) + outs[|outs| - 1].value.citations
  }

  function BatchSimulations(outs: seq<Result<ToolOutcome>>): seq<SimulationResult>
    requires AllOk(outs)
  {
    if |outs| == 0 then [] else BatchSimulations(outs[..|outs| - 1]) + outs[|outs| - 1].value.simulations
  }

  /** The number of simulation requests in a batch. */
  function SimulationRequests(tcs: seq<ToolRequest>): nat {
    if |tcs| == 0 then 0 else SimulationRequests(tcs[..|tcs| - 1]) + (if tcs[|tcs| - 1].name == "simulate_scenario" then 1 else 0)
  }

  /** Each simulation request of a successful batch yields exactly one simulation. */
  lemma {:induction false} BatchSimulationCount(tcs: seq<ToolRequest>, s: LM.LoanScenario, services: Services)
    requires AllOk(Outcomes(tcs, Dispatch(s, services)))
    ensures |BatchSimulations(Outcomes(tcs, Dispatch(s, services)))| == SimulationRequests(tcs)
  {
    if |tcs| > 0 {
      var init := tcs[..|tcs| - 1];
      assert Outcomes(tcs, Dispatch(s, services))[..|tcs| - 1] == Outcomes(init, Dispatch(s, services));
      BatchSimulationCount(init, s, services);
      RunToolSpec(tcs[|tcs| - 1], s, services);
    }
  }

  /** Every citation a successful batch collects passes the citation checks. */
  lemma BatchCitationsValid(tcs: seq<ToolRequest>, s: LM.LoanScenario, services: Services)
    requires AllOk(Outcomes(tcs, Dispatch(s, services)))
    ensures CitationsValid(BatchCitations(Outcomes(tcs, Dispatch(s, services))))
  {
    var outs := Outcomes(tcs, Dispatch(s, services));
    forall i | 0 <= i < |outs|
      ensures CitationsValid(outs[i].value.citations)
    {
      RunToolSpec(tcs[i], s, services);
    }
    OutcomeCitationsValid(outs);
  }

  lemma {:induction false} OutcomeCitationsValid(outs: seq<Result<ToolOutcome>>)
    requires AllOk(outs) && forall i :: 0 <= i < |outs| ==> CitationsValid(outs[i].value.citations)
    ensures CitationsValid(BatchCitations(outs))
  {
    if |outs| > 0 {
      OutcomeCitationsValid(outs[..|outs| - 1]);
      CitationsAppend(BatchCitations(outs[..|outs| - 1]), outs[|outs| - 1].value.citations);
    }
  }

  /**
   * The loop of `_process_tool_calls`: runs the requests in order; the first
   * one that raises aborts the whole batch with its error.
   */
  method RunBatch(tcs: seq<ToolRequest>, run: ToolRequest -> Result<ToolOutcome>) returns (r: Result<ToolBatch>)
    ensures var outs := Outcomes(tcs, run);
      && (r.Ok? <==> AllOk(outs))
      && (r.Err? ==> exists i :: 0 <= i < |outs| && outs[i] == Err(r.error) && AllOk(outs[..i]))
      && (r.Ok? ==>
           && |r.value.calls| == |tcs| && |r.value.results| == |tcs|
           && (forall i :: 0 <= i < |tcs| ==> r.value.calls[i] == outs[i].value.call)
           && (forall i :: 0 <= i < |tcs| ==> r.value.results[i] == outs[i].value.result)
           && r.value.citations == BatchCitations(outs)
           && r.value.simulations == BatchSimulations(outs))
  {
    ghost var outs := Outcomes(tcs, run);
    var calls: seq<ToolCall> := [];
    var results: seq<(string, string)> := [];
    var citations: seq<GuideCitation> := [];
    var simulations: seq<SimulationResult> := [];
    var i := 0;
    while i < |tcs|
      invariant 0 <= i <= |tcs|
      invariant AllOk(outs[..i])
      invariant |calls| == i && |results| == i
      invariant forall j :: 0 <= j < i ==> calls[j] == outs[j].value.call
      invariant forall j :: 0 <= j < i ==> results[j] == outs[j].value.result
      invariant citations == BatchCitations(outs[..i])
      invariant simulations == BatchSimulations(outs[..i])
    {
      var outcome := run(tcs[i]);
      if outcome.Err? {
        return Err(outcome.error);
      }
      assert outs[..i + 1][..i] == outs[..i];
      calls := calls + [outcome.value.call];
      results := results + [outcome.value.result];
      citations := citations + outcome.value.citations;
      simulations := simulations + outcome.value.simulations;
      i := i + 1;
    }
    assert outs[..i] == outs;
    r := Ok(ToolBatch(calls, results, citations, simulations));
  }

  /** `_process_tool_calls`: each request is dispatched on its tool name. */
  method ProcessToolCalls(tcs: seq<ToolRequest>, s: LM.LoanScenario, services: Services) returns (r: Result<ToolBatch>)
    ensures var outs := Outcomes(tcs, Dispatch(s, services));
      && (r.Ok? <==> AllOk(outs))
      && (r.Err? ==> exists i :: 0 <= i < |outs| && outs[i] == Err(r.error) && AllOk(outs[..i]))
      && (r.Ok? ==>
           && |r.value.calls| == |tcs| && |r.value.results| == |tcs|
           && (forall i :: 0 <= i < |tcs| ==> r.value.calls[i] == outs[i].value.call)
           && (forall i :: 0 <= i < |tcs| ==> r.value.results[i] == outs[i].value.result)
           && r.value.citations == BatchCitations(outs)
           && r.value.simulations == BatchSimulations(outs))
  {
    r := RunBatch(tcs, Dispatch(s, services));
  }
}
