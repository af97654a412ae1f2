/**
 * The eligibility rules engine for Fannie Mae HomeReady and Freddie Mac
 * Home Possible: the LTV and DTI ratios, the two product checks with their
 * cited violations, quantified fix suggestions and the recommendation.
 */
module RulesEngine {
  import opened Wrappers
  import opened Strings
  import opened Amortization
  import opened Display
  import opened Sorting
  import LM = LoanModels

  /** The engine's own scenario record; unlike the API model it constrains no field. */
  datatype Scenario = Scenario(
    creditScore: int,
    annualIncome: real,
    isFirstTimeBuyer: bool,
    loanAmount: real,
    propertyValue: real,
    loanTermYears: int,
    monthlyDebtPayments: real,
    propertyType: string,
    propertyState: string,
    propertyCounty: string,
    occupancy: string)

  /** The rule names a violation can carry, in the order the checks run. */
  datatype Rule = MinCreditScore | MaxDti | MaxLtvRule | OccupancyRule | PropertyTypeRule | LoanLimit | LoanTerm
  {
    function Name(): string {
      match this
      case MinCreditScore => "min_credit_score"
      case MaxDti => "max_dti"
      case MaxLtvRule => "max_ltv"
      case OccupancyRule => "occupancy"
      case PropertyTypeRule => "property_type"
      case LoanLimit => "loan_limit"
      case LoanTerm => "loan_term"
    }

    /** The position of the rule among the checks. */
    function Rank(): nat {
      match this
      case MinCreditScore => 0
      case MaxDti => 1
      case MaxLtvRule => 2
      case OccupancyRule => 3
      case PropertyTypeRule => 4
      case LoanLimit => 5
      case LoanTerm => 6
    }
  }

  /** The rule a `rule_name` stands for, as the suggestion loop compares it. */
  function RuleNamed(name: string): Option<Rule> {
    if name == "min_credit_score" then Some(MinCreditScore)
    else if name == "max_dti" then Some(MaxDti)
    else if name == "max_ltv" then Some(MaxLtvRule)
    else if name == "occupancy" then Some(OccupancyRule)
    else if name == "property_type" then Some(PropertyTypeRule)
    else if name == "loan_limit" then Some(LoanLimit)
    else if name == "loan_term" then Some(LoanTerm)
    else None
  }

  /** Each rule's name stands for that rule. */
  lemma RuleNameRoundTrip(r: Rule)
    ensures RuleNamed(r.Name()) == Some(r)
  {
    match r
    case MaxLtvRule => assert "max_ltv"[4] != "max_dti"[4];
    case LoanTerm => assert "loan_term"[1] != "occupancy"[1];
    case _ =>
  }

  /** Distinct rules have distinct names. */
  lemma RuleNamesDistinct(a: Rule, b: Rule)
    ensures a.Name() == b.Name() <==> a == b
  {
    RuleNameRoundTrip(a);
    RuleNameRoundTrip(b);
  }

  datatype RuleViolation = RuleViolation(
    rule: Rule,
    ruleDescription: string,
    actualValue: Shown,
    requiredValue: Shown,
    citation: string)

  datatype ProductResult = ProductResult(
    productName: string,
    gse: string,
    eligible: bool,
    violations: seq<RuleViolation>)

  /** 2026 conforming loan limits. */
  const BaseLimit2026: int := 832750
  const HighCostLimit2026: int := 1249125

  datatype Engine = Engine(baseLoanLimit: int, highCostLimit: int)

  const DefaultEngine: Engine := Engine(BaseLimit2026, HighCostLimit2026)

  const HomeReadyPropertyTypes: set<string> :=
    {"single_family", "condo", "pud", "2_unit", "3_unit", "4_unit", "manufactured", "coop"}
  const HomePossiblePropertyTypes: set<string> :=
    {"single_family", "condo", "coop", "manufactured", "2_unit", "3_unit", "4_unit"}

  /** `", ".join(sorted(...))` of the two property-type sets. */
  const HomeReadyPropertyTypeList: string := "2_unit, 3_unit, 4_unit, condo, coop, manufactured, pud, single_family"
  const HomePossiblePropertyTypeList: string := "2_unit, 3_unit, 4_unit, condo, coop, manufactured, single_family"

  /** `calculate_ltv`: the loan over the value, or exactly 1.0 for a value that is not positive. */
  function CalculateLtv(loanAmount: real, propertyValue: real): (r: real)
    ensures propertyValue <= 0.0 ==> r == 1.0
    ensures propertyValue > 0.0 ==> r * propertyValue == loanAmount
  {
    if propertyValue <= 0.0 then 1.0 else loanAmount / propertyValue
  }

  /** Monthly taxes and insurance, estimated at 1.5% of the value a year. */
  function TaxesAndInsurance(propertyValue: real): real {
    (propertyValue * 0.015) / 12.0
  }

  /**
   * `calculate_dti`: 1.0 when the monthly income is not positive; otherwise
   * the 6% payment over the term, plus taxes and insurance, plus the monthly
   * debts, over the monthly income. A zero-year term divides by zero.
   */
  function CalculateDti(s: Scenario): (r: Result<real>)
    ensures s.annualIncome / 12.0 <= 0.0 ==> r == Ok(1.0)
    ensures s.annualIncome / 12.0 > 0.0 ==> (r.Err? <==> s.loanTermYears == 0)
    ensures r.Err? ==> r.error == ZeroDivisionError
    ensures r.Ok? && s.annualIncome / 12.0 > 0.0 ==>
      r.value * (s.annualIncome / 12.0)
        == Payment(s.loanAmount, s.loanTermYears * 12).value + TaxesAndInsurance(s.propertyValue) + s.monthlyDebtPayments
  {
    var monthlyIncome := s.annualIncome / 12.0;
    if monthlyIncome <= 0.0 then Ok(1.0)
    else
      match Payment(s.loanAmount, s.loanTermYears * 12)
      case Err(e) => Err(e)
      case Ok(pi) => Ok((pi + TaxesAndInsurance(s.propertyValue) + s.monthlyDebtPayments) / monthlyIncome)
  }

  /** The engine's scenario with the fields of a validated API scenario. */
  function FromApi(s: LM.LoanScenario): Scenario {
    Scenario(s.creditScore, s.annualIncome, s.isFirstTimeBuyer, s.loanAmount, s.propertyValue,
             s.loanTermYears, s.monthlyDebtPayments, s.propertyType, s.propertyState,
             s.propertyCounty, s.occupancy)
  }

  /**
   * On a validated scenario the engine's DTI is the API model's DTI plus the
   * taxes-and-insurance share of the income: the two formulas differ by
   * exactly that term.
   */
  lemma DtiAddsTaxesAndInsurance(s: LM.LoanScenario)
    requires s.Valid()
    ensures CalculateDti(FromApi(s)).Ok?
    ensures CalculateDti(FromApi(s)).value == s.CalculateDti(None) + TaxesAndInsurance(s.propertyValue) / s.MonthlyIncome()
  {
    var m := s.MonthlyIncome();
    var e := CalculateDti(FromApi(s)).value;
    assert e * m == s.EstimatedPayment() + TaxesAndInsurance(s.propertyValue) + s.monthlyDebtPayments;
    assert s.CalculateDti(None) * m == s.monthlyDebtPayments + s.EstimatedPayment();
    assert (s.CalculateDti(None) + TaxesAndInsurance(s.propertyValue) / m) * m
        == s.CalculateDti(None) * m + TaxesAndInsurance(s.propertyValue);
    CancelPositive(e, s.CalculateDti(None) + TaxesAndInsurance(s.propertyValue) / m, m);
  }

  lemma CancelPositive(a: real, b: real, m: real)
    requires m > 0.0 && a * m == b * m
    ensures a == b
  {
  }

  predicate MultiUnit(propertyType: string) {
    propertyType in {"2_unit", "3_unit", "4_unit"}
  }

  /** The LTV ceiling both products apply: 95% for manufactured and 2-4 unit homes, 97% otherwise. */
  function MaxLtv(propertyType: string): real {
    if propertyType == "manufactured" || MultiUnit(propertyType) then 0.95 else 0.97
  }

  function MaxLtvText(propertyType: string): string {
    if MaxLtv(propertyType) == 0.95 then "<= 95%" else "<= 97%"
  }

  /** Home Possible's credit floor: 700 for 2-4 units, 680 for manufactured homes, 660 otherwise. */
  function HomePossibleMinCredit(propertyType: string): int {
    if MultiUnit(propertyType) then 700 else if propertyType == "manufactured" then 680 else 660
  }

  /** The violation for the given rule, if the list has one (the first). */
  function ViolationNamed(vs: seq<RuleViolation>, rule: Rule): Option<RuleViolation> {
    if |vs| == 0 then None
    else if vs[0].rule == rule then Some(vs[0])
    else ViolationNamed(vs[1..], rule)
  }

  lemma {:induction false} ViolationNamedAppend(vs: seq<RuleViolation>, v: RuleViolation, rule: Rule)
    ensures ViolationNamed(vs + [v], rule)
         == if ViolationNamed(vs, rule).Some? then ViolationNamed(vs, rule)
            else if v.rule == rule then Some(v) else None
  {
    if |vs| == 0 {
      assert vs + [v] == [v];
    } else {
      assert (vs + [v])[1..] == vs[1..] + [v];
      ViolationNamedAppend(vs[1..], v, rule);
    }
  }

  /** Each rule appears at most once and in the order the checks run. */
  predicate InRuleOrder(vs: seq<RuleViolation>) {
    forall i, j :: 0 <= i < j < |vs| ==> vs[i].rule.Rank() < vs[j].rule.Rank()
  }

  /** All violations come from rules ranked below `bound`. */
  predicate RanksBelow(vs: seq<RuleViolation>, bound: nat) {
    forall i :: 0 <= i < |vs| ==> vs[i].rule.Rank() < bound
  }

  /** The HomeReady acceptance region, written as one condition. */
  predicate HomeReadyAccepts(e: Engine, s: Scenario, ltv: real, dti: real) {
    && s.creditScore >= 620
    && dti <= 0.50
    && ltv <= MaxLtv(s.propertyType)
    && Lower(s.occupancy) == "primary"
    && Lower(s.propertyType) in HomeReadyPropertyTypes
    && s.loanAmount <= e.highCostLimit as real
    && !(ltv > 0.95 && s.loanTermYears > 30)
  }

  /** The Home Possible acceptance region, written as one condition. */
  predicate HomePossibleAccepts(e: Engine, s: Scenario, ltv: real, dti: real) {
    && s.creditScore >= HomePossibleMinCredit(s.propertyType)
    && dti <= 0.45
    && ltv <= MaxLtv(s.propertyType)
    && Lower(s.occupancy) == "primary"
    && Lower(s.propertyType) in HomePossiblePropertyTypes
    && s.loanAmount <= e.highCostLimit as real
  }

  function HomeReadyLtvCitation(propertyType: string): string {
    if propertyType == "manufactured" then "Fannie Mae Selling Guide B5-6-01 (Manufactured Housing)"
    else if MultiUnit(propertyType) then "Fannie Mae Selling Guide B5-6-01 (Multi-unit)"
    else "Fannie Mae Selling Guide B5-6-01"
  }

  function HomePossibleLtvCitation(propertyType: string): string {
    if propertyType == "manufactured" then "Freddie Mac Guide 4501.7, 5703.8 (Manufactured Home)"
    else if MultiUnit(propertyType) then "Freddie Mac Guide 4501.7 (Multi-unit)"
    else "Freddie Mac Guide 4501.7"
  }

  function HomePossibleCreditCitation(propertyType: string): string {
    if MultiUnit(propertyType) then "Freddie Mac Guide 4501.5 (2-4 unit)"
    else if propertyType == "manufactured" then "Freddie Mac Guide 4501.5 (Manufactured Home)"
    else "Freddie Mac Guide 4501.5"
  }

  function CreditViolation(score: int, floor: int, citation: string): RuleViolation {
    RuleViolation(MinCreditScore, "Minimum credit score requirement",
                  Text(IntToString(score)), Text(">= " + IntToString(floor)), citation)
  }

  function DtiViolation(dti: real, ceiling: string, citation: string): RuleViolation {
    RuleViolation(MaxDti, "Maximum debt-to-income ratio", Percent(dti), Text(ceiling), citation)
  }

  function LtvViolation(ltv: real, propertyType: string, citation: string): RuleViolation {
    RuleViolation(MaxLtvRule, "Maximum loan-to-value ratio", Percent(ltv), Text(MaxLtvText(propertyType)), citation)
  }

  function OccupancyViolation(occupancy: string, citation: string): RuleViolation {
    RuleViolation(OccupancyRule, "Property must be primary residence", Text(occupancy), Text("primary"), citation)
  }

  function PropertyTypeViolation(propertyType: string, allowed: string, citation: string): RuleViolation {
    RuleViolation(PropertyTypeRule, "Eligible property type", Text(propertyType), Text(allowed), citation)
  }

  function LoanLimitViolation(loanAmount: real, limit: int, citation: string): RuleViolation {
    RuleViolation(LoanLimit, "Maximum conforming loan amount", Dollars(loanAmount),
                  Cat(Text("<= "), Dollars(limit as real)), citation)
  }

  function LoanTermViolation(years: int): RuleViolation {
    RuleViolation(LoanTerm, "Maximum loan term for high LTV", Text(IntToString(years) + " years"),
                  Text("<= 30 years"), "Fannie Mae Selling Guide B5-6-01")
  }

  /** The violation HomeReady records for each rule, or `None` when the rule passes. */
  function HomeReadyExpected(e: Engine, s: Scenario, ltv: real, dti: real, rule: Rule): Option<RuleViolation> {
    match rule
    case MinCreditScore =>
      if s.creditScore < 620 then Some(CreditViolation(s.creditScore, 620, "Fannie Mae Selling Guide B5-6-02")) else None
    case MaxDti =>
      if dti > 0.50 then Some(DtiViolation(dti, "<= 50%", "Fannie Mae Selling Guide B5-6-02")) else None
    case MaxLtvRule =>
      if ltv > MaxLtv(s.propertyType) then Some(LtvViolation(ltv, s.propertyType, HomeReadyLtvCitation(s.propertyType))) else None
    case OccupancyRule =>
      if Lower(s.occupancy) != "primary" then Some(OccupancyViolation(s.occupancy, "Fannie Mae Selling Guide B5-6-01")) else None
    case PropertyTypeRule =>
      if Lower(s.propertyType) !in HomeReadyPropertyTypes
      then Some(PropertyTypeViolation(s.propertyType, HomeReadyPropertyTypeList, "Fannie Mae Selling Guide B5-6-01")) else None
    case LoanLimit =>
      if s.loanAmount > e.highCostLimit as real
      then Some(LoanLimitViolation(s.loanAmount, e.highCostLimit, "Fannie Mae Selling Guide B5-6-01, FHFA Loan Limits")) else None
    case LoanTerm =>
      if ltv > 0.95 && s.loanTermYears > 30 then Some(LoanTermViolation(s.loanTermYears)) else None
  }

  /** The violation Home Possible records for each rule; it has no loan-term rule. */
  function HomePossibleExpected(e: Engine, s: Scenario, ltv: real, dti: real, rule: Rule): Option<RuleViolation> {
    match rule
    case MinCreditScore =>
      if s.creditScore < HomePossibleMinCredit(s.propertyType)
      then Some(CreditViolation(s.creditScore, HomePossibleMinCredit(s.propertyType), HomePossibleCreditCitation(s.propertyType))) else None
    case MaxDti =>
      if dti > 0.45 then Some(DtiViolation(dti, "<= 45%", "Freddie Mac Guide 4501.5, 5401.2")) else None
    case MaxLtvRule =>
      if ltv > MaxLtv(s.propertyType) then Some(LtvViolation(ltv, s.propertyType, HomePossibleLtvCitation(s.propertyType))) else None
    case OccupancyRule =>
      if Lower(s.occupancy) != "primary" then Some(OccupancyViolation(s.occupancy, "Freddie Mac Guide 4501.4")) else None
    case PropertyTypeRule =>
      if Lower(s.propertyType) !in HomePossiblePropertyTypes
      then Some(PropertyTypeViolation(s.propertyType, HomePossiblePropertyTypeList, "Freddie Mac Guide 4501.3")) else None
    case LoanLimit =>
      if s.loanAmount > e.highCostLimit as real
      then Some(LoanLimitViolation(s.loanAmount, e.highCostLimit, "Freddie Mac Guide 4203.1, FHFA Loan Limits")) else None
    case LoanTerm => None
  }

  /** The two products the engine checks. */
  datatype Product = HomeReady | HomePossible

  /** What a product check reads: the engine's limits, the scenario and the two ratios. */
  datatype CheckInput = CheckInput(engine: Engine, scenario: Scenario, ltv: real, dti: real)

  /** The verdict of one rule for one product. */
  function Verdict(p: Product, c: CheckInput, rule: Rule): Option<RuleViolation> {
    match p
    case HomeReady => HomeReadyExpected(c.engine, c.scenario, c.ltv, c.dti, rule)
    case HomePossible => HomePossibleExpected(c.engine, c.scenario, c.ltv, c.dti, rule)
  }

  /** A product's acceptance region. */
  predicate Accepts(p: Product, c: CheckInput) {
    match p
    case HomeReady => HomeReadyAccepts(c.engine, c.scenario, c.ltv, c.dti)
    case HomePossible => HomePossibleAccepts(c.engine, c.scenario, c.ltv, c.dti)
  }

  /** The rule checked at each position. */
  function RuleAt(i: nat): (rule: Rule)
    requires i < 7
    ensures rule.Rank() == i
  {
    if i == 0 then MinCreditScore else if i == 1 then MaxDti else if i == 2 then MaxLtvRule
    else if i == 3 then OccupancyRule else if i == 4 then PropertyTypeRule else if i == 5 then LoanLimit else LoanTerm
  }

  /** Ranks tell rules apart. */
  lemma RankInjective(a: Rule, b: Rule)
    ensures a.Rank() == b.Rank() <==> a == b
  {
  }

  /** The violations the first `k` checks leave behind: their recorded verdicts, in check order. */
  function Recorded(p: Product, c: CheckInput, k: nat): seq<RuleViolation>
    requires k <= 7
  {
    if k == 0 then []
    else
      var v := Verdict(p, c, RuleAt(k - 1));
      Recorded(p, c, k - 1) + (if v.Some? then [v.value] else [])
  }

  /** A recorded violation carries the rule that recorded it. */
  lemma VerdictNamesRule(p: Product, c: CheckInput, rule: Rule)
    ensures Verdict(p, c, rule).Some? ==> Verdict(p, c, rule).value.rule == rule
  {
    match rule
    case MinCreditScore =>
    case MaxDti =>
    case MaxLtvRule =>
    case OccupancyRule =>
    case PropertyTypeRule =>
    case LoanLimit =>
    case LoanTerm =>
  }

  /** The first `k` checks record their violations in rule order, from rules ranked below `k`. */
  lemma {:induction false} RecordedInRuleOrder(p: Product, c: CheckInput, k: nat)
    requires k <= 7
    ensures InRuleOrder(Recorded(p, c, k)) && RanksBelow(Recorded(p, c, k), k)
  {
    if k > 0 {
      RecordedInRuleOrder(p, c, k - 1);
      VerdictNamesRule(p, c, RuleAt(k - 1));
    }
  }

  /** After the first `k` checks each rule's entry is its verdict, or `None` if it is not yet checked. */
  lemma {:induction false} RecordedNamed(p: Product, c: CheckInput, k: nat, rule: Rule)
    requires k <= 7
    ensures ViolationNamed(Recorded(p, c, k), rule) == if rule.Rank() < k then Verdict(p, c, rule) else None
  {
    if k > 0 {
      RecordedNamed(p, c, k - 1, rule);
      RecordedInRuleOrder(p, c, k - 1);
      var v := Verdict(p, c, RuleAt(k - 1));
      VerdictNamesRule(p, c, RuleAt(k - 1));
      RankInjective(rule, RuleAt(k - 1));
      if v.Some? {
        ViolationNamedAppend(Recorded(p, c, k - 1), v.value, rule);
      } else {
        assert Recorded(p, c, k) == Recorded(p, c, k - 1);
      }
    }
  }

  /** The first `k` checks record nothing exactly when each of them passes. */
  lemma {:induction false} RecordedEmpty(p: Product, c: CheckInput, k: nat)
    requires k <= 7
    ensures |Recorded(p, c, k)| == 0 <==> forall i :: 0 <= i < k ==> Verdict(p, c, RuleAt(i)).None?
  {
    if k > 0 {
      RecordedEmpty(p, c, k - 1);
    }
  }

  /** Every rule passes exactly when the scenario lies in the product's acceptance region. */
  lemma AllPassIffAccepts(p: Product, c: CheckInput)
    ensures (forall i :: 0 <= i < 7 ==> Verdict(p, c, RuleAt(i)).None?) <==> Accepts(p, c)
  {
    assert RuleAt(0) == MinCreditScore && RuleAt(1) == MaxDti && RuleAt(2) == MaxLtvRule && RuleAt(3) == OccupancyRule;
    assert RuleAt(4) == PropertyTypeRule && RuleAt(5) == LoanLimit && RuleAt(6) == LoanTerm;
  }

  /** What a complete run of a product's checks leaves behind. */
  lemma RecordedFacts(p: Product, c: CheckInput)
    ensures InRuleOrder(Recorded(p, c, 7))
    ensures |Recorded(p, c, 7)| == 0 <==> Accepts(p, c)
    ensures forall rule :: ViolationNamed(Recorded(p, c, 7), rule) == Verdict(p, c, rule)
  {
    RecordedInRuleOrder(p, c, 7);
    RecordedEmpty(p, c, 7);
    AllPassIffAccepts(p, c);
    forall rule ensures ViolationNamed(Recorded(p, c, 7), rule) == Verdict(p, c, rule) {
      RecordedNamed(p, c, 7, rule);
    }
  }

  /**
   * Adds `v` to `vs` when `cond` holds, as each rule's
   * `if ...: violations.append(...)` does; `v`'s rule is the next to check.
   */
  method AppendIf(vs: seq<RuleViolation>, cond: bool, v: RuleViolation, ghost p: Product, ghost c: CheckInput)
    returns (ws: seq<RuleViolation>)
    requires v.rule.Rank() < 7 && vs == Recorded(p, c, v.rule.Rank())
    requires Verdict(p, c, v.rule) == if cond then Some(v) else None
    ensures ws == Recorded(p, c, v.rule.Rank() + 1)
  {
    RankInjective(v.rule, RuleAt(v.rule.Rank()));
    ws := vs;
    if cond {
      ws := vs + [v];
    }
  }

  /** The credit, DTI and LTV rules of `check_homeready`. */
  method HomeReadyRatioRules(e: Engine, s: Scenario, ltv: real, dti: real) returns (vs: seq<RuleViolation>)
    ensures vs == Recorded(HomeReady, CheckInput(e, s, ltv, dti), 3)
  {
    ghost var c := CheckInput(e, s, ltv, dti);
    vs := [];
    vs := AppendIf(vs, s.creditScore < 620, CreditViolation(s.creditScore, 620, "Fannie Mae Selling Guide B5-6-02"), HomeReady, c);
    vs := AppendIf(vs, dti > 0.50, DtiViolation(dti, "<= 50%", "Fannie Mae Selling Guide B5-6-02"), HomeReady, c);
    vs := AppendIf(vs, ltv > MaxLtv(s.propertyType), LtvViolation(ltv, s.propertyType, HomeReadyLtvCitation(s.propertyType)), HomeReady, c);
  }

  /** The occupancy, property-type, loan-limit and loan-term rules of `check_homeready`. */
  method HomeReadyPropertyRules(e: Engine, s: Scenario, ltv: real, dti: real, vs0: seq<RuleViolation>) returns (vs: seq<RuleViolation>)
    requires vs0 == Recorded(HomeReady, CheckInput(e, s, ltv, dti), 3)
    ensures vs == Recorded(HomeReady, CheckInput(e, s, ltv, dti), 7)
  {
    ghost var c := CheckInput(e, s, ltv, dti);
    vs := vs0;
    vs := AppendIf(vs, Lower(s.occupancy) != "primary", OccupancyViolation(s.occupancy, "Fannie Mae Selling Guide B5-6-01"), HomeReady, c);
    vs := AppendIf(vs, Lower(s.propertyType) !in HomeReadyPropertyTypes,
                   PropertyTypeViolation(s.propertyType, HomeReadyPropertyTypeList, "Fannie Mae Selling Guide B5-6-01"), HomeReady, c);
    vs := AppendIf(vs, s.loanAmount > e.highCostLimit as real,
                   LoanLimitViolation(s.loanAmount, e.highCostLimit, "Fannie Mae Selling Guide B5-6-01, FHFA Loan Limits"), HomeReady, c);
    vs := AppendIf(vs, ltv > 0.95 && s.loanTermYears > 30, LoanTermViolation(s.loanTermYears), HomeReady, c);
  }

  /** `check_homeready`: the seven HomeReady rules, each adding its cited violation. */
  method CheckHomeReady(e: Engine, s: Scenario, ltv: real, dti: real) returns (r: ProductResult)
    ensures r.productName == "HomeReady" && r.gse == "fannie_mae"
    ensures r.violations == Recorded(HomeReady, CheckInput(e, s, ltv, dti), 7)
    ensures r.eligible <==> |r.violations| == 0
    ensures r.eligible <==> HomeReadyAccepts(e, s, ltv, dti)
    ensures InRuleOrder(r.violations)
    ensures forall rule :: ViolationNamed(r.violations, rule) == HomeReadyExpected(e, s, ltv, dti, rule)
  {
    var vs := HomeReadyRatioRules(e, s, ltv, dti);
    vs := HomeReadyPropertyRules(e, s, ltv, dti, vs);
    r := ProductResult("HomeReady", "fannie_mae", |vs| == 0, vs);
    RecordedFacts(HomeReady, CheckInput(e, s, ltv, dti));
  }

  /** The credit, DTI and LTV rules of `check_home_possible`. */
  method HomePossibleRatioRules(e: Engine, s: Scenario, ltv: real, dti: real) returns (vs: seq<RuleViolation>)
    ensures vs == Recorded(HomePossible, CheckInput(e, s, ltv, dti), 3)
  {
    ghost var c := CheckInput(e, s, ltv, dti);
    vs := [];
    var floor := HomePossibleMinCredit(s.propertyType);
    vs := AppendIf(vs, s.creditScore < floor, CreditViolation(s.creditScore, floor, HomePossibleCreditCitation(s.propertyType)), HomePossible, c);
    vs := AppendIf(vs, dti > 0.45, DtiViolation(dti, "<= 45%", "Freddie Mac Guide 4501.5, 5401.2"), HomePossible, c);
    vs := AppendIf(vs, ltv > MaxLtv(s.propertyType), LtvViolation(ltv, s.propertyType, HomePossibleLtvCitation(s.propertyType)), HomePossible, c);
  }

  /** The occupancy, property-type and loan-limit rules of `check_home_possible`; it has no loan-term rule. */
  method HomePossiblePropertyRules(e: Engine, s: Scenario, ltv: real, dti: real, vs0: seq<RuleViolation>) returns (vs: seq<RuleViolation>)
    requires vs0 == Recorded(HomePossible, CheckInput(e, s, ltv, dti), 3)
    ensures vs == Recorded(HomePossible, CheckInput(e, s, ltv, dti), 7)
  {
    ghost var c := CheckInput(e, s, ltv, dti);
    vs := vs0;
    vs := AppendIf(vs, Lower(s.occupancy) != "primary", OccupancyViolation(s.occupancy, "Freddie Mac Guide 4501.4"), HomePossible, c);
    vs := AppendIf(vs, Lower(s.propertyType) !in HomePossiblePropertyTypes,
                   PropertyTypeViolation(s.propertyType, HomePossiblePropertyTypeList, "Freddie Mac Guide 4501.3"), HomePossible, c);
    vs := AppendIf(vs, s.loanAmount > e.highCostLimit as real,
                   LoanLimitViolation(s.loanAmount, e.highCostLimit, "Freddie Mac Guide 4203.1, FHFA Loan Limits"), HomePossible, c);
    assert Recorded(HomePossible, c, 7) == vs + [];
  }

  /** `check_home_possible`: the six Home Possible rules; the loan-term position always passes. */
  method CheckHomePossible(e: Engine, s: Scenario, ltv: real, dti: real) returns (r: ProductResult)
    ensures r.productName == "Home Possible" && r.gse == "freddie_mac"
    ensures r.violations == Recorded(HomePossible, CheckInput(e, s, ltv, dti), 7)
    ensures r.eligible <==> |r.violations| == 0
    ensures r.eligible <==> HomePossibleAccepts(e, s, ltv, dti)
    ensures InRuleOrder(r.violations)
    ensures forall rule :: ViolationNamed(r.violations, rule) == HomePossibleExpected(e, s, ltv, dti, rule)
  {
    var vs := HomePossibleRatioRules(e, s, ltv, dti);
    vs := HomePossiblePropertyRules(e, s, ltv, dti, vs);
    r := ProductResult("Home Possible", "freddie_mac", |vs| == 0, vs);
    RecordedFacts(HomePossible, CheckInput(e, s, ltv, dti));
  }

  /** The DTI a check uses: the one given, or else the engine's own. */
  function DefaultedDti(s: Scenario, dti: Option<real>): Result<real> {
    if dti.Some? then Ok(dti.value) else CalculateDti(s)
  }

  /** `check_homeready` called without ratios: it computes the missing ones, and a missing DTI may divide by zero. */
  method CheckHomeReadyDefaulted(e: Engine, s: Scenario, ltv: Option<real>, dti: Option<real>) returns (r: Result<ProductResult>)
    ensures r.Err? <==> DefaultedDti(s, dti).Err?
    ensures r.Err? ==> r.error == ZeroDivisionError
    ensures r.Ok? ==> DefaultedDti(s, dti).Ok?
    ensures r.Ok? ==> (r.value.eligible <==> HomeReadyAccepts(e, s, ltv.UnwrapOr(CalculateLtv(s.loanAmount, s.propertyValue)), DefaultedDti(s, dti).value))
  {
    var l := if ltv.Some? then ltv.value else CalculateLtv(s.loanAmount, s.propertyValue);
    var d: real;
    if dti.Some? {
      d := dti.value;
    } else {
      var computed := CalculateDti(s);
      if computed.Err? {
        return Err(computed.error);
      }
      d := computed.value;
    }
    var p := CheckHomeReady(e, s, l, d);
    r := Ok(p);
  }

  /** `check_home_possible` called without ratios, as for HomeReady. */
  method CheckHomePossibleDefaulted(e: Engine, s: Scenario, ltv: Option<real>, dti: Option<real>) returns (r: Result<ProductResult>)
    ensures r.Err? <==> DefaultedDti(s, dti).Err?
    ensures r.Err? ==> r.error == ZeroDivisionError
    ensures r.Ok? ==> DefaultedDti(s, dti).Ok?
    ensures r.Ok? ==> (r.value.eligible <==> HomePossibleAccepts(e, s, ltv.UnwrapOr(CalculateLtv(s.loanAmount, s.propertyValue)), DefaultedDti(s, dti).value))
  {
    var l := if ltv.Some? then ltv.value else CalculateLtv(s.loanAmount, s.propertyValue);
    var d: real;
    if dti.Some? {
      d := dti.value;
    } else {
      var computed := CalculateDti(s);
      if computed.Err? {
        return Err(computed.error);
      }
      d := computed.value;
    }
    var p := CheckHomePossible(e, s, l, d);
    r := Ok(p);
  }

  /**
   * Home Possible is the stricter product: any scenario it accepts HomeReady
   * accepts too, as long as the term is at most 30 years (HomeReady alone has
   * a loan-term rule).
   */
  lemma HomePossibleWithinHomeReady(e: Engine, s: Scenario, ltv: real, dti: real)
    requires s.loanTermYears <= 30
    requires HomePossibleAccepts(e, s, ltv, dti)
    ensures HomeReadyAccepts(e, s, ltv, dti)
  {
  }

  /** Without the term bound the containment fails: a 40-year loan at 96% LTV passes Home Possible only. */
  lemma LongTermHomePossibleOnly()
    ensures HomePossibleAccepts(DefaultEngine, Scenario(700, 90000.0, true, 96000.0, 100000.0, 40, 0.0,
                                                        "single_family", "CA", "Alameda", "primary"), 0.96, 0.30)
    ensures !HomeReadyAccepts(DefaultEngine, Scenario(700, 90000.0, true, 96000.0, 100000.0, 40, 0.0,
                                                      "single_family", "CA", "Alameda", "primary"), 0.96, 0.30)
  {
    assert Lower("primary") == "primary";
    assert Lower("single_family") == "single_family";
  }

  // ---------------------------------------------------------------------------
  // Fix suggestions
  // ---------------------------------------------------------------------------

  /** What a suggestion proposes, with the quantity its text shows. */
  datatype Remedy =
    | ImproveCredit(points: int, target: int)
    | ReduceDebtForHomePossible(monthly: real, fromDti: real)
    | PayOffDebt(amount: real)
    | ReduceDebtForHomeReady(monthly: real, fromDti: real)
    | IncreaseDownPayment(amount: real, fromLtv: real, targetLtv: real)
    | NegotiatePrice(amount: real, targetLtv: real)
    | PrimaryResidenceOnly
    | DifferentPropertyType
    | ReduceLoanAmount(amount: real, limit: int)
    | ConsiderJumbo
  {
    /** The rule whose violation the remedy answers. */
    function Addresses(): Rule {
      match this
      case ImproveCredit(_, _) => MinCreditScore
      case ReduceDebtForHomePossible(_, _) => MaxDti
      case PayOffDebt(_) => MaxDti
      case ReduceDebtForHomeReady(_, _) => MaxDti
      case IncreaseDownPayment(_, _, _) => MaxLtvRule
      case NegotiatePrice(_, _) => MaxLtvRule
      case PrimaryResidenceOnly => OccupancyRule
      case DifferentPropertyType => PropertyTypeRule
      case ReduceLoanAmount(_, _) => LoanLimit
      case ConsiderJumbo => LoanLimit
    }

    /** The suggestion's `description` text. */
    function Description(): Shown {
      match this
      case ImproveCredit(p, t) =>
        Cat(Text("Improve credit score by " + IntToString(p) + " points to reach " + IntToString(t)), Text(""))
      case ReduceDebtForHomePossible(m, _) => Cat(Text("Reduce monthly debt payments by "), Cat(Dollars(m), Text("/month")))
      case PayOffDebt(a) => Cat(Text("Pay off approximately "), Cat(Dollars(a), Text(" in debt")))
      case ReduceDebtForHomeReady(m, _) => Cat(Text("Reduce monthly debt by "), Cat(Dollars(m), Text("/month for HomeReady")))
      case IncreaseDownPayment(a, _, _) => Cat(Text("Increase down payment by "), Dollars(a))
      case NegotiatePrice(a, _) => Cat(Text("Negotiate purchase price reduction of "), Dollars(a))
      case PrimaryResidenceOnly => Text("HomeReady and Home Possible require primary residence occupancy")
      case DifferentPropertyType => Text("Consider a different property type that is eligible")
      case ReduceLoanAmount(a, _) => Cat(Text("Reduce loan amount by "), Dollars(a))
      case ConsiderJumbo => Text("Consider jumbo loan products instead")
    }

    /** The suggestion's `impact` text. */
    function Impact(): Shown {
      match this
      case ImproveCredit(_, t) =>
        Text(if t == 660 then "Would meet Home Possible minimum credit requirement"
             else "Would meet HomeReady minimum credit requirement")
      case ReduceDebtForHomePossible(_, d) =>
        Cat(Text("Would reduce DTI from "), Cat(Percent(d), Text(" to 45% (Home Possible eligible)")))
      case PayOffDebt(_) => Text("Would reduce DTI to meet Home Possible requirement")
      case ReduceDebtForHomeReady(_, d) => Cat(Text("Would reduce DTI from "), Cat(Percent(d), Text(" to 50%")))
      case IncreaseDownPayment(_, l, t) => Cat(Text("Would reduce LTV from "), Cat(Percent(l), Cat(Text(" to "), Percent(t))))
      case NegotiatePrice(_, t) => Cat(Text("Would achieve "), Cat(Percent(t), Text(" LTV with current down payment")))
      case PrimaryResidenceOnly => Text("Consider conventional financing options for investment or second homes")
      case DifferentPropertyType => Text("Single-family homes, condos, and PUDs are eligible for both programs")
      case ReduceLoanAmount(_, lim) => Cat(Text("Would bring loan under "), Cat(Dollars(lim as real), Text(" conforming limit")))
      case ConsiderJumbo => Text("Jumbo loans have different eligibility requirements")
    }
  }

  datatype FixSuggestion = FixSuggestion(remedy: Remedy, difficulty: LM.Difficulty)

  /** `"moderate" if gap <= 30 else "hard"`, the difficulty of closing a credit gap. */
  function CreditDifficulty(gap: int): LM.Difficulty {
    if gap <= 30 then LM.Moderate else LM.Hard
  }

  /** The credit branch: reach 660, and also 620 when the score is below it. */
  function CreditFixes(score: int): seq<FixSuggestion> {
    var points := 660 - score;
    if points > 0 then
      [FixSuggestion(ImproveCredit(points, 660), CreditDifficulty(points))]
        + (if score < 620 then [FixSuggestion(ImproveCredit(620 - score, 620), CreditDifficulty(620 - score))] else [])
    else []
  }

  /**
   * The DTI branch: the monthly reduction and the payoff estimate (fifty
   * months of it) that reach 45%, and, for a DTI in `(50%, 55%]`, the
   * smaller reduction that reaches 50%.
   */
  function DtiFixes(monthlyIncome: real, dti: real): seq<FixSuggestion> {
    HomePossibleDtiFixes(monthlyIncome, dti) + HomeReadyDtiFixes(monthlyIncome, dti)
  }

  function HomePossibleDtiFixes(monthlyIncome: real, dti: real): seq<FixSuggestion> {
    if dti > 0.45 then
      var reduction := monthlyIncome * dti - monthlyIncome * 0.45;
      var payoff := reduction * 50.0;
      [ FixSuggestion(ReduceDebtForHomePossible(reduction, dti), LM.Moderate),
        FixSuggestion(PayOffDebt(payoff), if payoff <= 10000.0 then LM.Moderate else LM.Hard) ]
    else []
  }

  function HomeReadyDtiFixes(monthlyIncome: real, dti: real): seq<FixSuggestion> {
    if dti > 0.50 && dti <= 0.45 + 0.10 then
      var reduction := monthlyIncome * dti - monthlyIncome * 0.50;
      if reduction > 0.0 then [FixSuggestion(ReduceDebtForHomeReady(reduction, dti), if reduction <= 200.0 then LM.Easy else LM.Moderate)]
      else []
    else []
  }

  /** The LTV target of the fix: 95% for a manufactured home, 97% for anything else. */
  function FixLtvTarget(propertyType: string): real {
    if propertyType == "manufactured" then 0.95 else 0.97
  }

  /** The difficulty of an extra down payment: easy up to $5,000, moderate up to $20,000, hard beyond. */
  function DownPaymentDifficulty(additionalDown: real): LM.Difficulty {
    if additionalDown <= 5000.0 then LM.Easy else if additionalDown <= 20000.0 then LM.Moderate else LM.Hard
  }

  /**
   * The LTV branch as written: the extra down payment that reaches the
   * target, then a price cut computed as the value minus `loan / target`.
   */
  function LtvFixesAsWritten(s: Scenario, ltv: real): seq<FixSuggestion> {
    var target := FixLtvTarget(s.propertyType);
    var additionalDown := s.loanAmount - s.propertyValue * target;
    if additionalDown > 0.0 then
      var priceReduction := s.propertyValue - s.loanAmount / target;
      [FixSuggestion(IncreaseDownPayment(additionalDown, ltv, target), DownPaymentDifficulty(additionalDown))]
        + (if priceReduction > 0.0 then [FixSuggestion(NegotiatePrice(priceReduction, target), LM.Moderate)] else [])
    else []
  }

  /**
   * As written, the price cut is never suggested: the branch runs only when
   * the loan exceeds the target share of the value, and then `loan / target`
   * exceeds the value.
   */
  lemma AsWrittenNeverNegotiates(s: Scenario, ltv: real)
    ensures forall f :: f in LtvFixesAsWritten(s, ltv) ==> !f.remedy.NegotiatePrice?
  {
    var target := FixLtvTarget(s.propertyType);
    if s.loanAmount - s.propertyValue * target > 0.0 {
      assert s.loanAmount / target * target == s.loanAmount;
      QuotientAbove(s.loanAmount, s.propertyValue, target);
    }
  }

  /**
   * The LTV branch as written: at most one suggestion, the extra down
   * payment that leaves a loan of exactly the target share of the value,
   * offered exactly when the loan exceeds that share.
   */
  lemma LtvFixesAsWrittenReachTarget(s: Scenario, ltv: real)
    ensures |LtvFixesAsWritten(s, ltv)| <= 1
    ensures |LtvFixesAsWritten(s, ltv)| == 1 <==> s.loanAmount > s.propertyValue * FixLtvTarget(s.propertyType)
    ensures forall f :: f in LtvFixesAsWritten(s, ltv) ==>
      && f.remedy == IncreaseDownPayment(f.remedy.amount, ltv, FixLtvTarget(s.propertyType))
      && f.remedy.amount > 0.0
      && s.loanAmount - f.remedy.amount == s.propertyValue * FixLtvTarget(s.propertyType)
      && f.difficulty == DownPaymentDifficulty(f.remedy.amount)
  {
    AsWrittenNeverNegotiates(s, ltv);
  }

  lemma QuotientAbove(a: real, v: real, t: real)
    requires t > 0.0 && a > v * t
    ensures a / t > v
  {
  }

  /**
   * The LTV branch, with the price cut that reaches the target with the
   * current down payment: the price `down / (1 - target)`, of which the down
   * payment is exactly `1 - target`, offered when that price is positive and
   * below the value.
   */
  function LtvFixes(s: Scenario, ltv: real): seq<FixSuggestion> {
    var target := FixLtvTarget(s.propertyType);
    var currentDown := s.propertyValue - s.loanAmount;
    var additionalDown := s.loanAmount - s.propertyValue * target;
    if additionalDown > 0.0 then
      var targetPrice := currentDown / (1.0 - target);
      var priceReduction := s.propertyValue - targetPrice;
      [FixSuggestion(IncreaseDownPayment(additionalDown, ltv, target), DownPaymentDifficulty(additionalDown))]
        + (if targetPrice > 0.0 && priceReduction > 0.0 then [FixSuggestion(NegotiatePrice(priceReduction, target), LM.Moderate)] else [])
    else []
  }

  /** A property worth $100,000 with a $99,000 loan: as written only the down payment is suggested, corrected also a price cut. */
  lemma PriceCutFinding()
    ensures |LtvFixesAsWritten(Scenario(700, 90000.0, true, 99000.0, 100000.0, 30, 0.0, "single_family", "CA", "Alameda", "primary"), 0.99)| == 1
    ensures |LtvFixes(Scenario(700, 90000.0, true, 99000.0, 100000.0, 30, 0.0, "single_family", "CA", "Alameda", "primary"), 0.99)| == 2
  {
  }

  /**
   * The suggestions for one violated rule, in the order the branch appends
   * them; the LTV branch as written, so never a price cut.
   */
  function FixesFor(e: Engine, s: Scenario, ltv: real, dti: real, rule: Rule): seq<FixSuggestion> {
    match rule
    case MinCreditScore => CreditFixes(s.creditScore)
    case MaxDti => DtiFixes(s.annualIncome / 12.0, dti)
    case MaxLtvRule => LtvFixesAsWritten(s, ltv)
    case OccupancyRule => [FixSuggestion(PrimaryResidenceOnly, LM.Hard)]
    case PropertyTypeRule => [FixSuggestion(DifferentPropertyType, LM.Hard)]
    case LoanLimit =>
      [ FixSuggestion(ReduceLoanAmount(s.loanAmount - e.highCostLimit as real, e.highCostLimit), LM.Hard),
        FixSuggestion(ConsiderJumbo, LM.Moderate) ]
    case LoanTerm => []
  }

  /** Each suggestion for a rule answers that rule. */
  lemma FixesAddressRule(e: Engine, s: Scenario, ltv: real, dti: real, rule: Rule)
    ensures forall f :: f in FixesFor(e, s, ltv, dti, rule) ==> f.remedy.Addresses() == rule
  {
  }

  /** No rule's branch, as written, suggests a price cut. */
  lemma FixesNeverNegotiate(e: Engine, s: Scenario, ltv: real, dti: real, rule: Rule)
    ensures forall f :: f in FixesFor(e, s, ltv, dti, rule) ==> !f.remedy.NegotiatePrice?
  {
    if rule == MaxLtvRule {
      AsWrittenNeverNegotiates(s, ltv);
    }
  }

  /** A score of 660 or more gets no credit suggestion; below 620 it gets two, below 660 one. */
  lemma CreditFixesCount(score: int)
    ensures |CreditFixes(score)| == if score >= 660 then 0 else if score >= 620 then 1 else 2
  {
  }

  /** Each credit suggestion's points bring the score exactly to its target, 660 first. */
  lemma CreditFixesReachTarget(score: int)
    ensures forall f :: f in CreditFixes(score) ==>
      f.remedy.ImproveCredit? && score + f.remedy.points == f.remedy.target && f.remedy.target in {620, 660}
    ensures |CreditFixes(score)| > 0 ==> CreditFixes(score)[0].remedy == ImproveCredit(660 - score, 660)
  {
  }

  /** The DTI reductions bring the monthly obligations exactly to 45% and 50% of the income. */
  lemma DtiFixesReachTarget(monthlyIncome: real, dti: real)
    ensures forall f :: f in DtiFixes(monthlyIncome, dti) && f.remedy.ReduceDebtForHomePossible? ==>
      monthlyIncome * dti - f.remedy.monthly == monthlyIncome * 0.45
    ensures forall f :: f in DtiFixes(monthlyIncome, dti) && f.remedy.ReduceDebtForHomeReady? ==>
      monthlyIncome * dti - f.remedy.monthly == monthlyIncome * 0.50 && f.remedy.monthly > 0.0
    ensures forall f :: f in DtiFixes(monthlyIncome, dti) && f.remedy.PayOffDebt? ==>
      f.remedy.amount == 50.0 * (monthlyIncome * dti - monthlyIncome * 0.45)
    ensures (exists f :: f in DtiFixes(monthlyIncome, dti) && f.remedy.ReduceDebtForHomePossible?) <==> dti > 0.45
    ensures monthlyIncome > 0.0 ==>
      ((exists f :: f in DtiFixes(monthlyIncome, dti) && f.remedy.ReduceDebtForHomeReady?) <==> 0.50 < dti <= 0.55)
  {
    var hp, hr := HomePossibleDtiFixes(monthlyIncome, dti), HomeReadyDtiFixes(monthlyIncome, dti);
    assert forall f :: f in DtiFixes(monthlyIncome, dti) <==> f in hp || f in hr;
    if hr != [] {
      var reduction := monthlyIncome * dti - monthlyIncome * 0.50;
      assert hr == [FixSuggestion(ReduceDebtForHomeReady(reduction, dti), if reduction <= 200.0 then LM.Easy else LM.Moderate)];
      assert reduction > 0.0;
    }
    if dti > 0.45 {
      assert hp[0] in DtiFixes(monthlyIncome, dti);
    }
    if monthlyIncome > 0.0 && 0.50 < dti <= 0.55 {
      assert monthlyIncome * dti - monthlyIncome * 0.50 == monthlyIncome * (dti - 0.50);
      assert hr[0] in DtiFixes(monthlyIncome, dti);
    }
  }

  /**
   * The down-payment fix leaves a loan of exactly the target share of the
   * value. The price cut leads to a positive price at which the current down
   * payment leaves a loan of exactly the target share of that price; it is
   * offered exactly when the down-payment fix is and the down payment is positive.
   */
  lemma LtvFixesReachTarget(s: Scenario, ltv: real)
    ensures forall f :: f in LtvFixes(s, ltv) && f.remedy.IncreaseDownPayment? ==>
      s.loanAmount - f.remedy.amount == s.propertyValue * f.remedy.targetLtv && f.remedy.amount > 0.0
    ensures forall f :: f in LtvFixes(s, ltv) && f.remedy.NegotiatePrice? ==>
      0.0 < s.propertyValue - f.remedy.amount < s.propertyValue
    ensures forall f :: f in LtvFixes(s, ltv) && f.remedy.NegotiatePrice? ==>
      (s.propertyValue - f.remedy.amount) - (s.propertyValue - s.loanAmount) == (s.propertyValue - f.remedy.amount) * f.remedy.targetLtv
    ensures forall f :: f in LtvFixes(s, ltv) ==> f.remedy.targetLtv == FixLtvTarget(s.propertyType)
    ensures (exists f :: f in LtvFixes(s, ltv) && f.remedy.NegotiatePrice?) <==>
      s.loanAmount > s.propertyValue * FixLtvTarget(s.propertyType) && s.propertyValue > s.loanAmount
  {
    var t := FixLtvTarget(s.propertyType);
    var d := s.propertyValue - s.loanAmount;
    var p := d / (1.0 - t);
    assert p * (1.0 - t) == d;
    if s.loanAmount - s.propertyValue * t > 0.0 {
      var fs := LtvFixes(s, ltv);
      if d > 0.0 {
        assert p > 0.0;
        assert s.propertyValue - p > 0.0 by {
          assert (s.propertyValue - p) * (1.0 - t) == s.loanAmount - s.propertyValue * t;
        }
        assert fs[1].remedy.NegotiatePrice? && fs[1] in fs;
      }
    }
  }

  /** The loan-limit fix takes off exactly the excess over the high-cost limit. */
  lemma LoanLimitFixReachesLimit(e: Engine, s: Scenario, ltv: real, dti: real)
    ensures FixesFor(e, s, ltv, dti, LoanLimit)[0].remedy.amount + e.highCostLimit as real == s.loanAmount
  {
  }

  /**
   * A 2-4 unit home at 96% LTV breaks the 95% ceiling, yet the fix targets
   * 97%, so the LTV violation gets no suggestion at all.
   */
  lemma MultiUnitLtvWithoutFix()
    ensures MaxLtv("2_unit") < 0.96
    ensures LtvFixesAsWritten(Scenario(700, 90000.0, true, 96000.0, 100000.0, 30, 0.0, "2_unit", "CA", "Alameda", "primary"), 0.96) == []
  {
  }

  /** The rules of the violations in `vs`. */
  function SeenRules(vs: seq<RuleViolation>): (r: set<Rule>)
    ensures forall rule :: rule in r <==> exists i :: 0 <= i < |vs| && vs[i].rule == rule
  {
    if |vs| == 0 then {} else SeenRules(vs[..|vs| - 1]) + {vs[|vs| - 1].rule}
  }

  /** The suggestions the loop collects: each rule's suggestions once, at the rule's first violation. */
  function Collected(e: Engine, s: Scenario, ltv: real, dti: real, vs: seq<RuleViolation>): seq<FixSuggestion> {
    CollectedBy(vs, RuleFixes(e, s, ltv, dti))
  }

  /** Each rule's suggestions for a scenario. */
  function RuleFixes(e: Engine, s: Scenario, ltv: real, dti: real): Rule -> seq<FixSuggestion> {
    rule => FixesFor(e, s, ltv, dti, rule)
  }

  /** The collection loop for any table of suggestions per rule. */
  function CollectedBy(vs: seq<RuleViolation>, fixes: Rule -> seq<FixSuggestion>): seq<FixSuggestion> {
    if |vs| == 0 then []
    else
      var init, rule := vs[..|vs| - 1], vs[|vs| - 1].rule;
      CollectedBy(init, fixes) + (if rule in SeenRules(init) then [] else fixes(rule))
  }

  /** The suggestions in `fs` that answer `rule`. */
  function Answering(fs: seq<FixSuggestion>, rule: Rule): (r: seq<FixSuggestion>)
    ensures |r| <= |fs|
  {
    if |fs| == 0 then []
    else Answering(fs[..|fs| - 1], rule) + (if fs[|fs| - 1].remedy.Addresses() == rule then [fs[|fs| - 1]] else [])
  }

  lemma {:induction false} AnsweringAppend(a: seq<FixSuggestion>, b: seq<FixSuggestion>, rule: Rule)
    ensures Answering(a + b, rule) == Answering(a, rule) + Answering(b, rule)
  {
    if |b| > 0 {
      assert (a + b)[..|a + b| - 1] == a + b[..|b| - 1];
      AnsweringAppend(a, b[..|b| - 1], rule);
    } else {
      assert a + b == a;
    }
  }

  lemma {:induction false} AnsweringAll(fs: seq<FixSuggestion>, rule: Rule)
    requires forall f :: f in fs ==> f.remedy.Addresses() == rule
    ensures Answering(fs, rule) == fs
  {
    if |fs| > 0 {
      assert fs == fs[..|fs| - 1] + [fs[|fs| - 1]];
      AnsweringAll(fs[..|fs| - 1], rule);
    }
  }

  lemma {:induction false} AnsweringNone(fs: seq<FixSuggestion>, rule: Rule)
    requires forall f :: f in fs ==> f.remedy.Addresses() != rule
    ensures Answering(fs, rule) == []
  {
    if |fs| > 0 {
      AnsweringNone(fs[..|fs| - 1], rule);
    }
  }

  /**
   * De-duplication: whatever the number of violations of a rule, and
   * whichever product raised them, the collected suggestions hold that
   * rule's suggestions exactly once if it was violated, and none otherwise.
   */
  lemma CollectedOncePerRule(e: Engine, s: Scenario, ltv: real, dti: real, vs: seq<RuleViolation>, rule: Rule)
    ensures Answering(Collected(e, s, ltv, dti, vs), rule) == if rule in SeenRules(vs) then FixesFor(e, s, ltv, dti, rule) else []
  {
    var fixes := RuleFixes(e, s, ltv, dti);
    forall r, f | f in fixes(r)
      ensures f.remedy.Addresses() == r
    {
      FixesAddressRule(e, s, ltv, dti, r);
    }
    CollectedOnceBy(vs, rule, fixes);
  }

  /** The same for any table whose suggestions for a rule all answer that rule. */
  lemma {:induction false} CollectedOnceBy(vs: seq<RuleViolation>, rule: Rule, fixes: Rule -> seq<FixSuggestion>)
    requires forall r, f :: f in fixes(r) ==> f.remedy.Addresses() == r
    ensures Answering(CollectedBy(vs, fixes), rule) == if rule in SeenRules(vs) then fixes(rule) else []
  {
    if |vs| > 0 {
      var init, last := vs[..|vs| - 1], vs[|vs| - 1].rule;
      CollectedOnceBy(init, rule, fixes);
      var added := if last in SeenRules(init) then [] else fixes(last);
      assert CollectedBy(vs, fixes) == CollectedBy(init, fixes) + added;
      assert SeenRules(vs) == SeenRules(init) + {last};
      AnsweringAppend(CollectedBy(init, fixes), added, rule);
      if last == rule {
        AnsweringAll(added, rule);
      } else {
        AnsweringNone(added, rule);
      }
    }
  }

  /** `difficulty_order`: easy first, then moderate, then hard. */
  function DifficultyRank(f: FixSuggestion): real {
    match f.difficulty
    case Easy => 0.0
    case Moderate => 1.0
    case Hard => 2.0
  }

  /**
   * `generate_fix_suggestions`: one pass over the violations that skips a
   * rule already seen, then the stable sort by difficulty.
   */
  method GenerateFixSuggestions(e: Engine, s: Scenario, violations: seq<RuleViolation>, ltv: real, dti: real)
    returns (suggestions: seq<FixSuggestion>)
    ensures suggestions == SortBy(Collected(e, s, ltv, dti, violations), DifficultyRank)
    ensures SortedBy(suggestions, DifficultyRank)
    ensures multiset(suggestions) == multiset(Collected(e, s, ltv, dti, violations))
    ensures forall f :: f in suggestions ==> !f.remedy.NegotiatePrice?
  {
    suggestions := [];
    var seen: set<Rule> := {};
    var i := 0;
    while i < |violations|
      invariant 0 <= i <= |violations|
      invariant seen == SeenRules(violations[..i])
      invariant suggestions == Collected(e, s, ltv, dti, violations[..i])
      invariant forall f :: f in suggestions ==> !f.remedy.NegotiatePrice?
    {
      var v := violations[i];
      assert violations[..i + 1][..i] == violations[..i];
      if v.rule !in seen {
        seen := seen + {v.rule};
        FixesNeverNegotiate(e, s, ltv, dti, v.rule);
        suggestions := suggestions + FixesFor(e, s, ltv, dti, v.rule);
      }
      i := i + 1;
    }
    assert violations[..i] == violations;
    var collected := suggestions;
    suggestions := SortBy(collected, DifficultyRank);
    forall f | f in suggestions
      ensures !f.remedy.NegotiatePrice?
    {
      assert f in multiset(collected);
    }
  }

  /** Suggestions of equal difficulty keep the order in which the loop collected them. */
  lemma FixSuggestionsStable(e: Engine, s: Scenario, violations: seq<RuleViolation>, ltv: real, dti: real, rank: real)
    ensures WithKey(SortBy(Collected(e, s, ltv, dti, violations), DifficultyRank), DifficultyRank, rank)
         == WithKey(Collected(e, s, ltv, dti, violations), DifficultyRank, rank)
  {
    SortByStable(Collected(e, s, ltv, dti, violations), DifficultyRank, rank);
  }

  /** A suggestion answering `rule` shows up in `Answering(fs, rule)`. */
  lemma {:induction false} AnsweringComplete(fs: seq<FixSuggestion>, rule: Rule, f: FixSuggestion)
    requires f in fs && f.remedy.Addresses() == rule
    ensures f in Answering(fs, rule)
  {
    var init := fs[..|fs| - 1];
    if f != fs[|fs| - 1] {
      assert fs == init + [fs[|fs| - 1]];
      AnsweringComplete(init, rule, f);
    }
  }

  /** A score of 660 or more gets no credit suggestion, whatever the violations. */
  lemma NoCreditFixAt660(e: Engine, s: Scenario, ltv: real, dti: real, vs: seq<RuleViolation>)
    requires s.creditScore >= 660
    ensures forall f :: f in SortBy(Collected(e, s, ltv, dti, vs), DifficultyRank) ==> !f.remedy.ImproveCredit?
  {
    var fs := Collected(e, s, ltv, dti, vs);
    CollectedOncePerRule(e, s, ltv, dti, vs, MinCreditScore);
    forall f | f in SortBy(fs, DifficultyRank) ensures !f.remedy.ImproveCredit? {
      assert f in multiset(SortBy(fs, DifficultyRank));
      assert f in fs;
      if f.remedy.ImproveCredit? {
        AnsweringComplete(fs, MinCreditScore, f);
      }
    }
  }

  // ---------------------------------------------------------------------------
  // Recommendation
  // ---------------------------------------------------------------------------

  /** The branch `_generate_recommendation` takes, with the figures its text shows. */
  datatype Advice =
    | BothStrongCredit(score: int)
    | Both
    | HomeReadyOnly
    | HomePossibleOnly
    | NeitherHomeReadyCloser(homeReadyCount: nat, homePossibleCount: nat)
    | NeitherHomePossibleCloser(homeReadyCount: nat, homePossibleCount: nat)
  {
    /** The recommendation text of the branch. */
    function Text(): string {
      match this
      case BothStrongCredit(score) =>
        "Congratulations! You are eligible for both HomeReady (Fannie Mae) and Home Possible (Freddie Mac). With your credit score of "
          + IntToString(score)
          + ", you may qualify for better pricing through either program. Compare lender offerings for both programs to find the best rate and terms."
      case Both =>
        "Congratulations! You are eligible for both HomeReady (Fannie Mae) and Home Possible (Freddie Mac). Both programs offer similar benefits including low down payment options and reduced mortgage insurance costs. Shop multiple lenders to compare rates."
      case HomeReadyOnly =>
        "You are eligible for Fannie Mae HomeReady but not Freddie Mac Home Possible. HomeReady has a lower credit score requirement (620 vs 660) and allows up to 50% DTI (vs 45%). Work with a lender who offers HomeReady to proceed."
      case HomePossibleOnly =>
        "You are eligible for Freddie Mac Home Possible but not Fannie Mae HomeReady. Home Possible offers similar benefits including low down payment and income limit flexibility. Work with a lender who offers Home Possible to proceed."
      case NeitherHomeReadyCloser(hr, hp) =>
        "You are not currently eligible for either program. HomeReady (Fannie Mae) has " + IntToString(hr)
          + " violation(s) and Home Possible (Freddie Mac) has " + IntToString(hp)
          + " violation(s). Review the fix suggestions below - HomeReady may be easier to qualify for with its more flexible requirements."
      case NeitherHomePossibleCloser(hr, hp) =>
        "You are not currently eligible for either program. Home Possible has " + IntToString(hp)
          + " violation(s) compared to HomeReady's " + IntToString(hr)
          + ". Review the fix suggestions below to see how you can become eligible."
    }
  }

  /**
   * The branch of `_generate_recommendation`: both eligible (the score is
   * quoted from 700 up), one of the two, or neither, where the product with
   * fewer violations is named first and a tie goes to HomeReady.
   */
  function ChooseAdvice(homeready: ProductResult, homePossible: ProductResult, s: Scenario): (a: Advice)
    ensures a.BothStrongCredit? || a.Both? <==> homeready.eligible && homePossible.eligible
    ensures a.BothStrongCredit? <==> homeready.eligible && homePossible.eligible && s.creditScore >= 700
    ensures a.BothStrongCredit? ==> a.score == s.creditScore
    ensures a.HomeReadyOnly? <==> homeready.eligible && !homePossible.eligible
    ensures a.HomePossibleOnly? <==> !homeready.eligible && homePossible.eligible
    ensures a.NeitherHomeReadyCloser? <==>
      !homeready.eligible && !homePossible.eligible && |homeready.violations| <= |homePossible.violations|
    ensures a.NeitherHomePossibleCloser? <==>
      !homeready.eligible && !homePossible.eligible && |homeready.violations| > |homePossible.violations|
    ensures (a.NeitherHomeReadyCloser? || a.NeitherHomePossibleCloser?) ==>
      a.homeReadyCount == |homeready.violations| && a.homePossibleCount == |homePossible.violations|
  {
    if homeready.eligible && homePossible.eligible then
      if s.creditScore >= 700 then BothStrongCredit(s.creditScore) else Both
    else if homeready.eligible then HomeReadyOnly
    else if homePossible.eligible then HomePossibleOnly
    else if |homeready.violations| <= |homePossible.violations| then
      NeitherHomeReadyCloser(|homeready.violations|, |homePossible.violations|)
    else NeitherHomePossibleCloser(|homeready.violations|, |homePossible.violations|)
  }

  /** `_generate_recommendation`. */
  function Recommendation(homeready: ProductResult, homePossible: ProductResult, s: Scenario): string {
    ChooseAdvice(homeready, homePossible, s).Text()
  }

  /** The product result a check returns: the violations the rules record, eligible when there are none. */
  function Outcome(p: Product, c: CheckInput): (r: ProductResult)
    ensures r.violations == Recorded(p, c, 7)
    ensures r.eligible <==> Accepts(p, c)
  {
    RecordedFacts(p, c);
    var vs := Recorded(p, c, 7);
    match p
    case HomeReady => ProductResult("HomeReady", "fannie_mae", |vs| == 0, vs)
    case HomePossible => ProductResult("Home Possible", "freddie_mac", |vs| == 0, vs)
  }

  /** Within 30 years, the recommendation never names Home Possible as the only eligible product. */
  lemma NoHomePossibleOnlyAdvice(c: CheckInput)
    requires c.scenario.loanTermYears <= 30
    ensures !ChooseAdvice(Outcome(HomeReady, CheckInput(c.engine, c.scenario, c.ltv, c.dti)),
                          Outcome(HomePossible, CheckInput(c.engine, c.scenario, c.ltv, c.dti)), c.scenario).HomePossibleOnly?
  {
    if Accepts(HomePossible, c) {
      HomePossibleWithinHomeReady(c.engine, c.scenario, c.ltv, c.dti);
    }
  }

  /** The Home Possible only branch is reached by a 40-year loan. */
  lemma HomePossibleOnlyAdviceReachable()
    ensures ChooseAdvice(
      Outcome(HomeReady, CheckInput(DefaultEngine, Scenario(700, 90000.0, true, 96000.0, 100000.0, 40, 0.0,
                                                             "single_family", "CA", "Alameda", "primary"), 0.96, 0.30)),
      Outcome(HomePossible, CheckInput(DefaultEngine, Scenario(700, 90000.0, true, 96000.0, 100000.0, 40, 0.0,
                                                               "single_family", "CA", "Alameda", "primary"), 0.96, 0.30)),
      Scenario(700, 90000.0, true, 96000.0, 100000.0, 40, 0.0, "single_family", "CA", "Alameda", "primary")).HomePossibleOnly?
  {
    LongTermHomePossibleOnly();
  }

  datatype EligibilityResult = EligibilityResult(
    scenario: Scenario,
    calculatedLtv: real,
    calculatedDti: real,
    products: seq<ProductResult>,
    recommendation: string,
    fixSuggestions: seq<FixSuggestion>)

  /**
   * `check_eligibility`: both ratios, both checks, the suggestions for all
   * violations of both products, and the recommendation. The result record
   * is a plain dataclass and bounds neither ratio; the DTI fails on a
   * zero-year term, and nothing else does.
   */
  method CheckEligibility(e: Engine, s: Scenario) returns (r: Result<EligibilityResult>)
    ensures r.Err? <==> CalculateDti(s).Err?
    ensures r.Err? ==> r.error == ZeroDivisionError
    ensures r.Ok? ==> r.value.scenario == s
    ensures r.Ok? ==> r.value.calculatedLtv == CalculateLtv(s.loanAmount, s.propertyValue)
    ensures r.Ok? ==> r.value.calculatedDti == CalculateDti(s).value
    ensures r.Ok? ==> (r.value.products ==
      [Outcome(HomeReady, CheckInput(e, s, r.value.calculatedLtv, r.value.calculatedDti)),
       Outcome(HomePossible, CheckInput(e, s, r.value.calculatedLtv, r.value.calculatedDti))])
    ensures r.Ok? ==> (r.value.fixSuggestions ==
      SortBy(Collected(e, s, r.value.calculatedLtv, r.value.calculatedDti,
                       r.value.products[0].violations + r.value.products[1].violations), DifficultyRank))
    ensures r.Ok? ==> forall f :: f in r.value.fixSuggestions ==> !f.remedy.NegotiatePrice?
    ensures r.Ok? ==> r.value.recommendation == Recommendation(r.value.products[0], r.value.products[1], s)
  {
    var ltv := CalculateLtv(s.loanAmount, s.propertyValue);
    var computed := CalculateDti(s);
    if computed.Err? {
      return Err(computed.error);
    }
    var dti := computed.value;
    var homeready := CheckHomeReady(e, s, ltv, dti);
    var homePossible := CheckHomePossible(e, s, ltv, dti);
    assert homeready == Outcome(HomeReady, CheckInput(e, s, ltv, dti));
    assert homePossible == Outcome(HomePossible, CheckInput(e, s, ltv, dti));
    var fixes := GenerateFixSuggestions(e, s, homeready.violations + homePossible.violations, ltv, dti);
    var recommendation := Recommendation(homeready, homePossible, s);
    r := Ok(EligibilityResult(s, ltv, dti, [homeready, homePossible], recommendation, fixes));
  }

  /**
   * `check_loan_eligibility`: the engine's scenario built from the
   * arguments as given, with no validation, checked by the engine with the
   * 2026 limits. Only a zero-year term fails.
   */
  method CheckLoanEligibility(
    creditScore: int, annualIncome: real, isFirstTimeBuyer: bool, loanAmount: real, propertyValue: real,
    loanTermYears: int := 30, monthlyDebtPayments: real := 0.0, propertyType: string := "single_family",
    propertyState: string := "", propertyCounty: string := "", occupancy: string := "primary")
    returns (r: Result<EligibilityResult>)
    ensures var s := Scenario(creditScore, annualIncome, isFirstTimeBuyer, loanAmount, propertyValue,
                              loanTermYears, monthlyDebtPayments, propertyType, propertyState,
                              propertyCounty, occupancy);
      && (r.Err? <==> CalculateDti(s).Err?)
      && (r.Err? ==> r.error == ZeroDivisionError)
      && (r.Ok? ==> r.value.scenario == s)
      && (r.Ok? ==> r.value.products == [
            Outcome(HomeReady, CheckInput(DefaultEngine, s, r.value.calculatedLtv, r.value.calculatedDti)),
            Outcome(HomePossible, CheckInput(DefaultEngine, s, r.value.calculatedLtv, r.value.calculatedDti))])
    ensures annualIncome / 12.0 > 0.0 ==> (r.Err? <==> loanTermYears == 0)
  {
    var s := Scenario(creditScore, annualIncome, isFirstTimeBuyer, loanAmount, propertyValue,
                      loanTermYears, monthlyDebtPayments, propertyType, propertyState,
                      propertyCounty, occupancy);
    r := CheckEligibility(DefaultEngine, s);
  }

  /** A validated scenario's term is 15, 20 or 30 years, so the engine's DTI never divides by zero. */
  lemma ValidTermDivides(s: LM.LoanScenario)
    requires s.Valid()
    ensures CalculateDti(FromApi(s)).Ok?
  {
  }
}
