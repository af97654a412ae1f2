/**
 * The `/check-loan` endpoint: a simplified rule set applied inline to a
 * validated scenario, with the API model's LTV and DTI, a three-way
 * recommendation and suggestions in a fixed order. Any failure while
 * building the response becomes an HTTP 500.
 */
module EligibilityRouter {
  import opened Wrappers
  import opened Strings
  import opened Display
  import opened LoanModels

  datatype Product = HomeReady | HomePossible

  function CreditFloor(p: Product): int {
    match p
    case HomeReady => 620
    case HomePossible => 660
  }

  function DtiCeiling(p: Product): real {
    match p
    case HomeReady => 0.50
    case HomePossible => 0.45
  }

  const SharedCitation: string := "Fannie Mae B5-6-01 / Freddie Mac 4501.5"

  function CreditViolation(p: Product, score: int): RuleViolation {
    match p
    case HomeReady =>
      RuleViolation("min_credit_score", "Minimum credit score requirement", Text(IntToString(score)), Text(">= 620"), "Fannie Mae B5-6-02")
    case HomePossible =>
      RuleViolation("min_credit_score", "Minimum credit score requirement", Text(IntToString(score)), Text(">= 660"), "Freddie Mac 4501.5")
  }

  function LtvViolation(ltv: real): RuleViolation {
    RuleViolation("max_ltv", "Maximum LTV ratio", Percent(ltv), Text("<= 97%"), SharedCitation)
  }

  function DtiViolation(p: Product, dti: real): RuleViolation {
    match p
    case HomeReady => RuleViolation("max_dti", "Maximum DTI ratio", Percent(dti), Text("<= 50%"), "Fannie Mae B5-6-02")
    case HomePossible => RuleViolation("max_dti", "Maximum DTI ratio", Percent(dti), Text("<= 45%"), "Freddie Mac 4501.5")
  }

  function OccupancyViolation(occupancy: string): RuleViolation {
    RuleViolation("occupancy", "Primary residence required", Text(occupancy), Text("primary"), SharedCitation)
  }

  /** The violations the endpoint records for a product, in the order of its checks: credit, LTV, DTI, occupancy. */
  function Violations(p: Product, s: LoanScenario, ltv: real, dti: real): seq<RuleViolation> {
    (if s.creditScore < CreditFloor(p) then [CreditViolation(p, s.creditScore)] else [])
      + (if ltv > 0.97 then [LtvViolation(ltv)] else [])
      + (if dti > DtiCeiling(p) then [DtiViolation(p, dti)] else [])
      + (if s.occupancy != "primary" then [OccupancyViolation(s.occupancy)] else [])
  }

  /** Some violation in `vs` carries rule name `name`. */
  predicate AnyNamed(vs: seq<RuleViolation>, name: string) {
    exists i :: 0 <= i < |vs| && vs[i].ruleName == name
  }

  /** The violations, element by element: each is there exactly when its threshold is crossed. */
  lemma ViolationsMembers(p: Product, s: LoanScenario, ltv: real, dti: real)
    ensures forall v :: v in Violations(p, s, ltv, dti) <==>
      || (s.creditScore < CreditFloor(p) && v == CreditViolation(p, s.creditScore))
      || (ltv > 0.97 && v == LtvViolation(ltv))
      || (dti > DtiCeiling(p) && v == DtiViolation(p, dti))
      || (s.occupancy != "primary" && v == OccupancyViolation(s.occupancy))
  {
  }

  lemma AnyNamedMember(vs: seq<RuleViolation>, name: string)
    ensures AnyNamed(vs, name) <==> exists v :: v in vs && v.ruleName == name
  {
    if exists v :: v in vs && v.ruleName == name {
      var v :| v in vs && v.ruleName == name;
      var i :| 0 <= i < |vs| && vs[i] == v;
    }
  }

  /**
   * Each rule is violated exactly when its threshold is crossed: a credit
   * score below the floor, an LTV above 97%, a DTI above the ceiling, a
   * non-primary occupancy (compared as given). No other rule name occurs,
   * and no list is longer than four.
   */
  lemma ViolationsByRule(p: Product, s: LoanScenario, ltv: real, dti: real)
    ensures AnyNamed(Violations(p, s, ltv, dti), "min_credit_score") <==> s.creditScore < CreditFloor(p)
    ensures AnyNamed(Violations(p, s, ltv, dti), "max_ltv") <==> ltv > 0.97
    ensures AnyNamed(Violations(p, s, ltv, dti), "max_dti") <==> dti > DtiCeiling(p)
    ensures AnyNamed(Violations(p, s, ltv, dti), "occupancy") <==> s.occupancy != "primary"
    ensures forall v :: v in Violations(p, s, ltv, dti) ==> v.ruleName in {"min_credit_score", "max_ltv", "max_dti", "occupancy"}
    ensures |Violations(p, s, ltv, dti)| <= 4
  {
    var vs := Violations(p, s, ltv, dti);
    ViolationsMembers(p, s, ltv, dti);
    AnyNamedMember(vs, "min_credit_score");
    AnyNamedMember(vs, "max_ltv");
    AnyNamedMember(vs, "max_dti");
    AnyNamedMember(vs, "occupancy");
    if s.creditScore < CreditFloor(p) { assert CreditViolation(p, s.creditScore) in vs; }
    if ltv > 0.97 { assert LtvViolation(ltv) in vs; }
    if dti > DtiCeiling(p) { assert DtiViolation(p, dti) in vs; }
    if s.occupancy != "primary" { assert OccupancyViolation(s.occupancy) in vs; }
  }

  /** A product is eligible at the endpoint exactly when it meets all four thresholds. */
  lemma EligibleIffThresholds(p: Product, s: LoanScenario, ltv: real, dti: real)
    ensures |Violations(p, s, ltv, dti)| == 0 <==>
      s.creditScore >= CreditFloor(p) && ltv <= 0.97 && dti <= DtiCeiling(p) && s.occupancy == "primary"
  {
  }

  /** Every violation HomeReady records, Home Possible records too: its rules are stricter or the same. */
  lemma HomePossibleStricter(s: LoanScenario, ltv: real, dti: real)
    ensures |Violations(HomeReady, s, ltv, dti)| <= |Violations(HomePossible, s, ltv, dti)|
    ensures |Violations(HomePossible, s, ltv, dti)| == 0 ==> |Violations(HomeReady, s, ltv, dti)| == 0
  {
  }

  /** The recommendation's three cases; with one eligible product, the first eligible one is named. */
  datatype Advice = EligibleForBoth | EligibleFor(productName: string) | EligibleForNeither
  {
    function Text(): string {
      match this
      case EligibleForBoth =>
        "Great news! This scenario is eligible for both HomeReady and Home Possible. Consider comparing rates and fees from lenders offering both products."
      case EligibleFor(name) =>
        "This scenario is eligible for " + name + ". Review the violations for the other product to see what changes might expand options."
      case EligibleForNeither =>
        "This scenario is not currently eligible for either product. See the fix suggestions below for ways to become eligible."
    }
  }

  predicate AllEligible(products: seq<ProductResult>) {
    forall i :: 0 <= i < |products| ==> products[i].eligible
  }

  /** The position of the first eligible product, as `next(p for p in products if p.eligible)` finds it. */
  function FirstEligible(products: seq<ProductResult>): (i: int)
    ensures -1 <= i < |products|
    ensures i >= 0 ==> products[i].eligible && forall j :: 0 <= j < i ==> !products[j].eligible
    ensures i < 0 ==> forall j :: 0 <= j < |products| ==> !products[j].eligible
  {
    if |products| == 0 then -1
    else if products[0].eligible then 0
    else
      var k := FirstEligible(products[1..]);
      if k < 0 then -1 else k + 1
  }

  /** `all(...)`, then `any(...)` with `next(...)`, else the not-eligible text. */
  function ChooseAdvice(products: seq<ProductResult>): (a: Advice)
    ensures a.EligibleForBoth? <==> AllEligible(products)
    ensures a.EligibleFor? ==> FirstEligible(products) >= 0 && a.productName == products[FirstEligible(products)].productName
    ensures a.EligibleForNeither? <==> |products| > 0 && forall j :: 0 <= j < |products| ==> !products[j].eligible
  {
    if AllEligible(products) then
      assert |products| > 0 ==> products[0].eligible;
      EligibleForBoth
    else if FirstEligible(products) >= 0 then EligibleFor(products[FirstEligible(products)].productName)
    else EligibleForNeither
  }

  /** The suggestion texts. */
  const PayDownDebt: string := "Pay down existing debt to reduce monthly payments"
  const SmallerLoan: string := "Consider a smaller loan amount"
  const ImproveCredit: string := "Work on improving credit score before applying"
  const IncreaseDown: string := "Increase down payment to lower LTV"

  function DtiFixes(dti: real): seq<FixSuggestion> {
    [ FixSuggestion(PayDownDebt, Cat(Text("Reducing monthly debt by $200 would lower DTI to "), Percent(dti - 0.03)), Moderate),
      FixSuggestion(SmallerLoan, Text("A 5% smaller loan would reduce the monthly payment and DTI"), Easy) ]
  }

  function CreditFix(): FixSuggestion {
    FixSuggestion(ImproveCredit, Text("A higher credit score may also qualify for better rates"), Hard)
  }

  function LtvFix(ltv: real, propertyValue: real): FixSuggestion {
    FixSuggestion(IncreaseDown,
                  Cat(Cat(Text("An additional "), Dollars((ltv - 0.97) * propertyValue)), Text(" down would bring LTV to 97%")),
                  Moderate)
  }

  /** The suggestions: DTI first if any DTI violation, then credit, then LTV, each once. */
  function Fixes(all: seq<RuleViolation>, ltv: real, dti: real, propertyValue: real): seq<FixSuggestion> {
    (if AnyNamed(all, "max_dti") then DtiFixes(dti) else [])
      + (if AnyNamed(all, "min_credit_score") then [CreditFix()] else [])
      + (if AnyNamed(all, "max_ltv") then [LtvFix(ltv, propertyValue)] else [])
  }

  lemma AnyNamedAppend(a: seq<RuleViolation>, b: seq<RuleViolation>, name: string)
    ensures AnyNamed(a + b, name) <==> AnyNamed(a, name) || AnyNamed(b, name)
  {
    if AnyNamed(a + b, name) {
      var i :| 0 <= i < |a + b| && (a + b)[i].ruleName == name;
      if i >= |a| { assert b[i - |a|] == (a + b)[i]; }
    }
    if AnyNamed(b, name) {
      var i :| 0 <= i < |b| && b[i].ruleName == name;
      assert (a + b)[i + |a|] == b[i];
    }
    if AnyNamed(a, name) {
      var i :| 0 <= i < |a| && a[i].ruleName == name;
      assert (a + b)[i] == a[i];
    }
  }

  /**
   * On the endpoint's own violations the suggestions follow the looser of
   * the two thresholds: the DTI pair from 45%, the credit suggestion below
   * 660, the LTV one above 97%. The LTV suggestion's amount is exactly the
   * extra down payment that brings the loan to 97% of the value.
   */
  lemma FixesByThreshold(s: LoanScenario, ltv: real, dti: real)
    ensures var all := Violations(HomeReady, s, ltv, dti) + Violations(HomePossible, s, ltv, dti);
      |Fixes(all, ltv, dti, s.propertyValue)|
        == (if dti > 0.45 then 2 else 0) + (if s.creditScore < 660 then 1 else 0) + (if ltv > 0.97 then 1 else 0)
    ensures var all := Violations(HomeReady, s, ltv, dti) + Violations(HomePossible, s, ltv, dti);
      (exists f :: f in Fixes(all, ltv, dti, s.propertyValue) && f.description == IncreaseDown) <==> ltv > 0.97
    ensures s.Valid() && ltv == s.Ltv() ==> LtvFix(ltv, s.propertyValue).impact.left.right.amount == s.loanAmount - 0.97 * s.propertyValue
  {
    var all := Violations(HomeReady, s, ltv, dti) + Violations(HomePossible, s, ltv, dti);
    CombinedNames(s, ltv, dti);
    FixesByNames(all, ltv, dti, s.propertyValue, s.creditScore);
    if s.Valid() && ltv == s.Ltv() {
      LtvFixAmount(s);
    }
  }

  lemma FixesByNames(all: seq<RuleViolation>, ltv: real, dti: real, propertyValue: real, creditScore: int)
    requires AnyNamed(all, "max_dti") <==> dti > 0.45
    requires AnyNamed(all, "min_credit_score") <==> creditScore < 660
    requires AnyNamed(all, "max_ltv") <==> ltv > 0.97
    ensures |Fixes(all, ltv, dti, propertyValue)| == (if dti > 0.45 then 2 else 0) + (if creditScore < 660 then 1 else 0) + (if ltv > 0.97 then 1 else 0)
    ensures (exists f :: f in Fixes(all, ltv, dti, propertyValue) && f.description == IncreaseDown) <==> ltv > 0.97
  {
    FixesShape(all, ltv, dti, propertyValue);
  }

  /** Across both products, a rule is named exactly when the looser of the two thresholds is crossed. */
  lemma CombinedNames(s: LoanScenario, ltv: real, dti: real)
    ensures var all := Violations(HomeReady, s, ltv, dti) + Violations(HomePossible, s, ltv, dti);
      && (AnyNamed(all, "max_dti") <==> dti > 0.45)
      && (AnyNamed(all, "min_credit_score") <==> s.creditScore < 660)
      && (AnyNamed(all, "max_ltv") <==> ltv > 0.97)
  {
    var hr, hp := Violations(HomeReady, s, ltv, dti), Violations(HomePossible, s, ltv, dti);
    ViolationsByRule(HomeReady, s, ltv, dti);
    ViolationsByRule(HomePossible, s, ltv, dti);
    AnyNamedAppend(hr, hp, "max_dti");
    AnyNamedAppend(hr, hp, "min_credit_score");
    AnyNamedAppend(hr, hp, "max_ltv");
  }

  /** The extra down payment the LTV suggestion names brings the loan to 97% of the value. */
  lemma LtvFixAmount(s: LoanScenario)
    requires s.Valid()
    ensures LtvFix(s.Ltv(), s.propertyValue).impact.left.right.amount == s.loanAmount - 0.97 * s.propertyValue
  {
    var ltv := s.Ltv();
    assert (ltv - 0.97) * s.propertyValue == ltv * s.propertyValue - 0.97 * s.propertyValue;
  }

  /** The suggestions have two entries for the DTI, one for the credit and one for the LTV, and only the last raises the down payment. */
  lemma FixesShape(all: seq<RuleViolation>, ltv: real, dti: real, propertyValue: real)
    ensures |Fixes(all, ltv, dti, propertyValue)|
      == (if AnyNamed(all, "max_dti") then 2 else 0) + (if AnyNamed(all, "min_credit_score") then 1 else 0)
         + (if AnyNamed(all, "max_ltv") then 1 else 0)
    ensures (exists f :: f in Fixes(all, ltv, dti, propertyValue) && f.description == IncreaseDown) <==> AnyNamed(all, "max_ltv")
  {
    var fs := Fixes(all, ltv, dti, propertyValue);
    var dtis: seq<FixSuggestion> := if AnyNamed(all, "max_dti") then DtiFixes(dti) else [];
    var credit: seq<FixSuggestion> := if AnyNamed(all, "min_credit_score") then [CreditFix()] else [];
    var ltvs := if AnyNamed(all, "max_ltv") then [LtvFix(ltv, propertyValue)] else [];
    assert fs == dtis + credit + ltvs;
    assert |PayDownDebt| != |IncreaseDown| && |SmallerLoan| != |IncreaseDown| && |ImproveCredit| != |IncreaseDown|;
    assert forall f: FixSuggestion :: f in dtis + credit ==> f.description != IncreaseDown;
    if AnyNamed(all, "max_ltv") {
      assert fs[|fs| - 1] == LtvFix(ltv, propertyValue);
    } else {
      assert fs == dtis + credit;
    }
  }

  /**
   * `check_loan_eligibility`: the checks append to the two lists, the
   * products are eligible when their list is empty, then the recommendation
   * and the suggestions. Building the response fails, with a 500, exactly
   * when a ratio lies outside `[0, 2]`.
   */
  method CheckLoanEligibility(scenario: LoanScenario) returns (r: Result<EligibilityResult>)
    requires scenario.Valid()
    ensures r.Err? <==> scenario.Ltv() > 2.0 || scenario.CalculateDti(None) > 2.0
    ensures r.Err? ==> r.error == HttpException(500)
    ensures r.Ok? ==> r.value.calculatedLtv == scenario.Ltv() && r.value.calculatedDti == scenario.CalculateDti(None)
    ensures r.Ok? ==> r.value.scenario == scenario
    ensures r.Ok? ==> (r.value.products ==
      [ ProductResult("HomeReady", "fannie_mae", |Violations(HomeReady, scenario, scenario.Ltv(), scenario.CalculateDti(None))| == 0,
                      Violations(HomeReady, scenario, scenario.Ltv(), scenario.CalculateDti(None))),
        ProductResult("Home Possible", "freddie_mac", |Violations(HomePossible, scenario, scenario.Ltv(), scenario.CalculateDti(None))| == 0,
                      Violations(HomePossible, scenario, scenario.Ltv(), scenario.CalculateDti(None))) ])
    ensures r.Ok? ==> r.value.recommendation == ChooseAdvice(r.value.products).Text()
    ensures r.Ok? ==> (r.value.fixSuggestions ==
      Fixes(r.value.products[0].violations + r.value.products[1].violations, r.value.calculatedLtv, r.value.calculatedDti, scenario.propertyValue))
  {
    var ltv := scenario.Ltv();
    var dti := scenario.CalculateDti(None);
    DtiPositive(scenario);
    var homeready := CheckProduct(HomeReady, scenario, ltv, dti);
    var homePossible := CheckProduct(HomePossible, scenario, ltv, dti);
    var products := [ ProductResult("HomeReady", "fannie_mae", |homeready| == 0, homeready),
                      ProductResult("Home Possible", "freddie_mac", |homePossible| == 0, homePossible) ];
    var recommendation := ChooseAdvice(products).Text();
    var fixes := SuggestFixes(homeready + homePossible, ltv, dti, scenario.propertyValue);
    var built := MakeEligibilityResult(scenario, ltv, dti, products, recommendation, fixes);
    if built.Err? {
      return Err(HttpException(500));
    }
    r := Ok(built.value);
  }

  /** The checks of one product, appending a violation per crossed threshold. */
  method CheckProduct(p: Product, scenario: LoanScenario, ltv: real, dti: real) returns (violations: seq<RuleViolation>)
    ensures violations == Violations(p, scenario, ltv, dti)
  {
    ghost var credit := if scenario.creditScore < CreditFloor(p) then [CreditViolation(p, scenario.creditScore)] else [];
    ghost var ltvs := if ltv > 0.97 then [LtvViolation(ltv)] else [];
    ghost var dtis := if dti > DtiCeiling(p) then [DtiViolation(p, dti)] else [];
    violations := [];
    if scenario.creditScore < CreditFloor(p) {
      violations := violations + [CreditViolation(p, scenario.creditScore)];
    }
    assert violations == credit;
    if ltv > 0.97 {
      violations := violations + [LtvViolation(ltv)];
    }
    assert violations == credit + ltvs;
    if dti > DtiCeiling(p) {
      violations := violations + [DtiViolation(p, dti)];
    }
    assert violations == credit + ltvs + dtis;
    if scenario.occupancy != "primary" {
      violations := violations + [OccupancyViolation(scenario.occupancy)];
    }
  }

  /** The suggestions, appended in their fixed order. */
  method SuggestFixes(all: seq<RuleViolation>, ltv: real, dti: real, propertyValue: real) returns (fixes: seq<FixSuggestion>)
    ensures fixes == Fixes(all, ltv, dti, propertyValue)
  {
    ghost var dtis: seq<FixSuggestion> := if AnyNamed(all, "max_dti") then DtiFixes(dti) else [];
    fixes := [];
    if AnyNamed(all, "max_dti") {
      fixes := fixes + DtiFixes(dti);
    }
    assert fixes == dtis;
    if AnyNamed(all, "min_credit_score") {
      fixes := fixes + [CreditFix()];
    }
    if AnyNamed(all, "max_ltv") {
      fixes := fixes + [LtvFix(ltv, propertyValue)];
    }
  }

  /** A product's outcome at the endpoint for a validated scenario. */
  predicate EndpointEligible(p: Product, s: LoanScenario)
    requires s.Valid()
  {
    |Violations(p, s, s.Ltv(), s.CalculateDti(None))| == 0
  }

  /**
   * For a 30-year loan the estimated payment lies between 0.598% and 0.6% of
   * the loan, which settles the DTI rule whenever both bounds fall on the same
   * side of the ceiling.
   */
  lemma ThirtyYearOutcome(p: Product, s: LoanScenario)
    requires s.Valid() && s.loanTermYears == 30
    ensures s.creditScore >= CreditFloor(p) && s.Ltv() <= 0.97 && s.occupancy == "primary"
            && (s.monthlyDebtPayments + 0.006 * s.loanAmount) / s.MonthlyIncome() <= DtiCeiling(p)
            ==> EndpointEligible(p, s)
    ensures (s.monthlyDebtPayments + 0.00598 * s.loanAmount) / s.MonthlyIncome() > DtiCeiling(p) ==> !EndpointEligible(p, s)
  {
    ThirtyYearDti(s);
    EligibleIffThresholds(p, s, s.Ltv(), s.CalculateDti(None));
  }

  /** A 30-year scenario passes a product when its figures clear the thresholds with the payment's upper bound. */
  lemma Passes(p: Product, s: LoanScenario)
    requires s.Valid() && s.loanTermYears == 30 && s.occupancy == "primary" && s.creditScore >= CreditFloor(p)
    requires s.loanAmount <= 0.97 * s.propertyValue
    requires 12.0 * (s.monthlyDebtPayments + 0.006 * s.loanAmount) <= DtiCeiling(p) * s.annualIncome
    ensures EndpointEligible(p, s)
  {
    ScaleBelow(s.Ltv(), 0.97, s.propertyValue);
    var m := s.MonthlyIncome();
    var q := (s.monthlyDebtPayments + 0.006 * s.loanAmount) / m;
    assert q * m == s.monthlyDebtPayments + 0.006 * s.loanAmount;
    ScaleBelow(q, DtiCeiling(p), m);
    ThirtyYearOutcome(p, s);
  }

  lemma ScaleBelow(x: real, c: real, m: real)
    requires m > 0.0 && x * m <= c * m
    ensures x <= c
  {
  }

  /** A 30-year scenario fails a product when one threshold is missed, the DTI even with the payment's lower bound. */
  lemma Fails(p: Product, s: LoanScenario)
    requires s.Valid() && s.loanTermYears == 30
    requires || s.creditScore < CreditFloor(p) || s.loanAmount > 0.97 * s.propertyValue || s.occupancy != "primary"
             || 12.0 * (s.monthlyDebtPayments + 0.00598 * s.loanAmount) > DtiCeiling(p) * s.annualIncome
    ensures !EndpointEligible(p, s)
  {
    EligibleIffThresholds(p, s, s.Ltv(), s.CalculateDti(None));
    if s.loanAmount > 0.97 * s.propertyValue {
      assert s.Ltv() * s.propertyValue > 0.97 * s.propertyValue;
    }
    if 12.0 * (s.monthlyDebtPayments + 0.00598 * s.loanAmount) > DtiCeiling(p) * s.annualIncome {
      var m := s.MonthlyIncome();
      ThirtyYearDti(s);
      assert DtiCeiling(p) * m < s.monthlyDebtPayments + 0.00598 * s.loanAmount;
      assert (s.monthlyDebtPayments + 0.00598 * s.loanAmount) / m > DtiCeiling(p);
    }
  }

  /** A 30-year primary-residence single-family scenario of the endpoint's test suite. */
  function Sample(creditScore: int, annualIncome: real, loanAmount: real, propertyValue: real,
                  monthlyDebt: real, propertyType: string, occupancy: string): LoanScenario {
    LoanScenario(creditScore, annualIncome, true, loanAmount, propertyValue, 30, monthlyDebt,
                 propertyType, "CA", "Los Angeles", occupancy)
  }

  /** Credit 720 at 87.5% LTV passes both. */
  lemma IdealBorrower()
    ensures Sample(720, 75000.0, 350000.0, 400000.0, 500.0, "single_family", "primary").Valid()
    ensures EndpointEligible(HomeReady, Sample(720, 75000.0, 350000.0, 400000.0, 500.0, "single_family", "primary"))
    ensures EndpointEligible(HomePossible, Sample(720, 75000.0, 350000.0, 400000.0, 500.0, "single_family", "primary"))
  {
    var s := Sample(720, 75000.0, 350000.0, 400000.0, 500.0, "single_family", "primary");
    assert Upper("CA") == "CA";
    Passes(HomeReady, s);
    Passes(HomePossible, s);
  }

  /** Credit 620 passes HomeReady and fails Home Possible. */
  lemma MinimumCreditHomeReady()
    ensures Sample(620, 80000.0, 300000.0, 350000.0, 400.0, "single_family", "primary").Valid()
    ensures EndpointEligible(HomeReady, Sample(620, 80000.0, 300000.0, 350000.0, 400.0, "single_family", "primary"))
    ensures !EndpointEligible(HomePossible, Sample(620, 80000.0, 300000.0, 350000.0, 400.0, "single_family", "primary"))
  {
    var s := Sample(620, 80000.0, 300000.0, 350000.0, 400.0, "single_family", "primary");
    assert Upper("CA") == "CA";
    Passes(HomeReady, s);
    Fails(HomePossible, s);
  }

  /** An LTV of exactly 97% passes both. */
  lemma LtvAtLimit()
    ensures Sample(700, 90000.0, 388000.0, 400000.0, 600.0, "single_family", "primary").Valid()
    ensures EndpointEligible(HomeReady, Sample(700, 90000.0, 388000.0, 400000.0, 600.0, "single_family", "primary"))
    ensures EndpointEligible(HomePossible, Sample(700, 90000.0, 388000.0, 400000.0, 600.0, "single_family", "primary"))
  {
    var s := Sample(700, 90000.0, 388000.0, 400000.0, 600.0, "single_family", "primary");
    assert Upper("CA") == "CA";
    Passes(HomeReady, s);
    Passes(HomePossible, s);
  }

  /** An LTV of 98% fails both. */
  lemma LtvAboveLimit()
    ensures Sample(750, 100000.0, 392000.0, 400000.0, 500.0, "single_family", "primary").Valid()
    ensures !EndpointEligible(HomeReady, Sample(750, 100000.0, 392000.0, 400000.0, 500.0, "single_family", "primary"))
    ensures !EndpointEligible(HomePossible, Sample(750, 100000.0, 392000.0, 400000.0, 500.0, "single_family", "primary"))
  {
    var s := Sample(750, 100000.0, 392000.0, 400000.0, 500.0, "single_family", "primary");
    assert Upper("CA") == "CA";
    Fails(HomeReady, s);
    Fails(HomePossible, s);
  }

  /** Credit 580 fails both. */
  lemma CreditBelowBoth()
    ensures Sample(580, 70000.0, 250000.0, 300000.0, 300.0, "single_family", "primary").Valid()
    ensures !EndpointEligible(HomeReady, Sample(580, 70000.0, 250000.0, 300000.0, 300.0, "single_family", "primary"))
    ensures !EndpointEligible(HomePossible, Sample(580, 70000.0, 250000.0, 300000.0, 300.0, "single_family", "primary"))
  {
    var s := Sample(580, 70000.0, 250000.0, 300000.0, 300.0, "single_family", "primary");
    assert Upper("CA") == "CA";
    Fails(HomeReady, s);
    Fails(HomePossible, s);
  }

  /** An investment property fails both. */
  lemma InvestmentProperty()
    ensures Sample(750, 150000.0, 300000.0, 400000.0, 500.0, "single_family", "investment").Valid()
    ensures !EndpointEligible(HomeReady, Sample(750, 150000.0, 300000.0, 400000.0, 500.0, "single_family", "investment"))
    ensures !EndpointEligible(HomePossible, Sample(750, 150000.0, 300000.0, 400000.0, 500.0, "single_family", "investment"))
  {
    var s := Sample(750, 150000.0, 300000.0, 400000.0, 500.0, "single_family", "investment");
    assert Upper("CA") == "CA";
    Fails(HomeReady, s);
    Fails(HomePossible, s);
  }

  /** Heavy monthly debts put the DTI above both ceilings. */
  lemma DtiAboveBoth()
    ensures Sample(720, 60000.0, 350000.0, 400000.0, 1500.0, "single_family", "primary").Valid()
    ensures !EndpointEligible(HomeReady, Sample(720, 60000.0, 350000.0, 400000.0, 1500.0, "single_family", "primary"))
    ensures !EndpointEligible(HomePossible, Sample(720, 60000.0, 350000.0, 400000.0, 1500.0, "single_family", "primary"))
  {
    var s := Sample(720, 60000.0, 350000.0, 400000.0, 1500.0, "single_family", "primary");
    assert Upper("CA") == "CA";
    Fails(HomeReady, s);
    Fails(HomePossible, s);
  }

  /** Credit 640 passes HomeReady and fails Home Possible. */
  lemma CreditBetweenFloors()
    ensures Sample(640, 85000.0, 320000.0, 380000.0, 500.0, "single_family", "primary").Valid()
    ensures EndpointEligible(HomeReady, Sample(640, 85000.0, 320000.0, 380000.0, 500.0, "single_family", "primary"))
    ensures !EndpointEligible(HomePossible, Sample(640, 85000.0, 320000.0, 380000.0, 500.0, "single_family", "primary"))
  {
    var s := Sample(640, 85000.0, 320000.0, 380000.0, 500.0, "single_family", "primary");
    assert Upper("CA") == "CA";
    Passes(HomeReady, s);
    Fails(HomePossible, s);
  }

  /** A DTI of about 48% passes HomeReady and fails Home Possible. */
  lemma DtiBetweenCeilings()
    ensures Sample(700, 72000.0, 300000.0, 350000.0, 1100.0, "single_family", "primary").Valid()
    ensures EndpointEligible(HomeReady, Sample(700, 72000.0, 300000.0, 350000.0, 1100.0, "single_family", "primary"))
    ensures !EndpointEligible(HomePossible, Sample(700, 72000.0, 300000.0, 350000.0, 1100.0, "single_family", "primary"))
  {
    var s := Sample(700, 72000.0, 300000.0, 350000.0, 1100.0, "single_family", "primary");
    assert Upper("CA") == "CA";
    Passes(HomeReady, s);
    Fails(HomePossible, s);
  }

  /** A condo passes both. */
  lemma CondoPassesBoth()
    ensures Sample(700, 80000.0, 280000.0, 320000.0, 400.0, "condo", "primary").Valid()
    ensures EndpointEligible(HomeReady, Sample(700, 80000.0, 280000.0, 320000.0, 400.0, "condo", "primary"))
    ensures EndpointEligible(HomePossible, Sample(700, 80000.0, 280000.0, 320000.0, 400.0, "condo", "primary"))
  {
    var s := Sample(700, 80000.0, 280000.0, 320000.0, 400.0, "condo", "primary");
    assert Upper("CA") == "CA";
    Passes(HomeReady, s);
    Passes(HomePossible, s);
  }

  /** A 2-unit property passes both. */
  lemma TwoUnitPassesBoth()
    ensures Sample(720, 95000.0, 400000.0, 500000.0, 600.0, "2_unit", "primary").Valid()
    ensures EndpointEligible(HomeReady, Sample(720, 95000.0, 400000.0, 500000.0, 600.0, "2_unit", "primary"))
    ensures EndpointEligible(HomePossible, Sample(720, 95000.0, 400000.0, 500000.0, 600.0, "2_unit", "primary"))
  {
    var s := Sample(720, 95000.0, 400000.0, 500000.0, 600.0, "2_unit", "primary");
    assert Upper("CA") == "CA";
    Passes(HomeReady, s);
    Passes(HomePossible, s);
  }
}
