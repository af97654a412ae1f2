/**
 * The request and response records of the eligibility endpoint: the loan
 * scenario with its field constraints and derived ratios, and the product
 * and eligibility results with their literal and range constraints. A
 * record that breaks a constraint is refused with a validation error.
 */
module LoanModels {
  import opened Wrappers
  import opened Strings
  import opened Amortization
  import opened Display

  const PropertyTypes: set<string> :=
    {"single_family", "condo", "pud", "2_unit", "3_unit", "4_unit", "manufactured"}
  const Occupancies: set<string> := {"primary", "secondary", "investment"}
  const LoanTerms: set<int> := {15, 20, 30}

  datatype LoanScenario = LoanScenario(
    creditScore: int,
    annualIncome: real,
    isFirstTimeBuyer: bool,
    loanAmount: real,
    propertyValue: real,
    loanTermYears: int,
    monthlyDebtPayments: real,
    propertyType: string,
    propertyState: string,
    propertyCounty: string,
    occupancy: string)
  {
    /** The field constraints, checked before the state validator runs. */
    predicate FieldsValid() {
      && 300 <= creditScore <= 850
      && annualIncome > 0.0
      && loanAmount > 0.0
      && propertyValue > 0.0
      && loanTermYears in LoanTerms
      && monthlyDebtPayments >= 0.0
      && propertyType in PropertyTypes
      && |propertyState| == 2
      && |propertyCounty| >= 1
      && occupancy in Occupancies
    }

    /** A scenario as the endpoint receives it: the constraints hold and the state is upper-case. */
    predicate Valid() {
      FieldsValid() && propertyState == Upper(propertyState)
    }

    /** `ltv`: the loan amount over the property value. */
    function Ltv(): (r: real)
      requires Valid()
      ensures r * propertyValue == loanAmount
      ensures r > 0.0
    {
      loanAmount / propertyValue
    }

    /** `monthly_income`: a twelfth of the annual income. */
    function MonthlyIncome(): (r: real)
      requires Valid()
      ensures r * 12.0 == annualIncome
      ensures r > 0.0
    {
      annualIncome / 12.0
    }

    /** The payment the DTI uses when none is given: 6% over the whole term, no tax or insurance. */
    function EstimatedPayment(): (r: real)
      requires Valid()
      ensures Payment(loanAmount, loanTermYears * 12).Ok?
      ensures r == Payment(loanAmount, loanTermYears * 12).value
      ensures Balance(loanAmount, r, loanTermYears * 12) == 0.0
    {
      PaymentPaysOff(loanAmount, loanTermYears * 12);
      Payment(loanAmount, loanTermYears * 12).value
    }

    /** `calculate_dti(p)`: monthly debts plus the housing payment, over the monthly income. */
    function CalculateDti(estimatedMonthlyPayment: Option<real>): (r: real)
      requires Valid()
      ensures r * MonthlyIncome() == monthlyDebtPayments + estimatedMonthlyPayment.UnwrapOr(EstimatedPayment())
    {
      (monthlyDebtPayments + estimatedMonthlyPayment.UnwrapOr(EstimatedPayment())) / MonthlyIncome()
    }
  }

  /** The DTI grows with the monthly debts and with the housing payment, since the income is positive. */
  lemma DtiMonotone(s: LoanScenario, p: Option<real>, t: LoanScenario, q: Option<real>)
    requires s.Valid() && t.Valid() && s.annualIncome == t.annualIncome
    requires s.monthlyDebtPayments + p.UnwrapOr(s.EstimatedPayment()) <= t.monthlyDebtPayments + q.UnwrapOr(t.EstimatedPayment())
    ensures s.CalculateDti(p) <= t.CalculateDti(q)
  {
    var m := s.MonthlyIncome();
    assert m == t.MonthlyIncome();
    var a, b := s.CalculateDti(p), t.CalculateDti(q);
    if a > b {
      MulPositive(a - b, m);
      assert false;
    }
  }

  /** With the estimated 30-year payment, the DTI lies between the bounds 0.598% and 0.6% of the loan give. */
  lemma ThirtyYearDti(s: LoanScenario)
    requires s.Valid() && s.loanTermYears == 30
    ensures (s.monthlyDebtPayments + 0.00598 * s.loanAmount) / s.MonthlyIncome() <= s.CalculateDti(None)
    ensures s.CalculateDti(None) <= (s.monthlyDebtPayments + 0.006 * s.loanAmount) / s.MonthlyIncome()
  {
    ThirtyYearPayment(s.loanAmount);
    var m := s.MonthlyIncome();
    var p := s.EstimatedPayment();
    QuotientMonotone(s.monthlyDebtPayments + 0.00598 * s.loanAmount, s.monthlyDebtPayments + p, m);
    QuotientMonotone(s.monthlyDebtPayments + p, s.monthlyDebtPayments + 0.006 * s.loanAmount, m);
  }

  /** On a valid scenario the estimated payment is positive, so the DTI is too. */
  lemma DtiPositive(s: LoanScenario)
    requires s.Valid()
    ensures s.EstimatedPayment() > 0.0
    ensures s.CalculateDti(None) > 0.0
  {
    PaymentAboveInterest(s.loanAmount, s.loanTermYears * 12);
    QuotientMonotone(0.0, s.monthlyDebtPayments + s.EstimatedPayment(), s.MonthlyIncome());
    assert s.CalculateDti(None) != 0.0 by {
      assert s.CalculateDti(None) * s.MonthlyIncome() == s.monthlyDebtPayments + s.EstimatedPayment();
    }
  }

  lemma QuotientMonotone(a: real, b: real, m: real)
    requires a <= b && m > 0.0
    ensures a / m <= b / m
  {
  }

  /**
   * Validation of a submitted scenario: the field constraints (the state's
   * length is checked first), then the state validator upper-cases the state.
   */
  function Validate(raw: LoanScenario): (r: Result<LoanScenario>)
    ensures r.Ok? <==> raw.FieldsValid()
    ensures r.Err? ==> r.error == ValidationError
    ensures r.Ok? ==> r.value.Valid()
    ensures r.Ok? ==> r.value == raw.(propertyState := Upper(raw.propertyState))
  {
    UpperIdempotent(raw.propertyState);
    if raw.FieldsValid() then Ok(raw.(propertyState := Upper(raw.propertyState)))
    else Err(ValidationError)
  }

  /** Validating an already validated scenario gives it back unchanged. */
  lemma ValidateIdempotent(raw: LoanScenario)
    requires Validate(raw).Ok?
    ensures Validate(Validate(raw).value) == Validate(raw)
  {
    UpperIdempotent(raw.propertyState);
  }

  /** A valid scenario is its own validation. */
  lemma ValidateValid(s: LoanScenario)
    requires s.Valid()
    ensures Validate(s) == Ok(s)
  {
  }

  datatype RuleViolation = RuleViolation(
    ruleName: string,
    ruleDescription: string,
    actualValue: Shown,
    requiredValue: Shown,
    citation: string)

  datatype Difficulty = Easy | Moderate | Hard

  /** The difficulty literals a suggestion may carry. */
  function DifficultyFromString(s: string): (r: Option<Difficulty>)
    ensures r.Some? <==> s in {"easy", "moderate", "hard"}
    ensures r.Some? ==> DifficultyName(r.value) == s
  {
    if s == "easy" then Some(Easy)
    else if s == "moderate" then Some(Moderate)
    else if s == "hard" then Some(Hard)
    else None
  }

  function DifficultyName(d: Difficulty): string {
    match d
    case Easy => "easy"
    case Moderate => "moderate"
    case Hard => "hard"
  }

  lemma DifficultyRoundTrip(d: Difficulty)
    ensures DifficultyFromString(DifficultyName(d)) == Some(d)
  {
  }

  datatype FixSuggestion = FixSuggestion(description: string, impact: Shown, difficulty: Difficulty)

  /** A suggestion whose difficulty is given as text. */
  function MakeFixSuggestion(description: string, impact: Shown, difficulty: string): (r: Result<FixSuggestion>)
    ensures r.Ok? <==> difficulty in {"easy", "moderate", "hard"}
    ensures r.Ok? ==> DifficultyName(r.value.difficulty) == difficulty && r.value.description == description
  {
    match DifficultyFromString(difficulty)
    case Some(d) => Ok(FixSuggestion(description, impact, d))
    case None => Err(ValidationError)
  }

  datatype ProductResult = ProductResult(
    productName: string,
    gse: string,
    eligible: bool,
    violations: seq<RuleViolation>)

  const ProductNames: set<string> := {"HomeReady", "Home Possible"}
  const GseNames: set<string> := {"fannie_mae", "freddie_mac"}

  /** A product result: the name and the GSE must be the two literals each, in any combination. */
  function MakeProductResult(name: string, gse: string, eligible: bool, violations: seq<RuleViolation>): (r: Result<ProductResult>)
    ensures r.Ok? <==> name in ProductNames && gse in GseNames
    ensures r.Ok? ==> r.value == ProductResult(name, gse, eligible, violations)
    ensures r.Err? ==> r.error == ValidationError
  {
    if name in ProductNames && gse in GseNames then Ok(ProductResult(name, gse, eligible, violations))
    else Err(ValidationError)
  }

  datatype EligibilityResult = EligibilityResult(
    scenario: LoanScenario,
    calculatedLtv: real,
    calculatedDti: real,
    products: seq<ProductResult>,
    recommendation: string,
    fixSuggestions: seq<FixSuggestion>)

  /** An eligibility result: both ratios must lie in `[0, 2]`. */
  function MakeEligibilityResult(
    scenario: LoanScenario, ltv: real, dti: real, products: seq<ProductResult>,
    recommendation: string, fixes: seq<FixSuggestion>): (r: Result<EligibilityResult>)
    ensures r.Ok? <==> 0.0 <= ltv <= 2.0 && 0.0 <= dti <= 2.0
    ensures r.Ok? ==> r.value == EligibilityResult(scenario, ltv, dti, products, recommendation, fixes)
    ensures r.Err? ==> r.error == ValidationError
  {
    if 0.0 <= ltv <= 2.0 && 0.0 <= dti <= 2.0 then
      Ok(EligibilityResult(scenario, ltv, dti, products, recommendation, fixes))
    else Err(ValidationError)
  }
}
