# SAGE eligibility core, modelled in Dafny

SAGE checks a mortgage loan scenario against two affordable-lending
products: Fannie Mae's HomeReady and Freddie Mac's Home Possible. When the
scenario fails, it looks for ways to make it pass. This project models the
deterministic and sequential parts of SAGE and proves properties of them:

- **Rules engine** (`rules_engine.dfy`, `amortization.dfy`, `loan_models.dfy`):
  - LTV and DTI with their guards, and the exact amortised payment;
  - the HomeReady and Home Possible checks, rule by rule, each violation cited;
  - quantified fix suggestions, one per violated rule, stably sorted by difficulty;
  - the four-way recommendation.
- **Eligibility router** (`eligibility_router.dfy`): the simplified rule set
  the HTTP endpoint computes inline, and the sample scenarios its test script
  expects.
- **Fix finder** (`fix_finder*.dfy`):
  - the copy-on-write what-if simulator;
  - tool dispatch;
  - the bounded ReAct loop: a state machine over a model oracle that answers,
    times out or raises;
  - the tolerant JSON extraction;
  - the normaliser that coerces untyped JSON into the constrained records of
    `fix_finder_models.dfy`;
  - the result assembly with its usage record.
- **Retrieval and reasoning** (`eligibility_reasoner.dfy`, `model_answer.dfy`, `rag.dfy`):
  - the query catalogue and the first-wins merge, sorted and cut to twelve;
  - the prompt partitioned by guide;
  - the stripping of markdown fences from the model's answer;
  - the conversion of the model's JSON into product results;
  - the mapping of `[n]` references to citations, one per source.
- **Chat** (`chat.dfy`, `chat_models.dfy`):
  - a least-recently-used conversation cache as a class with a capacity invariant;
  - message validation;
  - guide detection;
  - the keyword-priority mock answers.
- **Policy updates** (`changes.dfy`, `scrapers.dfy`, `fannie_scraper.dfy`, `freddie_scraper.dfy`):
  - filtering, newest-first sorting, pagination, lookup and code snippets;
  - the scrapers' update numbers, links, dates, affected sections and
    twenty-element cap.
- **Usage tracking** (`llm_usage.dfy`): the cost formula, and a tracker whose
  in-memory buffer takes the records a failing database refuses and is
  flushed later.
- **Guide text pipeline**:
  - the token-window chunker (`embedding.dfy`);
  - section finding and splitting for both guides (`guide_sections.dfy`,
    `fannie_parser.dfy`, `freddie_parser.dfy`);
  - the PDF structure analysis (`guide_analysis.dfy`);
  - the saved-section header that the ingestion script reads back
    (`guide_ingest.dfy`);
  - discovery, checkpointed batching and embedding with one retry
    (`guide_ingest_run.dfy`).
- **Database** (`database.dfy`): the URL rewrite, the lazily created engine
  and session factory, and the commit/rollback discipline of a session.

Shared modules:
- `strings.dfy`: Python string semantics;
- `json_value.dfy`: untyped JSON, with dictionary lookups where the last
  duplicate key wins, and lax field coercions;
- `sorting.dfy`: a stable sort and `sorted(set(...))`;
- `wrappers.dfy`: `Option` and `Result`.

External services are parameters of function type. These are the language
model, the embedding endpoint, the vector index, the tokenizer, `json.loads`
and `json.dumps`, `str()` of a value, `hashlib.md5`, `datetime.strptime`
and the clock. Python exceptions are `Err` values of a `Result`.

Where the design description and the code disagree, the model follows the code:
- The design says each product result is eligible exactly when it has no
  violations. The rules engine and the router keep that rule. The AI
  reasoner, however, takes `eligible` from the model's JSON when the model
  gives it (`EligibilityReasoner.Eligible`).
- The design says the normaliser never raises. The code raises an
  `AttributeError` when citations exist and a fix's description is not a
  string. Range violations in the constrained records are validation errors
  too, and `find_fixes` catches them. These are modelled as `Err`.
- The design says every invocation writes exactly one usage record. The code
  can write two (see Findings). `FixFinder.FixFinderService.FindFixesAsWritten`
  models the code as written; `FixFinder.FixFinderService.FindFixes` is the
  corrected assembly, kept beside it.
- The design says an LTV violation gets an extra down payment or a price
  cut. As written, the price cut is never offered, and the engine's
  suggestions, results and checks in this model follow the code
  (`RulesEngine.FixesFor` uses `LtvFixesAsWritten`). The corrected branch
  `RulesEngine.LtvFixes` stands apart (see Findings).
- The ingestion script's summary reports as skipped the size of the
  checkpoint less the guides processed; `GuideIngestRun.IngestGuides`
  returns that count as written, and `GuideIngestRun.Skipped` is the count
  of guides already done (see Findings).
- In the neither-eligible recommendation, a tie in violation counts names
  HomeReady as the easier path.

## Model

| member | source | states |
|---|---|---|
| Amortization.Payment | backend/app/services/rules_engine.py:200-205 | the amortised payment solves `payment * ((1 + r)^n - 1) == principal * r * (1 + r)^n`; a term of zero months is Python's `ZeroDivisionError` |
| Amortization.PaymentPaysOff | backend/app/services/rules_engine.py:200-205 | for a positive term the payment leaves a balance of exactly zero after the last month |
| Amortization.PaymentAboveInterest | backend/app/services/rules_engine.py:200-205 | for a positive principal and term the payment exceeds the first month's interest |
| Amortization.IntPowIsOne | backend/app/models/loan.py:70-74 | `(1 + r) ** n` is one exactly when `n == 0`, so the denominator vanishes only for a zero term |
| Amortization.Growth360 | backend/app/services/fix_finder_service.py:249-253 | `1.005 ** 360` lies between 6.0 and 6.1 |
| Amortization.ThirtyYearPayment | backend/app/services/fix_finder_service.py:249-253 | the 30-year payment lies between 0.598% and 0.6% of the principal |
| LoanModels.LoanScenario.Ltv | backend/app/models/loan.py:50-53 | the ratio times the property value is the loan amount, and it is positive on a valid scenario |
| LoanModels.LoanScenario.MonthlyIncome | backend/app/models/loan.py:55-58 | twelve times the result is the annual income, and it is positive |
| LoanModels.LoanScenario.EstimatedPayment | backend/app/models/loan.py:67-76 | the default payment is the 6% amortised payment over the whole term, and it pays the loan off in exactly that many months |
| LoanModels.LoanScenario.CalculateDti | backend/app/models/loan.py:60-79 | the ratio times the monthly income is the monthly debts plus the given payment, or the estimated one when none is given; no tax or insurance is added |
| LoanModels.DtiMonotone | backend/app/models/loan.py:78-79 | the ratio does not decrease when the monthly debts or the payment grow at the same income |
| LoanModels.ThirtyYearDti | backend/app/models/loan.py:67-79 | with the estimated 30-year payment the ratio lies between the ratios that 0.598% and 0.6% of the loan give |
| LoanModels.DtiPositive | backend/app/models/loan.py:67-79 | on a valid scenario the estimated payment and the ratio are positive |
| LoanModels.Validate | backend/app/models/loan.py:16-48 | a submission is accepted exactly when every field constraint holds, and is then stored with its state upper-cased; otherwise it is a validation error |
| LoanModels.ValidateIdempotent | backend/app/models/loan.py:44-48 | validating an accepted scenario again gives the same scenario |
| LoanModels.ValidateValid | backend/app/models/loan.py:16-48 | a scenario that already meets the constraints with an upper-case state validates to itself |
| LoanModels.DifficultyFromString | backend/app/models/loan.py:97-99 | exactly the three literals `easy`, `moderate` and `hard` are accepted, each as the difficulty of that name |
| LoanModels.DifficultyRoundTrip | backend/app/models/loan.py:97-99 | reading back the name of a difficulty gives that difficulty |
| LoanModels.MakeFixSuggestion | backend/app/models/loan.py:92-99 | a suggestion is built exactly when its difficulty is one of the three literals, keeping the description and the difficulty's name |
| LoanModels.MakeProductResult | backend/app/models/loan.py:102-114 | a product result is built exactly when the name and the GSE are among their literals, in any combination |
| LoanModels.MakeEligibilityResult | backend/app/models/loan.py:176-186 | a result is built exactly when both ratios lie in `[0, 2]`, otherwise it is a validation error |
| RulesEngine.RuleNameRoundTrip | backend/app/services/rules_engine.py:551-658 | each rule's `rule_name` literal is recognised by the suggestion loop's comparisons as that rule |
| RulesEngine.RuleNamesDistinct | backend/app/services/rules_engine.py:545-549 | two violations share a `rule_name` exactly when they come from the same rule, so the seen-set tells rules apart |
| RulesEngine.CalculateLtv | backend/app/services/rules_engine.py:158-171 | a property value that is not positive gives exactly 1.0; otherwise the ratio times the value is the loan amount |
| RulesEngine.CalculateDti | backend/app/services/rules_engine.py:173-217 | 1.0 when the monthly income is not positive; otherwise the ratio times the income is the 6% payment over `term * 12` months plus 1.5%/12 of the value plus the monthly debts; a zero-year term divides by zero |
| RulesEngine.DtiAddsTaxesAndInsurance | backend/app/services/rules_engine.py:207-217 | on a validated scenario the engine's DTI exceeds the API model's by exactly the taxes-and-insurance share of the income |
| RulesEngine.RankInjective | backend/app/services/rules_engine.py:262-390 | the positions of the rule checks tell the rules apart |
| RulesEngine.RuleAt | backend/app/services/rules_engine.py:262-390 | the rule checked at position `i` has rank `i` |
| RulesEngine.VerdictNamesRule | backend/app/services/rules_engine.py:294-381 | a recorded violation carries the name of the rule that recorded it |
| RulesEngine.RecordedInRuleOrder | backend/app/services/rules_engine.py:294-381 | the rule checks record at most one violation per rule, in the order they run |
| RulesEngine.RecordedNamed | backend/app/services/rules_engine.py:294-381 | after the first `k` checks, a rule's entry is its verdict when it was checked and absent otherwise |
| RulesEngine.RecordedEmpty | backend/app/services/rules_engine.py:383-390 | the rule checks record nothing exactly when every one of them passes |
| RulesEngine.AllPassIffAccepts | backend/app/services/rules_engine.py:294-381 | every rule passes exactly when the scenario lies in the product's acceptance region: credit at the floor or above, DTI and LTV at most their ceilings, primary occupancy, an allowed type, the loan within the limit and, for HomeReady, no term over 30 years above 95% LTV |
| RulesEngine.RecordedFacts | backend/app/services/rules_engine.py:383-390 | a full run leaves the violations in rule order, none exactly when the scenario is accepted, and each rule's entry equal to its verdict |
| RulesEngine.AppendIf | backend/app/services/rules_engine.py:295-302 | a rule's `if ...: violations.append(...)` extends the record by that rule's verdict |
| RulesEngine.HomeReadyRatioRules | backend/app/services/rules_engine.py:291-336 | the credit (620), DTI (50%) and LTV (95% or 97%) rules leave the first three verdicts |
| RulesEngine.HomeReadyPropertyRules | backend/app/services/rules_engine.py:338-381 | the occupancy, property-type, loan-limit and loan-term rules extend the record to all seven verdicts |
| RulesEngine.CheckHomeReady | backend/app/services/rules_engine.py:262-390 | `HomeReady`/`fannie_mae`, the violations of the seven rules in order, and eligible exactly when there are none, which is exactly when the scenario is in HomeReady's acceptance region |
| RulesEngine.HomePossibleRatioRules | backend/app/services/rules_engine.py:422-479 | the credit (700 for 2-4 units, 680 manufactured, 660 otherwise), DTI (45%) and LTV rules leave the first three verdicts |
| RulesEngine.HomePossiblePropertyRules | backend/app/services/rules_engine.py:481-511 | the occupancy, property-type and loan-limit rules complete the record; there is no loan-term rule |
| RulesEngine.CheckHomePossible | backend/app/services/rules_engine.py:392-520 | `Home Possible`/`freddie_mac`, the violations of its six rules in order, eligible exactly when there are none, which is exactly its acceptance region |
| RulesEngine.CheckHomeReadyDefaulted | backend/app/services/rules_engine.py:285-289 | missing ratios are computed by the engine; it fails only when it has to compute a DTI that divides by zero |
| RulesEngine.CheckHomePossibleDefaulted | backend/app/services/rules_engine.py:415-419 | the same for Home Possible |
| RulesEngine.HomePossibleWithinHomeReady | backend/app/services/rules_engine.py:294-511 | a scenario with a term of at most 30 years that Home Possible accepts is accepted by HomeReady too |
| RulesEngine.LongTermHomePossibleOnly | backend/app/services/rules_engine.py:374-381 | a 40-year loan at 96% LTV is accepted by Home Possible only, so the term bound is needed |
| RulesEngine.CreditFixesCount | backend/app/services/rules_engine.py:551-570 | a score of 660 or more gets no credit suggestion, 620 to 659 one, below 620 two |
| RulesEngine.CreditFixesReachTarget | backend/app/services/rules_engine.py:551-570 | each credit suggestion's points bring the score exactly to its target, 660 first and 620 second |
| RulesEngine.DtiFixesReachTarget | backend/app/services/rules_engine.py:572-613 | the reductions bring the monthly debts exactly to 45% and 50% of the income, the payoff is fifty times the first reduction, the Home Possible pair appears exactly above 45% and, for a positive income, the HomeReady reduction exactly for a DTI in `(50%, 55%]` |
| RulesEngine.AsWrittenNeverNegotiates | backend/app/services/rules_engine.py:615-642 | as written, no suggestion of the LTV branch is ever a price cut |
| RulesEngine.LtvFixesAsWrittenReachTarget | backend/app/services/rules_engine.py:615-642 | the LTV branch as written gives at most one suggestion, the extra down payment that leaves a loan of exactly the target share of the value, offered exactly when the loan exceeds that share |
| RulesEngine.LtvFixesReachTarget | backend/app/services/rules_engine.py:615-642 | the extra down payment leaves a loan of exactly the target share of the value; the corrected price cut gives a positive price at which the current down payment leaves exactly the target share, offered exactly with the down-payment fix and a positive down payment |
| RulesEngine.PriceCutFinding | backend/app/services/rules_engine.py:633-642 | for a $99,000 loan on a $100,000 home the as-written branch yields one suggestion and the corrected one two |
| RulesEngine.FixesAddressRule | backend/app/services/rules_engine.py:551-670 | each suggestion of a rule's branch answers that rule |
| RulesEngine.FixesNeverNegotiate | backend/app/services/rules_engine.py:551-670 | no rule's branch, as written, suggests a price cut |
| RulesEngine.LoanLimitFixReachesLimit | backend/app/services/rules_engine.py:658-670 | the loan reduction is exactly the excess over the high-cost limit |
| RulesEngine.MultiUnitLtvWithoutFix | backend/app/services/rules_engine.py:615-631 | a 2-unit home at 96% LTV breaks the 95% ceiling but the LTV branch as written gives no suggestion, since the fix targets 97% |
| RulesEngine.SeenRules | backend/app/services/rules_engine.py:545-549 | the seen set holds exactly the rules of the violations passed so far |
| RulesEngine.CollectedOncePerRule | backend/app/services/rules_engine.py:545-549 | each violated rule's suggestions appear exactly once, however many violations name it, and an unviolated rule has none |
| RulesEngine.CollectedOnceBy | backend/app/services/rules_engine.py:545-549 | the same for any table whose suggestions for a rule all answer that rule |
| RulesEngine.GenerateFixSuggestions | backend/app/services/rules_engine.py:522-676 | the result is the collected suggestions of the rules' branches as written, stably sorted by difficulty: sorted easy, moderate, hard, a permutation of what the loop collected, and never a price cut |
| RulesEngine.FixSuggestionsStable | backend/app/services/rules_engine.py:673-674 | suggestions of the same difficulty keep the order in which they were collected |
| RulesEngine.NoCreditFixAt660 | backend/app/services/rules_engine.py:551-557 | a score of 660 or more never gets a credit suggestion, whatever the violations |
| RulesEngine.ChooseAdvice | backend/app/services/rules_engine.py:678-746 | the branches exclude one another: both eligible (the score quoted exactly from 700 up), HomeReady only, Home Possible only, or neither, where HomeReady is named the easier path exactly when its violation count is at most Home Possible's |
| RulesEngine.Outcome | backend/app/services/rules_engine.py:383-390 | a check's result holds the recorded violations and is eligible exactly in the product's acceptance region |
| RulesEngine.NoHomePossibleOnlyAdvice | backend/app/services/rules_engine.py:722-727 | for a term of at most 30 years the Home Possible only branch is never taken |
| RulesEngine.HomePossibleOnlyAdviceReachable | backend/app/services/rules_engine.py:722-727 | a 40-year loan reaches the Home Possible only branch |
| RulesEngine.CheckEligibility | backend/app/services/rules_engine.py:219-260 | the check fails exactly when the DTI divides by zero (a zero-year term with a positive income), with `ZeroDivisionError`; the result record bounds no ratio, and otherwise echoes the scenario and holds both ratios, both product results, the sorted suggestions for the violations of both, none of them a price cut, and the recommendation |
| RulesEngine.CheckLoanEligibility | backend/app/services/rules_engine.py:753-806 | the engine's scenario is built from the arguments as given, unvalidated and with the state as given, and checked with the 2026 limits; with a positive income it fails exactly for a zero-year term |
| RulesEngine.ValidTermDivides | backend/app/models/loan.py:27 | a validated scenario's term of 15, 20 or 30 years keeps the engine's DTI defined |
| EligibilityRouter.ViolationsMembers | backend/app/routers/eligibility.py:46-112 | a violation is in a product's list exactly when its threshold is crossed, with the rule's name and message |
| EligibilityRouter.AnyNamedMember | backend/app/routers/eligibility.py:152 | `any(v.rule_name == name for v in ...)` holds exactly when some violation carries that name |
| EligibilityRouter.ViolationsByRule | backend/app/routers/eligibility.py:46-112 | each rule is named exactly when its threshold is crossed: credit below 620 or 660, LTV above 97%, DTI above 50% or 45%, occupancy other than `primary`; no other name and at most four violations |
| EligibilityRouter.EligibleIffThresholds | backend/app/routers/eligibility.py:115-128 | a product is eligible exactly when it meets all four thresholds |
| EligibilityRouter.HomePossibleStricter | backend/app/routers/eligibility.py:46-112 | Home Possible records at least as many violations as HomeReady, and whenever it is eligible HomeReady is too |
| EligibilityRouter.FirstEligible | backend/app/routers/eligibility.py:137 | `next(p for p in products if p.eligible)`: the first eligible position, with no eligible product before it, or -1 when none is |
| EligibilityRouter.ChooseAdvice | backend/app/routers/eligibility.py:131-146 | the recommendation for both exactly when all products are eligible, for the first eligible product when only some are, and for neither exactly when none is |
| EligibilityRouter.AnyNamedAppend | backend/app/routers/eligibility.py:150 | a name occurs in `homeready_violations + home_possible_violations` exactly when it occurs in one of them |
| EligibilityRouter.FixesByThreshold | backend/app/routers/eligibility.py:148-184 | on the endpoint's own violations the DTI pair appears exactly above 45%, the credit suggestion exactly below 660 and the LTV one exactly above 97%, whose amount is the extra down payment that leaves a loan of 97% of the value |
| EligibilityRouter.FixesByNames | backend/app/routers/eligibility.py:148-184 | the number of suggestions and the presence of the down-payment one follow the thresholds |
| EligibilityRouter.CombinedNames | backend/app/routers/eligibility.py:150 | across both products a rule is named exactly when the looser of its two thresholds is crossed |
| EligibilityRouter.LtvFixAmount | backend/app/routers/eligibility.py:177-184 | the down payment named is exactly the loan minus 97% of the value |
| EligibilityRouter.FixesShape | backend/app/routers/eligibility.py:148-184 | two DTI suggestions, one credit and one LTV, each present exactly when its rule is named, and only the last raises the down payment |
| EligibilityRouter.CheckLoanEligibility | backend/app/routers/eligibility.py:27-200 | the response fails with a 500 exactly when a ratio is outside `[0, 2]`; otherwise it holds the scenario, both ratios, the two product results, the recommendation and the suggestions |
| EligibilityRouter.CheckProduct | backend/app/routers/eligibility.py:46-112 | the appends of one product's checks build exactly its violation list |
| EligibilityRouter.SuggestFixes | backend/app/routers/eligibility.py:148-184 | the appends build exactly the suggestion list |
| EligibilityRouter.ThirtyYearOutcome | backend/app/routers/eligibility.py:36-39 | for a 30-year loan the DTI rule is settled by the payment bounds 0.598% and 0.6% of the loan |
| EligibilityRouter.Passes | backend/app/routers/eligibility.py:46-128 | a 30-year scenario that clears the thresholds with the upper payment bound is eligible |
| EligibilityRouter.Fails | backend/app/routers/eligibility.py:46-128 | a 30-year scenario that misses a threshold, the DTI even with the lower payment bound, is not eligible |
| EligibilityRouter.IdealBorrower | scripts/test_scenarios.py:56-74 | credit 720 at 87.5% LTV passes both |
| EligibilityRouter.MinimumCreditHomeReady | scripts/test_scenarios.py:76-96 | credit 620 passes HomeReady and fails Home Possible |
| EligibilityRouter.LtvAtLimit | scripts/test_scenarios.py:98-122 | an LTV of exactly 97% passes both |
| EligibilityRouter.LtvAboveLimit | scripts/test_scenarios.py:124-144 | an LTV of 98% fails both |
| EligibilityRouter.CreditBelowBoth | scripts/test_scenarios.py:146-166 | credit 580 fails both |
| EligibilityRouter.InvestmentProperty | scripts/test_scenarios.py:168-188 | an investment property fails both |
| EligibilityRouter.DtiAboveBoth | scripts/test_scenarios.py:190-214 | heavy debts fail both DTI ceilings |
| EligibilityRouter.CreditBetweenFloors | scripts/test_scenarios.py:216-237 | credit 640 passes HomeReady and fails Home Possible |
| EligibilityRouter.DtiBetweenCeilings | scripts/test_scenarios.py:239-264 | a DTI of about 48% passes HomeReady and fails Home Possible |
| EligibilityRouter.CondoPassesBoth | scripts/test_scenarios.py:266-286 | a condo passes both |
| EligibilityRouter.TwoUnitPassesBoth | scripts/test_scenarios.py:288-310 | a 2-unit home passes both |
| FixFinderModels.MakeGuideCitation | backend/app/models/fix_finder.py:12-18 | a citation is built exactly when its GSE is one of the two and its relevance lies in `[0, 1]`, with the fields given; otherwise a validation error |
| FixFinderModels.CitationsAppend | backend/app/models/fix_finder.py:52-54 | joining two lists of valid citations keeps them valid |
| FixFinderModels.MakeEnhancedFix | backend/app/models/fix_finder.py:30-60 | built exactly when the confidence lies in `[0, 1]`, the priority is at least one and the products and citations are valid, with the fields given |
| FixFinderModels.FeasibilityFromString | backend/app/models/fix_finder.py:78-80 | exactly the four feasibility literals are accepted, each read as the value it names |
| FixFinderModels.FeasibilityRoundTrip | backend/app/models/fix_finder.py:78-80 | naming a feasibility and reading it back gives it again |
| FixFinderModels.EffortFromString | backend/app/models/fix_finder.py:89-91 | exactly the four effort literals are accepted |
| FixFinderModels.EffortRoundTrip | backend/app/models/fix_finder.py:89-91 | naming an effort and reading it back gives it again |
| FixFinderModels.MakeFixSequence | backend/app/models/fix_finder.py:83-100 | built exactly when the effort-versus-benefit score lies in `[0, 10]` and the products are valid |
| FixFinderModels.ToolNameFromString | backend/app/models/fix_finder.py:106-108 | exactly the three tool names are accepted |
| FixFinderModels.ToolNameRoundTrip | backend/app/models/fix_finder.py:106-108 | naming a tool and reading it back gives it again |
| FixFinderModels.MakeToolCall | backend/app/models/fix_finder.py:103-110 | a tool call is built exactly when its name is one of the three tools, which it then names, with the arguments and summary given |
| FixFinderModels.MakeReactStep | backend/app/models/fix_finder.py:113-121 | a step is built exactly when its number is at least one, with no tool calls and no findings |
| FixFinderModels.DefaultResult | backend/app/models/fix_finder.py:124-160 | every list empty, the path empty and every counter zero |
| FixFinderTools.OverriddenLookup | backend/app/services/fix_finder_service.py:232-236 | after the override loop, a key the dump lacks stays absent and a key it has takes the last value the changes give it, or keeps its own |
| FixFinderTools.ModifiedRead | backend/app/services/fix_finder_service.py:238-243 | reading a scenario field after the override gives the change when there is one and the scenario's own value otherwise |
| FixFinderTools.Divide | backend/app/services/fix_finder_service.py:245-256 | `a / b` on JSON values: a quotient whenever both are numbers and the divisor is not zero, `ZeroDivisionError` for a zero divisor and `TypeError` for a value that is not a number |
| FixFinderTools.Magnitude | backend/app/services/fix_finder_service.py:285 | `sum(abs(v) ...)` is defined exactly when every change is a number, and is then not negative |
| FixFinderTools.FeasibilityOf | backend/app/services/fix_finder_service.py:286-293 | easy below 5,000, moderate below 20,000, hard below 50,000, very hard from there, each band exactly |
| FixFinderTools.FeasibilityMonotone | backend/app/services/fix_finder_service.py:286-293 | a larger change is never judged more feasible |
| FixFinderTools.SimEligibleIff | backend/app/services/fix_finder_service.py:258-283 | a product passes the simulation exactly when it meets its credit, LTV, DTI and occupancy thresholds |
| FixFinderTools.Distinct | backend/app/services/fix_finder_service.py:304 | `list(set(...))` holds each element of its input, and nothing else, exactly once |
| FixFinderTools.MetricsOfOk | backend/app/services/fix_finder_service.py:238-256 | the ratios exist exactly when the five fields are numbers and neither divisor is zero |
| FixFinderTools.MetricsOfValues | backend/app/services/fix_finder_service.py:245-256 | the metrics are the credit score, the loan over the value, and the debts plus the 30-year payment at 6% over the monthly income |
| FixFinderTools.SimulateScenario | backend/app/services/fix_finder_service.py:224-234 | changes that are not an object raise `AttributeError` |
| FixFinderTools.SimulationSpec | backend/app/services/fix_finder_service.py:224-319 | a simulation succeeds exactly when the changes are numbers, the fields read have non-zero divisors and the description is a string; then each product is eligible exactly when it has no violation, the remaining violations are both products' names once each, none are resolved, the feasibility is the magnitude's band and each change is listed under its key |
| FixFinderTools.GseFilter | backend/app/services/fix_finder_service.py:184-186 | no filter exactly for `both`, an equality filter on `gse` otherwise |
| FixFinderTools.HitCitations | backend/app/services/fix_finder_service.py:198-211 | the citations exist exactly when every match passes the citation checks, one per match in order, all valid |
| FixFinderTools.QueryGuides | backend/app/services/fix_finder_service.py:172-222 | a failed search yields no citations and a summary saying so; an empty result always comes with a non-empty summary |
| FixFinderTools.RunToolSpec | backend/app/services/fix_finder_service.py:383-432 | an unknown tool is refused by the tool-call record; a call that succeeds records its name, arguments and summary cut to 500 characters, answers with the request's id, valid citations only from the guide search and one simulation only from the simulator |
| FixFinderTools.Outcomes | backend/app/services/fix_finder_service.py:383 | one outcome per request, each request run on its own |
| FixFinderTools.BatchSimulationCount | backend/app/services/fix_finder_service.py:406-412 | a successful batch holds exactly one simulation per simulation request |
| FixFinderTools.BatchCitationsValid | backend/app/services/fix_finder_service.py:390-404 | every citation a successful batch collects is valid |
| FixFinderTools.OutcomeCitationsValid | backend/app/services/fix_finder_service.py:390-404 | the same for any outcomes whose citations are valid |
| FixFinderTools.RunBatch | backend/app/services/fix_finder_service.py:383-433 | the batch succeeds exactly when every request does, and fails with the error of the first that raises; on success the calls and results are the requests', in order, with all their citations and simulations |
| FixFinderTools.ProcessToolCalls | backend/app/services/fix_finder_service.py:372-433 | the same, with each request dispatched on its tool name |
| FixFinderNormalise.JsonSpan | backend/app/services/fix_finder_service.py:638-643 | a span exists exactly when the first `{` comes before the last `}`, and then runs from one to the other |
| FixFinderNormalise.FilterFences | backend/app/services/fix_finder_service.py:627-636 | the loop keeps exactly the lines the fence filter keeps |
| FixFinderNormalise.ParseFinalResponse | backend/app/services/fix_finder_service.py:622-648 | the span of the filtered text is parsed, and the result is the empty dict without a span or when it does not parse |
| FixFinderNormalise.KeptLinesSpec | backend/app/services/fix_finder_service.py:630-635 | a fence line is never kept, only given lines are kept, and a line opening an object is always kept |
| FixFinderNormalise.KeptBlock | backend/app/services/fix_finder_service.py:630-635 | inside a block every line up to the next fence is kept |
| FixFinderNormalise.FencedBlock | backend/app/services/fix_finder_service.py:626-636 | a fenced block whose body has no fence gives exactly its body |
| FixFinderNormalise.ParseWithoutBraces | backend/app/services/fix_finder_service.py:641-645 | without a `{` before a later `}` the response is the empty dict |
| FixFinderNormalise.ParseWholeObject | backend/app/services/fix_finder_service.py:638-648 | an unfenced text that is one object from first to last character is parsed whole |
| FixFinderNormalise.FlatValue | backend/app/services/fix_finder_service.py:160-169 | a string stays itself and a dict becomes its JSON text |
| FixFinderNormalise.FlattenToStringDict | backend/app/services/fix_finder_service.py:157-170 | anything but a dict raises `AttributeError`; a dict gives one flattened entry per key, in order |
| FixFinderNormalise.FlattenedKeysDistinct | backend/app/services/fix_finder_service.py:157-170 | no key repeats in the flattened dict |
| FixFinderNormalise.BuiltAtFails | backend/app/services/fix_finder_service.py:661-716 | once an entry raises, the whole build fails with that error |
| FixFinderNormalise.BuiltCountedFails | backend/app/services/fix_finder_service.py:746-765 | the same for the steps of a sequence |
| FixFinderNormalise.BuiltKeptFails | backend/app/services/fix_finder_service.py:730-778 | the same for the sequences |
| FixFinderNormalise.BuildAt | backend/app/services/fix_finder_service.py:661-718 | the loop that skips entries that are not dicts yields exactly the build of the dict entries |
| FixFinderNormalise.BuildCounted | backend/app/services/fix_finder_service.py:746-765 | the step loop yields exactly the build of the dict steps, each with the count of steps before it |
| FixFinderNormalise.NoDictsBuildNothing | backend/app/services/fix_finder_service.py:661-663 | a list without a dict builds nothing |
| FixFinderNormalise.DifficultyOf | backend/app/services/fix_finder_service.py:665-667 | a known difficulty is kept, anything else becomes `moderate` |
| FixFinderNormalise.Matching | backend/app/services/fix_finder_service.py:670-677 | the citations kept are exactly those whose snippet mentions one of the keywords, in their order |
| FixFinderNormalise.AsList | backend/app/services/fix_finder_service.py:681-684 | a list stays as it is and a string is one item, none when empty |
| FixFinderNormalise.ProductFilter | backend/app/services/fix_finder_service.py:685 | exactly the items that are product names, in order |
| FixFinderNormalise.Clamp01 | backend/app/services/fix_finder_service.py:706 | the result lies in `[0, 1]` and a value already inside is kept |
| FixFinderNormalise.Prefix | backend/app/services/fix_finder_service.py:712 | `s[:n]` is a prefix of at most `n` elements, all of `s` when it is short enough |
| FixFinderNormalise.EnhancedFixOf | backend/app/services/fix_finder_service.py:664-716 | a built fix is valid and has at most three citations |
| FixFinderNormalise.EnhancedFixRefused | backend/app/services/fix_finder_service.py:670-676 | a description that is not a string raises when there are citations to match, and a confidence that cannot be a number raises |
| FixFinderNormalise.EnhancedFixBuilt | backend/app/services/fix_finder_service.py:664-716 | a built fix has the mapped difficulty, the clamped confidence (0.7 when absent), only citations it was given and no compensating factors |
| FixFinderNormalise.UnlockString | backend/app/services/fix_finder_service.py:680-685 | a product name given as a string unlocks exactly that product |
| FixFinderNormalise.BuiltFixesValid | backend/app/services/fix_finder_service.py:661-718 | every built fix is valid with at most three citations |
| FixFinderNormalise.BuildEnhancedFixes | backend/app/services/fix_finder_service.py:650-718 | `enhanced_fixes` that cannot be iterated raise `TypeError`; otherwise the fixes are the build of its dict entries |
| FixFinderNormalise.EffortOf | backend/app/services/fix_finder_service.py:734-737 | a known effort is kept, anything else becomes `medium` |
| FixFinderNormalise.StepOf | backend/app/services/fix_finder_service.py:748-764 | a built step is valid with no products, citations or trade-offs |
| FixFinderNormalise.StepSpec | backend/app/services/fix_finder_service.py:748-764 | a step without a priority takes its position counted from one, its confidence is clamped and 0.7 when absent, and a confidence that is not a number raises |
| FixFinderNormalise.SequenceFrom | backend/app/services/fix_finder_service.py:767-778 | a sequence with no step is dropped; a kept one is valid and holds the steps built |
| FixFinderNormalise.SequenceSpec | backend/app/services/fix_finder_service.py:730-778 | a kept sequence has steps, a known effort or `medium`, a score clamped into `[0, 10]` (5 when absent), and `Path n` as its default name |
| FixFinderNormalise.BuiltSequencesValid | backend/app/services/fix_finder_service.py:730-778 | every kept sequence is valid and has at least one step |
| FixFinderNormalise.BuildFixSequences | backend/app/services/fix_finder_service.py:720-780 | `fix_sequences` that cannot be iterated raise `TypeError`; otherwise the sequences are those kept from its dict entries |
| FixFinderNormalise.BuildSequence | backend/app/services/fix_finder_service.py:730-778 | one entry's body, with its inner step loop, builds exactly the sequence that entry defines |
| FixFinder.ToolRequestsSpec | backend/app/services/fix_finder_service.py:509-518 | a response requests no tool exactly when none of its blocks is a tool use |
| FixFinder.LastTextSpec | backend/app/services/fix_finder_service.py:519-520 | the text of an iteration is the last text block's, or empty without one |
| FixFinder.FirstTextSpec | backend/app/services/fix_finder_service.py:605-610 | the text of the final call is the first text block's, or `{}` without one |
| FixFinder.ScanBlocks | backend/app/services/fix_finder_service.py:509-520 | the block loop collects exactly the tool requests in order and ends with the last text |
| FixFinder.FirstTextOf | backend/app/services/fix_finder_service.py:605-610 | the final call's block loop stops at the first text block |
| FixFinder.Reasoning | backend/app/services/fix_finder_service.py:526 | a non-empty text is cut to 500 characters |
| FixFinder.Findings | backend/app/services/fix_finder_service.py:539 | one finding per call, its summary cut to 200 characters |
| FixFinder.ActionsDistinct | backend/app/services/fix_finder_service.py:527-575 | the four actions a step records are four different strings |
| FixFinder.StepForNumbers | backend/app/services/fix_finder_service.py:523-580 | a step's number is its iteration counted from one, its action is one of the four, `timeout` exactly for a timeout and `final_analysis` exactly for a response without tool requests |
| FixFinder.ReactIteration | backend/app/services/fix_finder_service.py:505-553 | one iteration adds the reported tokens, runs the tools, records its step and extends the conversation by the response and the tool results only when there were requests; it returns the parsed analysis when the model is done |
| FixFinder.ToolIteration | backend/app/services/fix_finder_service.py:532-553 | the same for a response that asked for tools |
| FixFinder.ToolsRan | backend/app/services/fix_finder_service.py:538-553 | the step records the processed calls and their findings, and the end of the turn returns the analysis |
| FixFinder.RunTools | backend/app/services/fix_finder_service.py:534-536 | a batch succeeds exactly when every request does, then with one call per request and valid citations |
| FixFinder.GrowsAppend | backend/app/services/fix_finder_service.py:544-545 | the conversation only grows from one call to the next |
| FixFinder.StepsFitAppend | backend/app/services/fix_finder_service.py:547 | a new call and its step keep the trace fitting the calls |
| FixFinder.StepsFitExtend | backend/app/services/fix_finder_service.py:590-599 | the final call adds no step |
| FixFinder.TokensAppend | backend/app/services/fix_finder_service.py:505-506 | each call adds exactly the tokens the model reported |
| FixFinder.LoopCallBound | backend/app/services/fix_finder_service.py:490-620 | a run makes between one and `max_iterations + 1` model calls, records at most one step per call, numbered from one, and a timeout or an error step is always the last |
| FixFinder.Advance | backend/app/services/fix_finder_service.py:490-553 | each iteration asks the model once, with the tools offered, and keeps the loop's invariant or returns |
| FixFinder.ContinuedFits | backend/app/services/fix_finder_service.py:547-580 | an iteration that did not return keeps the invariant and records whether it broke out |
| FixFinder.FinishedFits | backend/app/services/fix_finder_service.py:550-553 | an iteration that returned ends the loop with the analysis of its reply |
| FixFinder.ToolsAppend | backend/app/services/fix_finder_service.py:532-550 | every step but the last went on to the tools |
| FixFinder.Iterations | backend/app/services/fix_finder_service.py:490-580 | the iterations ask the model with the tools offered until one returns or breaks, at most `max_iterations` times |
| FixFinder.ReturnedFits | backend/app/services/fix_finder_service.py:550-553 | a run that returned from inside the loop fits: its last call gave the analysis |
| FixFinder.FinalFits | backend/app/services/fix_finder_service.py:582-620 | a run that made the final call fits: that call, without the tools, gave the analysis, or the empty dict on a timeout or an exception |
| FixFinder.ReactLoop | backend/app/services/fix_finder_service.py:435-620 | the loop's whole run: the calls it made, in order, the steps, the tokens, and the analysis |
| FixFinder.Flattened | backend/app/services/fix_finder_service.py:819-820 | the product comparison flattens exactly when it is a dict |
| FixFinder.RawRecommendedPath | backend/app/services/fix_finder_service.py:823-830 | a value other than a dict becomes a string, and a string is kept |
| FixFinder.Finish | backend/app/services/fix_finder_service.py:846-856 | the record is built exactly when the path is a string; it exposes the trace only in demo mode and counts the iterations and tokens |
| FixFinder.FailureResult | backend/app/services/fix_finder_service.py:876-886 | the failure result has no lists, no iterations and no tokens, and the fixed path text |
| FixFinder.Returned | backend/app/services/fix_finder_service.py:805-886 | a run that raised returns the failure result, any other its record |
| FixFinder.ReturnedSpec | backend/app/services/fix_finder_service.py:805-886 | a failed loop returns the failure result; a successful run counts its iterations and tokens; outside demo mode the trace is never exposed |
| FixFinder.RecordFor | backend/app/services/fix_finder_service.py:835-873 | the usage record is a success exactly when the result was built, with the loop's tokens, or a failure with no tokens and the error's text |
| FixFinder.RecordsAsWritten | backend/app/services/fix_finder_service.py:835-873 | as written, a run sends one or two usage records |
| FixFinder.DoubleRecordAsWritten | backend/app/services/fix_finder_service.py:823-873 | a path dict whose primary recommendation is a number makes the run record a success and then a failure, and return the failure result |
| FixFinder.OneRecordPerRun | backend/app/services/fix_finder_service.py:835-873 | the corrected assembly records exactly one usage per run, a success exactly when the result was built |
| FixFinder.Prepare | backend/app/services/fix_finder_service.py:812-830 | the builders run in order and the first that raises aborts |
| FixFinder.FixFinderService.EnsureClient | backend/app/services/fix_finder_service.py:141-147 | the client is created once, and only with a key; without one `ValueError` |
| FixFinder.FixFinderService.RunReactLoop | backend/app/services/fix_finder_service.py:435-620 | without a client and a key nothing is asked and `ValueError` is raised; otherwise the loop runs |
| FixFinder.FixFinderService.RunAndPrepare | backend/app/services/fix_finder_service.py:805-830 | the loop, then the builders on its analysis |
| FixFinder.FixFinderService.FindFixes | backend/app/services/fix_finder_service.py:782-886 | the corrected `find_fixes`: the result as returned, and exactly one usage record, written through the tracker |
| FixFinder.FixFinderService.FindFixesAsWritten | backend/app/services/fix_finder_service.py:782-886 | `find_fixes` as written: the same result, with the success recorded before the record is built and a second record when building it raises |
| LlmUsage.PriceOf | backend/app/services/llm_usage_service.py:39-42 | a model in the table is charged its own price, any other the default Sonnet price |
| LlmUsage.CalculateCost | backend/app/services/llm_usage_service.py:35-47 | the cost of non-negative token counts is not negative, and nothing costs nothing |
| LlmUsage.CostAdditive | backend/app/services/llm_usage_service.py:45-47 | the cost is additive in both token counts |
| LlmUsage.CostPerMillion | backend/app/services/llm_usage_service.py:45-46 | a million input tokens cost the input price and a million output tokens the output price |
| LlmUsage.UnknownModelAtDefaultPrice | backend/app/services/llm_usage_service.py:40-42 | a model missing from the table costs what the default model costs |
| LlmUsage.EmbeddingsChargeInputOnly | backend/app/services/llm_usage_service.py:29-30 | the two embedding models charge nothing for output tokens |
| LlmUsage.UsageRecord.TokensTotal | backend/app/services/llm_usage_service.py:65-66 | the total less the input tokens is the output tokens |
| LlmUsage.NewRecord | backend/app/services/llm_usage_service.py:50-62 | a new record has no tokens, no time, and is a success without error |
| LlmUsage.Tracker.Record | backend/app/services/llm_usage_service.py:103-129 | one session; the record lands in the table, or in the buffer when the write fails, and nothing else changes |
| LlmUsage.Tracker.RecordSync | backend/app/services/llm_usage_service.py:131-140 | the record is always buffered |
| LlmUsage.Tracker.FlushMemory | backend/app/services/llm_usage_service.py:142-171 | an empty buffer returns 0 and opens no session; otherwise the buffered records are written and the buffer emptied when the commit succeeds, kept when it fails, and the count of staged records returned either way |
| LlmUsage.Tracker.Track | backend/app/services/llm_usage_service.py:174-205 | the record the body filled in place, tokens set before a raise included, is written exactly once, marked failed with the message when the body raised, and the body's error is raised again |
| LlmUsage.Registry.GetTracker | backend/app/services/llm_usage_service.py:212-217 | the tracker is created on the first call, and every later call returns the same one |
| LlmUsage.Registry.RecordUsage | backend/app/services/llm_usage_service.py:221-246 | the record built from the fields is sent exactly once through the global tracker |
| Embedding.ChunkAt | backend/app/services/embedding_service.py:123-139 | a chunk holds at most `chunk_size` tokens, reaches the end when it is shorter, decodes its window, and its character span starts at the decoded length before it |
| Embedding.ChunkText | backend/app/services/embedding_service.py:99-148 | the loop emits exactly the chunks of the encoded text: window `k` at `k * (chunk_size - chunk_overlap)`, every window but the last stopping short of the end |
| Embedding.ChunksOverlap | backend/app/services/embedding_service.py:143-146 | each later chunk starts `chunk_overlap` tokens before the previous one ends, and every chunk but the last is full |
| Embedding.ChunksCover | backend/app/services/embedding_service.py:122-146 | every token lies in some chunk |
| Embedding.CoveredBefore | backend/app/services/embedding_service.py:122-146 | the first `k + 1` chunks hold every token before the end of chunk `k` |
| Embedding.BatchesPartition | backend/app/services/embedding_service.py:84-88 | the batches put back together give the texts, each holding between one and 100 |
| Embedding.EmbeddedLength | backend/app/services/embedding_service.py:87-94 | with one vector per text from the endpoint, there is one vector per text overall |
| Embedding.EmbeddingService.EnsureClient | backend/app/services/embedding_service.py:30-36 | the client is created once, and only with a key |
| Embedding.EmbeddingService.EmbedTexts | backend/app/services/embedding_service.py:68-97 | no texts give no vectors and create no client; otherwise the call succeeds exactly with a key, and the vectors are those of the batches of 100, in order |
| Database.DatabaseUrl | backend/app/db/database.py:23-40 | the SQLite default for no URL, the async driver for either Postgres scheme, and any other URL as it is |
| Database.SchemesDisjoint | backend/app/db/database.py:35-38 | the two Postgres schemes cannot both prefix a URL, and the async scheme starts with neither |
| Database.DatabaseUrlIdempotent | backend/app/db/database.py:23-40 | the rewritten URL is never empty, starts with neither Postgres scheme, and rewriting it again changes nothing |
| Database.DatabaseGlobals.GetEngine | backend/app/db/database.py:43-57 | the engine is created for the rewritten URL on the first call, and the same one returned after |
| Database.DatabaseGlobals.GetSessionFactory | backend/app/db/database.py:60-72 | the factory is created on the engine on the first call, and the same one returned after |
| Database.DatabaseGlobals.CloseDb | backend/app/db/database.py:86-94 | both globals are forgotten; without an engine nothing changes |
| Database.DatabaseGlobals.GetSession | backend/app/db/database.py:97-116 | a session is opened from the factory and receives exactly the calls of the session discipline |
| Database.SessionDiscipline | backend/app/db/database.py:106-116 | the session is closed exactly once and last, committed exactly when the block completed, and rolled back exactly when the `async with` raises, with the first error |
| Changes.DateKeyOrder | backend/app/routers/changes.py:126 | the sort key orders dates exactly as Python compares them, and only equal dates share a key |
| Changes.OfGse | backend/app/routers/changes.py:122-123 | the filter keeps at most the updates it is given |
| Changes.OfGseMembers | backend/app/routers/changes.py:122-123 | an update is kept exactly when it is stored and of that GSE |
| Changes.Slice | backend/app/routers/changes.py:130 | `s[lo:hi]` with Python's clamping has `min(hi, len) - lo` elements, none when `lo` is past the end or `hi <= lo` |
| Changes.ListChanges | backend/app/routers/changes.py:107-140 | a GSE outside the literal, a limit outside `[1, 100]` or a negative offset is refused with 422, and nothing else is |
| Changes.ListChangesSpec | backend/app/routers/changes.py:119-132 | an accepted listing holds only stored updates of the GSE asked for, newest first; its total counts every matching update whatever the page; its page holds `max(0, min(limit, total - offset))` of them |
| Changes.PageMeets | backend/app/routers/changes.py:126-130 | the page cut from the sorted matches meets the listing's promise |
| Changes.SortedPageMeets | backend/app/routers/changes.py:129-130 | a page of any newest-first ordering of the matches meets the listing's promise |
| Changes.ListingOf | backend/app/routers/changes.py:126-132 | an accepted listing is the slice of the sorted matches, with their number as total |
| Changes.FilteredMembers | backend/app/routers/changes.py:121-126 | the sorted matches are stored updates of the GSE asked for |
| Changes.PageIn | backend/app/routers/changes.py:130 | a page holds elements of the list it is cut from |
| Changes.PageNewestFirst | backend/app/routers/changes.py:126-130 | a page of a newest-first list is newest first |
| Changes.ListChangesComplete | backend/app/routers/changes.py:119-132 | with a first page large enough, the listing holds every matching update as often as it is stored |
| Changes.FindUpdate | backend/app/routers/changes.py:148-161 | 404 exactly when no stored update has the id; otherwise the first stored update with that id |
| Changes.CommentTemplate | backend/app/routers/changes.py:211-219 | the template opens with the marker and `Generated code for` the update number |
| Changes.PythonText | backend/app/routers/changes.py:206-219 | the stored code when it is non-empty, else the `#` template |
| Changes.TypeScriptText | backend/app/routers/changes.py:222-232 | always the `//` template |
| Changes.YamlText | backend/app/routers/changes.py:235-247 | the YAML opens with `# Generated rules for` the update number |
| Changes.JsonDocument | backend/app/routers/changes.py:250-262 | an object whose `update_number` is the update's and whose `rules` is the empty object |
| Changes.GetChangeCode | backend/app/routers/changes.py:171-203 | a format outside the literal is refused with 422, an unknown id with 404; otherwise the first matching update rendered in the format asked for |
| ChatModels.Turns | backend/app/routers/chat.py:68-72 | one turn per message, with its role and content |
| Chat.Without | backend/app/routers/chat.py:40 | the key taken out and the rest kept in order; a list without repeats keeps none and shrinks by one |
| Chat.LruConversationCache.Set | backend/app/routers/chat.py:38-44 | a stored key moves to the most recent end and nothing leaves; a new key joins at that end, and the oldest key leaves when the cache goes past its capacity |
| Chat.LruConversationCache.Get | backend/app/routers/chat.py:46-48 | a stored key is returned and becomes the most recent; a missing key raises `KeyError` and changes nothing |
| Chat.LruConversationCache.AppendTo | backend/app/routers/chat.py:122-123 | a use of the key followed by an append to its list; `KeyError` for a key not stored |
| Chat.UserMessage | backend/app/routers/chat.py:227 | the user's message is saved with role `user`, its text and no citations |
| Chat.SaveMessages | backend/app/routers/chat.py:119-123 | an unknown conversation is stored empty first, then both messages are appended; this succeeds exactly when the cache has room, and leaves the conversation the most recent |
| Chat.History | backend/app/routers/chat.py:70-73 | the stored turns, or none for an unknown conversation; reading a stored one makes it the most recent |
| Chat.ValidateMessage | backend/app/routers/chat.py:143-153 | a non-empty message of at most 10000 characters with a non-space character passes as it is; an empty one is refused with 422, the others with 400 |
| Chat.ConversationId | backend/app/routers/chat.py:156 | a non-empty id is kept, otherwise a fresh one is used |
| Chat.DetectGse | backend/app/routers/chat.py:190-196 | Fannie Mae exactly when the text names `fannie` or `homeready`, Freddie Mac exactly when it names neither but `freddie` or `home possible` |
| Chat.MockTopic | backend/app/routers/chat.py:248-378 | the topics partition the messages: the first keyword test the lower-cased message passes decides |
| Chat.ContainsPrefixOf | backend/app/routers/chat.py:304 | a text that holds `t + u` holds `t` |
| Chat.CreditTestIsCredit | backend/app/routers/chat.py:304 | the `credit score` test adds nothing to the `credit` test after it |
| Chat.MockCitations | backend/app/routers/chat.py:248-378 | the default reply has no citations, the Home Possible reply one, every other reply two |
| Chat.MockResponse | backend/app/routers/chat.py:248-378 | a reply has no citations exactly for the default topic |
| Chat.AssistantMessage | backend/app/routers/chat.py:233-237 | the reply is saved with role `assistant`, its text and its citations |
| Chat.ProcessChat | backend/app/routers/chat.py:183-245 | the canned or retrieved reply is saved with the user message and returned under the conversation's id; the canned path fails exactly when the cache has no room |
| Chat.ChatEndpoint | backend/app/routers/chat.py:133-180 | a message that fails validation is refused before anything changes; the canned path is used unless retrieval is enabled and configured; a `ValueError` of the pipeline, pydantic's `ValidationError` included, falls back to the canned reply, any other error is a 500, and a reply is saved and returned exactly when the cache has room |
| Rag.MetadataFilter | backend/app/services/rag_service.py:60-63 | an equality filter on `gse` exactly when a non-empty guide was named, none otherwise |
| Rag.SourceInfoDefaults | backend/app/services/rag_service.py:97-110 | a chunk without a source is called `Document {i+1}`; a missing section or guide is empty and the url is kept as given |
| Rag.SourceMap | backend/app/services/rag_service.py:97-110 | one source-map entry per chunk |
| Rag.ContextPartLabel | backend/app/services/rag_service.py:112 | context section `i` opens with `[i+1]`, the number a reference to it uses |
| Rag.ContextParts | backend/app/services/rag_service.py:97-112 | one context section per chunk |
| Rag.BuildContext | backend/app/services/rag_service.py:97-112 | the loop builds exactly the source map and the context sections |
| Rag.ModelMessages | backend/app/services/rag_service.py:130-148 | the model receives the last six turns of the history, in order, then the question as a user turn |
| Rag.DigitPrefix | backend/app/services/rag_service.py:178 | the longest run of decimal digits at the start of a text |
| Rag.Refs | backend/app/services/rag_service.py:178 | every reference found is a non-empty string of digits |
| Rag.RefsOccur | backend/app/services/rag_service.py:178 | every reference found is written `[digits]` in the answer |
| Rag.RefNumbers | backend/app/services/rag_service.py:181 | each reference's number is the value of its digits |
| Rag.SourcesOf | backend/app/services/rag_service.py:192 | the seen set holds the sources of the chunks picked so far |
| Rag.PickedUpTo | backend/app/services/rag_service.py:180-192 | the first `k` references pick at most `k` chunks, all existing |
| Rag.Picked | backend/app/services/rag_service.py:180-192 | the references pick at most one chunk each, all existing |
| Rag.PickedUpToReferenced | backend/app/services/rag_service.py:180-192 | each chunk picked by the first `k` references is named by one of them |
| Rag.PickedReferenced | backend/app/services/rag_service.py:180-192 | each picked chunk is named by some reference |
| Rag.PickedUpToDistinct | backend/app/services/rag_service.py:182 | no two chunks picked by the first `k` references share a source |
| Rag.PickedDistinctSources | backend/app/services/rag_service.py:182 | no two picked chunks share a source |
| Rag.PickedUpToPrefix | backend/app/services/rag_service.py:180 | what the first `k` references pick does not depend on later ones |
| Rag.PickedUpToGrows | backend/app/services/rag_service.py:180-192 | more references pick an extension of what fewer pick |
| Rag.PickedPrefix | backend/app/services/rag_service.py:180-192 | a prefix of the references picks a prefix of the chunks |
| Rag.PickedUpToComplete | backend/app/services/rag_service.py:182 | every usable one of the first `k` references has its source among the chunks picked |
| Rag.PickedComplete | backend/app/services/rag_service.py:182 | every usable reference has its source among the picked chunks |
| Rag.CitationText | backend/app/services/rag_service.py:187 | `text[:200]` is accepted exactly for a string, and is then its first 200 characters |
| Rag.UrlField | backend/app/services/rag_service.py:189 | the url is accepted exactly when it is missing, null or a string |
| Rag.CitationOfSpec | backend/app/services/rag_service.py:165-192 | a citation is built exactly when the source can be hashed (neither a list nor an object), the guide is a string and the text and url suit the record; it holds at most 200 characters of the text and names the guide and section |
| Rag.Cite | backend/app/services/rag_service.py:186-190 | the service's builder is the citation of each picked chunk |
| Rag.CitationsFor | backend/app/services/rag_service.py:180-194 | one citation per picked chunk when none fails |
| Rag.CitationsForEach | backend/app/services/rag_service.py:180-194 | citation `j` is the citation of picked chunk `j` |
| Rag.CitationsErrStays | backend/app/services/rag_service.py:180-194 | once a citation fails, later references do not change the error |
| Rag.SourcesOfSnoc | backend/app/services/rag_service.py:192 | one more picked chunk adds its source to the seen set |
| Rag.CitationsStepOk | backend/app/services/rag_service.py:186-191 | a new chunk whose citation builds appends that citation |
| Rag.CitationsStepErr | backend/app/services/rag_service.py:186-190 | a new chunk whose citation fails makes that error the result |
| Rag.PickedAdds | backend/app/services/rag_service.py:182 | a usable reference to a source not seen picks its chunk |
| Rag.ExtractFails | backend/app/services/rag_service.py:180-194 | a reference to a new source whose citation fails ends extraction with that error |
| Rag.CollectCitations | backend/app/services/rag_service.py:174-194 | the loop with its seen set yields exactly the citations of the picked chunks, in reference order |
| Rag.ExtractCitations | backend/app/services/rag_service.py:165-194 | the references `[n]` of the answer, as numbers, pick the citations |
| Rag.RagService.EnsureClient | backend/app/services/rag_service.py:32-38 | the client is created once, and only with a key |
| Rag.Answered | backend/app/services/rag_service.py:74-163 | with a client, the outcome succeeds exactly when the model answers and every picked citation builds; a model error is passed on unchanged |
| Rag.RagService.GenerateResponse | backend/app/services/rag_service.py:74-163 | without a client or key `ValueError`; otherwise exactly `Answered`: the model's error passed on, or its answer to the numbered context and the history window with the citations its references pick, or the error building one of them |
| Rag.RagService.Chat | backend/app/services/rag_service.py:196-236 | five chunks are retrieved under the guide's filter, a retrieval error passed on; with none, the fixed reply without citations and without the model; otherwise `ValueError` without a client or key, and with one exactly the generated outcome `Answered` describes |
| ModelAnswer.UnfencedAnswer | backend/app/services/eligibility_reasoner.py:293-296 | an answer that does not start with a fence is only stripped |
| ModelAnswer.LoneFence | backend/app/services/eligibility_reasoner.py:298-301 | a fence line with nothing after it leaves no line to look at, an `IndexError` |
| ModelAnswer.SplitAround | backend/app/services/eligibility_reasoner.py:298 | splitting a body between a first and a last line gives the first line, the body's lines and the last |
| ModelAnswer.FenceEnds | backend/app/services/eligibility_reasoner.py:296 | the fence is three characters that are not whitespace |
| ModelAnswer.FenceKept | backend/app/services/eligibility_reasoner.py:301 | stripping leaves the fence as it is |
| ModelAnswer.FenceOneLine | backend/app/services/eligibility_reasoner.py:298-302 | the fence is one line |
| ModelAnswer.UnfenceRoundTrip | backend/app/services/eligibility_reasoner.py:296-303 | an answer between two fence lines, with a tag after the first, gives back exactly what lies between them |
| ModelAnswer.UnfenceLines | backend/app/services/eligibility_reasoner.py:298-303 | a text that opens and closes with fence lines gives the lines between, joined again |
| ModelAnswer.FencedAnswerKept | backend/app/services/eligibility_reasoner.py:293 | a fenced answer without outer whitespace is its own stripped text |
| ModelAnswer.FenceRoundTrip | backend/app/services/eligibility_reasoner.py:293-303 | an answer fenced as the model writes it gives back exactly its body |
| ModelAnswer.ParsedAnswer | backend/app/services/eligibility_reasoner.py:293-310 | the unfenced answer is parsed, and a parse failure becomes a `ValueError` |
| EligibilityReasoner.HomeReadyTemplateMentionsIt | backend/app/services/eligibility_reasoner.py:36-60 | a HomeReady template mentions HomeReady, so its query is filtered to `fannie_mae` |
| EligibilityReasoner.BuildQueries | backend/app/services/eligibility_reasoner.py:147-155 | the loop expands the catalogue, category by category and template by template, into the queries the expansion function names |
| EligibilityReasoner.QueriesShape | backend/app/services/eligibility_reasoner.py:35-60 | the six categories give twelve queries, alternately filtered to Fannie Mae and Freddie Mac, each its template with the property type's label in place of `{property_type}` |
| EligibilityReasoner.QueriesNamePropertyType | backend/app/services/eligibility_reasoner.py:41-56 | only the LTV and property-type queries carry the property type, whose label keeps no underscore |
| EligibilityReasoner.RunQuery | backend/app/services/eligibility_reasoner.py:158-169 | a query whose embedding or search raises contributes no hits; otherwise its hits, each tagged with the query |
| EligibilityReasoner.Relevance | backend/app/services/eligibility_reasoner.py:196 | the relevance is the score capped at 1, or 0.5 without one |
| EligibilityReasoner.RetrievalBounds | backend/app/services/eligibility_reasoner.py:190-198 | a retrieval's relevance is at most 1, its guide is the chunk's or the query's, and its snippet is at most 300 characters |
| EligibilityReasoner.FirstHits | backend/app/services/eligibility_reasoner.py:179-185 | the first hit of each id not seen keeps its place, at most as many as the hits |
| EligibilityReasoner.HitChunks | backend/app/services/eligibility_reasoner.py:187 | the chunks of the hits, one per hit, in order |
| EligibilityReasoner.BuildAll | backend/app/services/eligibility_reasoner.py:190-198 | the retrievals of the hits, one per hit in order, or the first error building one |
| EligibilityReasoner.MergeKeepsFirstHits | backend/app/services/eligibility_reasoner.py:175-198 | the hit-by-hit merge with its seen set is the first-wins merge: every id seen, the first hit of each id kept with its retrieval |
| EligibilityReasoner.MergeSkipsSeen | backend/app/services/eligibility_reasoner.py:182-184 | a hit whose id was seen is skipped |
| EligibilityReasoner.MergeStopsAtError | backend/app/services/eligibility_reasoner.py:186-198 | a new hit whose retrieval cannot be built ends the merge with that error |
| EligibilityReasoner.MergeKeepsNew | backend/app/services/eligibility_reasoner.py:185-198 | a new hit is recorded with its retrieval and the merge goes on |
| EligibilityReasoner.FirstHitsAreNew | backend/app/services/eligibility_reasoner.py:181-185 | each kept hit is one of the hits, with an id not seen before |
| EligibilityReasoner.FirstHitsDistinct | backend/app/services/eligibility_reasoner.py:181-185 | the kept hits have distinct ids |
| EligibilityReasoner.FirstHitsCover | backend/app/services/eligibility_reasoner.py:181-185 | every id of the hits was seen before or is the id of a kept hit |
| EligibilityReasoner.FirstHitIsEarliest | backend/app/services/eligibility_reasoner.py:179-185 | the hit kept for an id is the earliest hit with that id |
| EligibilityReasoner.MergeResults | backend/app/services/eligibility_reasoner.py:175-198 | the two merge loops over the result lists in query order give the merge of the flattened hits |
| EligibilityReasoner.FirstOf | backend/app/services/eligibility_reasoner.py:206 | `s[:n]` is the first `min(n, len(s))` elements |
| EligibilityReasoner.Searched | backend/app/services/eligibility_reasoner.py:171-172 | one hit list per query, in query order |
| EligibilityReasoner.SearchAll | backend/app/services/eligibility_reasoner.py:171-172 | the queries run in order, each giving what it returns |
| EligibilityReasoner.RetrieveContext | backend/app/services/eligibility_reasoner.py:131-206 | the retrieval the step functions describe: twelve queries, the first-wins merge, the retrievals sorted by relevance and cut to twelve |
| EligibilityReasoner.RankedOrder | backend/app/services/eligibility_reasoner.py:202-206 | at most twelve retrievals, the most relevant first, each one of the merge's |
| EligibilityReasoner.FirstWinsMerge | backend/app/services/eligibility_reasoner.py:175-198 | the merge fails exactly when a kept hit's retrieval cannot be built; otherwise its chunks have distinct ids and cover every id of the hits |
| EligibilityReasoner.MergedRetrievalsFromHits | backend/app/services/eligibility_reasoner.py:186-198 | each retrieval is built from a hit whose chunk is kept |
| EligibilityReasoner.MergedIdsDistinct | backend/app/services/eligibility_reasoner.py:181-187 | the kept chunks have distinct ids |
| EligibilityReasoner.MergedIdsCover | backend/app/services/eligibility_reasoner.py:181-187 | a chunk is kept for every id of the hits |
| EligibilityReasoner.RetrievedSpec | backend/app/services/eligibility_reasoner.py:131-206 | the retrieval fails exactly when a kept hit's retrieval cannot be built; otherwise at most twelve retrievals, most relevant first, over chunks of distinct ids covering every hit |
| EligibilityReasoner.SlicedText | backend/app/services/eligibility_reasoner.py:242 | `text[:800]` succeeds exactly on a string or a list, and keeps at most 800 items; a `TypeError` otherwise |
| EligibilityReasoner.ChunkExcerpt | backend/app/services/eligibility_reasoner.py:237-245 | an excerpt can be formatted exactly when the chunk's text can be sliced |
| EligibilityReasoner.AllExcerpts | backend/app/services/eligibility_reasoner.py:237-245 | one excerpt per chunk |
| EligibilityReasoner.PickFromSplits | backend/app/services/eligibility_reasoner.py:246-249 | the two guides' lists together hold every excerpt exactly once |
| EligibilityReasoner.PickFromHas | backend/app/services/eligibility_reasoner.py:246-249 | each excerpt lands on its guide's side |
| EligibilityReasoner.ExcerptsFromFails | backend/app/services/eligibility_reasoner.py:237-249 | the loop fails exactly when some chunk cannot be formatted, with that chunk's error |
| EligibilityReasoner.ExcerptsFromPick | backend/app/services/eligibility_reasoner.py:237-249 | the loop keeps what it gathered and adds each later excerpt to its guide's list, in order |
| EligibilityReasoner.FormatterSlices | backend/app/services/eligibility_reasoner.py:242-245 | a chunk can be formatted exactly when its text can be sliced |
| EligibilityReasoner.PicksHaveAll | backend/app/services/eligibility_reasoner.py:246-249 | every Fannie Mae excerpt is in Fannie Mae's list and every other one in Freddie Mac's |
| EligibilityReasoner.ExcerptsSplit | backend/app/services/eligibility_reasoner.py:237-249 | the excerpts split into the two guides' lists, each in chunk order, every excerpt in exactly one; a `TypeError` exactly when a text cannot be sliced |
| EligibilityReasoner.GuidePartHasExcerpts | backend/app/services/eligibility_reasoner.py:251-259 | every excerpt of a guide appears in its part of the context |
| EligibilityReasoner.ContextHasExcerpt | backend/app/services/eligibility_reasoner.py:251-259 | every excerpt of either guide appears in the context |
| EligibilityReasoner.PromptHolds | backend/app/services/eligibility_reasoner.py:261-264 | the prompt starts with the loan's description and holds the context |
| EligibilityReasoner.PromptHasEveryExcerpt | backend/app/services/eligibility_reasoner.py:208-264 | when every text can be sliced, the prompt starts with the loan's description and holds the excerpt of every chunk |
| EligibilityReasoner.BuildAnalysisPrompt | backend/app/services/eligibility_reasoner.py:208-264 | the loop, the context and the prompt the prompt function describes |
| EligibilityReasoner.StepOf | backend/app/services/eligibility_reasoner.py:336-349 | a step names the product, and its result is `pass` exactly when the rule's result is `pass` (or absent), `fail` otherwise |
| EligibilityReasoner.ViolationOf | backend/app/services/eligibility_reasoner.py:351-361 | a violation is built from string fields with their defaults, the citation falling back on the guide's title-cased name |
| EligibilityReasoner.RuleOutcome | backend/app/services/eligibility_reasoner.py:335-361 | a rule that is not an object is an `AttributeError`; otherwise its step, and one violation exactly when its result is `fail` |
| EligibilityReasoner.StepsOfEach | backend/app/services/eligibility_reasoner.py:335-349 | one step per rule, in order |
| EligibilityReasoner.ViolationsCount | backend/app/services/eligibility_reasoner.py:351-361 | one violation per failed rule |
| EligibilityReasoner.ViolationsOfFailed | backend/app/services/eligibility_reasoner.py:351-361 | each violation is the violation of a failed rule |
| EligibilityReasoner.OutcomeViolation | backend/app/services/eligibility_reasoner.py:351-361 | a rule gives a violation only when it failed, and then its own |
| EligibilityReasoner.CheckRulesSpec | backend/app/services/eligibility_reasoner.py:335-361 | the rule loop appends the rules' steps and violations in order and fails exactly when some rule cannot be read |
| EligibilityReasoner.Eligible | backend/app/services/eligibility_reasoner.py:367 | `eligible` as given, or exactly when there are no violations |
| EligibilityReasoner.DifficultyOf | backend/app/services/eligibility_reasoner.py:375-377 | the difficulty given when it is one of the three, `moderate` otherwise |
| EligibilityReasoner.FixOf | backend/app/services/eligibility_reasoner.py:374-385 | a suggestion that is not an object is an `AttributeError`; otherwise a fix with its difficulty |
| EligibilityReasoner.ConvertedAll | backend/app/services/eligibility_reasoner.py:374-385 | one fix per suggestion, in order |
| EligibilityReasoner.FixesFromSpec | backend/app/services/eligibility_reasoner.py:374-385 | the suggestion loop converts each suggestion in order and fails exactly when one cannot be converted |
| EligibilityReasoner.RulesFor | backend/app/services/eligibility_reasoner.py:333 | rules are read only from a product whose data is an object |
| EligibilityReasoner.ProductOutcomeSpec | backend/app/services/eligibility_reasoner.py:329-372 | a product's result: its name and guide, the violations of its failed rules in order, and eligible as given or exactly when no rule failed, with the steps of its rules appended |
| EligibilityReasoner.TwoProducts | backend/app/services/eligibility_reasoner.py:325-372 | the two products read in turn, each with its own violations, the first's steps before the second's |
| EligibilityReasoner.ConvertedProducts | backend/app/services/eligibility_reasoner.py:325-372 | HomeReady is read first, then Home Possible, with their names and guides |
| EligibilityReasoner.ConvertedFixes | backend/app/services/eligibility_reasoner.py:374-385 | the fixes are the suggestions converted in order; a failing one fails the conversion |
| EligibilityReasoner.OtherResultNoViolation | backend/app/services/eligibility_reasoner.py:343-352 | a result other than `pass` and `fail` records a failed step without a violation |
| EligibilityReasoner.CheckProduct | backend/app/services/eligibility_reasoner.py:329-372 | the rule loop for one product gives the product outcome |
| EligibilityReasoner.ConvertToResults | backend/app/services/eligibility_reasoner.py:315-392 | the product loop, the suggestion loop and the recommendation give the conversion |
| EligibilityReasoner.ConvertedShape | backend/app/services/eligibility_reasoner.py:315-392 | a conversion that succeeds read an object and gives HomeReady's and Home Possible's results in that order |
| EligibilityReasoner.NoSearchNoCheck | backend/app/services/eligibility_reasoner.py:158-169 | when every search raises nothing is retrieved and the eligibility check stops with a `ValueError` before the model |
| EligibilityReasoner.EligibilityShape | backend/app/services/eligibility_reasoner.py:394-454 | a check that succeeds gives HomeReady's and Home Possible's results and at most twelve retrievals, most relevant first |
| EligibilityReasoner.EligibilityReasonerService.EnsureClient | backend/app/services/eligibility_reasoner.py:123-129 | the client is created once, and only with a key; without one a `ValueError` |
| EligibilityReasoner.EligibilityReasonerService.AnalyzeWithModel | backend/app/services/eligibility_reasoner.py:266-313 | a `ValueError` without a client; otherwise the model's answer, unfenced and parsed |
| EligibilityReasoner.EligibilityReasonerService.CheckEligibility | backend/app/services/eligibility_reasoner.py:394-454 | the outcome of retrieval, prompt, model and conversion, with the client created only when the eligibility check reaches the model |
| GuideSections.Next | scripts/parse_fannie_mae_pdf.py:61 | the scan always moves forward |
| GuideSections.FindAll | scripts/parse_fannie_mae_pdf.py:61-67 | the loop appends each match `finditer` yields, in the order found |
| GuideSections.ScanOrdered | scripts/parse_fannie_mae_pdf.py:61-67 | the matches come out left to right, each the pattern's match at its own position |
| GuideSections.RunEnd | scripts/parse_fannie_mae_pdf.py:59 | a greedy run of characters ends at the first character without the property |
| GuideSections.LastNonNewline | scripts/parse_fannie_mae_pdf.py:59 | the last separator a title may start at after backtracking is not a newline |
| GuideSections.TitleStart | scripts/parse_fannie_mae_pdf.py:59 | the title group starts at a title character within or right after its separators |
| GuideSections.TitleEnd | scripts/parse_fannie_mae_pdf.py:59 | the title group `[^\n\(]+` runs as far as it can |
| GuideSections.TitleGroupClean | scripts/parse_fannie_mae_pdf.py:63 | a stripped title group has no outer whitespace, no newline and no parenthesis |
| GuideSections.Slice | scripts/parse_fannie_mae_pdf.py:86 | `text[a:b]` for non-negative bounds, empty when they cross |
| GuideSections.Pieces | scripts/parse_fannie_mae_pdf.py:79-86 | one assignment per header: its id, its title and the stripped text up to the next header or the end |
| GuideSections.GetKeys | scripts/parse_fannie_mae_pdf.py:89 | a key has a value exactly when it is one of the dictionary's keys |
| GuideSections.PutFind | scripts/parse_fannie_mae_pdf.py:93-96 | after assigning a key it holds the new entry and every other key what it held |
| GuideSections.PutKeys | scripts/parse_fannie_mae_pdf.py:93-96 | assigning keeps an existing key's place and puts a new one last |
| GuideSections.FirstIdsSpec | scripts/parse_fannie_mae_pdf.py:79-96 | the ids of the first assignments, each once, are exactly those assigned |
| GuideSections.FileName | scripts/parse_fannie_mae_pdf.py:105-107 | the file name is the id with every `.` turned into `-`, then `.txt` |
| FannieParser.IdSpanAt | scripts/parse_fannie_mae_pdf.py:59 | `[A-E]\d+-\d+(?:\.\d+)?-\d+` recognised at a position gives the id's pieces |
| FannieParser.IdEnd | scripts/parse_fannie_mae_pdf.py:59 | an id found ends after its start |
| FannieParser.SplitThree | scripts/parse_fannie_mae_pdf.py:59 | three pieces without hyphens joined by hyphens split back into them |
| FannieParser.IdFromPieces | scripts/parse_fannie_mae_pdf.py:59 | a letter A to E and three digit pieces, the middle one possibly with a decimal part, make a Selling Guide id |
| FannieParser.SpanIsId | scripts/parse_fannie_mae_pdf.py:59 | the pieces of a recognised id make a Selling Guide id |
| FannieParser.IdEndShape | scripts/parse_fannie_mae_pdf.py:59 | what the id recogniser takes is a Selling Guide id |
| FannieParser.StripDateKeeps | scripts/parse_fannie_mae_pdf.py:65 | a title without a parenthesis has no date to remove |
| FannieParser.MatchSpan | scripts/parse_fannie_mae_pdf.py:59 | the header pattern tried after a newline: the id's end and the title group's bounds |
| FannieParser.HeaderId | scripts/parse_fannie_mae_pdf.py:59-62 | the id a match takes after its newline is a Selling Guide id |
| FannieParser.MatchAt | scripts/parse_fannie_mae_pdf.py:61-67 | a header found is at its match's start, after a newline, with a Selling Guide id and a clean title; the date clean-up has nothing to remove |
| FannieParser.SectionsOrdered | scripts/parse_fannie_mae_pdf.py:48-69 | the headers come out in strictly increasing position and each is well formed |
| FannieParser.FindSections | scripts/parse_fannie_mae_pdf.py:48-69 | every match of the header pattern, left to right |
| FannieParser.KeptStep | scripts/parse_fannie_mae_pdf.py:89-96 | a repeated id replaces the stored section only when its content is strictly longer |
| FannieParser.StoredIndex | scripts/parse_fannie_mae_pdf.py:89-96 | the assignment stored for an id is one of those before |
| FannieParser.KeptStored | scripts/parse_fannie_mae_pdf.py:89-96 | what is stored for an id is the entry of its stored assignment |
| FannieParser.StoredLongest | scripts/parse_fannie_mae_pdf.py:89-96 | the stored assignment is the first of the longest for its id |
| FannieParser.KeptLongest | scripts/parse_fannie_mae_pdf.py:72-98 | an id is stored exactly when some header has it, and what is stored is the first of its sections with the longest content |
| FannieParser.KeptKeys | scripts/parse_fannie_mae_pdf.py:72-98 | the ids are stored in the order they first appear |
| FannieParser.SplitIntoSections | scripts/parse_fannie_mae_pdf.py:72-98 | the loop gives the dictionary of longest sections per id |
| FreddieParser.IdEnd | scripts/parse_freddie_mac.py:61 | `\d{4}\.\d{1,2}:` recognised at a position ends at its colon |
| FreddieParser.MatchSpan | scripts/parse_freddie_mac.py:61 | the header pattern tried after a newline: the id's end and the title group's bounds |
| FreddieParser.IdEndShape | scripts/parse_freddie_mac.py:61 | what the id recogniser takes is four digits, a point and one or two digits |
| FreddieParser.HeaderId | scripts/parse_freddie_mac.py:61-64 | the id a match takes after its newline is a Seller/Servicer Guide id |
| FreddieParser.MatchAt | scripts/parse_freddie_mac.py:63-67 | a header found is at its match's start, after a newline, with a Seller/Servicer Guide id and a clean title |
| FreddieParser.SectionsOrdered | scripts/parse_freddie_mac.py:52-69 | the headers come out in strictly increasing position and each is well formed |
| FreddieParser.FindSections | scripts/parse_freddie_mac.py:52-69 | every match of the header pattern, left to right |
| FreddieParser.LastIndex | scripts/parse_freddie_mac.py:79-91 | the last assignment to an id is one of those before |
| FreddieParser.KeptLastIndex | scripts/parse_freddie_mac.py:79-91 | what is stored for an id is the entry of its last assignment |
| FreddieParser.LastIndexLast | scripts/parse_freddie_mac.py:79-91 | there is a last assignment exactly when the id is assigned |
| FreddieParser.KeptLast | scripts/parse_freddie_mac.py:72-93 | an id is stored exactly when some header has it, and what is stored is its last section |
| FreddieParser.KeptKeys | scripts/parse_freddie_mac.py:72-93 | the ids are stored in the order they first appear: an overwrite keeps the key's place |
| FreddieParser.SplitIntoSections | scripts/parse_freddie_mac.py:72-93 | the loop gives the dictionary of last sections per id |
| GuideIngest.FirstLines | scripts/ingest_guides.py:56 | `content.split("\n")[:5]`: between one and five lines |
| GuideIngest.FindGse | scripts/ingest_guides.py:72-79 | the loop stops at the first `Source:` line and classifies its value, Fannie Mae looked for first |
| GuideIngest.ParseFileMetadata | scripts/ingest_guides.py:45-89 | a file has metadata exactly when its header line gives a section and a `Source:` line names an agency |
| GuideIngest.HeaderLine | scripts/ingest_guides.py:65-70 | the header line of a saved section gives back its id and title |
| GuideIngest.SourceLine | scripts/ingest_guides.py:72-74 | the `Source:` line of a saved section gives back its source |
| GuideIngest.SavedLines | scripts/ingest_guides.py:56 | the first two lines of a saved section are its header line and its `Source:` line |
| GuideIngest.SavedRoundTrip | scripts/ingest_guides.py:45-85 | a section saved by either parser reads back with the id and title of its header and the agency its `Source:` line names |
| GuideIngest.FannieIdPlain | scripts/ingest_guides.py:67-69 | a Selling Guide id holds only letters, digits, points and hyphens, so it survives the header split |
| GuideIngest.FreddieIdPlain | scripts/ingest_guides.py:67-69 | a Seller/Servicer Guide id holds only digits and a point |
| GuideIngest.FannieSource | scripts/ingest_guides.py:75-76 | the Selling Guide's source value names Fannie Mae |
| GuideIngest.FreddieSource | scripts/ingest_guides.py:75-78 | the Seller/Servicer Guide's source value names Freddie Mac and not Fannie Mae |
| GuideIngest.FannieReadBack | scripts/ingest_guides.py:45-85 | a section the Selling Guide parser finds, saved with any content, reads back as a Fannie Mae guide with its id and title |
| GuideIngest.FreddieReadBack | scripts/ingest_guides.py:45-85 | a section the Seller/Servicer Guide parser finds, saved with any content, reads back as a Freddie Mac guide with its id and title |
| GuideIngestRun.RunsPartition | scripts/ingest_guides.py:183-184 | the runs of `range(0, len, n)` put back together give the sequence; each holds between one and `n` elements, all but the last exactly `n` |
| GuideIngestRun.ReadGuideFile | scripts/ingest_guides.py:45-90 | a file whose name starts with `_` is skipped and a file that cannot be read gives none; otherwise its metadata when it has any |
| GuideIngestRun.ReadGuideFiles | scripts/ingest_guides.py:111-118 | the files of a directory in the order listed |
| GuideIngestRun.DiscoverGuideFiles | scripts/ingest_guides.py:92-120 | the three directories in order, a missing one contributing nothing |
| GuideIngestRun.FilesGuidesMember | scripts/ingest_guides.py:111-118 | a guide is read from a directory exactly when one of its files yields it |
| GuideIngestRun.DiscoveredMember | scripts/ingest_guides.py:92-120 | a guide is discovered exactly when a file of an existing directory, its name not starting with `_`, yields it |
| GuideIngestRun.CheckpointFile.Load | scripts/ingest_guides.py:123-131 | the stored set when the checkpoint exists and reads, the empty set otherwise |
| GuideIngestRun.CheckpointFile.Save | scripts/ingest_guides.py:134-139 | the checkpoint then exists and loads back the set written |
| GuideIngestRun.CheckpointFile.Clear | scripts/ingest_guides.py:142-145 | the checkpoint is gone, so loading gives the empty set |
| GuideIngestRun.GuideChunks | scripts/ingest_guides.py:170-176 | one record per chunk, numbered from 0 |
| GuideIngestRun.Texts | scripts/ingest_guides.py:171 | the chunks' texts, in order |
| GuideIngestRun.EmbedBatchesOk | scripts/ingest_guides.py:183-200 | the run succeeds exactly when every batch succeeds on its first or second attempt, with those attempts' vectors in batch order |
| GuideIngestRun.EmbedBatchesCallsAre | scripts/ingest_guides.py:186-196 | each call is to a batch, on its first attempt, or on its second after the first failed |
| GuideIngestRun.EmbedBatchesDistinct | scripts/ingest_guides.py:186-196 | no call is made twice: each batch gets at most one retry |
| GuideIngestRun.EmbedBatchesFailure | scripts/ingest_guides.py:193-198 | a run that fails ends with the second attempt of a batch whose first attempt failed, raising its error |
| GuideIngestRun.EmbedBatchesLength | scripts/ingest_guides.py:183-200 | with one vector per text, a run that succeeds gives one vector per chunk |
| GuideIngestRun.Zipped | scripts/ingest_guides.py:206 | `zip` gives as many records as the shorter list |
| GuideIngestRun.EmbedGuidesRecords | scripts/ingest_guides.py:148-225 | a batch that embeds gives one record per chunk, in order, carrying its chunk's text, index and guide |
| GuideIngestRun.GatherChunks | scripts/ingest_guides.py:162-176 | the chunks of all guides, guide after guide, and their texts |
| GuideIngestRun.EmbedInBatches | scripts/ingest_guides.py:182-200 | the batch loop with its one retry is the run the batch functions describe |
| GuideIngestRun.ChunkAndEmbedBatch | scripts/ingest_guides.py:148-225 | no chunks make no call; otherwise the chunks embedded 20 at a time and zipped into records |
| GuideIngestRun.Remaining | scripts/ingest_guides.py:242-245 | the guides whose file is not in the checkpoint, in order |
| GuideIngestRun.RemainingMember | scripts/ingest_guides.py:242-245 | a guide remains exactly when its file is not in the checkpoint |
| GuideIngestRun.RemainingSplit | scripts/ingest_guides.py:242-245 | every guide either remains or was done already |
| GuideIngestRun.Stored | scripts/ingest_guides.py:256-281 | the batches from the first that store without error; the next one fails |
| GuideIngestRun.IngestBatchesDone | scripts/ingest_guides.py:256-281 | the checkpoint afterwards holds what it held plus the files of exactly the batches that stored; the run succeeds exactly when all store, otherwise with the first failing batch's error |
| GuideIngestRun.ResumeAfterSuccess | scripts/ingest_guides.py:239-249 | after a run that succeeds, resuming finds nothing left to do |
| GuideIngestRun.SuccessDone | scripts/ingest_guides.py:256-275 | a run that stores every batch adds exactly the files of the guides it was given to the checkpoint |
| GuideIngestRun.SkippedCountsDone | scripts/ingest_guides.py:247-249 | the corrected skipped count is the number of guides the checkpoint held, all of them when none remains |
| GuideIngestRun.SkippedAsWrittenStale | scripts/ingest_guides.py:286-290 | a checkpoint naming a file no guide has any more makes the returned count claim one guide skipped when none was |
| GuideIngestRun.IngestRemaining | scripts/ingest_guides.py:253-290 | once some guide remains, the batches run, the checkpoint ends holding the run's set, and the summary is the run's error or its counts with the skipped count as written |
| GuideIngestRun.StoreBatch | scripts/ingest_guides.py:262-270 | one batch: chunk and embed, then upsert only when there are vectors |
| GuideIngestRun.AddSources | scripts/ingest_guides.py:273-274 | the batch's files are added to the set |
| GuideIngestRun.RunBatches | scripts/ingest_guides.py:256-281 | the batch loop is the run the batch functions describe, and the checkpoint then holds its set |
| GuideIngestRun.IngestGuides | scripts/ingest_guides.py:228-290 | the guides not in the checkpoint (none when not resuming) ingested in batches of 50, saving after each stored batch and before an error; the summary counts the guides processed, the vectors stored and, as written, the checkpoint's final size less the guides processed as skipped |
| Scrapers.Search | backend/app/services/scrapers/fannie_mae_scraper.py:75 | `re.search`: the first position where the pattern matches, and none exactly when it matches nowhere |
| Scrapers.ResolveUrl | backend/app/services/scrapers/fannie_mae_scraper.py:97-104 | a link exactly for an href starting with `/`, put after the site's base, or with `http`, kept as it is |
| Scrapers.ResolvedAbsolute | backend/app/services/scrapers/fannie_mae_scraper.py:97-104 | with an `http` base every resolved link is absolute and ends with its href |
| Scrapers.FormatIndex | backend/app/services/scrapers/fannie_mae_scraper.py:129-133 | the first format that parses, none before it parsing |
| Scrapers.ParseDate | backend/app/services/scrapers/fannie_mae_scraper.py:116-135 | none for an empty string; otherwise the stripped text read with the first format that parses it, none exactly when no format does |
| Scrapers.ToSet | backend/app/services/scrapers/fannie_mae_scraper.py:159 | `set(list)` holds exactly the list's elements |
| Scrapers.Gathered | backend/app/services/scrapers/fannie_mae_scraper.py:154-157 | the sections of the first keywords found in the lower-cased title |
| Scrapers.AffectedSections | backend/app/services/scrapers/fannie_mae_scraper.py:137-159 | a section is affected exactly when some keyword of the table that it belongs to occurs in the lower-cased title |
| Scrapers.DetectAffectedSections | backend/app/services/scrapers/fannie_mae_scraper.py:137-159 | the loop extending the list, then the set, gives the affected sections |
| Scrapers.ParsedAll | backend/app/services/scrapers/fannie_mae_scraper.py:54-58 | at most one update per element |
| Scrapers.ParsedMember | backend/app/services/scrapers/fannie_mae_scraper.py:54-58 | an update is kept exactly when some element parses to it |
| Scrapers.CollectUpdates | backend/app/services/scrapers/fannie_mae_scraper.py:54-61 | the updates of the first twenty elements, in order, at most twenty |
| Scrapers.FirstElementsOnly | backend/app/services/scrapers/fannie_mae_scraper.py:54 | elements after the twentieth are never looked at |
| FannieScraper.LetterAt | backend/app/services/scrapers/fannie_mae_scraper.py:75 | `LL-(\d{4})-(\d{1,2})` at a position: `LL-`, four year digits, a hyphen and one or two digits |
| FannieScraper.ZFill2Value | backend/app/services/scrapers/fannie_mae_scraper.py:82 | `zfill(2)` makes the number two digits with the same value |
| FannieScraper.NoLetterNoUpdate | backend/app/services/scrapers/fannie_mae_scraper.py:74-78 | an element gives no update exactly when no `LL-dddd-d` stands in its text |
| FannieScraper.LetterNumberNamesFirst | backend/app/services/scrapers/fannie_mae_scraper.py:75-82 | the update number names the first letter in the text, its number padded to two digits with the same value |
| FannieScraper.TitleCutSummaryWhole | backend/app/services/scrapers/fannie_mae_scraper.py:84-113 | the stored title is the first 500 characters of the title, while the summary carries the whole title after `Fannie Mae <number>: ` |
| FannieScraper.FetchUpdates | backend/app/services/scrapers/fannie_mae_scraper.py:34-69 | the letters of the page's first twenty elements, at most twenty, or the two demo letters when the page cannot be fetched |
| FreddieScraper.BulletinAt | backend/app/services/scrapers/freddie_mac_scraper.py:77 | `(\d{4})-(\d{1,2})` at a position: four year digits, a hyphen and one or two digits; the optional `Bulletin` prefix never changes the groups |
| FreddieScraper.PrefixEnd | backend/app/services/scrapers/freddie_mac_scraper.py:91 | the end of a leading `Bulletin dddd-d - ` prefix, after which no space remains |
| FreddieScraper.PrefixSound | backend/app/services/scrapers/freddie_mac_scraper.py:91 | what the clean-up takes off has the prefix's shape |
| FreddieScraper.PrefixFound | backend/app/services/scrapers/freddie_mac_scraper.py:91 | every prefix of that shape is the one taken off |
| FreddieScraper.CleanBulletinTitle | backend/app/services/scrapers/freddie_mac_scraper.py:91 | the clean-up removes at most one leading prefix and leaves a title not starting with `Bulletin` as it is |
| FreddieScraper.PrefixRemoved | backend/app/services/scrapers/freddie_mac_scraper.py:91 | a title of the prefix's shape loses exactly the prefix |
| FreddieScraper.DefaultTitleKept | backend/app/services/scrapers/freddie_mac_scraper.py:87-91 | the title made from the number has no separator and is kept whole |
| FreddieScraper.NoBulletinNoUpdate | backend/app/services/scrapers/freddie_mac_scraper.py:74-82 | an element gives no update exactly when no `dddd-d` stands in its text |
| FreddieScraper.BulletinNumberNamesFirst | backend/app/services/scrapers/freddie_mac_scraper.py:77-85 | the update number names the first bulletin in the text, as written there |
| FreddieScraper.TitleCutSummaryWhole | backend/app/services/scrapers/freddie_mac_scraper.py:86-119 | the stored title is the first 500 characters of the cleaned title, while the summary carries the whole cleaned title, in which the sections are found |
| FreddieScraper.FamilyPointsToHomePossible | backend/app/services/scrapers/freddie_mac_scraper.py:143-166 | the keyword `ami` matches inside words: any title with "family" in it points to section 4501.5 |
| FreddieScraper.FetchUpdates | backend/app/services/scrapers/freddie_mac_scraper.py:34-70 | the bulletins of the page's first twenty elements, at most twenty, or the demo bulletins when the page cannot be fetched |
| GuideAnalysis.FannieRefAt | scripts/parse_guide_pdfs.py:86-89 | a match of `\b([A-E]\d+-\d+-\d+)\b` is at its position and ends after it |
| GuideAnalysis.FannieSpanAt | scripts/parse_guide_pdfs.py:86 | the three digit runs of a match, hyphens between |
| GuideAnalysis.FannieRefSound | scripts/parse_guide_pdfs.py:86-90 | what is matched runs to a word boundary, is a Selling Guide id without a decimal part and stands in the text at its position |
| GuideAnalysis.FannieRefComplete | scripts/parse_guide_pdfs.py:86-90 | every word-bounded reference of that shape is the one matched there |
| GuideAnalysis.FreddieRefAt | scripts/parse_guide_pdfs.py:102-105 | a match of `\b(\d{4}\.\d{1,2})\b` is at its position and ends after it |
| GuideAnalysis.FreddieRefExact | scripts/parse_guide_pdfs.py:102-106 | a match is exactly a word-bounded Seller/Servicer Guide id in the text there |
| GuideAnalysis.FreddieRefSound | scripts/parse_guide_pdfs.py:102-106 | what is matched is a word-bounded Seller/Servicer Guide id |
| GuideAnalysis.Refs | scripts/parse_guide_pdfs.py:89-90 | one reference per match: its id and its offset |
| GuideAnalysis.FannieRefsSpec | scripts/parse_guide_pdfs.py:79-92 | each Selling Guide reference is a word-bounded id at its offset, left to right |
| GuideAnalysis.FreddieRefsSpec | scripts/parse_guide_pdfs.py:95-108 | each Seller/Servicer Guide reference is a word-bounded id at its offset, left to right |
| GuideAnalysis.FindSectionHeadersFannie | scripts/parse_guide_pdfs.py:79-92 | the loop appends each match with its start |
| GuideAnalysis.FindSectionHeadersFreddie | scripts/parse_guide_pdfs.py:95-108 | the loop appends each match with its start |
| GuideAnalysis.PageAt | scripts/parse_guide_pdfs.py:71 | `pdf.pages[i]` succeeds exactly for an index within minus the page count and the page count |
| GuideAnalysis.WithText | scripts/parse_guide_pdfs.py:73-74 | the pages of the range that have text, in order |
| GuideAnalysis.SampleEnd | scripts/parse_guide_pdfs.py:68 | the end page is `min(start + num, page count)` |
| GuideAnalysis.BlocksOfPages | scripts/parse_guide_pdfs.py:70-74 | from a non-negative start, one block per page with text in the range, numbered by its page |
| GuideAnalysis.BlocksReadRange | scripts/parse_guide_pdfs.py:70-74 | pages outside the range are never read |
| GuideAnalysis.SampleReadsRange | scripts/parse_guide_pdfs.py:63-76 | from a non-negative start the sample never fails and reads only pages before `min(start + num, page count)` |
| GuideAnalysis.BlocksBeforeFirst | scripts/parse_guide_pdfs.py:70-71 | from a negative index an `IndexError` exactly when the range reaches before the first page or past the last |
| GuideAnalysis.SampleFails | scripts/parse_guide_pdfs.py:63-76 | the sample fails exactly when its range is not empty and starts before minus the page count |
| GuideAnalysis.ExtractSample | scripts/parse_guide_pdfs.py:63-76 | the page loop gives the sample text |
| GuideAnalysis.BlocksErrStays | scripts/parse_guide_pdfs.py:70-71 | once a page cannot be read, a longer range fails too |
| GuideAnalysis.FirstPages | scripts/parse_guide_pdfs.py:49 | `pdf.pages[:max_pages]` when a limit is given and not zero, every page otherwise |
| GuideAnalysis.FullTextIsSample | scripts/parse_guide_pdfs.py:44-60 | the full text with a page limit is the sample of that many pages from the first |
| GuideAnalysis.UniqueSections | scripts/parse_guide_pdfs.py:132 | the ids found, each once, in strictly increasing order |
| GuideAnalysis.AnalyzePdfStructure | scripts/parse_guide_pdfs.py:111-141 | the page count, the length of the first 50 pages' sample, and the ids of the guide's headers in it, sorted without duplicates; the sample from page 0 never fails |
| Sorting.SortBy | backend/app/services/rules_engine.py:674 | `list.sort(key=...)`: sorted by the key, a permutation of the input |
| Sorting.SortByStable | backend/app/services/rules_engine.py:674 | the sort is stable: the elements sharing a key keep their original order |
| Sorting.SortBySorted | backend/app/services/rules_engine.py:674 | a list already in key order is left as it is |
| Sorting.InsertSorted | backend/app/services/rules_engine.py:674 | inserting into a sorted list keeps it sorted |
| Sorting.StrLessTotal | scripts/parse_guide_pdfs.py:132 | Python's string order is total on distinct strings |
| Sorting.SortedSet | scripts/parse_guide_pdfs.py:132 | `sorted(set(s))`: strictly increasing, holding exactly the elements of `s` |
| Sorting.SortedSetDistinct | scripts/parse_guide_pdfs.py:132 | the sorted set repeats no element |

## Left out

- Network and HTTP: the scrapers get the elements already selected (each one's text, title, date and first link) or the error the request raised. BeautifulSoup's CSS selection is not part of this model.
- PDF reading: pdfplumber's page text arrives as a sequence of page strings.
- Sleeps and rate-limit delays, logging and `print`, `time.time` measurements (`retrieval_time_ms`, `duration_ms` and the like), `lru_cache` singletons and asyncio concurrency: `asyncio.gather` is modelled as running the calls one after the other in query order.
- `round()` and f-string number formatting: money and percentages are kept as numbers with the format they are shown in (`Display.Shown`). The router's range check uses the unrounded ratios.
- md5 hashing, the tiktoken tokenizer, `json.loads`/`json.dumps`, `datetime.strptime` and the embedding and LLM calls are function-type parameters. `date.today()` is a parameter.
- Unicode character classes: `\d`, `\w`, `str.lower`, `str.upper` and `str.isdigit` are modelled on ASCII.
- The order of `list(set(...))` is modelled as the order of first occurrence, since Python does not fix it.
- Exceptions raised while an element is parsed, other than the ones the code catches, are not modelled.
- The `main()` functions and `__main__` blocks of the scripts. scripts/scrape_fannie_mae.py and scripts/scrape_guides.py are not part of this model. The first writes a `Source: <url>` header that the ingest parser does not read.
- A checkpoint file that is not valid JSON is modelled as an unreadable checkpoint, which is how the loader treats it.
- Floating point: Python floats are modelled as exact reals, so float rounding in ratios, payments and costs is not modelled.
- EligibilityReasoner.CheckEligibility: does not model the usage record it writes (backend/app/services/eligibility_reasoner.py:440-452) or its timings.
- Rag: the answering model's reply is a parameter, and only how it is used is modelled.
- FixFinderTools: `compare_products` comes in as a parameter (`Services.comparison`).
- Embedding.ChunkText: requires 0 <= overlap < size and so covers only those parameters. With an overlap of at least the size, the source loop can stop advancing and then runs until its early break fires, if ever. A negative overlap or a size below one is not modelled either.
- Chat: the database-backed conversation history and message saving are left out. Only the in-memory bounded store is modelled, with its `KeyError` path.
- LlmUsage: `get_usage_summary` (backend/app/services/llm_usage_service.py:250-357) and the usage router are not part of this model; they are database reporting queries.
- pinecone_service.py, base_scraper.py, db/models.py and db/connection.py are not part of this model.
- config.py and main.py are not part of this model. Their defaults are taken as constants, for example three ReAct iterations.
- models/chat.py and models/policy.py are plain records and appear only as datatypes.
- scripts/test_scenarios.py is not part of this model except for the expected outcomes of its scenarios, which are stated as lemmas. Its HTTP harness is left out.
- `extract_pdf_info` and `save_full_text` in scripts/parse_guide_pdfs.py are not part of this model; they only write files.
- The wording of the prompts and the correctness of model answers are out of scope.

## Findings

| source | as written | input that shows it | evidently intended | confidence | as-written member | corrected member |
|---|---|---|---|---|---|---|
| backend/app/services/rules_engine.py:633-642 | the price reduction is `property_value - loan_amount / target_ltv`, which is never positive when an extra down payment is needed, so the price-cut fix is never offered | value 100,000, loan 99,000, single family (LTV 0.99): only the down-payment fix is suggested | the price at which the current down payment reaches the target LTV, `current_down / (1 - target_ltv)` | not executed | RulesEngine.AsWrittenNeverNegotiates | RulesEngine.LtvFixesReachTarget |
| backend/app/services/fix_finder_service.py:835-886 | the success is recorded before `FixFinderResult` is built, so when the build raises, the `except` branch records a failure as well | a final answer whose `recommended_path` is `{"primary_recommendation": 1.0}`: two usage records are written and the failure result is returned | one usage record per run | not executed | FixFinder.DoubleRecordAsWritten | FixFinder.OneRecordPerRun |
| scripts/ingest_guides.py:289 | the skipped count is `len(processed_files) - len(remaining)` | a checkpoint naming `stale.txt`, which no guide file has: one guide is reported skipped when none was | the number of guides already done | not executed | GuideIngestRun.SkippedAsWrittenStale | GuideIngestRun.SkippedCountsDone |
