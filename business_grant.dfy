/**
 * The COVID-19 small-business grant rules of the NSW business package
 * (variables/business_grant.py): the eligibility predicate
 * `eligible_for_covid_19_business_grant` and the derived variable
 * `turnover_calculations` it reads.
 *
 * One value of `Organisation` is one organisation's inputs for one month;
 * the external parameter `payroll_threshold` is passed in explicitly.
 */
module BusinessGrant {

  /** The arithmetic failure the turnover formula can raise. */
  datatype ArithmeticError = DivisionByZero

  /** A value, or the arithmetic error that stopped its computation. */
  datatype Result<T> = Ok(value: T) | Err(error: ArithmeticError)

  /** The input variables of one organisation for one month. */
  datatype Organisation = Organisation(
    isSmallBusiness: bool,
    hasAbn: bool,
    highlyImpacted: bool,
    basedInNsw: bool,
    numberOfFte: int,
    annualTurnover: int,
    payroll: int,
    // Declared `bool` in the source although used as turnover amounts.
    lowestTurnoverForTwoWeeks: bool,
    correspondingTurnoverLastYear: bool
  )

  /** Default values of the two turnover proxies. */
  const DefaultLowestTurnoverForTwoWeeks: bool := true
  const DefaultCorrespondingTurnoverLastYear: bool := true

  /** Thresholds written into the eligibility formula. */
  const MinFte: real := 0.5
  const MaxFte: int := 20
  const MinAnnualTurnover: int := 75000
  const MinTurnoverCalculations: real := 0.75

  /** Number of clauses multiplied together by the eligibility formula. */
  const ClauseCount: nat := 9

  /** A boolean used as a number: False is 0, True is 1. */
  function BoolAsReal(b: bool): (r: real)
    ensures r == 0.0 || r == 1.0
    ensures r == 1.0 <==> b
  {
    if b then 1.0 else 0.0
  }

  // ---------------------------------------------------------------------
  // Eligibility
  // ---------------------------------------------------------------------

  /**
   * The nine factors of the eligibility product, in the order the formula
   * lists them. `number_of_fte` is an integer compared against the
   * fractional bound 0.5.
   */
  function Clauses(org: Organisation, payrollThreshold: real, turnoverCalculations: real): (cs: seq<bool>)
    ensures |cs| == ClauseCount
    ensures cs[3] <==> 1 <= org.numberOfFte
    ensures cs[4] <==> org.numberOfFte <= MaxFte - 1
  {
    [ org.isSmallBusiness,
      org.hasAbn,
      org.highlyImpacted,
      org.numberOfFte as real > MinFte,
      org.numberOfFte < MaxFte,
      org.annualTurnover > MinAnnualTurnover,
      org.basedInNsw,
      org.payroll as real < payrollThreshold,
      turnoverCalculations > MinTurnoverCalculations ]
  }

  /**
   * The left-associated product `((c0 * c1) * c2) * ...` of boolean
   * factors, which on booleans is their conjunction.
   */
  function Product(cs: seq<bool>): bool
  {
    if |cs| == 0 then true else Product(cs[..|cs| - 1]) && cs[|cs| - 1]
  }

  /** The product of boolean factors is true exactly when every factor is. */
  lemma {:induction false} ProductIffAll(cs: seq<bool>)
    ensures Product(cs) <==> forall i :: 0 <= i < |cs| ==> cs[i]
  {
    if |cs| > 0 {
      var init := cs[..|cs| - 1];
      ProductIffAll(init);
      assert forall i :: 0 <= i < |init| ==> init[i] == cs[i];
    }
  }

  /** A single false factor makes the whole product false. */
  lemma FalseFactorFalsifiesProduct(cs: seq<bool>, i: int)
    requires 0 <= i < |cs| && !cs[i]
    ensures !Product(cs)
  {
  }

  /**
   * `eligible_for_covid_19_business_grant` for one organisation and month:
   * the product of the nine clauses. Eligible exactly when all nine hold.
   */
  function Eligible(org: Organisation, payrollThreshold: real, turnoverCalculations: real): (r: bool)
    ensures r <==>
      && org.isSmallBusiness
      && org.hasAbn
      && org.highlyImpacted
      && 1 <= org.numberOfFte <= 19
      && org.annualTurnover > 75000
      && org.basedInNsw
      && (org.payroll as real) < payrollThreshold
      && turnoverCalculations > 0.75
  {
    var cs := Clauses(org, payrollThreshold, turnoverCalculations);
    ProductIffAll(cs);
    assert (forall i :: 0 <= i < |cs| ==> cs[i]) <==>
      cs[0] && cs[1] && cs[2] && cs[3] && cs[4] && cs[5] && cs[6] && cs[7] && cs[8];
    Product(cs)
  }

  /** Falsifying any one of the nine clauses makes the organisation ineligible. */
  lemma AnyFalseClauseIneligible(org: Organisation, payrollThreshold: real, turnoverCalculations: real, i: int)
    requires 0 <= i < ClauseCount
    requires !Clauses(org, payrollThreshold, turnoverCalculations)[i]
    ensures !Eligible(org, payrollThreshold, turnoverCalculations)
  {
  }

  /**
   * The FTE clauses on an integer count: eligibility needs 1 <= fte <= 19,
   * so 0 and 20 employees are both ineligible.
   */
  lemma FteBounds(org: Organisation, payrollThreshold: real, turnoverCalculations: real)
    ensures Eligible(org, payrollThreshold, turnoverCalculations) ==> 1 <= org.numberOfFte <= 19
    ensures !Eligible(org.(numberOfFte := 0), payrollThreshold, turnoverCalculations)
    ensures !Eligible(org.(numberOfFte := 20), payrollThreshold, turnoverCalculations)
  {
  }

  /** The annual-turnover clause is strict: 75000 fails, 75001 passes. */
  lemma AnnualTurnoverBoundary(org: Organisation, payrollThreshold: real, turnoverCalculations: real)
    ensures !Eligible(org.(annualTurnover := 75000), payrollThreshold, turnoverCalculations)
    ensures Eligible(org, payrollThreshold, turnoverCalculations) ==>
              Eligible(org.(annualTurnover := 75001), payrollThreshold, turnoverCalculations)
  {
  }

  /** The payroll clause is strict: a payroll equal to the threshold fails. */
  lemma PayrollBoundary(org: Organisation, turnoverCalculations: real)
    ensures !Eligible(org, org.payroll as real, turnoverCalculations)
  {
  }

  /** The turnover clause is strict: exactly 0.75 fails. */
  lemma TurnoverBoundary(org: Organisation, payrollThreshold: real)
    ensures !Eligible(org, payrollThreshold, 0.75)
  {
  }

  /** The worked scenario: a ten-employee NSW business with turnover 100000. */
  lemma ScenarioEligible()
    ensures Eligible(Organisation(true, true, true, true, 10, 100000, 1000, true, true), 2000.0, 0.8)
  {
  }

  // ---------------------------------------------------------------------
  // turnover_calculations
  // ---------------------------------------------------------------------

  /**
   * The formula `current - last_year / last_year` as written: division binds
   * tighter than subtraction, so the result is `current - 1`.
   */
  function TurnoverDiff(current: real, lastYear: real): (r: real)
    requires lastYear != 0.0
    ensures r == current - 1.0
  {
    current - lastYear / lastYear
  }

  /** The literal reading of the formula with a current value of 0.9. */
  lemma TurnoverDiffExample()
    ensures TurnoverDiff(0.9, 1.0) == -0.1
  {
  }

  /**
   * `turnover_calculations` from the two boolean turnover proxies. A False
   * baseline is a zero divisor and yields `DivisionByZero`; otherwise the
   * value is -1 or 0, and 0 exactly when the current proxy is True.
   */
  function TurnoverCalculations(org: Organisation): (r: Result<real>)
    ensures r.Err? <==> !org.correspondingTurnoverLastYear
    ensures r.Ok? ==> (r.value == -1.0 || r.value == 0.0)
    ensures r.Ok? ==> (r.value == 0.0 <==> org.lowestTurnoverForTwoWeeks)
  {
    var lastYear := BoolAsReal(org.correspondingTurnoverLastYear);
    if lastYear == 0.0 then Err(DivisionByZero)
    else Ok(TurnoverDiff(BoolAsReal(org.lowestTurnoverForTwoWeeks), lastYear))
  }

  /** With both proxies at their default True, the formula gives exactly 0. */
  lemma DefaultTurnoverIsZero(org: Organisation)
    requires org.lowestTurnoverForTwoWeeks == DefaultLowestTurnoverForTwoWeeks
    requires org.correspondingTurnoverLastYear == DefaultCorrespondingTurnoverLastYear
    ensures TurnoverCalculations(org) == Ok(0.0)
  {
  }

  /**
   * Whenever `turnover_calculations` comes from its formula, the turnover
   * clause fails, so no organisation is eligible, whatever its other inputs.
   */
  lemma FormulaTurnoverNeverEligible(org: Organisation, payrollThreshold: real)
    requires TurnoverCalculations(org).Ok?
    ensures !Eligible(org, payrollThreshold, TurnoverCalculations(org).value)
  {
  }

  /**
   * Eligibility with `turnover_calculations` computed by its formula rather
   * than supplied: an error when the baseline proxy is False, and never true.
   */
  function EligibleWithFormula(org: Organisation, payrollThreshold: real): (r: Result<bool>)
    ensures r.Err? <==> !org.correspondingTurnoverLastYear
    ensures r.Ok? ==> !r.value
  {
    match TurnoverCalculations(org)
    case Err(e) => Err(e)
    case Ok(tc) => Ok(Eligible(org, payrollThreshold, tc))
  }

  // ---------------------------------------------------------------------
  // The turnover decline the variable's label describes
  // ---------------------------------------------------------------------

  /**
   * The fraction by which the current turnover fell short of last year's:
   * `(last_year - current) / last_year`, on turnover amounts.
   */
  function TurnoverDecline(current: real, lastYear: real): (r: real)
    requires lastYear != 0.0
    ensures current == lastYear * (1.0 - r)
  {
    (lastYear - current) / lastYear
  }

  /**
   * With a positive baseline, the decline exceeds 0.75 exactly when the
   * current turnover is below a quarter of last year's.
   */
  lemma DeclineClauseIff(current: real, lastYear: real)
    requires lastYear > 0.0
    ensures TurnoverDecline(current, lastYear) > 0.75 <==> current < lastYear / 4.0
  {
  }

  /**
   * Eligibility with the turnover clause fed by the decline fraction of two
   * turnover amounts; a zero baseline is a division error.
   */
  function EligibleWithDecline(org: Organisation, payrollThreshold: real, current: real, lastYear: real): (r: Result<bool>)
    ensures r.Err? <==> lastYear == 0.0
    ensures lastYear > 0.0 ==> r.Ok? && (r.value <==>
              Eligible(org, payrollThreshold, 1.0) && current < lastYear / 4.0)
  {
    if lastYear == 0.0 then Err(DivisionByZero)
    else
      var decline := TurnoverDecline(current, lastYear);
      Ok(Eligible(org, payrollThreshold, decline))
  }

  /** Unlike the formula as written, the decline does admit eligible organisations. */
  lemma DeclineCanBeEligible()
    ensures EligibleWithDecline(Organisation(true, true, true, true, 10, 100000, 1000, true, true), 2000.0, 10000.0, 100000.0) == Ok(true)
  {
  }
}
