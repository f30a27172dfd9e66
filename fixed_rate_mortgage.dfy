/**
 * com.realestate.mortgage.FixedRateMortgage: an AbstractMortgage whose
 * constructor validates through the inherited setters, and whose payment,
 * cost, interest and balance are closed-form expressions over its fields.
 * The closed forms built on Math.pow are parameters.
 */
module FixedRate {
  import opened Wrappers
  import opened MortgageBase
  import opened JavaMath

  /** The state a successful construction leaves. */
  datatype Terms = Terms(principal: real, interestRate: real, term: Int32)

  /**
   * The outcome of the four-argument constructor: setPrincipal, then
   * setInterestRate, then setTerm, the first failing setter's error winning.
   */
  function Construct(principal: real, interestRate: real, term: Int32, termType: string): (r: Result<Terms, MortgageError>)
    ensures r.Success? <==> principal > 0.0 && interestRate > 0.0 && term > 0 && (IsYears(termType) || IsMonths(termType))
    ensures principal <= 0.0 ==> r == Failure(NonPositivePrincipal)
    ensures principal > 0.0 && interestRate <= 0.0 ==> r == Failure(NonPositiveRate)
    ensures principal > 0.0 && interestRate > 0.0 && ValidatedTerm(term, termType).Failure? ==>
              r == Failure(ValidatedTerm(term, termType).error)
    ensures r.Success? ==> r.value.principal == principal && r.value.interestRate == interestRate
                           && r.value.term == ValidatedTerm(term, termType).value
  {
    if principal <= 0.0 then Failure(NonPositivePrincipal)
    else if interestRate <= 0.0 then Failure(NonPositiveRate)
    else match ValidatedTerm(term, termType)
      case Failure(e) => Failure(e)
      case Success(t) => Success(Terms(principal, interestRate, t))
  }

  /** A term in years and the same term in months construct the same mortgage. */
  lemma YearsConstructionMatchesMonths(principal: real, interestRate: real, years: Int32)
    requires INT_MIN <= years * 12 <= INT_MAX
    ensures Construct(principal, interestRate, years, "y") == Construct(principal, interestRate, years * 12, "m")
  {
    YearsAgreeWithMonths(years);
  }

  /** n equal payments of x, added one month at a time. */
  function RepeatedPayment(x: real, n: int): real
    decreases n
  {
    if n <= 0 then 0.0 else RepeatedPayment(x, n - 1) + x
  }

  lemma {:induction false} RepeatedPaymentIsProduct(x: real, n: int)
    ensures n >= 0 ==> RepeatedPayment(x, n) == x * n as real
    decreases n
  {
    if n > 0 {
      RepeatedPaymentIsProduct(x, n - 1);
      assert x * (n - 1) as real + x == x * n as real;
    }
  }

  class FixedRateMortgage {
    /** The inherited AbstractMortgage part. */
    const base: AbstractMortgage

    /** What every constructed mortgage satisfies. */
    ghost predicate Valid()
      reads base
    {
      base.principal > 0.0 && base.interestRate > 0.0
    }

    /** The fields as a Terms value. */
    ghost function State(): Terms
      reads base
    {
      Terms(base.principal, base.interestRate, base.term)
    }

    constructor Wrap(base: AbstractMortgage)
      ensures this.base == base
    {
      this.base := base;
    }

    /** FixedRateMortgage(principal, interestRate, term, termType). */
    static method New(principal: real, interestRate: real, term: Int32, termType: string)
      returns (r: Result<FixedRateMortgage, MortgageError>)
      ensures Construct(principal, interestRate, term, termType).Failure? ==>
                r == Failure(Construct(principal, interestRate, term, termType).error)
      ensures Construct(principal, interestRate, term, termType).Success? ==>
                && r.Success? && fresh(r.value) && fresh(r.value.base) && r.value.Valid()
                && r.value.State() == Construct(principal, interestRate, term, termType).value
    {
      var b := new AbstractMortgage();
      var res := b.SetPrincipal(principal);
      if res.Fail? {
        return Failure(res.error);
      }
      res := b.SetInterestRate(interestRate);
      if res.Fail? {
        return Failure(res.error);
      }
      res := b.SetTerm(term, termType);
      if res.Fail? {
        return Failure(res.error);
      }
      var m := new FixedRateMortgage.Wrap(b);
      r := Success(m);
    }

    /** FixedRateMortgage(principal, interestRate, term): the term is in years. */
    static method NewInYears(principal: real, interestRate: real, term: Int32)
      returns (r: Result<FixedRateMortgage, MortgageError>)
      ensures Construct(principal, interestRate, term, "y").Failure? ==>
                r == Failure(Construct(principal, interestRate, term, "y").error)
      ensures Construct(principal, interestRate, term, "y").Success? ==>
                && r.Success? && fresh(r.value) && fresh(r.value.base) && r.value.Valid()
                && r.value.State() == Construct(principal, interestRate, term, "y").value
    {
      r := New(principal, interestRate, term, "y");
    }

    /** The monthly rate both the payment and the balance use. */
    function MonthlyInterestRate(): (r: real)
      reads base
      ensures Valid() ==> r > 0.0
    {
      base.interestRate / 12.0
    }

    /** The annuity payment at the monthly rate over the whole term. */
    function CalculateMonthlyPayment(annuity: Annuity): real
      reads base
    {
      annuity(base.principal, MonthlyInterestRate(), base.term)
    }

    /** What is paid beyond the principal. */
    function CalculateTotalInterest(annuity: Annuity): (interest: real)
      reads base
      ensures interest == CalculateTotalCost(annuity) - base.principal
    {
      CalculateMonthlyPayment(annuity) * base.term as real - base.principal
    }

    /** Everything paid: the monthly payment once for each month of the term. */
    function CalculateTotalCost(annuity: Annuity): (cost: real)
      reads base
      ensures base.term >= 0 ==> cost == RepeatedPayment(CalculateMonthlyPayment(annuity), base.term)
    {
      RepeatedPaymentIsProduct(CalculateMonthlyPayment(annuity), base.term);
      CalculateMonthlyPayment(annuity) * base.term as real
    }

    /** principal * (1 + r)^k - payment * ((1 + r)^k - 1) / r for monthly rate r. */
    function CalculateRemainingBalance(annuity: Annuity, pow: Power, monthsPaid: Int32): real
      requires Valid()
      reads base
    {
      var r := MonthlyInterestRate();
      base.principal * pow(1.0 + r, monthsPaid as real)
        - CalculateMonthlyPayment(annuity) * (pow(1.0 + r, monthsPaid as real) - 1.0) / r
    }

    /** Before any payment (given (1 + r)^0 = 1) the whole principal is owed. */
    lemma NothingPaidAtStart(annuity: Annuity, pow: Power)
      requires Valid()
      requires pow(1.0 + MonthlyInterestRate(), 0.0) == 1.0
      ensures CalculateRemainingBalance(annuity, pow, 0) == base.principal
    {
    }

    /**
     * When the annuity is the closed form principal * r / (1 - (1 + r)^-term)
     * and the power behaves as one on 1 + r, the loan is paid off at the term.
     */
    lemma PaidOffAtTerm(annuity: Annuity, pow: Power)
      requires Valid()
      requires pow(1.0 + MonthlyInterestRate(), base.term as real) != 1.0
      requires pow(1.0 + MonthlyInterestRate(), -(base.term as real))
               * pow(1.0 + MonthlyInterestRate(), base.term as real) == 1.0
      requires annuity(base.principal, MonthlyInterestRate(), base.term)
               == base.principal * MonthlyInterestRate()
                  / (1.0 - pow(1.0 + MonthlyInterestRate(), -(base.term as real)))
      ensures CalculateRemainingBalance(annuity, pow, base.term) == 0.0
    {
      var p, r := base.principal, MonthlyInterestRate();
      var q := pow(1.0 + r, base.term as real);
      var a := pow(1.0 + r, -(base.term as real));
      var payment := CalculateMonthlyPayment(annuity);
      assert a * q == 1.0;
      assert 1.0 - a != 0.0;
      assert payment * (1.0 - a) == p * r;
      assert payment * (q - 1.0) == p * r * q by {
        assert payment * (1.0 - a) * q == payment * q - payment * (a * q);
        assert payment * (a * q) == payment;
      }
      assert payment * (q - 1.0) / r == p * q;
    }

    /** The total cost is the payment times the term, and it exceeds the total interest by the principal. */
    lemma CostAndInterest(annuity: Annuity)
      ensures CalculateTotalCost(annuity) == CalculateMonthlyPayment(annuity) * base.term as real
      ensures CalculateTotalCost(annuity) - CalculateTotalInterest(annuity) == base.principal
    {
    }

    /** Payment and remaining balance depend on principal, rate and term only. */
    lemma DependsOnTermsOnly(other: FixedRateMortgage, annuity: Annuity, pow: Power, monthsPaid: Int32)
      requires Valid() && other.Valid() && State() == other.State()
      ensures CalculateMonthlyPayment(annuity) == other.CalculateMonthlyPayment(annuity)
      ensures CalculateRemainingBalance(annuity, pow, monthsPaid) == other.CalculateRemainingBalance(annuity, pow, monthsPaid)
    {
    }
  }
}
