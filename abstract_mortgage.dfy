/**
 * The shared state and validation of com.realestate.mortgage.AbstractMortgage:
 * principal, annual interest rate and a term held in months, set through
 * validating setters, plus the AmortizationEntry record.
 */
module MortgageBase {
  import opened Wrappers

  const INT_MIN: int := -0x8000_0000
  const INT_MAX: int := 0x7fff_ffff

  /** Java's int. */
  type Int32 = x: int | INT_MIN <= x <= INT_MAX

  /**
   * The payment formula principal * r / (1 - (1 + r)^-term) for monthly rate r
   * that both mortgage kinds compute, kept abstract and supplied by the caller.
   */
  type Annuity = (real, real, Int32) -> real

  /** Two's-complement wrap-around of a Java int multiplication result. */
  function Wrap32(x: int): (r: Int32)
    ensures INT_MIN <= x <= INT_MAX ==> r == x
    ensures (x - r) % 0x1_0000_0000 == 0
  {
    (x - INT_MIN) % 0x1_0000_0000 + INT_MIN
  }

  /** The IllegalArgumentException messages of the mortgage classes. */
  datatype MortgageError =
    | NonPositivePrincipal
    | NonPositiveRate
    | NonPositiveTerm
    | InvalidTermType
    | NonPositiveMonth
    | MonthExceedsTerm

  /** "y".equalsIgnoreCase(termType) */
  predicate IsYears(termType: string)
  {
    termType == "y" || termType == "Y"
  }

  /** "m".equalsIgnoreCase(termType) */
  predicate IsMonths(termType: string)
  {
    termType == "m" || termType == "M"
  }

  /**
   * The unit conversion shared by the mortgage classes: a term in years is
   * multiplied by 12 (with int wrap-around), a term in months is kept, and any
   * other unit is rejected.
   */
  function ConvertTerm(term: Int32, termType: string): (r: Result<Int32, MortgageError>)
    ensures r.Success? <==> IsYears(termType) || IsMonths(termType)
    ensures r.Failure? ==> r.error == InvalidTermType
    ensures IsYears(termType) && term * 12 <= INT_MAX && INT_MIN <= term * 12 ==> r.value == term * 12
    ensures IsMonths(termType) ==> r.value == term
  {
    if IsYears(termType) then Success(Wrap32(term * 12))
    else if IsMonths(termType) then Success(term)
    else Failure(InvalidTermType)
  }

  /** What AbstractMortgage.setTerm stores: a positive term converted to months. */
  function ValidatedTerm(term: Int32, termType: string): (r: Result<Int32, MortgageError>)
    ensures r.Success? <==> term > 0 && (IsYears(termType) || IsMonths(termType))
    ensures term <= 0 ==> r == Failure(NonPositiveTerm)
    ensures term > 0 && !(IsYears(termType) || IsMonths(termType)) ==> r == Failure(InvalidTermType)
    ensures term > 0 ==> r == ConvertTerm(term, termType)
  {
    if term <= 0 then Failure(NonPositiveTerm) else ConvertTerm(term, termType)
  }

  /** A successfully set term is positive, provided a term in years does not overflow when multiplied by 12. */
  lemma ValidatedTermIsPositive(term: Int32, termType: string)
    requires IsYears(termType) ==> term * 12 <= INT_MAX
    requires ValidatedTerm(term, termType).Success?
    ensures ValidatedTerm(term, termType).value > 0
  {
  }

  /** Without that proviso the stored term can wrap to a negative number of months. */
  lemma ValidatedTermCanOverflow()
    ensures ValidatedTerm(178956971, "y") == Success(-2147483644)
  {
    assert 178956971 * 12 - 0x1_0000_0000 == -2147483644;
    assert Wrap32(178956971 * 12) == -2147483644;
  }

  /** A term in years and the same term in months store the same number of months. */
  lemma YearsAgreeWithMonths(years: Int32)
    requires INT_MIN <= years * 12 <= INT_MAX
    ensures ConvertTerm(years, "y") == ConvertTerm(years * 12, "m")
  {
  }

  /** The protected fields of AbstractMortgage and its validating setters. */
  class AbstractMortgage {
    var principal: real
    var interestRate: real
    var term: Int32

    /** Java's implicit field defaults. */
    constructor ()
      ensures principal == 0.0 && interestRate == 0.0 && term == 0
    {
      principal, interestRate, term := 0.0, 0.0, 0;
    }

    method SetPrincipal(principal': real) returns (res: Outcome<MortgageError>)
      modifies this`principal
      ensures principal' <= 0.0 ==> res == Fail(NonPositivePrincipal) && principal == old(principal)
      ensures principal' > 0.0 ==> res == Pass && principal == principal'
    {
      if principal' <= 0.0 {
        return Fail(NonPositivePrincipal);
      }
      principal := principal';
      res := Pass;
    }

    method SetInterestRate(interestRate': real) returns (res: Outcome<MortgageError>)
      modifies this`interestRate
      ensures interestRate' <= 0.0 ==> res == Fail(NonPositiveRate) && interestRate == old(interestRate)
      ensures interestRate' > 0.0 ==> res == Pass && interestRate == interestRate'
    {
      if interestRate' <= 0.0 {
        return Fail(NonPositiveRate);
      }
      interestRate := interestRate';
      res := Pass;
    }

    method SetTerm(term': Int32, termType: string) returns (res: Outcome<MortgageError>)
      modifies this`term
      ensures ValidatedTerm(term', termType).Failure? ==>
                res == Fail(ValidatedTerm(term', termType).error) && term == old(term)
      ensures ValidatedTerm(term', termType).Success? ==>
                res == Pass && term == ValidatedTerm(term', termType).value
    {
      if term' <= 0 {
        return Fail(NonPositiveTerm);
      }
      if IsYears(termType) {
        term := Wrap32(term' * 12);
      } else if IsMonths(termType) {
        term := term';
      } else {
        return Fail(InvalidTermType);
      }
      res := Pass;
    }

    /** A month is valid exactly when it lies in 1..term. */
    method CheckMonthValidity(month: int) returns (res: Outcome<MortgageError>)
      ensures res.Pass? <==> 1 <= month <= term
      ensures month <= 0 ==> res == Fail(NonPositiveMonth)
      ensures 0 < month && month > term ==> res == Fail(MonthExceedsTerm)
    {
      if month <= 0 {
        return Fail(NonPositiveMonth);
      }
      if month > term {
        return Fail(MonthExceedsTerm);
      }
      res := Pass;
    }
  }

  /** One row of an amortization schedule: five independent fields with setters. */
  class AmortizationEntry {
    var beginningBalance: real
    var payment: real
    var interestPaid: real
    var principalPaid: real
    var endingBalance: real

    constructor ()
      ensures beginningBalance == 0.0 && payment == 0.0 && interestPaid == 0.0
      ensures principalPaid == 0.0 && endingBalance == 0.0
    {
      beginningBalance, payment, interestPaid, principalPaid, endingBalance := 0.0, 0.0, 0.0, 0.0, 0.0;
    }

    constructor All(beginningBalance: real, payment: real, interestPaid: real, principalPaid: real, endingBalance: real)
      ensures this.beginningBalance == beginningBalance && this.payment == payment
      ensures this.interestPaid == interestPaid && this.principalPaid == principalPaid
      ensures this.endingBalance == endingBalance
    {
      this.beginningBalance := beginningBalance;
      this.payment := payment;
      this.interestPaid := interestPaid;
      this.principalPaid := principalPaid;
      this.endingBalance := endingBalance;
    }

    method SetBeginningBalance(x: real)
      modifies this`beginningBalance
      ensures beginningBalance == x
    {
      beginningBalance := x;
    }

    method SetPayment(x: real)
      modifies this`payment
      ensures payment == x
    {
      payment := x;
    }

    method SetInterestPaid(x: real)
      modifies this`interestPaid
      ensures interestPaid == x
    {
      interestPaid := x;
    }

    method SetPrincipalPaid(x: real)
      modifies this`principalPaid
      ensures principalPaid == x
    {
      principalPaid := x;
    }

    method SetEndingBalance(x: real)
      modifies this`endingBalance
      ensures endingBalance == x
    {
      endingBalance := x;
    }
  }
}
