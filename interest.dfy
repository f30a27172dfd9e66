/**
 * Simple and compound interest formulas of com.realestate.math.interest.Interest.
 * Amounts, rates and times are exact reals; the power function that Java takes
 * from Math.pow is a parameter, so the compound identities hold for any power.
 */
module Interest {
  import opened JavaMath

  /** The time in years denoted by whole years and months: years + months / 12.0. */
  function YearsMonths(years: int, months: int): real
  {
    years as real + months as real / 12.0
  }

  /** The time in years denoted by years, months and days: years + months / 12.0 + days / 365.0. */
  function YearsMonthsDays(years: int, months: int, days: int): real
  {
    years as real + months as real / 12.0 + days as real / 365.0
  }

  /** Interest earned on principal at interestRate per year over time years. */
  function SimpleInterest(principal: real, interestRate: real, time: real): (r: real)
    ensures principal == 0.0 ==> r == 0.0
    ensures time == 0.0 ==> r == 0.0
  {
    principal * interestRate * time
  }

  /** Principal plus simple interest. */
  function TotalSimpleInterest(principal: real, interestRate: real, time: real): (r: real)
    ensures principal == 0.0 ==> r == 0.0
    ensures time == 0.0 ==> r == principal
  {
    SimpleInterest(principal, interestRate, time) + principal
  }

  /** The (years, months) overload is the time-based formula at years + months / 12. */
  function SimpleInterestYM(principal: real, interestRate: real, years: int, months: int): (r: real)
    ensures r == SimpleInterest(principal, interestRate, YearsMonths(years, months))
  {
    principal * interestRate * (years as real + months as real / 12.0)
  }

  function TotalSimpleInterestYM(principal: real, interestRate: real, years: int, months: int): (r: real)
    ensures r == TotalSimpleInterest(principal, interestRate, YearsMonths(years, months))
  {
    SimpleInterestYM(principal, interestRate, years, months) + principal
  }

  /** The (years, months, days) overload is the time-based formula at years + months / 12 + days / 365. */
  function SimpleInterestYMD(principal: real, interestRate: real, years: int, months: int, days: int): (r: real)
    ensures r == SimpleInterest(principal, interestRate, YearsMonthsDays(years, months, days))
    ensures principal == 0.0 ==> r == 0.0
  {
    principal * interestRate * (years as real + months as real / 12.0 + days as real / 365.0)
  }

  function TotalSimpleInterestYMD(principal: real, interestRate: real, years: int, months: int, days: int): (r: real)
    ensures r == TotalSimpleInterest(principal, interestRate, YearsMonthsDays(years, months, days))
    ensures principal == 0.0 ==> r == 0.0
  {
    SimpleInterestYMD(principal, interestRate, years, months, days) + principal
  }

  /**
   * The simple interest rate that takes principal to endValue in time years.
   * Java divides by time * principal; a zero there yields NaN or Infinity, which
   * reals cannot hold, so both must be non-zero.
   */
  function FindSimpleInterest(principal: real, endValue: real, time: real): (r: real)
    requires principal != 0.0 && time != 0.0
    ensures r * (time * principal) == endValue - principal
    ensures endValue == principal ==> r == 0.0
  {
    (endValue - principal) / (time * principal)
  }

  /** Finding the rate of a simple-interest total gives back the rate. */
  lemma FindSimpleInterestInvertsTotal(principal: real, interestRate: real, time: real)
    requires principal != 0.0 && time != 0.0
    ensures FindSimpleInterest(principal, TotalSimpleInterest(principal, interestRate, time), time) == interestRate
  {
    var total := TotalSimpleInterest(principal, interestRate, time);
    var r := FindSimpleInterest(principal, total, time);
    assert total - principal == interestRate * (time * principal);
    assert (r - interestRate) * (time * principal) == 0.0;
  }

  /** Growing principal at the found rate reaches the end value. */
  lemma TotalSimpleInterestInvertsFind(principal: real, endValue: real, time: real)
    requires principal != 0.0 && time != 0.0
    ensures TotalSimpleInterest(principal, FindSimpleInterest(principal, endValue, time), time) == endValue
  {
    var r := FindSimpleInterest(principal, endValue, time);
    assert principal * r * time == r * (time * principal);
  }

  /** principal * (1 + interestRate)^time. */
  function TotalCompoundInterest(principal: real, interestRate: real, time: real, pow: Power): (r: real)
    ensures principal == 0.0 ==> r == 0.0
  {
    principal * pow(1.0 + interestRate, time)
  }

  /** Compound interest earned: the compound total less the principal. */
  function CompoundInterest(principal: real, interestRate: real, time: real, pow: Power): (r: real)
    ensures r + principal == TotalCompoundInterest(principal, interestRate, time, pow)
  {
    TotalCompoundInterest(principal, interestRate, time, pow) - principal
  }

  function TotalCompoundInterestYM(principal: real, interestRate: real, years: int, months: int, pow: Power): (r: real)
    ensures r == TotalCompoundInterest(principal, interestRate, YearsMonths(years, months), pow)
  {
    principal * pow(1.0 + interestRate, years as real + months as real / 12.0)
  }

  function CompoundInterestYM(principal: real, interestRate: real, years: int, months: int, pow: Power): (r: real)
    ensures r == CompoundInterest(principal, interestRate, YearsMonths(years, months), pow)
    ensures r + principal == TotalCompoundInterestYM(principal, interestRate, years, months, pow)
  {
    TotalCompoundInterestYM(principal, interestRate, years, months, pow) - principal
  }

  function TotalCompoundInterestYMD(principal: real, interestRate: real, years: int, months: int, days: int, pow: Power): (r: real)
    ensures r == TotalCompoundInterest(principal, interestRate, YearsMonthsDays(years, months, days), pow)
  {
    principal * pow(1.0 + interestRate, years as real + months as real / 12.0 + days as real / 365.0)
  }

  function CompoundInterestYMD(principal: real, interestRate: real, years: int, months: int, days: int, pow: Power): (r: real)
    ensures r == CompoundInterest(principal, interestRate, YearsMonthsDays(years, months, days), pow)
    ensures r + principal == TotalCompoundInterestYMD(principal, interestRate, years, months, days, pow)
  {
    TotalCompoundInterestYMD(principal, interestRate, years, months, days, pow) - principal
  }

  /** Monthly compounding is compound growth at annualRate / 12 over 12 * years periods. */
  function MonthlyCompoundInterest(principal: real, annualRate: real, years: real, pow: Power): (r: real)
    ensures r == TotalCompoundInterest(principal, annualRate / 12.0, 12.0 * years, pow)
  {
    principal * pow(1.0 + annualRate / 12.0, 12.0 * years)
  }

  /** Daily compounding is compound growth at annualRate / 365 over 365 * years periods. */
  function DailyCompoundInterest(principal: real, annualRate: real, years: real, pow: Power): (r: real)
    ensures r == TotalCompoundInterest(principal, annualRate / 365.0, 365.0 * years, pow)
  {
    principal * pow(1.0 + annualRate / 365.0, 365.0 * years)
  }
}
