/**
 * com.realestate.mortgage.ARMMortgage: an adjustable-rate mortgage whose rate
 * for a month is found by scanning a list of rate changes, and whose totals
 * are sums of per-month payments. The annuity formula built on Math.pow is a
 * parameter, so the additive relations hold for any payment formula.
 */
module Arm {
  import opened Wrappers
  import opened MortgageBase
  import FixedRate

  /** ARMMortgage.RateChange: from month on, the annual rate is rate. */
  datatype RateChange = RateChange(month: Int32, rate: real)

  /**
   * The rate getRateForMonth returns: walking the changes in list order, adopt
   * each change's rate while month >= its month, and stop at the first change
   * that starts later.
   */
  function ScanRate(changes: seq<RateChange>, month: int, rate: real): real
    decreases |changes|
  {
    if changes == [] then rate
    else if month >= changes[0].month then ScanRate(changes[1..], month, changes[0].rate)
    else rate
  }

  /** The scan never invents a rate: it is the initial rate or the rate of a listed change. */
  lemma {:induction false} ScanYieldsKnownRate(changes: seq<RateChange>, month: int, rate: real)
    ensures ScanRate(changes, month, rate) == rate
            || exists i :: 0 <= i < |changes| && ScanRate(changes, month, rate) == changes[i].rate
    decreases |changes|
  {
    if changes != [] && month >= changes[0].month {
      var r := ScanRate(changes, month, rate);
      ScanYieldsKnownRate(changes[1..], month, changes[0].rate);
      if r != changes[0].rate {
        var i :| 0 <= i < |changes[1..]| && r == changes[1..][i].rate;
        assert r == changes[i + 1].rate;
      }
    }
  }

  /** The scan returns the rate of the change just before the first later one. */
  lemma {:induction false} ScanStopsAtFirstLater(changes: seq<RateChange>, month: int, rate: real, k: nat)
    requires k <= |changes|
    requires forall i :: 0 <= i < k ==> changes[i].month <= month
    requires k < |changes| ==> changes[k].month > month
    ensures ScanRate(changes, month, rate) == if k == 0 then rate else changes[k - 1].rate
  {
    if k > 0 {
      ScanStopsAtFirstLater(changes[1..], month, changes[0].rate, k - 1);
    }
  }

  predicate SortedByMonth(changes: seq<RateChange>)
  {
    forall i, j :: 0 <= i < j < |changes| ==> changes[i].month <= changes[j].month
  }

  /** Reference definition: the rate of the last change with month <= month, else rate. */
  function LastChangeAtOrBefore(changes: seq<RateChange>, month: int, rate: real): real
    decreases |changes|
  {
    if changes == [] then rate
    else if changes[|changes| - 1].month <= month then changes[|changes| - 1].rate
    else LastChangeAtOrBefore(changes[..|changes| - 1], month, rate)
  }

  lemma {:induction false} LastChangeAfterApplicableHead(changes: seq<RateChange>, month: int, rate: real)
    requires changes != [] && changes[0].month <= month
    ensures LastChangeAtOrBefore(changes, month, rate) == LastChangeAtOrBefore(changes[1..], month, changes[0].rate)
    decreases |changes|
  {
    var n := |changes| - 1;
    if n > 0 && changes[n].month > month {
      LastChangeAfterApplicableHead(changes[..n], month, rate);
      assert changes[..n][1..] == changes[1..][..n - 1];
    }
  }

  lemma {:induction false} NoChangeApplies(changes: seq<RateChange>, month: int, rate: real)
    requires forall i :: 0 <= i < |changes| ==> changes[i].month > month
    ensures LastChangeAtOrBefore(changes, month, rate) == rate
  {
    if changes != [] {
      NoChangeApplies(changes[..|changes| - 1], month, rate);
    }
  }

  /** On a list sorted by month, the scan finds the last change at or before the month. */
  lemma {:induction false} SortedScanFindsLastChange(changes: seq<RateChange>, month: int, rate: real)
    requires SortedByMonth(changes)
    ensures ScanRate(changes, month, rate) == LastChangeAtOrBefore(changes, month, rate)
  {
    if changes != [] {
      if changes[0].month <= month {
        SortedScanFindsLastChange(changes[1..], month, changes[0].rate);
        LastChangeAfterApplicableHead(changes, month, rate);
      } else {
        NoChangeApplies(changes, month, rate);
      }
    }
  }

  /** Month 0 gets the initial rate whenever every change starts at month 1 or later. */
  lemma MonthZeroUsesInitialRate(changes: seq<RateChange>, rate: real)
    requires forall i :: 0 <= i < |changes| ==> changes[i].month >= 1
    ensures ScanRate(changes, 0, rate) == rate
  {
  }

  class ARMMortgage {
    var principal: real
    var initialRate: real
    var term: Int32
    var rateChanges: seq<RateChange>

    constructor Init(principal: real, initialRate: real, term: Int32, rateChanges: seq<RateChange>)
      ensures this.principal == principal && this.initialRate == initialRate
      ensures this.term == term && this.rateChanges == rateChanges
    {
      this.principal := principal;
      this.initialRate := initialRate;
      this.term := term;
      this.rateChanges := rateChanges;
    }

    /** ARMMortgage(principal, initialRate, term, termType, rateChanges): only the term unit is checked. */
    static method New(principal: real, initialRate: real, term: Int32, termType: string, rateChanges: seq<RateChange>)
      returns (r: Result<ARMMortgage, MortgageError>)
      ensures ConvertTerm(term, termType).Failure? ==> r == Failure(InvalidTermType)
      ensures ConvertTerm(term, termType).Success? ==>
                && r.Success? && fresh(r.value)
                && r.value.principal == principal && r.value.initialRate == initialRate
                && r.value.term == ConvertTerm(term, termType).value && r.value.rateChanges == rateChanges
    {
      var converted := ConvertTerm(term, termType);
      if converted.Failure? {
        return Failure(converted.error);
      }
      var m := new ARMMortgage.Init(principal, initialRate, converted.value, rateChanges);
      r := Success(m);
    }

    /** The rate in force in a month. */
    function RateForMonth(month: int): real
      reads this
    {
      ScanRate(rateChanges, month, initialRate)
    }

    method GetRateForMonth(month: int) returns (rate: real)
      ensures rate == RateForMonth(month)
    {
      rate := initialRate;
      var i := 0;
      while i < |rateChanges|
        invariant 0 <= i <= |rateChanges|
        invariant ScanRate(rateChanges[i..], month, rate) == RateForMonth(month)
      {
        var rc := rateChanges[i];
        if month >= rc.month {
          assert rateChanges[i..][1..] == rateChanges[i + 1..];
          rate := rc.rate;
        } else {
          break;
        }
        i := i + 1;
      }
    }

    method SetPrincipal(principal': real)
      modifies this`principal
      ensures principal == principal'
    {
      principal := principal';
    }

    method SetInitialRate(initialRate': real)
      modifies this`initialRate
      ensures initialRate == initialRate'
    {
      initialRate := initialRate';
    }

    /** ARMMortgage.setTerm converts the unit without a positivity check. */
    method SetTerm(term': Int32, termType: string) returns (res: Outcome<MortgageError>)
      modifies this`term
      ensures ConvertTerm(term', termType).Failure? ==> res == Fail(InvalidTermType) && term == old(term)
      ensures ConvertTerm(term', termType).Success? ==> res == Pass && term == ConvertTerm(term', termType).value
    {
      if IsYears(termType) {
        term := Wrap32(term' * 12);
      } else if IsMonths(termType) {
        term := term';
      } else {
        return Fail(InvalidTermType);
      }
      res := Pass;
    }

    /** Replaces the whole schedule: later lookups see only the new changes. */
    method SetRateChanges(rateChanges': seq<RateChange>)
      modifies this`rateChanges
      ensures rateChanges == rateChanges'
      ensures forall month :: RateForMonth(month) == ScanRate(rateChanges', month, initialRate)
    {
      rateChanges := rateChanges';
    }

    /** The payment due in a month, at that month's rate. */
    function MonthlyPayment(annuity: Annuity, month: int): real
      reads this
    {
      annuity(principal, RateForMonth(month) / 12.0, term)
    }

    /** The payments of months 1..months (none when months <= 0). */
    function PaymentsThrough(annuity: Annuity, months: int): real
      reads this
      decreases months
    {
      if months <= 0 then 0.0 else PaymentsThrough(annuity, months - 1) + MonthlyPayment(annuity, months)
    }

    /** Reference definition: the payments of months first + 1..last, summed from the front. */
    function PaymentsAfter(annuity: Annuity, first: int, last: int): real
      reads this
      decreases last - first
    {
      if first >= last then 0.0 else MonthlyPayment(annuity, first + 1) + PaymentsAfter(annuity, first + 1, last)
    }

    lemma {:induction false} PaymentsSplit(annuity: Annuity, k: int, n: int)
      requires 0 <= k <= n
      ensures PaymentsThrough(annuity, n) == PaymentsThrough(annuity, k) + PaymentsAfter(annuity, k, n)
      decreases n - k
    {
      if k < n {
        PaymentsSplit(annuity, k + 1, n);
      }
    }

    method CalculateMonthlyPayment(annuity: Annuity, month: int) returns (payment: real)
      ensures payment == MonthlyPayment(annuity, month)
    {
      var rate := GetRateForMonth(month);
      var monthlyInterestRate := rate / 12.0;
      payment := annuity(principal, monthlyInterestRate, term);
    }

    /** The no-month overload uses the rate of month 0. */
    method CalculateMonthlyPaymentAtStart(annuity: Annuity) returns (payment: real)
      ensures payment == MonthlyPayment(annuity, 0)
      ensures (forall i :: 0 <= i < |rateChanges| ==> rateChanges[i].month >= 1) ==>
                payment == annuity(principal, initialRate / 12.0, term)
    {
      payment := CalculateMonthlyPayment(annuity, 0);
      if forall i :: 0 <= i < |rateChanges| ==> rateChanges[i].month >= 1 {
        MonthZeroUsesInitialRate(rateChanges, initialRate);
      }
    }

    /** The payments of months 1..term, less the principal. */
    method CalculateTotalInterest(annuity: Annuity) returns (totalInterest: real)
      ensures totalInterest == PaymentsThrough(annuity, term) - principal
    {
      totalInterest := 0.0;
      var i := 1;
      while i <= term
        invariant 1 <= i && (i <= term + 1 || i == 1)
        invariant totalInterest == PaymentsThrough(annuity, i - 1)
      {
        var payment := CalculateMonthlyPayment(annuity, i);
        totalInterest := totalInterest + payment;
        i := i + 1;
      }
      assert totalInterest == PaymentsThrough(annuity, term) by {
        if term < 1 {
          assert i == 1;
        }
      }
      totalInterest := totalInterest - principal;
    }

    /** The principal plus the total interest: all payments of the term. */
    method CalculateTotalCost(annuity: Annuity) returns (totalCost: real)
      ensures totalCost == PaymentsThrough(annuity, term)
    {
      var totalInterest := CalculateTotalInterest(annuity);
      totalCost := principal + totalInterest;
    }

    /** The total cost less the payments of months 1..monthsPaid. */
    method CalculateRemainingBalance(annuity: Annuity, monthsPaid: Int32) returns (balance: real)
      ensures balance == PaymentsThrough(annuity, term) - PaymentsThrough(annuity, monthsPaid)
      ensures 0 <= monthsPaid <= term ==> balance == PaymentsAfter(annuity, monthsPaid, term)
      ensures monthsPaid == term ==> balance == 0.0
    {
      var totalPaid := 0.0;
      var i := 1;
      while i <= monthsPaid
        invariant 1 <= i && (i <= monthsPaid + 1 || i == 1)
        invariant totalPaid == PaymentsThrough(annuity, i - 1)
      {
        var payment := CalculateMonthlyPayment(annuity, i);
        totalPaid := totalPaid + payment;
        i := i + 1;
      }
      assert totalPaid == PaymentsThrough(annuity, monthsPaid) by {
        if monthsPaid < 1 {
          assert i == 1;
        }
      }
      var totalCost := CalculateTotalCost(annuity);
      balance := totalCost - totalPaid;
      if 0 <= monthsPaid <= term {
        PaymentsSplit(annuity, monthsPaid, term);
      }
    }
  }

  /**
   * Without rate changes an adjustable-rate mortgage pays in every month what
   * the fixed-rate mortgage of the same principal, rate and term pays, so its
   * payments through any month are that many equal fixed payments.
   */
  lemma {:induction false} NoChangesPaysFixedRate(arm: ARMMortgage, fixed: FixedRate.FixedRateMortgage,
                                                  annuity: Annuity, months: int)
    requires arm.rateChanges == []
    requires arm.principal == fixed.base.principal && arm.initialRate == fixed.base.interestRate
    requires arm.term == fixed.base.term
    ensures forall month :: arm.MonthlyPayment(annuity, month) == fixed.CalculateMonthlyPayment(annuity)
    ensures arm.PaymentsThrough(annuity, months)
            == FixedRate.RepeatedPayment(fixed.CalculateMonthlyPayment(annuity), months)
    decreases months
  {
    forall month
      ensures arm.MonthlyPayment(annuity, month) == fixed.CalculateMonthlyPayment(annuity)
    {
      assert arm.RateForMonth(month) == arm.initialRate;
    }
    if months > 0 {
      NoChangesPaysFixedRate(arm, fixed, annuity, months - 1);
    }
  }

  /** Without rate changes both mortgages have the same total cost and the same total interest. */
  lemma NoChangesTotalsAgree(arm: ARMMortgage, fixed: FixedRate.FixedRateMortgage, annuity: Annuity)
    requires arm.rateChanges == [] && arm.term >= 0
    requires arm.principal == fixed.base.principal && arm.initialRate == fixed.base.interestRate
    requires arm.term == fixed.base.term
    ensures arm.PaymentsThrough(annuity, arm.term) == fixed.CalculateTotalCost(annuity)
    ensures arm.PaymentsThrough(annuity, arm.term) - arm.principal == fixed.CalculateTotalInterest(annuity)
  {
    NoChangesPaysFixedRate(arm, fixed, annuity, arm.term);
  }
}
