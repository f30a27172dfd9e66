/**
 * com.realestate.mpt.RealEstateAsset: an asset with an expected return that is
 * either given directly or derived from four cash flows, and a non-empty
 * series of historical returns.
 */
module Assets {
  import opened Wrappers
  import opened Sums

  /** The IllegalArgumentException / IllegalStateException messages of the asset. */
  datatype AssetError =
    | NegativeRentalIncome
    | NegativeAppreciation
    | NegativeExpenses
    | NonPositiveInitialValue
    | EmptyHistoricalReturns
    | HistoricalReturnsNotSet

  /** Net annual cash flow over acquisition cost. */
  function DerivedReturn(rentalIncome: real, appreciation: real, expenses: real, initialValue: real): real
    requires initialValue > 0.0
  {
    (rentalIncome + appreciation - expenses) / initialValue
  }

  /** The derived return scaled by the initial value gives back the net annual cash flow. */
  lemma DerivedReturnTimesValue(rentalIncome: real, appreciation: real, expenses: real, initialValue: real)
    requires initialValue > 0.0
    ensures DerivedReturn(rentalIncome, appreciation, expenses, initialValue) * initialValue
            == rentalIncome + appreciation - expenses
  {
  }

  /**
   * The checks of the four cash-flow setters, in the order the constructor
   * calls them: rental income, appreciation, expenses, initial value.
   */
  function CashFlowValuesCheck(rentalIncome: real, appreciation: real, expenses: real, initialValue: real)
    : (r: Outcome<AssetError>)
    ensures r.Pass? <==> rentalIncome >= 0.0 && appreciation >= 0.0 && expenses >= 0.0 && initialValue > 0.0
    ensures rentalIncome < 0.0 ==> r == Fail(NegativeRentalIncome)
    ensures rentalIncome >= 0.0 && appreciation < 0.0 ==> r == Fail(NegativeAppreciation)
    ensures rentalIncome >= 0.0 && appreciation >= 0.0 && expenses < 0.0 ==> r == Fail(NegativeExpenses)
    ensures rentalIncome >= 0.0 && appreciation >= 0.0 && expenses >= 0.0 && initialValue <= 0.0
            ==> r == Fail(NonPositiveInitialValue)
  {
    if rentalIncome < 0.0 then Fail(NegativeRentalIncome)
    else if appreciation < 0.0 then Fail(NegativeAppreciation)
    else if expenses < 0.0 then Fail(NegativeExpenses)
    else if initialValue <= 0.0 then Fail(NonPositiveInitialValue)
    else Pass
  }

  /**
   * The checks the cash-flow constructor performs, in its order: the four
   * cash flows, then the history. The first failure is thrown.
   */
  function CashFlowCheck(rentalIncome: real, appreciation: real, expenses: real, initialValue: real,
                         historicalReturns: seq<real>): (r: Outcome<AssetError>)
    ensures r.Pass? <==> rentalIncome >= 0.0 && appreciation >= 0.0 && expenses >= 0.0
                         && initialValue > 0.0 && historicalReturns != []
    ensures rentalIncome < 0.0 ==> r == Fail(NegativeRentalIncome)
    ensures rentalIncome >= 0.0 && appreciation < 0.0 ==> r == Fail(NegativeAppreciation)
    ensures rentalIncome >= 0.0 && appreciation >= 0.0 && expenses < 0.0 ==> r == Fail(NegativeExpenses)
    ensures rentalIncome >= 0.0 && appreciation >= 0.0 && expenses >= 0.0 && initialValue <= 0.0
            ==> r == Fail(NonPositiveInitialValue)
    ensures (rentalIncome >= 0.0 && appreciation >= 0.0 && expenses >= 0.0 && initialValue > 0.0
             && historicalReturns == []) ==> r == Fail(EmptyHistoricalReturns)
  {
    var values := CashFlowValuesCheck(rentalIncome, appreciation, expenses, initialValue);
    if values.Fail? then values
    else if historicalReturns == [] then Fail(EmptyHistoricalReturns)
    else Pass
  }

  /** The arithmetic mean of a non-empty series. */
  function Mean(s: seq<real>): real
    requires s != []
  {
    Sum(s) / |s| as real
  }

  /** The sum of squared deviations of s from mu, accumulated front to back. */
  function SquaredDeviations(s: seq<real>, mu: real): real
  {
    if s == [] then 0.0 else SquaredDeviations(s[..|s| - 1], mu) + (s[|s| - 1] - mu) * (s[|s| - 1] - mu)
  }

  /** Population variance: squared deviations from the mean, divided by the size. */
  function PopulationVariance(s: seq<real>): real
    requires s != []
  {
    SquaredDeviations(s, Mean(s)) / |s| as real
  }

  lemma {:induction false} SquaredDeviationsNonNegative(s: seq<real>, mu: real)
    ensures SquaredDeviations(s, mu) >= 0.0
  {
    if s != [] {
      SquaredDeviationsNonNegative(s[..|s| - 1], mu);
      var d := s[|s| - 1] - mu;
      assert d * d >= 0.0;
    }
  }

  /** The variance under the square root is never negative. */
  lemma VarianceNonNegative(s: seq<real>)
    requires s != []
    ensures PopulationVariance(s) >= 0.0
  {
    SquaredDeviationsNonNegative(s, Mean(s));
  }

  /** A constant series has no variance. */
  lemma {:induction false} ConstantSeriesHasNoDeviation(s: seq<real>, c: real)
    requires forall i :: 0 <= i < |s| ==> s[i] == c
    ensures SquaredDeviations(s, c) == 0.0
  {
    if s != [] {
      ConstantSeriesHasNoDeviation(s[..|s| - 1], c);
    }
  }

  /** The mean of a constant series is that constant, so its variance is zero. */
  lemma ConstantSeriesHasNoVariance(s: seq<real>, c: real)
    requires s != [] && forall i :: 0 <= i < |s| ==> s[i] == c
    ensures Mean(s) == c && PopulationVariance(s) == 0.0
  {
    SumOfConstant(s, c);
    ConstantSeriesHasNoDeviation(s, c);
  }

  class RealEstateAsset {
    var propertyId: string
    var expectedReturn: real
    var historicalReturns: seq<real>
    var annualRentalIncome: real
    var annualAppreciation: real
    var annualExpenses: real
    var initialPropertyValue: real

    /**
     * The asset invariant: a non-empty history, valid cash flows, and an
     * expected return derived from them whenever an initial value is set.
     */
    ghost predicate Valid()
      reads this
    {
      && historicalReturns != []
      && CashFlowsValid()
    }

    ghost predicate CashFlowsValid()
      reads this
    {
      && annualRentalIncome >= 0.0 && annualAppreciation >= 0.0 && annualExpenses >= 0.0
      && initialPropertyValue >= 0.0
      && (initialPropertyValue > 0.0 ==>
            expectedReturn == DerivedReturn(annualRentalIncome, annualAppreciation, annualExpenses, initialPropertyValue))
    }

    /** The object before any setter has run: Java's field defaults and no history. */
    constructor Blank(propertyId: string, expectedReturn: real)
      ensures this.propertyId == propertyId && this.expectedReturn == expectedReturn
      ensures historicalReturns == []
      ensures annualRentalIncome == 0.0 && annualAppreciation == 0.0 && annualExpenses == 0.0
      ensures initialPropertyValue == 0.0
      ensures CashFlowsValid()
    {
      this.propertyId := propertyId;
      this.expectedReturn := expectedReturn;
      historicalReturns := [];
      annualRentalIncome, annualAppreciation, annualExpenses, initialPropertyValue := 0.0, 0.0, 0.0, 0.0;
    }

    /**
     * RealEstateAsset(propertyId, rentalIncome, appreciation, expenses, initialValue, history):
     * validated through the setters, expected return derived from the cash flows.
     */
    static method FromCashFlows(propertyId: string, rentalIncome: real, appreciation: real, expenses: real,
                                initialValue: real, historicalReturns: seq<real>)
      returns (r: Result<RealEstateAsset, AssetError>)
      ensures CashFlowCheck(rentalIncome, appreciation, expenses, initialValue, historicalReturns).Fail? ==>
                r == Failure(CashFlowCheck(rentalIncome, appreciation, expenses, initialValue, historicalReturns).error)
      ensures CashFlowCheck(rentalIncome, appreciation, expenses, initialValue, historicalReturns).Pass? ==>
                && r.Success? && fresh(r.value) && r.value.Valid()
                && r.value.propertyId == propertyId
                && r.value.annualRentalIncome == rentalIncome && r.value.annualAppreciation == appreciation
                && r.value.annualExpenses == expenses && r.value.initialPropertyValue == initialValue
                && r.value.historicalReturns == historicalReturns
                && r.value.expectedReturn == DerivedReturn(rentalIncome, appreciation, expenses, initialValue)
    {
      var a := new RealEstateAsset.Blank(propertyId, 0.0);
      var res := a.SetCashFlows(rentalIncome, appreciation, expenses, initialValue);
      if res.Fail? { return Failure(res.error); }
      res := a.SetHistoricalReturns(historicalReturns);
      if res.Fail? { return Failure(res.error); }
      a.ComputeExpectedReturn();
      r := Success(a);
    }

    /** The four validating cash-flow setters the constructor calls in turn, stopping at the first refusal. */
    method SetCashFlows(rentalIncome: real, appreciation: real, expenses: real, initialValue: real)
      returns (res: Outcome<AssetError>)
      requires CashFlowsValid()
      modifies this`annualRentalIncome, this`annualAppreciation, this`annualExpenses
      modifies this`initialPropertyValue, this`expectedReturn
      ensures res == CashFlowValuesCheck(rentalIncome, appreciation, expenses, initialValue)
      ensures res.Pass? ==>
                && annualRentalIncome == rentalIncome && annualAppreciation == appreciation
                && annualExpenses == expenses && initialPropertyValue == initialValue
      ensures CashFlowsValid()
    {
      res := SetAnnualRentalIncome(rentalIncome);
      if res.Fail? { return; }
      res := SetAnnualAppreciation(appreciation);
      if res.Fail? { return; }
      res := SetAnnualExpenses(expenses);
      if res.Fail? { return; }
      res := SetInitialPropertyValue(initialValue);
    }

    /** The cash-flow constructor without an id uses "". */
    static method FromCashFlowsWithoutId(rentalIncome: real, appreciation: real, expenses: real,
                                         initialValue: real, historicalReturns: seq<real>)
      returns (r: Result<RealEstateAsset, AssetError>)
      ensures CashFlowCheck(rentalIncome, appreciation, expenses, initialValue, historicalReturns).Fail? ==>
                r == Failure(CashFlowCheck(rentalIncome, appreciation, expenses, initialValue, historicalReturns).error)
      ensures CashFlowCheck(rentalIncome, appreciation, expenses, initialValue, historicalReturns).Pass? ==>
                && r.Success? && fresh(r.value) && r.value.Valid()
                && r.value.propertyId == ""
                && r.value.annualRentalIncome == rentalIncome && r.value.annualAppreciation == appreciation
                && r.value.annualExpenses == expenses && r.value.initialPropertyValue == initialValue
                && r.value.historicalReturns == historicalReturns
                && r.value.expectedReturn == DerivedReturn(rentalIncome, appreciation, expenses, initialValue)
    {
      r := FromCashFlows("", rentalIncome, appreciation, expenses, initialValue, historicalReturns);
    }

    /** RealEstateAsset(propertyId, expectedReturn, history): the return is stored as given. */
    static method WithExpectedReturn(propertyId: string, expectedReturn: real, historicalReturns: seq<real>)
      returns (r: Result<RealEstateAsset, AssetError>)
      ensures historicalReturns == [] ==> r == Failure(EmptyHistoricalReturns)
      ensures historicalReturns != [] ==>
                && r.Success? && fresh(r.value) && r.value.Valid()
                && r.value.propertyId == propertyId && r.value.expectedReturn == expectedReturn
                && r.value.historicalReturns == historicalReturns
                && r.value.annualRentalIncome == 0.0 && r.value.annualAppreciation == 0.0
                && r.value.annualExpenses == 0.0 && r.value.initialPropertyValue == 0.0
    {
      var a := new RealEstateAsset.Blank(propertyId, expectedReturn);
      var res := a.SetHistoricalReturns(historicalReturns);
      if res.Fail? { return Failure(res.error); }
      r := Success(a);
    }

    /** The direct-return constructor without an id uses "". */
    static method WithExpectedReturnWithoutId(expectedReturn: real, historicalReturns: seq<real>)
      returns (r: Result<RealEstateAsset, AssetError>)
      ensures historicalReturns == [] ==> r == Failure(EmptyHistoricalReturns)
      ensures historicalReturns != [] ==>
                && r.Success? && fresh(r.value) && r.value.Valid()
                && r.value.propertyId == "" && r.value.expectedReturn == expectedReturn
                && r.value.historicalReturns == historicalReturns
                && r.value.annualRentalIncome == 0.0 && r.value.annualAppreciation == 0.0
                && r.value.annualExpenses == 0.0 && r.value.initialPropertyValue == 0.0
    {
      r := WithExpectedReturn("", expectedReturn, historicalReturns);
    }

    /**
     * Rewrites the derived expected return. Java divides even while the initial
     * value is still 0.0; here the division happens only once it is positive.
     */
    method ComputeExpectedReturn()
      modifies this`expectedReturn
      ensures initialPropertyValue > 0.0 ==>
                expectedReturn == DerivedReturn(annualRentalIncome, annualAppreciation, annualExpenses, initialPropertyValue)
      ensures initialPropertyValue <= 0.0 ==> expectedReturn == old(expectedReturn)
    {
      if initialPropertyValue > 0.0 {
        expectedReturn := (annualRentalIncome + annualAppreciation - annualExpenses) / initialPropertyValue;
      }
    }

    method SetPropertyId(propertyId': string)
      modifies this`propertyId
      ensures propertyId == propertyId'
    {
      propertyId := propertyId';
    }

    method SetAnnualRentalIncome(x: real) returns (res: Outcome<AssetError>)
      modifies this`annualRentalIncome, this`expectedReturn
      ensures x < 0.0 ==> res == Fail(NegativeRentalIncome) && unchanged(this)
      ensures x >= 0.0 ==> res == Pass && annualRentalIncome == x
      ensures x >= 0.0 && initialPropertyValue > 0.0 ==>
                expectedReturn == DerivedReturn(x, annualAppreciation, annualExpenses, initialPropertyValue)
      ensures initialPropertyValue <= 0.0 ==> expectedReturn == old(expectedReturn)
      ensures old(CashFlowsValid()) ==> CashFlowsValid()
    {
      if x < 0.0 {
        return Fail(NegativeRentalIncome);
      }
      annualRentalIncome := x;
      ComputeExpectedReturn();
      res := Pass;
    }

    method SetAnnualAppreciation(x: real) returns (res: Outcome<AssetError>)
      modifies this`annualAppreciation, this`expectedReturn
      ensures x < 0.0 ==> res == Fail(NegativeAppreciation) && unchanged(this)
      ensures x >= 0.0 ==> res == Pass && annualAppreciation == x
      ensures x >= 0.0 && initialPropertyValue > 0.0 ==>
                expectedReturn == DerivedReturn(annualRentalIncome, x, annualExpenses, initialPropertyValue)
      ensures initialPropertyValue <= 0.0 ==> expectedReturn == old(expectedReturn)
      ensures old(CashFlowsValid()) ==> CashFlowsValid()
    {
      if x < 0.0 {
        return Fail(NegativeAppreciation);
      }
      annualAppreciation := x;
      ComputeExpectedReturn();
      res := Pass;
    }

    method SetAnnualExpenses(x: real) returns (res: Outcome<AssetError>)
      modifies this`annualExpenses, this`expectedReturn
      ensures x < 0.0 ==> res == Fail(NegativeExpenses) && unchanged(this)
      ensures x >= 0.0 ==> res == Pass && annualExpenses == x
      ensures x >= 0.0 && initialPropertyValue > 0.0 ==>
                expectedReturn == DerivedReturn(annualRentalIncome, annualAppreciation, x, initialPropertyValue)
      ensures initialPropertyValue <= 0.0 ==> expectedReturn == old(expectedReturn)
      ensures old(CashFlowsValid()) ==> CashFlowsValid()
    {
      if x < 0.0 {
        return Fail(NegativeExpenses);
      }
      annualExpenses := x;
      ComputeExpectedReturn();
      res := Pass;
    }

    method SetInitialPropertyValue(x: real) returns (res: Outcome<AssetError>)
      modifies this`initialPropertyValue, this`expectedReturn
      ensures x <= 0.0 ==> res == Fail(NonPositiveInitialValue) && unchanged(this)
      ensures x > 0.0 ==> res == Pass && initialPropertyValue == x
                          && expectedReturn == DerivedReturn(annualRentalIncome, annualAppreciation, annualExpenses, x)
      ensures old(CashFlowsValid()) ==> CashFlowsValid()
    {
      if x <= 0.0 {
        return Fail(NonPositiveInitialValue);
      }
      initialPropertyValue := x;
      ComputeExpectedReturn();
      res := Pass;
    }

    /** The whole series is replaced; an empty one is refused and leaves the old one. */
    method SetHistoricalReturns(h: seq<real>) returns (res: Outcome<AssetError>)
      modifies this`historicalReturns
      ensures h == [] ==> res == Fail(EmptyHistoricalReturns) && historicalReturns == old(historicalReturns)
      ensures h != [] ==> res == Pass && historicalReturns == h
    {
      if h == [] {
        return Fail(EmptyHistoricalReturns);
      }
      historicalReturns := h;
      res := Pass;
    }

    /** The stored series itself; a sequence value cannot be altered through it. */
    function GetHistoricalReturns(): (r: seq<real>)
      reads this
      ensures r == historicalReturns
      ensures Valid() ==> r != []
    {
      historicalReturns
    }

    /** The population standard deviation of the series: sqrt of its population variance. */
    method GetHistoricalVolatility(sqrt: real -> real) returns (r: Result<real, AssetError>)
      ensures historicalReturns == [] ==> r == Failure(HistoricalReturnsNotSet)
      ensures historicalReturns != [] ==> r == Success(sqrt(PopulationVariance(historicalReturns)))
    {
      var s := historicalReturns;
      if s == [] {
        return Failure(HistoricalReturnsNotSet);
      }
      var size := |s|;
      var mean := 0.0;
      var i := 0;
      while i < size
        invariant 0 <= i <= size
        invariant mean == Sum(s[..i])
      {
        assert s[..i + 1][..i] == s[..i];
        mean := mean + s[i];
        i := i + 1;
      }
      assert s[..size] == s;
      mean := mean / size as real;
      var variance := 0.0;
      i := 0;
      while i < size
        invariant 0 <= i <= size
        invariant variance == SquaredDeviations(s[..i], mean)
      {
        assert s[..i + 1][..i] == s[..i];
        variance := variance + (s[i] - mean) * (s[i] - mean);
        i := i + 1;
      }
      variance := variance / size as real;
      r := Success(sqrt(variance));
    }
  }
}
