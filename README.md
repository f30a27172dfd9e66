# realestatelib core in Dafny

This project models the sequential logic of the realestatelib Java library and
proves properties of it. It covers four parts:

- **Portfolio utilities** (`PortfolioUtils`). The equal-length check on
  historical returns, value-to-weight normalisation, and the two ways of
  aligning histories: extend every history to the longest by interpolation,
  or cut every history to the shortest. It also covers the switch between the
  two on `"i"`/`"c"`, the layout of the matrix handed to the covariance
  estimator, average weights and the uniform initial guess.
- **Assets** (`RealEstateAsset`). Validating setters, the expected return
  derived from the cash flows, a history that is never empty, and the mean and
  variance behind the historical volatility.
- **Portfolio state** (`MPT`). The asset-to-weight map, the `cleanHistory`
  flag, `addAsset`, and the expected return as a weighted sum.
- **Mortgages and interest**. Term unit conversion with Java's 32-bit `int`
  arithmetic, the positivity checks, the month-validity window, the ARM rate
  lookup with its early `break`, and the additive relations between payments,
  total interest, total cost and remaining balance. Simple and compound
  interest across the unit overloads.

Every Java `double` is a Dafny `real`, and Java `int` terms are 32-bit values
whose `term * 12` wraps explicitly (`MortgageBase.Wrap32`). Thrown exceptions
become `Failure`/`Fail` values of a `Result` or `Outcome`. Library maths is a
function parameter: `Math.pow`, `Math.sqrt`, the Neville interpolator and the
covariance estimator. So is the payment annuity, which the Java code computes
itself but which the model keeps abstract. Classes whose fields the Java code
updates are Dafny classes. `AbstractMortgage` inheritance becomes composition:
a `FixedRateMortgage` holds its `AbstractMortgage` base. Maps are keyed by object identity, as Java's
`HashMap` is for assets that do not override `equals`.

One module per Java file: `Interest`, `MortgageBase` (AbstractMortgage.java),
`FixedRate`, `Arm`, `Assets`, `PortfolioUtils` and `Portfolio` (MPT.java).
`Wrappers`, `Sums` and `JavaMath` hold shared helpers; `JavaMath.Power` stands in for `Math.pow`. `Sums.Total` is an
order-independent sum of a map's values; it stands in for iteration over a
`HashMap`.

## Model

| member | source | states |
|---|---|---|
| Interest.SimpleInterest | src/main/java/com/realestate/math/interest/Interest.java:6-8 | interest is zero when the principal or the time is zero |
| Interest.TotalSimpleInterest | src/main/java/com/realestate/math/interest/Interest.java:11-13 | the end value is zero for a zero principal and is the principal itself for zero time |
| Interest.SimpleInterestYM | src/main/java/com/realestate/math/interest/Interest.java:25-27 | the (years, months) overload equals the time-based one at years + months/12 |
| Interest.TotalSimpleInterestYM | src/main/java/com/realestate/math/interest/Interest.java:29-31 | the (years, months) total equals the time-based total at years + months/12 |
| Interest.SimpleInterestYMD | src/main/java/com/realestate/math/interest/Interest.java:41-43 | the (years, months, days) overload equals the time-based one at years + months/12 + days/365, and is zero for a zero principal |
| Interest.TotalSimpleInterestYMD | src/main/java/com/realestate/math/interest/Interest.java:45-47 | the (years, months, days) total equals the time-based total and is zero for a zero principal |
| Interest.FindSimpleInterest | src/main/java/com/realestate/math/interest/Interest.java:58-60 | the found rate times time times principal is the gain; an end value equal to the principal gives rate 0 |
| Interest.FindSimpleInterestInvertsTotal | src/main/java/com/realestate/math/interest/Interest.java:58-60 | finding the rate of a simple-interest end value gives back the rate, for nonzero principal and time |
| Interest.TotalSimpleInterestInvertsFind | src/main/java/com/realestate/math/interest/Interest.java:58-60 | growing the principal at the found rate reaches the given end value |
| Interest.TotalCompoundInterest | src/main/java/com/realestate/math/interest/Interest.java:16-18 | the compound end value is zero for a zero principal, whatever the power function |
| Interest.CompoundInterest | src/main/java/com/realestate/math/interest/Interest.java:21-23 | compound interest plus the principal is the compound end value |
| Interest.TotalCompoundInterestYM | src/main/java/com/realestate/math/interest/Interest.java:33-35 | the (years, months) end value is the time-based one at years + months/12 |
| Interest.CompoundInterestYM | src/main/java/com/realestate/math/interest/Interest.java:37-39 | the (years, months) interest is the time-based interest, and adding the principal gives the (years, months) end value |
| Interest.TotalCompoundInterestYMD | src/main/java/com/realestate/math/interest/Interest.java:49-51 | the (years, months, days) end value is the time-based one |
| Interest.CompoundInterestYMD | src/main/java/com/realestate/math/interest/Interest.java:53-55 | the (years, months, days) interest plus the principal is the matching end value |
| Interest.MonthlyCompoundInterest | src/main/java/com/realestate/math/interest/Interest.java:77-81 | monthly compounding is compounding at rate/12 over 12 x years periods |
| Interest.DailyCompoundInterest | src/main/java/com/realestate/math/interest/Interest.java:83-87 | daily compounding is compounding at rate/365 over 365 x years periods |
| MortgageBase.Wrap32 | src/main/java/com/realestate/mortgage/AbstractMortgage.java:37 | Java int arithmetic: the identity inside the int range, otherwise the value congruent modulo 2^32 |
| MortgageBase.ConvertTerm | src/main/java/com/realestate/mortgage/AbstractMortgage.java:36-42 | succeeds exactly for y/Y/m/M; years become term x 12 when that fits in an int, months stay as given; any other type is refused |
| MortgageBase.ValidatedTerm | src/main/java/com/realestate/mortgage/AbstractMortgage.java:32-43 | succeeds exactly for a positive term of a known type; a non-positive term is refused before the type is looked at |
| MortgageBase.ValidatedTermIsPositive | src/main/java/com/realestate/mortgage/AbstractMortgage.java:33-39 | an accepted term is positive: always for a term in months, and for a term in years provided term x 12 does not overflow |
| MortgageBase.ValidatedTermCanOverflow | src/main/java/com/realestate/mortgage/AbstractMortgage.java:37 | 178956971 years is accepted and stored as the negative month count -2147483644 |
| MortgageBase.YearsAgreeWithMonths | src/main/java/com/realestate/mortgage/AbstractMortgage.java:36-39 | n years converts to the same term as 12n months |
| MortgageBase.AbstractMortgage.SetPrincipal | src/main/java/com/realestate/mortgage/AbstractMortgage.java:10-15 | a principal <= 0 is refused and the old one kept; otherwise it is stored |
| MortgageBase.AbstractMortgage.SetInterestRate | src/main/java/com/realestate/mortgage/AbstractMortgage.java:21-26 | a rate <= 0 is refused and the old one kept; otherwise it is stored |
| MortgageBase.AbstractMortgage.SetTerm | src/main/java/com/realestate/mortgage/AbstractMortgage.java:32-43 | a refused term leaves the stored term unchanged; an accepted one stores the converted month count |
| MortgageBase.AbstractMortgage.CheckMonthValidity | src/main/java/com/realestate/mortgage/AbstractMortgage.java:49-56 | accepts exactly the months 1..term; month <= 0 and month > term give their own errors |
| MortgageBase.AmortizationEntry.constructor | src/main/java/com/realestate/mortgage/AbstractMortgage.java:81 | the default entry has all five amounts 0 |
| MortgageBase.AmortizationEntry.All | src/main/java/com/realestate/mortgage/AbstractMortgage.java:84-90 | the all-args entry stores the five given amounts |
| MortgageBase.AmortizationEntry.SetBeginningBalance | src/main/java/com/realestate/mortgage/AbstractMortgage.java:97-99 | sets the beginning balance and no other field |
| MortgageBase.AmortizationEntry.SetPayment | src/main/java/com/realestate/mortgage/AbstractMortgage.java:105-107 | sets the payment and no other field |
| MortgageBase.AmortizationEntry.SetInterestPaid | src/main/java/com/realestate/mortgage/AbstractMortgage.java:113-115 | sets the interest paid and no other field |
| MortgageBase.AmortizationEntry.SetPrincipalPaid | src/main/java/com/realestate/mortgage/AbstractMortgage.java:121-123 | sets the principal paid and no other field |
| MortgageBase.AmortizationEntry.SetEndingBalance | src/main/java/com/realestate/mortgage/AbstractMortgage.java:129-131 | sets the ending balance and no other field |
| FixedRate.Construct | src/main/java/com/realestate/mortgage/FixedRateMortgage.java:5-9 | construction succeeds exactly for positive principal, rate and term of a known type; the first failing check in the order principal, rate, term is reported |
| FixedRate.YearsConstructionMatchesMonths | src/main/java/com/realestate/mortgage/FixedRateMortgage.java:12-14 | (p, r, n years) builds the same mortgage as (p, r, 12n months) |
| FixedRate.FixedRateMortgage.New | src/main/java/com/realestate/mortgage/FixedRateMortgage.java:5-9 | the object built through the three inherited setters holds exactly the terms of a successful construction, or the first error |
| FixedRate.FixedRateMortgage.NewInYears | src/main/java/com/realestate/mortgage/FixedRateMortgage.java:12-14 | the three-argument form is the four-argument form with "y" |
| FixedRate.FixedRateMortgage.MonthlyInterestRate | src/main/java/com/realestate/mortgage/FixedRateMortgage.java:16-19 | the monthly rate rate/12 is positive for a validly built mortgage |
| FixedRate.RepeatedPaymentIsProduct | src/main/java/com/realestate/mortgage/FixedRateMortgage.java:26-29 | n equal payments added month by month come to the payment times n |
| FixedRate.FixedRateMortgage.CalculateMonthlyPayment | src/main/java/com/realestate/mortgage/FixedRateMortgage.java:16-19 | defines the payment as the annuity at the monthly rate rate/12 over the term; `DependsOnTermsOnly` and `Arm.NoChangesPaysFixedRate` state its properties |
| FixedRate.FixedRateMortgage.CalculateTotalInterest | src/main/java/com/realestate/mortgage/FixedRateMortgage.java:21-24 | the interest is what the total cost exceeds the principal by |
| FixedRate.FixedRateMortgage.CalculateTotalCost | src/main/java/com/realestate/mortgage/FixedRateMortgage.java:26-29 | the total cost is the sum of term equal monthly payments |
| FixedRate.FixedRateMortgage.CalculateRemainingBalance | src/main/java/com/realestate/mortgage/FixedRateMortgage.java:31-34 | defines the balance after k payments by the closed form over the power parameter; `NothingPaidAtStart` and `PaidOffAtTerm` state its properties |
| FixedRate.FixedRateMortgage.NothingPaidAtStart | src/main/java/com/realestate/mortgage/FixedRateMortgage.java:31-34 | after 0 payments the whole principal is owed, given that the power of 0 is 1 |
| FixedRate.FixedRateMortgage.PaidOffAtTerm | src/main/java/com/realestate/mortgage/FixedRateMortgage.java:16-34 | with the closed-form annuity, and a power for which (1+r)^-n (1+r)^n = 1 and (1+r)^n is not 1, the balance after term payments is 0 |
| FixedRate.FixedRateMortgage.CostAndInterest | src/main/java/com/realestate/mortgage/FixedRateMortgage.java:21-29 | total cost is payment x term, and cost minus interest is the principal |
| FixedRate.FixedRateMortgage.DependsOnTermsOnly | src/main/java/com/realestate/mortgage/FixedRateMortgage.java:16-34 | two mortgages with equal principal, rate and term have equal payment and equal remaining balance |
| Arm.ScanRate | src/main/java/com/realestate/mortgage/ARMMortgage.java:25-35 | defines the loop's result: walking the changes in list order, adopt each rate while month >= its month, stop at the first later one; the lemmas below state its properties |
| Arm.ScanYieldsKnownRate | src/main/java/com/realestate/mortgage/ARMMortgage.java:25-35 | the scan result is the initial rate or the rate of some listed change |
| Arm.ScanStopsAtFirstLater | src/main/java/com/realestate/mortgage/ARMMortgage.java:27-33 | if the first k changes apply and change k does not, the scan yields change k-1's rate (the initial rate for k = 0), whatever follows |
| Arm.SortedScanFindsLastChange | src/main/java/com/realestate/mortgage/ARMMortgage.java:25-35 | for changes sorted by month the scan equals the last change at or before the month, found from the end |
| Arm.MonthZeroUsesInitialRate | src/main/java/com/realestate/mortgage/ARMMortgage.java:86-90 | when every change month is >= 1, month 0 gets the initial rate |
| Arm.ARMMortgage.New | src/main/java/com/realestate/mortgage/ARMMortgage.java:10-22 | the constructor refuses an unknown term type, otherwise stores principal, rate, changes and the converted term |
| Arm.ARMMortgage.GetRateForMonth | src/main/java/com/realestate/mortgage/ARMMortgage.java:25-35 | the loop with break computes the list-order scan over the stored changes |
| Arm.ARMMortgage.SetPrincipal | src/main/java/com/realestate/mortgage/ARMMortgage.java:42-44 | stores any principal, unchecked |
| Arm.ARMMortgage.SetInitialRate | src/main/java/com/realestate/mortgage/ARMMortgage.java:51-53 | stores any initial rate, unchecked |
| Arm.ARMMortgage.SetTerm | src/main/java/com/realestate/mortgage/ARMMortgage.java:60-68 | an unknown type is refused and the term kept; otherwise the converted term is stored, with no positivity check |
| Arm.ARMMortgage.SetRateChanges | src/main/java/com/realestate/mortgage/ARMMortgage.java:76-78 | replaces the whole list, so every later lookup scans only the new changes |
| Arm.ARMMortgage.MonthlyPayment | src/main/java/com/realestate/mortgage/ARMMortgage.java:80-83 | defines the payment of a month as the annuity at that month's rate / 12 over the term; `CalculateMonthlyPayment` is proved equal to it |
| Arm.ARMMortgage.PaymentsSplit | src/main/java/com/realestate/mortgage/ARMMortgage.java:107-113 | the payments for months 1..n are those for 1..k plus those for k+1..n |
| Arm.ARMMortgage.CalculateMonthlyPayment | src/main/java/com/realestate/mortgage/ARMMortgage.java:80-83 | the payment is the annuity at the rate for the given month |
| Arm.ARMMortgage.CalculateMonthlyPaymentAtStart | src/main/java/com/realestate/mortgage/ARMMortgage.java:86-90 | the no-argument payment uses month 0, which is the initial rate when every change month is >= 1 |
| Arm.ARMMortgage.CalculateTotalInterest | src/main/java/com/realestate/mortgage/ARMMortgage.java:93-99 | the sum of the payments for months 1..term, minus the principal |
| Arm.ARMMortgage.CalculateTotalCost | src/main/java/com/realestate/mortgage/ARMMortgage.java:102-104 | principal plus total interest, that is the sum of all term payments |
| Arm.NoChangesPaysFixedRate | src/main/java/com/realestate/mortgage/ARMMortgage.java:80-83 | without rate changes every month's payment is the fixed-rate payment of the same terms, and the payments through k months are k equal fixed payments |
| Arm.NoChangesTotalsAgree | src/main/java/com/realestate/mortgage/ARMMortgage.java:93-104 | without rate changes the ARM's total cost and total interest equal the fixed-rate mortgage's |
| Arm.ARMMortgage.CalculateRemainingBalance | src/main/java/com/realestate/mortgage/ARMMortgage.java:107-113 | total cost minus the payments through monthsPaid; for 0 <= k <= term the payments of months k+1..term; 0 at k = term |
| Assets.DerivedReturnTimesValue | src/main/java/com/realestate/mpt/RealEstateAsset.java:48-50 | the derived return times the initial value is rent + appreciation - expenses |
| Assets.CashFlowValuesCheck | src/main/java/com/realestate/mpt/RealEstateAsset.java:93-123 | the four setters accept exactly non-negative flows and a positive value; the first failing one in call order gives the error |
| Assets.CashFlowCheck | src/main/java/com/realestate/mpt/RealEstateAsset.java:18-28 | the constructor passes exactly for non-negative flows, a positive value and a non-empty history; the first failing check in setter order is the error |
| Assets.SquaredDeviationsNonNegative | src/main/java/com/realestate/mpt/RealEstateAsset.java:144-147 | the accumulated squared deviations are never negative |
| Assets.VarianceNonNegative | src/main/java/com/realestate/mpt/RealEstateAsset.java:144-148 | the variance passed to sqrt is never negative |
| Assets.ConstantSeriesHasNoDeviation | src/main/java/com/realestate/mpt/RealEstateAsset.java:144-147 | a constant series has no squared deviation from its value |
| Assets.ConstantSeriesHasNoVariance | src/main/java/com/realestate/mpt/RealEstateAsset.java:137-148 | a constant series has that constant as mean and variance 0 |
| Assets.RealEstateAsset.FromCashFlows | src/main/java/com/realestate/mpt/RealEstateAsset.java:18-28 | fails with the first failing check, otherwise yields a valid asset holding the given values with expected return (rent + appreciation - expenses) / value |
| Assets.RealEstateAsset.FromCashFlowsWithoutId | src/main/java/com/realestate/mpt/RealEstateAsset.java:40-44 | the cash-flow constructor with the id "": the same failures, otherwise a valid asset holding the four given cash flows, the history and the derived return |
| Assets.RealEstateAsset.SetCashFlows | src/main/java/com/realestate/mpt/RealEstateAsset.java:22-25 | the four setters in turn: the outcome is the value check, a pass stores all four values, and the cash-flow invariant is kept |
| Assets.RealEstateAsset.WithExpectedReturn | src/main/java/com/realestate/mpt/RealEstateAsset.java:30-34 | refuses an empty history; otherwise stores the id, the history and the given expected return without deriving it, and leaves the four cash-flow fields at their default 0 |
| Assets.RealEstateAsset.WithExpectedReturnWithoutId | src/main/java/com/realestate/mpt/RealEstateAsset.java:36-38 | the direct-return constructor with the id "": refuses an empty history, otherwise stores the history and the given return with all four cash-flow fields 0 |
| Assets.RealEstateAsset.ComputeExpectedReturn | src/main/java/com/realestate/mpt/RealEstateAsset.java:48-50 | rewrites the expected return as the derived return once the initial value is positive |
| Assets.RealEstateAsset.SetPropertyId | src/main/java/com/realestate/mpt/RealEstateAsset.java:86-91 | stores any id, unchecked |
| Assets.RealEstateAsset.SetAnnualRentalIncome | src/main/java/com/realestate/mpt/RealEstateAsset.java:93-99 | a negative income is refused with nothing changed; otherwise it is stored, the return is re-derived, and the asset invariant is kept |
| Assets.RealEstateAsset.SetAnnualAppreciation | src/main/java/com/realestate/mpt/RealEstateAsset.java:101-107 | a negative appreciation is refused with nothing changed; otherwise it is stored and the return re-derived |
| Assets.RealEstateAsset.SetAnnualExpenses | src/main/java/com/realestate/mpt/RealEstateAsset.java:109-115 | negative expenses are refused with nothing changed; otherwise they are stored and the return re-derived |
| Assets.RealEstateAsset.SetInitialPropertyValue | src/main/java/com/realestate/mpt/RealEstateAsset.java:117-123 | a value <= 0 is refused with nothing changed; otherwise it is stored and the return re-derived |
| Assets.RealEstateAsset.SetHistoricalReturns | src/main/java/com/realestate/mpt/RealEstateAsset.java:125-130 | an empty series is refused and the old one kept; otherwise the series is replaced |
| Assets.RealEstateAsset.GetHistoricalReturns | src/main/java/com/realestate/mpt/RealEstateAsset.java:61-63 | returns exactly the stored series, non-empty for a valid asset |
| Assets.RealEstateAsset.GetHistoricalVolatility | src/main/java/com/realestate/mpt/RealEstateAsset.java:132-151 | the two accumulation loops compute sqrt of the population variance; an empty series is the not-set error |
| PortfolioUtils.FirstLengthIsPairwise | src/main/java/com/realestate/mpt/PortfolioUtils.java:45-51 | comparing every length with the first asset's is the same as all lengths being pairwise equal, so list order does not matter |
| PortfolioUtils.ExtractAssetsFromMap | src/main/java/com/realestate/mpt/PortfolioUtils.java:21-23 | the list holds each key exactly once and nothing else |
| PortfolioUtils.ValidateHistoricalReturnsLength | src/main/java/com/realestate/mpt/PortfolioUtils.java:40-53 | false for an empty list, otherwise true exactly when every history has the first one's length |
| PortfolioUtils.ValidateHistoricalReturnsLengthOfMap | src/main/java/com/realestate/mpt/PortfolioUtils.java:35-38 | true exactly when the map is non-empty and all its assets' histories have the same length |
| PortfolioUtils.HelpComputeWeights | src/main/java/com/realestate/mpt/PortfolioUtils.java:55-69 | refuses an empty list and a zero total; otherwise one weight per value, each value / total |
| PortfolioUtils.WeightsSumToOne | src/main/java/com/realestate/mpt/PortfolioUtils.java:60-68 | the computed weights sum to 1 |
| PortfolioUtils.LongestHistory | src/main/java/com/realestate/mpt/PortfolioUtils.java:77-80 | the maximum history length of a set of assets: a bound that some asset attains, 0 for none |
| PortfolioUtils.ShortestHistory | src/main/java/com/realestate/mpt/PortfolioUtils.java:124-127 | the minimum history length: a lower bound that some asset attains, 0 for none |
| PortfolioUtils.MaxHistoryLength | src/main/java/com/realestate/mpt/PortfolioUtils.java:77-80 | the stream max with orElse(0), computed by a loop: bounds every length and is attained |
| PortfolioUtils.MinHistoryLength | src/main/java/com/realestate/mpt/PortfolioUtils.java:124-127 | the stream min with orElse(0): below every length and attained |
| PortfolioUtils.Abscissae | src/main/java/com/realestate/mpt/PortfolioUtils.java:95 | the interpolation abscissae are 0, 1, ..., n-1 |
| PortfolioUtils.SourceIndex | src/main/java/com/realestate/mpt/PortfolioUtils.java:107 | defines where position i of a series stretched from n to L entries samples the original: i(n-1)/(L-1); `SourceIndexInRange` bounds it |
| PortfolioUtils.SourceIndexInRange | src/main/java/com/realestate/mpt/PortfolioUtils.java:106-109 | every filled position samples the interpolant inside [0, n-1], the abscissae it was built on |
| PortfolioUtils.Resampled | src/main/java/com/realestate/mpt/PortfolioUtils.java:94-111 | a history at least L long is unchanged; a shorter one gets length L, keeps its entries as a prefix, and position i >= n holds its interpolant at i(n-1)/(L-1) |
| PortfolioUtils.Truncated | src/main/java/com/realestate/mpt/PortfolioUtils.java:132-135 | a cut history is a prefix of the original, of the minimum length when longer, and unchanged otherwise |
| PortfolioUtils.ResampleHistory | src/main/java/com/realestate/mpt/PortfolioUtils.java:95-109 | the two fill loops over the new array produce the resampled history |
| PortfolioUtils.ExtendHistory | src/main/java/com/realestate/mpt/PortfolioUtils.java:90-111 | one asset's history becomes its resampling and the asset stays valid |
| PortfolioUtils.CutHistory | src/main/java/com/realestate/mpt/PortfolioUtils.java:131-135 | one asset's history becomes its truncation and the asset stays valid |
| PortfolioUtils.ExtendHistories | src/main/java/com/realestate/mpt/PortfolioUtils.java:89-113 | every listed asset's history becomes its resampling to the given length |
| PortfolioUtils.CutHistories | src/main/java/com/realestate/mpt/PortfolioUtils.java:130-136 | every listed asset's history becomes its truncation to the given length |
| PortfolioUtils.InterpolateHistories | src/main/java/com/realestate/mpt/PortfolioUtils.java:72-116 | returns the same map; each history is its original resampled to the original maximum length L, and all now have length L |
| PortfolioUtils.CutHistoriesToShortest | src/main/java/com/realestate/mpt/PortfolioUtils.java:120-138 | returns the same map; each history is its original cut to the original minimum length, and all now have that length |
| PortfolioUtils.ParseCleanMethod | src/main/java/com/realestate/mpt/PortfolioUtils.java:141-145 | "i" selects interpolation, "c" truncation, anything else is the invalid-method error |
| PortfolioUtils.HistoryCleaning | src/main/java/com/realestate/mpt/PortfolioUtils.java:140-146 | an unknown code is refused with nothing changed; "i"/"c" run the chosen alignment, return the same map, and leave all histories of one length |
| PortfolioUtils.ReturnRows | src/main/java/com/realestate/mpt/PortfolioUtils.java:150-159 | the m x n matrix, m from the first series, whose entry [i][j] is series j's i-th value |
| PortfolioUtils.BuildReturnsMatrix | src/main/java/com/realestate/mpt/PortfolioUtils.java:148-159 | the nested loops fill [i, j] with asset j's i-th return; an empty list or a history shorter than the first fails |
| PortfolioUtils.ComputeCovarianceMatrix | src/main/java/com/realestate/mpt/PortfolioUtils.java:148-167 | the estimator applied to exactly that return matrix, with the same failure cases |
| PortfolioUtils.CalculateAverageWeights | src/main/java/com/realestate/mpt/PortfolioUtils.java:169-183 | one entry per asset, each weight over the total weight, in the map's value order; an empty map gives an empty array |
| PortfolioUtils.InitialGuess | src/main/java/com/realestate/mpt/PortfolioUtils.java:186-192 | n entries of 1/n, summing to 1 for n > 0 |
| Sums.SumValues | src/main/java/com/realestate/mpt/PortfolioUtils.java:173 | summing the map's values in any order gives the order-independent total |
| Portfolio.ListToMap | src/main/java/com/realestate/mpt/MPT.java:29-32 | defines the map the put loop builds, in list order with later puts overwriting; `ListToMapKeys` and `ListToMapLastWins` state its properties |
| Portfolio.ListToMapKeys | src/main/java/com/realestate/mpt/MPT.java:29-32 | the list-built map has exactly the listed assets as keys |
| Portfolio.ListToMapLastWins | src/main/java/com/realestate/mpt/MPT.java:29-32 | an asset maps to the weight at its last occurrence: later duplicates overwrite earlier ones |
| Portfolio.Contributions | src/main/java/com/realestate/mpt/MPT.java:46-50 | each asset contributes its expected return times its weight |
| Portfolio.ExpectedReturnOf | src/main/java/com/realestate/mpt/MPT.java:44-52 | the weighted sum over the map, not normalised; 0 for an empty map |
| Portfolio.ContributionsUpdate | src/main/java/com/realestate/mpt/MPT.java:39-42 | setting one weight changes only that asset's contribution |
| Portfolio.AddNewAssetExpectedReturn | src/main/java/com/realestate/mpt/MPT.java:39-52 | adding a new asset adds exactly its expected return times its weight |
| Portfolio.ReweightAssetExpectedReturn | src/main/java/com/realestate/mpt/MPT.java:39-52 | re-weighting an asset swaps its old contribution for the new one |
| Portfolio.MPT.constructor | src/main/java/com/realestate/mpt/MPT.java:12-15 | an empty map with the flag false |
| Portfolio.MPT.FromMap | src/main/java/com/realestate/mpt/MPT.java:18-21 | a copy of the map, flagged clean exactly when it is non-empty with equal-length histories |
| Portfolio.MPT.FromLists | src/main/java/com/realestate/mpt/MPT.java:24-34 | refused exactly when the list lengths differ; otherwise the map puts the pairs in order, and the flag is the list validator's verdict |
| Portfolio.MPT.AddAsset | src/main/java/com/realestate/mpt/MPT.java:39-42 | inserts or overwrites one entry, keeps all others, and clears the flag |
| Portfolio.MPT.PortfolioExpectedReturn | src/main/java/com/realestate/mpt/MPT.java:44-52 | the loop over entries computes the weighted sum of expected returns |

## Left out

- Floating point: every `double` is an exact real. Rounding, NaN and Infinity are not modelled, so the identities (weights summing to 1, cost minus interest equal to principal, zero balance at the end of the term) hold in exact arithmetic only.
- `Math.pow` and `Math.sqrt` are library calls and become function parameters (`JavaMath.Power`, and the `sqrt` argument of `GetHistoricalVolatility`).
- The payment formula `principal * r / (1 - Math.pow(1 + r, -term))` is computed by the Java code itself (FixedRateMortgage.java:18, ARMMortgage.java:82, 89). Keeping it abstract as the parameter `MortgageBase.Annuity` is a modelling choice. The model therefore does not capture that the payment is this expression: the fixed-rate and ARM payments, totals and balances hold for any payment formula. Only `FixedRate.FixedRateMortgage.PaidOffAtTerm` assumes the closed form, as a hypothesis.
- `findCompoundInterestRate`, `continuousCompoundInterest`, `findContinuousCompoundRate`, `findMonthlyCompoundRate` and `findDailyCompoundRate` (Interest.java:62-74, 90-96) are not modelled: they are single `exp`/`log`/fractional-root formulas with no logic beyond the library call.
- Interest.FindSimpleInterest: requires a nonzero principal and time, where Java divides anyway and returns NaN or Infinity; the interest functions throw nothing on a zero principal or time.
- The Neville interpolator is a parameter. Its own failure on fewer than two points is not modelled; that happens when a single-entry history is extended.
- The covariance estimator is a parameter. Its own requirements on the matrix shape are not modelled.
- `Mortgage.java` is an interface without logic. `printAmortizationSchedule` and the `toString` methods only produce text.
- `calculateRemainingPayments` and `generateAmortizationSchedule` are abstract in AbstractMortgage.java and have no implementation.
- Plain getters are not separate members: Dafny reads the fields directly. `getHistoricalReturns` is modelled; its unmodifiable view becomes an immutable sequence.
- `extractWeightsFromMap` and `extractWeightsFromMapAsArray` (PortfolioUtils.java:25-32) are not modelled, because their result depends on `HashMap` iteration order. For the same reason `PortfolioUtils.CalculateAverageWeights` returns its entry order as a ghost list instead of fixing one.
- PortfolioUtils.CalculateAverageWeights: excludes only a non-empty map whose weights total zero; there Java divides by zero and fills the array with NaN or Infinity. The empty map is accepted and gives an empty array, as in Java.
- PortfolioUtils.InitialGuess: takes a natural number, so the `NegativeArraySizeException` Java throws for a negative count is not modelled.
- Null arguments (`assets == null`, a null history) are not modelled: Dafny values are never null.
- PortfolioUtils.InterpolateHistories: requires every asset to be valid, which guarantees non-empty histories. In the model every asset holds a non-empty history. In Java a history can also be emptied through an alias of the stored list (see the aliasing line below). The requires excludes that case, where an empty (zero-point) abscissa array reaches the interpolator, which throws. `CutHistoriesToShortest` and `CutHistories` exclude it the same way; in Java `setHistoricalReturns(subList(0, 0))` would throw there.
- PortfolioUtils.InterpolateHistories: gives every history the original maximum length, and `CutHistoriesToShortest` gives every one the original minimum length. The same-length predicate itself (`AllSameLength`) is concluded in `PortfolioUtils.HistoryCleaning`, after either alignment.
- List aliasing is not modelled: stored lists are immutable sequences, copied by value. In Java:
  - `setHistoricalReturns` (RealEstateAsset.java:129) and the ARM constructor and `setRateChanges` (ARMMortgage.java:13, 76-77) store the caller's `List` itself.
  - `getHistoricalReturns` (RealEstateAsset.java:61-63) returns a live read-only view, and `getRateChanges` (ARMMortgage.java:72-74) returns the list itself.
  - `cutHistoriesToShortest` (PortfolioUtils.java:133) installs a `subList` view backed by the old history.

  A later change through the caller's list therefore changes the asset's history or the mortgage's schedule, and can empty a history after validation. This affects `Assets.RealEstateAsset.SetHistoricalReturns`, `GetHistoricalReturns` and `GetHistoricalVolatility` (whose not-set error is reachable only this way), `Arm.ARMMortgage.New` and `SetRateChanges`, `PortfolioUtils.CutHistory` and the alignment methods.
- Sharing of one asset object between several portfolios is not modelled. Inside one map each asset is a distinct key.
- MortgageBase.ValidatedTermIsPositive: for a term in years, requires that term x 12 does not overflow; `MortgageBase.ValidatedTermCanOverflow` shows the wrapped negative term Java stores otherwise.
- Arm.ARMMortgage.CalculateTotalInterest: with `term == Integer.MAX_VALUE` the Java counter in `i <= term` wraps and the loop never stops; the model's counter is unbounded and sums months 1..term. `Arm.ARMMortgage.CalculateTotalCost` returns `principal + calculateTotalInterest()` (ARMMortgage.java:103), so it never returns in that case either. `CalculateRemainingBalance` is the same for `monthsPaid`, and it also calls `calculateTotalCost`.
- The ARM constructor assigns principal, rate and changes before it throws on a bad term type. The half-built object is unreachable after the throw, so the model builds nothing on failure.
- Assets.RealEstateAsset.ComputeExpectedReturn: re-derives the return only once the initial value is positive. Java always divides, so a cash-flow setter called before the initial value is set writes NaN or Infinity. In the cash-flow constructor that value is overwritten and the end result is the same. On an asset built with a direct expected return, a later cash-flow setter leaves that return untouched in the model, where Java overwrites it with NaN or Infinity.
- Portfolio volatility, Sharpe ratio and the optimiser are commented out in MPT.java. `historyCleaner` and an `MPT(map, cleanMethod)` constructor do not exist in the code.
- ARM behaviour that the code does not have is not modelled: validation of principal or changes, order-independent lookup, and `calculateRemainingPayments`.
