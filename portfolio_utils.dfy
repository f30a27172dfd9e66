/**
 * com.realestate.mpt.PortfolioUtils: equal-length validation of historical
 * returns, value-to-weight normalisation, the two history-alignment policies
 * (resample to the longest, truncate to the shortest), the layout of the
 * return matrix handed to the covariance routine, average weights and the
 * uniform initial guess. The Neville interpolator and the covariance
 * estimator are library code and enter as parameters.
 */
module PortfolioUtils {
  import opened Wrappers
  import opened Sums
  import opened Assets

  /** The IllegalArgumentException cases of the utilities and the index errors of the matrix layout. */
  datatype UtilsError =
    | EmptyAssetValues
    | ZeroTotalValue
    | InvalidCleanMethod
    | EmptyAssetList
    | HistoryTooShort

  /** The interpolator's interpolate(xvals, yvals): a univariate function through the points. */
  type Interpolator = (seq<real>, seq<real>) -> (real -> real)

  /** The covariance estimator: from an m x n matrix of returns to the n x n covariance matrix. */
  type CovarianceEstimator = seq<seq<real>> -> seq<seq<real>>

  predicate Distinct<T(==)>(s: seq<T>)
  {
    forall i, j :: 0 <= i < j < |s| ==> s[i] != s[j]
  }

  /** Every history in the set has the same length. */
  ghost predicate AllSameLength(assets: set<RealEstateAsset>)
    reads assets
  {
    forall a, b :: a in assets && b in assets ==> |a.historicalReturns| == |b.historicalReturns|
  }

  /** Every history in the list has the length of the first one. */
  ghost predicate SameLengthAsFirst(assets: seq<RealEstateAsset>)
    requires assets != []
    reads set a | a in assets
  {
    forall i :: 0 <= i < |assets| ==> |assets[i].historicalReturns| == |assets[0].historicalReturns|
  }

  /** Comparing against the first asset is the same as comparing every pair: the list order does not matter. */
  lemma FirstLengthIsPairwise(assets: seq<RealEstateAsset>)
    requires assets != []
    ensures SameLengthAsFirst(assets) <==> AllSameLength(set a | a in assets)
  {
    if SameLengthAsFirst(assets) {
      forall a, b | a in assets && b in assets
        ensures |a.historicalReturns| == |b.historicalReturns|
      {
        var i :| 0 <= i < |assets| && assets[i] == a;
        var j :| 0 <= j < |assets| && assets[j] == b;
      }
    }
  }

  lemma CommonLengthIsSameLength(assets: set<RealEstateAsset>, n: nat)
    requires forall a :: a in assets ==> |a.historicalReturns| == n
    ensures AllSameLength(assets)
  {
  }

  /** The keys of the map as a list without repetitions, in whatever order the map yields them. */
  method ExtractAssetsFromMap(m: map<RealEstateAsset, real>) returns (assets: seq<RealEstateAsset>)
    ensures Distinct(assets) && |assets| == |m.Keys|
    ensures forall a :: a in assets <==> a in m
  {
    assets := [];
    var rest := m.Keys;
    while rest != {}
      invariant Distinct(assets)
      invariant forall a :: a in assets ==> a in m && a !in rest
      invariant forall a :: a in m ==> a in assets || a in rest
      invariant rest <= m.Keys
      invariant |assets| + |rest| == |m.Keys|
      decreases |rest|
    {
      var a :| a in rest;
      assets := assets + [a];
      rest := rest - {a};
    }
  }

  /** validateHistoricalReturnsLength(List): false for no assets, else whether all match the first. */
  method ValidateHistoricalReturnsLength(assets: seq<RealEstateAsset>) returns (ok: bool)
    ensures ok <==> assets != [] && SameLengthAsFirst(assets)
  {
    if assets == [] {
      return false;
    }
    var referenceSize := |assets[0].GetHistoricalReturns()|;
    for i := 0 to |assets|
      invariant forall j :: 0 <= j < i ==> |assets[j].historicalReturns| == referenceSize
    {
      if |assets[i].GetHistoricalReturns()| != referenceSize {
        return false;
      }
    }
    return true;
  }

  /** validateHistoricalReturnsLength(Map): the list check over the map's keys. */
  method ValidateHistoricalReturnsLengthOfMap(m: map<RealEstateAsset, real>) returns (ok: bool)
    ensures ok <==> m != map[] && AllSameLength(m.Keys)
  {
    var assets := ExtractAssetsFromMap(m);
    ok := ValidateHistoricalReturnsLength(assets);
    if assets != [] {
      FirstLengthIsPairwise(assets);
      assert (set a | a in assets) == m.Keys;
    } else {
      assert m.Keys == {};
    }
  }

  /** Each value over the total of all values; refused for no values or a zero total. */
  function HelpComputeWeights(assetValues: seq<real>): (r: Result<seq<real>, UtilsError>)
    ensures assetValues == [] ==> r == Failure(EmptyAssetValues)
    ensures assetValues != [] && Sum(assetValues) == 0.0 ==> r == Failure(ZeroTotalValue)
    ensures assetValues != [] && Sum(assetValues) != 0.0 ==>
              && r.Success? && |r.value| == |assetValues|
              && forall i :: 0 <= i < |assetValues| ==> r.value[i] == assetValues[i] / Sum(assetValues)
  {
    if assetValues == [] then Failure(EmptyAssetValues)
    else
      var totalValue := Sum(assetValues);
      if totalValue == 0.0 then Failure(ZeroTotalValue)
      else Success(seq(|assetValues|, i requires 0 <= i < |assetValues| => assetValues[i] / totalValue))
  }

  /** Normalised weights sum to 1 (in exact arithmetic). */
  lemma WeightsSumToOne(assetValues: seq<real>)
    requires HelpComputeWeights(assetValues).Success?
    ensures Sum(HelpComputeWeights(assetValues).value) == 1.0
  {
    var total := Sum(assetValues);
    SumOfQuotients(assetValues, HelpComputeWeights(assetValues).value, total);
    assert total / total == 1.0;
  }

  /** The length of the longest history in the set, 0 for none. */
  ghost function LongestHistory(assets: set<RealEstateAsset>): (n: nat)
    reads assets
    ensures forall a :: a in assets ==> |a.historicalReturns| <= n
    ensures assets != {} ==> exists a :: a in assets && |a.historicalReturns| == n
    ensures assets == {} ==> n == 0
    decreases |assets|
  {
    if assets == {} then 0
    else
      var a := Pick(assets);
      var rest := LongestHistory(assets - {a});
      if |a.historicalReturns| >= rest then |a.historicalReturns| else rest
  }

  /** The length of the shortest history in the set, 0 for none. */
  ghost function ShortestHistory(assets: set<RealEstateAsset>): (n: nat)
    reads assets
    ensures forall a :: a in assets ==> n <= |a.historicalReturns|
    ensures assets != {} ==> exists a :: a in assets && |a.historicalReturns| == n
    ensures assets == {} ==> n == 0
    decreases |assets|
  {
    if assets == {} then 0
    else
      var a := Pick(assets);
      if assets - {a} == {} then
        assert assets == {a};
        |a.historicalReturns|
      else
        var rest := ShortestHistory(assets - {a});
        if |a.historicalReturns| <= rest then |a.historicalReturns| else rest
  }

  /** The abscissae 0, 1, ..., n - 1 the interpolant is built on. */
  function Abscissae(n: nat): (xs: seq<real>)
    ensures |xs| == n && forall i :: 0 <= i < n ==> xs[i] == i as real
  {
    seq(n, i => i as real)
  }

  /** Where position i of a series stretched from n to longest entries samples the original. */
  function SourceIndex(i: nat, n: nat, longest: nat): real
    requires longest >= 2
  {
    i as real * (n as real - 1.0) / (longest as real - 1.0)
  }

  /** Every filled position samples the interpolant inside the original abscissae [0, n - 1]. */
  lemma SourceIndexInRange(i: nat, n: nat, longest: nat)
    requires 1 <= n < longest && i < longest
    ensures 0.0 <= SourceIndex(i, n, longest) <= n as real - 1.0
  {
    var d := longest as real - 1.0;
    var x := i as real * (n as real - 1.0);
    var top := n as real - 1.0;
    assert 0.0 <= x by {
      assert 0.0 <= i as real && 0.0 <= top;
    }
    assert x <= d * top by {
      assert i as real <= d && 0.0 <= top;
    }
    QuotientBounds(x, d, top);
  }

  lemma QuotientBounds(x: real, d: real, top: real)
    requires d > 0.0 && 0.0 <= x <= d * top
    ensures 0.0 <= x / d <= top
  {
    assert x / d * d == x;
  }

  /**
   * A history after interpolateHistories with longest entries: unchanged when
   * already that long, otherwise its own entries first and then the asset's
   * interpolant at the stretched source index.
   */
  function Resampled(h: seq<real>, longest: nat, interpolator: Interpolator): (r: seq<real>)
    requires h != []
    ensures |h| >= longest ==> r == h
    ensures |h| < longest ==> |r| == longest && r[..|h|] == h
    ensures forall i :: |h| <= i < |r| ==>
              r[i] == interpolator(Abscissae(|h|), h)(SourceIndex(i, |h|, longest))
  {
    if |h| >= longest then h
    else
      var f := interpolator(Abscissae(|h|), h);
      seq(longest, i requires 0 <= i < longest => if i < |h| then h[i] else f(SourceIndex(i, |h|, longest)))
  }

  /** A history after cutHistoriesToShortest with shortest entries: its first shortest entries. */
  function Truncated(h: seq<real>, shortest: nat): (r: seq<real>)
    ensures |h| <= shortest ==> r == h
    ensures |h| > shortest ==> |r| == shortest
    ensures r == h[..|r|]
  {
    if |h| > shortest then h[..shortest] else h
  }

  /** The longest history of a list (stream max, orElse 0). */
  method MaxHistoryLength(assets: seq<RealEstateAsset>) returns (n: nat)
    ensures forall i :: 0 <= i < |assets| ==> |assets[i].historicalReturns| <= n
    ensures assets != [] ==> exists i :: 0 <= i < |assets| && |assets[i].historicalReturns| == n
    ensures assets == [] ==> n == 0
  {
    n := 0;
    for k := 0 to |assets|
      invariant forall i :: 0 <= i < k ==> |assets[i].historicalReturns| <= n
      invariant k > 0 ==> exists i :: 0 <= i < k && |assets[i].historicalReturns| == n
      invariant k == 0 ==> n == 0
    {
      if |assets[k].historicalReturns| > n || k == 0 {
        n := |assets[k].historicalReturns|;
      }
    }
  }

  /** The shortest history of a list (stream min, orElse 0). */
  method MinHistoryLength(assets: seq<RealEstateAsset>) returns (n: nat)
    ensures forall i :: 0 <= i < |assets| ==> n <= |assets[i].historicalReturns|
    ensures assets != [] ==> exists i :: 0 <= i < |assets| && |assets[i].historicalReturns| == n
    ensures assets == [] ==> n == 0
  {
    n := 0;
    for k := 0 to |assets|
      invariant forall i :: 0 <= i < k ==> n <= |assets[i].historicalReturns|
      invariant k > 0 ==> exists i :: 0 <= i < k && |assets[i].historicalReturns| == n
      invariant k == 0 ==> n == 0
    {
      if |assets[k].historicalReturns| < n || k == 0 {
        n := |assets[k].historicalReturns|;
      }
    }
  }

  /** An upper bound that is attained is the maximum. */
  lemma LongestIsUnique(m: map<RealEstateAsset, real>, assets: seq<RealEstateAsset>, n: nat)
    requires forall a :: a in assets <==> a in m
    requires forall i :: 0 <= i < |assets| ==> |assets[i].historicalReturns| <= n
    requires assets != [] ==> exists i :: 0 <= i < |assets| && |assets[i].historicalReturns| == n
    requires assets == [] ==> n == 0
    ensures n == LongestHistory(m.Keys)
  {
    var l := LongestHistory(m.Keys);
    if assets != [] {
      var i :| 0 <= i < |assets| && |assets[i].historicalReturns| == n;
      assert assets[i] in m;
      var a :| a in m.Keys && |a.historicalReturns| == l;
      assert a in assets;
    } else {
      assert m.Keys == {};
    }
  }

  /** A lower bound that is attained is the minimum. */
  lemma ShortestIsUnique(m: map<RealEstateAsset, real>, assets: seq<RealEstateAsset>, n: nat)
    requires forall a :: a in assets <==> a in m
    requires forall i :: 0 <= i < |assets| ==> n <= |assets[i].historicalReturns|
    requires assets != [] ==> exists i :: 0 <= i < |assets| && |assets[i].historicalReturns| == n
    requires assets == [] ==> n == 0
    ensures n == ShortestHistory(m.Keys)
  {
    var l := ShortestHistory(m.Keys);
    if assets != [] {
      var i :| 0 <= i < |assets| && |assets[i].historicalReturns| == n;
      assert assets[i] in m;
      var a :| a in m.Keys && |a.historicalReturns| == l;
      assert a in assets;
    } else {
      assert m.Keys == {};
    }
  }

  /** The new history of a shorter asset: a copy of its entries, then the interpolated tail. */
  method ResampleHistory(history: seq<real>, longest: nat, interpolator: Interpolator) returns (newHistory: seq<real>)
    requires history != [] && |history| < longest
    ensures newHistory == Resampled(history, longest, interpolator)
  {
    var interpolant := interpolator(Abscissae(|history|), history);
    var buffer := new real[longest];
    for i := 0 to |history|
      invariant forall j :: 0 <= j < i ==> buffer[j] == history[j]
    {
      buffer[i] := history[i];
    }
    for i := |history| to longest
      invariant forall j :: 0 <= j < |history| ==> buffer[j] == history[j]
      invariant forall j :: |history| <= j < i ==> buffer[j] == interpolant(SourceIndex(j, |history|, longest))
    {
      var interpolatedIndex := SourceIndex(i, |history|, longest);
      buffer[i] := interpolant(interpolatedIndex);
    }
    newHistory := buffer[..];
    assert |newHistory| == |Resampled(history, longest, interpolator)|;
  }

  /** One asset of interpolateHistories: a history shorter than longest is replaced by its resampling. */
  method ExtendHistory(asset: RealEstateAsset, longest: nat, interpolator: Interpolator)
    requires asset.Valid()
    modifies asset`historicalReturns
    ensures asset.historicalReturns == Resampled(old(asset.historicalReturns), longest, interpolator)
    ensures asset.Valid()
  {
    var history := asset.GetHistoricalReturns();
    if |history| < longest {
      var newHistory := ResampleHistory(history, longest, interpolator);
      var res := asset.SetHistoricalReturns(newHistory);
    }
  }

  /** One asset of cutHistoriesToShortest: a history longer than shortest keeps only its first shortest entries. */
  method CutHistory(asset: RealEstateAsset, shortest: nat)
    requires asset.Valid() && shortest > 0
    modifies asset`historicalReturns
    ensures asset.historicalReturns == Truncated(old(asset.historicalReturns), shortest)
    ensures asset.Valid()
  {
    var historicalReturns := asset.GetHistoricalReturns();
    if |historicalReturns| > shortest {
      historicalReturns := historicalReturns[..shortest];
      var res := asset.SetHistoricalReturns(historicalReturns);
    }
  }

  /** The loop of interpolateHistories over the asset list. */
  method ExtendHistories(assets: seq<RealEstateAsset>, longest: nat, interpolator: Interpolator)
    requires Distinct(assets) && forall a :: a in assets ==> a.Valid()
    requires forall a :: a in assets ==> |a.historicalReturns| <= longest
    modifies (set a | a in assets)`historicalReturns
    ensures forall a :: a in assets ==>
              && a.Valid() && old(a.historicalReturns) != []
              && a.historicalReturns == Resampled(old(a.historicalReturns), longest, interpolator)
              && |a.historicalReturns| == longest
  {
    for k := 0 to |assets|
      invariant forall j :: k <= j < |assets| ==> assets[j].historicalReturns == old(assets[j].historicalReturns)
      invariant forall j :: 0 <= j < |assets| ==> assets[j].Valid()
      invariant forall j :: 0 <= j < k ==>
                  assets[j].historicalReturns == Resampled(old(assets[j].historicalReturns), longest, interpolator)
    {
      ExtendHistory(assets[k], longest, interpolator);
    }
    forall a | a in assets
      ensures a.Valid() && old(a.historicalReturns) != []
      ensures a.historicalReturns == Resampled(old(a.historicalReturns), longest, interpolator)
      ensures |a.historicalReturns| == longest
    {
      var j :| 0 <= j < |assets| && assets[j] == a;
      assert a.historicalReturns == Resampled(old(a.historicalReturns), longest, interpolator);
      assert old(|a.historicalReturns|) <= longest;
    }
  }

  /** The loop of cutHistoriesToShortest over the asset list. */
  method CutHistories(assets: seq<RealEstateAsset>, shortest: nat)
    requires Distinct(assets) && forall a :: a in assets ==> a.Valid()
    requires assets != [] ==> shortest > 0
    requires forall a :: a in assets ==> shortest <= |a.historicalReturns|
    modifies (set a | a in assets)`historicalReturns
    ensures forall a :: a in assets ==>
              && a.Valid() && a.historicalReturns == Truncated(old(a.historicalReturns), shortest)
              && |a.historicalReturns| == shortest
  {
    for k := 0 to |assets|
      invariant forall j :: k <= j < |assets| ==> assets[j].historicalReturns == old(assets[j].historicalReturns)
      invariant forall j :: 0 <= j < |assets| ==> assets[j].Valid()
      invariant forall j :: 0 <= j < k ==>
                  assets[j].historicalReturns == Truncated(old(assets[j].historicalReturns), shortest)
    {
      CutHistory(assets[k], shortest);
    }
    forall a | a in assets
      ensures a.Valid() && a.historicalReturns == Truncated(old(a.historicalReturns), shortest)
      ensures |a.historicalReturns| == shortest
    {
      var j :| 0 <= j < |assets| && assets[j] == a;
    }
  }

  /**
   * Brings every history to the longest length: shorter ones keep their own
   * entries and are extended from their own interpolant; the map is returned as is.
   */
  method InterpolateHistories(m: map<RealEstateAsset, real>, interpolator: Interpolator)
    returns (r: map<RealEstateAsset, real>)
    requires forall a :: a in m ==> a.Valid()
    modifies m.Keys`historicalReturns
    ensures r == m
    ensures forall a :: a in m ==>
              && old(a.historicalReturns) != []
              && a.historicalReturns == Resampled(old(a.historicalReturns), old(LongestHistory(m.Keys)), interpolator)
    ensures forall a :: a in m ==> a.Valid() && |a.historicalReturns| == old(LongestHistory(m.Keys))
  {
    ghost var longest0 := LongestHistory(m.Keys);
    var assets := ExtractAssetsFromMap(m);
    var longest := MaxHistoryLength(assets);
    LongestIsUnique(m, assets, longest);
    assert longest == longest0;
    ExtendHistories(assets, longest, interpolator);
    r := m;
  }

  /** Cuts every longer history down to its first shortest-length entries; the map is returned as is. */
  method CutHistoriesToShortest(m: map<RealEstateAsset, real>) returns (r: map<RealEstateAsset, real>)
    requires forall a :: a in m ==> a.Valid()
    modifies m.Keys`historicalReturns
    ensures r == m
    ensures forall a :: a in m ==>
              a.historicalReturns == Truncated(old(a.historicalReturns), old(ShortestHistory(m.Keys)))
    ensures forall a :: a in m ==> a.Valid() && |a.historicalReturns| == old(ShortestHistory(m.Keys))
  {
    ghost var shortest0 := ShortestHistory(m.Keys);
    var assets := ExtractAssetsFromMap(m);
    var shortest := MinHistoryLength(assets);
    ShortestIsUnique(m, assets, shortest);
    assert shortest == shortest0;
    assert assets != [] ==> shortest > 0;
    CutHistories(assets, shortest);
    r := m;
  }

  /** The two alignment policies, selected by a one-letter code. */
  datatype CleanMethod = Interpolate | Cut

  /** "i" selects interpolation, "c" truncation; every other code is refused. */
  function ParseCleanMethod(cleanMethod: string): (r: Result<CleanMethod, UtilsError>)
    ensures r == Success(Interpolate) <==> cleanMethod == "i"
    ensures r == Success(Cut) <==> cleanMethod == "c"
    ensures r.Failure? <==> r == Failure(InvalidCleanMethod)
  {
    match cleanMethod
    case "i" => Success(Interpolate)
    case "c" => Success(Cut)
    case _ => Failure(InvalidCleanMethod)
  }

  /** Runs the selected alignment and returns the same map, or refuses an unknown code untouched. */
  method HistoryCleaning(m: map<RealEstateAsset, real>, cleanMethod: string, interpolator: Interpolator)
    returns (r: Result<map<RealEstateAsset, real>, UtilsError>)
    requires forall a :: a in m ==> a.Valid()
    modifies m.Keys`historicalReturns
    ensures ParseCleanMethod(cleanMethod).Failure? ==> r == Failure(InvalidCleanMethod) && unchanged(m.Keys)
    ensures ParseCleanMethod(cleanMethod).Success? ==> r == Success(m) && AllSameLength(m.Keys)
    ensures cleanMethod == "i" ==> forall a :: a in m ==>
              && old(a.historicalReturns) != []
              && a.historicalReturns == Resampled(old(a.historicalReturns), old(LongestHistory(m.Keys)), interpolator)
    ensures cleanMethod == "c" ==> forall a :: a in m ==>
              a.historicalReturns == Truncated(old(a.historicalReturns), old(ShortestHistory(m.Keys)))
    ensures forall a :: a in m ==> a.Valid()
  {
    match ParseCleanMethod(cleanMethod)
    case Success(Interpolate) =>
      ghost var longest := LongestHistory(m.Keys);
      var cleaned := InterpolateHistories(m, interpolator);
      CommonLengthIsSameLength(m.Keys, longest);
      r := Success(cleaned);
    case Success(Cut) =>
      ghost var shortest := ShortestHistory(m.Keys);
      var cleaned := CutHistoriesToShortest(m);
      CommonLengthIsSameLength(m.Keys, shortest);
      r := Success(cleaned);
    case Failure(e) =>
      r := Failure(e);
  }

  /** The histories of the assets, in list order. */
  ghost function Histories(assets: seq<RealEstateAsset>): (hs: seq<seq<real>>)
    reads set a | a in assets
    ensures |hs| == |assets| && forall j :: 0 <= j < |assets| ==> hs[j] == assets[j].historicalReturns
  {
    seq(|assets|, j requires 0 <= j < |assets| reads set a | a in assets => assets[j].historicalReturns)
  }

  /** The m x n return matrix: row i holds the i-th return of every series, m taken from the first. */
  function ReturnRows(histories: seq<seq<real>>): (rows: seq<seq<real>>)
    requires histories != []
    requires forall j :: 0 <= j < |histories| ==> |histories[0]| <= |histories[j]|
    ensures |rows| == |histories[0]|
    ensures forall i :: 0 <= i < |rows| ==> |rows[i]| == |histories|
    ensures forall i, j :: 0 <= i < |rows| && 0 <= j < |histories| ==> rows[i][j] == histories[j][i]
  {
    seq(|histories[0]|, i requires 0 <= i < |histories[0]| =>
      seq(|histories|, j requires 0 <= j < |histories| => histories[j][i]))
  }

  /**
   * The nested loops of computeCovarianceMatrix. Java fails with an index error
   * on an empty list (no first asset) and on a history shorter than the first.
   */
  method BuildReturnsMatrix(assets: seq<RealEstateAsset>) returns (r: Result<array2<real>, UtilsError>)
    ensures assets == [] ==> r == Failure(EmptyAssetList)
    ensures assets != [] ==>
              (r.Success? <==> forall j :: 0 <= j < |assets| ==> |assets[0].historicalReturns| <= |assets[j].historicalReturns|)
    ensures r.Failure? ==> r.error == EmptyAssetList || r.error == HistoryTooShort
    ensures r.Success? ==>
              && fresh(r.value)
              && r.value.Length0 == |assets[0].historicalReturns| && r.value.Length1 == |assets|
              && forall i, j :: 0 <= i < r.value.Length0 && 0 <= j < r.value.Length1 ==>
                   r.value[i, j] == assets[j].historicalReturns[i]
  {
    if assets == [] {
      return Failure(EmptyAssetList);
    }
    var n := |assets|;
    var m := |assets[0].historicalReturns|;
    var matrix := new real[m, n];
    for j := 0 to n
      invariant forall j' :: 0 <= j' < j ==> m <= |assets[j'].historicalReturns|
      invariant forall i', j' :: 0 <= i' < m && 0 <= j' < j ==> matrix[i', j'] == assets[j'].historicalReturns[i']
    {
      var historicalReturns := assets[j].GetHistoricalReturns();
      if |historicalReturns| < m {
        return Failure(HistoryTooShort);
      }
      for i := 0 to m
        invariant forall i', j' :: 0 <= i' < m && 0 <= j' < j ==> matrix[i', j'] == assets[j'].historicalReturns[i']
        invariant forall i' :: 0 <= i' < i ==> matrix[i', j] == historicalReturns[i']
      {
        matrix[i, j] := historicalReturns[i];
      }
    }
    r := Success(matrix);
  }

  /** The rows of a matrix as sequences. */
  function Rows(a: array2<real>): (rows: seq<seq<real>>)
    reads a
    ensures |rows| == a.Length0
    ensures forall i :: 0 <= i < a.Length0 ==> |rows[i]| == a.Length1
    ensures forall i, j :: 0 <= i < a.Length0 && 0 <= j < a.Length1 ==> rows[i][j] == a[i, j]
  {
    seq(a.Length0, i requires 0 <= i < a.Length0 reads a => seq(a.Length1, j requires 0 <= j < a.Length1 reads a => a[i, j]))
  }

  /** The estimator applied to the return matrix of the assets. */
  method ComputeCovarianceMatrix(assets: seq<RealEstateAsset>, covariance: CovarianceEstimator)
    returns (r: Result<seq<seq<real>>, UtilsError>)
    ensures assets == [] ==> r == Failure(EmptyAssetList)
    ensures assets != [] ==>
              (r.Success? <==> forall j :: 0 <= j < |assets| ==> |assets[0].historicalReturns| <= |assets[j].historicalReturns|)
    ensures r.Success? ==> assets != [] && r.value == covariance(ReturnRows(Histories(assets)))
  {
    var matrix := BuildReturnsMatrix(assets);
    if matrix.Failure? {
      return Failure(matrix.error);
    }
    var rows := Rows(matrix.value);
    ghost var expected := ReturnRows(Histories(assets));
    assert |rows| == |expected|;
    forall i | 0 <= i < |rows|
      ensures rows[i] == expected[i]
    {
    }
    assert rows == expected;
    r := Success(covariance(rows));
  }

  /**
   * Each weight over the total weight, in the order the map yields its
   * values, recorded in the ghost order. An empty map gives an empty array
   * without any division. Java divides by a zero total of a non-empty map
   * too, giving NaN or Infinity; a real division needs a non-zero total.
   */
  method CalculateAverageWeights(assetsWeights: map<RealEstateAsset, real>)
    returns (averageWeights: array<real>, ghost order: seq<RealEstateAsset>)
    requires assetsWeights != map[] ==> Total(assetsWeights) != 0.0
    ensures fresh(averageWeights) && averageWeights.Length == |assetsWeights.Keys| == |order|
    ensures Distinct(order) && forall a :: a in order <==> a in assetsWeights
    ensures forall i :: 0 <= i < |order| ==>
              averageWeights[i] == assetsWeights[order[i]] / Total(assetsWeights)
  {
    var totalWeight := SumValues(assetsWeights);
    var assets := ExtractAssetsFromMap(assetsWeights);
    order := assets;
    averageWeights := new real[|assets|];
    for i := 0 to |assets|
      invariant forall j :: 0 <= j < i ==> averageWeights[j] == assetsWeights[assets[j]] / totalWeight
    {
      averageWeights[i] := assetsWeights[assets[i]] / totalWeight;
    }
  }

  /** The uniform starting point: numAssets entries of 1 / numAssets. */
  method InitialGuess(numAssets: nat) returns (guess: array<real>)
    ensures fresh(guess) && guess.Length == numAssets
    ensures forall i :: 0 <= i < numAssets ==> guess[i] == 1.0 / numAssets as real
    ensures numAssets > 0 ==> Sum(guess[..]) == 1.0
  {
    guess := new real[numAssets];
    for i := 0 to numAssets
      invariant forall j :: 0 <= j < i ==> guess[j] == 1.0 / numAssets as real
    {
      guess[i] := 1.0 / numAssets as real;
    }
    if numAssets > 0 {
      SumOfConstant(guess[..], 1.0 / numAssets as real);
    }
  }
}
