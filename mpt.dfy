/**
 * com.realestate.mpt.MPT: a portfolio as a map from asset to weight plus the
 * cleanHistory flag recording whether every history had the same length when
 * the portfolio was built. Adding an asset clears the flag; the expected
 * return is the weighted sum of the assets' expected returns.
 */
module Portfolio {
  import opened Wrappers
  import opened Sums
  import opened Assets
  import opened PortfolioUtils

  /** The IllegalArgumentException of the list constructor. */
  datatype PortfolioError = ListSizeMismatch

  /** The map the list constructor builds: put assets[i] -> weights[i] in list order, later entries overwriting. */
  function ListToMap(assets: seq<RealEstateAsset>, weights: seq<real>): (m: map<RealEstateAsset, real>)
    requires |assets| == |weights|
    decreases |assets|
  {
    if assets == [] then map[]
    else
      var n := |assets| - 1;
      ListToMap(assets[..n], weights[..n])[assets[n] := weights[n]]
  }

  /** The keys of the built map are exactly the listed assets. */
  lemma {:induction false} ListToMapKeys(assets: seq<RealEstateAsset>, weights: seq<real>)
    requires |assets| == |weights|
    ensures forall a :: a in ListToMap(assets, weights) <==> a in assets
    decreases |assets|
  {
    if assets != [] {
      var n := |assets| - 1;
      ListToMapKeys(assets[..n], weights[..n]);
      assert assets == assets[..n] + [assets[n]];
      forall a
        ensures a in assets <==> a in assets[..n] || a == assets[n]
      {
        if a in assets {
          var i :| 0 <= i < |assets| && assets[i] == a;
          if i < n { assert assets[..n][i] == a; }
        }
      }
    }
  }

  /** An asset's weight is the one paired with its last occurrence in the list. */
  lemma {:induction false} ListToMapLastWins(assets: seq<RealEstateAsset>, weights: seq<real>, i: nat)
    requires |assets| == |weights| && i < |assets|
    requires forall j :: i < j < |assets| ==> assets[j] != assets[i]
    ensures assets[i] in ListToMap(assets, weights)
    ensures ListToMap(assets, weights)[assets[i]] == weights[i]
    decreases |assets|
  {
    var n := |assets| - 1;
    if i < n {
      ListToMapLastWins(assets[..n], weights[..n], i);
    }
  }

  /** One asset's share of the portfolio return: its expected return times its weight. */
  function Contribution(expectedReturn: real, weight: real): real
  {
    expectedReturn * weight
  }

  /** Each asset's contribution. */
  ghost function Contributions(assetsWeights: map<RealEstateAsset, real>): (c: map<RealEstateAsset, real>)
    reads assetsWeights.Keys
    ensures c.Keys == assetsWeights.Keys
    ensures forall a :: a in c ==> c[a] == Contribution(a.expectedReturn, assetsWeights[a])
  {
    map a | a in assetsWeights :: Contribution(a.expectedReturn, assetsWeights[a])
  }

  /** The weighted sum of expected returns over the map, independent of iteration order; no normalisation. */
  ghost function ExpectedReturnOf(assetsWeights: map<RealEstateAsset, real>): (r: real)
    reads assetsWeights.Keys
    ensures assetsWeights == map[] ==> r == 0.0
  {
    Total(Contributions(assetsWeights))
  }

  /** Setting one weight changes only that asset's contribution. */
  lemma ContributionsUpdate(assetsWeights: map<RealEstateAsset, real>, asset: RealEstateAsset, weight: real)
    ensures Contributions(assetsWeights[asset := weight])
            == Contributions(assetsWeights)[asset := Contribution(asset.expectedReturn, weight)]
  {
    var after := Contributions(assetsWeights[asset := weight]);
    var expected := Contributions(assetsWeights)[asset := Contribution(asset.expectedReturn, weight)];
    assert after.Keys == expected.Keys;
    forall a | a in after
      ensures after[a] == expected[a]
    {
    }
  }

  /** A new asset adds exactly its own contribution. */
  lemma AddNewAssetExpectedReturn(assetsWeights: map<RealEstateAsset, real>, asset: RealEstateAsset, weight: real)
    requires asset !in assetsWeights
    ensures ExpectedReturnOf(assetsWeights[asset := weight])
            == ExpectedReturnOf(assetsWeights) + Contribution(asset.expectedReturn, weight)
  {
    ContributionsUpdate(assetsWeights, asset, weight);
    TotalUpdate(Contributions(assetsWeights), asset, Contribution(asset.expectedReturn, weight));
  }

  /** Re-weighting an asset replaces its contribution and leaves the others. */
  lemma ReweightAssetExpectedReturn(assetsWeights: map<RealEstateAsset, real>, asset: RealEstateAsset, weight: real)
    requires asset in assetsWeights
    ensures ExpectedReturnOf(assetsWeights[asset := weight])
            == ExpectedReturnOf(assetsWeights) - Contribution(asset.expectedReturn, assetsWeights[asset])
               + Contribution(asset.expectedReturn, weight)
  {
    ContributionsUpdate(assetsWeights, asset, weight);
    TotalUpdate(Contributions(assetsWeights), asset, Contribution(asset.expectedReturn, weight));
  }

  class MPT {
    var assetsWeights: map<RealEstateAsset, real>
    var cleanHistory: bool

    /** The empty portfolio, not flagged clean. */
    constructor ()
      ensures assetsWeights == map[] && !cleanHistory
    {
      assetsWeights := map[];
      cleanHistory := false;
    }

    /** A copy of the given map, flagged clean exactly when it is non-empty and all histories match. */
    constructor FromMap(assetsWeights: map<RealEstateAsset, real>)
      ensures this.assetsWeights == assetsWeights
      ensures cleanHistory <==> assetsWeights != map[] && AllSameLength(assetsWeights.Keys)
    {
      var valid := ValidateHistoricalReturnsLengthOfMap(assetsWeights);
      this.assetsWeights := assetsWeights;
      cleanHistory := valid;
    }

    /**
     * The list constructor: refused when the lists differ in length, else the
     * pairs are put in order and the flag is the list validator's verdict.
     */
    static method FromLists(assets: seq<RealEstateAsset>, weights: seq<real>) returns (r: Result<MPT, PortfolioError>)
      ensures |assets| != |weights| <==> r == Failure(ListSizeMismatch)
      ensures r.Success? ==>
                && |assets| == |weights| && fresh(r.value)
                && r.value.assetsWeights == ListToMap(assets, weights)
                && (r.value.cleanHistory <==> assets != [] && SameLengthAsFirst(assets))
    {
      if |assets| != |weights| {
        return Failure(ListSizeMismatch);
      }
      var built := map[];
      for i := 0 to |assets|
        invariant built == ListToMap(assets[..i], weights[..i])
      {
        assert assets[..i + 1][..i] == assets[..i] && weights[..i + 1][..i] == weights[..i];
        built := built[assets[i] := weights[i]];
      }
      assert assets[..|assets|] == assets && weights[..|weights|] == weights;
      var valid := ValidateHistoricalReturnsLength(assets);
      var p := new MPT();
      p.assetsWeights := built;
      p.cleanHistory := valid;
      r := Success(p);
    }

    /** Inserts or re-weights one asset, leaves every other entry, and clears the flag. */
    method AddAsset(asset: RealEstateAsset, weight: real)
      modifies this
      ensures assetsWeights == old(assetsWeights)[asset := weight]
      ensures !cleanHistory
    {
      assetsWeights := assetsWeights[asset := weight];
      cleanHistory := false;
    }

    /** The weighted sum of the assets' expected returns, accumulated entry by entry. */
    method PortfolioExpectedReturn() returns (expectedReturn: real)
      ensures expectedReturn == ExpectedReturnOf(assetsWeights)
    {
      expectedReturn := 0.0;
      ghost var contributions := Contributions(assetsWeights);
      ghost var remaining := contributions;
      var rest := assetsWeights.Keys;
      while rest != {}
        invariant rest <= assetsWeights.Keys && remaining.Keys == rest
        invariant forall a :: a in remaining ==> remaining[a] == contributions[a]
        invariant expectedReturn + Total(remaining) == Total(contributions)
        decreases |rest|
      {
        var asset :| asset in rest;
        var weight := assetsWeights[asset];
        TotalRemove(remaining, asset);
        expectedReturn := expectedReturn + Contribution(asset.expectedReturn, weight);
        remaining := remaining - {asset};
        rest := rest - {asset};
      }
    }
  }
}
