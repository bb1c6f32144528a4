/** `CarbonCalculator` of the server: CO2 from fuel, offset cost from CO2, the
    three-level emission classifier and the threshold-gated recommendations.
    The class only namespaces static methods, so it is a module here. */
module CarbonCalculator {

  /** kg of CO2 per litre of fuel when the caller gives no factor. */
  const DefaultEmissionFactor: real := 2.31
  /** Offset price per tonne of CO2 when the caller gives none. */
  const DefaultPricePerTonne: real := 25.0

  /** `calculateCO2(fuelUsed, emissionFactor = 2.31)`. */
  function CalculateCO2(fuelUsed: real, emissionFactor: real := DefaultEmissionFactor): (co2Kg: real)
    ensures fuelUsed >= 0.0 && emissionFactor >= 0.0 ==> co2Kg >= 0.0
    ensures emissionFactor != 0.0 ==> co2Kg / emissionFactor == fuelUsed
    ensures fuelUsed == 0.0 || emissionFactor == 0.0 ==> co2Kg == 0.0
  {
    fuelUsed * emissionFactor
  }

  /** `calculateOffsetCost(co2Kg, pricePerTonne = 25)`. */
  function CalculateOffsetCost(co2Kg: real, pricePerTonne: real := DefaultPricePerTonne): (cost: real)
    ensures co2Kg == 1000.0 ==> cost == pricePerTonne
    ensures co2Kg >= 0.0 && pricePerTonne >= 0.0 ==> cost >= 0.0
    ensures pricePerTonne != 0.0 ==> cost * 1000.0 / pricePerTonne == co2Kg
  {
    (co2Kg / 1000.0) * pricePerTonne
  }

  /** At the default price the cost is 2.5% of the mass in kg, and it adds up
      over masses: the cost of a sum is the sum of the costs. */
  lemma DefaultOffsetCost(a: real, b: real)
    ensures CalculateOffsetCost(1000.0) == 25.0
    ensures CalculateOffsetCost(a) == a * 0.025
    ensures CalculateOffsetCost(a + b) == CalculateOffsetCost(a) + CalculateOffsetCost(b)
  {
  }

  /** The three emission levels; colour and label are presentation constants. */
  datatype EmissionLevel = Low | Medium | High
  {
    function Level(): (name: string)
    {
      match this
      case Low => "low"
      case Medium => "medium"
      case High => "high"
    }

    function Color(): (color: string)
    {
      match this
      case Low => "#4CAF50"
      case Medium => "#ff9800"
      case High => "#f44336"
    }

    function Label(): (caption: string)
    {
      match this
      case Low => "Faible"
      case Medium => "Moyen"
      case High => "\U{C9}lev\U{E9}"
    }

    /** Severity order: Low < Medium < High. */
    function Rank(): (rank: nat)
    {
      match this
      case Low => 0
      case Medium => 1
      case High => 2
    }
  }

  /** `getEmissionLevel(co2Kg)`: strict `>` thresholds, so a boundary value
      falls into the lower bracket. */
  function GetEmissionLevel(co2Kg: real): (level: EmissionLevel)
    ensures level == High <==> co2Kg > 50.0
    ensures level == Medium <==> 20.0 < co2Kg <= 50.0
    ensures level == Low <==> co2Kg <= 20.0
  {
    if co2Kg > 50.0 then High
    else if co2Kg > 20.0 then Medium
    else Low
  }

  /** More CO2 never gives a less severe level. */
  lemma EmissionLevelMonotonic(a: real, b: real)
    requires a <= b
    ensures GetEmissionLevel(a).Rank() <= GetEmissionLevel(b).Rank()
  {
  }

  const ShorterFlights: string := "Considérez des vols plus courts pour réduire la consommation"
  const OptimizeFlightPlan: string := "Optimisez votre plan de vol pour économiser du carburant"
  const BuyOffsets: string := "Compensez vos émissions avec des crédits carbone certifiés"
  const ShareFlights: string := "Partagez vos vols pour répartir les émissions"

  /** The recommendations for a CO2 figure: every tier whose threshold the
      figure exceeds contributes its messages, highest tier first, and the
      sharing message always closes the list. */
  function Recommendations(co2Kg: real): (r: seq<string>)
    ensures |r| == (if co2Kg > 30.0 then 4 else if co2Kg > 10.0 then 2 else 1)
    ensures r[|r| - 1] == ShareFlights
  {
    (if co2Kg > 30.0 then [ShorterFlights, OptimizeFlightPlan] else [])
    + (if co2Kg > 10.0 then [BuyOffsets] else [])
    + [ShareFlights]
  }

  /** The four messages are pairwise different (their lengths differ). */
  lemma MessagesDistinct()
    ensures ShorterFlights != OptimizeFlightPlan && ShorterFlights != BuyOffsets && ShorterFlights != ShareFlights
    ensures OptimizeFlightPlan != BuyOffsets && OptimizeFlightPlan != ShareFlights && BuyOffsets != ShareFlights
  {
    assert |ShorterFlights| == 60 && |OptimizeFlightPlan| == 56 && |BuyOffsets| == 58 && |ShareFlights| == 45;
  }

  /** The list written out, tier by tier. */
  lemma RecommendationsCases(co2Kg: real)
    ensures co2Kg > 30.0 ==> Recommendations(co2Kg) == [ShorterFlights, OptimizeFlightPlan, BuyOffsets, ShareFlights]
    ensures 10.0 < co2Kg <= 30.0 ==> Recommendations(co2Kg) == [BuyOffsets, ShareFlights]
    ensures co2Kg <= 10.0 ==> Recommendations(co2Kg) == [ShareFlights]
  {
  }

  /** Each tier's messages appear exactly when its threshold is exceeded. */
  lemma RecommendationsMembership(co2Kg: real)
    ensures ShorterFlights in Recommendations(co2Kg) <==> co2Kg > 30.0
    ensures OptimizeFlightPlan in Recommendations(co2Kg) <==> co2Kg > 30.0
    ensures BuyOffsets in Recommendations(co2Kg) <==> co2Kg > 10.0
  {
    MessagesDistinct();
    RecommendationsCases(co2Kg);
  }

  /** No message appears twice, so the sharing message appears only last. */
  lemma RecommendationsDistinct(co2Kg: real)
    ensures ShareFlights !in Recommendations(co2Kg)[..|Recommendations(co2Kg)| - 1]
    ensures forall i, j :: 0 <= i < j < |Recommendations(co2Kg)| ==>
              Recommendations(co2Kg)[i] != Recommendations(co2Kg)[j]
  {
    MessagesDistinct();
    RecommendationsCases(co2Kg);
  }

  /** `generateRecommendations(co2Kg)`: pushes onto a local list, tier by tier. */
  method GenerateRecommendations(co2Kg: real) returns (recommendations: seq<string>)
    ensures recommendations == Recommendations(co2Kg)
  {
    recommendations := [];
    if co2Kg > 30.0 {
      recommendations := recommendations + [ShorterFlights];
      recommendations := recommendations + [OptimizeFlightPlan];
    }
    if co2Kg > 10.0 {
      recommendations := recommendations + [BuyOffsets];
    }
    recommendations := recommendations + [ShareFlights];
  }

  /** Tiers accumulate: the list for a smaller figure is a suffix of the list
      for a larger one. */
  lemma RecommendationsAccumulate(x: real, y: real)
    requires x <= y
    ensures |Recommendations(x)| <= |Recommendations(y)|
    ensures Recommendations(y)[|Recommendations(y)| - |Recommendations(x)|..] == Recommendations(x)
  {
    var rx, ry := Recommendations(x), Recommendations(y);
    if y > 30.0 && 10.0 < x <= 30.0 {
      assert ry[2..] == [BuyOffsets, ShareFlights] == rx;
    } else if y > 30.0 && x <= 10.0 {
      assert ry[3..] == [ShareFlights] == rx;
    } else if y > 10.0 && x <= 10.0 {
      assert ry[1..] == [ShareFlights] == rx;
    }
  }

  /** Boundary values fall into the lower bracket: exactly 50 is medium and
      exactly 20 is low, while anything above either is in the next bracket. */
  lemma EmissionLevelBoundaries()
    ensures GetEmissionLevel(50.0) == Medium && GetEmissionLevel(50.0001) == High
    ensures GetEmissionLevel(20.0) == Low && GetEmissionLevel(20.0001) == Medium
  {
  }
}
