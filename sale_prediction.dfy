/** `BondAIEngine.predictBondSale` and what it combines (ai.js): the sale
    probability, the confidence, the expected timing, the price impact, the
    recommendation and the factor list, the fallback record that replaces a
    thrown `TypeError`, and the batch prediction over a portfolio. */
module SalePrediction {
  import opened Wrappers
  import opened JsMath
  import opened Records
  import opened FactorScores

  const ModelVersion: string := "1.2.3"

  /** What the source reads from `new Date()`: the time and the local hour. */
  datatype Clock = Clock(now: Millis, hour: int)

  /** The weighted factor scores, each scaled to percentage points. */
  function FactorPoints(bond: Bond, holding: Holding, market: Market, status: PlatformStatus, now: Millis): (r: real)
    ensures 22.1 <= r <= 100.0
  {
    CreditRatingScore(bond.creditRating) * CreditRatingWeight * 100.0
    + MarketSentimentScore(market.sentiment) * MarketSentimentWeight * 100.0
    + LiquidityScore(holding, status, now) * LiquidityWindowWeight * 100.0
    + PriceMovementScore(bond, holding) * PriceMovementWeight * 100.0
    + SectorStrengthScore(bond.sector, market) * SectorStrengthWeight * 100.0
    + HoldingPeriodScore(holding, now) * HoldingPeriodWeight * 100.0
  }

  /** `calculateSaleProbability`: the risk tier's base score plus the
      weighted factors, clamped to [35, 98]. An unknown tier throws (`None`).
      Since the smallest base is 75 and the factors add at least 22.1, the
      result never falls below 97.1. */
  function SaleProbability(bond: Bond, holding: Holding, market: Market, status: PlatformStatus, now: Millis): (r: Option<real>)
    ensures r.Some? <==> IsKnownRiskLevel(bond.riskLevel)
    ensures r.Some? ==> 35.0 <= r.value <= 98.0
    ensures r.Some? ==> 97.1 <= r.value
  {
    match RiskFactorOf(bond.riskLevel)
    case None => None
    case Some(risk) => Some(Clamp(35.0, 98.0, risk.baseScore + FactorPoints(bond, holding, market, status, now)))
  }

  /** An eligible holding in an open liquidity window scores at least 34.7
      factor points, so every known tier reaches the 98 cap whatever the
      rating, sentiment, price movement, sector or holding period. */
  lemma {:induction false} OpenWindowSaturates(bond: Bond, holding: Holding, market: Market, status: PlatformStatus,
                                               now: Millis)
    requires IsKnownRiskLevel(bond.riskLevel)
    requires holding.reserveEligible && IsLiquidityWindowOpen(status.reserveFund, now)
    ensures SaleProbability(bond, holding, market, status, now) == Some(98.0)
  {
    assert LiquidityScore(holding, status, now) == 1.0;
    assert PriceMovementScore(bond, holding) >= 0.2;
    assert HoldingPeriodScore(holding, now) >= 0.3;
    assert FactorPoints(bond, holding, market, status, now) >= 34.7;
    assert RiskFactorOf(bond.riskLevel).value.baseScore >= 75.0;
  }

  /** The best rating in a positive market and a junk rating in a negative
      one get the same probability once the liquidity window is open: both
      reach the 98 cap, so the score does not rank them. */
  lemma RatingHiddenByCap(bond: Bond, holding: Holding, market: Market, status: PlatformStatus, now: Millis)
    requires IsKnownRiskLevel(bond.riskLevel)
    requires holding.reserveEligible && IsLiquidityWindowOpen(status.reserveFund, now)
    ensures SaleProbability(bond.(creditRating := "AAA"), holding, market.(sentiment := "positive"), status, now)
              == Some(98.0)
    ensures SaleProbability(bond.(creditRating := "BB-"), holding, market.(sentiment := "negative"), status, now)
              == Some(98.0)
  {
    OpenWindowSaturates(bond.(creditRating := "AAA"), holding, market.(sentiment := "positive"), status, now);
    OpenWindowSaturates(bond.(creditRating := "BB-"), holding, market.(sentiment := "negative"), status, now);
  }

  /** The freshness term of `calculateConfidence`: +10 under a day old,
      -15 over a week, nothing in between. */
  function FreshnessAdjustment(age: real): (r: real)
    ensures age < 1.0 ==> r == 10.0
    ensures 1.0 <= age <= 7.0 ==> r == 0.0
    ensures age > 7.0 ==> r == -15.0
  {
    if age < 1.0 then 10.0 else if age > 7.0 then -15.0 else 0.0
  }

  /** `calculateConfidence` before its clamp, for a given data age. */
  function RawConfidence(bond: Bond, risk: RiskFactor, age: real): real {
    (85.0 + FreshnessAdjustment(age) - risk.volatility * 50.0
     + CreditRatingCertainty(bond.creditRating)
     + HistoricalAccuracy(bond.sector, bond.riskLevel)) / 2.0
  }

  /** The unclamped confidence lies in [65.75, 103.25], so the lower bound
      60 of the clamp never takes effect. */
  lemma RawConfidenceBounds(bond: Bond, age: real)
    requires IsKnownRiskLevel(bond.riskLevel)
    ensures var raw := RawConfidence(bond, RiskFactorOf(bond.riskLevel).value, age);
            65.75 <= raw <= 103.25
  {
  }

  /** `calculateConfidence` for data of the given age. */
  function ConfidenceAtAge(bond: Bond, age: real): (r: Option<real>)
    ensures r.Some? <==> IsKnownRiskLevel(bond.riskLevel)
    ensures r.Some? ==> 65.75 <= r.value <= 98.0
  {
    match RiskFactorOf(bond.riskLevel)
    case None => None
    case Some(risk) =>
      RawConfidenceBounds(bond, age);
      Some(Clamp(60.0, 98.0, RawConfidence(bond, risk, age)))
  }

  /** `calculateConfidence`: the age of the snapshot is measured at `now`. */
  function Confidence(bond: Bond, market: Market, now: Millis): (r: Option<real>)
    ensures r.Some? <==> IsKnownRiskLevel(bond.riskLevel)
    ensures r.Some? ==> 60.0 <= r.value <= 98.0
  {
    ConfidenceAtAge(bond, DataAge(market.lastUpdated, now))
  }

  /** Older data never raises the confidence. */
  lemma {:induction false} ConfidenceFallsWithAge(bond: Bond, younger: real, older: real)
    requires IsKnownRiskLevel(bond.riskLevel) && younger <= older
    ensures ConfidenceAtAge(bond, older).value <= ConfidenceAtAge(bond, younger).value
  {
    var risk := RiskFactorOf(bond.riskLevel).value;
    assert FreshnessAdjustment(older) <= FreshnessAdjustment(younger);
    ClampMonotone(60.0, 98.0, RawConfidence(bond, risk, older), RawConfidence(bond, risk, younger));
  }

  /** Data younger than a day gives a strictly higher rounded confidence
      than data older than a week. */
  lemma {:induction false} FreshDataBeatsStaleData(bond: Bond, freshAge: real, staleAge: real)
    requires IsKnownRiskLevel(bond.riskLevel) && freshAge < 1.0 && staleAge > 7.0
    ensures Round(ConfidenceAtAge(bond, staleAge).value) < Round(ConfidenceAtAge(bond, freshAge).value)
  {
    var risk := RiskFactorOf(bond.riskLevel).value;
    RawConfidenceBounds(bond, staleAge);
    var rawStale := RawConfidence(bond, risk, staleAge);
    var rawFresh := RawConfidence(bond, risk, freshAge);
    assert rawFresh == rawStale + 12.5;
    assert ConfidenceAtAge(bond, staleAge).value == rawStale;
    assert ConfidenceAtAge(bond, freshAge).value >= rawStale + 7.25;
  }

  /** A snapshot without a timestamp counts as a week old: no adjustment. */
  lemma MissingTimestampIsNeutral(bond: Bond, market: Market, now: Millis)
    requires IsKnownRiskLevel(bond.riskLevel) && market.lastUpdated.None?
    ensures Confidence(bond, market, now) == ConfidenceAtAge(bond, 7.0)
  {
  }

  /** `expectedTiming`; `FiveToTenDays` is the fallback's "5-10 days". */
  datatype Timing =
    | InstantViaReserve
    | NextWindowIn(days: int)
    | LockInExpiresIn(days: int)
    | PeerToPeer(range: DayRange)
    | FiveToTenDays

  /** `if (userHolding.daysUntilEligible)`: absent and 0 are both falsy. */
  predicate HasLockIn(holding: Holding) {
    holding.daysUntilEligible.Some? && holding.daysUntilEligible.value != 0
  }

  /** `calculateExpectedTiming`: the first matching rule wins. */
  function ExpectedTiming(holding: Holding, status: PlatformStatus, bonds: seq<Bond>, clock: Clock): (r: Timing)
    ensures var open := IsLiquidityWindowOpen(status.reserveFund, clock.now);
      && (r.InstantViaReserve? <==> holding.reserveEligible && open)
      && (r.NextWindowIn? <==> holding.reserveEligible && !open)
      && (r.LockInExpiresIn? <==> !holding.reserveEligible && HasLockIn(holding))
      && (r.PeerToPeer? <==> !holding.reserveEligible && !HasLockIn(holding))
    ensures r.NextWindowIn? ==> r.days == DaysToNextWindow(status.reserveFund, clock.now)
    ensures r.LockInExpiresIn? ==> r.days == holding.daysUntilEligible.value && r.days != 0
    ensures r.PeerToPeer? ==> r.range == PeerToPeerTiming(holding, bonds, clock.hour)
  {
    if holding.reserveEligible && IsLiquidityWindowOpen(status.reserveFund, clock.now) then InstantViaReserve
    else if holding.reserveEligible then NextWindowIn(DaysToNextWindow(status.reserveFund, clock.now))
    else if HasLockIn(holding) then LockInExpiresIn(holding.daysUntilEligible.value)
    else PeerToPeer(PeerToPeerTiming(holding, bonds, clock.hour))
  }

  /** `calculatePriceImpact`: market trend plus sector trend (0 when the
      sector has none), +0.1 for a reserve-eligible holding and -0.2
      otherwise. */
  function PriceImpact(bond: Bond, holding: Holding, market: Market): (r: real)
    ensures bond.sector !in market.sectorTrends ==>
              r == market.trend + (if holding.reserveEligible then 0.1 else -0.2)
    ensures bond.sector in market.sectorTrends ==>
              r == market.trend + market.sectorTrends[bond.sector] + (if holding.reserveEligible then 0.1 else -0.2)
  {
    market.trend + SectorTrend(bond.sector, market) + (if holding.reserveEligible then 0.1 else -0.2)
  }

  /** Reserve eligibility is worth exactly 0.3 points of price impact. */
  lemma EligibilityPriceImpact(bond: Bond, holding: Holding, market: Market)
    ensures PriceImpact(bond, holding.(reserveEligible := true), market)
         == PriceImpact(bond, holding.(reserveEligible := false), market) + 0.3
  {
  }

  /** `Math.round(x * 100) / 100`. */
  function RoundToCents(x: real): (r: real)
    ensures x - 0.005 < r <= x + 0.005
    ensures Floor(r * 100.0) as real == r * 100.0
  {
    Round(x * 100.0) as real / 100.0
  }

  /** The recommendation texts. */
  datatype Recommendation =
    | ExcellentTimeToSell          // "Excellent time to sell - high demand and instant liquidity"
    | GoodOpportunityWithReserve   // "Good sale opportunity with reserve fund access"
    | ConsiderHolding              // "Consider holding - market conditions not optimal"
    | HoldUntilEligible            // "Hold until reserve eligibility for better liquidity"
    | ConditionsFavorable          // "Market conditions favorable for sale"
    | StandardConditions           // the fallback's "Standard market conditions"

  /** `generateRecommendation`: the first matching rule wins; the timing
      counts as instant when its text contains "Instant", which only the
      reserve-window text does. */
  function GenerateRecommendation(holding: Holding, probability: real, timing: Timing): (r: Recommendation)
    ensures r.ExcellentTimeToSell? <==> probability > 90.0 && timing.InstantViaReserve?
    ensures r.GoodOpportunityWithReserve? <==>
              !(probability > 90.0 && timing.InstantViaReserve?) && probability > 80.0 && holding.reserveEligible
    ensures r.ConsiderHolding? <==>
              !(probability > 90.0 && timing.InstantViaReserve?) && !(probability > 80.0 && holding.reserveEligible)
              && probability < 60.0
    ensures r.HoldUntilEligible? <==>
              !(probability > 90.0 && timing.InstantViaReserve?) && probability >= 60.0 && !holding.reserveEligible
    ensures r.ConditionsFavorable? <==>
              !(probability > 90.0 && timing.InstantViaReserve?) && 60.0 <= probability <= 80.0 && holding.reserveEligible
    ensures !r.StandardConditions?
  {
    if probability > 90.0 && timing.InstantViaReserve? then ExcellentTimeToSell
    else if probability > 80.0 && holding.reserveEligible then GoodOpportunityWithReserve
    else if probability < 60.0 then ConsiderHolding
    else if !holding.reserveEligible then HoldUntilEligible
    else ConditionsFavorable
  }

  /** The factor labels. */
  datatype Factor =
    | ReserveFundEligible
    | LockInRemaining(days: Option<int>)   // "Lock-in period: N days remaining"
    | PositiveSentiment
    | HighCreditRating
    | PriceAbovePurchase
    | PriceBelowPurchase
    | HighDemandSector
    | StrongPlatformLiquidity
    | LimitedData                          // the fallback's "Limited data available"

  /** The position of each label in the list `identifyKeyFactors` builds. */
  function FactorRank(f: Factor): nat {
    match f
    case ReserveFundEligible => 0
    case LockInRemaining(_) => 0
    case PositiveSentiment => 1
    case HighCreditRating => 2
    case PriceAbovePurchase => 3
    case PriceBelowPurchase => 3
    case HighDemandSector => 4
    case StrongPlatformLiquidity => 5
    case LimitedData => 6
  }

  /** Labels in strictly increasing rank: fixed order, none repeated. */
  predicate Ranked(factors: seq<Factor>) {
    forall i, j :: 0 <= i < j < |factors| ==> FactorRank(factors[i]) < FactorRank(factors[j])
  }

  /** The labels of the slots that are filled, in slot order: each slot is
      one `if (...) factors.push(...)` of `identifyKeyFactors`. */
  function Pushed(slots: seq<Option<Factor>>): (r: seq<Factor>)
    ensures |r| <= |slots|
  {
    if |slots| == 0 then []
    else (if slots[0].Some? then [slots[0].value] else []) + Pushed(slots[1..])
  }

  /** A label is pushed exactly when some slot holds it. */
  lemma {:induction false} PushedMembers(slots: seq<Option<Factor>>, f: Factor)
    ensures f in Pushed(slots) <==> Some(f) in slots
  {
    if |slots| > 0 {
      PushedMembers(slots[1..], f);
      assert slots == [slots[0]] + slots[1..];
    }
  }

  /** Slots whose labels rank `k`, `k + 1`, ... in turn push a ranked list
      whose labels all rank at least `k`. */
  lemma {:induction false} PushedRanked(slots: seq<Option<Factor>>, k: nat)
    requires forall i :: 0 <= i < |slots| && slots[i].Some? ==> FactorRank(slots[i].value) == k + i
    ensures Ranked(Pushed(slots))
    ensures forall i :: 0 <= i < |Pushed(slots)| ==> FactorRank(Pushed(slots)[i]) >= k
  {
    if |slots| > 0 {
      PushedRanked(slots[1..], k + 1);
    }
  }

  /** The slots of `identifyKeyFactors` after the eligibility label, given
      the truth of each condition: the price slot holds "above" when the
      relative change exceeds 2 %, otherwise "below" when it is under -2 %.
      The source's `change * 100 > 2` is `change > 0.02` over exact
      numbers. */
  function FactorSlots(positive: bool, highRating: bool, change: Quotient, highDemand: bool, liquid: bool)
    : (r: seq<Option<Factor>>)
    ensures |r| == 5
    ensures forall i :: 0 <= i < |r| && r[i].Some? ==> FactorRank(r[i].value) == 1 + i
  {
    [ if positive then Some(PositiveSentiment) else None,
      if highRating then Some(HighCreditRating) else None,
      if change.Above(0.02) then Some(PriceAbovePurchase)
      else if change.Below(-0.02) then Some(PriceBelowPurchase) else None,
      if highDemand then Some(HighDemandSector) else None,
      if liquid then Some(StrongPlatformLiquidity) else None ]
  }

  /** A label is in the slots exactly when its condition holds. */
  lemma SlotsHold(positive: bool, highRating: bool, change: Quotient, highDemand: bool, liquid: bool)
    ensures var slots := FactorSlots(positive, highRating, change, highDemand, liquid);
      && (Some(PositiveSentiment) in slots <==> positive)
      && (Some(HighCreditRating) in slots <==> highRating)
      && (Some(PriceAbovePurchase) in slots <==> change.Above(0.02))
      && (Some(PriceBelowPurchase) in slots <==> change.Below(-0.02))
      && (Some(HighDemandSector) in slots <==> highDemand)
      && (Some(StrongPlatformLiquidity) in slots <==> liquid)
      && Some(LimitedData) !in slots
  {
    var slots := FactorSlots(positive, highRating, change, highDemand, liquid);
    assert change.Below(-0.02) ==> !change.Above(0.02);
    assert slots[2] == Some(PriceBelowPurchase) <==> change.Below(-0.02);
  }

  /** `identifyKeyFactors`: the eligibility label, then the label of each
      condition that holds. */
  function KeyFactors(bond: Bond, holding: Holding, market: Market, status: PlatformStatus): (r: seq<Factor>)
    ensures 1 <= |r| <= 6
    ensures r[0] == if holding.reserveEligible then ReserveFundEligible else LockInRemaining(holding.daysUntilEligible)
  {
    [if holding.reserveEligible then ReserveFundEligible else LockInRemaining(holding.daysUntilEligible)]
      + Pushed(KeySlots(bond, holding, market, status))
  }

  /** The slots for these inputs. */
  function KeySlots(bond: Bond, holding: Holding, market: Market, status: PlatformStatus): seq<Option<Factor>> {
    FactorSlots(market.sentiment == "positive", bond.creditRating == "AAA" || bond.creditRating == "AA",
                PriceChange(bond, holding), IsHighDemandSector(bond.sector), status.reserveFund.percentage > 70.0)
  }

  /** The labels come in a fixed order and none twice. */
  lemma KeyFactorsRanked(bond: Bond, holding: Holding, market: Market, status: PlatformStatus)
    ensures Ranked(KeyFactors(bond, holding, market, status))
  {
    PushedRanked(KeySlots(bond, holding, market, status), 1);
  }

  /** A label other than the eligibility one is listed exactly when its slot
      holds it. */
  lemma KeyFactorSlot(bond: Bond, holding: Holding, market: Market, status: PlatformStatus, f: Factor)
    requires FactorRank(f) > 0
    ensures f in KeyFactors(bond, holding, market, status) <==> Some(f) in KeySlots(bond, holding, market, status)
  {
    PushedMembers(KeySlots(bond, holding, market, status), f);
  }

  /** Which labels `identifyKeyFactors` lists: each exactly when its
      condition holds; "Positive market sentiment" only for exactly
      `positive`, "High credit rating" only for AAA and AA. */
  lemma KeyFactorsListed(bond: Bond, holding: Holding, market: Market, status: PlatformStatus)
    ensures var r := KeyFactors(bond, holding, market, status);
      && (PositiveSentiment in r <==> market.sentiment == "positive")
      && (HighCreditRating in r <==> bond.creditRating == "AAA" || bond.creditRating == "AA")
      && (PriceAbovePurchase in r <==> PriceChange(bond, holding).Above(0.02))
      && (PriceBelowPurchase in r <==> PriceChange(bond, holding).Below(-0.02))
      && (HighDemandSector in r <==> IsHighDemandSector(bond.sector))
      && (StrongPlatformLiquidity in r <==> status.reserveFund.percentage > 70.0)
      && LimitedData !in r
  {
    SlotsHold(market.sentiment == "positive", bond.creditRating == "AAA" || bond.creditRating == "AA",
              PriceChange(bond, holding), IsHighDemandSector(bond.sector), status.reserveFund.percentage > 70.0);
    KeyFactorSlot(bond, holding, market, status, PositiveSentiment);
    KeyFactorSlot(bond, holding, market, status, HighCreditRating);
    KeyFactorSlot(bond, holding, market, status, PriceAbovePurchase);
    KeyFactorSlot(bond, holding, market, status, PriceBelowPurchase);
    KeyFactorSlot(bond, holding, market, status, HighDemandSector);
    KeyFactorSlot(bond, holding, market, status, StrongPlatformLiquidity);
    KeyFactorSlot(bond, holding, market, status, LimitedData);
  }

  /** The result of `predictBondSale`; `fallback` is false on a scored one. */
  datatype Prediction = Prediction(
    saleProbability: int,
    confidence: int,
    expectedTiming: Timing,
    priceImpact: real,
    recommendation: Recommendation,
    factors: seq<Factor>,
    modelVersion: string,
    timestamp: Millis,
    fallback: bool)

  /** `getFallbackPrediction`. */
  function FallbackPrediction(now: Millis): (r: Prediction)
    ensures r.fallback && r.saleProbability == 75 && r.confidence == 70
    ensures r.expectedTiming == FiveToTenDays && r.priceImpact == 0.0
    ensures r.recommendation == StandardConditions && r.factors == [LimitedData]
  {
    Prediction(75, 70, FiveToTenDays, 0.0, StandardConditions, [LimitedData], ModelVersion, now, true)
  }

  /** The `try` block of `predictBondSale`; `None` is a thrown `TypeError`:
      a null record, or a risk tier outside HIGH/MEDIUM/LOW. */
  function ScoredPrediction(bond: Bond, holding: Holding, market: Market, status: PlatformStatus,
                            bonds: seq<Bond>, clock: Clock): (r: Option<Prediction>)
    ensures r.Some? <==> IsKnownRiskLevel(bond.riskLevel)
    ensures r.Some? ==> !r.value.fallback
    ensures r.Some? ==> r.value.saleProbability == 97 || r.value.saleProbability == 98
    ensures r.Some? ==> 66 <= r.value.confidence <= 98
    ensures r.Some? ==> r.value.expectedTiming == ExpectedTiming(holding, status, bonds, clock)
    ensures r.Some? ==>
              var probability := SaleProbability(bond, holding, market, status, clock.now).value;
              && r.value.saleProbability == Round(probability)
              && r.value.confidence == Round(Confidence(bond, market, clock.now).value)
              && r.value.priceImpact == RoundToCents(PriceImpact(bond, holding, market))
              && r.value.recommendation == GenerateRecommendation(holding, probability, r.value.expectedTiming)
              && r.value.factors == KeyFactors(bond, holding, market, status)
              && r.value.modelVersion == ModelVersion && r.value.timestamp == clock.now
  {
    match SaleProbability(bond, holding, market, status, clock.now)
    case None => None
    case Some(probability) =>
      var confidence := Confidence(bond, market, clock.now).value;
      var timing := ExpectedTiming(holding, status, bonds, clock);
      Some(Prediction(
        Round(probability),
        Round(confidence),
        timing,
        RoundToCents(PriceImpact(bond, holding, market)),
        GenerateRecommendation(holding, probability, timing),
        KeyFactors(bond, holding, market, status),
        ModelVersion,
        clock.now,
        false))
  }

  /** `predictBondSale`: never throws. An absent record or an unknown risk
      tier gives the fallback record. */
  function PredictBondSale(bond: Option<Bond>, holding: Option<Holding>, market: Option<Market>,
                           status: Option<PlatformStatus>, bonds: seq<Bond>, clock: Clock): (r: Prediction)
    ensures r.fallback <==> bond.None? || holding.None? || market.None? || status.None?
                            || !IsKnownRiskLevel(bond.value.riskLevel)
    ensures r.fallback ==> r == FallbackPrediction(clock.now)
    ensures !r.fallback ==> r.saleProbability == 97 || r.saleProbability == 98
    ensures !r.fallback ==> 66 <= r.confidence <= 98
    ensures !r.fallback ==> r == ScoredPrediction(bond.value, holding.value, market.value, status.value, bonds, clock).value
  {
    if bond.None? || holding.None? || market.None? || status.None? then FallbackPrediction(clock.now)
    else ScoredPrediction(bond.value, holding.value, market.value, status.value, bonds, clock)
           .GetOr(FallbackPrediction(clock.now))
  }

  /** Inside `predictBondSale` the probability is at least 97.1, so the
      recommendation depends only on eligibility and the window: "consider
      holding" and "favorable" never occur there. */
  lemma RecommendationOfScoredPrediction(bond: Bond, holding: Holding, market: Market,
                                         status: PlatformStatus, bonds: seq<Bond>, clock: Clock)
    requires IsKnownRiskLevel(bond.riskLevel)
    ensures var r := PredictBondSale(Some(bond), Some(holding), Some(market), Some(status), bonds, clock);
            var open := IsLiquidityWindowOpen(status.reserveFund, clock.now);
            && (r.recommendation == ExcellentTimeToSell <==> holding.reserveEligible && open)
            && (r.recommendation == GoodOpportunityWithReserve <==> holding.reserveEligible && !open)
            && (r.recommendation == HoldUntilEligible <==> !holding.reserveEligible)
  {
  }

  /** A reserve-eligible holding in an open window is "Instant via reserve",
      whatever its `daysUntilEligible`. */
  lemma InstantWinsOverLockIn(bond: Bond, holding: Holding, market: Market,
                              status: PlatformStatus, bonds: seq<Bond>, clock: Clock, days: int)
    requires IsKnownRiskLevel(bond.riskLevel) && holding.reserveEligible
    requires IsLiquidityWindowOpen(status.reserveFund, clock.now)
    ensures PredictBondSale(Some(bond), Some(holding.(daysUntilEligible := Some(days))), Some(market),
                            Some(status), bonds, clock).expectedTiming == InstantViaReserve
  {
  }

  /** One entry per holding in order whose bond is known, keyed by its bond
      id and set to `predict` of the bond and the holding, so the last such
      holding of a bond wins. */
  function PredictionsBy(holdings: seq<Holding>, bonds: seq<Bond>, predict: (Bond, Holding) -> Prediction)
    : map<string, Prediction>
  {
    if |holdings| == 0 then map[]
    else
      var previous := PredictionsBy(holdings[..|holdings| - 1], bonds, predict);
      var holding := holdings[|holdings| - 1];
      match FindBond(bonds, holding.bondId)
      case None => previous
      case Some(bond) => previous[holding.bondId := predict(bond, holding)]
  }

  /** The predictions of `predictPortfolio`, all against the same market
      snapshot, the same status and the same clock. */
  function PortfolioPredictions(holdings: seq<Holding>, market: Market, status: Option<PlatformStatus>,
                                bonds: seq<Bond>, clock: Clock): map<string, Prediction>
  {
    PredictionsBy(holdings, bonds,
                  (bond: Bond, holding: Holding) => PredictBondSale(Some(bond), Some(holding), Some(market), status, bonds, clock))
  }

  /** An id has an entry exactly when some holding refers to it and the
      bond is known. */
  lemma {:induction false} PredictionKeys(holdings: seq<Holding>, bonds: seq<Bond>,
                                          predict: (Bond, Holding) -> Prediction, id: string)
    ensures id in PredictionsBy(holdings, bonds, predict) <==>
              FindBond(bonds, id).Some? && exists i :: 0 <= i < |holdings| && holdings[i].bondId == id
  {
    if |holdings| > 0 {
      var init := holdings[..|holdings| - 1];
      PredictionKeys(init, bonds, predict, id);
      if exists i :: 0 <= i < |holdings| && holdings[i].bondId == id {
        var i :| 0 <= i < |holdings| && holdings[i].bondId == id;
        if i < |holdings| - 1 {
          assert init[i].bondId == id;
        }
      }
      if exists i :: 0 <= i < |init| && init[i].bondId == id {
        var i :| 0 <= i < |init| && init[i].bondId == id;
        assert holdings[i].bondId == id;
      }
    }
  }

  /** The entry of a bond is `predict` of its last holding. */
  lemma {:induction false} PredictionIsLastHolding(holdings: seq<Holding>, bonds: seq<Bond>,
                                                   predict: (Bond, Holding) -> Prediction, k: nat)
    requires k < |holdings| && FindBond(bonds, holdings[k].bondId).Some?
    requires forall j :: k < j < |holdings| ==> holdings[j].bondId != holdings[k].bondId
    ensures var m := PredictionsBy(holdings, bonds, predict);
            holdings[k].bondId in m && m[holdings[k].bondId] == predict(FindBond(bonds, holdings[k].bondId).value, holdings[k])
  {
    var init := holdings[..|holdings| - 1];
    if k < |holdings| - 1 {
      assert init[k] == holdings[k];
      forall j | k < j < |init| ensures init[j].bondId != init[k].bondId {
        assert init[j] == holdings[j];
      }
      PredictionIsLastHolding(init, bonds, predict, k);
    }
  }

  /** A bond id has a prediction exactly when some holding refers to it and
      the bond is known. */
  lemma PortfolioPredictionKeys(holdings: seq<Holding>, market: Market, status: Option<PlatformStatus>,
                                bonds: seq<Bond>, clock: Clock, id: string)
    ensures id in PortfolioPredictions(holdings, market, status, bonds, clock) <==>
              FindBond(bonds, id).Some? && exists i :: 0 <= i < |holdings| && holdings[i].bondId == id
  {
    PredictionKeys(holdings, bonds,
                   (bond: Bond, holding: Holding) => PredictBondSale(Some(bond), Some(holding), Some(market), status, bonds, clock), id);
  }

  /** The prediction kept for a bond is the one for the last holding of it. */
  lemma PortfolioPredictionIsLastHolding(holdings: seq<Holding>, market: Market, status: Option<PlatformStatus>,
                                         bonds: seq<Bond>, clock: Clock, k: nat)
    requires k < |holdings| && FindBond(bonds, holdings[k].bondId).Some?
    requires forall j :: k < j < |holdings| ==> holdings[j].bondId != holdings[k].bondId
    ensures var m := PortfolioPredictions(holdings, market, status, bonds, clock);
            holdings[k].bondId in m &&
            m[holdings[k].bondId] == PredictBondSale(FindBond(bonds, holdings[k].bondId), Some(holdings[k]),
                                                     Some(market), status, bonds, clock)
  {
    PredictionIsLastHolding(holdings, bonds,
                            (bond: Bond, holding: Holding) => PredictBondSale(Some(bond), Some(holding), Some(market), status, bonds, clock), k);
  }

  /** `predictPortfolio`: one prediction per known bond of the portfolio,
      all against the same market snapshot. */
  method PredictPortfolio(holdings: seq<Holding>, market: Market, status: Option<PlatformStatus>,
                          bonds: seq<Bond>, clock: Clock) returns (predictions: map<string, Prediction>)
    ensures predictions == PortfolioPredictions(holdings, market, status, bonds, clock)
  {
    predictions := map[];
    var i := 0;
    while i < |holdings|
      invariant 0 <= i <= |holdings|
      invariant predictions == PortfolioPredictions(holdings[..i], market, status, bonds, clock)
    {
      var holding := holdings[i];
      var bond := FindBond(bonds, holding.bondId);
      if bond.Some? {
        predictions := predictions[holding.bondId := PredictBondSale(bond, Some(holding), Some(market), status, bonds, clock)];
      }
      assert holdings[..i + 1][..i] == holdings[..i];
      i := i + 1;
    }
    assert holdings[..i] == holdings;
  }
}
