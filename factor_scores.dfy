/** The lookup tables, factor scorers and date helpers of `BondAIEngine`
    (ai.js). Every scorer is a function of plain records; the current time
    and hour of day, which the source reads from `new Date()`, are
    parameters. */
module FactorScores {
  import opened Wrappers
  import opened JsMath
  import opened Records

  /** `this.weights`: the share of each factor in the sale probability. */
  const CreditRatingWeight: real := 0.25
  const MarketSentimentWeight: real := 0.20
  const LiquidityWindowWeight: real := 0.18
  const PriceMovementWeight: real := 0.15
  const SectorStrengthWeight: real := 0.12
  const HoldingPeriodWeight: real := 0.10

  /** One entry of `this.riskFactors`. */
  datatype RiskFactor = RiskFactor(volatility: real, baseScore: real)

  const RiskFactors: map<string, RiskFactor> := map[
    "HIGH" := RiskFactor(0.15, 75.0),
    "MEDIUM" := RiskFactor(0.08, 80.0),
    "LOW" := RiskFactor(0.03, 85.0)]

  predicate IsKnownRiskLevel(level: string) {
    level == "HIGH" || level == "MEDIUM" || level == "LOW"
  }

  /** `this.riskFactors[level]`; `None` is the `undefined` whose property
      read throws a `TypeError`. */
  function RiskFactorOf(level: string): (r: Option<RiskFactor>)
    ensures r.Some? <==> IsKnownRiskLevel(level)
    ensures r.Some? ==> 75.0 <= r.value.baseScore <= 85.0
    ensures r.Some? ==> 0.03 <= r.value.volatility <= 0.15
  {
    Lookup(RiskFactors, level)
  }

  const CreditRatingScores: map<string, real> := map[
    "AAA" := 1.0, "AA+" := 0.95, "AA" := 0.90, "AA-" := 0.85,
    "A+" := 0.80, "A" := 0.75, "A-" := 0.70,
    "BBB+" := 0.65, "BBB" := 0.60, "BBB-" := 0.55,
    "BB+" := 0.50, "BB" := 0.45, "BB-" := 0.40]

  /** `getCreditRatingScore`: the table value, 0.30 for an unknown code. */
  function CreditRatingScore(rating: string): (r: real)
    ensures 0.30 <= r <= 1.0
    ensures rating in CreditRatingScores ==> r == CreditRatingScores[rating] && r >= 0.40
    ensures rating !in CreditRatingScores ==> r == 0.30
  {
    OrElse(Lookup(CreditRatingScores, rating), 0.30)
  }

  const SentimentScores: map<string, real> := map[
    "very_positive" := 1.0, "positive" := 0.7, "neutral" := 0.5,
    "negative" := 0.3, "very_negative" := 0.1]

  /** `getMarketSentimentScore`: the table value, 0.5 for an unknown one. */
  function MarketSentimentScore(sentiment: string): (r: real)
    ensures 0.1 <= r <= 1.0
    ensures sentiment in SentimentScores ==> r == SentimentScores[sentiment]
    ensures sentiment !in SentimentScores ==> r == 0.5
  {
    OrElse(Lookup(SentimentScores, sentiment), 0.5)
  }

  /** `isLiquidityWindowOpen`: the window is open for the three days that
      start at `nextWindow`, both ends included. */
  predicate IsLiquidityWindowOpen(fund: ReserveFund, now: Millis)
    ensures IsLiquidityWindowOpen(fund, now) <==> fund.nextWindow <= now <= fund.nextWindow + 3 * 24 * 60 * 60 * 1000
  {
    fund.nextWindow as real <= now as real <= fund.nextWindow as real + 3.0 * DayMs
  }

  /** `getDaysToNextWindow`: whole days, rounded up, between now and the
      window date; the distance is absolute, so a window in the past also
      gives a positive count. */
  function DaysToNextWindow(fund: ReserveFund, now: Millis): (r: int)
    ensures r >= 0
    ensures r == 0 <==> fund.nextWindow == now
    ensures (r - 1) as real * DayMs < Abs((fund.nextWindow - now) as real) <= r as real * DayMs
  {
    Ceil(Abs((fund.nextWindow - now) as real) / DayMs)
  }

  /** The day count does not tell a past window from a future one. */
  lemma DaysToWindowIgnoresDirection(fund: ReserveFund, now: Millis)
    ensures DaysToNextWindow(fund, now)
         == DaysToNextWindow(fund.(nextWindow := 2 * now - fund.nextWindow), now)
  {
  }

  /** `getLiquidityScore`: 1.0 for instant reserve liquidity, 0.8 when
      eligible but the window is closed, 0.3 when only P2P remains. */
  function LiquidityScore(holding: Holding, status: PlatformStatus, now: Millis): (r: real)
    ensures r == 1.0 <==> holding.reserveEligible && IsLiquidityWindowOpen(status.reserveFund, now)
    ensures r == 0.8 <==> holding.reserveEligible && !IsLiquidityWindowOpen(status.reserveFund, now)
    ensures r == 0.3 <==> !holding.reserveEligible
  {
    if holding.reserveEligible && IsLiquidityWindowOpen(status.reserveFund, now) then 1.0
    else if holding.reserveEligible then 0.8
    else 0.3
  }

  /** `(bond.currentPrice - holding.purchasePrice) / holding.purchasePrice`:
      the relative change, or for a purchase price of 0 the `Infinity` or
      `-Infinity` of the current price's sign, and `NaN` when both are 0. */
  function PriceChange(bond: Bond, holding: Holding): (q: Quotient)
    ensures q.Finite? <==> holding.purchasePrice != 0.0
    ensures holding.purchasePrice != 0.0 ==>
      q.v * holding.purchasePrice + holding.purchasePrice == bond.currentPrice
    ensures holding.purchasePrice == 0.0 ==>
      && (q.PosInfinity? <==> bond.currentPrice > 0.0)
      && (q.NegInfinity? <==> bond.currentPrice < 0.0)
      && (q.NotANumber? <==> bond.currentPrice == 0.0)
  {
    Divide(bond.currentPrice - holding.purchasePrice, holding.purchasePrice)
  }

  /** `getPriceMovementScore`: a descending step over the relative price
      change; the first band whose lower bound is exceeded wins. */
  function PriceMovementScore(bond: Bond, holding: Holding): (r: real)
    ensures r == 1.0 || r == 0.8 || r == 0.6 || r == 0.4 || r == 0.2
    ensures r == 1.0 <==> PriceChange(bond, holding).Above(0.05)
    ensures r == 0.8 <==> PriceChange(bond, holding).Above(0.02) && !PriceChange(bond, holding).Above(0.05)
    ensures r == 0.6 <==> PriceChange(bond, holding).Above(-0.02) && !PriceChange(bond, holding).Above(0.02)
    ensures r == 0.4 <==> PriceChange(bond, holding).Above(-0.05) && !PriceChange(bond, holding).Above(-0.02)
    ensures r == 0.2 <==> !PriceChange(bond, holding).Above(-0.05)
  {
    var change := PriceChange(bond, holding);
    if change.Above(0.05) then 1.0
    else if change.Above(0.02) then 0.8
    else if change.Above(-0.02) then 0.6
    else if change.Above(-0.05) then 0.4
    else 0.2
  }

  /** A higher market price never lowers the price-movement score. */
  lemma PriceMovementMonotone(bond: Bond, holding: Holding, higher: real)
    requires holding.purchasePrice > 0.0 && bond.currentPrice <= higher
    ensures PriceMovementScore(bond, holding) <= PriceMovementScore(bond.(currentPrice := higher), holding)
  {
    var p := holding.purchasePrice;
    var lo, hi := bond.currentPrice - p, higher - p;
    assert hi / p - lo / p == (hi - lo) / p;
    assert (hi - lo) / p >= 0.0;
    assert lo / p <= hi / p;
  }

  const SectorScores: map<string, real> := map[
    "Banking & Financial Services" := 0.9,
    "Government" := 1.0,
    "Energy & Petrochemicals" := 0.7,
    "Renewable Energy" := 0.8,
    "Technology" := 0.6,
    "Healthcare" := 0.8,
    "Real Estate" := 0.5]

  /** `marketData.sectorTrends?.[sector] || 0`. */
  function SectorTrend(sector: string, market: Market): real {
    OrElse(Lookup(market.sectorTrends, sector), 0.0)
  }

  /** `getSectorStrengthScore`: the sector's base score (0.6 if unlisted)
      plus its market trend, clamped to [0.1, 1.0]. */
  function SectorStrengthScore(sector: string, market: Market): (r: real)
    ensures 0.1 <= r <= 1.0
    ensures var base := if sector in SectorScores then SectorScores[sector] else 0.6;
            && (0.1 <= base + SectorTrend(sector, market) <= 1.0 ==> r == base + SectorTrend(sector, market))
            && (base + SectorTrend(sector, market) < 0.1 ==> r == 0.1)
            && (base + SectorTrend(sector, market) > 1.0 ==> r == 1.0)
  {
    Clamp(0.1, 1.0, OrElse(Lookup(SectorScores, sector), 0.6) + SectorTrend(sector, market))
  }

  /** `getDaysSincePurchase`: the days since the purchase, 0 for a
      purchase dated in the future. */
  function DaysSincePurchase(purchaseDate: Millis, now: Millis): (r: real)
    ensures r >= 0.0
    ensures now >= purchaseDate ==> r * DayMs == (now - purchaseDate) as real
    ensures now <= purchaseDate ==> r == 0.0
  {
    Max(0.0, (now - purchaseDate) as real / DayMs)
  }

  /** `getHoldingPeriodScore`: an ascending step over days held. */
  function HoldingPeriodScore(holding: Holding, now: Millis): (r: real)
    ensures r == 0.3 || r == 0.5 || r == 0.7 || r == 0.9 || r == 1.0
    ensures var d := DaysSincePurchase(holding.purchaseDate, now);
            (r == 0.3 <==> d < 30.0) && (r == 0.5 <==> 30.0 <= d < 90.0) &&
            (r == 0.7 <==> 90.0 <= d < 180.0) && (r == 0.9 <==> 180.0 <= d < 365.0) &&
            (r == 1.0 <==> 365.0 <= d)
  {
    var days := DaysSincePurchase(holding.purchaseDate, now);
    if days < 30.0 then 0.3
    else if days < 90.0 then 0.5
    else if days < 180.0 then 0.7
    else if days < 365.0 then 0.9
    else 1.0
  }

  const RatingCertainty: map<string, real> := map[
    "AAA" := 15.0, "AA+" := 12.0, "AA" := 10.0, "AA-" := 8.0,
    "A+" := 6.0, "A" := 4.0, "A-" := 2.0,
    "BBB+" := 0.0, "BBB" := -2.0, "BBB-" := -4.0,
    "BB+" := -6.0, "BB" := -8.0, "BB-" := -10.0]

  /** `getCreditRatingCertainty`: the table value, -5 for an unknown code,
      and -5 for `BBB+` too, since its table value 0 is falsy. */
  function CreditRatingCertainty(rating: string): (r: real)
    ensures -10.0 <= r <= 15.0
    ensures rating !in RatingCertainty ==> r == -5.0
    ensures rating == "BBB+" ==> r == -5.0
    ensures rating in RatingCertainty && rating != "BBB+" ==> r == RatingCertainty[rating]
  {
    OrElse(Lookup(RatingCertainty, rating), -5.0)
  }

  const AccuracyBySector: map<string, map<string, real>> := map[
    "Banking & Financial Services" := map["HIGH" := 88.0, "MEDIUM" := 92.0, "LOW" := 95.0],
    "Government" := map["HIGH" := 90.0, "MEDIUM" := 94.0, "LOW" := 98.0],
    "Energy & Petrochemicals" := map["HIGH" := 82.0, "MEDIUM" := 87.0, "LOW" := 91.0],
    "Renewable Energy" := map["HIGH" := 79.0, "MEDIUM" := 84.0, "LOW" := 89.0]]

  /** `getHistoricalAccuracy`: the (sector, risk) entry, 85 when either is
      not in the table. */
  function HistoricalAccuracy(sector: string, riskLevel: string): (r: real)
    ensures 79.0 <= r <= 98.0
    ensures sector !in AccuracyBySector ==> r == 85.0
    ensures sector in AccuracyBySector && riskLevel in AccuracyBySector[sector] ==>
              r == AccuracyBySector[sector][riskLevel]
    ensures sector in AccuracyBySector && riskLevel !in AccuracyBySector[sector] ==> r == 85.0
  {
    var bySector := Lookup(AccuracyBySector, sector);
    OrElse(if bySector.Some? then Lookup(bySector.value, riskLevel) else None, 85.0)
  }

  /** `getMarketTimingMultiplier`: P2P sales are faster during market hours,
      9:00 to 17:59 (the hour 17 is included). */
  function MarketTimingMultiplier(hour: int): (r: real)
    ensures r == 0.8 <==> 9 <= hour <= 17
    ensures r == 1.2 <==> !(9 <= hour <= 17)
  {
    if 9 <= hour && hour <= 17 then 0.8 else 1.2
  }

  /** The day range of a P2P sale: "7-14" for an unknown bond, or the two
      rounded bounds. */
  datatype DayRange = UnknownBondRange | DayBounds(min: int, max: int)

  /** One entry of `baseTimings`. */
  datatype BaseTiming = BaseTiming(min: real, max: real)

  const BaseTimings: map<string, BaseTiming> := map[
    "LOW" := BaseTiming(3.0, 8.0),
    "MEDIUM" := BaseTiming(5.0, 12.0),
    "HIGH" := BaseTiming(7.0, 18.0)]

  /** `calculatePeerToPeerTiming`: the bond is looked up by the holding's
      id; its risk tier (MEDIUM if unknown) gives a day range that the hour
      of day scales by 0.8 or 1.2 before rounding. */
  function PeerToPeerTiming(holding: Holding, bonds: seq<Bond>, hour: int): (r: DayRange)
    ensures r.UnknownBondRange? <==> FindBond(bonds, holding.bondId).None?
    ensures r.DayBounds? ==> 2 <= r.min < r.max <= 22
    ensures r.DayBounds? && FindBond(bonds, holding.bondId).value.riskLevel == "LOW" ==>
              r == if 9 <= hour <= 17 then DayBounds(2, 6) else DayBounds(4, 10)
    ensures r.DayBounds? && FindBond(bonds, holding.bondId).value.riskLevel == "HIGH" ==>
              r == if 9 <= hour <= 17 then DayBounds(6, 14) else DayBounds(8, 22)
    ensures r.DayBounds? && FindBond(bonds, holding.bondId).value.riskLevel != "LOW"
              && FindBond(bonds, holding.bondId).value.riskLevel != "HIGH" ==>
              r == if 9 <= hour <= 17 then DayBounds(4, 10) else DayBounds(6, 14)
  {
    match FindBond(bonds, holding.bondId)
    case None => UnknownBondRange
    case Some(bond) =>
      var base := if bond.riskLevel in BaseTimings then BaseTimings[bond.riskLevel] else BaseTimings["MEDIUM"];
      var m := MarketTimingMultiplier(hour);
      DayBounds(Round(base.min * m), Round(base.max * m))
  }

  /** `getDataAge`: days since the snapshot, 7 when there is no timestamp. */
  function DataAge(lastUpdated: Option<Millis>, now: Millis): (r: real)
    ensures lastUpdated.None? ==> r == 7.0
    ensures lastUpdated.Some? ==> r * DayMs == (now - lastUpdated.value) as real
  {
    match lastUpdated
    case None => 7.0
    case Some(t) => (now - t) as real / DayMs
  }

  /** `getTimeToMaturity`: days to maturity, 0 once it has passed. */
  function TimeToMaturity(maturityDate: Millis, now: Millis): (r: real)
    ensures r >= 0.0
    ensures r == 0.0 <==> maturityDate <= now
    ensures maturityDate >= now ==> r * DayMs == (maturityDate - now) as real
  {
    Max(0.0, (maturityDate - now) as real / DayMs)
  }

  /** `isHighDemandSector`. */
  predicate IsHighDemandSector(sector: string)
    ensures IsHighDemandSector(sector) <==>
              sector == "Banking & Financial Services" || sector == "Government" || sector == "Renewable Energy"
  {
    sector in ["Banking & Financial Services", "Government", "Renewable Energy"]
  }

  /** `getSectorMultiplier`: the sector's performance factor, 1.0 when absent
      or zero. */
  function SectorMultiplier(sector: string, market: Market): (r: real)
    ensures r != 0.0
    ensures sector !in market.sectorPerformance ==> r == 1.0
    ensures sector in market.sectorPerformance && market.sectorPerformance[sector] == 0.0 ==> r == 1.0
    ensures sector in market.sectorPerformance && market.sectorPerformance[sector] != 0.0 ==>
              r == market.sectorPerformance[sector]
  {
    OrElse(Lookup(market.sectorPerformance, sector), 1.0)
  }
}
