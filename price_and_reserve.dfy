/** The bond-price forecast and the reserve-fund calculations of
    `BondAIEngine` (ai.js): `predictBondPrice` with its simplified modified
    duration, `calculatePersonalizedReserve` and `calculateReserveFundImpact`. */
module PriceAndReserve {
  import opened Wrappers
  import opened JsMath
  import opened Records
  import opened FactorScores

  /** `calculateModifiedDuration`: years to maturity over `1 + coupon / 100`.
      An absent coupon makes the quotient `NaN`, and a coupon of -100 % a
      division by zero; both are not finite and give `None`. */
  function ModifiedDuration(bond: Bond, now: Millis): (r: Option<real>)
    ensures r.Some? <==> bond.couponRate.Some? && bond.couponRate.value != -100.0
    ensures r.Some? ==> r.value * (1.0 + bond.couponRate.value / 100.0) == TimeToMaturity(bond.maturityDate, now) / 365.0
    ensures r.Some? && bond.couponRate.value > -100.0 ==> r.value >= 0.0
  {
    match bond.couponRate
    case None => None
    case Some(c) =>
      var years := TimeToMaturity(bond.maturityDate, now) / 365.0;
      var growth := 1.0 + c / 100.0;
      if growth == 0.0 then None
      else
        assert years >= 0.0;
        assert growth > 0.0 ==> years / growth >= 0.0;
        Some(years / growth)
  }

  /** The forecast before the pull to par: the current price moved by the
      market trend, the rate change times the duration, the credit-spread
      change and the sector's performance factor. */
  function MarketAdjustedPrice(bond: Bond, market: Market, duration: real): real {
    bond.currentPrice
      * (1.0 + market.trend / 100.0)
      * (1.0 - duration * market.interestRateChange / 100.0)
      * (1.0 - market.creditSpreadChange / 100.0)
      * SectorMultiplier(bond.sector, market)
  }

  /** `predictBondPrice`; `None` when the duration is not a finite number,
      since `NaN` and infinities survive every later step. The time horizon
      argument is never read by the source and is left out. */
  function PredictBondPrice(bond: Bond, market: Market, now: Millis): (r: Option<real>)
    ensures r.Some? <==> ModifiedDuration(bond, now).Some?
    ensures r.Some? && TimeToMaturity(bond.maturityDate, now) >= 365.0 ==>
              r.value == MarketAdjustedPrice(bond, market, ModifiedDuration(bond, now).value)
    ensures r.Some? && TimeToMaturity(bond.maturityDate, now) < 365.0 ==>
              var adjusted := MarketAdjustedPrice(bond, market, ModifiedDuration(bond, now).value);
              Min(adjusted, bond.faceValue) <= r.value <= Max(adjusted, bond.faceValue) &&
              Abs(bond.faceValue - r.value) == 0.9 * Abs(bond.faceValue - adjusted)
  {
    match ModifiedDuration(bond, now)
    case None => None
    case Some(duration) =>
      var adjusted := MarketAdjustedPrice(bond, market, duration);
      if TimeToMaturity(bond.maturityDate, now) < 365.0 then Some(adjusted + (bond.faceValue - adjusted) * 0.1)
      else Some(adjusted)
  }

  /** A quiet market (no trend, no rate or spread change, no sector factor)
      leaves a bond more than a year from maturity at its current price. */
  lemma QuietMarketKeepsPrice(bond: Bond, market: Market, now: Millis)
    requires bond.couponRate.Some? && bond.couponRate.value != -100.0
    requires market.trend == 0.0 && market.interestRateChange == 0.0 && market.creditSpreadChange == 0.0
    requires bond.sector !in market.sectorPerformance
    requires bond.maturityDate - now >= 365 * 86400000
    ensures PredictBondPrice(bond, market, now) == Some(bond.currentPrice)
  {
  }

  /** A rise in interest rates never raises the forecast of a bond with a
      positive price, a coupon above -100 %, a trend above -100 %, a spread
      change below 100 % and a positive sector factor. */
  lemma {:induction false} HigherRatesLowerPrice(bond: Bond, market: Market, now: Millis, higherRate: real)
    requires bond.couponRate.Some? && bond.couponRate.value > -100.0
    requires bond.currentPrice > 0.0 && market.trend > -100.0 && market.creditSpreadChange < 100.0
    requires SectorMultiplier(bond.sector, market) > 0.0
    requires market.interestRateChange <= higherRate
    ensures PredictBondPrice(bond, market.(interestRateChange := higherRate), now).value
              <= PredictBondPrice(bond, market, now).value
  {
    var higher := market.(interestRateChange := higherRate);
    var d := ModifiedDuration(bond, now).value;
    assert SectorMultiplier(bond.sector, higher) == SectorMultiplier(bond.sector, market);
    var base := bond.currentPrice * (1.0 + market.trend / 100.0);
    var rest := (1.0 - market.creditSpreadChange / 100.0) * SectorMultiplier(bond.sector, market);
    assert base > 0.0 && rest > 0.0;
    assert d * higherRate >= d * market.interestRateChange by {
      assert d >= 0.0;
    }
    var low := 1.0 - d * higherRate / 100.0;
    var high := 1.0 - d * market.interestRateChange / 100.0;
    assert low <= high;
    assert base * low <= base * high;
    assert base * low * rest <= base * high * rest;
    var lower := MarketAdjustedPrice(bond, higher, d);
    var upper := MarketAdjustedPrice(bond, market, d);
    assert lower == base * low * rest;
    assert upper == base * high * rest;
    assert lower + (bond.faceValue - lower) * 0.1 <= upper + (bond.faceValue - upper) * 0.1;
  }

  /** What `calculatePersonalizedReserve` returns: nothing but the days left
      for a holding that is not eligible (its allocation is 0), otherwise the
      allocation, its share of the holding's value in percent, and the
      month's unused capacity. */
  datatype ReserveAllocation =
    | NotEligible(daysUntilEligible: Option<int>)
    | EligibleAllocation(allocation: real, percentage: Quotient, remainingCapacity: real)
  {
    function Allocation(): real {
      if NotEligible? then 0.0 else allocation
    }
  }

  /** The holding's value as the reserve counts it. */
  function HoldingValue(holding: Holding): real {
    holding.currentValue + holding.accruedInterest
  }

  /** `calculatePersonalizedReserve`: the most the reserve will buy back,
      capped by the holding's value, 10 % of the available reserve and 5 %
      of the monthly capacity. The percentage `max / total * 100` is
      computed as `max * 100 / total`, the same number and the same
      infinities or `NaN` for a zero total. */
  function PersonalizedReserve(holding: Holding, status: PlatformStatus): (r: ReserveAllocation)
    ensures r.NotEligible? <==> !holding.reserveEligible
    ensures r.NotEligible? ==> r.daysUntilEligible == holding.daysUntilEligible && r.Allocation() == 0.0
    ensures r.EligibleAllocation? ==>
              && r.allocation <= HoldingValue(holding)
              && r.allocation <= status.reserveFund.available * 0.1
              && r.allocation <= status.reserveFund.monthlyCapacity * 0.05
              && (r.allocation == HoldingValue(holding) || r.allocation == status.reserveFund.available * 0.1
                  || r.allocation == status.reserveFund.monthlyCapacity * 0.05)
    ensures r.EligibleAllocation? && HoldingValue(holding) > 0.0 ==>
              r.percentage.Finite? && r.percentage.v <= 100.0
    ensures (r.EligibleAllocation? && HoldingValue(holding) > 0.0 && status.reserveFund.available >= 0.0 &&
             status.reserveFund.monthlyCapacity >= 0.0) ==> r.percentage.v >= 0.0
    ensures r.EligibleAllocation? ==>
              r.remainingCapacity + status.reserveFund.capacityUsed == status.reserveFund.monthlyCapacity
    ensures r.EligibleAllocation? && HoldingValue(holding) != 0.0 ==>
              r.percentage.Finite? && r.percentage.v * HoldingValue(holding) == r.allocation * 100.0
    ensures r.EligibleAllocation? && HoldingValue(holding) == 0.0 ==>
              && (r.percentage.NotANumber? <==> r.allocation == 0.0)
              && (r.percentage.NegInfinity? <==> r.allocation < 0.0)
              && !r.percentage.Finite?
  {
    if !holding.reserveEligible then NotEligible(holding.daysUntilEligible)
    else
      var fund := status.reserveFund;
      var total := HoldingValue(holding);
      var cap := Min(Min(total, fund.available * 0.1), fund.monthlyCapacity * 0.05);
      var percentage := Divide(cap * 100.0, total);
      ShareInPercent(cap, total);
      EligibleAllocation(cap, percentage, fund.monthlyCapacity - fund.capacityUsed)
  }

  /** `part / whole * 100`, for a non-zero whole: times the whole it gives
      back `part * 100`, and for a part at most a positive whole it is at
      most 100. */
  lemma ShareInPercent(part: real, whole: real)
    ensures whole != 0.0 ==> (part * 100.0 / whole) * whole == part * 100.0
    ensures 0.0 < whole && part <= whole ==> part * 100.0 / whole <= 100.0
  {
    if 0.0 < whole && part <= whole {
      var q := part * 100.0 / whole;
      assert (q - 100.0) * whole == part * 100.0 - whole * 100.0 <= 0.0;
    }
  }

  /** A larger holding is never allocated less. */
  lemma LargerHoldingLargerReserve(holding: Holding, status: PlatformStatus, extra: real)
    requires holding.reserveEligible && extra >= 0.0
    ensures PersonalizedReserve(holding, status).Allocation()
              <= PersonalizedReserve(holding.(currentValue := holding.currentValue + extra), status).Allocation()
  {
  }

  /** What `calculateReserveFundImpact` returns: the days left for a
      holding that is not eligible (its impact is 0), otherwise the impact,
      which the source also reports as the liquidity score. */
  datatype ReserveImpact =
    | NotReserveEligible(daysUntilEligible: Option<int>)
    | ReserveAvailable(impact: real)
  {
    function Impact(): real {
      if NotReserveEligible? then 0.0 else impact
    }
  }

  /** `calculateReserveFundImpact`: 0.8, plus 0.2 when more than 80 % of the
      reserve is available, plus 0.1 when less than 10 % of the month's
      capacity is used. The source divides both percentages by 100 and
      compares with 0.8 and 0.1, the same tests over exact numbers. */
  function ReserveFundImpact(holding: Holding, status: PlatformStatus): (r: ReserveImpact)
    ensures r.NotReserveEligible? <==> !holding.reserveEligible
    ensures r.NotReserveEligible? ==> r.daysUntilEligible == holding.daysUntilEligible && r.Impact() == 0.0
    ensures r.ReserveAvailable? ==> 0.8 <= r.impact <= 1.1
    ensures r.ReserveAvailable? ==>
              var high := status.reserveFund.percentage > 80.0;
              var low := status.reserveFund.capacityUsedPercent < 10.0;
              && (r.impact == 1.1 <==> high && low)
              && (r.impact == 1.0 <==> high && !low)
              && (r.impact == 0.9 <==> !high && low)
              && (r.impact == 0.8 <==> !high && !low)
    ensures r.ReserveAvailable? ==> (r.impact >= 1.0 <==> status.reserveFund.percentage > 80.0)
    ensures r.ReserveAvailable? ==>
              (r.impact == 0.9 || r.impact == 1.1 <==> status.reserveFund.capacityUsedPercent < 10.0)
  {
    if !holding.reserveEligible then NotReserveEligible(holding.daysUntilEligible)
    else
      var highReserve := if status.reserveFund.percentage / 100.0 > 0.8 then 0.2 else 0.0;
      var lowUse := if status.reserveFund.capacityUsedPercent / 100.0 < 0.1 then 0.1 else 0.0;
      ReserveAvailable(0.8 + highReserve + lowUse)
  }

  /** More reserve and less used capacity never lower the impact. */
  lemma ReserveImpactMonotone(holding: Holding, status: PlatformStatus, better: PlatformStatus)
    requires status.reserveFund.percentage <= better.reserveFund.percentage
    requires better.reserveFund.capacityUsedPercent <= status.reserveFund.capacityUsedPercent
    ensures ReserveFundImpact(holding, status).Impact() <= ReserveFundImpact(holding, better).Impact()
  {
  }
}
