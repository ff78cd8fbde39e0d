# Bondtrade core in Dafny

A model of the two pieces of logic in Bondtrade, a bond-trading web app with a
peer-to-peer (P2P) resale market and a platform reserve fund that buys bonds
back during liquidity windows:

- **`BondAIEngine`** (ai.js) predicts how likely a holding is to sell and how
  quickly. It adds six weighted factor scores (credit rating, market
  sentiment, liquidity window, price movement, sector strength and holding
  period) to a base score for the bond's risk tier, then clamps the sum. It
  also estimates a confidence, an expected timing, a price impact, a
  recommendation and a list of key factors. Any thrown error gives a fixed
  fallback record. The engine further forecasts a bond price from a
  simplified modified duration with a pull to par, sizes the reserve fund's
  buy-back of a holding, and rates the reserve's effect on liquidity.
- **`BondTradingApp`** (app-fixed.js) keeps the bookkeeping of the session:
  - the market's bonds, the P2P listings and the user's holdings, listings
    and balance;
  - purchases of new issues and of P2P listings, and listing a holding for
    sale;
  - the filters and the P2P reordering, and the revaluation after a market
    update;
  - small view helpers: star ratings, time left on a listing, buyer counts,
    timelines, the P2P advice text and the listing fee.

Modules, in dependency order:

| module | file | what it holds |
|---|---|---|
| `Wrappers` | wrappers.dfy | `Option` |
| `JsMath` | js_math.dfy | `Math.floor/round/ceil`, `\|\|` defaults, division by zero (`Quotient`), `find`/`findIndex`/`filter` |
| `Records` | records.dfy | bonds, holdings, listings, market snapshot, reserve-fund status |
| `FactorScores` | factor_scores.dfy | the scorers, lookup tables and date helpers of `BondAIEngine` |
| `SalePrediction` | sale_prediction.dfy | `predictBondSale` and its parts, the fallback, `predictPortfolio` |
| `PriceAndReserve` | price_and_reserve.dfy | `predictBondPrice`, `calculatePersonalizedReserve`, `calculateReserveFundImpact` |
| `ListingViews` | listing_views.dfy | filters, the P2P reordering, lookup, stars, time left, P2P helpers, listing fee |
| `Portfolio` | portfolio.dfy | what purchases, listings and sales do to each array, as functions |
| `TradingApp` | trading_app.dfy | the class `BondTradingApp`, proved against `Portfolio` and `ListingViews` |

Modelling conventions:

- Numbers are `real`. `Math.round(x)` is `Floor(x + 0.5)`, and `Math.ceil(x)`
  is `-Floor(-x)`.
- A JavaScript `Date` is an `int` of milliseconds. "Now" and the local hour
  are parameters (`Clock`), because the source reads them from `new Date()`.
- `table[key] || d` is `OrElse(Lookup(table, key), d)`. An absent entry and
  an entry of 0 both give `d`.
- A division that can hit zero gives a `Quotient`: a finite value, ±infinity
  or NaN. It is compared the way JavaScript compares those values.
- A thrown `TypeError` is `None`, which selects the fallback prediction. This
  covers an absent record, and a risk tier that is not an own key of
  `riskFactors`, i.e. not HIGH/MEDIUM/LOW: the lookup is undefined and reading
  `.baseScore` throws. Lookup tables are taken to hold only their own keys;
  see "## Left out" for inherited names.
- Display strings (timings, recommendations, factor labels, star icons)
  become datatypes.
- The app's arrays of records are `seq` fields of a class. Each method is
  specified by the function in `Portfolio` or `ListingViews` that says what it
  does to that array.

Consequences of the code as written, which the model keeps:

- Weights: the credit-rating (0.25), sentiment (0.20), liquidity (0.18),
  price (0.15), sector (0.12) and holding (0.10) weights apply to scores that
  are at least 0.30, 0.1, 0.3, 0.2, 0.1 and 0.3. The factor points are
  therefore at least 22.1, and the lowest base score is 75, so the clamped
  probability is at least 97.1. `saleProbability` is always 97 or 98
  (`SalePrediction.SaleProbability`). For an eligible holding in an open
  liquidity window every known tier reaches the cap of 98, so an AAA bond in
  a positive market is not rated above a BB- bond in a negative one
  (`SalePrediction.OpenWindowSaturates`, `SalePrediction.RatingHiddenByCap`).
- The unclamped confidence lies in [65.75, 103.25], so the lower clamp at 60
  never takes effect (`SalePrediction.RawConfidenceBounds`).
- The "< 60" and final branches of `generateRecommendation` cannot be
  reached from `predictBondSale` (`SalePrediction.RecommendationOfScoredPrediction`).
- `getFilteredBonds` keeps the bonds whose `riskLevel` equals the filter
  (`ListingViews.FilterBonds`).
- `confirmListing` does not bound the listed quantity by the units held. The
  input field's `max` is not enforced on typed values. Listing more units
  than held removes the holding, and the listing still offers every unit
  asked for (`Portfolio.ListingAccountsForUnits`, `TradingApp.BondTradingApp.CreateP2PListing`).
- A P2P purchase may ask for more units than the listing offers. The listing
  is then removed, and the buyer is credited all the units asked for and
  pays for them (`TradingApp.BondTradingApp.BuySelected`).

## Model

| member | source | states |
|---|---|---|
| Records.FindBond | ai.js:635-639 | the first bond with that id; `None` exactly when no bond has it |
| FactorScores.RiskFactorOf | ai.js:22-26 | defined exactly for HIGH, MEDIUM and LOW; base score in [75, 85], volatility in [0.03, 0.15] |
| FactorScores.CreditRatingScore | ai.js:290-298 | the table score (at least 0.40) for a listed rating, 0.30 for any other; always in [0.30, 1.0] |
| FactorScores.MarketSentimentScore | ai.js:300-309 | the table score for a listed sentiment, 0.5 otherwise; always in [0.1, 1.0] |
| FactorScores.DaysToNextWindow | ai.js:423-428 | the least whole number of days covering the distance to the window, in either direction; 0 only at the window's moment |
| FactorScores.DaysToWindowIgnoresDirection | ai.js:426 | a window as far in the past gives the same count as one in the future |
| FactorScores.IsLiquidityWindowOpen | ai.js:409-418 | open from `nextWindow` through three days later, both ends included |
| FactorScores.LiquidityScore | ai.js:311-321 | 1.0 iff eligible with the window open, 0.8 iff eligible with it closed, 0.3 iff not eligible |
| FactorScores.PriceChange | ai.js:324 | the relative change: for a non-zero purchase price, change × purchase + purchase = current; for a zero one, +infinity, −infinity or NaN as the current price is positive, negative or zero |
| FactorScores.PriceMovementScore | ai.js:323-331 | one of 1.0/0.8/0.6/0.4/0.2, each exactly in its band of the first-match descending step, including infinite and NaN changes |
| FactorScores.PriceMovementMonotone | ai.js:323-331 | a higher current price never lowers the price-movement score |
| FactorScores.SectorStrengthScore | ai.js:333-348 | base score (0.6 if unlisted) plus sector trend, kept when in [0.1, 1.0], 0.1 below that range and 1.0 above it |
| FactorScores.DaysSincePurchase | ai.js:453-457 | 0 for a purchase date at or after now; otherwise the elapsed days; never negative |
| FactorScores.HoldingPeriodScore | ai.js:350-358 | 0.3/0.5/0.7/0.9/1.0, each exactly in its band of days held (30, 90, 180, 365) |
| FactorScores.CreditRatingCertainty | ai.js:360-368 | the table value, but −5 for unknown ratings and for BBB+ (whose 0 is falsy); always in [−10, 15] |
| FactorScores.HistoricalAccuracy | ai.js:370-380 | the sector/risk table value, 85 when either is missing; always in [79, 98] |
| FactorScores.MarketTimingMultiplier | ai.js:492-497 | 0.8 exactly for hours 9 through 17 inclusive, 1.2 otherwise |
| FactorScores.PeerToPeerTiming | ai.js:385-404 | "7-14" exactly when the bond is unknown; otherwise the tier's range scaled by 0.8 in market hours and 1.2 outside: LOW 2-6 / 4-10, HIGH 6-14 / 8-22, MEDIUM and any other tier 4-10 / 6-14 |
| FactorScores.DataAge | ai.js:462-467 | 7 days without a timestamp, otherwise the elapsed days |
| FactorScores.TimeToMaturity | ai.js:444-448 | 0 exactly when the bond has matured; otherwise days × 86 400 000 ms = the time left; never negative |
| FactorScores.IsHighDemandSector | ai.js:472-479 | exactly Banking & Financial Services, Government and Renewable Energy |
| FactorScores.SectorMultiplier | ai.js:484-487 | the sector's performance factor; 1.0 when the sector is absent or its factor is 0; never 0 |
| SalePrediction.FactorPoints | ai.js:80-101 | the six weighted scores add up to between 22.1 and 100 points |
| SalePrediction.SaleProbability | ai.js:76-105 | defined exactly for known risk tiers; within [35, 98] and in fact at least 97.1 |
| SalePrediction.OpenWindowSaturates | ai.js:76-105 | an eligible holding in an open liquidity window gets probability 98 for every known tier, whatever its other factors |
| SalePrediction.RatingHiddenByCap | ai.js:76-105 | with the window open, AAA in a positive market and BB- in a negative market both get 98 |
| SalePrediction.FreshnessAdjustment | ai.js:114-116 | +10 under a day old, 0 from 1 to 7 days, −15 beyond 7 days |
| SalePrediction.RawConfidenceBounds | ai.js:111-128 | the unclamped confidence lies in [65.75, 103.25] |
| SalePrediction.ConfidenceAtAge | ai.js:110-131 | defined exactly for known risk tiers; within [65.75, 98] |
| SalePrediction.Confidence | ai.js:110-131 | defined exactly for known risk tiers; within [60, 98] |
| SalePrediction.ConfidenceFallsWithAge | ai.js:113-116 | older data never gives a higher confidence |
| SalePrediction.FreshDataBeatsStaleData | ai.js:113-116 | data under a day old gives a strictly higher rounded confidence than data over a week old |
| SalePrediction.MissingTimestampIsNeutral | ai.js:463 | a snapshot without `lastUpdated` is scored as 7-day-old data, with no freshness adjustment |
| SalePrediction.ExpectedTiming | ai.js:136-154 | the first-match chain: instant iff eligible with the window open, next window (with its day count) iff eligible with it closed, lock-in iff not eligible with a truthy `daysUntilEligible`, otherwise P2P |
| SalePrediction.InstantWinsOverLockIn | ai.js:136-154 | an eligible holding in an open window is instant whatever its `daysUntilEligible` |
| SalePrediction.PriceImpact | ai.js:159-165 | market trend plus the sector's trend (0 when absent) plus 0.1 for an eligible holding, −0.2 otherwise |
| SalePrediction.EligibilityPriceImpact | ai.js:159-165 | reserve eligibility is worth exactly 0.3 points of price impact |
| SalePrediction.RoundToCents | ai.js:61 | `Math.round(x * 100) / 100`: a whole number of cents within half a cent of x, hence Math.round's result |
| SalePrediction.GenerateRecommendation | ai.js:170-188 | each recommendation exactly under its first-match condition; the fallback text never comes from this chain |
| SalePrediction.KeyFactors | ai.js:193-226 | the eligibility label first, then at most five more |
| SalePrediction.KeyFactorsRanked | ai.js:193-226 | the labels come in the order of the pushes |
| SalePrediction.KeyFactorsListed | ai.js:202-223 | each label is listed exactly when its condition holds (sentiment exactly `positive`, rating AAA or AA, price ±2 %, high-demand sector, reserve above 70 %) |
| SalePrediction.FallbackPrediction | ai.js:502-514 | the fallback: probability 75, confidence 70, 5-10 days, no price impact, standard conditions, limited data |
| SalePrediction.ScoredPrediction | ai.js:38-65 | defined exactly for known risk tiers; probability and confidence are the rounded scores (97 or 98, 66 to 98), the price impact rounded to cents, the recommendation for the unrounded probability and the timing, the key factors, the model version and now |
| SalePrediction.PredictBondSale | ai.js:37-71 | never fails: the fallback exactly for an absent record or unknown tier, otherwise exactly the scored record |
| SalePrediction.RecommendationOfScoredPrediction | ai.js:37-71 | inside `predictBondSale` the recommendation depends only on eligibility and the window |
| SalePrediction.PortfolioPredictionKeys | ai.js:617-630 | a bond id has a prediction exactly when a holding refers to a known bond with that id |
| SalePrediction.PortfolioPredictionIsLastHolding | ai.js:617-630 | the prediction kept for a bond is the one for its last holding |
| SalePrediction.PredictPortfolio | ai.js:617-630 | the loop builds exactly the map of per-holding predictions |
| PriceAndReserve.ModifiedDuration | ai.js:433-439 | finite exactly with a coupon other than −100 %; duration × (1 + coupon/100) = years to maturity; non-negative above −100 % |
| PriceAndReserve.PredictBondPrice | ai.js:231-259 | a forecast exactly when the duration is finite; the market-adjusted price from a year out, otherwise 90 % of the way from face value to it |
| PriceAndReserve.QuietMarketKeepsPrice | ai.js:231-259 | with no trend, rate, spread or sector change, a bond a year or more from maturity keeps its price |
| PriceAndReserve.HigherRatesLowerPrice | ai.js:231-259 | a rise in interest rates never raises the forecast |
| PriceAndReserve.PersonalizedReserve | ai.js:264-286 | not eligible: allocation 0 and the days passed through; eligible: the least of value, 10 % of the available reserve and 5 % of monthly capacity, percentage × value = allocation × 100 for a non-zero value (NaN or −infinity for a zero one), at most 100 % of a positive value, remaining capacity = capacity − used |
| PriceAndReserve.LargerHoldingLargerReserve | ai.js:264-286 | a larger holding is never allocated less |
| PriceAndReserve.ReserveFundImpact | ai.js:578-600 | 1.1 iff more than 80 % of the reserve is available and less than 10 % of capacity used, 1.0 iff only the first, 0.9 iff only the second, 0.8 iff neither |
| PriceAndReserve.ReserveImpactMonotone | ai.js:578-600 | more reserve and less capacity used never lower the impact |
| ListingViews.FilterBonds | app-fixed.js:1588-1591 | every bond for ALL, otherwise exactly the bonds of that risk level |
| ListingViews.FilterListings | app-fixed.js:1593-1609 | exactly the listings the filter's test accepts; all of them for any other filter name |
| ListingViews.FiltersKeepOrder | app-fixed.js:1588-1609 | both filters return order-preserving subsequences |
| ListingViews.SortOrderOf | app-fixed.js:1619-1633 | the four `sortBy` names pick their orders, any other leaves the order alone |
| ListingViews.SortListings | app-fixed.js:1619-1633 | sorted by the chosen key and a permutation of its input |
| ListingViews.ShownById | app-fixed.js:1635 | with unique ids, a listing's id is among the sorted ones exactly when the filter shows it |
| ListingViews.ShownInOrder | app-fixed.js:1611-1633 | a permutation of the filtered listings, sorted by the chosen key, or in market order for an unknown `sortBy` |
| ListingViews.HiddenInOrder | app-fixed.js:1635 | an order-preserving subsequence holding exactly the listings the filter hides |
| ListingViews.ReorderIsPermutation | app-fixed.js:1611-1637 | with unique ids the reorder is the listings the filter hides, in market order, followed by the shown ones in the chosen order; a permutation of the market |
| ListingViews.GetBondById | app-fixed.js:1857-1865 | a bond first (the first with the id), then the first listing with the id, then nothing |
| ListingViews.GenerateStars | app-fixed.js:1657-1676 | floor(rating) full stars, one half star iff the fraction is at least one half, empties up to five; five stars for 0 ≤ rating ≤ 5 |
| ListingViews.CalculateTimeLeft | app-fixed.js:1678-1692 | hours (the ceiling) iff at most a day is left, otherwise days (the ceiling), urgent iff at most three |
| ListingViews.ActiveP2PBuyers | app-fixed.js:1554-1562 | 25/15/4 exactly for Very High/High/Low demand, otherwise 8 |
| ListingViews.P2PTimeline | app-fixed.js:1564-1571 | days for a P2P sale: 2.5 for Banking & Financial Services, 3.2 for Renewable Energy, 4.1 for Energy & Petrochemicals, 3.5 for any other sector |
| ListingViews.EnhancedP2PRecommendation | app-fixed.js:1573-1586 | each advice exactly under its first-match condition on demand and potential gain |
| ListingViews.QuoteListing | app-fixed.js:1141-1143 | total = units × price, fee + net = total, fee is the fee percentage of the total, both within the total |
| ListingViews.IssuerFromBondName | app-fixed.js:1473 | a prefix of the name in which no " Bond" starts, ending where the first " Bond" starts, if any |
| ListingViews.IssuerRoundTrip | app-fixed.js:1473 | splitting the listing name `issuer + " Bond"` gives the issuer back, when the issuer's own name holds no " Bond" |
| Portfolio.DateOf | app-fixed.js:1535 | the UTC midnight of the day containing the moment |
| Portfolio.HoldingIndex | app-fixed.js:1498 | the first holding of the bond; `None` exactly when there is none |
| Portfolio.MergeHolding | app-fixed.js:1500-1511 | units add up; units × average price = old cost + new cost; the average lies between both prices; value grows by the amount paid, and so does an eligible holding's reserve allocation; nothing else changes |
| Portfolio.NewHolding | app-fixed.js:1530-1547 | locked in for 180 days, not eligible, worth what was paid, a P2P estimate 2.5 % above that |
| Portfolio.PortfolioAfterAdd | app-fixed.js:1495-1551 | the first holding of the bond becomes its `MergeHolding`, or a `NewHolding` is appended when there is none; every quantity stays positive |
| Portfolio.AddAccountsForUnits | app-fixed.js:1495-1551 | a purchase adds exactly the units bought to the bond's total and nothing to any other bond |
| Portfolio.AddAccountsForCost | app-fixed.js:1495-1551 | a purchase adds exactly quantity × price to the portfolio's cost basis |
| Portfolio.BondDataOf | app-fixed.js:1471-1479 | the listing's bond id, sector, rating, risk level, yield and market price, and as issuer the bond name up to the first " Bond" |
| Portfolio.AcquiredBond | app-fixed.js:1514-1528 | `bondData` plus face value 100, maturity 2027-12-31, no coupon, "P2P Acquired", medium demand, 2 % premium |
| Portfolio.BondsAfterAdd | app-fixed.js:1514-1528 | one bond is added exactly for a first purchase with `bondData` of an id no bond has |
| Portfolio.NewListing | app-fixed.js:1269-1293 | the premium takes the market price to the asking price, and is positive iff asking above market; yield scaled by market/asking; accrued interest pro rata; quick sale iff duration ≤ 7 days; features "Your Listing" and the bond's first two |
| Portfolio.ReduceHolding | app-fixed.js:1300-1309 | removed exactly when nothing remains; otherwise value, accrued interest and reserve allocation scaled to the remaining units |
| Portfolio.PortfolioAfterListing | app-fixed.js:1300-1309 | the listed holding shrinks or is removed, every other holding stays |
| Portfolio.ListingAccountsForUnits | app-fixed.js:1300-1309 | the bond's total drops by the units listed (by all held when more are listed); other bonds keep theirs |
| Portfolio.ListingIndex | app-fixed.js:1484 | the first listing with the id; `None` exactly when there is none |
| Portfolio.ListingsAfterSale | app-fixed.js:1484-1492 | one listing fewer exactly when the sale takes all its units, the same count otherwise, nothing changed for an unknown id |
| Portfolio.SaleTouchesOnlyThatListing | app-fixed.js:1484-1492 | with unique ids the ids stay unique and the sold listing is either spliced out (its id gone), the listings before it staying in place and those after it moving up one, or it keeps its place with the units sold taken off while every other listing stays where it was |
| Portfolio.Revalue | app-fixed.js:1767-1774 | a known bond's holding is valued at its price, with a P2P gain of the bond's average premium; unknown bonds are left alone |
| TradingApp.ListingFor | app-fixed.js:1262-1267 | a listing exactly when the bond and a holding of it exist: the `NewListing` of the bond and its first holding, at the bond's positive market price |
| TradingApp.ListingCalculation | app-fixed.js:1132-1154 | unreadable inputs count as 0; total = quantity × price for readable ones; fee + net = total, and the fee is 0.5 % of the total |
| TradingApp.BondTradingApp.constructor | app-fixed.js:7-25 | balance 568900, 24 active listings, filters ALL/all, no user listings |
| TradingApp.BondTradingApp.SetFilter | app-fixed.js:557-570 | sets the bond filter and nothing else |
| TradingApp.BondTradingApp.SetP2PFilter | app-fixed.js:572-585 | sets the P2P filter and nothing else |
| TradingApp.BondTradingApp.AddToPortfolio | app-fixed.js:1495-1551 | holdings and bonds become `PortfolioAfterAdd` and `BondsAfterAdd`; nothing else changes; the invariant holds |
| TradingApp.BondTradingApp.CreateP2PListing | app-fixed.js:1259-1314 | nothing changes without the bond or a holding; otherwise the same listing joins both lists, the holding becomes `PortfolioAfterListing`, one more active listing |
| TradingApp.BondTradingApp.ProcessPeerToPeerPurchase | app-fixed.js:1466-1493 | the purchase at the listing price with its bond data; the listings become `ListingsAfterSale`; one active listing fewer exactly when the sale closes it |
| TradingApp.PurchaseCheck | app-fixed.js:1402-1432 | a missing quantity, one of at most 0 and a total above the balance are each refused exactly under their check; otherwise bought for quantity × unit price, which the balance covers |
| TradingApp.BondTradingApp.Purchase | app-fixed.js:1426-1444 | exactly the total is debited, the units are added at the unit price (for a listing: with its bond data, and the sale taken off the listing, closing it when all its units go); the user's listings and the filters stay; the invariant holds |
| TradingApp.BondTradingApp.BuySelected | app-fixed.js:1396-1464 | the outcome is the one `PurchaseCheck` gives for the balance before; a purchase changes the state as `Purchase` does, anything else changes nothing |
| TradingApp.BondTradingApp.ConfirmListing | app-fixed.js:1219-1257 | each rejection exactly under its check and changing nothing; otherwise the listing of `CreateP2PListing` with 7 days by default, filters unchanged |
| TradingApp.BondTradingApp.SortP2PListings | app-fixed.js:1611-1637 | the listings become their reorder under the current P2P filter, every price stays positive, nothing else changes |
| TradingApp.BondTradingApp.RevalueHoldings | app-fixed.js:1767-1774 | every holding becomes its `Revalue`, in place; nothing else changes |
| TradingApp.ReorderKeepsListings | app-fixed.js:1635 | the reordered market holds only listings that were there before |
| TradingApp.ReorderKeepsPrices | app-fixed.js:1635 | reordering the market keeps every market price positive |
| TradingApp.SaleKeepsPrices | app-fixed.js:1484-1492 | a sale from a listing keeps every market price positive |

## Left out

- DOM rendering, event listeners, modals, toasts and loading overlays. Only
  the arithmetic and the array updates behind them are modelled.
- `setTimeout` and `setInterval`. Each delayed callback is an ordinary
  method call made at once (`ConfirmListing` calls `CreateP2PListing`).
- The wall clock. "Now" and the local hour are parameters.
- Date-string parsing. Dates are millisecond timestamps.
- `lockInExpiry` adds 180 local calendar days; the model adds 180 × 24 hours
  and takes the UTC date, which can differ by a day across a time-zone change.
- Ids built from `Date.now()`. They are parameters of `CreateP2PListing`.
- Randomness: `getAIPricePrediction` and the price jitter of
  `updateMarketData`. `RevalueHoldings` takes the bonds' new prices as they
  stand.
- `marketDataCache`, `getSimulatedMarketData`, `getCurrentMarketData`,
  `startRealtimeUpdates` and the `window.bondAI`/`window.bondApp` wiring. The
  market snapshot and the bond list are explicit parameters.
- `generateAIExplanation` and every string format (`toFixed`,
  `toLocaleString`, templates). Texts are datatype constructors.
- IEEE-754 rounding: numbers are exact reals. Infinities and NaN are modelled
  only for the one division that can hit zero inside the engine's scoring
  (the price change).
- `PredictBondPrice`: the `timeHorizon` argument is never read by the source
  and is left out. A coupon that makes the duration infinite or NaN gives
  `None`, not the non-finite number JavaScript carries on.
- config.js, which only holds constants the code does not import.
- ai-test.js, a printing harness.
- `BuySelected`: a quantity that is not a number is `None`. The code's own
  path for it (passing the first check, then failing the second) ends the
  same way, with nothing changed.
- `BuySelected`: `openBuyModal` looks up the id among bonds before listings.
  So in P2P mode a listing whose id equals a bond id would select the bond.
  The model's `Selection` always pairs the mode with the right kind of
  record.
- `ConfirmListing`: a quantity or price that is not a number is `None`. A
  duration button whose `data-days` is not a number is not modelled.
- Aliasing: `createP2PListing` pushes one listing object into both
  `userListings` and `p2pListings`. A later P2P sale that reduces it in
  `p2pListings` also changes the user's copy. The model keeps values, so
  `userListings` keeps the quantity it was listed with.
- `Valid`: bonds and listings are required to have positive prices. The
  premium and yield of a new listing divide by them, and a zero price would
  give infinities the model does not carry.
- `SortP2PListings`: the early return when the listing grid is missing from
  the page is left out. The order among listings with equal keys is that of
  a stable insertion sort. JavaScript's `sort` is also stable, but the model
  does not prove the two orders are equal.
- `SortP2PListings`: "time-desc" compares `listedDate` timestamps, not
  parsed date strings.
- `platformStatus` without a `reserveFund` throws in the same places as an
  absent `platformStatus`, so both are modelled as an absent status.
- `predictBondSale`: the `timestamp` is the `now` parameter, not an ISO
  string.
- Inherited property names. A risk tier, rating, sector or demand such as
  "constructor" or "toString" finds a member of `Object.prototype` in the
  source's lookup tables: `riskFactors` then gives an undefined base score and
  a NaN probability rather than a throw, `baseTimings` gives "NaN-NaN", and
  the `|| default` tables give a function rather than their default. The
  model treats each table as holding only its own keys.
- `PredictPortfolio`: the source's `Map` keeps the holdings' insertion order;
  the model's `map` has no order, so that order is lost.
