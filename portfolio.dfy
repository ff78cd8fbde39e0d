/** What the bookkeeping of `BondTradingApp` (app-fixed.js) does to its
    arrays, as functions on values: the holding a purchase merges into or
    appends, the bond record a P2P purchase adds, the listing a sale offer
    creates, what listing does to the holding, and what a P2P purchase does
    to the listing. The class in `TradingApp` is proved against these. */
module Portfolio {
  import opened Wrappers
  import opened JsMath
  import opened Records
  import opened ListingViews

  /** Days a newly bought holding is locked in before it becomes reserve
      eligible. */
  const LockInDays: int := 180

  /** `"2027-12-31"`, the maturity given to bonds acquired on the P2P
      market. */
  const AcquiredMaturity: Millis := 1830211200000

  const DayMillis: int := 86400000

  /** The calendar day (UTC midnight) of a moment:
      `toISOString().split('T')[0]` read back as a date. */
  function DateOf(t: Millis): (r: Millis)
    ensures r <= t < r + DayMillis
    ensures r % DayMillis == 0
  {
    t - t % DayMillis
  }

  /** Every holding has units: a holding that drops to zero is removed. */
  predicate PositiveQuantities(portfolio: seq<Holding>) {
    forall i :: 0 <= i < |portfolio| ==> portfolio[i].quantity > 0
  }

  /** The position of the first holding of a bond:
      `userPortfolio.findIndex(h => h.bondId === bondId)`. */
  function HoldingIndex(portfolio: seq<Holding>, bondId: string): (r: Option<nat>)
    ensures r.Some? ==> r.value < |portfolio| && portfolio[r.value].bondId == bondId
    ensures r.Some? ==> forall j :: 0 <= j < r.value ==> portfolio[j].bondId != bondId
    ensures r.None? <==> forall j :: 0 <= j < |portfolio| ==> portfolio[j].bondId != bondId
  {
    FindIndex(portfolio, (h: Holding) => h.bondId == bondId)
  }

  /** The units of a bond held across the portfolio. */
  function UnitsHeld(portfolio: seq<Holding>, bondId: string): int {
    if |portfolio| == 0 then 0
    else (if portfolio[0].bondId == bondId then portfolio[0].quantity else 0) + UnitsHeld(portfolio[1..], bondId)
  }

  /** What the user paid for the whole portfolio: units times purchase
      price, summed. */
  function CostBasis(portfolio: seq<Holding>): real {
    if |portfolio| == 0 then 0.0
    else portfolio[0].quantity as real * portfolio[0].purchasePrice + CostBasis(portfolio[1..])
  }

  /** The units of `h` that count towards `bondId`. */
  function UnitsOf(h: Holding, bondId: string): int {
    if h.bondId == bondId then h.quantity else 0
  }

  lemma {:induction false} UnitsHeldReplace(portfolio: seq<Holding>, i: nat, h: Holding, bondId: string)
    requires i < |portfolio|
    ensures UnitsHeld(portfolio[i := h], bondId)
              == UnitsHeld(portfolio, bondId) - UnitsOf(portfolio[i], bondId) + UnitsOf(h, bondId)
  {
    if i > 0 {
      UnitsHeldReplace(portfolio[1..], i - 1, h, bondId);
      assert portfolio[i := h][1..] == portfolio[1..][i - 1 := h];
    } else {
      assert portfolio[i := h][1..] == portfolio[1..];
    }
  }

  lemma {:induction false} CostBasisReplace(portfolio: seq<Holding>, i: nat, h: Holding)
    requires i < |portfolio|
    ensures CostBasis(portfolio[i := h])
              == CostBasis(portfolio) - portfolio[i].quantity as real * portfolio[i].purchasePrice
                 + h.quantity as real * h.purchasePrice
  {
    if i > 0 {
      CostBasisReplace(portfolio[1..], i - 1, h);
      assert portfolio[i := h][1..] == portfolio[1..][i - 1 := h];
    } else {
      assert portfolio[i := h][1..] == portfolio[1..];
    }
  }

  lemma {:induction false} UnitsHeldAppend(portfolio: seq<Holding>, h: Holding, bondId: string)
    ensures UnitsHeld(portfolio + [h], bondId) == UnitsHeld(portfolio, bondId) + UnitsOf(h, bondId)
  {
    if |portfolio| > 0 {
      UnitsHeldAppend(portfolio[1..], h, bondId);
      assert (portfolio + [h])[1..] == portfolio[1..] + [h];
    }
  }

  lemma {:induction false} CostBasisAppend(portfolio: seq<Holding>, h: Holding)
    ensures CostBasis(portfolio + [h]) == CostBasis(portfolio) + h.quantity as real * h.purchasePrice
  {
    if |portfolio| > 0 {
      CostBasisAppend(portfolio[1..], h);
      assert (portfolio + [h])[1..] == portfolio[1..] + [h];
    }
  }

  lemma {:induction false} UnitsHeldRemove(portfolio: seq<Holding>, i: nat, bondId: string)
    requires i < |portfolio|
    ensures UnitsHeld(portfolio[..i] + portfolio[i + 1..], bondId)
              == UnitsHeld(portfolio, bondId) - UnitsOf(portfolio[i], bondId)
  {
    if i > 0 {
      UnitsHeldRemove(portfolio[1..], i - 1, bondId);
      assert (portfolio[..i] + portfolio[i + 1..])[1..] == portfolio[1..][..i - 1] + portfolio[1..][i..];
    } else {
      assert portfolio[..i] + portfolio[i + 1..] == portfolio[1..];
    }
  }

  /** The average of two prices weighted by positive amounts lies between
      them and, times the total amount, gives back the total cost. */
  lemma WeightedAverage(a: real, pa: real, b: real, pb: real, average: real)
    requires a > 0.0 && b > 0.0 && average == (a * pa + b * pb) / (a + b)
    ensures average * (a + b) == a * pa + b * pb
    ensures Min(pa, pb) <= average <= Max(pa, pb)
  {
    var lo := Min(pa, pb);
    var hi := Max(pa, pb);
    var cost := a * pa + b * pb;
    assert a * lo <= a * pa <= a * hi;
    assert b * lo <= b * pb <= b * hi;
    assert (a + b) * lo <= cost <= (a + b) * hi;
    assert average * (a + b) == cost;
  }

  /** A further purchase of a bond already held: the units add up, the
      purchase price becomes the cost-weighted average, the value grows by
      the amount paid, and so does the reserve allocation of an eligible
      holding. */
  function MergeHolding(h: Holding, quantity: int, price: real): (r: Holding)
    requires h.quantity > 0 && quantity > 0
    ensures r.quantity == h.quantity + quantity
    ensures r.quantity as real * r.purchasePrice
              == h.quantity as real * h.purchasePrice + quantity as real * price
    ensures Min(h.purchasePrice, price) <= r.purchasePrice <= Max(h.purchasePrice, price)
    ensures r.currentValue == h.currentValue + quantity as real * price
    ensures h.reserveEligible ==> r.reserveAllocation == h.reserveAllocation + quantity as real * price
    ensures !h.reserveEligible ==> r.reserveAllocation == h.reserveAllocation
    ensures r == h.(quantity := r.quantity, purchasePrice := r.purchasePrice,
                    currentValue := r.currentValue, reserveAllocation := r.reserveAllocation)
  {
    var held := h.quantity as real;
    var bought := quantity as real;
    var average := (held * h.purchasePrice + bought * price) / (held + bought);
    WeightedAverage(held, h.purchasePrice, bought, price, average);
    h.(quantity := h.quantity + quantity,
       purchasePrice := average,
       currentValue := h.currentValue + quantity as real * price,
       reserveAllocation := if h.reserveEligible then h.reserveAllocation + quantity as real * price
                            else h.reserveAllocation)
  }

  /** The holding a first purchase creates: locked in for 180 days, not yet
      reserve eligible, worth what was paid, with a P2P estimate 2.5 %
      above that. */
  function NewHolding(bondId: string, quantity: int, price: real, now: Millis): (r: Holding)
    ensures r.bondId == bondId && r.quantity == quantity && r.purchasePrice == price
    ensures !r.reserveEligible && r.daysUntilEligible == Some(LockInDays) && r.reserveAllocation == 0.0
    ensures r.purchaseDate == DateOf(now) && r.lockInExpiry == DateOf(now + LockInDays * DayMillis)
    ensures r.currentValue == quantity as real * price && r.accruedInterest == 0.0
    ensures r.estimatedP2PValue == r.currentValue * 1.025
    ensures r.p2pPotentialGain == r.estimatedP2PValue - r.currentValue
  {
    var cost := quantity as real * price;
    Holding(
      bondId := bondId,
      quantity := quantity,
      purchaseDate := DateOf(now),
      purchasePrice := price,
      lockInExpiry := DateOf(now + LockInDays * DayMillis),
      reserveEligible := false,
      daysUntilEligible := Some(LockInDays),
      reserveAllocation := 0.0,
      currentValue := cost,
      accruedInterest := 0.0,
      estimatedP2PValue := cost * 1.025,
      p2pPotentialGain := cost * 0.025)
  }

  /** `addToPortfolio` on the holdings: merge into the first holding of the
      bond, or append a new one. */
  function PortfolioAfterAdd(portfolio: seq<Holding>, bondId: string, quantity: int, price: real, now: Millis)
    : (r: seq<Holding>)
    requires PositiveQuantities(portfolio) && quantity > 0
    ensures PositiveQuantities(r)
    ensures HoldingIndex(portfolio, bondId).Some? ==>
              var i := HoldingIndex(portfolio, bondId).value;
              r == portfolio[i := MergeHolding(portfolio[i], quantity, price)]
    ensures HoldingIndex(portfolio, bondId).None? ==> r == portfolio + [NewHolding(bondId, quantity, price, now)]
  {
    match HoldingIndex(portfolio, bondId)
    case Some(i) => portfolio[i := MergeHolding(portfolio[i], quantity, price)]
    case None => portfolio + [NewHolding(bondId, quantity, price, now)]
  }

  /** A purchase adds exactly the bought units to the bond's total and
      leaves every other bond's total alone. */
  lemma AddAccountsForUnits(portfolio: seq<Holding>, bondId: string, quantity: int, price: real, now: Millis,
                            other: string)
    requires PositiveQuantities(portfolio) && quantity > 0 && other != bondId
    ensures var r := PortfolioAfterAdd(portfolio, bondId, quantity, price, now);
      && UnitsHeld(r, bondId) == UnitsHeld(portfolio, bondId) + quantity
      && UnitsHeld(r, other) == UnitsHeld(portfolio, other)
  {
    var r := PortfolioAfterAdd(portfolio, bondId, quantity, price, now);
    match HoldingIndex(portfolio, bondId)
    case Some(i) =>
      var merged := MergeHolding(portfolio[i], quantity, price);
      assert r == portfolio[i := merged];
      UnitsHeldReplace(portfolio, i, merged, bondId);
      UnitsHeldReplace(portfolio, i, merged, other);
    case None =>
      var added := NewHolding(bondId, quantity, price, now);
      assert r == portfolio + [added];
      UnitsHeldAppend(portfolio, added, bondId);
      UnitsHeldAppend(portfolio, added, other);
  }

  /** A purchase adds exactly what was paid to the cost basis. */
  lemma AddAccountsForCost(portfolio: seq<Holding>, bondId: string, quantity: int, price: real, now: Millis)
    requires PositiveQuantities(portfolio) && quantity > 0
    ensures CostBasis(PortfolioAfterAdd(portfolio, bondId, quantity, price, now))
              == CostBasis(portfolio) + quantity as real * price
  {
    var paid := quantity as real * price;
    match HoldingIndex(portfolio, bondId)
    case Some(i) =>
      var merged := MergeHolding(portfolio[i], quantity, price);
      var before := portfolio[i].quantity as real * portfolio[i].purchasePrice;
      var after := merged.quantity as real * merged.purchasePrice;
      assert after == before + paid;
      CostBasisReplace(portfolio, i, merged);
      assert CostBasis(portfolio[i := merged]) == CostBasis(portfolio) - before + after;
    case None =>
      var added := NewHolding(bondId, quantity, price, now);
      assert added.quantity as real * added.purchasePrice == paid;
      CostBasisAppend(portfolio, added);
  }

  /** The fields `processPeerToPeerPurchase` copies from a listing into the
      bond record it passes along (`bondData`). */
  datatype BondData = BondData(
    id: string,
    issuerName: string,
    sector: string,
    creditRating: string,
    riskLevel: string,
    currentPrice: real,
    yieldRate: real)

  /** `bondData` for a listing: the issuer is the listing's bond name up to
      `" Bond"`, the price the listing's market price. */
  function BondDataOf(listing: Listing): (r: BondData)
    ensures r.id == listing.bondId && r.currentPrice == listing.marketPrice
    ensures r.issuerName == IssuerFromBondName(listing.bondName) && r.issuerName <= listing.bondName
    ensures r.sector == listing.sector && r.creditRating == listing.creditRating
    ensures r.riskLevel == listing.riskLevel && r.yieldRate == listing.yieldRate
  {
    BondData(listing.bondId, IssuerFromBondName(listing.bondName), listing.sector, listing.creditRating,
             listing.riskLevel, listing.marketPrice, listing.yieldRate)
  }

  /** The bond record `addToPortfolio` adds for a bond bought on the P2P
      market: `bondData` completed with a face value of 100, a 2027-12-31
      maturity, a "P2P Acquired" feature, medium demand and a 2 % average
      premium; it has no coupon. */
  function AcquiredBond(data: BondData): (r: Bond)
    ensures r.id == data.id && r.issuerName == data.issuerName && r.currentPrice == data.currentPrice
    ensures r.sector == data.sector && r.creditRating == data.creditRating && r.riskLevel == data.riskLevel
    ensures r.yieldRate == data.yieldRate && r.faceValue == 100.0 && r.maturityDate == AcquiredMaturity
    ensures r.couponRate.None? && !r.isNewIssue && r.features == ["P2P Acquired"]
    ensures r.p2pDemand == "Medium" && r.avgP2PPremium == 2.0
  {
    Bond(
      id := data.id,
      issuerName := data.issuerName,
      sector := data.sector,
      couponRate := None,
      maturityDate := AcquiredMaturity,
      riskLevel := data.riskLevel,
      creditRating := data.creditRating,
      faceValue := 100.0,
      currentPrice := data.currentPrice,
      yieldRate := data.yieldRate,
      features := ["P2P Acquired"],
      p2pDemand := "Medium",
      isNewIssue := false,
      avgP2PPremium := 2.0)
  }

  /** `addToPortfolio` on the bonds: a bond record is added only for a
      first purchase that comes with `bondData`, and only when no bond has
      that id yet. */
  function BondsAfterAdd(bonds: seq<Bond>, portfolio: seq<Holding>, bondId: string, data: Option<BondData>)
    : (r: seq<Bond>)
    ensures |r| == |bonds| + 1 <==>
              HoldingIndex(portfolio, bondId).None? && data.Some? && FindBond(bonds, bondId).None?
    ensures |r| == |bonds| + 1 ==> r == bonds + [AcquiredBond(data.value)]
    ensures |r| != |bonds| + 1 ==> r == bonds
  {
    if HoldingIndex(portfolio, bondId).None? && data.Some? && FindBond(bonds, bondId).None? then
      bonds + [AcquiredBond(data.value)]
    else bonds
  }

  /** The listing `createP2PListing` puts up for `quantity` units of a
      holding at `price`, for `duration` days from `now`. */
  function NewListing(bond: Bond, holding: Holding, quantity: int, price: real, duration: int, now: Millis,
                      id: string, listingId: string): (r: Listing)
    requires bond.currentPrice > 0.0 && price > 0.0 && holding.quantity > 0
    ensures r.id == id && r.listingId == listingId && r.bondId == bond.id && r.sellerName == "You"
    ensures r.bondName == bond.issuerName + " Bond" && r.quantity == quantity && r.listingPrice == price
    ensures r.marketPrice == bond.currentPrice
    ensures r.marketPrice * (1.0 + r.premium / 100.0) == price
    ensures r.premium > 0.0 <==> price > bond.currentPrice
    ensures r.yieldRate * price == bond.yieldRate * bond.currentPrice
    ensures r.accruedInterest * holding.quantity as real == holding.accruedInterest * quantity as real
    ensures r.isQuickSale <==> duration <= 7
    ensures r.listedDate == DateOf(now) && r.expiryDate == DateOf(now + duration * DayMillis)
    ensures r.features == ["Your Listing"] + bond.features[..if |bond.features| < 2 then |bond.features| else 2]
    ensures r.sector == bond.sector && r.creditRating == bond.creditRating && r.riskLevel == bond.riskLevel
    ensures r.faceValue == bond.faceValue && r.maturityDate == bond.maturityDate
    ensures r.sellerRating == 5.0 && r.totalTrades == 0
  {
    var cp := bond.currentPrice;
    var premium := (price - cp) / cp * 100.0;
    assert cp * (1.0 + premium / 100.0) == price;
    var kept := if |bond.features| < 2 then bond.features else bond.features[..2];
    Listing(
      id := id,
      listingId := listingId,
      bondId := bond.id,
      sellerName := "You",
      bondName := bond.issuerName + " Bond",
      sector := bond.sector,
      creditRating := bond.creditRating,
      faceValue := bond.faceValue,
      listingPrice := price,
      marketPrice := cp,
      premium := premium,
      quantity := quantity,
      yieldRate := bond.yieldRate * (cp / price),
      accruedInterest := holding.accruedInterest / holding.quantity as real * quantity as real,
      maturityDate := bond.maturityDate,
      riskLevel := bond.riskLevel,
      listedDate := DateOf(now),
      expiryDate := DateOf(now + duration * DayMillis),
      features := ["Your Listing"] + kept,
      sellerRating := 5.0,
      totalTrades := 0,
      isQuickSale := duration <= 7)
  }

  /** A holding after `quantity` of its units are listed: gone when nothing
      is left, otherwise with value, accrued interest and reserve allocation
      scaled to the units that remain. */
  function ReduceHolding(h: Holding, quantity: int): (r: Option<Holding>)
    requires h.quantity > 0
    ensures r.None? <==> quantity >= h.quantity
    ensures r.Some? ==> r.value.quantity == h.quantity - quantity
    ensures r.Some? ==> r.value.currentValue * h.quantity as real == h.currentValue * r.value.quantity as real
    ensures r.Some? ==> r.value.accruedInterest * h.quantity as real == h.accruedInterest * r.value.quantity as real
    ensures r.Some? ==>
              r.value.reserveAllocation * h.quantity as real == h.reserveAllocation * r.value.quantity as real
    ensures r.Some? ==>
              r.value == h.(quantity := r.value.quantity, currentValue := r.value.currentValue,
                            accruedInterest := r.value.accruedInterest,
                            reserveAllocation := r.value.reserveAllocation)
  {
    var remaining := h.quantity - quantity;
    if remaining <= 0 then None
    else
      var ratio := remaining as real / (remaining + quantity) as real;
      Some(h.(quantity := remaining,
              currentValue := h.currentValue * ratio,
              accruedInterest := h.accruedInterest * ratio,
              reserveAllocation := h.reserveAllocation * ratio))
  }

  /** `createP2PListing` on the holdings: the listed holding shrinks or is
      removed, every other holding stays as it was. */
  function PortfolioAfterListing(portfolio: seq<Holding>, i: nat, quantity: int): (r: seq<Holding>)
    requires i < |portfolio| && PositiveQuantities(portfolio)
    ensures PositiveQuantities(r)
    ensures ReduceHolding(portfolio[i], quantity).None? ==> r == portfolio[..i] + portfolio[i + 1..]
    ensures ReduceHolding(portfolio[i], quantity).Some? ==>
              |r| == |portfolio| && r[i] == ReduceHolding(portfolio[i], quantity).value &&
              forall j :: 0 <= j < |r| && j != i ==> r[j] == portfolio[j]
  {
    match ReduceHolding(portfolio[i], quantity)
    case None => portfolio[..i] + portfolio[i + 1..]
    case Some(h) => portfolio[i := h]
  }

  /** Listing takes exactly the listed units out of the bond's total (all
      that were held, when more are listed) and no units of any other
      bond. */
  lemma ListingAccountsForUnits(portfolio: seq<Holding>, i: nat, quantity: int, other: string)
    requires i < |portfolio| && PositiveQuantities(portfolio) && quantity > 0
    requires other != portfolio[i].bondId
    ensures var bondId := portfolio[i].bondId;
            var r := PortfolioAfterListing(portfolio, i, quantity);
            var taken := if quantity >= portfolio[i].quantity then portfolio[i].quantity else quantity;
      && UnitsHeld(r, bondId) == UnitsHeld(portfolio, bondId) - taken
      && UnitsHeld(r, other) == UnitsHeld(portfolio, other)
  {
    var bondId := portfolio[i].bondId;
    match ReduceHolding(portfolio[i], quantity)
    case None =>
      UnitsHeldRemove(portfolio, i, bondId);
      UnitsHeldRemove(portfolio, i, other);
    case Some(h) =>
      UnitsHeldReplace(portfolio, i, h, bondId);
      UnitsHeldReplace(portfolio, i, h, other);
  }

  /** The position of a listing: `p2pListings.findIndex(l => l.id === id)`. */
  function ListingIndex(listings: seq<Listing>, id: string): (r: Option<nat>)
    ensures r.Some? ==> r.value < |listings| && listings[r.value].id == id
    ensures r.Some? ==> forall j :: 0 <= j < r.value ==> listings[j].id != id
    ensures r.None? <==> forall j :: 0 <= j < |listings| ==> listings[j].id != id
  {
    FindIndex(listings, (l: Listing) => l.id == id)
  }

  /** Whether buying `quantity` units takes all a listing has left. */
  predicate SaleClosesListing(listings: seq<Listing>, id: string, quantity: int) {
    var i := ListingIndex(listings, id);
    i.Some? && listings[i.value].quantity <= quantity
  }

  /** `processPeerToPeerPurchase` on the market: the listing is removed when
      the purchase takes all its units, otherwise it keeps the rest; an
      unknown id changes nothing. */
  function ListingsAfterSale(listings: seq<Listing>, id: string, quantity: int): (r: seq<Listing>)
    ensures ListingIndex(listings, id).None? ==> r == listings
    ensures SaleClosesListing(listings, id, quantity) ==> |r| == |listings| - 1
    ensures !SaleClosesListing(listings, id, quantity) ==> |r| == |listings|
  {
    match ListingIndex(listings, id)
    case None => listings
    case Some(i) =>
      if listings[i].quantity <= quantity then listings[..i] + listings[i + 1..]
      else listings[i := listings[i].(quantity := listings[i].quantity - quantity)]
  }

  /** Taking listing `i` out of listings with unique ids keeps the ids
      unique, keeps every other listing and drops that id. */
  lemma RemovalKeepsOthers(listings: seq<Listing>, i: int)
    requires UniqueIds(listings) && 0 <= i < |listings|
    ensures var r := listings[..i] + listings[i + 1..];
      && UniqueIds(r)
      && (forall k :: 0 <= k < i ==> r[k] == listings[k])
      && (forall k :: i <= k < |r| ==> r[k] == listings[k + 1])
      && (forall j :: 0 <= j < |listings| && j != i ==> listings[j] in r)
      && (forall k :: 0 <= k < |r| ==> r[k] in listings && r[k].id != listings[i].id)
  {
    var r := listings[..i] + listings[i + 1..];
    assert forall k :: 0 <= k < i ==> r[k] == listings[k];
    assert forall k :: i <= k < |r| ==> r[k] == listings[k + 1];
    forall j | 0 <= j < |listings| && j != i
      ensures listings[j] in r
    {
      var k := if j < i then j else j - 1;
      assert r[k] == listings[j];
    }
    forall k | 0 <= k < |r|
      ensures r[k] in listings && r[k].id != listings[i].id
    {
      var k' := if k < i then k else k + 1;
      assert r[k] == listings[k'];
    }
    forall k, m | 0 <= k < m < |r|
      ensures r[k].id != r[m].id
    {
      var k' := if k < i then k else k + 1;
      var m' := if m < i then m else m + 1;
      assert r[k] == listings[k'] && r[m] == listings[m'];
    }
  }

  /** Taking units off listing `i` keeps the ids unique and every other
      listing where it was. */
  lemma DecrementKeepsOthers(listings: seq<Listing>, i: int, quantity: int)
    requires UniqueIds(listings) && 0 <= i < |listings|
    ensures var r := listings[i := listings[i].(quantity := listings[i].quantity - quantity)];
      && UniqueIds(r)
      && (forall j :: 0 <= j < |listings| && j != i ==> r[j] == listings[j])
  {
  }

  /** With unique ids, the sold listing is gone or holds `quantity` fewer
      units, and every other listing is still there, unchanged. */
  lemma SaleTouchesOnlyThatListing(listings: seq<Listing>, id: string, quantity: int)
    requires UniqueIds(listings)
    ensures var r := ListingsAfterSale(listings, id, quantity);
      && UniqueIds(r)
      && (forall j :: 0 <= j < |listings| && listings[j].id != id ==> listings[j] in r)
      && (forall j :: 0 <= j < |r| && r[j].id != id ==> r[j] in listings)
      && (SaleClosesListing(listings, id, quantity) ==>
            var i := ListingIndex(listings, id).value;
            && !HasId(r, id)
            && (forall k :: 0 <= k < i ==> r[k] == listings[k])
            && (forall k :: i <= k < |r| ==> r[k] == listings[k + 1]))
      && (!SaleClosesListing(listings, id, quantity) && HasId(listings, id) ==>
            var i := ListingIndex(listings, id).value;
            && r[i] == listings[i].(quantity := listings[i].quantity - quantity)
            && (forall k :: 0 <= k < |r| && k != i ==> r[k] == listings[k]))
  {
    match ListingIndex(listings, id)
    case None =>
    case Some(i) =>
      if listings[i].quantity <= quantity {
        RemovalKeepsOthers(listings, i);
        assert ListingsAfterSale(listings, id, quantity) == listings[..i] + listings[i + 1..];
      } else {
        DecrementKeepsOthers(listings, i, quantity);
        var r := ListingsAfterSale(listings, id, quantity);
        forall j | 0 <= j < |listings| && listings[j].id != id
          ensures listings[j] in r
        {
          assert r[j] == listings[j];
        }
      }
  }

  /** `updateMarketData` after the prices have moved: a holding whose bond is
      known is revalued at the bond's price, with its P2P estimate the
      bond's average premium above that. */
  function Revalue(h: Holding, bonds: seq<Bond>): (r: Holding)
    ensures FindBond(bonds, h.bondId).None? ==> r == h
    ensures FindBond(bonds, h.bondId).Some? ==>
              var bond := FindBond(bonds, h.bondId).value;
              && r.currentValue == h.quantity as real * bond.currentPrice
              && r.p2pPotentialGain == r.estimatedP2PValue - r.currentValue
              && r.p2pPotentialGain == r.currentValue * bond.avgP2PPremium / 100.0
              && r == h.(currentValue := r.currentValue, estimatedP2PValue := r.estimatedP2PValue,
                         p2pPotentialGain := r.p2pPotentialGain)
  {
    match FindBond(bonds, h.bondId)
    case None => h
    case Some(bond) =>
      var value := h.quantity as real * bond.currentPrice;
      var estimate := h.quantity as real * bond.currentPrice * (1.0 + bond.avgP2PPremium / 100.0);
      h.(currentValue := value, estimatedP2PValue := estimate, p2pPotentialGain := estimate - value)
  }
}
