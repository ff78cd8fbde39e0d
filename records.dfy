/** The plain records both classes pass around: bonds, holdings, P2P
    listings, the market snapshot and the platform's reserve-fund status.
    Date strings are given as the millisecond timestamps `new Date(...)`
    would parse them to. */
module Records {
  import opened Wrappers
  import opened JsMath

  /** A JavaScript `Date` value: milliseconds since the epoch. */
  type Millis = int

  /** A bond of the marketplace (`this.bonds` in the app); `yieldRate` is the
      source's `yield` field, a keyword in Dafny. `couponRate` is
      absent on bonds the app adds after a P2P purchase. */
  datatype Bond = Bond(
    id: string,
    issuerName: string,
    sector: string,
    couponRate: Option<real>,
    maturityDate: Millis,
    riskLevel: string,
    creditRating: string,
    faceValue: real,
    currentPrice: real,
    yieldRate: real,
    features: seq<string>,
    p2pDemand: string,
    isNewIssue: bool,
    avgP2PPremium: real)

  /** A position in the user's portfolio. `daysUntilEligible` is absent on
      reserve-eligible holdings. */
  datatype Holding = Holding(
    bondId: string,
    quantity: int,
    purchaseDate: Millis,
    purchasePrice: real,
    lockInExpiry: Millis,
    reserveEligible: bool,
    daysUntilEligible: Option<int>,
    reserveAllocation: real,
    currentValue: real,
    accruedInterest: real,
    estimatedP2PValue: real,
    p2pPotentialGain: real)

  /** An offer on the peer-to-peer market. */
  datatype Listing = Listing(
    id: string,
    listingId: string,
    bondId: string,
    sellerName: string,
    bondName: string,
    sector: string,
    creditRating: string,
    faceValue: real,
    listingPrice: real,
    marketPrice: real,
    premium: real,
    quantity: int,
    yieldRate: real,
    accruedInterest: real,
    maturityDate: Millis,
    riskLevel: string,
    listedDate: Millis,
    expiryDate: Millis,
    features: seq<string>,
    sellerRating: real,
    totalTrades: int,
    isQuickSale: bool)

  /** A market-data snapshot. An absent `trend`, `interestRateChange` or
      `creditSpreadChange` reads as 0 in every use, so it is given as 0; an
      absent `sectorTrends` or `sectorPerformance` is the empty map; an
      absent `sentiment` is any string outside the sentiment table. */
  datatype Market = Market(
    sentiment: string,
    trend: real,
    interestRateChange: real,
    creditSpreadChange: real,
    lastUpdated: Option<Millis>,
    sectorTrends: map<string, real>,
    sectorPerformance: map<string, real>)

  /** `platformStatus.reserveFund`. */
  datatype ReserveFund = ReserveFund(
    total: real,
    available: real,
    percentage: real,
    monthlyCapacity: real,
    capacityUsed: real,
    capacityUsedPercent: real,
    nextWindow: Millis)

  /** `platformStatus`; a status without a `reserveFund` is modelled as an
      absent status, since every use of either throws the same way. */
  datatype PlatformStatus = PlatformStatus(reserveFund: ReserveFund)

  /** The first element of `bonds` whose id is `id`: `bonds.find(b => b.id === id)`. */
  function FindBond(bonds: seq<Bond>, id: string): (r: Option<Bond>)
    ensures r.Some? ==> r.value in bonds && r.value.id == id
    ensures r.Some? ==> exists i :: 0 <= i < |bonds| && bonds[i] == r.value &&
                          forall j :: 0 <= j < i ==> bonds[j].id != id
    ensures r.None? <==> forall i :: 0 <= i < |bonds| ==> bonds[i].id != id
  {
    var found := Find(bonds, (b: Bond) => b.id == id);
    if found.Some? then
      var i := FindIndex(bonds, (b: Bond) => b.id == id).value;
      assert bonds[i] == found.value;
      found
    else
      found
  }
}
