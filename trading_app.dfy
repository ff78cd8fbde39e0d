/** The state `BondTradingApp` (app-fixed.js) keeps and the operations that
    change it: purchases (new issues and P2P listings), listing a holding
    for sale, the P2P reordering, and the revaluation of holdings after a
    market update. Each method is proved against the functions of
    `Portfolio` and `ListingViews` that say what it does to each array. */
module TradingApp {
  import opened Wrappers
  import opened JsMath
  import opened Records
  import opened ListingViews
  import opened Portfolio

  /** The balance a new session starts with. */
  const StartingBalance: real := 568900.0

  /** `platformStatus.p2pStats.activeListings` as the app starts. */
  const StartingActiveListings: int := 24

  /** `platformStatus.feeStructure.p2pFee`, a percentage. */
  const P2PFeePercent: real := 0.5

  /** Every bond has a positive price (the listing premium divides by it). */
  predicate PricedBonds(bonds: seq<Bond>) {
    forall i :: 0 <= i < |bonds| ==> bonds[i].currentPrice > 0.0
  }

  /** Every listing has a positive market price (it becomes the price of
      the bond record a P2P purchase adds). */
  predicate PricedListings(listings: seq<Listing>) {
    forall i :: 0 <= i < |listings| ==> listings[i].marketPrice > 0.0
  }

  /** The listing `createP2PListing` makes, when the bond and a holding of
      it both exist; nothing otherwise. */
  function ListingFor(bonds: seq<Bond>, portfolio: seq<Holding>, bondId: string, quantity: int, price: real,
                      duration: int, now: Millis, id: string, listingId: string): (r: Option<Listing>)
    requires PricedBonds(bonds) && PositiveQuantities(portfolio) && price > 0.0
    ensures r.Some? <==> FindBond(bonds, bondId).Some? && HoldingIndex(portfolio, bondId).Some?
    ensures r.Some? ==> r.value.bondId == bondId && r.value.quantity == quantity && r.value.listingPrice == price
    ensures r.Some? ==> r.value.marketPrice > 0.0 && r.value.marketPrice == FindBond(bonds, bondId).value.currentPrice
    ensures r.Some? ==> (r.value.isQuickSale <==> duration <= 7)
    ensures r.Some? ==>
              r.value == NewListing(FindBond(bonds, bondId).value, portfolio[HoldingIndex(portfolio, bondId).value],
                                    quantity, price, duration, now, id, listingId)
  {
    match FindBond(bonds, bondId)
    case None => None
    case Some(bond) =>
      match HoldingIndex(portfolio, bondId)
      case None => None
      case Some(i) => Some(NewListing(bond, portfolio[i], quantity, price, duration, now, id, listingId))
  }

  /** `updateListingCalculation`: an unreadable quantity or price counts as
      0 (`parseInt(...) || 0`), and the fee is the platform's P2P fee. */
  function ListingCalculation(quantity: Option<int>, price: Option<real>): (r: ListingQuote)
    ensures quantity.None? || price.None? ==> r.totalValue == 0.0 && r.platformFee == 0.0 && r.netAmount == 0.0
    ensures quantity.Some? && price.Some? ==> r.totalValue == quantity.value as real * price.value
    ensures r.platformFee + r.netAmount == r.totalValue
    ensures r.platformFee * 200.0 == r.totalValue
    ensures r.totalValue >= 0.0 ==> r.netAmount <= r.totalValue
  {
    QuoteListing(quantity.GetOr(0), price.GetOr(0.0), P2PFeePercent)
  }

  /** The checks of `showPaymentOptions` and `completePurchase` for a unit
      price and a balance: a quantity of at most 0 or a total above the
      balance is refused, one that is not a number passes the first check
      and is refused by the second, anything else is bought for its total. */
  function PurchaseCheck(quantity: Option<int>, unitPrice: real, balance: real): (r: PurchaseOutcome)
    ensures quantity.None? <==> r == QuantityMissing
    ensures r == InvalidQuantity <==> quantity.Some? && quantity.value <= 0
    ensures r == InsufficientBalance <==>
              quantity.Some? && quantity.value > 0 && quantity.value as real * unitPrice > balance
    ensures r.Purchased? ==> r.totalCost == quantity.value as real * unitPrice && r.totalCost <= balance
  {
    match quantity
    case None => QuantityMissing
    case Some(q) =>
      if q <= 0 then InvalidQuantity
      else if q as real * unitPrice > balance then InsufficientBalance
      else Purchased(q as real * unitPrice)
  }

  /** What the buy modal has selected: a bond of the market (bought at its
      current price) or a P2P listing (bought at its listing price). */
  datatype Selection = NewIssue(bond: Bond) | PeerListing(listing: Listing) {
    function UnitPrice(): real {
      if NewIssue? then bond.currentPrice else listing.listingPrice
    }
  }

  /** How a purchase ends: rejected by `showPaymentOptions` for a quantity
      of at most 0 or a total above the balance, rejected by
      `completePurchase` for a quantity that is not a number (it passes
      both comparisons of the first check), or bought for `totalCost`. */
  datatype PurchaseOutcome = InvalidQuantity | InsufficientBalance | QuantityMissing | Purchased(totalCost: real)

  /** How `confirmListing` ends: no bond selected, a quantity or price that
      is not a positive number, or the listing submitted. */
  datatype ListingOutcome = NoBondSelected | InvalidListingQuantity | InvalidListingPrice | ListingSubmitted

  class BondTradingApp {
    var bonds: seq<Bond>
    var p2pListings: seq<Listing>
    var userPortfolio: seq<Holding>
    var userListings: seq<Listing>
    var userBalance: real
    var activeListings: int
    var currentFilter: string
    var currentP2PFilter: string

    /** What every operation keeps: holdings with units, priced bonds and
        listings, and a balance that never went below zero. */
    ghost predicate Valid()
      reads this
    {
      && PositiveQuantities(userPortfolio)
      && PricedBonds(bonds)
      && PricedListings(p2pListings)
      && userBalance >= 0.0
    }

    /** The constructor and `initializeData`, with the sample bonds,
        listings and holdings given as arguments. */
    constructor (bonds: seq<Bond>, listings: seq<Listing>, portfolio: seq<Holding>)
      requires PricedBonds(bonds) && PricedListings(listings) && PositiveQuantities(portfolio)
      ensures Valid()
      ensures this.bonds == bonds && p2pListings == listings && userPortfolio == portfolio && userListings == []
      ensures userBalance == StartingBalance && activeListings == StartingActiveListings
      ensures currentFilter == "ALL" && currentP2PFilter == "all"
    {
      this.bonds := bonds;
      p2pListings := listings;
      userPortfolio := portfolio;
      userListings := [];
      userBalance := StartingBalance;
      activeListings := StartingActiveListings;
      currentFilter := "ALL";
      currentP2PFilter := "all";
    }

    /** `setFilter`: the risk level the bond list shows. */
    method SetFilter(filter: string)
      modifies this
      ensures currentFilter == filter
      ensures bonds == old(bonds) && p2pListings == old(p2pListings) && userPortfolio == old(userPortfolio)
      ensures userListings == old(userListings) && userBalance == old(userBalance)
      ensures activeListings == old(activeListings) && currentP2PFilter == old(currentP2PFilter)
    {
      currentFilter := filter;
    }

    /** `setP2PFilter`: the filter the P2P market shows. */
    method SetP2PFilter(filter: string)
      modifies this
      ensures currentP2PFilter == filter
      ensures bonds == old(bonds) && p2pListings == old(p2pListings) && userPortfolio == old(userPortfolio)
      ensures userListings == old(userListings) && userBalance == old(userBalance)
      ensures activeListings == old(activeListings) && currentFilter == old(currentFilter)
    {
      currentP2PFilter := filter;
    }

    /** `addToPortfolio`: merge into the first holding of the bond, or
        append a new holding and, for a P2P purchase of an unknown bond,
        its bond record. */
    method AddToPortfolio(bondId: string, quantity: int, price: real, data: Option<BondData>, now: Millis)
      requires Valid() && quantity > 0
      requires data.Some? ==> data.value.currentPrice > 0.0
      modifies this
      ensures Valid()
      ensures userPortfolio == PortfolioAfterAdd(old(userPortfolio), bondId, quantity, price, now)
      ensures bonds == BondsAfterAdd(old(bonds), old(userPortfolio), bondId, data)
      ensures p2pListings == old(p2pListings) && userListings == old(userListings)
      ensures userBalance == old(userBalance) && activeListings == old(activeListings)
      ensures currentFilter == old(currentFilter) && currentP2PFilter == old(currentP2PFilter)
    {
      match HoldingIndex(userPortfolio, bondId)
      case Some(i) =>
        userPortfolio := userPortfolio[i := MergeHolding(userPortfolio[i], quantity, price)];
      case None =>
        if data.Some? && FindBond(bonds, bondId).None? {
          bonds := bonds + [AcquiredBond(data.value)];
        }
        userPortfolio := userPortfolio + [NewHolding(bondId, quantity, price, now)];
    }

    /** `createP2PListing`: nothing happens without the bond and a holding
        of it; otherwise the same listing goes to the user's and the
        public listings, the holding gives up the units, and the count of
        active listings grows by one. Nothing bounds `quantity` by the
        units held: listing more removes the holding. */
    method CreateP2PListing(bondId: string, quantity: int, price: real, duration: int, now: Millis,
                            id: string, listingId: string)
      requires Valid() && quantity > 0 && price > 0.0
      modifies this
      ensures Valid()
      ensures var listed := ListingFor(old(bonds), old(userPortfolio), bondId, quantity, price, duration, now, id, listingId);
        && (listed.None? ==> unchanged(this))
        && (listed.Some? ==>
              && userListings == old(userListings) + [listed.value]
              && p2pListings == old(p2pListings) + [listed.value]
              && userPortfolio == PortfolioAfterListing(old(userPortfolio), HoldingIndex(old(userPortfolio), bondId).value, quantity)
              && activeListings == old(activeListings) + 1
              && bonds == old(bonds) && userBalance == old(userBalance)
              && currentFilter == old(currentFilter) && currentP2PFilter == old(currentP2PFilter))
    {
      var bond := FindBond(bonds, bondId);
      var index := HoldingIndex(userPortfolio, bondId);
      if bond.None? || index.None? {
        return;
      }
      var i := index.value;
      var holding := userPortfolio[i];
      var listing := NewListing(bond.value, holding, quantity, price, duration, now, id, listingId);
      userListings := userListings + [listing];
      p2pListings := p2pListings + [listing];
      match ReduceHolding(holding, quantity) {
        case None =>
          userPortfolio := userPortfolio[..i] + userPortfolio[i + 1..];
        case Some(reduced) =>
          userPortfolio := userPortfolio[i := reduced];
      }
      activeListings := activeListings + 1;
    }

    /** `processPeerToPeerPurchase`: the units go to the portfolio at the
        listing price, with the listing's bond data; then the listing is
        removed (one active listing fewer) when the purchase takes all its
        units, or keeps the rest. */
    method ProcessPeerToPeerPurchase(listing: Listing, quantity: int, now: Millis)
      requires Valid() && quantity > 0 && listing.marketPrice > 0.0
      modifies this
      ensures Valid()
      ensures userPortfolio == PortfolioAfterAdd(old(userPortfolio), listing.bondId, quantity, listing.listingPrice, now)
      ensures bonds == BondsAfterAdd(old(bonds), old(userPortfolio), listing.bondId, Some(BondDataOf(listing)))
      ensures p2pListings == ListingsAfterSale(old(p2pListings), listing.id, quantity)
      ensures activeListings == old(activeListings) - (if SaleClosesListing(old(p2pListings), listing.id, quantity) then 1 else 0)
      ensures userListings == old(userListings) && userBalance == old(userBalance)
      ensures currentFilter == old(currentFilter) && currentP2PFilter == old(currentP2PFilter)
    {
      AddToPortfolio(listing.bondId, quantity, listing.listingPrice, Some(BondDataOf(listing)), now);
      SaleKeepsPrices(p2pListings, listing.id, quantity);
      match ListingIndex(p2pListings, listing.id) {
        case None =>
        case Some(i) =>
          if p2pListings[i].quantity <= quantity {
            p2pListings := p2pListings[..i] + p2pListings[i + 1..];
            activeListings := activeListings - 1;
          } else {
            p2pListings := p2pListings[i := p2pListings[i].(quantity := p2pListings[i].quantity - quantity)];
          }
      }
    }

    /** What a purchase of `quantity` units of the selection does to the
        state: exactly the total is debited and the units are added (with
        the sale taken off the listing for a P2P purchase); the user's own
        listings and the filters stay. */
    twostate predicate Bought(selection: Selection, quantity: int, now: Millis)
      requires old(PositiveQuantities(userPortfolio)) && quantity > 0
      reads this
    {
      && userBalance == old(userBalance) - quantity as real * selection.UnitPrice()
      && userListings == old(userListings)
      && currentFilter == old(currentFilter) && currentP2PFilter == old(currentP2PFilter)
      && match selection
         case NewIssue(bond) =>
           && userPortfolio == PortfolioAfterAdd(old(userPortfolio), bond.id, quantity, bond.currentPrice, now)
           && bonds == old(bonds) && p2pListings == old(p2pListings) && activeListings == old(activeListings)
         case PeerListing(listing) =>
           && userPortfolio == PortfolioAfterAdd(old(userPortfolio), listing.bondId, quantity, listing.listingPrice, now)
           && bonds == BondsAfterAdd(old(bonds), old(userPortfolio), listing.bondId, Some(BondDataOf(listing)))
           && p2pListings == ListingsAfterSale(old(p2pListings), listing.id, quantity)
           && activeListings == old(activeListings)
                - (if SaleClosesListing(old(p2pListings), listing.id, quantity) then 1 else 0)
    }

    /** `completePurchase` once the checks have passed: the total is
        debited, then the units are added, through the P2P purchase for a
        listing. */
    method Purchase(selection: Selection, quantity: int, now: Millis)
      requires Valid() && quantity > 0
      requires quantity as real * selection.UnitPrice() <= userBalance
      requires selection.PeerListing? ==> selection.listing in p2pListings
      modifies this
      ensures Valid()
      ensures Bought(selection, quantity, now)
    {
      userBalance := userBalance - quantity as real * selection.UnitPrice();
      match selection {
        case PeerListing(listing) =>
          ProcessPeerToPeerPurchase(listing, quantity, now);
        case NewIssue(bond) =>
          AddToPortfolio(bond.id, quantity, bond.currentPrice, None, now);
      }
    }

    /** `showPaymentOptions` followed by `completePurchase`: the checks
        decide the outcome; a purchase does what `Bought` says and anything
        else changes nothing. */
    method BuySelected(selection: Selection, quantity: Option<int>, now: Millis) returns (outcome: PurchaseOutcome)
      requires Valid()
      requires selection.PeerListing? ==> selection.listing in p2pListings
      modifies this
      ensures Valid()
      ensures outcome == PurchaseCheck(quantity, selection.UnitPrice(), old(userBalance))
      ensures !outcome.Purchased? ==> unchanged(this)
      ensures outcome.Purchased? ==> Bought(selection, quantity.value, now)
    {
      outcome := PurchaseCheck(quantity, selection.UnitPrice(), userBalance);
      if outcome.Purchased? {
        Purchase(selection, quantity.value, now);
      }
    }

    /** `confirmListing`: a bond must be selected and the quantity and
        price must be positive numbers; the duration is 7 days when no
        duration is chosen. The listing is then created (after the
        source's two-second delay). */
    method ConfirmListing(bondId: string, quantity: Option<int>, price: Option<real>, duration: Option<int>,
                          now: Millis, id: string, listingId: string) returns (outcome: ListingOutcome)
      requires Valid()
      modifies this
      ensures Valid()
      ensures outcome == NoBondSelected <==> bondId == ""
      ensures outcome == InvalidListingQuantity <==> bondId != "" && (quantity.None? || quantity.value <= 0)
      ensures outcome == InvalidListingPrice <==>
                bondId != "" && quantity.Some? && quantity.value > 0 && (price.None? || price.value <= 0.0)
      ensures !outcome.ListingSubmitted? ==> unchanged(this)
      ensures outcome.ListingSubmitted? ==>
                var listed := ListingFor(old(bonds), old(userPortfolio), bondId, quantity.value, price.value,
                                         duration.GetOr(7), now, id, listingId);
                && (listed.None? ==> unchanged(this))
                && (listed.Some? ==>
                      && userListings == old(userListings) + [listed.value]
                      && p2pListings == old(p2pListings) + [listed.value]
                      && userPortfolio == PortfolioAfterListing(old(userPortfolio),
                                                                HoldingIndex(old(userPortfolio), bondId).value, quantity.value)
                      && activeListings == old(activeListings) + 1
                      && bonds == old(bonds) && userBalance == old(userBalance)
                      && currentFilter == old(currentFilter) && currentP2PFilter == old(currentP2PFilter))
    {
      if bondId == "" {
        return NoBondSelected;
      }
      if quantity.None? || quantity.value <= 0 {
        return InvalidListingQuantity;
      }
      if price.None? || price.value <= 0.0 {
        return InvalidListingPrice;
      }
      CreateP2PListing(bondId, quantity.value, price.value, duration.GetOr(7), now, id, listingId);
      outcome := ListingSubmitted;
    }

    /** `sortP2PListings`: the market becomes its reordering under the
        current P2P filter (`ReorderIsPermutation` shows that with unique
        ids nothing is lost or duplicated), with every price still
        positive. */
    method SortP2PListings(sortBy: string)
      requires Valid()
      modifies this
      ensures Valid()
      ensures p2pListings == ReorderedListings(old(p2pListings), currentP2PFilter, sortBy)
      ensures bonds == old(bonds) && userPortfolio == old(userPortfolio) && userListings == old(userListings)
      ensures userBalance == old(userBalance) && activeListings == old(activeListings)
      ensures currentFilter == old(currentFilter) && currentP2PFilter == old(currentP2PFilter)
    {
      ReorderKeepsPrices(p2pListings, currentP2PFilter, sortBy);
      p2pListings := ReorderedListings(p2pListings, currentP2PFilter, sortBy);
    }

    /** The deterministic half of `updateMarketData`: every holding whose
        bond is known is revalued at the bond's (new) price, in order. */
    method RevalueHoldings()
      requires Valid()
      modifies this
      ensures Valid()
      ensures |userPortfolio| == |old(userPortfolio)|
      ensures forall i :: 0 <= i < |userPortfolio| ==> userPortfolio[i] == Revalue(old(userPortfolio)[i], bonds)
      ensures bonds == old(bonds) && p2pListings == old(p2pListings) && userListings == old(userListings)
      ensures userBalance == old(userBalance) && activeListings == old(activeListings)
      ensures currentFilter == old(currentFilter) && currentP2PFilter == old(currentP2PFilter)
    {
      var i := 0;
      while i < |userPortfolio|
        invariant 0 <= i <= |userPortfolio| == |old(userPortfolio)|
        invariant forall k :: 0 <= k < i ==> userPortfolio[k] == Revalue(old(userPortfolio)[k], bonds)
        invariant forall k :: i <= k < |userPortfolio| ==> userPortfolio[k] == old(userPortfolio)[k]
        invariant Valid()
        invariant bonds == old(bonds) && p2pListings == old(p2pListings) && userListings == old(userListings)
        invariant userBalance == old(userBalance) && activeListings == old(activeListings)
        invariant currentFilter == old(currentFilter) && currentP2PFilter == old(currentP2PFilter)
      {
        userPortfolio := userPortfolio[i := Revalue(userPortfolio[i], bonds)];
        i := i + 1;
      }
    }
  }

  /** A sale leaves every listing's market price as it was. */
  lemma SaleKeepsPrices(listings: seq<Listing>, id: string, quantity: int)
    requires PricedListings(listings)
    ensures PricedListings(ListingsAfterSale(listings, id, quantity))
  {
    var r := ListingsAfterSale(listings, id, quantity);
    match ListingIndex(listings, id)
    case None =>
    case Some(i) =>
      if listings[i].quantity <= quantity {
        assert r == listings[..i] + listings[i + 1..];
        forall k | 0 <= k < |r|
          ensures r[k].marketPrice > 0.0
        {
          assert r[k] == if k < i then listings[k] else listings[k + 1];
        }
      }
  }

  /** The reordered market holds only listings that were there before. */
  lemma ReorderKeepsListings(listings: seq<Listing>, filter: string, sortBy: string)
    ensures forall i :: 0 <= i < |ReorderedListings(listings, filter, sortBy)| ==>
              ReorderedListings(listings, filter, sortBy)[i] in listings
  {
    var shown := FilterListings(listings, filter);
    var sorted := ShownInOrder(listings, filter, sortBy);
    var unshown := (l: Listing) => !HasId(sorted, l.id);
    var r := ReorderedListings(listings, filter, sortBy);
    assert r == Filter(listings, unshown) + sorted;
    assert multiset(sorted) == multiset(shown);
    forall i | 0 <= i < |r|
      ensures r[i] in listings
    {
      if i < |Filter(listings, unshown)| {
        assert r[i] in Filter(listings, unshown);
      } else {
        assert r[i] in multiset(shown);
      }
    }
  }

  /** Reordering the market keeps every market price positive. */
  lemma ReorderKeepsPrices(listings: seq<Listing>, filter: string, sortBy: string)
    requires PricedListings(listings)
    ensures PricedListings(ReorderedListings(listings, filter, sortBy))
  {
    var r := ReorderedListings(listings, filter, sortBy);
    ReorderKeepsListings(listings, filter, sortBy);
    forall i | 0 <= i < |r|
      ensures r[i].marketPrice > 0.0
    {
      var j :| 0 <= j < |listings| && listings[j] == r[i];
    }
  }
}
