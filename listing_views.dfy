/** The pure helpers of `BondTradingApp` (app-fixed.js): the bond and
    listing filters, the sort order of the P2P market, the lookup by id,
    the star rating, the time left on a listing, the P2P advice tables and
    the listing fee. */
module ListingViews {
  import opened Wrappers
  import opened JsMath
  import opened Records

  /** `s` keeps a selection of the elements of `t`, in their order. */
  predicate SubsequenceOf<T(==)>(s: seq<T>, t: seq<T>)
    decreases |t|
  {
    if |s| == 0 then true
    else if |t| == 0 then false
    else if s[0] == t[0] then SubsequenceOf(s[1..], t[1..])
    else SubsequenceOf(s, t[1..])
  }

  /** `filter` keeps the order of what it keeps. */
  lemma {:induction false} FilterIsSubsequence<T>(s: seq<T>, p: T -> bool)
    ensures SubsequenceOf(Filter(s, p), s)
  {
    if |s| > 0 {
      FilterIsSubsequence(s[1..], p);
      if p(s[0]) {
        assert Filter(s, p)[1..] == Filter(s[1..], p);
      }
    }
  }

  /** `getFilteredBonds`: every bond for `ALL`, otherwise the bonds whose
      `riskLevel` equals the filter. */
  function FilterBonds(bonds: seq<Bond>, filter: string): (r: seq<Bond>)
    ensures filter == "ALL" ==> r == bonds
    ensures filter != "ALL" ==> forall i :: 0 <= i < |r| ==> r[i] in bonds && r[i].riskLevel == filter
    ensures filter != "ALL" ==> forall i :: 0 <= i < |bonds| && bonds[i].riskLevel == filter ==> bonds[i] in r
  {
    if filter == "ALL" then bonds else Filter(bonds, (b: Bond) => b.riskLevel == filter)
  }

  /** The test `getFilteredP2PListings` applies for a filter name; any name
      other than the three below keeps every listing. */
  predicate ListingMatches(filter: string, l: Listing) {
    if filter == "premium" then l.premium > 2.0
    else if filter == "quick-sale" then l.isQuickSale
    else if filter == "high-yield" then l.yieldRate > 7.0
    else true
  }

  /** `getFilteredP2PListings`. */
  function FilterListings(listings: seq<Listing>, filter: string): (r: seq<Listing>)
    ensures forall i :: 0 <= i < |r| ==> r[i] in listings && ListingMatches(filter, r[i])
    ensures forall i :: 0 <= i < |listings| && ListingMatches(filter, listings[i]) ==> listings[i] in r
    ensures filter != "premium" && filter != "quick-sale" && filter != "high-yield" ==> r == listings
  {
    Filter(listings, (l: Listing) => ListingMatches(filter, l))
  }

  /** Both filters return an order-preserving selection. */
  lemma FiltersKeepOrder(bonds: seq<Bond>, listings: seq<Listing>, filter: string)
    ensures SubsequenceOf(FilterBonds(bonds, filter), bonds)
    ensures SubsequenceOf(FilterListings(listings, filter), listings)
  {
    var matches := (l: Listing) => ListingMatches(filter, l);
    FilterIsSubsequence(listings, matches);
    if filter != "ALL" {
      var atLevel := (b: Bond) => b.riskLevel == filter;
      FilterIsSubsequence(bonds, atLevel);
    } else {
      SubsequenceOfSelf(bonds);
    }
  }

  lemma {:induction false} SubsequenceOfSelf<T>(s: seq<T>)
    ensures SubsequenceOf(s, s)
  {
    if |s| > 0 {
      SubsequenceOfSelf(s[1..]);
    }
  }

  /** The sort orders of the P2P market. */
  datatype SortOrder = YieldDescending | PriceAscending | RatingDescending | NewestFirst | Unsorted

  /** The order a `sortBy` value selects; an unknown one sorts nothing. */
  function SortOrderOf(sortBy: string): (r: SortOrder)
    ensures r.Unsorted? <==> sortBy != "yield-desc" && sortBy != "price-asc" && sortBy != "rating-desc" && sortBy != "time-desc"
  {
    if sortBy == "yield-desc" then YieldDescending
    else if sortBy == "price-asc" then PriceAscending
    else if sortBy == "rating-desc" then RatingDescending
    else if sortBy == "time-desc" then NewestFirst
    else Unsorted
  }

  /** The number each comparator subtracts, turned so that the order is
      ascending in it: `b.yield - a.yield` sorts by `-yield`, and so on. */
  function SortKey(order: SortOrder, l: Listing): real {
    match order
    case YieldDescending => -l.yieldRate
    case PriceAscending => l.listingPrice
    case RatingDescending => -l.sellerRating
    case NewestFirst => -(l.listedDate as real)
    case Unsorted => 0.0
  }

  predicate SortedBy(order: SortOrder, s: seq<Listing>) {
    forall i, j :: 0 <= i < j < |s| ==> SortKey(order, s[i]) <= SortKey(order, s[j])
  }

  /** Places `x` before the first element whose key is not smaller, which
      keeps equal keys in their original order. */
  function Insert(order: SortOrder, x: Listing, s: seq<Listing>): (r: seq<Listing>)
    requires SortedBy(order, s)
    ensures SortedBy(order, r)
    ensures multiset(r) == multiset(s) + multiset{x}
  {
    if |s| == 0 then [x]
    else if SortKey(order, x) <= SortKey(order, s[0]) then [x] + s
    else
      var rest := Insert(order, x, s[1..]);
      assert s == [s[0]] + s[1..];
      KeyBoundKept(order, s[0], x, s[1..], rest);
      SortedCons(order, s[0], rest);
      [s[0]] + rest
  }

  /** A key at most that of `x` and of every element of `tail` is at most
      that of every element of a sequence holding `tail` and `x`. */
  lemma KeyBoundKept(order: SortOrder, first: Listing, x: Listing, tail: seq<Listing>, rest: seq<Listing>)
    requires SortKey(order, first) <= SortKey(order, x)
    requires SortedBy(order, [first] + tail)
    requires multiset(rest) == multiset(tail) + multiset{x}
    ensures forall k :: 0 <= k < |rest| ==> SortKey(order, first) <= SortKey(order, rest[k])
  {
    forall k | 0 <= k < |rest|
      ensures SortKey(order, first) <= SortKey(order, rest[k])
    {
      assert rest[k] in multiset(rest);
      if rest[k] != x {
        assert rest[k] in multiset(tail);
        var m :| 0 <= m < |tail| && tail[m] == rest[k];
        var whole := [first] + tail;
        assert whole[0] == first && whole[m + 1] == rest[k];
        assert SortKey(order, whole[0]) <= SortKey(order, whole[m + 1]);
      }
    }
  }

  /** A sorted sequence stays sorted behind a first element whose key is
      at most all of its keys. */
  lemma SortedCons(order: SortOrder, first: Listing, rest: seq<Listing>)
    requires SortedBy(order, rest)
    requires forall k :: 0 <= k < |rest| ==> SortKey(order, first) <= SortKey(order, rest[k])
    ensures SortedBy(order, [first] + rest)
  {
    var r := [first] + rest;
    forall i, j | 0 <= i < j < |r|
      ensures SortKey(order, r[i]) <= SortKey(order, r[j])
    {
      assert r[j] == rest[j - 1];
      if i > 0 {
        assert r[i] == rest[i - 1];
      }
    }
  }

  /** `Array.prototype.sort` with the comparator of `order`, which is
      stable: an insertion sort from the back. */
  function SortListings(order: SortOrder, s: seq<Listing>): (r: seq<Listing>)
    ensures SortedBy(order, r)
    ensures multiset(r) == multiset(s)
  {
    if |s| == 0 then []
    else
      assert s == [s[0]] + s[1..];
      Insert(order, s[0], SortListings(order, s[1..]))
  }

  /** No two listings share an id. */
  predicate UniqueIds(s: seq<Listing>) {
    forall i, j :: 0 <= i < j < |s| ==> s[i].id != s[j].id
  }

  /** Whether some listing of `s` has this id. */
  predicate HasId(s: seq<Listing>, id: string) {
    exists k :: 0 <= k < |s| && s[k].id == id
  }

  /** The listings the filter shows, in the order `sortBy` selects; in
      their market order for an unknown `sortBy`. */
  function ShownInOrder(listings: seq<Listing>, filter: string, sortBy: string): (r: seq<Listing>)
    ensures multiset(r) == multiset(FilterListings(listings, filter))
    ensures !SortOrderOf(sortBy).Unsorted? ==> SortedBy(SortOrderOf(sortBy), r)
    ensures SortOrderOf(sortBy).Unsorted? ==> r == FilterListings(listings, filter)
  {
    var shown := FilterListings(listings, filter);
    if SortOrderOf(sortBy).Unsorted? then shown else SortListings(SortOrderOf(sortBy), shown)
  }

  /** The listings the filter does not show, in their market order. */
  function HiddenInOrder(listings: seq<Listing>, filter: string): (r: seq<Listing>)
    ensures SubsequenceOf(r, listings)
    ensures forall i :: 0 <= i < |r| ==> !ListingMatches(filter, r[i])
    ensures forall i :: 0 <= i < |listings| && !ListingMatches(filter, listings[i]) ==> listings[i] in r
  {
    var hidden := (l: Listing) => !ListingMatches(filter, l);
    FilterIsSubsequence(listings, hidden);
    Filter(listings, hidden)
  }

  /** `sortP2PListings`: the listings the current filter shows, sorted, go
      to the end; every listing whose id is not among them stays in front
      in its order. An unknown `sortBy` only moves the shown ones back. */
  function ReorderedListings(listings: seq<Listing>, filter: string, sortBy: string): (r: seq<Listing>)
  {
    var sorted := ShownInOrder(listings, filter, sortBy);
    Filter(listings, (l: Listing) => !HasId(sorted, l.id)) + sorted
  }

  /** With unique ids, a listing's id is among a reordering of the shown
      listings exactly when the listing itself is shown. */
  lemma ShownById(listings: seq<Listing>, filter: string, sorted: seq<Listing>)
    requires UniqueIds(listings)
    requires multiset(sorted) == multiset(FilterListings(listings, filter))
    ensures forall i :: 0 <= i < |listings| ==> (HasId(sorted, listings[i].id) <==> ListingMatches(filter, listings[i]))
  {
    var shown := FilterListings(listings, filter);
    forall i | 0 <= i < |listings| && ListingMatches(filter, listings[i])
      ensures HasId(sorted, listings[i].id)
    {
      assert listings[i] in multiset(sorted);
      var k :| 0 <= k < |sorted| && sorted[k] == listings[i];
      assert sorted[k].id == listings[i].id;
    }
    forall i | 0 <= i < |listings| && HasId(sorted, listings[i].id)
      ensures ListingMatches(filter, listings[i])
    {
      var k :| 0 <= k < |sorted| && sorted[k].id == listings[i].id;
      assert sorted[k] in multiset(shown);
      var m :| 0 <= m < |shown| && shown[m] == sorted[k];
      var j :| 0 <= j < |listings| && listings[j] == shown[m];
      assert j == i;
    }
  }

  /** With unique ids the reorder is the hidden listings in their order
      followed by the shown ones in the chosen order, so it loses and
      duplicates nothing. */
  lemma {:induction false} ReorderIsPermutation(listings: seq<Listing>, filter: string, sortBy: string)
    requires UniqueIds(listings)
    ensures ReorderedListings(listings, filter, sortBy)
              == HiddenInOrder(listings, filter) + ShownInOrder(listings, filter, sortBy)
    ensures multiset(ReorderedListings(listings, filter, sortBy)) == multiset(listings)
  {
    var matches := (l: Listing) => ListingMatches(filter, l);
    var hidden := (l: Listing) => !ListingMatches(filter, l);
    var sorted := ShownInOrder(listings, filter, sortBy);
    var unshown := (l: Listing) => !HasId(sorted, l.id);
    ShownById(listings, filter, sorted);
    FilterCongruent(listings, unshown, hidden);
    FilterPartition(listings, matches, hidden);
    assert ReorderedListings(listings, filter, sortBy) == Filter(listings, hidden) + sorted;
  }

  /** `getBondById`: a bond of the market first, then a P2P listing. */
  datatype Found = FoundBond(bond: Bond) | FoundListing(listing: Listing) | NotFound

  function GetBondById(bonds: seq<Bond>, listings: seq<Listing>, id: string): (r: Found)
    ensures r.FoundBond? <==> exists i :: 0 <= i < |bonds| && bonds[i].id == id
    ensures r.FoundBond? ==> FindBond(bonds, id) == Some(r.bond)
    ensures r.FoundListing? <==>
              (forall i :: 0 <= i < |bonds| ==> bonds[i].id != id) && exists k :: 0 <= k < |listings| && listings[k].id == id
    ensures r.FoundListing? ==>
              exists k :: 0 <= k < |listings| && listings[k] == r.listing && r.listing.id == id &&
                          forall j :: 0 <= j < k ==> listings[j].id != id
  {
    match FindBond(bonds, id)
    case Some(b) => FoundBond(b)
    case None =>
      match Find(listings, (l: Listing) => l.id == id)
      case Some(l) => FoundListing(l)
      case None => NotFound
  }

  /** The three icons of `generateStars`. */
  datatype Star = FullStar | HalfStar | EmptyStar

  /** How often a `for (let i = 0; i < n; i++)` loop runs. */
  function AtLeastZero(n: int): nat {
    if n < 0 then 0 else n
  }

  /** `generateStars`: `floor(rating)` full stars, a half star when the
      fraction is at least one half, then empty stars up to five; the loops
      run zero times for a negative count. */
  method GenerateStars(rating: real) returns (stars: seq<Star>)
    ensures var full := AtLeastZero(Floor(rating));
            var half := if rating - Floor(rating) as real >= 0.5 then 1 else 0;
            var empty := AtLeastZero(5 - Floor(rating) - half);
            && |stars| == full + half + empty
            && (forall i :: 0 <= i < |stars| ==> (stars[i] == FullStar <==> i < full))
            && (forall i :: 0 <= i < |stars| ==> (stars[i] == HalfStar <==> half == 1 && i == full))
    ensures 0.0 <= rating <= 5.0 ==> |stars| == 5
  {
    var fullStars := Floor(rating);
    var hasHalfStar := rating - fullStars as real >= 0.5;
    stars := [];
    var i := 0;
    while i < fullStars
      invariant fullStars >= 0 ==> 0 <= i <= fullStars
      invariant fullStars < 0 ==> i == 0
      invariant |stars| == i && forall k :: 0 <= k < i ==> stars[k] == FullStar
    {
      stars := stars + [FullStar];
      i := i + 1;
    }
    var full := |stars|;
    if hasHalfStar {
      stars := stars + [HalfStar];
    }
    var emptyStars := 5 - fullStars - (if hasHalfStar then 1 else 0);
    var before := |stars|;
    var j := 0;
    while j < emptyStars
      invariant emptyStars >= 0 ==> 0 <= j <= emptyStars
      invariant emptyStars < 0 ==> j == 0
      invariant |stars| == before + j
      invariant forall k :: 0 <= k < full ==> stars[k] == FullStar
      invariant hasHalfStar ==> stars[full] == HalfStar
      invariant forall k :: before <= k < |stars| ==> stars[k] == EmptyStar
    {
      stars := stars + [EmptyStar];
      j := j + 1;
    }
  }

  /** What `calculateTimeLeft` shows: hours when at most a day is left,
      otherwise days, urgent when at most three. */
  datatype TimeLeft = HoursLeft(hours: int) | DaysLeft(days: int, urgent: bool)

  function CalculateTimeLeft(expiry: Millis, now: Millis): (r: TimeLeft)
    ensures r.HoursLeft? <==> (expiry - now) as real <= DayMs
    ensures r.HoursLeft? ==> r.hours <= 24 && (r.hours - 1) as real * HourMs < (expiry - now) as real <= r.hours as real * HourMs
    ensures r.DaysLeft? ==> r.days >= 2 && (r.days - 1) as real * DayMs < (expiry - now) as real <= r.days as real * DayMs
    ensures r.DaysLeft? ==> (r.urgent <==> (expiry - now) as real <= 3.0 * DayMs)
  {
    var diff := (expiry - now) as real;
    var days := Ceil(diff / DayMs);
    if days <= 1 then HoursLeft(Ceil(diff / HourMs))
    else if days <= 3 then DaysLeft(days, true)
    else DaysLeft(days, false)
  }

  /** `getActiveP2PBuyers`: buyers expected for a demand level, 8 when the
      level is unknown. */
  function ActiveP2PBuyers(bond: Bond): (r: int)
    ensures r == 4 || r == 8 || r == 15 || r == 25
    ensures bond.p2pDemand == "Very High" <==> r == 25
    ensures bond.p2pDemand == "High" <==> r == 15
    ensures bond.p2pDemand == "Low" <==> r == 4
  {
    var table := map["High" := 15, "Very High" := 25, "Medium" := 8, "Low" := 4];
    if bond.p2pDemand in table then table[bond.p2pDemand] else 8
  }

  /** `getP2PTimeline`: days a P2P sale takes in a sector, 3.5 when the
      sector is not in the table. */
  function P2PTimeline(bond: Bond): (r: real)
    ensures 2.5 <= r <= 4.1
    ensures bond.sector == "Banking & Financial Services" ==> r == 2.5
    ensures bond.sector == "Renewable Energy" ==> r == 3.2
    ensures bond.sector == "Energy & Petrochemicals" ==> r == 4.1
    ensures r == 3.5 <==> bond.sector != "Banking & Financial Services" && bond.sector != "Renewable Energy"
                          && bond.sector != "Energy & Petrochemicals"
  {
    var table := map["Banking & Financial Services" := 2.5, "Renewable Energy" := 3.2, "Energy & Petrochemicals" := 4.1];
    if bond.sector in table then table[bond.sector] else 3.5
  }

  /** The four texts of `getEnhancedP2PRecommendation`. */
  datatype P2PAdvice = ListImmediately | QuickSaleExpected | BetterThanInstantSale | AvoidInstantSaleFees

  /** `getEnhancedP2PRecommendation`: a first-match chain over demand and the
      holding's potential P2P gain. */
  function EnhancedP2PRecommendation(bond: Bond, holding: Holding): (r: P2PAdvice)
    ensures r.ListImmediately? <==> bond.p2pDemand == "Very High" && holding.p2pPotentialGain > 200.0
    ensures r.QuickSaleExpected? <==> bond.p2pDemand == "High" && holding.p2pPotentialGain > 150.0
    ensures r.BetterThanInstantSale? <==>
              holding.p2pPotentialGain > 100.0 && !r.ListImmediately? && !r.QuickSaleExpected?
    ensures r.AvoidInstantSaleFees? <==> holding.p2pPotentialGain <= 100.0
  {
    var gain := holding.p2pPotentialGain;
    if bond.p2pDemand == "Very High" && gain > 200.0 then ListImmediately
    else if bond.p2pDemand == "High" && gain > 150.0 then QuickSaleExpected
    else if gain > 100.0 then BetterThanInstantSale
    else AvoidInstantSaleFees
  }

  /** The amounts `updateListingCalculation` shows for a listing. */
  datatype ListingQuote = ListingQuote(totalValue: real, platformFee: real, netAmount: real)

  /** The listing total, the platform's P2P fee (a percentage of it) and
      what the seller keeps. */
  function QuoteListing(quantity: int, price: real, feePercent: real): (r: ListingQuote)
    ensures r.totalValue == quantity as real * price
    ensures r.platformFee + r.netAmount == r.totalValue
    ensures r.platformFee * 100.0 == r.totalValue * feePercent
    ensures 0.0 <= feePercent <= 100.0 && r.totalValue >= 0.0 ==>
              0.0 <= r.platformFee <= r.totalValue && 0.0 <= r.netAmount <= r.totalValue
  {
    var total := quantity as real * price;
    var fee := total * (feePercent / 100.0);
    ListingQuote(total, fee, total - fee)
  }

  /** Whether `" Bond"` starts at position `i` of `s`. */
  predicate BondSuffixAt(s: string, i: int) {
    0 <= i && i + 5 <= |s| &&
    s[i] == ' ' && s[i + 1] == 'B' && s[i + 2] == 'o' && s[i + 3] == 'n' && s[i + 4] == 'd'
  }

  /** `bondName.split(' Bond')[0]`: the text before the first `" Bond"`,
      all of it when there is none. */
  function IssuerFromBondName(name: string): (r: string)
    ensures r <= name
    ensures forall i :: 0 <= i < |r| ==> !BondSuffixAt(name, i)
    ensures |r| < |name| ==> BondSuffixAt(name, |r|)
    decreases |name|
  {
    if |name| < 5 then name
    else if BondSuffixAt(name, 0) then []
    else
      var rest := IssuerFromBondName(name[1..]);
      assert forall i :: 1 <= i < |name| ==> (BondSuffixAt(name, i) <==> BondSuffixAt(name[1..], i - 1));
      [name[0]] + rest
  }

  /** The name a listing gets (`issuerName + " Bond"`) gives its issuer
      back, unless the issuer's own name contains `" Bond"`. */
  lemma {:induction false} IssuerRoundTrip(issuer: string)
    requires forall i :: 0 <= i < |issuer| ==> !BondSuffixAt(issuer + " Bond", i)
    ensures IssuerFromBondName(issuer + " Bond") == issuer
  {
    var name := issuer + " Bond";
    if |issuer| == 0 {
      assert name == " Bond";
      assert BondSuffixAt(name, 0);
    } else {
      assert !BondSuffixAt(name, 0);
      assert name[1..] == issuer[1..] + " Bond";
      forall i | 0 <= i < |issuer[1..]|
        ensures !BondSuffixAt(issuer[1..] + " Bond", i)
      {
        assert !BondSuffixAt(name, i + 1);
      }
      IssuerRoundTrip(issuer[1..]);
      assert issuer == [issuer[0]] + issuer[1..];
    }
  }
}
