/**
 * The marketplace cards for trucks and trailers. A card links to the listing's detail page
 * (the dealer route when the listing has a dealer, the individual-listings route otherwise),
 * drives the save button through the saved-listing engine, shows the asking price or
 * "Contact for Pricing", and on a click records where the visitor was so that the marketplace
 * can restore its scroll position and pagination on return.
 */
module ListingCards {
  import opened Wrappers
  import opened JsValues
  import opened BrowserStorage
  import SaveListings
  import ScrollToTop
  import SearchForm

  datatype CardKind = TruckCard | TrailerCard

  /** The fields of a listing the cards decide on; `dealerId` is `null` for a private seller. */
  datatype Listing = Listing(
    id: int, dealerId: Option<int>, title: string, price: Option<string>, imageUrls: Option<seq<string>>)

  const IndividualPath := "/individual-listings/"

  function DealerPath(kind: CardKind): string {
    match kind
    case TruckCard => "/trucks/"
    case TrailerCard => "/trailers/"
  }

  // ---------------------------------------------------------------------------
  // Detail routes
  // ---------------------------------------------------------------------------

  /** The path the card link and View Details open. */
  function RoutePath(kind: CardKind, listing: Listing): string {
    (if TruthyNumber(listing.dealerId) then DealerPath(kind) else IndividualPath) + IntToString(listing.id)
  }

  /** The prefix of a route path, which tells the two route families apart. */
  function RouteFamily(kind: CardKind, dealer: bool): string {
    if dealer then DealerPath(kind) else IndividualPath
  }

  /** The id is read back from the route path by stripping the family's prefix. */
  lemma RoutePathReadsBack(kind: CardKind, listing: Listing)
    ensures var path := RoutePath(kind, listing);
      var prefix := RouteFamily(kind, TruthyNumber(listing.dealerId));
      StartsWith(path, prefix) && ParseInt(path[|prefix|..]) == Some(listing.id)
  {
    var prefix := RouteFamily(kind, TruthyNumber(listing.dealerId));
    var path := RoutePath(kind, listing);
    assert path[|prefix|..] == IntToString(listing.id);
    ParseIntOfIntToString(listing.id);
  }

  /**
   * Two cards of the same kind open the same page only for the same id, and never when one
   * listing has a dealer and the other does not.
   */
  lemma RoutePathInjective(kind: CardKind, a: Listing, b: Listing)
    requires RoutePath(kind, a) == RoutePath(kind, b)
    ensures a.id == b.id
    ensures TruthyNumber(a.dealerId) == TruthyNumber(b.dealerId)
  {
    var pa := RoutePath(kind, a);
    assert pa[1] == RouteFamily(kind, TruthyNumber(a.dealerId))[1];
    assert pa[1] == RouteFamily(kind, TruthyNumber(b.dealerId))[1];
    var prefix := RouteFamily(kind, TruthyNumber(a.dealerId));
    assert pa[|prefix|..] == IntToString(a.id);
    assert pa[|prefix|..] == IntToString(b.id);
    IntToStringInjective(a.id, b.id);
  }

  /** The share link: the truck card shares its route, the trailer card always the dealer route. */
  function SharePath(kind: CardKind, listing: Listing): (path: string)
    ensures kind == TruckCard ==> path == RoutePath(kind, listing)
    ensures kind == TrailerCard ==> path == DealerPath(TrailerCard) + IntToString(listing.id)
  {
    match kind
    case TruckCard => RoutePath(kind, listing)
    case TrailerCard => "/trailers/" + IntToString(listing.id)
  }

  /** The share link and the card link agree exactly when the card is not a private trailer. */
  lemma ShareMatchesRoute(kind: CardKind, listing: Listing)
    ensures SharePath(kind, listing) == RoutePath(kind, listing)
        <==> kind == TruckCard || TruthyNumber(listing.dealerId)
  {
    if kind == TrailerCard && !TruthyNumber(listing.dealerId) {
      assert SharePath(kind, listing)[1] != RoutePath(kind, listing)[1];
    }
  }

  // ---------------------------------------------------------------------------
  // Save button
  // ---------------------------------------------------------------------------

  /** The parameters each card hands to the saved-listing engine. */
  function SaveParamsOf(kind: CardKind, listing: Listing): (p: SaveListings.SaveParams)
    ensures kind == TruckCard ==>
      p.truckId == Some(listing.id) && p.trailerId == None && p.listingType == SaveListings.Truck
      && (p.isIndividual <==> listing.dealerId == None)
    ensures kind == TrailerCard ==>
      p.truckId == None && p.trailerId == Some(listing.id) && p.listingType == SaveListings.Trailer
      && !p.isIndividual
    ensures p.title == listing.title
  {
    match kind
    case TruckCard =>
      SaveListings.SaveParams(Some(listing.id), None, SaveListings.Truck, listing.title, listing.dealerId == None)
    case TrailerCard =>
      SaveListings.SaveParams(None, Some(listing.id), SaveListings.Trailer, listing.title, false)
  }

  /**
   * The storage key of a card's saved flag: private trucks share the individual key space,
   * dealer trucks and every trailer use their listing type's.
   */
  lemma SaveKeyOfCard(kind: CardKind, listing: Listing)
    requires listing.id != 0
    ensures kind == TruckCard && listing.dealerId == None ==>
      SaveListings.StorageKey(SaveParamsOf(kind, listing)) == "saved-individual-" + IntToString(listing.id)
    ensures kind == TruckCard && listing.dealerId != None ==>
      SaveListings.StorageKey(SaveParamsOf(kind, listing)) == "saved-truck-" + IntToString(listing.id)
    ensures kind == TrailerCard ==>
      SaveListings.StorageKey(SaveParamsOf(kind, listing)) == "saved-trailer-" + IntToString(listing.id)
  {
    var p := SaveParamsOf(kind, listing);
    assert SaveListings.ListingId(p) == Some(listing.id);
    assert SaveListings.IdText(SaveListings.ListingId(p)) == IntToString(listing.id);
  }

  /** A truck with id 0 is not truthy, so its key falls back to the missing trailer id. */
  lemma ZeroTruckIdKey(listing: Listing)
    requires listing.id == 0 && listing.dealerId != None
    ensures SaveListings.StorageKey(SaveParamsOf(TruckCard, listing)) == "saved-truck-undefined"
  {
  }

  // ---------------------------------------------------------------------------
  // Price
  // ---------------------------------------------------------------------------

  /**
   * What the price cell shows: the fallback text, or the parsed number of the trimmed price
   * in US dollars (divided by 100 first when `fromCents`).
   */
  datatype PriceLabel = ContactForPricing | Currency(trimmed: string, fromCents: bool)

  /**
   * `formatPrice`. `positive(t)` stands for `parseFloat(t)` being a number above zero; the
   * number formatting itself is not modelled.
   */
  function FormatPrice(price: Option<string>, fromCents: bool, positive: string -> bool): (r: PriceLabel)
    ensures r == ContactForPricing <==>
      price == None || price.value == "" || price.value == "null" || price.value == "0"
      || IsBlank(price.value) || !positive(Trim(price.value))
    ensures r.Currency? ==> r.trimmed == Trim(price.value) && r.trimmed != "" && r.fromCents == fromCents
  {
    if RawRejected(price) then ContactForPricing
    else PriceOfTrimmed(Trim(price.value), fromCents, positive)
  }

  /** The checks on the text as given: missing, empty, `"null"` or `"0"`. */
  predicate RawRejected(price: Option<string>) {
    !TruthyString(price) || price.value == "null" || price.value == "0"
  }

  /** The checks on the trimmed text: empty, or not a positive number. */
  function PriceOfTrimmed(trimmed: string, fromCents: bool, positive: string -> bool): PriceLabel {
    if trimmed == "" || !positive(trimmed) then ContactForPricing else Currency(trimmed, fromCents)
  }

  /** The truck card reads a private seller's price as cents. */
  function CardPrice(kind: CardKind, listing: Listing, positive: string -> bool): (r: PriceLabel)
    ensures r.Currency? ==> (r.fromCents <==> kind == TruckCard && listing.dealerId == None)
  {
    match kind
    case TruckCard => FormatPrice(listing.price, listing.dealerId == None, positive)
    case TrailerCard => FormatPrice(listing.price, false, positive)
  }

  /**
   * Surrounding whitespace never changes the price cell, as long as `parseFloat` reads
   * neither `null` nor `0` as a positive number.
   */
  lemma PaddingNeverChangesPrice(s: string, fromCents: bool, positive: string -> bool)
    requires !positive("null") && !positive("0")
    ensures FormatPrice(Some(s), fromCents, positive) == FormatPrice(Some(Trim(s)), fromCents, positive)
  {
    var t := Trim(s);
    assert Trim(t) == t;
    if RawRejected(Some(s)) {
      RejectedTextsTrimToThemselves(s);
    }
  }

  lemma RejectedTextsTrimToThemselves(s: string)
    requires s == "" || s == "null" || s == "0"
    ensures Trim(s) == s
  {
    assert s == [] || (!IsWhitespace(s[0]) && !IsWhitespace(s[|s| - 1]));
  }

  /** A dealer truck and a trailer with the same price text show the same cell. */
  lemma DealerTruckPriceLikeTrailer(truck: Listing, trailer: Listing, positive: string -> bool)
    requires truck.dealerId != None && truck.price == trailer.price
    ensures CardPrice(TruckCard, truck, positive) == CardPrice(TrailerCard, trailer, positive)
  {
  }

  // ---------------------------------------------------------------------------
  // Images
  // ---------------------------------------------------------------------------

  const PlaceholderImage := "/api/placeholder/400/300"

  /** `imageUrls?.[0] || placeholder`. */
  function CoverImage(imageUrls: Option<seq<string>>): (src: string)
    ensures src != ""
    ensures imageUrls.Some? && |imageUrls.value| > 0 && imageUrls.value[0] != "" ==> src == imageUrls.value[0]
  {
    if imageUrls.Some? && |imageUrls.value| > 0 && imageUrls.value[0] != "" then imageUrls.value[0]
    else PlaceholderImage
  }

  /** The "+N more" badge, present only with more than one image. */
  function MoreImagesBadge(imageUrls: Option<seq<string>>): (n: Option<nat>)
    ensures n.Some? <==> imageUrls.Some? && |imageUrls.value| > 1
    ensures n.Some? ==> n.value >= 1
  {
    if imageUrls.Some? && |imageUrls.value| > 1 then Some(|imageUrls.value| - 1) else None
  }

  /** With the badge shown, the cover and the N more images are exactly the listing's images. */
  lemma BadgeCountsTheRest(imageUrls: seq<string>)
    requires MoreImagesBadge(Some(imageUrls)).Some?
    ensures 1 + MoreImagesBadge(Some(imageUrls)).value == |imageUrls|
    ensures imageUrls[0] != "" ==> [CoverImage(Some(imageUrls))] + imageUrls[1..] == imageUrls
  {
  }

  // ---------------------------------------------------------------------------
  // Trailer dimensions
  // ---------------------------------------------------------------------------

  /** `formatDimensions`: both sides, the length alone, or "N/A" (a width alone is not shown). */
  function FormatDimensions(length: Option<string>, width: Option<string>): (r: string)
    ensures r == "N/A" <==> !TruthyString(length)
    ensures TruthyString(length) ==> StartsWith(r, length.value + "'")
  {
    if TruthyString(length) && TruthyString(width) then length.value + "' × " + width.value + "'"
    else if TruthyString(length) then length.value + "' long"
    else "N/A"
  }

  /**
   * A length without a `'` is read back as everything before the first `'`, and the two
   * shapes that show a length are told apart by what follows it.
   */
  lemma DimensionsReadBack(length: string, width: Option<string>)
    requires length != "" && '\'' !in length
    ensures var r := FormatDimensions(Some(length), width);
      IndexOf(r, "'") == Some(|length|) && r[..|length|] == length
      && (r[|length|..] == "' long" <==> !TruthyString(width))
  {
    var r := FormatDimensions(Some(length), width);
    var tail := r[|length| + 1..];
    assert r == length + "'" + tail;
    IndexOfAfterFree(length, "'", tail);
    if TruthyString(width) {
      assert r[|length|..][2] == '×';
    }
  }

  // ---------------------------------------------------------------------------
  // Card click: state saved for the return to the marketplace
  // ---------------------------------------------------------------------------

  const SearchTypeKey := "marketplace-search-type"
  const ReturnUrlKey := "marketplace-return-url"
  const PageKey := "marketplace-pagination-page"
  const ItemsPerPageKey := "marketplace-pagination-itemsPerPage"
  const TimestampKey := "marketplace-pagination-timestamp"

  function SearchTypeOf(kind: CardKind): SearchForm.SearchType {
    match kind
    case TruckCard => SearchForm.Trucks
    case TrailerCard => SearchForm.Trailers
  }

  /** The page size as stored: -1, which shows every listing, is written as "all". */
  function ItemsPerPageText(itemsPerPage: int): (t: string)
    ensures t == "all" <==> itemsPerPage == -1
  {
    if itemsPerPage == -1 then "all"
    else
      assert IntToString(itemsPerPage) != "all" by {
        if IntToString(itemsPerPage) == "all" {
          IntToStringChars(itemsPerPage, 'a');
        }
      }
      IntToString(itemsPerPage)
  }

  /** The reading of the stored page size that undoes `ItemsPerPageText`. */
  function ParseItemsPerPage(t: string): Option<int> {
    if t == "all" then Some(-1) else ParseInt(t)
  }

  lemma ItemsPerPageRoundTrip(itemsPerPage: int)
    ensures ParseItemsPerPage(ItemsPerPageText(itemsPerPage)) == Some(itemsPerPage)
  {
    ParseIntOfIntToString(itemsPerPage);
  }

  /** The session entries a click writes. */
  function SessionAfterClick(items: map<string, string>, kind: CardKind, scrollY: nat, href: string)
    : map<string, string>
  {
    items[ScrollToTop.ScrollPositionKey := IntToString(scrollY)]
         [SearchTypeKey := SearchForm.SearchTypeName(SearchTypeOf(kind))]
         [ReturnUrlKey := href]
  }

  /** The local entries a click writes: the page and page size only when given, always the time. */
  function LocalAfterClick(items: map<string, string>, currentPage: Option<int>, itemsPerPage: Option<int>,
                           now: int): map<string, string>
  {
    var withPage := if currentPage.Some? then items[PageKey := IntToString(currentPage.value)] else items;
    var withSize := if itemsPerPage.Some? then withPage[ItemsPerPageKey := ItemsPerPageText(itemsPerPage.value)]
                    else withPage;
    withSize[TimestampKey := IntToString(now)]
  }

  /** After a click, the stored time reads back as the clock's value. */
  lemma TimestampReadsBack(items: map<string, string>, currentPage: Option<int>,
                           itemsPerPage: Option<int>, now: int)
    ensures ParseInt(LocalAfterClick(items, currentPage, itemsPerPage, now)[TimestampKey]) == Some(now)
  {
    ParseIntOfIntToString(now);
  }

  /** A page the card was given reads back as that page; otherwise the old entry stays. */
  lemma PageReadsBack(items: map<string, string>, currentPage: Option<int>,
                      itemsPerPage: Option<int>, now: int)
    ensures var after := LocalAfterClick(items, currentPage, itemsPerPage, now);
      (currentPage.Some? ==> ParseInt(after[PageKey]) == currentPage)
      && (currentPage.None? ==> Lookup(after, PageKey) == Lookup(items, PageKey))
  {
    PaginationKeysDiffer();
    if currentPage.Some? {
      ParseIntOfIntToString(currentPage.value);
    }
  }

  /** A page size the card was given reads back as that size; otherwise the old entry stays. */
  lemma ItemsPerPageReadsBack(items: map<string, string>, currentPage: Option<int>,
                              itemsPerPage: Option<int>, now: int)
    ensures var after := LocalAfterClick(items, currentPage, itemsPerPage, now);
      (itemsPerPage.Some? ==> ParseItemsPerPage(after[ItemsPerPageKey]) == itemsPerPage)
      && (itemsPerPage.None? ==> Lookup(after, ItemsPerPageKey) == Lookup(items, ItemsPerPageKey))
  {
    PaginationKeysDiffer();
    if itemsPerPage.Some? {
      ItemsPerPageRoundTrip(itemsPerPage.value);
    }
  }

  /** A click touches no local entry besides the three pagination keys. */
  lemma ClickKeepsOtherEntries(items: map<string, string>, currentPage: Option<int>,
                               itemsPerPage: Option<int>, now: int, k: string)
    requires k != PageKey && k != ItemsPerPageKey && k != TimestampKey
    ensures Lookup(LocalAfterClick(items, currentPage, itemsPerPage, now), k) == Lookup(items, k)
  {
  }

  lemma PaginationKeysDiffer()
    ensures PageKey != ItemsPerPageKey && PageKey != TimestampKey && ItemsPerPageKey != TimestampKey
  {
    assert PageKey[23] == 'p' && ItemsPerPageKey[23] == 'i' && TimestampKey[23] == 't';
  }

  /**
   * Coming back to a search page after a click keeps the scroll position: the stored position
   * is never empty, so the scroll-to-top handler leaves the page where it was.
   */
  lemma ReturnKeepsScroll(items: map<string, string>, kind: CardKind, scrollY: nat, href: string,
                          location: string)
    requires ScrollToTop.IsSearchPage(location)
    ensures !ScrollToTop.ShouldScroll(location,
                                      Lookup(SessionAfterClick(items, kind, scrollY, href), ScrollToTop.ScrollPositionKey))
  {
    var after := SessionAfterClick(items, kind, scrollY, href);
    assert after[ScrollToTop.ScrollPositionKey] == IntToString(scrollY);
  }

  /**
   * `handleCardClick`. The scroll offset, the current URL and the clock are parameters; the
   * two storage areas are distinct objects.
   */
  method HandleCardClick(session: WebStorage, local: WebStorage, kind: CardKind, scrollY: nat, href: string,
                         currentPage: Option<int>, itemsPerPage: Option<int>, now: int)
    requires session != local
    modifies session, local
    ensures session.items == SessionAfterClick(old(session.items), kind, scrollY, href)
    ensures local.items == LocalAfterClick(old(local.items), currentPage, itemsPerPage, now)
  {
    session.SetItem(ScrollToTop.ScrollPositionKey, IntToString(scrollY));
    session.SetItem(SearchTypeKey, SearchForm.SearchTypeName(SearchTypeOf(kind)));
    session.SetItem(ReturnUrlKey, href);
    if currentPage.Some? {
      local.SetItem(PageKey, IntToString(currentPage.value));
    }
    if itemsPerPage.Some? {
      local.SetItem(ItemsPerPageKey, ItemsPerPageText(itemsPerPage.value));
    }
    local.SetItem(TimestampKey, IntToString(now));
  }
}
