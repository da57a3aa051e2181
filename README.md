# TowTrader client core, modelled in Dafny

TowTrader is a marketplace for trucks and trailers. This project models the core of its browser
client:

- **Identity providers.** These cover dealers (token in browser storage, profile fetched from the
  server), individual users (server session with a cached snapshot) and administrators (a cached
  profile query with login and logout mutations). Also modelled are the two route guards that
  wait for, admit or redirect a visitor.
- **Saved-listing engine.** This is the heart button on every card. Anonymous visitors keep the
  flag in browser storage under a key derived from the listing. Signed-in visitors ask the
  server, and their flag only moves once the server confirms.
- **Header.** It shows who is signed in, their display name, their role, which dashboards are
  offered, and which logout runs.
- **Search form and filter sidebars.** These are the truck and trailer filter objects. Each
  control edits its fields, shows them back, and sends them upward at once or on Apply/blur.
  The search form builds the `/search?…` query.
- **Listing cards.** For trucks and trailers this covers routes, share links, save keys, price
  and dimension labels, the cover image and its "+n more" badge, and the scroll and pagination
  state stored on click. Also here is the scroll-to-top rule that lets the search page restore
  that scroll.
- **Image handling.** The gallery has its carousel, zoom, pan and swipe. There are two
  listing-photo uploaders: single and multiple, with compression and a size limit. The profile
  picture uploader uploads through a signed storage URL.
- **Dealer analytics dashboard.** This covers the inquiry status chart, the recent-inquiry rows
  (customer, contact links, unit of interest with legacy links, message preview) and the badges.

Each core file keeps the form its source has:

- React hooks and components whose handlers update state are classes. Their fields are the
  component state, and each handler is a method with a `modifies` clause that states the whole
  new state.
- Browser storage is one shared `BrowserStorage.WebStorage` object. Every provider holds a
  reference to it, so cross-provider effects (the dealer handoff through the user login form)
  show up in its `items` map.
- Computations are functions with lemmas about them.
- Loops are methods with invariants: the multi-file upload loop, and the loop that builds the
  search query.

JavaScript values are modelled explicitly in `JsValues`:

- `undefined`, strings, integers, `NaN` and string lists;
- objects as ordered association lists, so spread updates and `Object.entries` order are
  faithful;
- JS truthiness;
- `trim`, `indexOf`, the first-match `replace`, and integer printing and parsing.

The network is a parameter. Every request's outcome is a `Reply`: `Ok(body)`, `Rejected(status)`
(a non-`ok` response) or `TransportError` (a thrown fetch or an unparsable body). Canvas
compression and `FileReader` are parameters too.

## Model

| member | source | states |
|---|---|---|
| DealerAuth.DealerAuthProvider.constructor | hooks/useAuth.ts:26-28 | A provider starts with no dealer, no token, and loading. |
| DealerAuth.DealerAuthProvider.Mount | hooks/useAuth.ts:30-42 | A truthy stored `dealerToken` is adopted as the token and loading continues. Otherwise loading ends with the token unchanged. |
| DealerAuth.DealerAuthProvider.ClearAuthState | hooks/useAuth.ts:154-160 | Dealer, token and loading are cleared, and exactly the `dealerToken` entry is removed from storage. |
| DealerAuth.DealerAuthProvider.FetchDealerProfile | hooks/useAuth.ts:53-85 | Without a truthy token nothing but loading changes. With one, a good reply becomes the dealer and any failure clears the whole auth state and the stored token. Loading ends either way. |
| DealerAuth.DealerAuthProvider.OnTokenChange | hooks/useAuth.ts:45-51 | The profile is fetched exactly when there is a token but no dealer. The fetch's outcome decides whether the provider is authenticated or cleared. |
| DealerAuth.DealerAuthProvider.Login | hooks/useAuth.ts:87-123 | Succeeds iff the server accepts. Success stores the token, adopts the returned dealer and ends loading. Failure changes nothing. |
| DealerAuth.DealerAuthProvider.LoginWithToken | hooks/useAuth.ts:125-131 | The given token and dealer are adopted and the token is stored; the provider is authenticated and needs no fetch. |
| DealerAuth.DealerAuthProvider.Logout | hooks/useAuth.ts:133-151 | The server is told only when a token was held. Afterwards the provider is signed out and only the token entry is gone from storage. |
| DealerAuth.LoadPage | hooks/useAuth.ts:30-51 | A page load ends not loading. It is authenticated with the stored token iff that token was truthy and the profile fetch succeeded. A failed fetch removes the stored token. |
| UserAuth.UserAuthProvider.constructor | hooks/useUserAuth.ts:23-24 | A provider starts with no user and loading. |
| UserAuth.UserAuthProvider.CheckAuth | hooks/useUserAuth.ts:28-61 | A server session becomes the user and is cached, and a rejected session clears the cache. If the check throws, the cached snapshot is used: a user snapshot is adopted, a cached `null` stays in storage and gives no user, text that does not parse is dropped from storage, and a missing snapshot gives no user. |
| UserAuth.ParseCachedUser | hooks/useUserAuth.ts:47-55 | Cached text is `null` exactly when it is the literal `null`, a user exactly when it decodes to that user, and unparsable exactly when it is neither. |
| UserAuth.CachedUserReadsBack | hooks/useUserAuth.ts:37-50 | A snapshot the provider cached reads back on the fallback path as the same user. |
| UserAuth.UserAuthProvider.Login | hooks/useUserAuth.ts:66-105 | True iff the reply is a dealer account or carries a user. A dealer account writes the dealer token, the dealer snapshot and, when present, the dealer's user snapshot, then reloads to `/` without adopting anyone. An individual is adopted and cached. |
| UserAuth.UserAuthProvider.Logout | hooks/useUserAuth.ts:107-120 | The user is signed out, the cached snapshot removed and the page sent to `/`, whatever the server answered. |
| Sessions.HandoffThenSignOut | hooks/useUserAuth.ts:81-91 | After a dealer signs in on the user form and the dealer provider mounts and signs out, the token is gone. The dealer snapshots written by the handoff stay in storage and the individual user's snapshot is untouched. |
| Profiles.DecodeEncodedUser | hooks/useUserAuth.ts:37-50 | A cached user snapshot reads back as the same user. |
| Profiles.DecodeEncodedDealer | hooks/useUserAuth.ts:84 | A cached dealer snapshot reads back as the same dealer. |
| Profiles.DecodeEncodedFields | hooks/useUserAuth.ts:37-50 | The snapshot encoding of any field list decodes to that list. |
| Profiles.DecodeField | hooks/useUserAuth.ts:50 | Decoding one field strictly consumes input, so the decoder terminates on any stored text. |
| AdminAuth.AdminSession.constructor | hooks/useAdminAuth.ts:28-36 | A session starts with no stale queries, no pending mutation and no login error. |
| AdminAuth.AdminSession.BeginLogin | hooks/useAdminAuth.ts:78-80 | Starting a login sets the login pending flag and clears the previous login error; the location, the profile query and the logout flag are unchanged. |
| AdminAuth.AdminSession.SettleLogin | hooks/useAdminAuth.ts:39-61 | Success invalidates the admin profile query and navigates to the dashboard. A rejection or a network error records that error and stays put. Login is no longer pending. |
| AdminAuth.AdminSession.BeginLogout | hooks/useAdminAuth.ts:82-84 | Starting a logout only sets the logout pending flag. |
| AdminAuth.AdminSession.SettleLogout | hooks/useAdminAuth.ts:64-76 | When the reply is read, the whole query cache is cleared and the page goes to the admin login. Otherwise nothing but the pending flag changes. |
| RouteGuards.DealerGuard | components/dealer-protected-route.tsx:13-38 | While loading, a spinner and no redirect. After loading, redirect to the dealer login iff not authenticated, and render the children iff authenticated with a dealer. |
| RouteGuards.DealerRoute | components/dealer-protected-route.tsx:13-38 | On the dealer provider, children render iff loading is over and a dealer is present. Otherwise, once loading is over, the visitor is redirected. |
| RouteGuards.AdminGuard | components/admin-protected-route.tsx:9-29 | Spinner while loading, children iff authenticated, otherwise nothing and a redirect to the admin login. |
| RouteGuards.AdminRoute | components/admin-protected-route.tsx:9-29 | On the admin query, children iff loaded with an admin and no error. Otherwise, once loaded, a redirect. |
| Header.CurrentUser | components/header.tsx:16 | The dealer wins over the user, and there is no current user iff neither is signed in. |
| Header.LoggedInIffIdentity | components/header.tsx:17 | The header shows the signed-in menu iff it has a current user. |
| Header.LogoutTarget | components/header.tsx:18 | The dealer logout runs iff a dealer is signed in. |
| Header.DisplayName | components/header.tsx:19-23 | A dealer shows their contact name, else their company. A user shows their full name trimmed, or their email when that is blank; a non-blank full name is shown without leading or trailing whitespace. The dealer's names and the email are shown as stored. |
| Header.NamelessUserShowsEmail | components/header.tsx:22 | A user with empty first and last names is shown by email. |
| Header.RoleLabel | components/header.tsx:136 | "Dealer" iff a dealer is signed in, otherwise "Individual". |
| Header.DashboardLinks | components/header.tsx:78-92 | The dealer dashboard link is offered iff a dealer is signed in, and "My Dashboard" iff a user is. |
| Header.DealerWins | components/header.tsx:16-23 | With both signed in, the header acts for the dealer in every respect while still offering both dashboards. |
| SaveListings.StorageKey | hooks/useSaveListings.ts:18 | The key is the key-space prefix ("saved-individual-" or "saved-<type>-") followed by the listing id, or "undefined" when there is none. |
| SaveListings.StorageKeyInjective | hooks/useSaveListings.ts:18 | Two listings share a local flag only if they are in the same key space with the same id. |
| SaveListings.IdTextInjective | hooks/useSaveListings.ts:18 | Distinct ids (or a missing id) never print the same. |
| SaveListings.AnonToggle | hooks/useSaveListings.ts:106-124 | The anonymous toggle flips the flag. A set flag is stored as "true" and a cleared one is removed; no other key changes. |
| SaveListings.AnonToggleKeepsSync | hooks/useSaveListings.ts:47-57 | After a toggle, the flag is exactly what the sync effect would read back from storage. |
| SaveListings.AnonToggleTwice | hooks/useSaveListings.ts:103-125 | Two toggles restore flag and storage iff the entry agreed with the flag. Any other stored text is lost. |
| SaveListings.SavedListing.constructor | hooks/useSaveListings.ts:13-18 | The flag starts false, the key is the listing's storage key, and nothing is pending. |
| SaveListings.SavedListing.Sync | hooks/useSaveListings.ts:47-57 | Signed in, the flag follows the server's status once there is one. Anonymous, it is whether the entry is exactly "true". |
| SaveListings.SavedListing.Toggle | hooks/useSaveListings.ts:103-125 | Signed in, the opposite flag is requested and nothing else moves. Anonymous, the flag and storage flip together and the matching toast is shown. |
| SaveListings.SavedListing.SettleSave | hooks/useSaveListings.ts:84-99 | Success sets the flag to the requested value, confirms with a toast and invalidates both saved-listing queries. Failure keeps the flag and shows the error toast. |
| ListingCards.RoutePathReadsBack | components/truck-card.tsx:139 | A card's link lies under the family its dealer id selects and ends in the listing id. |
| ListingCards.RoutePathInjective | components/trailer-card.tsx:142 | Two cards of one kind link to the same page only if they have the same id and both or neither have a dealer. |
| ListingCards.SharePath | components/trailer-card.tsx:33 | A truck shares its own route. A trailer always shares `/trailers/<id>`. |
| ListingCards.ShareMatchesRoute | components/trailer-card.tsx:33 | The shared page is the card's own page iff the card is a truck or has a dealer. |
| ListingCards.SaveParamsOf | components/truck-card.tsx:23-28 | A truck card saves as a truck, individual iff it has no dealer. A trailer card saves as a dealer trailer. |
| ListingCards.SaveKeyOfCard | components/truck-card.tsx:23-28 | Private trucks, dealer trucks and trailers keep their flags under "saved-individual-", "saved-truck-" and "saved-trailer-" with their id. |
| ListingCards.ZeroTruckIdKey | components/truck-card.tsx:23-28 | A dealer truck with id 0 falls back to the absent trailer id and saves under "saved-truck-undefined". |
| ListingCards.FormatPrice | components/truck-card.tsx:79-103 | "Contact for pricing" iff the price is missing, empty, "null", "0", blank, or not a positive number once trimmed. Otherwise the trimmed text is shown, read as cents iff asked to. |
| ListingCards.CardPrice | components/truck-card.tsx:96 | A price is divided from cents iff the card is a truck without a dealer. |
| ListingCards.PaddingNeverChangesPrice | components/trailer-card.tsx:76-97 | Surrounding whitespace never changes a card's price label. |
| ListingCards.DealerTruckPriceLikeTrailer | components/trailer-card.tsx:76-97 | A dealer truck and a trailer with the same price text show the same label. |
| ListingCards.CoverImage | components/truck-card.tsx:146 | The cover is never empty: the first image when it is non-empty, otherwise the placeholder. |
| ListingCards.MoreImagesBadge | components/truck-card.tsx:152-156 | The "+n more" badge appears iff there are at least two images, with n at least 1. |
| ListingCards.BadgeCountsTheRest | components/trailer-card.tsx:155-159 | The cover and the badge's count account for every image exactly once. |
| ListingCards.FormatDimensions | components/trailer-card.tsx:103-110 | "N/A" iff the length is falsy. Otherwise the label opens with the length in feet. |
| ListingCards.DimensionsReadBack | components/trailer-card.tsx:103-110 | The length reads back from before the first foot mark. The label is "<length>' long" iff the width is falsy. |
| ListingCards.ItemsPerPageText | components/truck-card.tsx:128 | The stored page size is "all" iff it is -1. |
| ListingCards.ItemsPerPageRoundTrip | components/truck-card.tsx:128 | Every stored page size parses back to the number stored. |
| ListingCards.TimestampReadsBack | components/truck-card.tsx:130 | A click stores a timestamp that parses back to the click time. |
| ListingCards.PageReadsBack | components/truck-card.tsx:124-126 | A known page is stored so that it parses back. An unknown one leaves the entry as it was. |
| ListingCards.ItemsPerPageReadsBack | components/trailer-card.tsx:127-133 | A known page size is stored so that it parses back. An unknown one leaves the entry as it was. |
| ListingCards.ClickKeepsOtherEntries | components/truck-card.tsx:122-130 | A click touches only the three pagination keys of local storage. |
| ListingCards.ReturnKeepsScroll | components/truck-card.tsx:112 | After a card click, returning to any search page does not scroll to the top. |
| ListingCards.HandleCardClick | components/truck-card.tsx:109-136 | Session and local storage end exactly as the click's stored scroll, search type, return URL and pagination entries say. |
| ScrollToTop.ShouldScroll | components/scroll-to-top.tsx:10-13 | A navigation keeps its scroll iff it goes to the search page and a non-empty scroll position is stored. |
| ScrollToTop.SearchPageShapes | components/scroll-to-top.tsx:11 | Every `/search?…` location is the search page, while other paths that merely start with `/search` are not. |
| ScrollToTop.OtherPagesAlwaysScroll | components/scroll-to-top.tsx:13-17 | Away from the search page every navigation scrolls to the top. |
| SearchForm.ParsePriceChoice | components/search-form.tsx:261-273 | A price choice is one of the offered values or "any". |
| SearchForm.ParsePriceChoiceOfValue | components/search-form.tsx:261-273 | Every offered price option is recognised from its value. |
| SearchForm.ApplyPriceOption | components/search-form.tsx:261-273 | Choosing a price sets exactly the minimum and maximum bounds of that option. |
| SearchForm.PriceRoundTrip | components/search-form.tsx:253-281 | The price select shows back whichever option was chosen. |
| SearchForm.OtherBoundsShowAny | components/search-form.tsx:253-260 | A 0-75000 range, which no option offers, shows as "any". |
| SearchForm.ApplyChoice | components/search-form.tsx:53-104 | A select changes only the fields it controls. |
| SearchForm.SelectRoundTrip | components/search-form.tsx:53-104 | Every select shows back what was chosen, as the control displays it. |
| SearchForm.OfferedOptionsShowThemselves | components/search-form.tsx:53-104 | Each offered option is displayed as itself. |
| SearchForm.RemoveParam | components/search-form.tsx:37-45 | Deleting a query parameter removes it and leaves every other parameter alone. |
| SearchForm.SetParam | components/search-form.tsx:37-45 | Setting a parameter makes it read back and leaves every other parameter, and the first one's position, alone. |
| SearchForm.BuildSearchParams | components/search-form.tsx:29-45 | The loop builds exactly the search query for the type and filters. |
| SearchForm.AddEntriesGet | components/search-form.tsx:37-45 | Each parameter of the query is the filter's text when it has one, and otherwise what was there before. |
| SearchForm.AddEntriesKeepsFront | components/search-form.tsx:37-45 | Adding filters never displaces the leading parameter. |
| SearchForm.SearchQueryShape | components/search-form.tsx:29-46 | The query starts with the search type, and every other parameter carries its filter's text. |
| SearchForm.SearchLocation | components/search-form.tsx:46 | Submitting without a handler always navigates to the search page. |
| SearchForm.SearchFormState.constructor | components/search-form.tsx:18-19 | The form starts with empty filters on the truck search. |
| SearchForm.SearchFormState.SetSearchType | components/search-form.tsx:53-57 | Switching type changes only the type. |
| SearchForm.SearchFormState.ChangeFilters | components/search-form.tsx:21-27 | New filters are adopted and passed to the handler when there is one. |
| SearchForm.SearchFormState.Select | components/search-form.tsx:68-104 | A select updates its fields, shows back the choice, and reports the new filters when there is a handler. |
| SearchForm.SearchFormState.Submit | components/search-form.tsx:29-48 | With a handler, the filters are handed over. Without one, the page goes to the search location. |
| FiltersSidebar.Without | components/filters-sidebar.tsx:58 | Unchecking removes every occurrence of the name and keeps every other name with its count. |
| FiltersSidebar.WithoutAbsent | components/filters-sidebar.tsx:73 | Unchecking a name that is not listed leaves the list as it was. |
| FiltersSidebar.WithoutAppended | components/filters-sidebar.tsx:58 | Unchecking undoes an append of the same name. |
| FiltersSidebar.CheckThenUncheck | components/filters-sidebar.tsx:48-76 | Checking then unchecking an unlisted manufacturer restores the list. |
| FiltersSidebar.ToggleManufacturer | components/filters-sidebar.tsx:48-76 | A manufacturer box shows checked iff it was just checked. Checking adds exactly that name and no other field changes. |
| FiltersSidebar.MileageChange | components/filters-sidebar.tsx:27-46 | A mileage box changes only the mileage maximum. |
| FiltersSidebar.MileageBoxesExclusive | components/filters-sidebar.tsx:211-216 | At most one mileage box shows checked. |
| FiltersSidebar.MileageChangeShows | components/filters-sidebar.tsx:27-46 | Checking a mileage box makes it the only one checked. Unchecking any box leaves only "over 100K" checked. |
| FiltersSidebar.NumberInputRoundTrip | components/filters-sidebar.tsx:137-149 | A typed number is stored as that number and shown back, with 0 shown as an empty box. |
| FiltersSidebar.YearRoundTrip | components/filters-sidebar.tsx:159-183 | A chosen non-zero year shows back as itself. |
| FiltersSidebar.ApplyEdit | components/filters-sidebar.tsx:27-183 | An edit changes only its own field, in the way its control prescribes. |
| FiltersSidebar.FiltersSidebarState.constructor | components/filters-sidebar.tsx:17 | The sidebar starts from the given filters and has sent nothing. |
| FiltersSidebar.FiltersSidebarState.ReceiveFilters | components/filters-sidebar.tsx:19-21 | New filters from the parent replace the local copy. |
| FiltersSidebar.FiltersSidebarState.Handle | components/filters-sidebar.tsx:94 | An edit is applied locally and sent upward at once iff its control is immediate. |
| FiltersSidebar.FiltersSidebarState.Apply | components/filters-sidebar.tsx:23-25 | Apply sends the local filters unchanged. |
| TrailerFiltersSidebar.HasActiveFilters | components/trailer-filters-sidebar.tsx:53-55 | Filters are active iff some field is neither undefined, the empty string nor an empty list. |
| TrailerFiltersSidebar.ActiveFieldMakesActive | components/trailer-filters-sidebar.tsx:53-55 | A field that is neither undefined, the empty string nor an empty list makes the filters active. |
| TrailerFiltersSidebar.ToggleManufacturer | components/trailer-filters-sidebar.tsx:35-51 | A manufacturer shows checked iff it was just checked. The field is dropped rather than left empty, and no other field changes. |
| TrailerFiltersSidebar.CheckedManufacturerIsActive | components/trailer-filters-sidebar.tsx:35-55 | Checking a manufacturer always makes the filters active. |
| TrailerFiltersSidebar.AxlesRoundTrip | components/trailer-filters-sidebar.tsx:211-218 | A chosen axle count and "all" show back as themselves. |
| TrailerFiltersSidebar.ApplyEdit | components/trailer-filters-sidebar.tsx:81-242 | An edit changes only its own field. |
| TrailerFiltersSidebar.TrailerFiltersSidebarState.constructor | components/trailer-filters-sidebar.tsx:19 | The sidebar starts from the given filters and has sent nothing. |
| TrailerFiltersSidebar.TrailerFiltersSidebarState.ReceiveFilters | components/trailer-filters-sidebar.tsx:21-23 | New filters from the parent replace the local copy. |
| TrailerFiltersSidebar.TrailerFiltersSidebarState.Handle | components/trailer-filters-sidebar.tsx:81-87 | An edit is applied locally and sent upward at once iff its control is immediate. |
| TrailerFiltersSidebar.TrailerFiltersSidebarState.Blur | components/trailer-filters-sidebar.tsx:25-27 | Leaving a text input sends the local filters unchanged. |
| TrailerFiltersSidebar.TrailerFiltersSidebarState.Clear | components/trailer-filters-sidebar.tsx:29-33 | Clearing empties the filters, sends the empty object, and leaves nothing active. |
| ImageGallery.RenderOf | components/ImageGallery.tsx:24-29 | The placeholder is shown iff there are no images. |
| ImageGallery.Next | components/ImageGallery.tsx:36-38 | The next image is the following index, wrapping at the end. |
| ImageGallery.Previous | components/ImageGallery.tsx:32-34 | The previous image is the preceding index, wrapping at the start. |
| ImageGallery.NextPreviousInverse | components/ImageGallery.tsx:32-38 | Next and previous undo each other. |
| ImageGallery.NextTimes | components/ImageGallery.tsx:36-38 | Any number of steps forward stays on an image. |
| ImageGallery.NextTimesAdds | components/ImageGallery.tsx:36-38 | Steps forward compose by addition. |
| ImageGallery.NextTimesClimbs | components/ImageGallery.tsx:36-38 | Before the end, k steps forward advance the index by k. |
| ImageGallery.FullCycle | components/ImageGallery.tsx:36-38 | As many steps forward as there are images return to the start. |
| ImageGallery.ZoomStaysInBounds | components/ImageGallery.tsx:55-61 | Zoom stays between 0.5 and 3. Away from the bounds, zooming in and out undo each other. |
| ImageGallery.SwipeOf | components/ImageGallery.tsx:102-124 | A touch is a swipe iff it moved more across than down and more than 50 pixels. A leftward swipe goes to the next image and a rightward swipe to the previous one. |
| ImageGallery.VerticalIsNotSwipe | components/ImageGallery.tsx:102-124 | A mostly vertical touch never changes the image. |
| ImageGallery.ImageGalleryState.constructor | components/ImageGallery.tsx:12-21 | The gallery opens on the first image at normal zoom with no pan, and the modal closed. |
| ImageGallery.ImageGalleryState.GoToNext | components/ImageGallery.tsx:36-38 | Only the selected index moves, to the next image. |
| ImageGallery.ImageGalleryState.GoToPrevious | components/ImageGallery.tsx:32-34 | Only the selected index moves, to the previous image. |
| ImageGallery.ImageGalleryState.ResetZoom | components/ImageGallery.tsx:63-67 | Zoom returns to normal and the pan to the origin. |
| ImageGallery.ImageGalleryState.SetModal | components/ImageGallery.tsx:40-53 | Opening or closing the modal also resets the zoom and pan. |
| ImageGallery.ImageGalleryState.ZoomInStep | components/ImageGallery.tsx:55-57 | Zooming in changes only the zoom. |
| ImageGallery.ImageGalleryState.ZoomOutStep | components/ImageGallery.tsx:59-61 | Zooming out changes only the zoom. |
| ImageGallery.ImageGalleryState.Wheel | components/ImageGallery.tsx:88-95 | Scrolling up zooms in and scrolling down zooms out. |
| ImageGallery.ImageGalleryState.MouseDown | components/ImageGallery.tsx:69-75 | Above normal zoom, a press starts panning from the pointer's offset. Otherwise nothing changes. |
| ImageGallery.ImageGalleryState.MouseMove | components/ImageGallery.tsx:77-82 | While panning above normal zoom, the image follows the pointer. Otherwise it stays. |
| ImageGallery.ImageGalleryState.MouseUp | components/ImageGallery.tsx:84-86 | Releasing stops panning and keeps the pan. |
| ImageGallery.ImageGalleryState.SelectImage | components/ImageGallery.tsx:200 | Clicking a thumbnail selects that image; nothing else changes. |
| ImageGallery.ImageGalleryState.TouchStart | components/ImageGallery.tsx:97-100 | A touch records where it started. |
| ImageGallery.ImageGalleryState.TouchEnd | components/ImageGallery.tsx:102-124 | A touch that recorded a start ends with the swipe's image change and clears the start. A touch without one changes nothing. |
| ImageGallery.Drag | components/ImageGallery.tsx:69-86 | Above normal zoom, a press, a move and a release move the pan by exactly the pointer's displacement and end not panning, at the same zoom and image. |
| ImageUpload.ImageUploadState.constructor | components/ImageUpload.tsx:53-56 | The preview starts as the current image, or none. |
| ImageUpload.ImageUploadState.HandleFiles | components/ImageUpload.tsx:58-105 | Only the first file counts. A non-image or a file still over 3 MiB after compression only alerts. A file that never loads as an image leaves the handler waiting with nothing changed. Otherwise it previews the original and reports the compressed data URL, or alerts when reading fails. |
| ImageUpload.ImageUploadState.RemoveImage | components/ImageUpload.tsx:138-144 | Removing clears the preview, reports "" and resets the input. |
| MultipleImageUpload.AcceptedUrls | components/MultipleImageUpload.tsx:82-112 | The batch's images come at most one per file. |
| MultipleImageUpload.CollectAddsAccepted | components/MultipleImageUpload.tsx:82-112 | A batch that goes through adds exactly the data URLs of the images that load and fit, in file order. |
| MultipleImageUpload.WaitsOnUndecodable | components/MultipleImageUpload.tsx:7-44 | The loop waits forever exactly when it reaches an image that never loads, with every earlier file read or skipped. |
| MultipleImageUpload.HaltIsFinal | components/MultipleImageUpload.tsx:82-120 | After a failed read or an image that never loads, later files change nothing. |
| MultipleImageUpload.CollectImages | components/MultipleImageUpload.tsx:82-112 | The loop computes the batch outcome, stopping at the first failed read or the first image that never loads. |
| MultipleImageUpload.RemoveAt | components/MultipleImageUpload.tsx:155-156 | Removing an index drops that image and keeps the rest in order. An index outside the list changes nothing. |
| MultipleImageUpload.MultipleImageUploadState.constructor | components/MultipleImageUpload.tsx:61-64 | The uploader starts with the current images and is not uploading. |
| MultipleImageUpload.MultipleImageUploadState.HandleFiles | components/MultipleImageUpload.tsx:67-124 | An empty batch does nothing and a full list only alerts. Otherwise the files that fit in the free slots are processed: the accepted images are appended and reported, or on a failed read nothing is added and an alert is shown. When an image never loads, the alerts so far are shown, nothing is added and the uploader stays uploading. The list keeps its old images first and never grows past the maximum. |
| MultipleImageUpload.MultipleImageUploadState.RemoveImage | components/MultipleImageUpload.tsx:155-159 | The image at the index goes, the rest keep their order, and the new list is reported. |
| ProfilePictureUploader.CheckFile | components/ProfilePictureUploader.tsx:36-57 | No file does nothing. Size is checked before type: over 5 MiB is too large, and otherwise a non-image is rejected. |
| ProfilePictureUploader.StripQuery | components/ProfilePictureUploader.tsx:83 | The stored URL is the longest prefix before the first `?`, the whole URL when there is none. |
| ProfilePictureUploader.StripQueryIsFirstSegment | components/ProfilePictureUploader.tsx:83 | Any prefix without `?` that ends at the end or at a `?` is the stripped URL. |
| ProfilePictureUploader.StripQueryOfSignedUrl | components/ProfilePictureUploader.tsx:83 | A signed URL loses exactly its query string. |
| ProfilePictureUploader.ProfileUpdate | components/ProfilePictureUploader.tsx:80-92 | Dealers record the stripped URL at the dealer endpoint. Users record it with their email at the user endpoint, and no update is sent iff a user has no email. |
| ProfilePictureUploader.Upload | components/ProfilePictureUploader.tsx:59-114 | The requests go in order: upload URL, then a storage PUT iff one was granted, then the profile update iff the file was stored and the update is allowed. Success iff the update is accepted, otherwise the error toast. The path is handed on iff successful, wanted and truthy. |
| ProfilePictureUploader.MissingEmailStoresButNeverRecords | components/ProfilePictureUploader.tsx:85-87 | A user without an email has the file stored but never recorded, and sees the error toast. |
| ProfilePictureUploader.RecordedUrlIsUnsigned | components/ProfilePictureUploader.tsx:83-89 | What gets recorded is the storage address without its signature. |
| ProfilePictureUploader.ButtonCaption | components/ProfilePictureUploader.tsx:138 | The caption reads "Uploading..." iff an upload is in progress. |
| ProfilePictureUploader.ProfilePictureUploaderState.constructor | components/ProfilePictureUploader.tsx:33 | The uploader starts idle with nothing sent. |
| ProfilePictureUploader.ProfilePictureUploaderState.HandleFileChange | components/ProfilePictureUploader.tsx:35-115 | A rejected file only toasts its reason. An accepted file sends exactly the attempt's requests, shows its one closing toast, hands on its path, and ends not uploading. |
| DealerAnalytics.Count | components/DealerAnalyticsDashboard.tsx:71-75 | A status count never exceeds the inquiries, and is zero iff no inquiry has that status. |
| DealerAnalytics.DropEmpty | components/DealerAnalyticsDashboard.tsx:76 | Dropping empty slices keeps exactly the non-empty ones, in order, with the same total. |
| DealerAnalytics.StatusData | components/DealerAnalyticsDashboard.tsx:70-76 | The chart has a slice for a status iff some inquiry has it. Each slice carries its status's count, in the order new, responded, qualified, converted, lost. |
| DealerAnalytics.AllSlicesOrdered | components/DealerAnalyticsDashboard.tsx:70-75 | The five slices come in chart order. |
| DealerAnalytics.AllSlicesExact | components/DealerAnalyticsDashboard.tsx:70-75 | Each of the five slices carries its own status's count, and every status has its slice. |
| DealerAnalytics.TotalOfAllSlices | components/DealerAnalyticsDashboard.tsx:70-75 | The slices add up to the sum of the five counts. |
| DealerAnalytics.StatusCountsBounded | components/DealerAnalyticsDashboard.tsx:70-75 | No inquiry is counted twice. The counts reach the number of inquiries iff every inquiry has one of the five statuses. |
| DealerAnalytics.StatusDataTotal | components/DealerAnalyticsDashboard.tsx:70-76 | The chart's slices add up to at most the number of inquiries. |
| DealerAnalytics.ShownInquiries | components/DealerAnalyticsDashboard.tsx:282 | The table shows the first ten inquiries, or all of them when there are fewer. |
| DealerAnalytics.CustomerLabel | components/DealerAnalyticsDashboard.tsx:286 | A truthy name is shown as given, and "Anonymous" otherwise. |
| DealerAnalytics.ContactLinks | components/DealerAnalyticsDashboard.tsx:445-460 | A call link exists iff there is a phone and an email link iff there is an email, each addressed to that value. |
| DealerAnalytics.FirstSegment | components/DealerAnalyticsDashboard.tsx:294 | The first part of a message is the prefix before the first blank line. |
| DealerAnalytics.AfterSeparator | components/DealerAnalyticsDashboard.tsx:294-296 | Text after the first blank line exists iff the message has one, and the message is the first part, the blank line, then that text. |
| DealerAnalytics.UnitInfo | components/DealerAnalyticsDashboard.tsx:293-295 | The unit of interest is never empty. Without the inquiry prefix it is the message's first part. |
| DealerAnalytics.CustomerMessage | components/DealerAnalyticsDashboard.tsx:296 | The customer's text is empty without a blank line. Otherwise it is drawn from what follows the first one. |
| DealerAnalytics.ComposedMessageSplits | components/DealerAnalyticsDashboard.tsx:293-296 | A message composed as "Inquiry about: unit", a blank line and a body splits back into that unit and that body. |
| DealerAnalytics.FindMarker | components/DealerAnalyticsDashboard.tsx:354 | The marker search finds the first position where "(… ID: digits)" matches, and none iff it matches nowhere. |
| DealerAnalytics.MarkerSplit | components/DealerAnalyticsDashboard.tsx:354-356 | The first match splits the unit into what precedes it, its captured digits and what follows. |
| DealerAnalytics.LegacyLink | components/DealerAnalyticsDashboard.tsx:350-398 | A legacy unit always becomes a link. Without a match it links to ".../null" under the unchanged text. |
| DealerAnalytics.UnitCellOf | components/DealerAnalyticsDashboard.tsx:299-406 | The cell is an HTML link iff the unit contains one, else a trailer link, else a truck link, else plain text shown as is. |
| DealerAnalytics.LegacyLineMarker | components/DealerAnalyticsDashboard.tsx:350-356 | In a unit line written by the legacy form, the first marker is the one after the title, and there is no HTML link. |
| DealerAnalytics.LegacyLineSplit | components/DealerAnalyticsDashboard.tsx:354-356 | The first marker of a legacy line splits off exactly the title and the digits. |
| DealerAnalytics.LegacyLineLink | components/DealerAnalyticsDashboard.tsx:354-379 | A legacy line's link carries its digits and shows the title with trailing spaces dropped. |
| DealerAnalytics.TruckLineIsNotTrailer | components/DealerAnalyticsDashboard.tsx:350-351 | A truck line never takes the trailer branch. |
| DealerAnalytics.TrailerLineRoundTrip | components/DealerAnalyticsDashboard.tsx:353-373 | A trailer line links to that trailer under its title. |
| DealerAnalytics.TruckLineRoundTrip | components/DealerAnalyticsDashboard.tsx:376-396 | A truck line links to that truck under its title. |
| DealerAnalytics.LegacyLineRoundTrip | components/DealerAnalyticsDashboard.tsx:350-396 | "<title> (Trailer ID: n)" and "<title> (Truck ID: n)" link to listing n under the title without trailing whitespace. |
| DealerAnalytics.LegacyInquiryRoundTrip | components/DealerAnalyticsDashboard.tsx:293-396 | An inquiry written by a legacy form shows a link to its listing under its title and previews the customer's own text. |
| DealerAnalytics.Preview | components/DealerAnalyticsDashboard.tsx:329-330 | Messages of up to 50 characters show in full. Longer ones show their first 50 characters and "...". |
| DealerAnalytics.PreviewBounded | components/DealerAnalyticsDashboard.tsx:329-330 | A preview never exceeds 53 characters and always begins with the message's own beginning. |
| DealerAnalytics.LabelUnchanged | components/DealerAnalyticsDashboard.tsx:416 | A type with no "_" and lacking a letter of "contact" is shown under its own name. |
| DealerAnalytics.TrackedTypesShowAsIs | components/DealerAnalyticsDashboard.tsx:416 | The recorded inquiry types without "contact" are shown under their own names. |
| DealerAnalytics.StatusVariant | components/DealerAnalyticsDashboard.tsx:421-427 | Converted, qualified and responded each have their badge style, and every other status is destructive. |
| DealerAnalytics.PriorityVariant | components/DealerAnalyticsDashboard.tsx:431-437 | High is destructive, medium secondary and anything else outline. |

## Left out

- Network I/O: every fetch, `apiRequest` and react-query call is a `Reply` parameter. Retries,
  caching, refetch timing, the ordering of concurrent effects, and the race where a profile
  fetch settles after a logout are not modelled. Each handler runs until it returns or reaches
  an await that never settles (an image that never loads in the uploaders). Where a
  pending flag is visible (admin mutations, the signed-in save mutation), the handler is split
  into a start and a settle step.
- `lib/queryClient` (`apiRequest`) is not part of this model. Its replies are `Reply` values like
  every other call.
- JSON text: `JSON.stringify`/`JSON.parse` of the cached profiles are modelled by a
  length-prefixed field encoding with a verified decoder. A snapshot that fails to parse is one
  that does not decode. The JSON grammar itself is not modelled.
- `parseFloat` and `Intl.NumberFormat`: `FormatPrice` takes "the trimmed text parses to a
  positive number" as a predicate parameter. The label records the trimmed text and whether it
  is divided from cents, not the formatted digits.
- ListingCards.FormatPrice: states which prices are shown and how they are read, not the
  currency string `Intl` renders.
- Canvas compression and `FileReader`: a `process` function gives each file's compressed size
  and its data URL (none when reading fails), or says the file never loads as an image. Drag-and-drop event plumbing, object-URL
  revocation and console logging are left out.
- Zoom is counted in half-units (1 to 6 standing for 0.5 to 3). Pointer coordinates and pan
  offsets are integers; the source uses floating point.
- `window.scrollY` is a natural number, printed with the integer printer. `Date.now()` is a
  parameter.
- `handleShare` (`navigator.share`, the clipboard fallback and their toasts) is left out; only
  the shared path is modelled. The origin part of the shared URL is omitted.
- The HTML-link branch of the dashboard's unit cell (regular-expression extraction of an anchor's
  URL and title after `&quot;` normalisation) is kept as an uninterpreted cell. The model
  decides when that branch is taken, not what it shows.
- Percent-encoding of the `/search?…` query string: the model builds the parameter list and the
  location from it without escaping.
- The dashboard's engagement rate, charts of views and top listings, loading and empty states,
  and all markup and styling are left out.
- `Preview` counts characters; JavaScript's `substring` counts UTF-16 code units.
- DealerAnalytics.CustomerMessage: states the message's text is drawn from after the first
  blank line, not its exact extent up to the next one.
- FiltersSidebar.MileageChange: its own contract states only what it leaves alone; what each box
  shows afterwards is stated by `MileageChangeShows`.
- The `uploading` flags of the uploaders are observable only where a handler stops: reset at the
  end, or left set while the multi-file loop waits on an image that never loads. The single
  uploader waits before it sets the flag.
- UserAuth.UserAuthProvider.CheckAuth: cached text that parses as JSON but is not a user (an
  object of another shape, a number) is treated as unparsable and removed; the source adopts
  it as a truthy user. Only the value `null` is kept apart.
- Toasts are recorded as title, description and whether they are destructive. Their display
  timing is not modelled.
