/**
 * Scroll restoration on navigation: every location change scrolls to the top, except on a
 * search results page when the marketplace has stored a scroll position to return to.
 */
module ScrollToTop {
  import opened Wrappers
  import opened JsValues

  const ScrollPositionKey := "marketplace-scroll-position"

  /** The search results page, with or without a query string. */
  predicate IsSearchPage(location: string) {
    location == "/search" || StartsWith(location, "/search?")
  }

  /**
   * Whether a change to `location` scrolls to (0, 0), given the session entry for the stored
   * scroll position. Only a search page with a non-empty stored position keeps its scroll.
   */
  function ShouldScroll(location: string, storedPosition: Option<string>): (scroll: bool)
    ensures !scroll <==> IsSearchPage(location) && storedPosition.Some? && storedPosition.value != ""
  {
    !(IsSearchPage(location) && TruthyString(storedPosition))
  }

  /** Any query string keeps a location on the search page; other paths under `/search` are not it. */
  lemma SearchPageShapes(query: string, rest: string)
    ensures IsSearchPage("/search?" + query)
    ensures rest != "" && rest[0] != '?' ==> !IsSearchPage("/search" + rest)
  {
    var q := "/search?" + query;
    assert q[..8] == "/search?";
    if rest != "" && rest[0] != '?' {
      var p := "/search" + rest;
      assert p[7] == rest[0];
      if |p| >= 8 {
        assert p[..8][7] != '?';
      }
    }
  }

  /** Away from the search page every navigation scrolls, whatever is stored. */
  lemma OtherPagesAlwaysScroll(location: string, storedPosition: Option<string>)
    requires !IsSearchPage(location)
    ensures ShouldScroll(location, storedPosition)
  {
  }
}
