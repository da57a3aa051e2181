/**
 * The saved-listing engine behind a card's heart button. Anonymous visitors keep the flag in
 * browser storage under a key derived from the listing; signed-in visitors ask the server,
 * and their flag only moves once the server confirms.
 */
module SaveListings {
  import opened Wrappers
  import opened JsValues
  import opened BrowserStorage
  import opened Toasts

  datatype ListingType = Truck | Trailer

  function ListingTypeName(t: ListingType): string {
    match t
    case Truck => "truck"
    case Trailer => "trailer"
  }

  /** The hook's parameters; `isIndividual` defaults to false. */
  datatype SaveParams = SaveParams(
    truckId: Option<int>, trailerId: Option<int>, listingType: ListingType, title: string, isIndividual: bool)

  /** `truckId || trailerId`: the truck id when it is truthy, else the trailer id, which may be missing. */
  function ListingId(p: SaveParams): Option<int> {
    if TruthyNumber(p.truckId) then p.truckId else p.trailerId
  }

  /** A missing id still renders, as the text `undefined`. */
  function IdText(id: Option<int>): string {
    match id
    case Some(n) => IntToString(n)
    case None => "undefined"
  }

  /** The key space a listing's local flag lives in. */
  datatype KeySpace = IndividualSpace | TypedSpace(t: ListingType)

  function KeySpaceOf(p: SaveParams): KeySpace {
    if p.isIndividual then IndividualSpace else TypedSpace(p.listingType)
  }

  function KeySpacePrefix(s: KeySpace): string {
    match s
    case IndividualSpace => "saved-individual-"
    case TypedSpace(t) => "saved-" + ListingTypeName(t) + "-"
  }

  /** `storageKey`: the key-space prefix followed by the listing id. */
  function StorageKey(p: SaveParams): (k: string)
    ensures StartsWith(k, "saved-")
    ensures k == KeySpacePrefix(KeySpaceOf(p)) + IdText(ListingId(p))
  {
    if p.isIndividual then "saved-individual-" + IdText(ListingId(p))
    else "saved-" + ListingTypeName(p.listingType) + "-" + IdText(ListingId(p))
  }

  lemma IdTextInjective(a: Option<int>, b: Option<int>)
    requires IdText(a) == IdText(b)
    ensures a == b
  {
    match a {
      case Some(x) =>
        match b {
          case Some(y) => IntToStringInjective(x, y);
          case None =>
            assert 'u' in IdText(b);
            IntToStringChars(x, 'u');
        }
      case None =>
        if b.Some? {
          assert 'u' in IdText(a);
          IntToStringChars(b.value, 'u');
        }
    }
  }

  /** The three prefixes already differ within their first nine characters. */
  lemma PrefixHeadsDiffer(s: KeySpace, t: KeySpace)
    ensures KeySpacePrefix(s)[..9] == KeySpacePrefix(t)[..9] ==> s == t
  {
    if s != t {
      var ps, pt := KeySpacePrefix(s), KeySpacePrefix(t);
      if s.IndividualSpace? || t.IndividualSpace? {
        assert ps[6] != pt[6];
      } else {
        assert ps[8] != pt[8];
      }
      assert ps[..9] != pt[..9];
    }
  }

  lemma PrefixesDiffer(s: KeySpace, t: KeySpace, a: Option<int>, b: Option<int>)
    requires KeySpacePrefix(s) + IdText(a) == KeySpacePrefix(t) + IdText(b)
    ensures s == t
  {
    var k := KeySpacePrefix(s) + IdText(a);
    PrefixHeadsDiffer(s, t);
    assert KeySpacePrefix(s)[..9] == k[..9] == KeySpacePrefix(t)[..9];
  }

  /**
   * Two listings share a local flag only when they are in the same key space and resolve to
   * the same id: an individual truck and a dealer truck with the same id never collide.
   */
  lemma StorageKeyInjective(p: SaveParams, q: SaveParams)
    requires StorageKey(p) == StorageKey(q)
    ensures KeySpaceOf(p) == KeySpaceOf(q) && ListingId(p) == ListingId(q)
  {
    PrefixesDiffer(KeySpaceOf(p), KeySpaceOf(q), ListingId(p), ListingId(q));
    var n := |KeySpacePrefix(KeySpaceOf(p))|;
    assert IdText(ListingId(p)) == StorageKey(p)[n..];
    assert IdText(ListingId(q)) == StorageKey(q)[n..];
    IdTextInjective(ListingId(p), ListingId(q));
  }

  /** `!!authUser`: the hook's own `/api/auth/user` query returned a user. */
  predicate IsAuthenticated(authUser: Option<nat>) {
    authUser.Some?
  }

  /** The anonymous toggle on values: flip the flag; a set flag is written as "true", a cleared one removed. */
  function AnonToggle(saved: bool, items: map<string, string>, key: string): (r: (bool, map<string, string>))
    ensures r.0 == !saved
    ensures Lookup(r.1, key) == (if r.0 then Some("true") else None)
    ensures forall k :: k != key ==> Lookup(r.1, k) == Lookup(items, k)
  {
    if !saved then (true, items[key := "true"]) else (false, items - {key})
  }

  /** The anonymous flag agrees with the stored entry. */
  predicate InSync(saved: bool, items: map<string, string>, key: string) {
    saved <==> Lookup(items, key) == Some("true")
  }

  /** A toggle keeps the flag and the stored entry in agreement. */
  lemma AnonToggleKeepsSync(saved: bool, items: map<string, string>, key: string)
    ensures var r := AnonToggle(saved, items, key); InSync(r.0, r.1, key)
  {
  }

  /**
   * Toggling twice restores both the flag and the storage exactly when the entry was absent
   * or "true" and agreed with the flag; any other stored text is lost on the way.
   */
  lemma {:induction false} AnonToggleTwice(saved: bool, items: map<string, string>, key: string)
    ensures var once := AnonToggle(saved, items, key);
      AnonToggle(once.0, once.1, key) == (saved, items)
      <==> Lookup(items, key) == (if saved then Some("true") else None)
  {
    var once := AnonToggle(saved, items, key);
    var twice := AnonToggle(once.0, once.1, key);
    if Lookup(items, key) == (if saved then Some("true") else None) {
      if saved {
        assert twice.1 == (items - {key})[key := "true"];
        assert twice.1 == items;
      } else {
        assert twice.1 == items[key := "true"] - {key};
        assert twice.1 == items;
      }
    } else {
      assert Lookup(twice.1, key) != Lookup(items, key);
    }
  }

  class SavedListing {
    var isSaved: bool
    var isPending: bool
    var toasts: seq<Toast>
    /** The query keys invalidated, in order. */
    var invalidated: seq<string>
    const params: SaveParams
    const key: string
    const store: WebStorage

    constructor (params: SaveParams, store: WebStorage)
      ensures this.params == params && this.store == store && key == StorageKey(params)
      ensures !isSaved && !isPending && toasts == [] && invalidated == []
    {
      this.params := params;
      this.store := store;
      key := StorageKey(params);
      isSaved := false;
      isPending := false;
      toasts := [];
      invalidated := [];
    }

    /**
     * The sync effect. Signed in, the flag follows the server's status once there is one and
     * otherwise stays; anonymous, it is whether the stored entry is exactly "true".
     */
    method Sync(isAuthenticated: bool, savedStatus: Option<bool>)
      modifies this
      ensures isAuthenticated && savedStatus.Some? ==> isSaved == savedStatus.value
      ensures isAuthenticated && savedStatus.None? ==> isSaved == old(isSaved)
      ensures !isAuthenticated ==> InSync(isSaved, store.items, key)
      ensures isPending == old(isPending) && toasts == old(toasts) && invalidated == old(invalidated)
    {
      if isAuthenticated {
        if savedStatus.Some? {
          isSaved := savedStatus.value;
        }
      } else {
        var saved := store.GetItem(key);
        isSaved := saved == Some("true");
      }
    }

    /**
     * `handleSaveToggle`. Signed in, the mutation starts with the opposite of the current flag
     * (returned as `request`) and nothing else moves yet. Anonymous, the flag flips at once, the
     * storage follows, and a toast says what happened; the mutation is never involved.
     */
    method Toggle(isAuthenticated: bool) returns (request: Option<bool>)
      modifies this, store
      ensures isAuthenticated ==>
        request == Some(!old(isSaved)) && isPending && isSaved == old(isSaved)
        && store.items == old(store.items) && toasts == old(toasts)
      ensures !isAuthenticated ==>
        request == None && isPending == old(isPending)
        && (isSaved, store.items) == AnonToggle(old(isSaved), old(store.items), key)
        && toasts == old(toasts) + [if isSaved then Toast("Saved Locally", params.title
             + " saved to your browser. Sign in to sync across devices.", false)
           else Toast("Removed", params.title + " removed from your local saves.", false)]
      ensures invalidated == old(invalidated)
    {
      if isAuthenticated {
        request := Some(!isSaved);
        isPending := true;
      } else {
        request := None;
        var newSavedState := !isSaved;
        isSaved := newSavedState;
        if newSavedState {
          store.SetItem(key, "true");
          toasts := toasts + [Toast("Saved Locally", params.title
            + " saved to your browser. Sign in to sync across devices.", false)];
        } else {
          store.RemoveItem(key);
          toasts := toasts + [Toast("Removed", params.title + " removed from your local saves.", false)];
        }
      }
    }

    /**
     * The mutation for `save` settles. On success the flag becomes `save`, a toast confirms, and
     * both the saved-listings list and the check query are invalidated; on failure the flag stays
     * and a destructive error toast is shown.
     */
    method SettleSave(save: bool, success: bool)
      modifies this
      ensures !isPending
      ensures success ==>
        isSaved == save
        && toasts == old(toasts) + [if save then Toast("Saved", params.title + " saved to your list", false)
                                    else Toast("Removed", params.title + " removed from saved list", false)]
        && invalidated == old(invalidated) + ["/api/saved-listings", "/api/saved-listings/check"]
      ensures !success ==>
        isSaved == old(isSaved) && invalidated == old(invalidated)
        && toasts == old(toasts) + [Toast("Error", "Failed to update saved status", true)]
    {
      if success {
        isSaved := save;
        toasts := toasts + [if save then Toast("Saved", params.title + " saved to your list", false)
                            else Toast("Removed", params.title + " removed from saved list", false)];
        invalidated := invalidated + ["/api/saved-listings", "/api/saved-listings/check"];
      } else {
        toasts := toasts + [Toast("Error", "Failed to update saved status", true)];
      }
      isPending := false;
    }
  }
}
