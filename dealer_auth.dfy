/**
 * The dealer identity provider: a bearer token, the dealer snapshot fetched with it and a
 * loading flag, kept in step with the `dealerToken` entry of the shared browser storage.
 * Each handler is one atomic step; a network call is replaced by its outcome, passed in.
 */
module DealerAuth {
  import opened Wrappers
  import opened JsValues
  import opened BrowserStorage
  import opened Profiles

  const DealerTokenKey := "dealerToken"

  /** The body of a successful `POST /api/dealers/login`; `dealer` may be missing. */
  datatype LoginReply = LoginReply(token: string, dealer: Option<Dealer>)

  class DealerAuthProvider {
    var dealer: Option<Dealer>
    var token: Option<string>
    var isLoading: bool
    const store: WebStorage

    /** A dealer snapshot is only ever held together with a token, and the token held is the stored one. */
    ghost predicate Valid()
      reads this, store
    {
      (dealer.Some? ==> token.Some?)
      && (token.Some? ==> Lookup(store.items, DealerTokenKey) == token)
    }

    /** The initial render: nothing known yet, loading. */
    constructor (store: WebStorage)
      ensures this.store == store
      ensures dealer == None && token == None && isLoading
      ensures Valid()
    {
      this.store := store;
      dealer := None;
      token := None;
      isLoading := true;
    }

    /** `isAuthenticated`: a dealer snapshot is present. */
    predicate IsAuthenticated()
      reads this
    {
      dealer.Some?
    }

    /** The condition of the token effect: a truthy token and no dealer snapshot. */
    predicate NeedsProfile()
      reads this
    {
      TruthyString(token) && dealer.None?
    }

    /**
     * The mount effect: a truthy stored token is adopted and loading goes on (the token effect
     * will fetch the profile); otherwise loading ends with no token.
     */
    method Mount()
      modifies this
      ensures var saved := Lookup(store.items, DealerTokenKey);
        if TruthyString(saved) then token == saved && isLoading == old(isLoading)
        else token == old(token) && !isLoading
      ensures dealer == old(dealer)
      ensures old(Valid()) ==> Valid()
    {
      var saved := store.GetItem(DealerTokenKey);
      if TruthyString(saved) {
        token := saved;
      } else {
        isLoading := false;
      }
    }

    /** Drops the token and the snapshot, ends loading, and removes `dealerToken` (and no other key). */
    method ClearAuthState()
      modifies this, store
      ensures dealer == None && token == None && !isLoading
      ensures store.items == old(store.items) - {DealerTokenKey}
      ensures Valid()
    {
      dealer := None;
      token := None;
      isLoading := false;
      store.RemoveItem(DealerTokenKey);
    }

    /**
     * `fetchDealerProfile`, given the outcome of `GET /api/dealers/profile`. Without a truthy
     * token only loading ends. A successful reply sets the snapshot; a rejected or failed one
     * clears everything. Loading always ends.
     */
    method FetchDealerProfile(reply: Reply<Dealer>)
      modifies this, store
      ensures !isLoading
      ensures !TruthyString(old(token)) ==>
        dealer == old(dealer) && token == old(token) && store.items == old(store.items)
      ensures TruthyString(old(token)) && reply.Ok? ==>
        dealer == Some(reply.body) && token == old(token) && store.items == old(store.items)
      ensures TruthyString(old(token)) && !reply.Ok? ==>
        dealer == None && token == None && store.items == old(store.items) - {DealerTokenKey}
      ensures old(Valid()) ==> Valid()
    {
      if !TruthyString(token) {
        isLoading := false;
        return;
      }
      match reply {
        case Ok(d) => dealer := Some(d);
        case Rejected(_) => ClearAuthState();
        case TransportError => ClearAuthState();
      }
      isLoading := false;
    }

    /**
     * The token effect: when a truthy token has no snapshot, loading restarts and the profile
     * is fetched (`reply` is the outcome of that fetch); otherwise nothing happens.
     */
    method OnTokenChange(reply: Reply<Dealer>) returns (fetched: bool)
      modifies this, store
      ensures fetched == old(NeedsProfile())
      ensures !fetched ==>
        dealer == old(dealer) && token == old(token)
        && isLoading == old(isLoading) && store.items == old(store.items)
      ensures fetched && reply.Ok? ==>
        dealer == Some(reply.body) && token == old(token)
        && !isLoading && IsAuthenticated() && store.items == old(store.items)
      ensures fetched && !reply.Ok? ==>
        dealer == None && token == None && !isLoading
        && store.items == old(store.items) - {DealerTokenKey}
      ensures old(Valid()) ==> Valid()
    {
      fetched := NeedsProfile();
      if fetched {
        isLoading := true;
        FetchDealerProfile(reply);
      }
    }

    /**
     * `login`, given the outcome of `POST /api/dealers/login`. Only a successful reply changes
     * anything: the token is stored and held, the snapshot is the one returned, loading ends and
     * the result is true. A rejected or failed call returns false and leaves everything as it was.
     */
    method Login(reply: Reply<LoginReply>) returns (ok: bool)
      modifies this, store
      ensures ok <==> reply.Ok?
      ensures ok ==>
        token == Some(reply.body.token) && dealer == reply.body.dealer && !isLoading
        && store.items == old(store.items)[DealerTokenKey := reply.body.token]
      ensures !ok ==>
        dealer == old(dealer) && token == old(token) && isLoading == old(isLoading)
        && store.items == old(store.items)
      ensures ok && dealer.Some? ==> !NeedsProfile()
      ensures old(Valid()) ==> Valid()
    {
      match reply {
        case Ok(data) =>
          store.SetItem(DealerTokenKey, data.token);
          token := Some(data.token);
          dealer := data.dealer;
          isLoading := false;
          ok := true;
        case Rejected(_) =>
          ok := false;
        case TransportError =>
          ok := false;
      }
    }

    /** `loginWithToken`: stores and holds the token with its snapshot; the loading flag is left alone. */
    method LoginWithToken(newToken: string, dealerData: Dealer)
      modifies this, store
      ensures token == Some(newToken) && dealer == Some(dealerData) && isLoading == old(isLoading)
      ensures store.items == old(store.items)[DealerTokenKey := newToken]
      ensures IsAuthenticated() && !NeedsProfile()
      ensures Valid()
    {
      store.SetItem(DealerTokenKey, newToken);
      token := Some(newToken);
      dealer := Some(dealerData);
    }

    /**
     * `logout`: the server is told only when a truthy token is held (`serverCalled`); whatever it
     * answers, the provider ends signed out and `dealerToken` is removed. Other keys, such as the
     * `currentDealer` snapshot a user-side login may have written, stay behind.
     */
    method Logout() returns (serverCalled: bool)
      modifies this, store
      ensures serverCalled == TruthyString(old(token))
      ensures dealer == None && token == None && !isLoading && !IsAuthenticated()
      ensures store.items == old(store.items) - {DealerTokenKey}
      ensures Valid()
    {
      serverCalled := TruthyString(token);
      ClearAuthState();
    }
  }

  /**
   * A page load: the provider is created over the storage, mounts, and runs the token effect
   * with `profile` as the outcome of the profile fetch it may start.
   */
  method LoadPage(store: WebStorage, profile: Reply<Dealer>) returns (p: DealerAuthProvider)
    modifies store
    ensures fresh(p) && p.store == store && p.Valid()
    ensures !p.isLoading
    ensures !TruthyString(Lookup(old(store.items), DealerTokenKey)) ==>
      p.token == None && p.dealer == None && store.items == old(store.items)
    ensures TruthyString(Lookup(old(store.items), DealerTokenKey)) && profile.Ok? ==>
      p.token == Lookup(old(store.items), DealerTokenKey) && p.dealer == Some(profile.body)
      && p.IsAuthenticated() && store.items == old(store.items)
    ensures TruthyString(Lookup(old(store.items), DealerTokenKey)) && !profile.Ok? ==>
      p.token == None && p.dealer == None && store.items == old(store.items) - {DealerTokenKey}
  {
    p := new DealerAuthProvider(store);
    p.Mount();
    var _ := p.OnTokenChange(profile);
  }
}
