/**
 * How the providers meet in the shared storage: a dealer who signs in through the individual
 * sign-in form is handed over to the dealer provider by the page reload that follows, and a
 * later dealer sign-out removes only the token, leaving the cached dealer snapshots behind.
 */
module Sessions {
  import opened Wrappers
  import opened BrowserStorage
  import opened Profiles
  import opened DealerAuth
  import opened UserAuth

  /**
   * A dealer account signs in on the user form, the page reloads (a fresh dealer provider mounts
   * over the same storage and fetches the profile with outcome `profile`), then the dealer signs
   * out. `signedIn` is whether the dealer provider was authenticated before signing out.
   */
  method HandoffThenSignOut(store: WebStorage, token: string, dealer: Dealer, dealerUser: Option<User>,
                            profile: Reply<Dealer>)
    returns (signedIn: bool)
    requires token != ""
    modifies store
    ensures signedIn <==> profile.Ok?
    ensures DealerTokenKey !in store.items
    ensures Lookup(store.items, CurrentDealerKey) == Some(EncodeDealer(dealer))
    ensures dealerUser.Some? ==> Lookup(store.items, CurrentDealerUserKey) == Some(EncodeUser(dealerUser.value))
    ensures dealerUser.None? ==> Lookup(store.items, CurrentDealerUserKey) == Lookup(old(store.items), CurrentDealerUserKey)
    ensures Lookup(store.items, CurrentUserKey) == Lookup(old(store.items), CurrentUserKey)
  {
    var users := new UserAuthProvider(store);
    var ok := users.Login(Ok(DealerAccount(token, Some(dealer), dealerUser)));
    assert users.reloadTo == Some("/");
    assert Lookup(store.items, DealerTokenKey) == Some(token);
    var dealers := LoadPage(store, profile);
    signedIn := dealers.IsAuthenticated();
    var _ := dealers.Logout();
  }
}
