/**
 * The individual-user identity provider: a user snapshot and a loading flag, a session check
 * that falls back to the `currentUser` cache when the server cannot be reached, and a login
 * that hands dealer accounts over to the dealer provider through the shared storage.
 */
module UserAuth {
  import opened Wrappers
  import opened JsValues
  import opened BrowserStorage
  import opened Profiles
  import DealerAuth

  const CurrentUserKey := "currentUser"
  const CurrentDealerKey := "currentDealer"
  const CurrentDealerUserKey := "currentDealerUser"

  /** The body of a successful `POST /api/users/login`, told apart by its `accountType`. */
  datatype LoginReply =
    | DealerAccount(token: string, dealer: Option<Dealer>, dealerUser: Option<User>)
    | Individual(user: Option<User>)

  /** What `JSON.stringify` stores for a dealer snapshot that may be missing (`undefined`). */
  function DealerCacheText(d: Option<Dealer>): string {
    match d
    case Some(dealer) => EncodeDealer(dealer)
    case None => "undefined"
  }

  /**
   * What `JSON.parse` makes of the cached user text: a user snapshot, the value `null`, or a
   * parse error.
   */
  datatype CachedUser = CachedSnapshot(u: User) | CachedNull | Unparsable

  function ParseCachedUser(s: string): (r: CachedUser)
    ensures r == CachedNull <==> s == "null"
    ensures r.CachedSnapshot? ==> DecodeUser(s) == Some(r.u)
    ensures r == Unparsable <==> s != "null" && DecodeUser(s).None?
  {
    if s == "null" then CachedNull
    else match DecodeUser(s)
      case Some(u) => CachedSnapshot(u)
      case None => Unparsable
  }

  /** A snapshot the provider cached reads back as that user, never as `null`. */
  lemma CachedUserReadsBack(u: User)
    ensures ParseCachedUser(EncodeUser(u)) == CachedSnapshot(u)
  {
    DecodeEncodedUser(u);
    NullIsNoSnapshot();
  }

  /** The text `null` is not the cached form of any user. */
  lemma NullIsNoSnapshot()
    ensures DecodeUser("null").None?
  {
    assert LeadingDigits("null") == 0;
  }

  class UserAuthProvider {
    var user: Option<User>
    var isLoading: bool
    /** Where `window.location.href` was last sent, if anywhere. */
    var reloadTo: Option<string>
    const store: WebStorage

    /** A held user is always the one the `currentUser` cache reads back as. */
    ghost predicate Valid()
      reads this, store
    {
      user.Some? ==> CurrentUserKey in store.items && DecodeUser(store.items[CurrentUserKey]) == user
    }

    constructor (store: WebStorage)
      ensures this.store == store
      ensures user == None && isLoading && reloadTo == None
      ensures Valid()
    {
      this.store := store;
      user := None;
      isLoading := true;
      reloadTo := None;
    }

    /** `isAuthenticated`: a user snapshot is present. */
    predicate IsAuthenticated()
      reads this
    {
      user.Some?
    }

    /**
     * `checkAuth`, given the outcome of `GET /api/auth/user`. A session reply is adopted and
     * cached; a rejection clears the cache and the user; only when the server cannot be reached
     * is a truthy cache read back: a user is adopted, a cached `null` is kept and gives no user,
     * and a cache that does not parse is removed. Loading ends on every branch.
     */
    method CheckAuth(reply: Reply<User>)
      modifies this, store
      ensures !isLoading && reloadTo == old(reloadTo)
      ensures reply.Ok? ==>
        user == Some(reply.body)
        && store.items == old(store.items)[CurrentUserKey := EncodeUser(reply.body)]
      ensures reply.Rejected? ==>
        user == None && store.items == old(store.items) - {CurrentUserKey}
      ensures reply.TransportError? ==>
        var cached := Lookup(old(store.items), CurrentUserKey);
        if !TruthyString(cached) then user == None && store.items == old(store.items)
        else match ParseCachedUser(cached.value)
          case CachedSnapshot(u) => user == Some(u) && store.items == old(store.items)
          case CachedNull => user == None && store.items == old(store.items)
          case Unparsable => user == None && store.items == old(store.items) - {CurrentUserKey}
      ensures Valid()
    {
      match reply {
        case Ok(u) =>
          user := Some(u);
          store.SetItem(CurrentUserKey, EncodeUser(u));
          DecodeEncodedUser(u);
        case Rejected(_) =>
          store.RemoveItem(CurrentUserKey);
          user := None;
        case TransportError =>
          var stored := store.GetItem(CurrentUserKey);
          if TruthyString(stored) {
            match ParseCachedUser(stored.value) {
              case CachedSnapshot(u) =>
                user := Some(u);
              case CachedNull =>
                user := None;
              case Unparsable =>
                store.RemoveItem(CurrentUserKey);
                user := None;
            }
          } else {
            user := None;
          }
      }
      isLoading := false;
    }

    /**
     * `login`, given the outcome of `POST /api/users/login`. A dealer account is handed over:
     * `dealerToken` and `currentDealer` are written, `currentDealerUser` only when a user came
     * with it, the user snapshot is left alone and the page reloads at `/`. An individual reply
     * with a user signs that user in and caches it. Anything else returns false and changes nothing.
     */
    method Login(reply: Reply<LoginReply>) returns (ok: bool)
      modifies this, store
      ensures isLoading == old(isLoading)
      ensures ok <==> reply.Ok? && (reply.body.DealerAccount? || reply.body.user.Some?)
      ensures !ok ==>
        user == old(user) && reloadTo == old(reloadTo) && store.items == old(store.items)
      ensures ok && reply.body.DealerAccount? ==>
        var data := reply.body;
        var written := old(store.items)[DealerAuth.DealerTokenKey := data.token]
          [CurrentDealerKey := DealerCacheText(data.dealer)];
        user == old(user) && reloadTo == Some("/")
        && store.items == (if data.dealerUser.Some?
                           then written[CurrentDealerUserKey := EncodeUser(data.dealerUser.value)]
                           else written)
      ensures ok && reply.body.Individual? ==>
        user == reply.body.user && reloadTo == old(reloadTo)
        && store.items == old(store.items)[CurrentUserKey := EncodeUser(reply.body.user.value)]
      ensures old(Valid()) ==> Valid()
    {
      ok := false;
      if reply.Ok? {
        match reply.body {
          case DealerAccount(token, dealer, dealerUser) =>
            store.SetItem(DealerAuth.DealerTokenKey, token);
            store.SetItem(CurrentDealerKey, DealerCacheText(dealer));
            if dealerUser.Some? {
              store.SetItem(CurrentDealerUserKey, EncodeUser(dealerUser.value));
            }
            reloadTo := Some("/");
            ok := true;
          case Individual(u) =>
            if u.Some? {
              user := u;
              store.SetItem(CurrentUserKey, EncodeUser(u.value));
              DecodeEncodedUser(u.value);
              ok := true;
            }
        }
      }
    }

    /** `logout`: whatever the server answers, the user is dropped, its cache removed and the page reloads at `/`. */
    method Logout()
      modifies this, store
      ensures user == None && !IsAuthenticated() && isLoading == old(isLoading)
      ensures reloadTo == Some("/")
      ensures store.items == old(store.items) - {CurrentUserKey}
      ensures Valid()
    {
      user := None;
      store.RemoveItem(CurrentUserKey);
      reloadTo := Some("/");
    }
  }
}
