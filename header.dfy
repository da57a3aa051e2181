/**
 * The site header's account menu: how the dealer and the individual-user identities are
 * combined into one signed-in view. Wherever a dealer snapshot exists, the dealer side wins.
 */
module Header {
  import opened Wrappers
  import opened JsValues
  import opened Profiles

  datatype Identity = DealerIdentity(dealer: Dealer) | UserIdentity(user: User)

  /** `dealer || user`. */
  function CurrentUser(dealer: Option<Dealer>, user: Option<User>): (r: Option<Identity>)
    ensures dealer.Some? ==> r == Some(DealerIdentity(dealer.value))
    ensures dealer.None? && user.Some? ==> r == Some(UserIdentity(user.value))
    ensures r.None? <==> dealer.None? && user.None?
  {
    if dealer.Some? then Some(DealerIdentity(dealer.value))
    else if user.Some? then Some(UserIdentity(user.value))
    else None
  }

  /** `isLoggedIn`: either provider reports an authenticated identity. */
  predicate IsLoggedIn(dealerIsAuthenticated: bool, userIsAuthenticated: bool) {
    dealerIsAuthenticated || userIsAuthenticated
  }

  /**
   * With both providers' `isAuthenticated` being "a snapshot is present", the header shows the
   * signed-in menu exactly when it has a current identity to show.
   */
  lemma LoggedInIffIdentity(dealer: Option<Dealer>, user: Option<User>)
    ensures IsLoggedIn(dealer.Some?, user.Some?) <==> CurrentUser(dealer, user).Some?
  {
  }

  datatype LogoutHandler = DealerLogout | UserLogout

  /** `handleLogout`: the dealer provider's logout whenever a dealer snapshot exists. */
  function LogoutTarget(dealer: Option<Dealer>): (h: LogoutHandler)
    ensures h == DealerLogout <==> dealer.Some?
  {
    if dealer.Some? then DealerLogout else UserLogout
  }

  /**
   * `userDisplayName`. A dealer shows the contact name, or the company name when that is empty.
   * A user shows "first last" with the outer spaces trimmed, or the e-mail when that is blank.
   * Nobody signed in shows nothing.
   */
  function DisplayName(dealer: Option<Dealer>, user: Option<User>): (name: string)
    ensures dealer.Some? ==>
      name == (if dealer.value.contactName != "" then dealer.value.contactName else dealer.value.companyName)
    ensures dealer.None? && user.Some? ==>
      var full := user.value.firstName + " " + user.value.lastName;
      (IsBlank(full) ==> name == user.value.email)
      && (!IsBlank(full) ==>
            name == Trim(full) && name != ""
            && !IsWhitespace(name[0]) && !IsWhitespace(name[|name| - 1]))
    ensures dealer.None? && user.None? ==> name == ""
  {
    match dealer
    case Some(d) => if d.contactName != "" then d.contactName else d.companyName
    case None =>
      match user
      case Some(u) =>
        var full := Trim(u.firstName + " " + u.lastName);
        if full != "" then full else u.email
      case None => ""
  }

  /** A user whose names are both empty is shown by e-mail: the separating space alone trims away. */
  lemma NamelessUserShowsEmail(u: User)
    requires u.firstName == "" && u.lastName == ""
    ensures DisplayName(None, Some(u)) == u.email
  {
    assert IsBlank(u.firstName + " " + u.lastName);
  }

  /** The role line of the mobile menu. */
  function RoleLabel(dealer: Option<Dealer>): (role: string)
    ensures role == "Dealer" <==> dealer.Some?
    ensures role == "Dealer" || role == "Individual"
  {
    if dealer.Some? then "Dealer" else "Individual"
  }

  datatype MenuLink = DealerDashboard | MyDashboard

  /** The dashboard links of the account menu: each side contributes its own, and both can show. */
  function DashboardLinks(dealer: Option<Dealer>, user: Option<User>): (links: set<MenuLink>)
    ensures DealerDashboard in links <==> dealer.Some?
    ensures MyDashboard in links <==> user.Some?
  {
    (if dealer.Some? then {DealerDashboard} else {}) + (if user.Some? then {MyDashboard} else {})
  }

  /**
   * Dealer wins: with both a dealer and a user signed in, the identity, the name, the role and
   * the sign-out action all come from the dealer side, while both dashboard links still show.
   */
  lemma DealerWins(d: Dealer, u: User)
    ensures CurrentUser(Some(d), Some(u)) == Some(DealerIdentity(d))
    ensures LogoutTarget(Some(d)) == DealerLogout
    ensures DisplayName(Some(d), Some(u)) == DisplayName(Some(d), None)
    ensures RoleLabel(Some(d)) == "Dealer"
    ensures DashboardLinks(Some(d), Some(u)) == {DealerDashboard, MyDashboard}
  {
  }
}
