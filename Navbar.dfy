/** The navigation bar: it copies the session out of storage on every route change
    and shows links by whether a token is present and which role flags are set.
    The mobile menu shows the same links behind a toggle button. */
module Navbar {
  import opened Browser
  import opened SessionStore

  datatype Link = Home | Profile | Dashboard | LogoutLink | LoginLink | Register

  /** The links of the desktop menu for the session the bar holds. */
  function Links(user: Option<string>, isSuperuser: bool, isStaff: bool): (r: seq<Link>)
    ensures |r| > 0 && r[0] == Home
    ensures Profile in r <==> Truthy(user)
    ensures LogoutLink in r <==> Truthy(user)
    ensures LoginLink in r <==> !Truthy(user)
    ensures Register in r <==> !Truthy(user)
    ensures Dashboard in r <==> Truthy(user) && (isSuperuser || isStaff)
  {
    if Truthy(user) then
      [Home, Profile] + (if isSuperuser || isStaff then [Dashboard] else []) + [LogoutLink]
    else
      [Home, LoginLink, Register]
  }

  /** The links of the mobile menu: none while it is closed, the desktop set while open. */
  function MobileLinks(isMenuOpen: bool, user: Option<string>, isSuperuser: bool, isStaff: bool): (r: seq<Link>)
    ensures !isMenuOpen ==> r == []
    ensures isMenuOpen ==> forall l :: l in r <==> l in Links(user, isSuperuser, isStaff)
  {
    if isMenuOpen then Links(user, isSuperuser, isStaff) else []
  }

  /** Without a token the Dashboard link is hidden in both menus, whatever role
      flags are still stored. */
  lemma NoDashboardWithoutToken(items: map<string, string>, isMenuOpen: bool)
    requires !HasToken(items)
    ensures Dashboard !in Links(ReadSession(items).user, ReadSession(items).isSuperuser, ReadSession(items).isStaff)
    ensures Dashboard !in MobileLinks(isMenuOpen, ReadSession(items).user, ReadSession(items).isSuperuser, ReadSession(items).isStaff)
  {
  }

  /** Over any sequence of logins and logouts from a logged-out browser, the
      Dashboard link is shown only when the latest successful login granted the
      superuser or staff role and no logout has run since. */
  lemma DashboardLinkFromLatestLogin(start: map<string, string>, evs: seq<SessionEvent>)
    requires !HasToken(start)
    requires Dashboard in Links(ReadSession(Replay(start, evs)).user,
                                ReadSession(Replay(start, evs)).isSuperuser,
                                ReadSession(Replay(start, evs)).isStaff)
    ensures exists i :: (0 <= i < |evs| && evs[i].LoginSucceeded? &&
                         (evs[i].creds.isSuperuser || evs[i].creds.isStaff) &&
                         (forall j :: i < j < |evs| ==> evs[j].LoginFailed?))
  {
    LatestLoginDecides(start, evs);
  }

  class NavigationBar {
    var isMenuOpen: bool
    var user: Option<string>
    var isSuperuser: bool
    var isStaff: bool

    /** The initial state reads the session from storage, with the menu closed. */
    constructor (store: Store)
      ensures !isMenuOpen
      ensures Session(user, isSuperuser, isStaff) == ReadSession(store.items)
    {
      isMenuOpen := false;
      user := Lookup(store.items, TokenKey);
      isSuperuser := DecodeFlag(Lookup(store.items, SuperuserKey));
      isStaff := DecodeFlag(Lookup(store.items, StaffKey));
    }

    /** The effect that runs on every location change: re-read the session. */
    method OnLocationChange(store: Store)
      modifies this
      ensures Session(user, isSuperuser, isStaff) == ReadSession(store.items)
      ensures isMenuOpen == old(isMenuOpen)
    {
      user := Lookup(store.items, TokenKey);
      isSuperuser := DecodeFlag(Lookup(store.items, SuperuserKey));
      isStaff := DecodeFlag(Lookup(store.items, StaffKey));
    }

    /** The menu button flips the mobile menu. */
    method ToggleMenu()
      modifies this
      ensures isMenuOpen == !old(isMenuOpen)
      ensures user == old(user) && isSuperuser == old(isSuperuser) && isStaff == old(isStaff)
    {
      isMenuOpen := !isMenuOpen;
    }
  }
}
