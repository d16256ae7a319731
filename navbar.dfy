/** The navigation bar: the page links, the wallet menu's open/closed flag, the address
    abbreviation and which controls are enabled for the session. */
module Navbar {
  import opened Builtins
  import Providers

  /** The pages `onNavigate` is called with. */
  datatype Page = Home | Game | Leaderboard

  /** `formatAddress`: empty stays empty, otherwise the first 6 and last 4 characters. */
  function FormatAddress(a: string): (r: string)
    ensures a == "" ==> r == ""
    ensures a != "" ==> |r| == Min(6, |a|) + 3 + Min(4, |a|)
    ensures a != "" ==> r == a[..Min(6, |a|)] + "..." + a[|a| - Min(4, |a|)..]
    ensures |a| >= 10 ==> |r| == 13 && r[..6] == a[..6] && r[6..9] == "..." && r[9..] == a[|a| - 4..]
  {
    if a == "" then "" else Abbreviate(a, 6, 4)
  }

  /** The display name fallback of the session and the navbar's abbreviation agree on
      every non-empty address. */
  lemma DisplayNameFallbackIsFormatAddress(f: Option<Providers.FarcasterUser>, a: string)
    requires a != ""
    requires !(f.Some? && Present(f.value.username))
    ensures Providers.DisplayName(f, a) == FormatAddress(a)
  {
  }

  /** What the navbar renders for a session. */
  datatype Controls = Controls(playDisabled: bool, showConnect: bool, connectDisabled: bool,
                               walletName: string, walletAddress: string)

  function ControlsFor(isAuthenticated: bool, isLoading: bool, user: Option<Providers.User>): (c: Controls)
    ensures c.playDisabled <==> !isAuthenticated
    ensures c.showConnect <==> !isAuthenticated
    ensures c.connectDisabled <==> isLoading
    ensures user.Some? && user.value.displayName != "" ==> c.walletName == user.value.displayName
    ensures !(user.Some? && user.value.displayName != "") ==> c.walletName == "Player"
    ensures user.None? ==> c.walletAddress == ""
    ensures user.Some? ==> c.walletAddress == FormatAddress(user.value.address)
  {
    Controls(!isAuthenticated, !isAuthenticated, isLoading,
             if user.Some? && user.value.displayName != "" then user.value.displayName else "Player",
             FormatAddress(if user.Some? then user.value.address else ""))
  }

  class NavbarState {
    var isMenuOpen: bool

    constructor ()
      ensures !isMenuOpen
    {
      isMenuOpen := false;
    }

    /** The wallet button and the mobile toggle. */
    method ToggleMenu()
      modifies this
      ensures isMenuOpen == !old(isMenuOpen)
    {
      isMenuOpen := !isMenuOpen;
    }

    /** `handleNavigation`: the page is forwarded when an `onNavigate` handler is given;
        the menu ends closed either way. */
    method Navigate(page: Page, hasOnNavigate: bool) returns (forwarded: Option<Page>)
      modifies this
      ensures forwarded == (if hasOnNavigate then Some(page) else None)
      ensures !isMenuOpen
    {
      forwarded := None;
      if hasOnNavigate {
        forwarded := Some(page);
      }
      isMenuOpen := false;
    }

    /** The Disconnect buttons: sign out, then close the menu. */
    method Disconnect(session: Providers.Session)
      modifies this, session`user, session`isAuthenticated, session`playerStats, session`walletAddress
      ensures !isMenuOpen
      ensures session.user == None && !session.isAuthenticated
      ensures session.playerStats == None && session.walletAddress == None
      ensures session.isLoading == old(session.isLoading)
      ensures session.farcasterUser == old(session.farcasterUser)
    {
      session.SignOut();
      isMenuOpen := false;
    }
  }
}
