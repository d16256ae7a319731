/** The application session provider: the wallet address mirrored from the wallet
    library, the authenticated user derived from it, the player's on-chain stats, the
    connector choice of `connectWallet` and `signOut`. Each React effect is one method
    that runs when its dependencies change; the wallet library's state and the replies
    of its reads are the methods' inputs. */
module Providers {
  import opened Builtins

  /** The Farcaster mini-app context user, as the SDK reports it. */
  datatype ContextUser = ContextUser(fid: int, username: Option<string>, displayName: Option<string>)

  datatype FarcasterUser = FarcasterUser(fid: int, username: Option<string>)

  datatype User = User(address: string, displayName: string, fid: Option<int>, username: Option<string>)

  /** `getPlayerStats` as read; the token total stays in the smallest unit (wei). */
  datatype PlayerStats = PlayerStats(totalGames: nat, bestScore: nat, totalTokensWei: nat)

  const FarcasterConnector := "Farcaster Miniapp"
  const InjectedConnector := "Injected"

  /** `context.user.username || context.user.displayName`. */
  function FromContext(u: ContextUser): (f: FarcasterUser)
    ensures f.fid == u.fid
    ensures Present(u.username) ==> f.username == u.username
    ensures !Present(u.username) ==> f.username == u.displayName
  {
    FarcasterUser(u.fid, if Present(u.username) then u.username else u.displayName)
  }

  /** The display name: the Farcaster username when there is one, otherwise the address
      cut to its first 6 and last 4 characters. */
  function DisplayName(f: Option<FarcasterUser>, address: string): (n: string)
    ensures f.Some? && Present(f.value.username) ==> n == f.value.username.value
    ensures !(f.Some? && Present(f.value.username)) && |address| >= 10 ==>
      |n| == 13 && n[..6] == address[..6] && n[6..9] == "..." && n[9..] == address[|address| - 4..]
    ensures !(f.Some? && Present(f.value.username)) ==>
      n == address[..Min(6, |address|)] + "..." + address[|address| - Min(4, |address|)..]
  {
    if f.Some? && Present(f.value.username) then f.value.username.value
    else Abbreviate(address, 6, 4)
  }

  /** The wallet-sync effect: the address the local state takes after it runs. */
  function NextWalletAddress(isConnected: bool, wagmiAddress: Option<string>, current: Option<string>): (r: Option<string>)
    ensures isConnected && Present(wagmiAddress) ==> r == wagmiAddress
    ensures isConnected && !Present(wagmiAddress) ==> r == current
    ensures !isConnected ==> !Present(r)
    ensures !isConnected && !Present(current) ==> r == current
  {
    if isConnected && Present(wagmiAddress) && wagmiAddress != current then wagmiAddress
    else if !isConnected && Present(current) then None
    else current
  }

  /** `connectWallet`'s choice: the Farcaster connector, else the injected one, else none
      (the source throws, and its own `catch` only logs). */
  function ChooseConnector(names: seq<string>): (c: Option<string>)
    ensures c == Some(FarcasterConnector) <==> FarcasterConnector in names
    ensures c == Some(InjectedConnector) <==> FarcasterConnector !in names && InjectedConnector in names
    ensures c.None? <==> FarcasterConnector !in names && InjectedConnector !in names
  {
    if FarcasterConnector in names then Some(FarcasterConnector)
    else if InjectedConnector in names then Some(InjectedConnector)
    else None
  }

  /** `isLoading` after `connectWallet` AS WRITTEN: the callback tests the `isLoading`
      value captured when it was created both before and in `finally`, so it flips the
      flag instead of clearing it. */
  function LoadingAfterConnectAsWritten(wasLoading: bool): bool {
    var loading := if !wasLoading then true else wasLoading;
    if wasLoading then false else loading
  }

  /** A click on Connect, possible only while `isLoading` is false, leaves the flag set,
      so the Connect button stays disabled and reads "Connecting..." afterwards. */
  lemma ConnectLeavesLoadingStuck()
    ensures LoadingAfterConnectAsWritten(false)
  {
  }

  class Session {
    var walletAddress: Option<string>
    var user: Option<User>
    var isAuthenticated: bool
    var playerStats: Option<PlayerStats>
    var isLoading: bool
    var farcasterUser: Option<FarcasterUser>

    /** The provider's initial state. */
    constructor ()
      ensures walletAddress == None && user == None && !isAuthenticated
      ensures playerStats == None && isLoading && farcasterUser == None
    {
      walletAddress, user, isAuthenticated := None, None, false;
      playerStats, isLoading, farcasterUser := None, true, None;
    }

    /** What the auth-sync effect establishes: authenticated exactly when a wallet
        address is set, the user mirrors that address, and without one nothing is kept. */
    predicate AuthSynced()
      reads this
    {
      && (isAuthenticated <==> Present(walletAddress))
      && (Present(walletAddress) ==>
            user.Some? && user.value.address == walletAddress.value &&
            user.value.displayName == DisplayName(farcasterUser, walletAddress.value))
      && (!Present(walletAddress) ==> user.None? && playerStats.None?)
    }

    /** `initFarcaster`: adopts the context user when the SDK has one; loading ends. */
    method InitFarcaster(context: Option<ContextUser>)
      modifies this`farcasterUser, this`isLoading
      ensures farcasterUser == (if context.Some? then Some(FromContext(context.value)) else old(farcasterUser))
      ensures !isLoading
    {
      if context.Some? {
        farcasterUser := Some(FromContext(context.value));
      }
      isLoading := false;
    }

    /** The wallet-sync effect. */
    method SyncWallet(isConnected: bool, wagmiAddress: Option<string>)
      modifies this`walletAddress
      ensures walletAddress == NextWalletAddress(isConnected, wagmiAddress, old(walletAddress))
    {
      if isConnected && Present(wagmiAddress) && wagmiAddress != walletAddress {
        walletAddress := wagmiAddress;
      } else if !isConnected && Present(walletAddress) {
        walletAddress := None;
      }
    }

    /** The player-stats effect: stats are kept only while both the read data and the
        wallet library's address are present; games and best score are copied as read. */
    method SyncPlayerStats(data: Option<PlayerStats>, wagmiAddress: Option<string>)
      modifies this`playerStats
      ensures playerStats.Some? <==> data.Some? && Present(wagmiAddress)
      ensures playerStats.Some? ==> playerStats == data
    {
      if data.Some? && Present(wagmiAddress) {
        var PlayerStats(totalGames, bestScore, totalTokens) := data.value;
        playerStats := Some(PlayerStats(totalGames, bestScore, totalTokens));
      } else {
        playerStats := None;
      }
    }

    /** The auth-sync effect. */
    method SyncAuth()
      modifies this`user, this`isAuthenticated, this`playerStats
      ensures AuthSynced()
      ensures Present(walletAddress) ==> playerStats == old(playerStats)
      ensures Present(walletAddress) ==>
        user == Some(User(walletAddress.value, DisplayName(farcasterUser, walletAddress.value),
                          if farcasterUser.Some? then Some(farcasterUser.value.fid) else None,
                          if farcasterUser.Some? then farcasterUser.value.username else None))
    {
      if Present(walletAddress) {
        var address := walletAddress.value;
        var displayName := DisplayName(farcasterUser, address);
        user := Some(User(address, displayName,
                          if farcasterUser.Some? then Some(farcasterUser.value.fid) else None,
                          if farcasterUser.Some? then farcasterUser.value.username else None));
        isAuthenticated := true;
      } else {
        user := None;
        isAuthenticated := false;
        playerStats := None;
      }
    }

    /** `connectWallet`, with `isLoading` cleared when it ends, as evidently intended
        (see `LoadingAfterConnectAsWritten` for the code as written). */
    method ConnectWallet(connectorNames: seq<string>) returns (chosen: Option<string>)
      modifies this`isLoading
      ensures chosen == ChooseConnector(connectorNames)
      ensures !isLoading
    {
      isLoading := true;
      if FarcasterConnector in connectorNames {
        chosen := Some(FarcasterConnector);
      } else if InjectedConnector in connectorNames {
        chosen := Some(InjectedConnector);
      } else {
        chosen := None;
      }
      isLoading := false;
    }

    /** `signOut`: every piece of session state is cleared. */
    method SignOut()
      modifies this`user, this`isAuthenticated, this`playerStats, this`walletAddress
      ensures user == None && !isAuthenticated && playerStats == None && walletAddress == None
      ensures AuthSynced()
    {
      user := None;
      isAuthenticated := false;
      playerStats := None;
      walletAddress := None;
    }
  }

  /** The wallet-sync effect followed by the auth-sync effect it triggers: a connected
      wallet with an address authenticates that address; a disconnected wallet leaves
      no one authenticated and no stats. */
  method SyncSession(s: Session, isConnected: bool, wagmiAddress: Option<string>)
    modifies s
    ensures s.AuthSynced()
    ensures isConnected && Present(wagmiAddress) ==>
      s.isAuthenticated && s.user.Some? && s.user.value.address == wagmiAddress.value
    ensures !isConnected ==> !s.isAuthenticated && s.user.None? && s.playerStats.None?
  {
    s.SyncWallet(isConnected, wagmiAddress);
    s.SyncAuth();
  }
}
