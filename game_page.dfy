/** The game page: the page route map, the guard chain `handleGameComplete` runs before
    it writes a score, the tuple it submits, and the `blockchainStatus` state machine
    driven by the wallet library's write and receipt results. */
module GamePage {
  import opened Builtins
  import Navbar

  /** `handleNavigation`: the route each navbar page is pushed to. */
  function Route(p: Navbar.Page): (path: string)
    ensures p == Navbar.Home ==> path == "/"
    ensures p == Navbar.Game ==> path == "/game"
    ensures p == Navbar.Leaderboard ==> path == "/scores"
  {
    match p
    case Home => "/"
    case Game => "/game"
    case Leaderboard => "/scores"
  }

  /** Distinct pages go to distinct routes. */
  lemma RouteInjective(p: Navbar.Page, q: Navbar.Page)
    requires Route(p) == Route(q)
    ensures p == q
  {
  }

  /** The Somnia testnet chain id the page expects. */
  const SomniaChainId := 50312
  const ZeroAddress := "0x0000000000000000000000000000000000000000"

  /** A configured contract address is neither empty nor the zero address. */
  predicate ValidContractAddress(a: string) {
    a != "" && a != ZeroAddress
  }

  /** What `handleGameComplete` reads when it runs: the session, the wallet library's
      account and chain, whether `switchChain` would succeed, and the configured address. */
  datatype CompletionContext = CompletionContext(
    isAuthenticated: bool, userAddress: Option<string>,
    isConnected: bool, walletAddress: Option<string>,
    chainId: int, switchSucceeds: bool,
    contractAddress: string)

  /** Why a completed game is not submitted. */
  datatype Rejection = NotAuthenticated | WalletNotConnected | SwitchFailed | InvalidContract | ValidationFailed

  function RejectionMessage(r: Rejection): string {
    match r
    case NotAuthenticated => "User not authenticated"
    case WalletNotConnected => "Wallet not connected"
    case SwitchFailed => "Please manually switch to Somnia network in your wallet"
    case InvalidContract => "Invalid contract configuration"
    case ValidationFailed => "Score validation failed"
  }

  /** The first four guards, in the order the source tests them; `None` when all pass. */
  function GuardFailure(c: CompletionContext): (r: Option<Rejection>)
    ensures r == Some(NotAuthenticated) <==> !c.isAuthenticated || !Present(c.userAddress)
    ensures r == Some(WalletNotConnected) <==>
      c.isAuthenticated && Present(c.userAddress) && (!c.isConnected || !Present(c.walletAddress))
    ensures r == Some(SwitchFailed) <==>
      c.isAuthenticated && Present(c.userAddress) && c.isConnected && Present(c.walletAddress) &&
      c.chainId != SomniaChainId && !c.switchSucceeds
    ensures r == Some(InvalidContract) <==>
      c.isAuthenticated && Present(c.userAddress) && c.isConnected && Present(c.walletAddress) &&
      (c.chainId == SomniaChainId || c.switchSucceeds) && !ValidContractAddress(c.contractAddress)
    ensures r.None? <==>
      c.isAuthenticated && Present(c.userAddress) && c.isConnected && Present(c.walletAddress) &&
      (c.chainId == SomniaChainId || c.switchSucceeds) && ValidContractAddress(c.contractAddress)
    ensures r != Some(ValidationFailed)
  {
    if !c.isAuthenticated || !Present(c.userAddress) then Some(NotAuthenticated)
    else if !c.isConnected || !Present(c.walletAddress) then Some(WalletNotConnected)
    else if c.chainId != SomniaChainId && !c.switchSucceeds then Some(SwitchFailed)
    else if !ValidContractAddress(c.contractAddress) then Some(InvalidContract)
    else None
  }

  /** `Math.floor((end - start) / 1000)`: the elapsed whole seconds. */
  function GameTime(start: int, end: int): (t: int)
    ensures t * 1000 <= end - start < (t + 1) * 1000
    ensures start <= end ==> t >= 0
  {
    (end - start) / 1000
  }

  /** The arguments of `submitScore`, in the order they are passed. */
  datatype SubmitArgs = SubmitArgs(score: int, level: int, gameTime: int, enemiesDestroyed: int, rocketsUsed: int)

  /** The submitted tuple: the level made 1-based, and enemy and rocket counts estimated
      from the score and capped at 50 and 20. */
  function Derive(score: int, level: int, gameTime: int): (a: SubmitArgs)
    ensures a.score == score && a.level == level + 1 && a.gameTime == gameTime
    ensures a.enemiesDestroyed <= 50 && a.enemiesDestroyed <= score / 1000 + a.level
    ensures a.enemiesDestroyed == 50 || a.enemiesDestroyed == score / 1000 + a.level
    ensures a.rocketsUsed <= 20 && a.rocketsUsed <= score / 500 + 2 * a.level
    ensures a.rocketsUsed == 20 || a.rocketsUsed == score / 500 + 2 * a.level
  {
    var adjustedLevel := level + 1;
    SubmitArgs(score, adjustedLevel, gameTime,
               Min(score / 1000 + adjustedLevel, 50),
               Min(score / 500 + adjustedLevel * 2, 20))
  }

  /** Non-negative scores and 0-based levels give non-negative counts. */
  lemma DeriveNonNegative(score: int, level: int, gameTime: int)
    requires score >= 0 && level >= 0
    ensures 1 <= Derive(score, level, gameTime).enemiesDestroyed
    ensures 2 <= Derive(score, level, gameTime).rocketsUsed
  {
  }

  /** What `handleGameComplete` decides before it calls `writeContract`. */
  datatype Decision = Reject(why: Rejection) | Submit(args: SubmitArgs, expectedTokens: int)

  /** The guard chain, then `validateScore` on the 1-based level, then the reward estimate
      for the same level. `validate` and `reward` stand for the library's `validateScore`
      and `calculateExpectedReward`, whose code is not part of this model. */
  function Decide(c: CompletionContext, score: int, level: int, start: int, end: int,
                  validate: (int, int, int) -> bool, reward: (int, int) -> int): (d: Decision)
    ensures GuardFailure(c).Some? ==> d == Reject(GuardFailure(c).value)
    ensures GuardFailure(c).None? && !validate(score, GameTime(start, end), level + 1) ==>
      d == Reject(ValidationFailed)
    ensures d.Submit? <==> GuardFailure(c).None? && validate(score, GameTime(start, end), level + 1)
    ensures d.Submit? ==>
      d.args == Derive(score, level, GameTime(start, end)) && d.expectedTokens == reward(score, level + 1)
  {
    var g := GuardFailure(c);
    if g.Some? then Reject(g.value)
    else
      var t := GameTime(start, end);
      if !validate(score, t, level + 1) then Reject(ValidationFailed)
      else Submit(Derive(score, level, t), reward(score, level + 1))
  }

  /** Validation, the reward estimate and the written arguments all see the same
      1-based level and the same elapsed seconds. */
  lemma SubmissionUsesAdjustedLevel(c: CompletionContext, score: int, level: int, start: int, end: int,
                                    validate: (int, int, int) -> bool, reward: (int, int) -> int)
    requires Decide(c, score, level, start, end, validate, reward).Submit?
    ensures var a := Decide(c, score, level, start, end, validate, reward).args;
      validate(a.score, a.gameTime, a.level) &&
      Decide(c, score, level, start, end, validate, reward).expectedTokens == reward(a.score, a.level)
  {
  }

  datatype Status = Idle | Submitting | Success | Error

  /** The `blockchainStatus` state. */
  datatype BlockchainStatus = BlockchainStatus(status: Status, message: string)

  const Blank := BlockchainStatus(Idle, "")
  const WaitingMessage := "Waiting for blockchain confirmation..."
  const HashMessage := "Transaction submitted, waiting for confirmation..."
  const SavedMessage := "Score saved to blockchain successfully!"
  const RejectedByUser := "Transaction was rejected by user"
  const SubmitFailed := "Failed to submit to blockchain. Please try again."

  /** What the page's effects react to after a submission. */
  datatype Event =
    | WriteError(message: string)    // `writeError` becomes set
    | ReceiptError(message: string)  // `receiptError` becomes set
    | HashReturned                   // `hash` becomes set
    | Confirmed                      // `isSuccess` becomes true
    | ClearTimerFired                // the 5-second timer started on success or error fires

  /** One effect's update of `blockchainStatus`. */
  function Step(s: BlockchainStatus, e: Event): (n: BlockchainStatus)
    ensures e.WriteError? || e.ReceiptError? ==> n.status == Error
    ensures e.HashReturned? ==> n == BlockchainStatus(Submitting, HashMessage)
    ensures e.Confirmed? ==> n == BlockchainStatus(Success, SavedMessage)
    ensures e.ClearTimerFired? && (s.status == Success || s.status == Error) ==> n == Blank
    ensures e.ClearTimerFired? && s.status != Success && s.status != Error ==> n == s
  {
    match e
    case WriteError(m) => BlockchainStatus(Error, "Transaction failed: " + m)
    case ReceiptError(m) => BlockchainStatus(Error, "Receipt error: " + m)
    case HashReturned => BlockchainStatus(Submitting, HashMessage)
    case Confirmed => BlockchainStatus(Success, SavedMessage)
    case ClearTimerFired =>
      if s.status == Success || s.status == Error then Blank else s
  }

  /** The status after a run of events. */
  function Run(s: BlockchainStatus, es: seq<Event>): BlockchainStatus
    decreases |es|
  {
    if es == [] then s else Run(Step(s, es[0]), es[1..])
  }

  /** The idle status never carries a message. */
  predicate Settled(s: BlockchainStatus) {
    s.status == Idle ==> s.message == ""
  }

  /** Every step keeps an idle status blank. */
  lemma StepKeepsSettled(s: BlockchainStatus, e: Event)
    requires Settled(s)
    ensures Settled(Step(s, e))
  {
  }

  /** So does every run of steps. */
  lemma {:induction false} RunKeepsSettled(s: BlockchainStatus, es: seq<Event>)
    requires Settled(s)
    ensures Settled(Run(s, es))
    decreases |es|
  {
    if es != [] {
      StepKeepsSettled(s, es[0]);
      RunKeepsSettled(Step(s, es[0]), es[1..]);
    }
  }

  /** An error or a confirmation followed by the clear timer returns to the blank idle
      status, whatever came before; a pending submission is never cleared by the timer. */
  lemma TerminalThenTimerIsBlank(s: BlockchainStatus, e: Event)
    requires e.WriteError? || e.ReceiptError? || e.Confirmed?
    ensures Run(s, [e, ClearTimerFired]) == Blank
    ensures Step(s, ClearTimerFired).status == Idle <==> s.status != Submitting
    ensures s.status == Submitting ==> Run(s, [ClearTimerFired, ClearTimerFired]) == s
  {
    assert [e, ClearTimerFired][1..] == [ClearTimerFired];
    assert [ClearTimerFired, ClearTimerFired][1..] == [ClearTimerFired];
    assert [ClearTimerFired][1..] == [];
  }

  /** The synchronous outcome of `writeContract`: it returned, or it threw an error whose
      message may be missing. */
  datatype WriteCall = WriteReturned | WriteThrew(message: Option<string>)

  /** The status set by the `catch` of `handleGameComplete`. */
  function ThrowMessage(m: Option<string>): (r: string)
    ensures r == RejectedByUser <==> m.Some? && Contains(m.value, "rejected")
  {
    if m.Some? && Contains(m.value, "rejected") then RejectedByUser else SubmitFailed
  }

  /** `lastGameResult`. */
  datatype GameResult = GameResult(score: int, level: int, tokensEarned: int)

  /** The page's submission state. `writes` records each call of `writeContract`. */
  class SubmissionState {
    var blockchainStatus: BlockchainStatus
    var isSubmittingScore: bool
    var lastGameResult: Option<GameResult>
    var gameStartTime: int
    var writes: seq<SubmitArgs>

    constructor ()
      ensures blockchainStatus == Blank && !isSubmittingScore && lastGameResult == None
      ensures gameStartTime == 0 && writes == []
    {
      blockchainStatus := Blank;
      isSubmittingScore := false;
      lastGameResult := None;
      gameStartTime := 0;
      writes := [];
    }

    predicate Valid()
      reads this
    {
      Settled(blockchainStatus)
    }

    /** The start effect: an unauthenticated visitor is sent home; otherwise the start
        time is taken from the clock reading `now`. */
    method StartGame(isAuthenticated: bool, now: int) returns (redirectHome: bool)
      modifies this`gameStartTime
      ensures redirectHome <==> !isAuthenticated
      ensures gameStartTime == if isAuthenticated then now else old(gameStartTime)
    {
      if !isAuthenticated {
        redirectHome := true;
        return;
      }
      redirectHome := false;
      gameStartTime := now;
    }

    /** `handleGameComplete`, with the clock reading `now` and the outcome of
        `writeContract` as inputs. A rejected game sets an error and writes nothing; an
        accepted one calls `writeContract` once with the derived tuple. */
    method HandleGameComplete(c: CompletionContext, score: int, level: int, now: int,
                              validate: (int, int, int) -> bool, reward: (int, int) -> int,
                              write: WriteCall)
      requires Valid()
      modifies this`blockchainStatus, this`isSubmittingScore, this`lastGameResult, this`writes
      ensures Valid()
      ensures var d := Decide(c, score, level, old(gameStartTime), now, validate, reward);
        && (d.Reject? ==>
              && blockchainStatus == BlockchainStatus(Error, RejectionMessage(d.why))
              && writes == old(writes)
              && lastGameResult == old(lastGameResult)
              && isSubmittingScore == old(isSubmittingScore))
        && (d.Submit? ==>
              && writes == old(writes) + [d.args]
              && !isSubmittingScore
              && (write.WriteReturned? ==>
                    blockchainStatus == BlockchainStatus(Submitting, WaitingMessage) &&
                    lastGameResult == Some(GameResult(score, level + 1, d.expectedTokens)))
              && (write.WriteThrew? ==>
                    blockchainStatus == BlockchainStatus(Error, ThrowMessage(write.message)) &&
                    lastGameResult == old(lastGameResult)))
    {
      if !c.isAuthenticated || !Present(c.userAddress) {
        blockchainStatus := BlockchainStatus(Error, RejectionMessage(NotAuthenticated));
        return;
      }
      if !c.isConnected || !Present(c.walletAddress) {
        blockchainStatus := BlockchainStatus(Error, RejectionMessage(WalletNotConnected));
        return;
      }
      if c.chainId != SomniaChainId {
        blockchainStatus := BlockchainStatus(Submitting, "Switching to Somnia network...");
        if !c.switchSucceeds {
          blockchainStatus := BlockchainStatus(Error, RejectionMessage(SwitchFailed));
          return;
        }
      }
      if c.contractAddress == "" || c.contractAddress == ZeroAddress {
        blockchainStatus := BlockchainStatus(Error, RejectionMessage(InvalidContract));
        return;
      }
      var gameTime := (now - gameStartTime) / 1000;
      var adjustedLevel := level + 1;
      if !validate(score, gameTime, adjustedLevel) {
        blockchainStatus := BlockchainStatus(Error, RejectionMessage(ValidationFailed));
        return;
      }
      var expectedTokens := reward(score, adjustedLevel);
      isSubmittingScore := true;
      blockchainStatus := BlockchainStatus(Submitting, "Preparing blockchain transaction...");
      var enemiesDestroyed := Min(score / 1000 + adjustedLevel, 50);
      var rocketsUsed := Min(score / 500 + adjustedLevel * 2, 20);
      blockchainStatus := BlockchainStatus(Submitting, "Confirming transaction in wallet...");
      writes := writes + [SubmitArgs(score, adjustedLevel, gameTime, enemiesDestroyed, rocketsUsed)];
      if write.WriteReturned? {
        lastGameResult := Some(GameResult(score, adjustedLevel, expectedTokens));
        blockchainStatus := BlockchainStatus(Submitting, WaitingMessage);
      } else {
        var m := write.message;
        blockchainStatus := BlockchainStatus(Error,
          if m.Some? && Contains(m.value, "rejected") then RejectedByUser else SubmitFailed);
      }
      isSubmittingScore := false;
    }

    /** One of the page's status effects. */
    method Handle(e: Event)
      requires Valid()
      modifies this`blockchainStatus
      ensures Valid()
      ensures blockchainStatus == Step(old(blockchainStatus), e)
    {
      match e {
        case WriteError(m) =>
          blockchainStatus := BlockchainStatus(Error, "Transaction failed: " + m);
        case ReceiptError(m) =>
          blockchainStatus := BlockchainStatus(Error, "Receipt error: " + m);
        case HashReturned =>
          blockchainStatus := BlockchainStatus(Submitting, HashMessage);
        case Confirmed =>
          blockchainStatus := BlockchainStatus(Success, SavedMessage);
        case ClearTimerFired =>
          if blockchainStatus.status == Success || blockchainStatus.status == Error {
            blockchainStatus := Blank;
          }
      }
    }
  }
}
