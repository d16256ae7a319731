/** The boundary to the browser-side blockchain service (`window.web3Service` and
    `window.walletManager`). The service's code is not part of this model: what the
    scenes see of it, the presence of the globals and the results of its awaited
    calls, enters every operation as an input value. */
module Web3Service {
  import opened Builtins

  /** Which globals exist, and `window.walletManager?.isConnected`. */
  datatype Env = Env(hasService: bool, hasWalletManager: bool, walletConnected: bool) {
    /** `window.walletManager?.isConnected` is truthy. */
    predicate Connected() {
      hasWalletManager && walletConnected
    }
  }

  /** One entry of `getPlayerScores().results`; `timestamp` is read in milliseconds. */
  datatype ScoreResult = ScoreResult(score: int, timestamp: int)

  /** The outcome of `await getPlayerScores()`: it threw, or it returned a reply whose
      `results` list may be missing (`None` also stands for a null reply). */
  datatype ScoresReply = Threw | Returned(results: Option<seq<ScoreResult>>) {
    /** `playerScores && playerScores.results && playerScores.results.length > 0`. */
    predicate HasResults() {
      Returned? && results.Some? && |results.value| > 0
    }
  }

  /** The outcome of an awaited transaction call (`submitScore`, `rewardFuel`). A rejection
      carries the thrown value's `message`, or `None` when that value has no string
      `message` (a thrown string, `null`, a plain object). */
  datatype CallReply = CallThrew(message: Option<string>) | CallReturned(success: bool, transactionHash: Option<string>) {
    /** `result && result.success`. */
    predicate Succeeded() {
      CallReturned? && success
    }
  }

  /** The scores of a reply's results, `results.map(r => r.score)`. */
  function Scores(rs: seq<ScoreResult>): (s: seq<int>)
    ensures |s| == |rs|
    ensures forall i :: 0 <= i < |rs| ==> s[i] == rs[i].score
  {
    seq(|rs|, i requires 0 <= i < |rs| => rs[i].score)
  }
}
