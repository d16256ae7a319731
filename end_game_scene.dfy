/** The decision procedures of the end-of-game scene: the efficiency rating and the
    efficiency multiplier, the RocketFUEL reward arithmetic, the best-score banner,
    the submission pipeline with its error classification, the storage check and the
    bounded retry schedule. Drawing, tweens and particles are not modelled; awaited
    service calls, `Date.now()` and the timers enter as inputs. */
module EndGameScene {
  import opened Builtins
  import opened Web3Service

  /** The data handed over by the game scene; a missing (or falsy) field is `None`. */
  datatype SceneData = SceneData(score: Option<nat>, totalAttempts: Option<nat>,
                                 levelsCompleted: Option<nat>, reason: Option<string>)

  /** The scene fields assigned once by `init`. */
  datatype Scene = Scene(finalScore: nat, totalAttempts: nat, levelsCompleted: nat, reason: string)

  const CompletedReason := "completed"

  /** `init`: each field falls back to its default when the handed-over value is falsy. */
  function Init(d: SceneData): (s: Scene)
    ensures s.finalScore == (if d.score.Some? then d.score.value else 0)
    ensures s.totalAttempts == (if d.totalAttempts.Some? then d.totalAttempts.value else 0)
    ensures s.levelsCompleted == (if d.levelsCompleted.Some? then d.levelsCompleted.value else 0)
    ensures s.reason != ""
    ensures Present(d.reason) ==> s.reason == d.reason.value
    ensures !Present(d.reason) ==> s.reason == CompletedReason
  {
    Scene(if d.score.Some? then d.score.value else 0,
          if d.totalAttempts.Some? then d.totalAttempts.value else 0,
          if d.levelsCompleted.Some? then d.levelsCompleted.value else 0,
          if Present(d.reason) then d.reason.value else CompletedReason)
  }

  // ---------------------------------------------------------------------------
  // Efficiency

  datatype Rating = NotApplicable | Excellent | Good | Average | Poor | NeedsImprovement

  /** The text the scene prints after "Efficiency: ". */
  function RatingText(r: Rating): string {
    match r
    case NotApplicable => "N/A"
    case Excellent => "Excellent"
    case Good => "Good"
    case Average => "Average"
    case Poor => "Poor"
    case NeedsImprovement => "Needs Improvement"
  }

  /** The exact score per attempt, `finalScore / totalAttempts`. */
  ghost function ScorePerAttempt(s: Scene): real
    requires s.totalAttempts > 0
  {
    s.finalScore as real / s.totalAttempts as real
  }

  /** `calculateEfficiency`: "score per attempt >= t" is written `score >= t * attempts`. */
  function Efficiency(s: Scene): Rating {
    if s.totalAttempts == 0 then NotApplicable
    else if s.finalScore >= 50 * s.totalAttempts then Excellent
    else if s.finalScore >= 30 * s.totalAttempts then Good
    else if s.finalScore >= 20 * s.totalAttempts then Average
    else if s.finalScore >= 10 * s.totalAttempts then Poor
    else NeedsImprovement
  }

  /** `getEfficiencyMultiplier`, in tenths: 0.5, 0.3, 0.2, 0.1 or 0. */
  function MultiplierTenths(s: Scene): (k: nat)
    ensures k in {0, 1, 2, 3, 5}
    ensures s.totalAttempts == 0 ==> k == 0
  {
    if s.totalAttempts == 0 then 0
    else if s.finalScore >= 50 * s.totalAttempts then 5
    else if s.finalScore >= 30 * s.totalAttempts then 3
    else if s.finalScore >= 20 * s.totalAttempts then 2
    else if s.finalScore >= 10 * s.totalAttempts then 1
    else 0
  }

  /** The bonus tenths each rating stands for. */
  function RatingTenths(r: Rating): nat {
    match r
    case Excellent => 5
    case Good => 3
    case Average => 2
    case Poor => 1
    case _ => 0
  }

  /** Without attempts there is no rating and no bonus. */
  lemma NoAttemptsNoRating(s: Scene)
    requires s.totalAttempts == 0
    ensures Efficiency(s) == NotApplicable && RatingText(Efficiency(s)) == "N/A"
    ensures MultiplierTenths(s) == 0
  {
  }

  /** The rating and the multiplier use the same thresholds. */
  lemma RatingMatchesMultiplier(s: Scene)
    ensures MultiplierTenths(s) == RatingTenths(Efficiency(s))
    ensures MultiplierTenths(s) == 0 <==> Efficiency(s) in {NotApplicable, NeedsImprovement}
  {
  }

  /** Cancelling a positive factor on both sides of a comparison. */
  lemma CancelPositive(x: int, y: int, c: int)
    requires c > 0 && x * c >= y * c
    ensures x >= y
  {
    assert (x - y) * c >= 0;
  }

  /** Crossing a threshold by cross-multiplication is crossing it by the exact ratio. */
  lemma ThresholdIsRatio(s: Scene, t: nat)
    requires s.totalAttempts > 0
    ensures s.finalScore >= t * s.totalAttempts <==> ScorePerAttempt(s) >= t as real
  {
    var a := s.totalAttempts as real;
    assert ScorePerAttempt(s) * a == s.finalScore as real;
    if s.finalScore >= t * s.totalAttempts {
      assert s.finalScore as real >= t as real * a;
    } else {
      assert s.finalScore as real < t as real * a;
    }
  }

  /** One threshold crossed by the lower ratio is crossed by the higher one. */
  lemma ThresholdMonotone(s1: Scene, s2: Scene, t: nat)
    requires s1.totalAttempts > 0 && s2.totalAttempts > 0
    requires s1.finalScore * s2.totalAttempts <= s2.finalScore * s1.totalAttempts
    requires s1.finalScore >= t * s1.totalAttempts
    ensures s2.finalScore >= t * s2.totalAttempts
  {
    var a1, a2 := s1.totalAttempts, s2.totalAttempts;
    assert s1.finalScore * a2 >= t * a1 * a2;
    assert s2.finalScore * a1 >= (t * a2) * a1;
    CancelPositive(s2.finalScore, t * a2, a1);
  }

  /** The multiplier never decreases as the score per attempt grows. */
  lemma MultiplierMonotone(s1: Scene, s2: Scene)
    requires s1.totalAttempts > 0 && s2.totalAttempts > 0
    requires s1.finalScore * s2.totalAttempts <= s2.finalScore * s1.totalAttempts
    ensures MultiplierTenths(s1) <= MultiplierTenths(s2)
  {
    if s1.finalScore >= 50 * s1.totalAttempts { ThresholdMonotone(s1, s2, 50); }
    else if s1.finalScore >= 30 * s1.totalAttempts { ThresholdMonotone(s1, s2, 30); }
    else if s1.finalScore >= 20 * s1.totalAttempts { ThresholdMonotone(s1, s2, 20); }
    else if s1.finalScore >= 10 * s1.totalAttempts { ThresholdMonotone(s1, s2, 10); }
  }

  /** The tiers read as exact score-per-attempt thresholds. */
  lemma MultiplierByRatio(s: Scene)
    requires s.totalAttempts > 0
    ensures MultiplierTenths(s) == 5 <==> ScorePerAttempt(s) >= 50.0
    ensures MultiplierTenths(s) == 0 <==> ScorePerAttempt(s) < 10.0
  {
    ThresholdIsRatio(s, 50);
    ThresholdIsRatio(s, 30);
    ThresholdIsRatio(s, 20);
    ThresholdIsRatio(s, 10);
  }

  // ---------------------------------------------------------------------------
  // Reward arithmetic

  /** `Math.max(20, Math.floor(score / 50))`. */
  function BaseReward(score: nat): (b: nat)
    ensures b >= 20
    ensures score >= 1000 ==> b == score / 50
    ensures score < 1000 ==> b == 20
  {
    Max(20, score / 50)
  }

  /** `reason === "completed" ? 50 : 10`. */
  function CompletionBonus(reason: string): (b: nat)
    ensures b == 50 <==> reason == CompletedReason
    ensures b == 10 <==> reason != CompletedReason
  {
    if reason == CompletedReason then 50 else 10
  }

  /** `Math.floor(base * multiplier)` with the multiplier in exact tenths. */
  function EfficiencyBonus(base: nat, tenths: nat): nat {
    base * tenths / 10
  }

  lemma EfficiencyBonusAtMostHalf(base: nat, tenths: nat)
    requires tenths <= 5
    ensures EfficiencyBonus(base, tenths) <= base / 2
  {
    assert base * tenths <= base * 5;
    assert base * 5 / 10 == base / 2;
  }

  /** The reward requested from `rewardFuel` in `saveScoreToBlockchain`. */
  function SubmittedReward(s: Scene, score: nat): (total: nat)
    ensures BaseReward(score) + 10 <= total <= BaseReward(score) + 50 + BaseReward(score) / 2
  {
    var baseReward := BaseReward(score);
    var completionBonus := CompletionBonus(s.reason);
    var finalReward := baseReward + completionBonus;
    var efficiencyBonus := EfficiencyBonus(baseReward, MultiplierTenths(s));
    EfficiencyBonusAtMostHalf(baseReward, MultiplierTenths(s));
    finalReward + efficiencyBonus
  }

  /** What `showRocketFuelRewards` (hash `None`) and `showRocketFuelRewardsWithTx` hand
      to the reward notification. */
  datatype RewardNotice = RewardNotice(total: nat, breakdown: seq<string>, txHash: Option<string>)

  /** `showRocketFuelRewards` / `showRocketFuelRewardsWithTx`: the two differ only in the hash. */
  function ShowRewards(s: Scene, score: nat, txHash: Option<string>): (n: RewardNotice)
    ensures n.txHash == txHash
    ensures |n.breakdown| == (if EfficiencyBonus(BaseReward(score), MultiplierTenths(s)) > 0 then 3 else 2)
    ensures n.breakdown[0] == "🎯 Base Reward: " + NatToString(BaseReward(score)) + " FUEL"
    ensures n.breakdown[1] == (if s.reason == CompletedReason then "🏆 Completion" else "💪 Participation")
                              + " Bonus: " + NatToString(CompletionBonus(s.reason)) + " FUEL"
    ensures |n.breakdown| == 3 ==>
      n.breakdown[2] == "⚡ Efficiency Bonus: " + NatToString(EfficiencyBonus(BaseReward(score), MultiplierTenths(s))) + " FUEL"
  {
    var baseReward := BaseReward(score);
    var completionBonus := CompletionBonus(s.reason);
    var finalReward := baseReward + completionBonus;
    var efficiencyBonus := EfficiencyBonus(baseReward, MultiplierTenths(s));
    var totalReward := finalReward + efficiencyBonus;
    var completed := s.reason == CompletedReason;
    var baseLine := "🎯 Base Reward: " + NatToString(baseReward) + " FUEL";
    var bonusLine := (if completed then "🏆 Completion" else "💪 Participation")
      + " Bonus: " + NatToString(completionBonus) + " FUEL";
    var efficiencyLine := "⚡ Efficiency Bonus: " + NatToString(efficiencyBonus) + " FUEL";
    var breakdown := if efficiencyBonus > 0 then [baseLine, bonusLine, efficiencyLine]
      else [baseLine, bonusLine];
    RewardNotice(totalReward, breakdown, txHash)
  }

  /** The three copies of the reward formula agree. */
  lemma RewardCopiesAgree(s: Scene, score: nat, h1: Option<string>, h2: Option<string>)
    ensures ShowRewards(s, score, h1).total == SubmittedReward(s, score)
    ensures ShowRewards(s, score, h1).total == ShowRewards(s, score, h2).total
    ensures ShowRewards(s, score, h1).breakdown == ShowRewards(s, score, h2).breakdown
  {
  }

  // ---------------------------------------------------------------------------
  // Best score

  /** `getBestScoreFromBlockchain`: the maximum score on record, or 0 when there is none
      or the service is unavailable. */
  function BestScore(env: Env, reply: ScoresReply): (best: int)
    ensures !env.hasService || !env.Connected() || !reply.HasResults() ==> best == 0
    ensures env.hasService && env.Connected() && reply.HasResults() ==>
      (forall i :: 0 <= i < |reply.results.value| ==> reply.results.value[i].score <= best) &&
      (exists i :: 0 <= i < |reply.results.value| && reply.results.value[i].score == best)
  {
    if !env.hasService then 0
    else if !env.Connected() then 0
    else if reply.HasResults() then SeqMax(Scores(reply.results.value))
    else 0
  }

  datatype Banner = NewBest | ShowBest(best: int) | NoBanner

  /** The banner of `displayBestScoreComparison`. */
  function BestBanner(finalScore: nat, best: int): Banner {
    if finalScore >= best && finalScore > 0 then NewBest
    else if best > 0 then ShowBest(best)
    else NoBanner
  }

  /** "New best" is shown exactly when the final score is positive and no recorded score
      exceeds it; otherwise a positive recorded best is shown. */
  lemma NewBestIffUnbeaten(s: Scene, env: Env, reply: ScoresReply)
    requires env.hasService && env.Connected() && reply.HasResults()
    ensures BestBanner(s.finalScore, BestScore(env, reply)) == NewBest <==>
      s.finalScore > 0 && forall i :: 0 <= i < |reply.results.value| ==> reply.results.value[i].score <= s.finalScore
    ensures BestBanner(s.finalScore, BestScore(env, reply)).ShowBest? ==>
      BestScore(env, reply) > 0 && exists i :: 0 <= i < |reply.results.value| && reply.results.value[i].score > s.finalScore
  {
    var rs := reply.results.value;
    var best := BestScore(env, reply);
    if s.finalScore > 0 && forall i :: 0 <= i < |rs| ==> rs[i].score <= s.finalScore {
      var j :| 0 <= j < |rs| && rs[j].score == best;
      assert best <= s.finalScore;
    }
  }

  // ---------------------------------------------------------------------------
  // Notifications raised by the scene

  datatype NoticeKind = Success | Failure | Warning | Info

  datatype Notice = Notice(message: string, kind: NoticeKind)

  /** `showNotification`: the channel of `window.gameNotifications` a notice goes to;
      info notices go to the success channel. */
  function DeliveredAs(k: NoticeKind): (c: NoticeKind)
    ensures c != Info
    ensures k != Info ==> c == k
    ensures k == Info ==> c == Success
  {
    if k == Info then Success else k
  }

  /** `notifyGameCompletion`: the `(finalScore, levelsCompleted)` pair handed to the
      page's `onGameComplete` callback, when the bridge and the callback exist. */
  function NotifyGameCompletion(s: Scene, hasBridge: bool, hasCallback: bool): (r: (Option<(nat, nat)>, Notice))
    ensures r.0.Some? <==> hasBridge && hasCallback
    ensures r.0.Some? ==> r.0.value == (s.finalScore, s.levelsCompleted) && r.1.kind == Info
    ensures r.0.None? ==> r.1 == Notice("⚠️ Cannot save to blockchain - wallet not connected", Warning)
  {
    if hasBridge && hasCallback then (Some((s.finalScore, s.levelsCompleted)), Notice("📤 Submitting score to blockchain...", Info))
    else (None, Notice("⚠️ Cannot save to blockchain - wallet not connected", Warning))
  }

  // ---------------------------------------------------------------------------
  // Saving the score

  const DefaultSaveError := "❌ Failed to save score to blockchain"
  const NetworkSaveError := "❌ Network error - check your connection and try again"
  const RejectedSaveError := "❌ Transaction rejected by user"
  const FundsSaveError := "❌ Insufficient funds for transaction"
  /** The message thrown when `submitScore` returns without success. */
  const UnsuccessfulSubmit := "Failed to save score to blockchain"

  predicate MentionsNetwork(msg: string) { Contains(msg, "network") || Contains(msg, "Network") }
  predicate MentionsRejection(msg: string) { Contains(msg, "rejected") || Contains(msg, "denied") }
  predicate MentionsFunds(msg: string) { Contains(msg, "insufficient") }

  /** The error message chosen in the `catch` of `saveScoreToBlockchain`, by a fixed
      priority: network, then rejection, then insufficient funds, then the default. */
  function SaveErrorMessage(msg: string): (m: string)
    ensures m == NetworkSaveError <==> MentionsNetwork(msg)
    ensures m == RejectedSaveError <==> !MentionsNetwork(msg) && MentionsRejection(msg)
    ensures m == FundsSaveError <==> !MentionsNetwork(msg) && !MentionsRejection(msg) && MentionsFunds(msg)
    ensures m == DefaultSaveError <==> !MentionsNetwork(msg) && !MentionsRejection(msg) && !MentionsFunds(msg)
  {
    var errorMessage := DefaultSaveError;
    if MentionsNetwork(msg) then NetworkSaveError
    else if MentionsRejection(msg) then RejectedSaveError
    else if MentionsFunds(msg) then FundsSaveError
    else errorMessage
  }

  /** What one run of `saveScoreToBlockchain` does: the notices it raises in order, the
      reward it asks `rewardFuel` for, the reward notification it shows, whether it goes on
      to check the stored data, and whether its own `catch` throws, so that its promise
      rejects with no notice raised. */
  datatype SaveRun = SaveRun(notices: seq<Notice>, submitted: bool, rewardRequested: Option<nat>,
                             rewardShown: Option<RewardNotice>, verifies: bool, catchThrows: bool)

  /** `saveScoreToBlockchain(score)`, with the replies of `submitScore` and `rewardFuel`
      as inputs. */
  function SaveScore(s: Scene, score: nat, env: Env, submit: CallReply, reward: CallReply): (run: SaveRun)
    ensures run.submitted <==> env.hasService && env.Connected()
    ensures run.rewardRequested.Some? <==> run.submitted && submit.Succeeded()
    ensures run.rewardRequested.Some? ==> run.rewardRequested.value == SubmittedReward(s, score)
    ensures run.verifies <==> run.rewardRequested.Some?
    ensures run.rewardShown.Some? <==> run.verifies
    ensures run.rewardShown.Some? ==> run.rewardShown.value.total == SubmittedReward(s, score)
    ensures !env.hasService ==>
      run.notices == [Notice("⚠️ Game services not initialized - please refresh and try again", Failure)]
    ensures env.hasService && !env.hasWalletManager ==>
      run.notices == [Notice("⚠️ Wallet services not initialized - please refresh and try again", Failure)]
    ensures env.hasService && env.hasWalletManager && !env.walletConnected ==>
      run.notices == [Notice("⚠️ Wallet not connected - score not saved to blockchain", Warning)]
    ensures run.submitted && submit.Succeeded() ==> run.notices == [Notice("✅ Score saved to blockchain!", Success)]
    ensures run.rewardShown.Some? ==>
      run.rewardShown.value.txHash == (if reward.Succeeded() then reward.transactionHash else None)
    ensures run.catchThrows <==> run.submitted && submit.CallThrew? && submit.message.None?
    ensures run.catchThrows ==> run.notices == []
    ensures run.submitted && !submit.Succeeded() && !run.catchThrows ==>
      run.notices == [Notice(SaveErrorMessage(if submit.CallThrew? then submit.message.value else UnsuccessfulSubmit), Failure)]
  {
    if !env.hasService then
      SaveRun([Notice("⚠️ Game services not initialized - please refresh and try again", Failure)], false, None, None, false, false)
    else if !env.hasWalletManager then
      SaveRun([Notice("⚠️ Wallet services not initialized - please refresh and try again", Failure)], false, None, None, false, false)
    else if !env.walletConnected then
      SaveRun([Notice("⚠️ Wallet not connected - score not saved to blockchain", Warning)], false, None, None, false, false)
    else
      var totalReward := SubmittedReward(s, score);
      if submit.Succeeded() then
        var shown := if reward.Succeeded() then ShowRewards(s, score, reward.transactionHash)
                     else ShowRewards(s, score, None);
        RewardCopiesAgree(s, score, shown.txHash, None);
        SaveRun([Notice("✅ Score saved to blockchain!", Success)], true, Some(totalReward), Some(shown), true, false)
      else if submit.CallThrew? && submit.message.None? then
        // `error.message.includes(...)` on an undefined `message` is itself a TypeError
        SaveRun([], true, None, None, false, true)
      else
        var thrown := if submit.CallThrew? then submit.message.value else UnsuccessfulSubmit;
        SaveRun([Notice(SaveErrorMessage(thrown), Failure)], true, None, None, false, false)
  }

  // ---------------------------------------------------------------------------
  // Checking the stored data and retrying

  /** The match test of `verifyBlockchainStorage`: a score within 10 of ours, stamped
      within the last minute. */
  predicate MatchesSubmission(r: ScoreResult, score: int, now: int) {
    Abs(r.score - score) < 10 && now - r.timestamp < 60000
  }

  /** `find` over `rs[from..limit]`: the first matching index. */
  function FindFrom(rs: seq<ScoreResult>, from: nat, limit: nat, score: int, now: int): (k: Option<nat>)
    requires limit <= |rs|
    ensures k.Some? ==> from <= k.value < limit && MatchesSubmission(rs[k.value], score, now)
    ensures k.Some? ==> forall j :: from <= j < k.value ==> !MatchesSubmission(rs[j], score, now)
    ensures k.None? ==> forall j :: from <= j < limit ==> !MatchesSubmission(rs[j], score, now)
    decreases limit - from
  {
    if from >= limit then None
    else if MatchesSubmission(rs[from], score, now) then Some(from)
    else FindFrom(rs, from + 1, limit, score, now)
  }

  /** `results.slice(0, 5).find(...)`: the first match among the first five results. */
  function RecentMatch(rs: seq<ScoreResult>, score: int, now: int): (k: Option<nat>)
    ensures k.Some? ==> k.value < 5 && k.value < |rs| && MatchesSubmission(rs[k.value], score, now)
    ensures k.None? <==> forall j :: 0 <= j < Min(5, |rs|) ==> !MatchesSubmission(rs[j], score, now)
  {
    FindFrom(rs, 0, Min(5, |rs|), score, now)
  }

  datatype VerifyOutcome = Skipped | Verified | NeedsRetry

  /** What one storage check does: its outcome and the notice it raises, if any. */
  datatype VerifyRun = VerifyRun(outcome: VerifyOutcome, notice: Option<Notice>)

  const VerifiedNotice := Notice("✅ Game data verified on blockchain", Success)
  const RetryingNotice := Notice("⚠️ Retrying blockchain storage...", Warning)

  /** `verifyBlockchainStorage` up to the point where it returns or hands over to the
      retry schedule. Only a match and a list of results without one raise a notice; a
      reply with no results and a throw go to the retry schedule silently. */
  function VerifyStorage(env: Env, reply: ScoresReply, score: int, now: int): (v: VerifyRun)
    ensures v.outcome == Skipped <==> !env.hasService || !env.Connected()
    ensures v.outcome == Verified <==> (env.hasService && env.Connected() && reply.HasResults() &&
                                        RecentMatch(reply.results.value, score, now).Some?)
    ensures v.notice == Some(VerifiedNotice) <==> v.outcome == Verified
    ensures v.notice == Some(RetryingNotice) <==>
      (env.hasService && env.Connected() && reply.HasResults() &&
       RecentMatch(reply.results.value, score, now).None?)
    ensures v.notice.None? <==> v.outcome == Skipped || (v.outcome == NeedsRetry && !reply.HasResults())
  {
    if !env.hasService || !env.Connected() then VerifyRun(Skipped, None)
    else if reply.Threw? then VerifyRun(NeedsRetry, None)
    else if reply.HasResults() then
      if RecentMatch(reply.results.value, score, now).Some? then VerifyRun(Verified, Some(VerifiedNotice))
      else VerifyRun(NeedsRetry, Some(RetryingNotice))
    else VerifyRun(NeedsRetry, None)
  }

  const MaxRetries := 3

  function Pow2(n: nat): (p: nat)
    ensures p >= 1
  {
    if n == 0 then 1 else 2 * Pow2(n - 1)
  }

  /** One run of the retry schedule: whether the score was saved, the back-off delay
      waited before each submission, in milliseconds, and the closing notice. */
  datatype RetryRun = RetryRun(saved: bool, delays: seq<nat>, notice: Notice)

  /** `retryBlockchainSubmission(score, attempt)`; `ok(a)` is whether the submission of
      attempt `a` returns with success (a throw counts as failure). */
  function Retry(attempt: nat, ok: nat -> bool): (r: RetryRun)
    ensures attempt > MaxRetries ==> r == RetryRun(false, [], Notice("❌ Failed to verify blockchain storage after retries", Failure))
    ensures r.saved <==> exists a :: attempt <= a <= MaxRetries && ok(a)
    ensures |r.delays| <= Max(0, MaxRetries + 1 - attempt)
    ensures forall k :: 0 <= k < |r.delays| ==> r.delays[k] == Pow2(attempt + k) * 1000
    decreases MaxRetries + 1 - attempt
  {
    if attempt > MaxRetries then
      RetryRun(false, [], Notice("❌ Failed to verify blockchain storage after retries", Failure))
    else
      var delay := Pow2(attempt) * 1000;
      if ok(attempt) then
        RetryRun(true, [delay], Notice("✅ Game saved to blockchain (attempt " + NatToString(attempt) + ")", Success))
      else
        var rest := Retry(attempt + 1, ok);
        RetryRun(rest.saved, [delay] + rest.delays, rest.notice)
  }

  /** The attempt whose submission succeeded, when one did: the first successful one,
      announced in the closing notice. */
  lemma {:induction false} RetryStopsAtFirstSuccess(attempt: nat, ok: nat -> bool)
    ensures Retry(attempt, ok).saved ==> |Retry(attempt, ok).delays| >= 1
    ensures Retry(attempt, ok).saved ==>
      var last := attempt + |Retry(attempt, ok).delays| - 1;
      ok(last) && (forall a :: attempt <= a < last ==> !ok(a)) &&
      Retry(attempt, ok).notice == Notice("✅ Game saved to blockchain (attempt " + NatToString(last) + ")", Success)
    ensures !Retry(attempt, ok).saved ==>
      Retry(attempt, ok).notice == Notice("❌ Failed to verify blockchain storage after retries", Failure)
    decreases MaxRetries + 1 - attempt
  {
    if attempt <= MaxRetries && !ok(attempt) {
      RetryStopsAtFirstSuccess(attempt + 1, ok);
    }
  }

  /** Started from attempt 1, the schedule waits 2000, 4000 and 8000 ms at most, in order. */
  lemma RetrySchedule(ok: nat -> bool)
    ensures |Retry(1, ok).delays| <= 3
    ensures Retry(1, ok).delays <= [2000, 4000, 8000]
    ensures !Retry(1, ok).saved ==> Retry(1, ok).delays == [2000, 4000, 8000]
  {
    var r := Retry(1, ok);
    assert Pow2(1) == 2 && Pow2(2) == 4 && Pow2(3) == 8;
    if !r.saved {
      var r2 := Retry(2, ok);
      var r3 := Retry(3, ok);
      assert !ok(1) && !ok(2) && !ok(3);
      assert |r3.delays| == 1;
      assert |r2.delays| == 2;
    }
  }
}
