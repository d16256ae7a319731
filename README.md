# RocketCandle front end — a verified model of its decision procedures

RocketCandle is a Phaser rocket game with a Next.js front end. Scores go on chain through a
`RocketCandleGame` contract, and the player earns RocketFUEL tokens for them. This project
models the client side in Dafny: the code that decides what to submit, what to show and what
to keep in session state, once the awaited blockchain replies are known. The contract's own
source is not part of this model.

One module per source file:

| module | file | what it holds |
|---|---|---|
| `Builtins` | — | the JavaScript built-ins the code relies on: optional values and their truthiness, `slice`, `includes`, ASCII `toLowerCase`, `Math.max(...)`, `filter` |
| `Web3Service` | — | the shapes of the replies of `window.web3Service` and the presence of the `window` globals, which come in as inputs |
| `EndGameScene` | `frontend/src/scenes/EndGameScene.js` | `init` defaults; efficiency rating and multiplier, in exact tenths; the reward arithmetic and its three copies; best-score banner; `saveScoreToBlockchain` with its error classification; the storage check; the retry schedule |
| `GamePage` | `frontend/src/app/game/page.tsx` | route map; the guard chain of `handleGameComplete`; the derived `submitScore` tuple; the `blockchainStatus` state machine, as a class |
| `NotificationSystem` | `frontend/src/components/ui/NotificationSystem.tsx` | the `useNotifications` list as a class with add, remove, clear and the preset helpers; the component's `visible`/`removing` lists and timers as a class; icon and class maps; rendering |
| `Providers` | `frontend/src/app/providers.tsx` | the session state as a class whose methods are the effects and `signOut`; display name; connector choice |
| `ScoresPage` | `frontend/src/app/scores/page.tsx` | row conversion; ranks; the "You" test; the history cut; read-enable conditions |
| `MenuScene` | `frontend/src/scenes/MenuScene.js` | the stats summary of `displayPlayerStats` |
| `Navbar` | `frontend/src/components/layout/Navbar.tsx` | `formatAddress`; the enabled controls; the menu flag as a class |

State the source changes in place (React state, the session) is a class whose methods say the
whole new state. Pure code is functions, with lemmas relating them.

Each awaited call becomes an input value: `getPlayerScores`, `submitScore`, `rewardFuel`,
`switchChain`, the wallet library's account, the Farcaster context. So do the clock readings
and the notification ids. A timer firing is an explicit step (`GamePage.Event.ClearTimerFired`,
`NotificationSystem.NotificationView.FinishRemove`).

`validateScore` and `calculateExpectedReward` come from the blockchain library, which is not
part of this model. They are function parameters with no assumed behaviour. So is its
`formatAddress`, which the scores page uses.

A note on ordering, from reading the code. `verifyBlockchainStorage` searches
`results.slice(0, 5)` and calls those the last five games. `displayPlayerStats` in the menu
treats the last element of the same list as the most recent game. Both cannot be right unless
the service returns at most five results. The order of `getPlayerScores` results is not
visible here, so the model keeps both readings exactly as written
(`EndGameScene.RecentMatch`, `MenuScene.DisplayPlayerStats`).

## Model

| member | source | states |
|---|---|---|
| Builtins.Abbreviate | frontend/src/app/providers.tsx:159-161 | the `slice(0, head) + "..." + slice(-tail)` template: its length, and that it is the head of the input, then "...", then the tail |
| Builtins.ContainsIffOccurs | frontend/src/scenes/EndGameScene.js:326-336 | `includes` is true exactly when the substring occurs at some position |
| Builtins.Lower | frontend/src/app/scores/page.tsx:174 | ASCII `toLowerCase` keeps the length and lower-cases each character |
| Builtins.NatToStringRoundTrip | frontend/src/scenes/EndGameScene.js:497-507 | the decimal text printed in a template literal reads back as the number itself |
| Builtins.SeqMax | frontend/src/scenes/EndGameScene.js:466-468 | `Math.max(...xs)` of a non-empty list is an element of the list, and no element exceeds it |
| Builtins.Filter | frontend/src/components/ui/NotificationSystem.tsx:136 | `filter` keeps exactly the passing elements and never lengthens the list |
| Builtins.FilterAppend | frontend/src/components/ui/NotificationSystem.tsx:136 | filtering distributes over concatenation, so relative order is kept |
| Builtins.FilterIdempotent | frontend/src/components/ui/NotificationSystem.tsx:136 | filtering twice with the same test is filtering once |
| Web3Service.Scores | frontend/src/scenes/MenuScene.js:133 | `results.map(r => r.score)` keeps the length and the score at each index |
| EndGameScene.Init | frontend/src/scenes/EndGameScene.js:12-18 | each field takes its default when the value handed over is falsy; the reason is never empty and defaults to "completed" |
| EndGameScene.NoAttemptsNoRating | frontend/src/scenes/EndGameScene.js:133 | with no attempts the rating is "N/A" and the multiplier is 0 |
| EndGameScene.MultiplierTenths | frontend/src/scenes/EndGameScene.js:578-590 | the multiplier is one of 0, 0.1, 0.2, 0.3, 0.5, and 0 when there are no attempts |
| EndGameScene.RatingMatchesMultiplier | frontend/src/scenes/EndGameScene.js:132-143 | the rating and the multiplier use the same four thresholds: the multiplier is the rating's tenths, and it is 0 exactly for "N/A" and "Needs Improvement" |
| EndGameScene.ThresholdIsRatio | frontend/src/scenes/EndGameScene.js:136-141 | `score >= t * attempts` holds exactly when the real score per attempt is at least `t` |
| EndGameScene.MultiplierByRatio | frontend/src/scenes/EndGameScene.js:581-589 | the top tier is exactly a score per attempt of at least 50, and no bonus is exactly below 10 |
| EndGameScene.MultiplierMonotone | frontend/src/scenes/EndGameScene.js:581-589 | a higher score per attempt never gets a smaller multiplier |
| EndGameScene.BaseReward | frontend/src/scenes/EndGameScene.js:272 | the base reward is at least 20; it is `score / 50` (floor) from 1000 on and 20 below |
| EndGameScene.CompletionBonus | frontend/src/scenes/EndGameScene.js:273 | the bonus is 50 exactly when the reason is "completed", else 10 |
| EndGameScene.EfficiencyBonusAtMostHalf | frontend/src/scenes/EndGameScene.js:275-276 | with at most five tenths, the efficiency bonus is at most half the base |
| EndGameScene.SubmittedReward | frontend/src/scenes/EndGameScene.js:272-277 | the requested reward lies between base + 10 and base + 50 + base / 2 |
| EndGameScene.ShowRewards | frontend/src/scenes/EndGameScene.js:483-509 | the reward notice has two breakdown lines, plus a third exactly when there is an efficiency bonus; the lines show the base reward, the completion or participation bonus with its emoji, and the efficiency bonus, each in decimal; the hash is passed through |
| EndGameScene.RewardCopiesAgree | frontend/src/scenes/EndGameScene.js:535-544 | the three copies of the reward formula give the same total, and the two notices differ only in the hash |
| EndGameScene.BestScore | frontend/src/scenes/EndGameScene.js:448-477 | 0 without the service, without a connected wallet or without results; otherwise a recorded score that no recorded score exceeds |
| EndGameScene.NewBestIffUnbeaten | frontend/src/scenes/EndGameScene.js:176-193 | "NEW BEST SCORE" exactly when the final score is positive and no recorded score beats it; otherwise a positive best is shown, and then some recorded score beats the final one |
| EndGameScene.DeliveredAs | frontend/src/scenes/EndGameScene.js:597-617 | success, error and warning keep their channel; info goes to the success channel |
| EndGameScene.NotifyGameCompletion | frontend/src/scenes/EndGameScene.js:203-224 | the score and level count reach the page callback exactly when the bridge and the callback exist; otherwise the "wallet not connected" warning is raised |
| EndGameScene.SaveErrorMessage | frontend/src/scenes/EndGameScene.js:324-338 | the error message by fixed priority, each case an if-and-only-if: "network"/"Network", then "rejected"/"denied", then "insufficient", then the default |
| EndGameScene.SaveScore | frontend/src/scenes/EndGameScene.js:226-342 | the three guard notices in order; a submission only with service, wallet manager and connection; the reward requested and shown exactly after a successful submit, in the `SubmittedReward` amount, carrying `rewardFuel`'s hash when that call succeeded and none otherwise; the storage check only then; the error classification otherwise, except that a thrown value without a string `message` makes the `catch` itself throw, with no notice |
| EndGameScene.FindFrom | frontend/src/scenes/EndGameScene.js:369-373 | `find` returns the first matching index of the range, or none when nothing in it matches |
| EndGameScene.RecentMatch | frontend/src/scenes/EndGameScene.js:368-373 | a match is among the first five results; none is found exactly when none of them is within 10 points and one minute |
| EndGameScene.VerifyStorage | frontend/src/scenes/EndGameScene.js:348-397 | the check is skipped exactly without service or connected wallet; it is verified, with the "verified on blockchain" success notice, exactly when a recent result matches; results without a match raise the "Retrying" warning; every other path goes to the retry schedule without a notice |
| EndGameScene.Retry | frontend/src/scenes/EndGameScene.js:404-442 | past attempt 3 nothing is submitted and the failure notice is raised; the score is saved exactly when some attempt from here to 3 succeeds; the k-th wait is 2^(attempt+k) seconds |
| EndGameScene.RetryStopsAtFirstSuccess | frontend/src/scenes/EndGameScene.js:425-440 | the schedule stops at the first successful attempt and announces that attempt's number; without success it ends with the failure notice |
| EndGameScene.RetrySchedule | frontend/src/scenes/EndGameScene.js:418-419 | from attempt 1 the waits are a prefix of 2000, 4000, 8000 ms, and all three when nothing succeeds |
| GamePage.Route | frontend/src/app/game/page.tsx:25-37 | home goes to "/", game to "/game", leaderboard to "/scores" |
| GamePage.GuardFailure | frontend/src/app/game/page.tsx:133-178 | the guards in source order, each an if-and-only-if: not authenticated, wallet not connected, failed network switch, then an empty or zero contract address |
| GamePage.GameTime | frontend/src/app/game/page.tsx:180-181 | the elapsed whole seconds `t`, with `1000 t <= end - start < 1000 (t + 1)` |
| GamePage.Derive | frontend/src/app/game/page.tsx:184-214 | the level is made 1-based; enemies are `min(score / 1000 + level, 50)` and rockets `min(score / 500 + 2 level, 20)`, so at most 50 and 20 |
| GamePage.DeriveNonNegative | frontend/src/app/game/page.tsx:213-214 | non-negative scores and levels give at least 1 enemy and 2 rockets |
| GamePage.Decide | frontend/src/app/game/page.tsx:130-214 | a game is submitted exactly when every guard passes and `validateScore` accepts it; the result then carries the derived tuple and the reward estimate for the 1-based level; otherwise the first failing guard |
| GamePage.SubmissionUsesAdjustedLevel | frontend/src/app/game/page.tsx:196-249 | validation, the reward estimate and the written tuple all use the same 1-based level and elapsed seconds |
| GamePage.Step | frontend/src/app/game/page.tsx:100-118 | write and receipt errors give the error status; a hash gives "submitting"; a receipt gives "success"; the timer clears success and error and leaves every other status as it is |
| GamePage.RunKeepsSettled | frontend/src/app/game/page.tsx:298-306 | along any run of events the idle status never carries a message |
| GamePage.TerminalThenTimerIsBlank | frontend/src/app/game/page.tsx:290-306 | an error or a confirmation followed by the timer returns to the blank idle status; the timer never clears a pending submission |
| GamePage.ThrowMessage | frontend/src/app/game/page.tsx:263-270 | a thrown write is reported as rejected by the user exactly when its message contains "rejected" |
| GamePage.SubmissionState.StartGame | frontend/src/app/game/page.tsx:120-128 | an unauthenticated visitor is sent home and no start time is taken; otherwise the clock reading is stored |
| GamePage.SubmissionState.HandleGameComplete | frontend/src/app/game/page.tsx:130-274 | a rejected game sets the rejection's error message and writes nothing; an accepted one calls `writeContract` once with the derived tuple. It then waits for confirmation with the game result stored, or reports the throw; the idle status stays blank |
| GamePage.SubmissionState.Handle | frontend/src/app/game/page.tsx:276-306 | each effect updates the status as `Step` says |
| NotificationSystem.WithDefaults | frontend/src/components/ui/NotificationSystem.tsx:123-129 | the new notification keeps the draft's fields and takes the given id; its duration is the given one when present, else 5000 |
| NotificationSystem.ExplicitZeroIsPersistent | frontend/src/components/ui/NotificationSystem.tsx:10 | an explicit duration of 0 is kept and schedules no auto-dismiss |
| NotificationSystem.CssClass | frontend/src/components/ui/NotificationSystem.tsx:66-80 | the class is the base class followed by the kind's own class |
| NotificationSystem.IconAndClassDistinct | frontend/src/components/ui/NotificationSystem.tsx:51-80 | different kinds get different icons and different classes |
| NotificationSystem.WithoutId | frontend/src/components/ui/NotificationSystem.tsx:135-137 | after removal no element has the id, and every element with another id is still there |
| NotificationSystem.RemoveAfterAdd | frontend/src/components/ui/NotificationSystem.tsx:123-137 | removing a freshly added id gives back the list as it was |
| NotificationSystem.RemoveOtherKeepsArrival | frontend/src/components/ui/NotificationSystem.tsx:123-137 | removing another id keeps the new arrival last |
| NotificationSystem.RemoveIdempotent | frontend/src/components/ui/NotificationSystem.tsx:135-137 | removing an id twice is removing it once |
| NotificationSystem.TransactionText | frontend/src/components/ui/NotificationSystem.tsx:184 | for every hash, "Transaction: " plus `slice(0, 8)`, "..." and `slice(-6)` with JavaScript's clamping; 30 characters in all for hashes of 14 or more |
| NotificationSystem.PresetDraft | frontend/src/components/ui/NotificationSystem.tsx:161-207 | each helper's kind, duration, and address or hash abbreviation; every helper names a positive duration |
| NotificationSystem.PresetsDismissThemselves | frontend/src/components/ui/NotificationSystem.tsx:161-207 | the default duration never applies to a blockchain helper, and every blockchain helper's notification schedules its own dismissal |
| NotificationSystem.NotificationQueue.Add | frontend/src/components/ui/NotificationSystem.tsx:123-133 | exactly one element is appended, the earlier ones are unchanged, and the id is returned |
| NotificationSystem.NotificationQueue.Notify | frontend/src/components/ui/NotificationSystem.tsx:161-207 | a blockchain helper appends its preset draft with that draft's own duration; the generic helpers at lines 144-158 are `Add` of a draft of their kind, so an omitted duration there takes the 5000 default |
| NotificationSystem.NotificationQueue.Remove | frontend/src/components/ui/NotificationSystem.tsx:135-137 | the list becomes `WithoutId` of the old list |
| NotificationSystem.NotificationQueue.Clear | frontend/src/components/ui/NotificationSystem.tsx:139-141 | the list becomes empty |
| NotificationSystem.NewArrivals | frontend/src/components/ui/NotificationSystem.tsx:36-38 | exactly the notifications whose ids are not yet visible |
| NotificationSystem.AutoRemovals | frontend/src/components/ui/NotificationSystem.tsx:43-47 | at most one timer per arrival, each with a positive delay |
| NotificationSystem.AutoRemovalsFollowArrivals | frontend/src/components/ui/NotificationSystem.tsx:41-48 | the timers of a sync are, in arrival order, exactly one per arrival with a positive duration, each for that arrival's id and after that duration; arrivals without one get none |
| NotificationSystem.PersistentArrivalsScheduleNothing | frontend/src/components/ui/NotificationSystem.tsx:43 | arrivals without a positive duration schedule no timer |
| NotificationSystem.ArrivalsBecomeVisible | frontend/src/components/ui/NotificationSystem.tsx:35-49 | after the arrival effect every listed id is visible |
| NotificationSystem.SecondSyncFindsNothing | frontend/src/components/ui/NotificationSystem.tsx:35-49 | the effect's rerun after `visible` changes finds no arrivals, so nothing is shown or scheduled twice |
| NotificationSystem.RemovingRoundTrip | frontend/src/components/ui/NotificationSystem.tsx:25-33 | marking an id as removing and then finishing its removal restores the removing list |
| NotificationSystem.Render | frontend/src/components/ui/NotificationSystem.tsx:82-116 | an empty list renders nothing; otherwise one item per notification, in order, with its class, icon, text and visible/removing flags |
| NotificationSystem.NotificationView.Sync | frontend/src/components/ui/NotificationSystem.tsx:35-49 | the visible list gains the new arrivals' ids in order; timers are scheduled for those with a positive duration; every listed id ends up visible |
| NotificationSystem.NotificationView.ShowAll | frontend/src/components/ui/NotificationSystem.tsx:40-48 | the loop over the arrivals appends their ids and their timers in order |
| NotificationSystem.NotificationView.BeginRemove | frontend/src/components/ui/NotificationSystem.tsx:25-26 | the id is appended to the removing list |
| NotificationSystem.NotificationView.FinishRemove | frontend/src/components/ui/NotificationSystem.tsx:28-32 | the id leaves the notification list, the removing list and the visible list; nothing else is dropped |
| Providers.FromContext | frontend/src/app/providers.tsx:93-97 | the Farcaster user keeps the fid and takes the username, or the display name when the username is falsy |
| Providers.DisplayName | frontend/src/app/providers.tsx:159-161 | the Farcaster username when present; otherwise, for every address, `slice(0, 6)`, "..." and `slice(-4)` with JavaScript's clamping, so 13 characters from 10 on |
| Providers.NextWalletAddress | frontend/src/app/providers.tsx:112-119 | a connected wallet with an address sets it; a disconnected one clears the address; otherwise it is unchanged |
| Providers.ChooseConnector | frontend/src/app/providers.tsx:190-204 | "Farcaster Miniapp" first, then "Injected", and none when neither exists, each an if-and-only-if |
| Providers.ConnectLeavesLoadingStuck | frontend/src/app/providers.tsx:185-210 | as written, a click from the idle state leaves `isLoading` set |
| Providers.Session.InitFarcaster | frontend/src/app/providers.tsx:86-108 | the context user is adopted when there is one; loading ends |
| Providers.Session.SyncWallet | frontend/src/app/providers.tsx:111-119 | the address becomes `NextWalletAddress` of the old one |
| Providers.Session.SyncPlayerStats | frontend/src/app/providers.tsx:122-146 | stats are kept exactly when both the data and the address are present, and then copied as read |
| Providers.Session.SyncAuth | frontend/src/app/providers.tsx:154-183 | authenticated exactly when the address is set; the user mirrors the address with its display name; without an address, user and stats are cleared |
| Providers.Session.ConnectWallet | frontend/src/app/providers.tsx:185-210 | the connector chosen is `ChooseConnector`, and loading has ended afterwards |
| Providers.Session.SignOut | frontend/src/app/providers.tsx:212-218 | user, authentication, stats and address are all cleared |
| Providers.SyncSession | frontend/src/app/providers.tsx:111-183 | a connected wallet with an address authenticates that address; a disconnected one leaves no user, no authentication and no stats |
| ScoresPage.FormatLeaderboard | frontend/src/app/scores/page.tsx:76-83 | missing data gives no rows; otherwise the rows as read, in order, none dropped or changed |
| ScoresPage.FormatHistory | frontend/src/app/scores/page.tsx:85-96 | missing data gives no games; otherwise the games as read, in order, none dropped or changed |
| ScoresPage.IsMeIgnoresCase | frontend/src/app/scores/page.tsx:174 | the "current player" test ignores ASCII case on both sides and holds for an address against itself |
| ScoresPage.Rows | frontend/src/app/scores/page.tsx:169-192 | one row per entry with rank index + 1; "You" and the current-player mark exactly for the player's rows; the formatted address otherwise |
| ScoresPage.RanksFollowOrder | frontend/src/app/scores/page.tsx:180 | ranks start at 1 and increase along the list |
| ScoresPage.History | frontend/src/app/scores/page.tsx:214-240 | the placeholder exactly for no games; otherwise the first min(10, n) games, with the "latest 10" note exactly when there are more than 10 |
| ScoresPage.HistoryHidesOnlyWithNote | frontend/src/app/scores/page.tsx:215-240 | every game is shown or accounted for by the note |
| ScoresPage.NextWeek | frontend/src/app/scores/page.tsx:63-67 | a truthy week from the contract replaces the current one; 0 or none leaves it |
| ScoresPage.LeaderboardQuery | frontend/src/app/scores/page.tsx:42-50 | the read is enabled exactly with a contract address and a positive week, and asks for that week with limit 10 |
| ScoresPage.HistoryQuery | frontend/src/app/scores/page.tsx:53-61 | the history read is enabled exactly with a contract address and a user address, for that address |
| ScoresPage.LeaderboardWaitsForWeek | frontend/src/app/scores/page.tsx:32-67 | from the initial week 0, the leaderboard is read only after the contract reports a positive week, and then for that week |
| MenuScene.DisplayPlayerStats | frontend/src/scenes/MenuScene.js:112-183 | the connect prompt exactly without service or connected wallet; "failed to load" exactly on a throw; "first game" exactly for no results; otherwise the last score, a best score no result exceeds and that some result has, and the number of games |
| MenuScene.BestAtLeastLast | frontend/src/scenes/MenuScene.js:133-135 | the best score shown is at least the last one |
| MenuScene.MenuBestIsEndGameBest | frontend/src/scenes/MenuScene.js:135 | the menu and the end-of-game scene report the same best score for the same reply |
| Navbar.FormatAddress | frontend/src/components/layout/Navbar.tsx:22-25 | "" stays ""; every other address gives `slice(0, 6)`, "..." and `slice(-4)` with JavaScript's clamping, 13 characters for addresses of 10 or more |
| Navbar.DisplayNameFallbackIsFormatAddress | frontend/src/components/layout/Navbar.tsx:24 | the session's display-name fallback and the navbar's abbreviation agree on every non-empty address |
| Navbar.ControlsFor | frontend/src/components/layout/Navbar.tsx:50-91 | Play disabled and Connect shown exactly when not authenticated; Connect disabled exactly while loading; the wallet name falls back to "Player"; the address line is `formatAddress` of the user's address, and empty without a user |
| Navbar.NavbarState.ToggleMenu | frontend/src/components/layout/Navbar.tsx:83 | the menu flag flips |
| Navbar.NavbarState.Navigate | frontend/src/components/layout/Navbar.tsx:15-20 | the page is forwarded exactly when a handler is given; the menu ends closed |
| Navbar.NavbarState.Disconnect | frontend/src/components/layout/Navbar.tsx:118-121 | the session is signed out and the menu is closed; the loading flag and the Farcaster user are kept, and only the four fields `signOut` writes may change |

## Left out

- The `RocketCandleGame` contract: its supply cap, score validation, reward formula, ownership, pausing and weekly leaderboard. Its source is not part of this model, and its test file only pins scenarios.
- `hardhat-contracts/scripts/deploy.js`: deployment, file writes and explorer verification, all I/O.
- Drawing: Phaser text, tweens, particles, stars and rockets; the React markup; the configuration files. None of it decides anything the model states.
- Floating point: the efficiency multiplier is modelled in exact tenths, where the source multiplies by a double and floors. The menu's and scores page's token figures (wei to ether, the average per game, `toFixed`) are not modelled.
- Number formatting: `toLocaleString` and `toFixed` are not modelled. `NotificationSystem.Preset.ScoreSubmitted` takes the formatted texts as inputs.
- `Number(...)` of the contract's big integers is taken as exact. Loss of precision above 2^53 is not modelled.
- Randomness and the clock: notification ids (`Date.now` and `Math.random`) and the clock readings of the game page and the storage check are inputs.
- Timers: `setTimeout` delays are explicit steps or recorded delays. Cancelling the status timer when the status changes first is covered only in that the timer step never clears a non-terminal status.
- Concurrency and React's scheduling: intermediate renders, effect ordering and batched updates are not modelled. Each effect is one method, run when its inputs change. The transient status messages set inside `handleGameComplete` ("Switching to Somnia network...", "Preparing...", "Confirming...") appear in the method body but not in its contract, which states the final status.
- The wallet library's calls (`connect`, `disconnect`, `switchChain`, `writeContract`) and `refreshPlayerStats` run outside the model. Only their outcomes enter.
- `validateScore`, `calculateExpectedReward` and the library's `formatAddress` are uninterpreted parameters.
- ASCII only: `toLowerCase` is modelled on the ASCII range. Unicode case mapping is not modelled.
- Providers.Session.SyncPlayerStats: keeps the token total in wei, where the source stores `Number(totalTokens) / 10^18` as a double.
- Providers.Session.InitFarcaster: a failing SDK call is modelled as an absent context; the source's `catch` only logs, so the state is the same.
- The read-enable conditions of the provider's player-stats read and the game page's token-name debug read are not modelled. Neither is in the decision path.
- The scores page's `handleNavigation` (frontend/src/app/scores/page.tsx:15-27) is the same map as `GamePage.Route` and is not modelled again.
- The navbar's wallet dropdown stats (games, best score, tokens) are number formatting only.

## Findings

| source | as written | input that shows it | evidently intended | confidence | as-written member | corrected member |
|---|---|---|---|---|---|---|
| frontend/src/app/providers.tsx:185-210 | `connectWallet` tests the `isLoading` value captured when the callback was created, both before connecting and in `finally`. From the idle state it sets the flag and never clears it. | `isLoading` false (the only state in which the Connect button is enabled), click Connect. If the connection is refused, the button stays disabled and reads "Connecting...", and it does so again after a later sign-out. | `isLoading` is false again once `connectWallet` ends | medium, not executed | Providers.ConnectLeavesLoadingStuck | Providers.Session.ConnectWallet |
