/** The leaderboard and history page: the conversion of the contract's rows, ranking,
    the "You" marker, the ten-entry history cut and the conditions under which the page
    reads the contract. `formatAddress` of the blockchain library, whose code is not part
    of this model, is a parameter. */
module ScoresPage {
  import opened Builtins

  /** A `LeaderboardEntry`: a row of `getWeeklyTopScores`, its numbers read exactly. */
  datatype LeaderboardEntry = LeaderboardEntry(player: string, score: int, timestamp: int)

  /** A row of `getPlayerHistory`, its numbers read exactly. */
  datatype Game = Game(score: int, level: int, gameTime: int, timestamp: int, player: string,
                       enemiesDestroyed: int, rocketsUsed: int)

  /** `formatLeaderboardData`: missing data gives no rows; otherwise the rows as read, in
      order, since `Number` of each field is its value. */
  function FormatLeaderboard(data: Option<seq<LeaderboardEntry>>): (r: seq<LeaderboardEntry>)
    ensures data.None? ==> r == []
    ensures data.Some? ==> r == data.value
  {
    if data.None? then [] else data.value
  }

  /** `formatPlayerHistory`, likewise for the history rows. */
  function FormatHistory(data: Option<seq<Game>>): (r: seq<Game>)
    ensures data.None? ==> r == []
    ensures data.Some? ==> r == data.value
  {
    if data.None? then [] else data.value
  }

  /** `entry.player.toLowerCase() === user?.address?.toLowerCase()`; without a user the
      right side is `undefined` and nothing matches. */
  predicate IsMe(player: string, userAddress: Option<string>) {
    userAddress.Some? && Lower(player) == Lower(userAddress.value)
  }

  /** The test ignores ASCII case on both sides, and every address matches itself. */
  lemma IsMeIgnoresCase(player: string, address: string)
    ensures IsMe(player, Some(address)) <==> IsMe(Lower(player), Some(Lower(address)))
    ensures IsMe(address, Some(address))
  {
    LowerIdempotent(player);
    LowerIdempotent(address);
  }

  datatype Label = You | AddressOf(text: string)

  /** One rendered leaderboard row. */
  datatype Row = Row(rank: nat, shownAs: Label, isCurrentPlayer: bool, score: int)

  /** The rows of the leaderboard: rank `index + 1`, and "You" exactly for the
      current player's rows. */
  function Rows(entries: seq<LeaderboardEntry>, userAddress: Option<string>, format: string -> string): (r: seq<Row>)
    ensures |r| == |entries|
    ensures forall i :: 0 <= i < |r| ==> r[i].rank == i + 1 && r[i].score == entries[i].score
    ensures forall i :: 0 <= i < |r| ==>
      (r[i].isCurrentPlayer <==> IsMe(entries[i].player, userAddress)) &&
      (r[i].shownAs == You <==> IsMe(entries[i].player, userAddress)) &&
      (!IsMe(entries[i].player, userAddress) ==> r[i].shownAs == AddressOf(format(entries[i].player)))
  {
    seq(|entries|, i requires 0 <= i < |entries| =>
      var me := IsMe(entries[i].player, userAddress);
      Row(i + 1, if me then You else AddressOf(format(entries[i].player)), me, entries[i].score))
  }

  /** Ranks are distinct and follow the list order. */
  lemma RanksFollowOrder(entries: seq<LeaderboardEntry>, userAddress: Option<string>, format: string -> string,
                         i: int, j: int)
    requires 0 <= i < j < |entries|
    ensures Rows(entries, userAddress, format)[i].rank < Rows(entries, userAddress, format)[j].rank
    ensures Rows(entries, userAddress, format)[0].rank == 1
  {
  }

  const MaxHistoryShown := 10

  /** The history card: a placeholder for no games, else the first ten games and the
      "Showing latest 10 games" note when there are more. */
  datatype HistoryPanel = NoGames | Games(shown: seq<Game>, moreNote: bool)

  function History(h: seq<Game>): (p: HistoryPanel)
    ensures p == NoGames <==> |h| == 0
    ensures p.Games? ==> |p.shown| == Min(MaxHistoryShown, |h|) && p.shown == h[..|p.shown|]
    ensures p.Games? ==> (p.moreNote <==> |h| > MaxHistoryShown)
  {
    if |h| == 0 then NoGames
    else Games(if |h| <= MaxHistoryShown then h else h[..MaxHistoryShown], |h| > MaxHistoryShown)
  }

  /** Every game is either shown or counted in the note. */
  lemma HistoryHidesOnlyWithNote(h: seq<Game>, i: int)
    requires 0 <= i < |h|
    ensures History(h).Games?
    ensures i < |History(h).shown| || History(h).moreNote
  {
  }

  /** The `weekData` effect: a truthy week (present and not 0) replaces the current one. */
  function NextWeek(current: nat, weekData: Option<nat>): (w: nat)
    ensures weekData.Some? && weekData.value != 0 ==> w == weekData.value
    ensures !(weekData.Some? && weekData.value != 0) ==> w == current
  {
    if weekData.Some? && weekData.value != 0 then weekData.value else current
  }

  /** The `getCurrentWeek` read runs when a contract address is configured. */
  predicate WeekQueryEnabled(contractAddress: string) {
    contractAddress != ""
  }

  /** The arguments of the `getWeeklyTopScores` read, when it is enabled. */
  function LeaderboardQuery(contractAddress: string, currentWeek: nat): (q: Option<(nat, nat)>)
    ensures q.Some? <==> contractAddress != "" && currentWeek > 0
    ensures q.Some? ==> q.value.0 == currentWeek && q.value.1 == 10
  {
    if contractAddress != "" && currentWeek > 0 then Some((currentWeek, 10)) else None
  }

  /** The argument of the `getPlayerHistory` read, when it is enabled. */
  function HistoryQuery(contractAddress: string, userAddress: Option<string>): (q: Option<string>)
    ensures q.Some? <==> contractAddress != "" && Present(userAddress)
    ensures q.Some? ==> q == userAddress
  {
    if contractAddress != "" && Present(userAddress) then userAddress else None
  }

  /** From the initial week 0, the leaderboard is read only once the contract has
      reported a positive week, and then for that week. */
  lemma LeaderboardWaitsForWeek(contractAddress: string, weekData: Option<nat>)
    ensures LeaderboardQuery(contractAddress, NextWeek(0, weekData)).Some? <==>
      WeekQueryEnabled(contractAddress) && weekData.Some? && weekData.value > 0
    ensures LeaderboardQuery(contractAddress, NextWeek(0, weekData)).Some? ==>
      LeaderboardQuery(contractAddress, NextWeek(0, weekData)).value == (weekData.value, 10)
  {
  }
}
