/** The main menu's stats summary: what `displayPlayerStats` shows for the state of the
    blockchain service and the reply of `getPlayerScores`. */
module MenuScene {
  import opened Builtins
  import opened Web3Service
  import EndGameScene

  /** The text block the scene adds. */
  datatype StatsPanel =
    | ConnectPrompt                              // "Connect wallet to see your stats"
    | FirstGame                                  // "Play your first game to see stats!"
    | LoadFailed                                 // "Failed to load stats"
    | Summary(last: int, best: int, games: nat)  // last score, best score, games played

  /** `displayPlayerStats`. The connect prompt is shown, and nothing is fetched, without
      the service or a connected wallet. */
  function DisplayPlayerStats(env: Env, reply: ScoresReply): (p: StatsPanel)
    ensures p == ConnectPrompt <==> !env.hasService || !env.Connected()
    ensures p == LoadFailed <==> env.hasService && env.Connected() && reply.Threw?
    ensures p == FirstGame <==> env.hasService && env.Connected() && reply.Returned? && !reply.HasResults()
    ensures p.Summary? <==> env.hasService && env.Connected() && reply.HasResults()
    ensures p.Summary? ==>
      var rs := reply.results.value;
      && p.games == |rs|
      && p.last == rs[|rs| - 1].score
      && (forall i :: 0 <= i < |rs| ==> rs[i].score <= p.best)
      && (exists i :: 0 <= i < |rs| && rs[i].score == p.best)
  {
    if !env.hasService || !env.Connected() then ConnectPrompt
    else if reply.Threw? then LoadFailed
    else if reply.HasResults() then
      var scores := Scores(reply.results.value);
      Summary(scores[|scores| - 1], SeqMax(scores), |scores|)
    else FirstGame
  }

  /** The best score shown is at least the last one. */
  lemma BestAtLeastLast(env: Env, reply: ScoresReply)
    requires DisplayPlayerStats(env, reply).Summary?
    ensures DisplayPlayerStats(env, reply).best >= DisplayPlayerStats(env, reply).last
  {
    var rs := reply.results.value;
    assert rs[|rs| - 1].score <= DisplayPlayerStats(env, reply).best;
  }

  /** The menu and the end-of-game scene report the same best score for the same reply. */
  lemma MenuBestIsEndGameBest(env: Env, reply: ScoresReply)
    requires DisplayPlayerStats(env, reply).Summary?
    ensures DisplayPlayerStats(env, reply).best == EndGameScene.BestScore(env, reply)
  {
    var rs := reply.results.value;
    var a, b := DisplayPlayerStats(env, reply).best, EndGameScene.BestScore(env, reply);
    var i :| 0 <= i < |rs| && rs[i].score == a;
    var j :| 0 <= j < |rs| && rs[j].score == b;
    assert a <= b && b <= a;
  }
}
