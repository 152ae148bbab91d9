/** When to use the dynamax gimmick. */
module Gimmick {

  import opened Knowledge

  /** How many of `team` are at full HP. */
  function FullHpCount(team: seq<Pokemon>): (r: nat)
    ensures r <= |team|
    ensures r == 0 <==> forall i :: 0 <= i < |team| ==> team[i].hpFraction != 1.0
  {
    if team == [] then 0
    else
      assert forall i :: 1 <= i < |team| ==> team[i] == team[1..][i - 1];
      (if team[0].hpFraction == 1.0 then 1 else 0) + FullHpCount(team[1..])
  }

  /** should_dynamax: `botTeam` holds the bot's other members that have not fainted, and
      `bestStats` the largest base-stat total in the bot's team. */
  function ShouldDynamax(bot: Pokemon, botTeam: seq<Pokemon>, matchup: real, maxTeamMatchup: real,
                         bestStats: int): (r: bool)
    ensures |botTeam| == 0 ==> r
    ensures bot.baseStats.Sum() == bestStats && matchup >= 1.0 && bot.hpFraction >= 0.8 ==> r
    ensures bot.hpFraction == 1.0 && (forall i :: 0 <= i < |botTeam| ==> botTeam[i].hpFraction != 1.0) ==> r
    ensures bot.hpFraction == 1.0 && matchup >= maxTeamMatchup && matchup > 2.0 ==> r
    ensures |botTeam| > 0 && bot.hpFraction < 0.8 ==> !r
  {
    if |botTeam| == 0 then true
    else if bot.baseStats.Sum() == bestStats && matchup >= 1.0 && bot.hpFraction >= 0.8 then true
    else if bot.hpFraction == 1.0 && FullHpCount(botTeam) == 0 then true
    else if bot.hpFraction == 1.0 && matchup >= maxTeamMatchup && matchup > 2.0 then true
    else matchup >= maxTeamMatchup && matchup > 2.0 && bot.hpFraction == 1.0
  }

  /** The decision in full: the last test of should_dynamax repeats the full-HP favourable
      matchup test before it, so it never changes the outcome. */
  lemma ShouldDynamaxCases(bot: Pokemon, botTeam: seq<Pokemon>, matchup: real,
                            maxTeamMatchup: real, bestStats: int)
    ensures ShouldDynamax(bot, botTeam, matchup, maxTeamMatchup, bestStats) <==>
      |botTeam| == 0
      || (bot.baseStats.Sum() == bestStats && matchup >= 1.0 && bot.hpFraction >= 0.8)
      || (bot.hpFraction == 1.0 && (forall i :: 0 <= i < |botTeam| ==> botTeam[i].hpFraction != 1.0))
      || (bot.hpFraction == 1.0 && matchup >= maxTeamMatchup && matchup > 2.0)
  {
  }
}
