/** When to switch the active combatant out, and whom to bring in. */
module Switch {

  import opened Knowledge
  import opened Dict
  import CoreUtils

  /** should_switch with the two attacker-kind tests given as parameters: `physical`
      guards the attack-stage test, `special` the special-attack-stage test. */
  function ShouldSwitchWith(bot: Pokemon, physical: bool, special: bool, matchup: real, outspeedP: real,
                            maxTeamMatchup: real, toxicTurn: int): (r: bool)
    ensures bot.isDynamaxed ==> (r <==> matchup <= -4.0)
    ensures !bot.isDynamaxed && maxTeamMatchup <= matchup ==> !r
    ensures !bot.isDynamaxed && maxTeamMatchup > matchup ==>
      (r <==> (bot.status == Some(Tox) && matchup - toxicTurn as real <= -2.0)
              || bot.boosts.def <= -2 || bot.boosts.spd <= -2
              || (physical && bot.boosts.atk <= -2)
              || (special && bot.boosts.spa <= -2)
              || matchup <= -1.5
              || (matchup <= -1.0 && outspeedP <= 0.5))
  {
    if bot.isDynamaxed then
      matchup <= -4.0
    else if maxTeamMatchup > matchup then
      if bot.status == Some(Tox) && matchup - toxicTurn as real <= -2.0 then true
      else if bot.boosts.def <= -2 || bot.boosts.spd <= -2 then true
      else if physical && (matchup <= -1.5 || bot.boosts.atk <= -2) then true
      else if special && (matchup <= -1.5 || bot.boosts.spa <= -2) then true
      else if matchup <= -1.5 then true
      else matchup <= -1.0 && outspeedP <= 0.5
    else
      false
  }

  /** should_switch as written: a combatant counts as a physical attacker when its base
      attack exceeds its special-attack STAGE, and as a special attacker when its base
      special attack exceeds its attack STAGE. */
  function ShouldSwitch(bot: Pokemon, matchup: real, outspeedP: real, maxTeamMatchup: real, toxicTurn: int): bool
  {
    ShouldSwitchWith(bot, bot.baseStats.atk > bot.boosts.spa, bot.baseStats.spa > bot.boosts.atk,
                     matchup, outspeedP, maxTeamMatchup, toxicTurn)
  }

  /** should_switch as its comments describe it: physical and special attackers told apart
      by their base attack and base special attack. */
  function ShouldSwitchIntended(bot: Pokemon, matchup: real, outspeedP: real, maxTeamMatchup: real, toxicTurn: int): bool
  {
    ShouldSwitchWith(bot, bot.baseStats.atk > bot.baseStats.spa, bot.baseStats.spa > bot.baseStats.atk,
                     matchup, outspeedP, maxTeamMatchup, toxicTurn)
  }

  /** In the intended rule, the attack stage of a combatant that is not a physical attacker
      never decides a switch. */
  lemma IntendedIgnoresAtkStageOfSpecialAttacker(bot: Pokemon, atk: int, matchup: real, outspeedP: real,
                                                 maxTeamMatchup: real, toxicTurn: int)
    requires bot.baseStats.atk <= bot.baseStats.spa
    ensures ShouldSwitchIntended(bot.(boosts := bot.boosts.(atk := atk)), matchup, outspeedP, maxTeamMatchup, toxicTurn)
         == ShouldSwitchIntended(bot, matchup, outspeedP, maxTeamMatchup, toxicTurn)
  {
  }

  /** A special attacker (base attack 50, base special attack 120) with every stage at
      zero except an attack stage of -2: as written it switches, though nothing but the
      attack stage it does not rely on calls for it. */
  lemma AsWrittenSwitchesOnAtkStageOfSpecialAttacker()
    ensures var bot := Pokemon("alakazam", [Some(Psychic)], BaseStats(55, 50, 45, 120, 95, 120), 100, 100, 1.0,
                               Boosts(-2, 0, 0, 0, 0, 0, 0), None, map[], [], "magicguard", false, true, false, 50);
      && bot.baseStats.atk <= bot.baseStats.spa
      && ShouldSwitch(bot, 0.0, 1.0, 1.0, 0)
      && !ShouldSwitch(bot.(boosts := NeutralBoosts), 0.0, 1.0, 1.0, 0)
      && !ShouldSwitchIntended(bot, 0.0, 1.0, 1.0, 0)
  {
  }

  /** The probability, under compute_best_switch's defaults, that `p` outspeeds `opp`. */
  function OutspeedP(k: Knowledge, p: Pokemon, opp: Pokemon, weather: Option<Weather>, terrains: seq<Field>): real
  {
    CoreUtils.OutspeedProb(k, p, opp, weather, terrains, None, true).p
  }

  /** best_switches: the team members whose matchup equals the best one, in order. */
  function BestSwitches(teamMatchups: Dict<Pokemon, real>, maxTeamMatchup: real): (r: seq<Pokemon>)
    ensures forall p :: p in r ==> exists i :: 0 <= i < |teamMatchups| && teamMatchups[i] == (p, maxTeamMatchup)
    ensures forall i :: 0 <= i < |teamMatchups| && teamMatchups[i].1 == maxTeamMatchup ==> teamMatchups[i].0 in r
  {
    if teamMatchups == [] then []
    else
      var rest := BestSwitches(teamMatchups[1..], maxTeamMatchup);
      assert forall i :: 1 <= i < |teamMatchups| ==> teamMatchups[i] == teamMatchups[1..][i - 1];
      if teamMatchups[0].1 == maxTeamMatchup then [teamMatchups[0].0] + rest else rest
  }

  /** outspeed_opp: the candidates more likely than 0.6 to outspeed the opponent, in order. */
  function Faster(k: Knowledge, candidates: seq<Pokemon>, opp: Pokemon, weather: Option<Weather>,
                  terrains: seq<Field>): (r: seq<Pokemon>)
    ensures forall p :: p in r <==> p in candidates && OutspeedP(k, p, opp, weather, terrains) > 0.6
  {
    if candidates == [] then []
    else
      var rest := Faster(k, candidates[1..], opp, weather, terrains);
      assert forall p :: p in candidates <==> p == candidates[0] || p in candidates[1..];
      if OutspeedP(k, candidates[0], opp, weather, terrains) > 0.6 then [candidates[0]] + rest else rest
  }

  /** compute_best_switch: None for an empty team; otherwise a member with the best matchup,
      taken among those likely to outspeed the opponent when there are any. The random
      index is the parameter `pick`, reduced modulo the number of candidates. */
  function ComputeBestSwitch(k: Knowledge, teamMatchups: Dict<Pokemon, real>, opp: Pokemon,
                             weather: Option<Weather>, terrains: seq<Field>, maxTeamMatchup: real,
                             pick: nat): (r: Option<Pokemon>)
    requires |teamMatchups| > 0 ==> exists i :: 0 <= i < |teamMatchups| && teamMatchups[i].1 == maxTeamMatchup
    ensures r.None? <==> |teamMatchups| == 0
    ensures r.Some? ==> exists i :: 0 <= i < |teamMatchups| && teamMatchups[i] == (r.value, maxTeamMatchup)
    ensures r.Some? && (exists i :: 0 <= i < |teamMatchups| && teamMatchups[i].1 == maxTeamMatchup
                                    && OutspeedP(k, teamMatchups[i].0, opp, weather, terrains) > 0.6) ==>
      OutspeedP(k, r.value, opp, weather, terrains) > 0.6
  {
    if |teamMatchups| > 0 then
      var best := BestSwitches(teamMatchups, maxTeamMatchup);
      var outspeedOpp := Faster(k, best, opp, weather, terrains);
      if |outspeedOpp| > 0 then
        Some(outspeedOpp[pick % |outspeedOpp|])
      else
        var i :| 0 <= i < |teamMatchups| && teamMatchups[i].1 == maxTeamMatchup;
        assert teamMatchups[i].0 in best;
        assert forall j :: 0 <= j < |teamMatchups| && teamMatchups[j].1 == maxTeamMatchup ==>
          teamMatchups[j].0 in best && OutspeedP(k, teamMatchups[j].0, opp, weather, terrains) <= 0.6;
        Some(best[pick % |best|])
    else
      None
  }
}
