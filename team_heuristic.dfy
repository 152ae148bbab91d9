/** The evaluation that weighs the whole team: the bot's total HP fraction and number of
    usable members against the opponent's active HP fraction and number of members not
    known to have fainted, minus a penalty per depth level. */
module TeamHeuristic {

  import opened Knowledge
  import opened NodePokemon
  import opened BattleStatus

  /** The weights found by random search. */
  const BestParameters: seq<real> :=
    [0.29845110404242714, 0.12477383583753021, 0.18681976327640784, 0.3899552968436348]
  const BestPenalty: real := 0.036475451823316817

  /** The four weights b1, b2, m1, m2 and the depth penalty p1. */
  datatype Weights = Weights(parameters: seq<real>, penalty: real)

  /** TeamHeuristic.__init__: an omitted parameter list or penalty takes the tuned default. */
  function NewWeights(parameters: Option<seq<real>>, penalty: Option<real>): Weights
  {
    Weights(if parameters.None? then BestParameters else parameters.value,
            if penalty.None? then BestPenalty else penalty.value)
  }

  /** The HP fractions of the bench, summed. */
  function BenchHp(bench: seq<Pokemon>): (r: real)
    ensures 0.0 <= r <= |bench| as real
  {
    if bench == [] then 0.0 else BenchHp(bench[..|bench| - 1]) + bench[|bench| - 1].hpFraction
  }

  /** team_hp: the active combatant's HP fraction plus the bench's. */
  function TeamHp(s: BattleState): real
  {
    s.actPoke.currentHp / s.actPoke.pokemon.maxHp as real + BenchHp(s.availSwitches)
  }

  /** alive_team: the bench plus the active combatant unless it fainted. */
  function AliveTeam(s: BattleState): nat
  {
    |s.availSwitches| + if !s.actPoke.IsFainted() then 1 else 0
  }

  /** The members of `team` the library reports as fainted. */
  function FaintedCount(team: seq<Pokemon>): (r: nat)
    ensures r <= |team|
    ensures r == |team| <==> forall i :: 0 <= i < |team| ==> team[i].fainted
    ensures r == 0 <==> forall i :: 0 <= i < |team| ==> !team[i].fainted
  {
    if team == [] then 0
    else
      var rest := FaintedCount(team[1..]);
      assert forall i :: 1 <= i < |team| ==> team[i] == team[1..][i - 1];
      (if team[0].fainted then 1 else 0) + rest
  }

  /** opp_team_len: six minus the opponent's fainted members. */
  function OppTeamLen(s: BattleState): int
  {
    6 - FaintedCount(s.oppTeam)
  }

  /** The weighted formula over the five components, with b1, b2, m1, m2 the first four
      weights and p1 the penalty. */
  function Formula(h: Weights, teamHp: real, aliveTeam: real, oppHp: real, oppTeamLen: real, depth: int): real
    requires |h.parameters| >= 4
  {
    var b1 := h.parameters[0];
    var b2 := h.parameters[1];
    var m1 := h.parameters[2];
    var m2 := h.parameters[3];
    b1 * (teamHp / 6.0) + b2 * (aliveTeam / 6.0) - m1 * oppHp - m2 * (oppTeamLen / 6.0) - h.penalty * depth as real
  }

  /** The opponent's HP over its estimated maximum. */
  function OppHpFraction(k: Knowledge, s: BattleState): real
  {
    s.oppPoke.currentHp / k.estimateHp(s.oppPoke.pokemon)
  }

  /** TeamHeuristic.compute */
  function Score(k: Knowledge, h: Weights, s: BattleState, depth: int): real
    requires |h.parameters| >= 4
  {
    Formula(h, TeamHp(s), AliveTeam(s) as real, OppHpFraction(k, s), OppTeamLen(s) as real, depth)
  }

  /** The computation as written: the bench fractions accumulated into team_hp in a loop. */
  method ComputeScore(k: Knowledge, h: Weights, s: BattleState, depth: int) returns (score: real)
    requires |h.parameters| >= 4
    ensures score == Score(k, h, s, depth)
  {
    var active := s.actPoke.currentHp / s.actPoke.pokemon.maxHp as real;
    var teamHp := active;
    var i := 0;
    while i < |s.availSwitches|
      invariant 0 <= i <= |s.availSwitches|
      invariant teamHp == active + BenchHp(s.availSwitches[..i])
    {
      assert s.availSwitches[..i + 1][..i] == s.availSwitches[..i];
      assert BenchHp(s.availSwitches[..i + 1]) == BenchHp(s.availSwitches[..i]) + s.availSwitches[i].hpFraction;
      teamHp := teamHp + s.availSwitches[i].hpFraction;
      i := i + 1;
    }
    assert s.availSwitches[..i] == s.availSwitches;
    assert teamHp == TeamHp(s);
    var aliveTeam := |s.availSwitches|;
    if !s.actPoke.IsFainted() {
      aliveTeam := aliveTeam + 1;
    }
    var oppTeamLen := 6 - FaintedCount(s.oppTeam);
    assert aliveTeam == AliveTeam(s) && oppTeamLen == OppTeamLen(s);
    var oppHp := s.oppPoke.currentHp;
    var oppMaxHp := k.estimateHp(s.oppPoke.pokemon);
    score := Formula(h, teamHp, aliveTeam as real, oppHp / oppMaxHp, oppTeamLen as real, depth);
  }

  /** One level deeper costs exactly the penalty, everything else fixed. */
  lemma DepthPenalty(k: Knowledge, h: Weights, s: BattleState, depth: int)
    requires |h.parameters| >= 4
    ensures Score(k, h, s, depth + 1) == Score(k, h, s, depth) - h.penalty
  {
    FormulaDepth(h, TeamHp(s), AliveTeam(s) as real, OppHpFraction(k, s), OppTeamLen(s) as real, depth);
  }

  /** The formula's depth term is linear in the depth. */
  lemma FormulaDepth(h: Weights, teamHp: real, aliveTeam: real, oppHp: real, oppTeamLen: real, depth: int)
    requires |h.parameters| >= 4
    ensures Formula(h, teamHp, aliveTeam, oppHp, oppTeamLen, depth + 1)
         == Formula(h, teamHp, aliveTeam, oppHp, oppTeamLen, depth) - h.penalty
  {
    var rest := Formula(h, teamHp, aliveTeam, oppHp, oppTeamLen, 0);
    assert Formula(h, teamHp, aliveTeam, oppHp, oppTeamLen, depth) == rest - h.penalty * depth as real;
    assert Formula(h, teamHp, aliveTeam, oppHp, oppTeamLen, depth + 1) == rest - h.penalty * (depth + 1) as real;
  }

  /** With the bot's active HP in [0, max], team_hp lies between 0 and the team size. */
  lemma {:induction false} TeamHpBounded(s: BattleState)
    requires 0.0 <= s.actPoke.currentHp <= s.actPoke.pokemon.maxHp as real
    ensures 0.0 <= TeamHp(s) <= 1.0 + |s.availSwitches| as real
  {
    CoreUtils.Fraction(s.actPoke.currentHp, s.actPoke.pokemon.maxHp as real);
  }

  /** When the opponent's team lists no fainted member, all six count as remaining. */
  lemma NoFaintedOpponents(s: BattleState)
    requires forall i :: 0 <= i < |s.oppTeam| ==> !s.oppTeam[i].fainted
    ensures OppTeamLen(s) == 6
  {
  }

  import CoreUtils
}
