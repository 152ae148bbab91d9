/** The evaluation that looks only at the two active combatants: the bot's HP fraction
    minus the opponent's estimated HP fraction. */
module SimpleHeuristic {

  import opened Knowledge
  import opened NodePokemon
  import opened BattleStatus
  import CoreUtils

  /** The opponent's maximum HP, as the HP estimator reports it. */
  function OppMaxHp(k: Knowledge, s: BattleState): real
  {
    k.estimateHp(s.oppPoke.pokemon)
  }

  /** SimpleHeuristic.compute; the depth is accepted and ignored. */
  function Score(k: Knowledge, s: BattleState, depth: int): (r: real)
  {
    s.actPoke.currentHp / s.actPoke.pokemon.maxHp as real - s.oppPoke.currentHp / OppMaxHp(k, s)
  }

  /** The score does not depend on the depth. */
  lemma ScoreIgnoresDepth(k: Knowledge, s: BattleState, d1: int, d2: int)
    ensures Score(k, s, d1) == Score(k, s, d2)
  {
  }

  /** The score is non-decreasing in the bot's HP and non-increasing in the opponent's. */
  lemma {:induction false} ScoreMonotone(k: Knowledge, s: BattleState, depth: int, botHp: real, oppHp: real)
    requires s.actPoke.currentHp <= botHp && oppHp <= s.oppPoke.currentHp
    ensures Score(k, s, depth)
            <= Score(k, s.(actPoke := s.actPoke.(currentHp := botHp), oppPoke := s.oppPoke.(currentHp := oppHp)), depth)
  {
    CoreUtils.DivMonotone(s.actPoke.currentHp, botHp, s.actPoke.pokemon.maxHp as real);
    CoreUtils.DivMonotone(oppHp, s.oppPoke.currentHp, OppMaxHp(k, s));
  }

  /** With both HPs between 0 and their maxima, the score lies in [-1, 1]. */
  lemma {:induction false} ScoreBounded(k: Knowledge, s: BattleState, depth: int)
    requires 0.0 <= s.actPoke.currentHp <= s.actPoke.pokemon.maxHp as real
    requires 0.0 <= s.oppPoke.currentHp <= OppMaxHp(k, s)
    ensures -1.0 <= Score(k, s, depth) <= 1.0
  {
    CoreUtils.Fraction(s.actPoke.currentHp, s.actPoke.pokemon.maxHp as real);
    CoreUtils.Fraction(s.oppPoke.currentHp, OppMaxHp(k, s));
  }
}
