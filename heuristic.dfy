/** The evaluation interface of the search: one case per heuristic. */
module Heuristic {

  import opened Knowledge
  import opened BattleStatus
  import SimpleHeuristic
  import TeamHeuristic

  datatype Heuristic = Simple | Team(weights: TeamHeuristic.Weights)
  {
    /** The team heuristic reads four weights. */
    predicate WellFormed()
    {
      Team? ==> |weights.parameters| >= 4
    }
  }

  /** compute_score: the node's score under the chosen heuristic at the given depth. */
  function Compute(k: Knowledge, h: Heuristic, s: BattleState, depth: int): real
    requires h.WellFormed()
  {
    match h
    case Simple => SimpleHeuristic.Score(k, s, depth)
    case Team(w) => TeamHeuristic.Score(k, w, s, depth)
  }
}
