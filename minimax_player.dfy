/** The player's decision procedure: alpha-beta search over simulated battle nodes, the
    terminal test, the recovery of the root action from the best leaf, and the shortcut
    that takes a knock-out when the bot moves first. */
module MiniMaxPlayer {

  import opened Knowledge
  import opened NodePokemon
  import opened BattleStatus
  import opened GameSearch
  import opened Heuristic
  import opened Dict

  /** player_loose: the bot's combatant fainted and has no actions. */
  predicate PlayerLoose(s: BattleState)
  {
    s.actPoke.IsFainted() && |ActAvailActions(s.actPoke)| == 0
  }

  /** opponent_loose: the opponent's combatant fainted and has no actions. */
  predicate OpponentLoose(s: BattleState)
  {
    s.oppPoke.IsFainted() && |OppAvailActions(s.oppPoke)| == 0
  }

  /** is_terminal_node */
  predicate IsTerminal(s: BattleState)
  {
    PlayerLoose(s) || OpponentLoose(s)
  }

  /** A node is terminal exactly when either active combatant has fainted (a fainted
      combatant never has actions). */
  lemma TerminalIffFainted(s: BattleState)
    ensures IsTerminal(s) <==> s.actPoke.IsFainted() || s.oppPoke.IsFainted()
  {
  }

  /** The actions of the side to move. */
  function AvailActions(s: BattleState, myTurn: bool): (r: seq<Action>)
    ensures forall i :: 0 <= i < |r| ==> r[i].UseMove?
  {
    if myTurn then ActAvailActions(s.actPoke) else OppAvailActions(s.oppPoke)
  }

  /** The transition the search applies. The fallback branch is never taken from a
      consistent node (see ExpandIsSimulate); it only makes the step total. */
  function Expand(k: Knowledge, s: BattleState, a: Action, myTurn: bool): (BattleState, BattleState)
  {
    if RosterSafe(s, a, myTurn) then Simulate(k, s, a, myTurn) else (s, s.(move := a))
  }

  /** The battle as a search game for a heuristic and a depth bound: terminal nodes are
      those where a side has lost, the actions are the moving side's available moves, a
      step is the simulated ply, leaves are scored by the heuristic at their depth, and a
      node records the action that produced it. */
  function SearchGame(k: Knowledge, h: Heuristic, maxDepth: nat): (g: Game<BattleState, Action>)
    requires h.WellFormed()
    ensures g.maxDepth == maxDepth
    ensures forall s :: g.terminal(s) <==> s.actPoke.IsFainted() || s.oppPoke.IsFainted()
    ensures forall s, myTurn :: g.actions(s, myTurn) == AvailActions(s, myTurn)
    ensures forall s, a, myTurn :: RosterSafe(s, a, myTurn) ==> g.expand(s, a, myTurn) == Simulate(k, s, a, myTurn)
    ensures forall s, depth: nat :: g.score(s, depth) == Compute(k, h, s, depth)
    ensures forall s :: g.moveOf(s) == s.move
  {
    Game(maxDepth,
         (s: BattleState) => IsTerminal(s),
         (s: BattleState, myTurn: bool) => AvailActions(s, myTurn),
         (s: BattleState, a: Action, myTurn: bool) => Expand(k, s, a, myTurn),
         (s: BattleState, depth: nat) => Compute(k, h, s, depth),
         (s: BattleState) => s.move)
  }

  /** Every simulated child records the action that produced it. */
  lemma SearchGameTracks(k: Knowledge, h: Heuristic, maxDepth: nat)
    requires h.WellFormed()
    ensures SearchGame(k, h, maxDepth).Tracks()
  {
    var g := SearchGame(k, h, maxDepth);
    forall s: BattleState, a: Action, t: bool ensures g.moveOf(g.expand(s, a, t).1) == a {
      if RosterSafe(s, a, t) {
        SimulateShape(k, s, a, t);
      }
    }
  }

  /** A node is consistent when each side's combatant, unless fainted, is the library's
      active Pokémon or a member of its roster. */
  predicate Consistent(s: BattleState)
  {
    && (s.actPoke.IsFainted() || s.actPoke.pokemon.active || s.actPoke.pokemon in s.availSwitches)
    && (s.oppPoke.IsFainted() || s.oppPoke.pokemon.active || s.oppPoke.pokemon in s.oppTeam)
  }

  /** From a consistent non-terminal node, every available action is simulated exactly as
      simulate_action does it, and both the parent afterwards and the child stay consistent. */
  lemma ExpandIsSimulate(k: Knowledge, s: BattleState, a: Action, myTurn: bool)
    requires Consistent(s) && !IsTerminal(s) && a in AvailActions(s, myTurn)
    ensures RosterSafe(s, a, myTurn)
    ensures Expand(k, s, a, myTurn) == Simulate(k, s, a, myTurn)
    ensures Consistent(Expand(k, s, a, myTurn).0) && Consistent(Expand(k, s, a, myTurn).1)
  {
    TerminalIffFainted(s);
    var r := Simulate(k, s, a, myTurn);
    SimulateShape(k, s, a, myTurn);
    var m := a.m;
    if myTurn {
      var opp := r.1.oppPoke;
      assert opp.pokemon == s.oppPoke.pokemon && r.1.actPoke.pokemon == s.actPoke.pokemon;
      assert r.1.availSwitches == s.availSwitches;
      assert !opp.IsFainted() ==> r.1.oppTeam == s.oppTeam;
    } else {
      var act := r.1.actPoke;
      assert act.pokemon == s.actPoke.pokemon && r.1.oppPoke.pokemon == s.oppPoke.pokemon;
      assert r.1.oppTeam == s.oppTeam;
      assert !act.IsFainted() ==> r.1.availSwitches == s.availSwitches;
    }
  }

  /** The move a search result stands for: the splash placeholder (or no result) falls back
      to the random move; otherwise the move of the lineage node whose parent is the root. */
  function BestMoveOf(leaf: seq<BattleState>, randomMove: Action): Action
    requires |leaf| > 0
  {
    if Last(leaf).move == UseMove(Splash) then randomMove
    else if |leaf| > 1 then leaf[1].move
    else leaf[0].move
  }

  /** get_best_move: alpha-beta from the root with the full window and the bot to move,
      then the walk up the ancestor chain to the node just below the root. The random
      fallback move is a parameter. */
  method GetBestMove(k: Knowledge, h: Heuristic, maxDepth: nat, root: BattleState, randomMove: Action)
    returns (best: Action)
    requires h.WellFormed()
    ensures best == BestMoveOf(Value(SearchGame(k, h, maxDepth), [root], 0, true).1, randomMove)
  {
    var g := SearchGame(k, h, maxDepth);
    var score, leaf := FullWindow(g, [root], 0, true);
    best := randomMove;
    var node := Last(leaf);
    if node.move != UseMove(Splash) {
      best := node.move;
      var i := |leaf| - 1;
      while i > 0
        invariant 0 <= i < |leaf|
        invariant best == if i == |leaf| - 1 then leaf[i].move else leaf[i + 1].move
        decreases i
      {
        best := leaf[i].move;
        i := i - 1;
      }
    }
  }

  /** The recovered move is the fallback, the root's own move (the search stopped at the
      root), or one of the bot's available moves at the root. */
  lemma BestMoveIsRootAction(k: Knowledge, h: Heuristic, maxDepth: nat, root: BattleState, randomMove: Action)
    requires h.WellFormed()
    ensures var best := BestMoveOf(Value(SearchGame(k, h, maxDepth), [root], 0, true).1, randomMove);
      best == randomMove || best == root.move || best in ActAvailActions(root.actPoke)
  {
    var g := SearchGame(k, h, maxDepth);
    SearchGameTracks(k, h, maxDepth);
    ValueLeafAction(g, [root], 0, true);
    var leaf := Value(g, [root], 0, true).1;
    assert [root] <= leaf;
    assert leaf[0] == root;
  }

  /** A root whose bot combatant has fainted (or has no moves) is never searched below:
      the recovered move is the fallback or the root's own move. */
  lemma NoActionsNoDescent(k: Knowledge, h: Heuristic, maxDepth: nat, root: BattleState, randomMove: Action)
    requires h.WellFormed()
    requires ActAvailActions(root.actPoke) == []
    ensures Value(SearchGame(k, h, maxDepth), [root], 0, true).1 == [root]
  {
    var g := SearchGame(k, h, maxDepth);
    if !(0 == maxDepth || g.terminal(root)) {
      assert g.actions(root, true) == [];
    }
  }

  // ---------------------------------------------------------------- the knock-out shortcut

  /** The opponent's HP the shortcut assumes: its maximum times its HP fraction, rounded up. */
  function OppStartHp(oppMaxHp: int, opp: Pokemon): int
  {
    Ceil(oppMaxHp as real * opp.hpFraction)
  }

  /** The node hit_if_act_poke_can_outspeed builds for one candidate move. */
  function ShortcutRoot(k: Knowledge, active: Pokemon, available: seq<Move>, opp: Pokemon, weather: WeatherDict,
                        terrains: seq<Field>, oppMaxHp: int, oppConditions: seq<SideCondition>, m: Move): BattleState
  {
    NewState(k, Create(k, active, true, None, None, None, available, None),
             Create(k, opp, false, Some(OppStartHp(oppMaxHp, opp) as real), None, None, opp.moves, None),
             [], [], weather, terrains, oppConditions, UseMove(m), true)
  }

  /** The candidate move's lower damage bound, against the opponent's assumed HP (clamped
      at zero as node construction does), leaves it at zero HP or less. */
  predicate KnocksOut(k: Knowledge, active: Pokemon, opp: Pokemon, weather: WeatherDict,
                      terrains: seq<Field>, oppMaxHp: int, oppConditions: seq<SideCondition>, m: Move)
  {
    var start := OppStartHp(oppMaxHp, opp) as real;
    var hp := if start < 0.0 then 0.0 else start;
    var dmg := k.damage(m, active, opp, FirstKey(weather), terrains, oppConditions, active.boosts, opp.boosts, true).lb;
    hp - dmg as real <= 0.0
  }

  /** Simulating the candidate from the shortcut's node faints the opponent exactly when
      the candidate knocks it out. */
  lemma ShortcutSimulation(k: Knowledge, active: Pokemon, available: seq<Move>, opp: Pokemon,
                           weather: WeatherDict, terrains: seq<Field>, oppMaxHp: int,
                           oppConditions: seq<SideCondition>, m: Move)
    requires opp.active
    ensures var s := ShortcutRoot(k, active, available, opp, weather, terrains, oppMaxHp, oppConditions, m);
      Simulate(k, s, UseMove(m), true).1.oppPoke.IsFainted()
      <==> KnocksOut(k, active, opp, weather, terrains, oppMaxHp, oppConditions, m)
  {
    var s := ShortcutRoot(k, active, available, opp, weather, terrains, oppMaxHp, oppConditions, m);
    var dmg := DamageOf(k, s, m, true);
    var (attBoosts, defBoosts) := UpdatedBoosts(s.actPoke, s.oppPoke, m);
    var hp := s.oppPoke.currentHp - dmg as real;
    assert Simulate(k, s, UseMove(m), true).1.oppPoke
           == Clone(k, s.oppPoke, None, Some(hp), Some(defBoosts), None, None, None);
  }

  /** The first move of available[i..], in order, that knocks the opponent out. */
  function FirstKnockOut(k: Knowledge, active: Pokemon, available: seq<Move>, opp: Pokemon, weather: WeatherDict,
                         terrains: seq<Field>, oppMaxHp: int, oppConditions: seq<SideCondition>, i: nat): Option<Move>
    requires opp.active && i <= |available|
    decreases |available| - i
  {
    if i == |available| then None
    else if KnocksOut(k, active, opp, weather, terrains, oppMaxHp, oppConditions, available[i])
    then Some(available[i])
    else FirstKnockOut(k, active, available, opp, weather, terrains, oppMaxHp, oppConditions, i + 1)
  }

  /** FirstKnockOut finds the earliest knocking-out move at or after i, and None only when
      no move from i on knocks out. */
  lemma {:induction false} FirstKnockOutIsFirst(k: Knowledge, active: Pokemon, available: seq<Move>, opp: Pokemon,
                                                weather: WeatherDict, terrains: seq<Field>, oppMaxHp: int,
                                                oppConditions: seq<SideCondition>, i: nat)
    requires opp.active && i <= |available|
    decreases |available| - i
    ensures var r := FirstKnockOut(k, active, available, opp, weather, terrains, oppMaxHp, oppConditions, i);
      (r.None? <==> forall j :: i <= j < |available| ==>
         !KnocksOut(k, active, opp, weather, terrains, oppMaxHp, oppConditions, available[j]))
      && (r.Some? ==> exists j :: (i <= j < |available| && available[j] == r.value
           && KnocksOut(k, active, opp, weather, terrains, oppMaxHp, oppConditions, r.value)
           && forall l :: i <= l < j ==>
                !KnocksOut(k, active, opp, weather, terrains, oppMaxHp, oppConditions, available[l])))
  {
    if i < |available| {
      FirstKnockOutIsFirst(k, active, available, opp, weather, terrains, oppMaxHp, oppConditions, i + 1);
      if KnocksOut(k, active, opp, weather, terrains, oppMaxHp, oppConditions, available[i]) {
        assert available[i] == available[i];
      }
    }
  }

  /** One candidate of the shortcut: a fresh node whose move is the candidate, simulated
      for the bot's ply. */
  method TryKnockOut(k: Knowledge, active: Pokemon, available: seq<Move>, opp: Pokemon,
                     weather: WeatherDict, terrains: seq<Field>, oppMaxHp: int,
                     oppConditions: seq<SideCondition>, oppHp: int, m: Move)
    returns (fainted: bool)
    requires opp.active && oppHp == OppStartHp(oppMaxHp, opp)
    ensures fainted == KnocksOut(k, active, opp, weather, terrains, oppMaxHp, oppConditions, m)
  {
    var actNode := Create(k, active, true, None, None, None, available, None);
    var oppNode := Create(k, opp, false, Some(oppHp as real), None, None, opp.moves, None);
    var node := new BattleStatus(k, actNode, oppNode, [], [], weather, terrains, oppConditions, null, UseMove(m), true);
    var child := node.SimulateAction(k, UseMove(m), true);
    ShortcutSimulation(k, active, available, opp, weather, terrains, oppMaxHp, oppConditions, m);
    fainted := child.oppPoke.IsFainted();
  }

  /** hit_if_act_poke_can_outspeed: the first available move, in order, whose simulated use
      faints the opponent; otherwise (false, splash). Each candidate is tried on a fresh
      node object. */
  method HitIfActPokeCanOutspeed(k: Knowledge, active: Pokemon, available: seq<Move>, opp: Pokemon,
                                 weather: WeatherDict, terrains: seq<Field>, oppMaxHp: int,
                                 oppConditions: seq<SideCondition>)
    returns (found: bool, move: Move)
    requires opp.active
    ensures var r := FirstKnockOut(k, active, available, opp, weather, terrains, oppMaxHp, oppConditions, 0);
      found == r.Some? && move == (if found then r.value else Splash)
  {
    var oppHp := Ceil(oppMaxHp as real * opp.hpFraction);
    var i := 0;
    while i < |available|
      invariant 0 <= i <= |available|
      invariant FirstKnockOut(k, active, available, opp, weather, terrains, oppMaxHp, oppConditions, 0)
             == FirstKnockOut(k, active, available, opp, weather, terrains, oppMaxHp, oppConditions, i)
    {
      var m := available[i];
      var fainted := TryKnockOut(k, active, available, opp, weather, terrains, oppMaxHp, oppConditions, oppHp, m);
      if fainted {
        return true, m;
      }
      i := i + 1;
    }
    return false, Splash;
  }
}
