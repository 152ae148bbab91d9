/** A node of the simulated battle: both active combatants, the rosters, the field,
    the action that produced it, and the transition that derives a child node from an
    action. The rule functions (weather, recoil, drain, healing, stat stages, roster
    removal) are the integer and real bookkeeping of one ply. */
module BattleStatus {

  import opened Knowledge
  import opened Dict
  import opened NodePokemon
  import opened CoreUtils

  /** The weather dictionary: weather to its turn counter, at most one entry in practice. */
  type WeatherDict = Dict<Weather, int>

  // ---------------------------------------------------------------- weather

  /** The per-entry counter update of a turn, folded over `entries` in iteration order.
      A counter below 5 is incremented in the dictionary the name currently denotes; a
      counter of 5 or more rebinds the name to a fresh empty dictionary. */
  function TurnUpdate(entries: WeatherDict, current: WeatherDict): WeatherDict
  {
    if entries == [] then current
    else TurnUpdate(entries[1..], Advance(current, entries[0].0, entries[0].1))
  }

  /** The update of one entry: a counter below 5 is incremented in `current`; a counter of
      5 or more replaces `current` by a fresh empty dictionary. */
  function Advance(current: WeatherDict, key: Weather, val: int): WeatherDict
  {
    if val < 5 then Set(current, key, val + 1) else []
  }

  /** get_active_weather as a value: a move that sets weather starts it at counter 1;
      otherwise, at the end of a turn the counters advance; otherwise nothing changes. */
  function ActiveWeather(weather: WeatherDict, moveWeather: Option<Weather>, updateTurn: bool): (r: WeatherDict)
    ensures moveWeather.Some? ==> r == [(moveWeather.value, 1)]
    ensures moveWeather.None? && !updateTurn ==> r == weather
  {
    var advanced := if |weather| > 0 && updateTurn then TurnUpdate(weather, weather) else weather;
    if moveWeather.Some? then [(moveWeather.value, 1)] else advanced
  }

  /** One step of the counter update, from entry `i` on. */
  lemma TurnUpdateStep(items: WeatherDict, i: nat, current: WeatherDict)
    requires i < |items|
    ensures TurnUpdate(items[i..], current) == TurnUpdate(items[i + 1..], Advance(current, items[i].0, items[i].1))
  {
  }

  /** The end-of-turn loop of get_active_weather over the entries of a copy of `items`. */
  method AdvanceCounters(items: WeatherDict) returns (r: WeatherDict)
    ensures r == TurnUpdate(items, items)
  {
    r := items;
    var i := 0;
    while i < |items|
      invariant 0 <= i <= |items|
      invariant TurnUpdate(items[i..], r) == TurnUpdate(items, items)
    {
      var key := items[i].0;
      var val := items[i].1;
      TurnUpdateStep(items, i, r);
      r := Advance(r, key, val);
      i := i + 1;
    }
    assert items[i..] == [];
  }

  /** A single weather entry: below 5 its counter increments, at 5 or more it clears. */
  lemma SingleWeatherTurn(w: Weather, c: int)
    ensures ActiveWeather([(w, c)], None, true) == if c < 5 then [(w, c + 1)] else []
  {
    var d: WeatherDict := [(w, c)];
    assert d[1..] == [];
    assert TurnUpdate(d, d) == TurnUpdate(d[1..], if c < 5 then Set(d, w, c + 1) else []);
    if c < 5 {
      assert Set(d, w, c + 1) == [(w, c + 1)] + d[1..];
    }
  }

  /** The weather after `n` end-of-turn updates with no weather-setting move. */
  function Decayed(weather: WeatherDict, n: nat): WeatherDict
    decreases n
  {
    if n == 0 then weather else Decayed(ActiveWeather(weather, None, true), n - 1)
  }

  /** The (n+1)-th update applies to the weather after n updates. */
  lemma {:induction false} DecayedLast(weather: WeatherDict, n: nat)
    ensures Decayed(weather, n + 1) == ActiveWeather(Decayed(weather, n), None, true)
    decreases n
  {
    if n > 0 {
      var next := ActiveWeather(weather, None, true);
      DecayedLast(next, n - 1);
      assert Decayed(weather, n + 1) == Decayed(next, n);
      assert Decayed(weather, n) == Decayed(next, n - 1);
    }
  }

  /** A weather at counter c (1..5) keeps going for 5 - c more turns, incrementing. */
  lemma {:induction false} WeatherCounts(w: Weather, c: int, n: nat)
    requires 1 <= c && c + n <= 5
    ensures Decayed([(w, c)], n) == [(w, c + n)]
    decreases n
  {
    if n > 0 {
      SingleWeatherTurn(w, c);
      WeatherCounts(w, c + 1, n - 1);
    }
  }

  /** A weather set by a move is cleared by exactly the fifth end-of-turn update. */
  lemma WeatherLifetime(w: Weather)
    ensures forall n :: 0 <= n < 5 ==> Decayed([(w, 1)], n) == [(w, 1 + n)]
    ensures Decayed([(w, 1)], 5) == []
  {
    forall n | 0 <= n < 5 ensures Decayed([(w, 1)], n) == [(w, 1 + n)] {
      WeatherCounts(w, 1, n);
    }
    WeatherCounts(w, 1, 4);
    DecayedLast([(w, 1)], 4);
    SingleWeatherTurn(w, 5);
  }

  // ---------------------------------------------------------------- recoil, drain, healing

  /** compute_recoil */
  function Recoil(poke: NodePoke, move: Move, damage: int): (r: int)
    ensures move.recoil == 0.0 || poke.pokemon.ability == "magicguard" ==> r == 0
    ensures move.recoil != 0.0 && poke.pokemon.ability != "magicguard" ==>
      if move.id == "mindblown" || move.id == "steelbeam" then r == poke.pokemon.maxHp / 2
      else if move.selfDestruct then r == 1000
      else damage as real * move.recoil <= r as real < damage as real * move.recoil + 1.0
    ensures damage >= 0 && move.recoil >= 0.0 ==> r >= 0
  {
    if move.recoil == 0.0 || poke.pokemon.ability == "magicguard" then 0
    else if move.id == "mindblown" || move.id == "steelbeam" then poke.pokemon.maxHp / 2
    else if move.selfDestruct then 1000
    else Ceil(damage as real * move.recoil)
  }

  /** compute_drain: the truncated share of the damage, capped so that the drainer's
      current HP plus the drain does not exceed its maximum. */
  function Drain(poke: NodePoke, move: Move, damage: int): (r: real)
    ensures move.drain == 0.0 ==> r == 0.0
    ensures move.drain != 0.0 ==> poke.currentHp + r <= poke.pokemon.maxHp as real
    ensures move.drain != 0.0 && poke.currentHp + Trunc(damage as real * move.drain) as real <= poke.pokemon.maxHp as real
            ==> r == Trunc(damage as real * move.drain) as real
    ensures move.drain != 0.0 && poke.currentHp + Trunc(damage as real * move.drain) as real > poke.pokemon.maxHp as real
            ==> r == poke.pokemon.maxHp as real - poke.currentHp
  {
    if move.drain == 0.0 then 0.0
    else
      var maxHp := poke.pokemon.maxHp as real;
      var drain := Trunc(damage as real * move.drain) as real;
      if poke.currentHp + drain <= maxHp then drain else maxHp - poke.currentHp
  }

  /** The status moves that heal more under sun and less under other weather. */
  predicate SunHealingMove(m: Move) { m.id == "morningsun" || m.id == "moonlight" || m.id == "synthesis" }

  /** The healing fraction before the strength-sap and rest special cases. */
  function HealingFraction(move: Move, weather: Option<Weather>): real
  {
    if move.id == "shoreup" && weather == Some(Sandstorm) then 0.66
    else if SunHealingMove(move) && weather in {Some(SunnyDay), Some(DesolateLand)} then 0.66
    else if SunHealingMove(move) && weather in {Some(RainDance), Some(PrimordialSea), Some(Hail), Some(Sandstorm)} then 0.25
    else 0.5
  }

  /** The attack stage strength sap heals from: one higher under contrary (at most 6),
      one lower otherwise (at least -6). */
  function SappedStage(poke: NodePoke): int
  {
    var atk := poke.boosts.atk;
    if poke.pokemon.ability == "contrary" then (if atk < 6 then atk + 1 else 6)
    else if atk > -6 then atk - 1 else -6
  }

  /** The raw healing of strength sap: the (estimated) attack stat with its modifiers at
      the post-move stage, truncated. */
  function SappedHealing(k: Knowledge, poke: NodePoke, weather: Option<Weather>, terrains: seq<Field>): int
  {
    var atkStat := if poke.isActPoke then k.ownAtk(poke.pokemon) else k.estimateAtk(poke.pokemon);
    Trunc(atkStat * k.atkModifier(poke.pokemon, weather, terrains) * k.atkStageMultiplier(poke.pokemon, SappedStage(poke)))
  }

  /** A healing move the model recognises at all: a status move with a positive heal. */
  predicate IsHealingStatusMove(move: Move) { move.category == StatusMove && move.heal > 0.0 }

  /** compute_healing */
  function Healing(k: Knowledge, poke: NodePoke, move: Move, weather: Option<Weather>, terrains: seq<Field>): (r: real)
    ensures !IsHealingStatusMove(move) ==> r == 0.0
    ensures poke.pokemon.isDynamaxed || move.id !in k.healingMoves ==> r == 0.0
    ensures move.id == "purify" && (poke.status.None? || poke.status.value !in k.statusConditions) ==> r == 0.0
    ensures move.id == "rest" && (ElectricTerrain in terrains || PsychicTerrain in terrains) ==> r == 0.0
    ensures move.id == "rest" && IsHealingStatusMove(move) && !poke.pokemon.isDynamaxed && move.id in k.healingMoves
            && ElectricTerrain !in terrains && PsychicTerrain !in terrains
            ==> r == poke.pokemon.maxHp as real - poke.currentHp
    ensures move.id == "strengthsap" && poke.pokemon.ability != "contrary" && poke.boosts.atk == -6 ==> r == 0.0
    ensures move.id != "rest" && r != 0.0 ==> poke.currentHp + r <= poke.pokemon.maxHp as real
    ensures IsHealingStatusMove(move) && !poke.pokemon.isDynamaxed && move.id in k.healingMoves
            && !(move.id == "purify" && (poke.status.None? || poke.status.value !in k.statusConditions))
            && move.id != "rest"
            && !(move.id == "strengthsap" && poke.pokemon.ability != "contrary" && poke.boosts.atk == -6)
            ==> var raw := if move.id == "strengthsap" then SappedHealing(k, poke, weather, terrains) as real
                           else Trunc(poke.pokemon.maxHp as real * HealingFraction(move, weather)) as real;
                r == (if poke.currentHp + raw <= poke.pokemon.maxHp as real then raw
                      else poke.pokemon.maxHp as real - poke.currentHp)
  {
    if !IsHealingStatusMove(move) then 0.0
    else if poke.pokemon.isDynamaxed || move.id !in k.healingMoves then 0.0
    else
      var maxHp := poke.pokemon.maxHp as real;
      var currentHp := poke.currentHp;
      if move.id == "purify" && (poke.status.None? || poke.status.value !in k.statusConditions) then 0.0
      else if move.id == "rest" then
        if ElectricTerrain in terrains || PsychicTerrain in terrains then 0.0 else maxHp - currentHp
      else if move.id == "strengthsap" && poke.pokemon.ability != "contrary" && poke.boosts.atk == -6 then 0.0
      else
        var healing :=
          if move.id == "strengthsap" then SappedHealing(k, poke, weather, terrains) as real
          else Trunc(maxHp * HealingFraction(move, weather)) as real;
        if currentHp + healing <= maxHp then healing else maxHp - currentHp
  }

  // ---------------------------------------------------------------- stat stages

  function Delta(deltas: map<Stat, int>, s: Stat): int
  {
    if s in deltas then deltas[s] else 0
  }

  /** A stage dictionary with every stat shifted by its delta (no clamping to [-6, 6]). */
  function Shift(b: Boosts, deltas: map<Stat, int>): (r: Boosts)
    ensures forall s :: r.Get(s) == b.Get(s) + Delta(deltas, s)
  {
    Boosts(b.atk + Delta(deltas, Atk), b.def + Delta(deltas, Def), b.spa + Delta(deltas, Spa),
           b.spd + Delta(deltas, Spd), b.spe + Delta(deltas, Spe),
           b.accuracy + Delta(deltas, Accuracy), b.evasion + Delta(deltas, Evasion))
  }

  /** `boosts[s] += v` */
  function AddTo(b: Boosts, s: Stat, v: int): (r: Boosts)
    ensures r.Get(s) == b.Get(s) + v
    ensures forall t :: t != s ==> r.Get(t) == b.Get(t)
  {
    match s
    case Atk => b.(atk := b.atk + v)
    case Def => b.(def := b.def + v)
    case Spa => b.(spa := b.spa + v)
    case Spd => b.(spd := b.spd + v)
    case Spe => b.(spe := b.spe + v)
    case Accuracy => b.(accuracy := b.accuracy + v)
    case Evasion => b.(evasion := b.evasion + v)
  }

  lemma BoostsExt(a: Boosts, b: Boosts)
    requires forall s :: a.Get(s) == b.Get(s)
    ensures a == b
  {
    assert a.Get(Atk) == b.Get(Atk) && a.Get(Def) == b.Get(Def) && a.Get(Spa) == b.Get(Spa);
    assert a.Get(Spd) == b.Get(Spd) && a.Get(Spe) == b.Get(Spe);
    assert a.Get(Accuracy) == b.Get(Accuracy) && a.Get(Evasion) == b.Get(Evasion);
  }

  /** The stage changes a move carries: its target boosts, else its self boosts. */
  function MoveBoosts(move: Move): Option<map<Stat, int>>
  {
    if move.boosts.None? then move.selfBoost else move.boosts
  }

  /** compute_updated_boosts as a value: the attacker's and defender's new stages. */
  function UpdatedBoosts(att: NodePoke, def: NodePoke, move: Move): (r: (Boosts, Boosts))
    ensures MoveBoosts(move).None? || (move.target != "self" && move.target != "normal") ==>
      r == (att.boosts, def.boosts)
    ensures MoveBoosts(move).Some? && move.target == "self" ==>
      r.1 == def.boosts && forall s :: r.0.Get(s) == att.boosts.Get(s) + Delta(MoveBoosts(move).value, s)
    ensures MoveBoosts(move).Some? && move.target == "normal" ==>
      r.0 == att.boosts && forall s :: r.1.Get(s) == def.boosts.Get(s) + Delta(MoveBoosts(move).value, s)
  {
    var boosts := MoveBoosts(move);
    if boosts.None? then (att.boosts, def.boosts)
    else if move.target == "self" then (Shift(att.boosts, boosts.value), def.boosts)
    else if move.target == "normal" then (att.boosts, Shift(def.boosts, boosts.value))
    else (att.boosts, def.boosts)
  }

  /** The stage update adds each delta to a copy, one stat at a time. */
  method ApplyDeltas(b: Boosts, deltas: map<Stat, int>) returns (r: Boosts)
    ensures r == Shift(b, deltas)
  {
    r := b;
    var todo := deltas.Keys;
    while todo != {}
      invariant todo <= deltas.Keys
      invariant forall s :: r.Get(s) == b.Get(s) + (if s in deltas && s !in todo then deltas[s] else 0)
      decreases todo
    {
      var s :| s in todo;
      r := AddTo(r, s, deltas[s]);
      todo := todo - {s};
    }
    BoostsExt(r, Shift(b, deltas));
  }

  /** compute_updated_boosts: copies of both stage dictionaries, the move's deltas added to
      the attacker's copy for a self-targeting move and to the defender's for a normal one. */
  method ComputeUpdatedBoosts(att: NodePoke, def: NodePoke, move: Move) returns (attBoosts: Boosts, defBoosts: Boosts)
    ensures (attBoosts, defBoosts) == UpdatedBoosts(att, def, move)
  {
    attBoosts := att.boosts;
    defBoosts := def.boosts;
    var boosts := MoveBoosts(move);
    if boosts.Some? {
      if move.target == "self" {
        attBoosts := ApplyDeltas(attBoosts, boosts.value);
      } else if move.target == "normal" {
        defBoosts := ApplyDeltas(defBoosts, boosts.value);
      }
    }
  }

  /** Stages are not clamped: a self-boost of +2 at stage +6 gives +8. */
  lemma StagesNotClamped(att: NodePoke, def: NodePoke, move: Move)
    requires MoveBoosts(move) == Some(map[Atk := 2]) && move.target == "self"
    requires att.boosts.atk == 6
    ensures UpdatedBoosts(att, def, move).0.atk == 8
  {
    assert UpdatedBoosts(att, def, move).0.Get(Atk) == 6 + Delta(map[Atk := 2], Atk);
  }

  // ---------------------------------------------------------------- rosters and actions

  /** The position of the first occurrence of `p` in `team`. */
  function IndexOf(team: seq<Pokemon>, p: Pokemon): (i: nat)
    requires p in team
    ensures i < |team| && team[i] == p && p !in team[..i]
  {
    if team[0] == p then 0
    else
      var j := IndexOf(team[1..], p);
      assert team[..j + 1] == [team[0]] + team[1..][..j];
      j + 1
  }

  /** `list.remove`: the first occurrence of `p` removed from `team`. */
  function RemoveFirst(team: seq<Pokemon>, p: Pokemon): (r: seq<Pokemon>)
    requires p in team
    ensures |r| == |team| - 1
    ensures multiset(r) == multiset(team) - multiset{p}
    ensures r == team[..IndexOf(team, p)] + team[IndexOf(team, p) + 1..]
  {
    var i := IndexOf(team, p);
    assert team == team[..i] + [team[i]] + team[i + 1..];
    team[..i] + team[i + 1..]
  }

  /** A fainted combatant that is not the library's active Pokémon is one the roster lists. */
  predicate RemovalDefined(poke: NodePoke, team: seq<Pokemon>)
  {
    poke.IsFainted() && !poke.pokemon.active ==> poke.pokemon in team
  }

  /** remove_poke_from_switches: a fresh list without the combatant if it fainted and is
      not active, the same list otherwise. */
  function RemovePokeFromSwitches(poke: NodePoke, team: seq<Pokemon>): (r: seq<Pokemon>)
    requires RemovalDefined(poke, team)
    ensures !(poke.IsFainted() && !poke.pokemon.active) ==> r == team
    ensures poke.IsFainted() && !poke.pokemon.active ==>
      |r| == |team| - 1 && multiset(r) == multiset(team) - multiset{poke.pokemon}
  {
    if poke.IsFainted() && !poke.pokemon.active then RemoveFirst(team, poke.pokemon) else team
  }

  function MovesAsActions(moves: seq<Move>): (r: seq<Action>)
    ensures |r| == |moves| && forall i :: 0 <= i < |moves| ==> r[i] == UseMove(moves[i])
  {
    if moves == [] then [] else [UseMove(moves[0])] + MovesAsActions(moves[1..])
  }

  /** act_poke_avail_actions: the bot's moves, none when it fainted or has no moves. */
  function ActAvailActions(act: NodePoke): (r: seq<Action>)
    ensures |r| == 0 <==> act.IsFainted() || |act.moves| == 0
    ensures r != [] ==> r == MovesAsActions(act.moves)
  {
    if !act.IsFainted() && |act.moves| > 0 then MovesAsActions(act.moves) else []
  }

  /** opp_poke_avail_actions: the opponent's (enriched) moves, none when it fainted. */
  function OppAvailActions(opp: NodePoke): (r: seq<Action>)
    ensures opp.IsFainted() ==> r == []
    ensures !opp.IsFainted() ==> r == MovesAsActions(opp.moves)
  {
    if !opp.IsFainted() then MovesAsActions(opp.moves) else []
  }

  // ---------------------------------------------------------------- the node

  /** can_outspeed: the random-battle outspeed probability compared with the threshold;
      true when the probability is BELOW the threshold. */
  function CanOutspeed(k: Knowledge, act: NodePoke, opp: NodePoke, weather: WeatherDict, terrains: seq<Field>,
                       threshold: real): bool
  {
    OutspeedProb(k, act.pokemon, opp.pokemon, FirstKey(weather), terrains, None, true).p < threshold
  }

  /** A bot combatant strictly faster than the opponent's upper speed bound, with no trick
      room, gets `moveFirst == false`: the flag holds when the probability is low. */
  lemma FasterBotNotFirst(k: Knowledge, act: NodePoke, opp: NodePoke, weather: WeatherDict, terrains: seq<Field>)
    requires TrickRoom !in terrains
    requires var w := FirstKey(weather);
      k.stat(StatQuery(act.pokemon, "spe", w, terrains, true, None, None, None))
      > k.stat(StatQuery(opp.pokemon, "spe", w, terrains, false,
                         Some(UpperIvs(opp.pokemon)), Some(UpperEvs(opp.pokemon, true)), None))
    ensures !CanOutspeed(k, act, opp, weather, terrains, 0.8)
  {
  }

  /** The value of a node: everything but its identity, ancestor link and cached score. */
  datatype BattleState = BattleState(
    actPoke: NodePoke,
    oppPoke: NodePoke,
    availSwitches: seq<Pokemon>,
    oppTeam: seq<Pokemon>,
    weather: WeatherDict,
    terrains: seq<Field>,
    oppConditions: seq<SideCondition>,
    move: Action,
    pokeSwitched: bool,
    moveFirst: bool)

  /** The constructor's derived field: move_first is can_outspeed(0.8) of the new node. */
  function NewState(k: Knowledge, act: NodePoke, opp: NodePoke, availSwitches: seq<Pokemon>, oppTeam: seq<Pokemon>,
                    weather: WeatherDict, terrains: seq<Field>, oppConditions: seq<SideCondition>,
                    move: Action, pokeSwitched: bool): (s: BattleState)
  {
    BattleState(act, opp, availSwitches, oppTeam, weather, terrains, oppConditions, move, pokeSwitched,
                CanOutspeed(k, act, opp, weather, terrains, 0.8))
  }

  /** What the transition needs of the rosters: the side that may faint on this ply can be
      removed from its roster. */
  predicate RosterSafe(s: BattleState, a: Action, myTurn: bool)
  {
    a.UseMove? ==>
      if myTurn then s.oppPoke.pokemon.active || s.oppPoke.pokemon in s.oppTeam
      else s.actPoke.pokemon.active || s.actPoke.pokemon in s.availSwitches
  }

  function DamageOf(k: Knowledge, s: BattleState, m: Move, myTurn: bool): int
  {
    var w := FirstKey(s.weather);
    if myTurn then
      k.damage(m, s.actPoke.pokemon, s.oppPoke.pokemon, w, s.terrains, s.oppConditions,
               s.actPoke.boosts, s.oppPoke.boosts, true).lb
    else
      k.damage(m, s.oppPoke.pokemon, s.actPoke.pokemon, w, s.terrains, s.oppConditions,
               s.oppPoke.boosts, s.actPoke.boosts, false).ub
  }

  /** The mover's new HP before clamping: its HP plus healing (under the weather `w` read
      before the move), minus recoil, plus drain, where drain is computed for `drainer`. */
  function MoverHp(k: Knowledge, w: Option<Weather>, terrains: seq<Field>, mover: NodePoke, drainer: NodePoke,
                   m: Move, damage: int): real
  {
    mover.currentHp + Healing(k, mover, m, w, terrains) - Recoil(mover, m, damage) as real + Drain(drainer, m, damage)
  }

  /** The mover's HP after its move, applied step by step as simulate_action does:
      healing, then recoil, then drain. */
  method ApplyMoverHp(k: Knowledge, w: Option<Weather>, terrains: seq<Field>, mover: NodePoke, drainer: NodePoke,
                      m: Move, damage: int) returns (hp: real)
    ensures hp == MoverHp(k, w, terrains, mover, drainer, m, damage)
  {
    hp := mover.currentHp;
    hp := hp + Healing(k, mover, m, w, terrains);
    hp := hp - Recoil(mover, m, damage) as real;
    hp := hp + Drain(drainer, m, damage);
  }

  /** A switch: the switching side's combatant is replaced by a fresh node of the roster
      member (with its own moves); the parent is unchanged. */
  function SwitchPly(k: Knowledge, s: BattleState, p: Pokemon, myTurn: bool): (r: (BattleState, BattleState))
  {
    if myTurn then
      (s, NewState(k, Create(k, p, true, None, None, None, p.moves, None), s.oppPoke,
                   s.availSwitches, s.oppTeam, s.weather, s.terrains, s.oppConditions, SwitchTo(p), true))
    else
      (s, NewState(k, s.actPoke, Create(k, p, false, None, None, None, p.moves, None),
                   s.availSwitches, s.oppTeam, s.weather, s.terrains, s.oppConditions, SwitchTo(p), true))
  }

  /** The bot's move: the lower damage bound, the weather set by the move (no turn end),
      the fainted opponent removed from its team. */
  function BotPly(k: Knowledge, s: BattleState, m: Move): (r: (BattleState, BattleState))
    requires RosterSafe(s, UseMove(m), true)
  {
    var damage := DamageOf(k, s, m, true);
    var weather := ActiveWeather(s.weather, m.weather, false);
    var (attBoosts, defBoosts) := UpdatedBoosts(s.actPoke, s.oppPoke, m);
    var opp := Clone(k, s.oppPoke, None, Some(s.oppPoke.currentHp - damage as real), Some(defBoosts), None, None, None);
    var actHp := MoverHp(k, FirstKey(s.weather), s.terrains, s.actPoke, s.actPoke, m, damage);
    var act := Clone(k, s.actPoke, None, Some(actHp), Some(attBoosts), None, None, None);
    var oppTeam := RemovePokeFromSwitches(opp, s.oppTeam);
    (s.(weather := weather),
     NewState(k, act, opp, s.availSwitches, oppTeam, weather, s.terrains, s.oppConditions, UseMove(m), false))
  }

  /** The opponent's move: the upper damage bound, the fainted bot combatant removed from
      the bot's switches, and the turn ends (weather counters advance). */
  function OppPly(k: Knowledge, s: BattleState, m: Move): (r: (BattleState, BattleState))
    requires RosterSafe(s, UseMove(m), false)
  {
    var damage := DamageOf(k, s, m, false);
    var (attBoosts, defBoosts) := UpdatedBoosts(s.oppPoke, s.actPoke, m);
    var act := Clone(k, s.actPoke, None, Some(s.actPoke.currentHp - damage as real), Some(defBoosts), None, None, None);
    var oppHp := MoverHp(k, FirstKey(s.weather), s.terrains, s.oppPoke, s.actPoke, m, damage);
    var opp := Clone(k, s.oppPoke, None, Some(oppHp), Some(attBoosts), None, None, None);
    var availSwitches := RemovePokeFromSwitches(act, s.availSwitches);
    var weather := ActiveWeather(s.weather, m.weather, true);
    (s.(weather := weather),
     NewState(k, act, opp, availSwitches, s.oppTeam, weather, s.terrains, s.oppConditions, UseMove(m), false))
  }

  /** simulate_action as a value: the parent as it is afterwards (its weather is
      overwritten) and the child node. */
  function Simulate(k: Knowledge, s: BattleState, a: Action, myTurn: bool): (r: (BattleState, BattleState))
    requires RosterSafe(s, a, myTurn)
  {
    match a
    case SwitchTo(p) => SwitchPly(k, s, p, myTurn)
    case UseMove(m) => if myTurn then BotPly(k, s, m) else OppPly(k, s, m)
  }

  /** A child records the action that produced it, and the parent changes at most its weather,
      which the child shares. */
  lemma SimulateShape(k: Knowledge, s: BattleState, a: Action, myTurn: bool)
    requires RosterSafe(s, a, myTurn)
    ensures var (parent, child) := Simulate(k, s, a, myTurn);
      && child.move == a && child.pokeSwitched == a.SwitchTo?
      && parent == s.(weather := parent.weather) && child.weather == parent.weather
      && child.terrains == s.terrains && child.oppConditions == s.oppConditions
      && (a.SwitchTo? ==> parent == s)
  {
  }

  /** A switch replaces only the switching side's combatant: the other side, the rosters
      and the field are carried over. */
  lemma SwitchKeepsOtherSide(k: Knowledge, s: BattleState, p: Pokemon, myTurn: bool)
    ensures var child := Simulate(k, s, SwitchTo(p), myTurn).1;
      && (myTurn ==> child.oppPoke == s.oppPoke && child.actPoke.pokemon == p && child.actPoke.moves == p.moves)
      && (!myTurn ==> child.actPoke == s.actPoke && child.oppPoke.pokemon == p)
      && child.availSwitches == s.availSwitches && child.oppTeam == s.oppTeam && child.weather == s.weather
  {
  }

  /** The bot's ply: the opponent loses the lower damage bound (clamped at 0), the bot gains
      healing and drain and loses recoil (clamped at 0), the weather is set by the move or
      unchanged, and the bot's roster is untouched. */
  lemma BotMoveEffects(k: Knowledge, s: BattleState, m: Move)
    requires RosterSafe(s, UseMove(m), true)
    requires s.oppPoke.status.Some? || s.oppPoke.pokemon.status.None?
    requires s.actPoke.status.Some? || s.actPoke.pokemon.status.None?
    ensures var child := Simulate(k, s, UseMove(m), true).1;
      var w := FirstKey(s.weather);
      var dmg := k.damage(m, s.actPoke.pokemon, s.oppPoke.pokemon, w, s.terrains, s.oppConditions,
                          s.actPoke.boosts, s.oppPoke.boosts, true).lb;
      var oppHp := s.oppPoke.currentHp - dmg as real;
      var actHp := s.actPoke.currentHp + Healing(k, s.actPoke, m, w, s.terrains)
                   - Recoil(s.actPoke, m, dmg) as real + Drain(s.actPoke, m, dmg);
      && child.oppPoke.currentHp == (if oppHp < 0.0 then 0.0 else oppHp)
      && child.actPoke.currentHp == (if actHp < 0.0 then 0.0 else actHp)
      && child.oppPoke.status == s.oppPoke.status && child.actPoke.status == s.actPoke.status
      && child.weather == (if m.weather.Some? then [(m.weather.value, 1)] else s.weather)
      && child.availSwitches == s.availSwitches
  {
    var w := FirstKey(s.weather);
    var dmg := DamageOf(k, s, m, true);
    var (attBoosts, defBoosts) := UpdatedBoosts(s.actPoke, s.oppPoke, m);
    CloneOverrides(k, s.oppPoke, s.oppPoke.currentHp - dmg as real, defBoosts);
    CloneOverrides(k, s.actPoke, MoverHp(k, FirstKey(s.weather), s.terrains, s.actPoke, s.actPoke, m, dmg), attBoosts);
  }

  /** The opponent's ply: the bot loses the upper damage bound, and the opponent's drain is
      the one computed for (and capped against) the BOT's combatant. */
  lemma OppMoveEffects(k: Knowledge, s: BattleState, m: Move)
    requires RosterSafe(s, UseMove(m), false)
    requires s.oppPoke.status.Some? || s.oppPoke.pokemon.status.None?
    requires s.actPoke.status.Some? || s.actPoke.pokemon.status.None?
    ensures var child := Simulate(k, s, UseMove(m), false).1;
      var w := FirstKey(s.weather);
      var dmg := k.damage(m, s.oppPoke.pokemon, s.actPoke.pokemon, w, s.terrains, s.oppConditions,
                          s.oppPoke.boosts, s.actPoke.boosts, false).ub;
      var actHp := s.actPoke.currentHp - dmg as real;
      var oppHp := s.oppPoke.currentHp + Healing(k, s.oppPoke, m, w, s.terrains)
                   - Recoil(s.oppPoke, m, dmg) as real + Drain(s.actPoke, m, dmg);
      && child.actPoke.currentHp == (if actHp < 0.0 then 0.0 else actHp)
      && child.oppPoke.currentHp == (if oppHp < 0.0 then 0.0 else oppHp)
      && child.weather == ActiveWeather(s.weather, m.weather, true)
      && child.oppTeam == s.oppTeam
  {
    var dmg := DamageOf(k, s, m, false);
    var (attBoosts, defBoosts) := UpdatedBoosts(s.oppPoke, s.actPoke, m);
    CloneOverrides(k, s.actPoke, s.actPoke.currentHp - dmg as real, defBoosts);
    CloneOverrides(k, s.oppPoke, MoverHp(k, FirstKey(s.weather), s.terrains, s.oppPoke, s.actPoke, m, dmg), attBoosts);
  }

  /** On its own ply the bot's HP stays within its maximum, unless one status move both
      heals and drains, provided the recoil fraction is non-negative. */
  lemma {:induction false} BotHpStaysBelowMax(k: Knowledge, s: BattleState, m: Move)
    requires RosterSafe(s, UseMove(m), true)
    requires s.actPoke.currentHp <= s.actPoke.pokemon.maxHp as real
    requires m.recoil >= 0.0 && (m.category != StatusMove || m.drain == 0.0)
    ensures Simulate(k, s, UseMove(m), true).1.actPoke.currentHp <= s.actPoke.pokemon.maxHp as real
  {
    var w := FirstKey(s.weather);
    var dmg := DamageOf(k, s, m, true);
    var heal := Healing(k, s.actPoke, m, w, s.terrains);
    var recoil := Recoil(s.actPoke, m, dmg);
    var drain := Drain(s.actPoke, m, dmg);
    assert heal == 0.0 || drain == 0.0;
    assert recoil >= 0;
    var hp := MoverHp(k, FirstKey(s.weather), s.terrains, s.actPoke, s.actPoke, m, dmg);
    assert hp <= s.actPoke.pokemon.maxHp as real;
  }

  // ---------------------------------------------------------------- the mutable node

  /** A node of the search tree. Its fields are fixed at construction except the weather,
      which simulating a child overwrites, and the cached score. */
  class BattleStatus {
    const actPoke: NodePoke
    const oppPoke: NodePoke
    const availSwitches: seq<Pokemon>
    const oppTeam: seq<Pokemon>
    var weather: WeatherDict
    const terrains: seq<Field>
    const oppConditions: seq<SideCondition>
    const ancestor: BattleStatus?
    var score: real
    const move: Action
    const pokeSwitched: bool
    const moveFirst: bool

    function State(): BattleState
      reads this
    {
      BattleState(actPoke, oppPoke, availSwitches, oppTeam, weather, terrains, oppConditions, move,
                  pokeSwitched, moveFirst)
    }

    constructor (k: Knowledge, actPoke: NodePoke, oppPoke: NodePoke, availSwitches: seq<Pokemon>,
                 oppTeam: seq<Pokemon>, weather: WeatherDict, terrains: seq<Field>,
                 oppConditions: seq<SideCondition>, ancestor: BattleStatus?, move: Action, pokeSwitched: bool)
      ensures State() == NewState(k, actPoke, oppPoke, availSwitches, oppTeam, weather, terrains,
                                  oppConditions, move, pokeSwitched)
      ensures this.ancestor == ancestor && score == 0.0
    {
      this.actPoke := actPoke;
      this.oppPoke := oppPoke;
      this.availSwitches := availSwitches;
      this.oppTeam := oppTeam;
      this.weather := weather;
      this.terrains := terrains;
      this.oppConditions := oppConditions;
      this.ancestor := ancestor;
      this.score := 0.0;
      this.move := move;
      this.pokeSwitched := pokeSwitched;
      this.moveFirst := CanOutspeed(k, actPoke, oppPoke, weather, terrains, 0.8);
    }

    /** get_active_weather: the weather after this move, advancing the counters of a copy
        when a turn ends. */
    method GetActiveWeather(move: Move, updateTurn: bool) returns (r: WeatherDict)
      ensures r == ActiveWeather(weather, move.weather, updateTurn)
    {
      r := weather;
      if |r| > 0 && updateTurn {
        r := AdvanceCounters(weather);
      }
      if move.weather.Some? {
        r := [(move.weather.value, 1)];
      }
    }

    /** A switch on either side: a child whose switching combatant is a fresh node. */
    method SimulateSwitch(k: Knowledge, p: Pokemon, myTurn: bool) returns (child: BattleStatus)
      ensures fresh(child) && child.ancestor == this && child.score == 0.0
      ensures child.State() == SwitchPly(k, State(), p, myTurn).1
    {
      if myTurn {
        child := new BattleStatus(k, Create(k, p, true, None, None, None, p.moves, None), oppPoke,
                                  availSwitches, oppTeam, weather, terrains, oppConditions, this, SwitchTo(p), true);
      } else {
        child := new BattleStatus(k, actPoke, Create(k, p, false, None, None, None, p.moves, None),
                                  availSwitches, oppTeam, weather, terrains, oppConditions, this, SwitchTo(p), true);
      }
    }

    /** The bot uses `m`: the parent's weather is overwritten before the child is built. */
    method SimulateBotMove(k: Knowledge, m: Move) returns (child: BattleStatus)
      requires RosterSafe(State(), UseMove(m), true)
      modifies this`weather
      ensures fresh(child) && child.ancestor == this && child.score == 0.0
      ensures State() == BotPly(k, old(State()), m).0
      ensures child.State() == BotPly(k, old(State()), m).1
    {
      ghost var s := State();
      var w := FirstKey(weather);
      var damage := k.damage(m, actPoke.pokemon, oppPoke.pokemon, w, terrains, oppConditions,
                             actPoke.boosts, oppPoke.boosts, true).lb;
      var newWeather := GetActiveWeather(m, false);
      weather := newWeather;
      var oppHp := oppPoke.currentHp - damage as real;
      var attBoosts, defBoosts := ComputeUpdatedBoosts(actPoke, oppPoke, m);
      var actHp := ApplyMoverHp(k, w, terrains, actPoke, actPoke, m, damage);
      var opp := Clone(k, oppPoke, None, Some(oppHp), Some(defBoosts), None, None, None);
      var act := Clone(k, actPoke, None, Some(actHp), Some(attBoosts), None, None, None);
      var team := RemovePokeFromSwitches(opp, oppTeam);
      child := new BattleStatus(k, act, opp, availSwitches, team, newWeather, terrains, oppConditions, this,
                                UseMove(m), false);
    }

    /** The opponent uses `m`: the child is built from the old weather's turn-end update,
        which also overwrites the parent's. */
    method SimulateOppMove(k: Knowledge, m: Move) returns (child: BattleStatus)
      requires RosterSafe(State(), UseMove(m), false)
      modifies this`weather
      ensures fresh(child) && child.ancestor == this && child.score == 0.0
      ensures State() == OppPly(k, old(State()), m).0
      ensures child.State() == OppPly(k, old(State()), m).1
    {
      ghost var s := State();
      var w := FirstKey(weather);
      var damage := k.damage(m, oppPoke.pokemon, actPoke.pokemon, w, terrains, oppConditions,
                             oppPoke.boosts, actPoke.boosts, false).ub;
      var attBoosts, defBoosts := ComputeUpdatedBoosts(oppPoke, actPoke, m);
      var actHp := actPoke.currentHp - damage as real;
      var oppHp := ApplyMoverHp(k, w, terrains, oppPoke, actPoke, m, damage);
      var act := Clone(k, actPoke, None, Some(actHp), Some(defBoosts), None, None, None);
      var opp := Clone(k, oppPoke, None, Some(oppHp), Some(attBoosts), None, None, None);
      var switches := RemovePokeFromSwitches(act, availSwitches);
      var newWeather := GetActiveWeather(m, true);
      weather := newWeather;
      child := new BattleStatus(k, act, opp, switches, oppTeam, newWeather, terrains, oppConditions, this,
                                UseMove(m), false);
    }

    /** simulate_action: derives the child node for `a` on the given side's ply; a move
        overwrites this node's weather. */
    method SimulateAction(k: Knowledge, a: Action, myTurn: bool) returns (child: BattleStatus)
      requires RosterSafe(State(), a, myTurn)
      modifies this`weather
      ensures fresh(child) && child.ancestor == this && child.move == a && child.score == 0.0
      ensures State() == Simulate(k, old(State()), a, myTurn).0
      ensures child.State() == Simulate(k, old(State()), a, myTurn).1
    {
      match a
      case SwitchTo(p) =>
        child := SimulateSwitch(k, p, myTurn);
      case UseMove(m) =>
        if myTurn {
          child := SimulateBotMove(k, m);
        } else {
          child := SimulateOppMove(k, m);
        }
    }
  }
}
