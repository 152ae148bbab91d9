/** The read-only world the decision engine consults: the battle library's value
    types (Pokémon, moves, weather, fields, statuses) and the foreign oracles
    (damage estimate, stat resolution, default movesets, healing-move table,
    type chart). None of these is computed by the core; each enters the model
    as data or as a function value with the contract the core relies on. */
module Knowledge {

  datatype Option<T> = None | Some(value: T)

  datatype PokeType =
    | Bug | Dark | Dragon | Electric | Fairy | Fighting | Fire | Flying | Ghost
    | Grass | Ground | Ice | Normal | Poison | Psychic | Rock | Steel | Water

  datatype Weather = SunnyDay | DesolateLand | RainDance | PrimordialSea | Hail | Sandstorm | DeltaStream

  datatype Field = ElectricTerrain | PsychicTerrain | GrassyTerrain | MistyTerrain | TrickRoom | Gravity | OtherField

  datatype SideCondition = StealthRock | Spikes | ToxicSpikes | Reflect | LightScreen | AuroraVeil | OtherSideCondition

  datatype Status = Brn | Fnt | Frz | Par | Psn | Slp | Tox

  datatype Category = Physical | Special | StatusMove

  /** The seven keys of a Pokémon's stat-stage dictionary. */
  datatype Stat = Atk | Def | Spa | Spd | Spe | Accuracy | Evasion

  /** A stage dictionary: the library always fills all seven keys, so it is a record. */
  datatype Boosts = Boosts(atk: int, def: int, spa: int, spd: int, spe: int, accuracy: int, evasion: int)
  {
    function Get(s: Stat): int
    {
      match s
      case Atk => atk
      case Def => def
      case Spa => spa
      case Spd => spd
      case Spe => spe
      case Accuracy => accuracy
      case Evasion => evasion
    }
  }

  const NeutralBoosts := Boosts(0, 0, 0, 0, 0, 0, 0)

  datatype BaseStats = BaseStats(hp: int, atk: int, def: int, spa: int, spd: int, spe: int)
  {
    function Sum(): int { hp + atk + def + spa + spd + spe }
  }

  /** Nominal accuracy: `True` in the library for moves that cannot miss, else a fraction. */
  datatype Accuracy = AlwaysHits | Chance(p: real)

  datatype Move = Move(
    id: string,
    moveType: PokeType,
    category: Category,
    basePower: int,
    accuracy: Accuracy,
    ignoreEvasion: bool,
    recoil: real,
    drain: real,
    heal: real,
    selfDestruct: bool,
    weather: Option<Weather>,
    boosts: Option<map<Stat, int>>,
    selfBoost: Option<map<Stat, int>>,
    target: string)

  /** The placeholder move the player seeds its root node with. */
  const Splash := Move("splash", Normal, StatusMove, 0, AlwaysHits, false, 0.0, 0.0, 0.0, false,
                       None, None, None, "self")

  type PosInt = n: int | n > 0 witness 1
  type PosReal = r: real | r > 0.0 witness 1.0
  type Fraction = r: real | 0.0 <= r <= 1.0 witness 1.0

  /** A Pokémon as the battle library reports it (partially observed for the opponent). */
  datatype Pokemon = Pokemon(
    species: string,
    types: seq<Option<PokeType>>,
    baseStats: BaseStats,
    maxHp: PosInt,
    currentHp: nat,
    hpFraction: Fraction,
    boosts: Boosts,
    status: Option<Status>,
    effects: map<string, int>,
    moves: seq<Move>,
    ability: string,
    isDynamaxed: bool,
    active: bool,
    fainted: bool,
    level: int)

  /** An action of a ply: use a move, or switch to a roster member. */
  datatype Action = UseMove(m: Move) | SwitchTo(p: Pokemon)

  /** Damage estimate of the damage oracle: non-negative, lower bound at most upper bound. */
  datatype Range = Range(lb: int, ub: int)
  type DamageRange = d: Range | 0 <= d.lb <= d.ub witness Range(0, 0)

  /** The arguments of a stat resolution call: combatant, stat name, field, whether it is
      the bot's own (fully known) combatant, assumed ivs and evs (`None`: the resolver's
      own default), optional stage override. */
  datatype StatQuery = StatQuery(
    pokemon: Pokemon, stat: string, weather: Option<Weather>, terrains: seq<Field>,
    isBot: bool, ivs: Option<int>, evs: Option<int>, boost: Option<int>)

  /** The foreign collaborators and static tables. */
  datatype Knowledge = Knowledge(
    /** compute_damage(move, attacker, defender, weather, terrains, conditions, att boosts, def boosts, is_bot) */
    damage: (Move, Pokemon, Pokemon, Option<Weather>, seq<Field>, seq<SideCondition>, Boosts, Boosts, bool) -> DamageRange,
    /** compute_stat: a resolved stat or accuracy/evasion multiplier, always positive */
    stat: StatQuery -> PosReal,
    /** estimate_stat(pokemon, "hp") for a partially hidden opponent */
    estimateHp: Pokemon -> PosReal,
    /** estimate_stat(pokemon, "atk") */
    estimateAtk: Pokemon -> real,
    /** the bot's own resolved attack, pokemon.stats["atk"] */
    ownAtk: Pokemon -> real,
    /** compute_stat_modifiers(pokemon, "atk", weather, terrains) */
    atkModifier: (Pokemon, Option<Weather>, seq<Field>) -> real,
    /** compute_stat_boost(pokemon, "atk", stage) */
    atkStageMultiplier: (Pokemon, int) -> real,
    /** DEFAULT_MOVES_IDS[type][category] */
    defaultMove: (PokeType, Category) -> Move,
    /** HEALING_MOVES */
    healingMoves: set<string>,
    /** STATUS_CONDITIONS */
    statusConditions: set<Status>,
    /** defender.damage_multiplier(type): the type-chart multiplier against the defender */
    multiplier: (Pokemon, PokeType) -> real)
  {
    /** The contract the speed model relies on: more assumed ivs/evs never lower a speed. */
    ghost predicate SpeedMonotone()
    {
      forall q: StatQuery, ivs: int, evs: int ::
        q.ivs.Some? && q.evs.Some? && q.ivs.value <= ivs && q.evs.value <= evs ==>
          stat(q) <= stat(q.(ivs := Some(ivs), evs := Some(evs)))
    }

    /** The type chart's multipliers lie in [0, 4]. */
    ghost predicate ChartBounded()
    {
      forall p: Pokemon, t: PokeType :: 0.0 <= multiplier(p, t) <= 4.0
    }

    /** Every default move of type t really has type t. */
    ghost predicate DefaultsTyped()
    {
      forall t: PokeType, c: Category :: defaultMove(t, c).moveType == t
    }
  }

  /** Truncation toward zero, Python's int() on a float. */
  function Trunc(x: real): (r: int)
    ensures x >= 0.0 ==> r as real <= x < r as real + 1.0
    ensures x < 0.0 ==> r as real - 1.0 < x <= r as real
  {
    if x >= 0.0 then x.Floor else -((-x).Floor)
  }

  /** Python's math.ceil. */
  function Ceil(x: real): (r: int)
    ensures x <= r as real < x + 1.0
  {
    -((-x).Floor)
  }
}
