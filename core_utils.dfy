/** The speed and accuracy model: the probability that the bot's combatant acts first
    given an interval for the opponent's hidden speed, and the effective accuracy of a
    move. Stat resolution is the foreign stat oracle; rounding to two decimals is not
    modelled (probabilities are exact reals). */
module CoreUtils {

  import opened Knowledge

  /** outspeed_prob's result: the probability and the opponent speed bounds it used. */
  datatype SpeedEstimate = SpeedEstimate(p: real, lb: real, ub: real)

  /** The opponent is known to use a move that makes its hidden speed irrelevant. */
  predicate UsesSpeedInverter(opp: Pokemon)
  {
    exists m :: m in opp.moves && (m.id == "trickroom" || m.id == "gyroball")
  }

  /** The ivs assumed for the upper speed bound. */
  function UpperIvs(opp: Pokemon): int
  {
    if UsesSpeedInverter(opp) then 0 else 31
  }

  /** The evs assumed for the upper speed bound. */
  function UpperEvs(opp: Pokemon, randomBattle: bool): int
  {
    if UsesSpeedInverter(opp) then 0
    else if randomBattle then 84
    else 252
  }

  /** The comparison of the bot's speed with the opponent's bounds, before trick room.
      In a random battle the lower bound collapses to the upper one. */
  function CompareSpeeds(botSpe: real, lb: real, ub: real, randomBattle: bool): (r: SpeedEstimate)
    ensures 0.0 <= r.p <= 1.0
    ensures r.ub == ub && r.lb == (if randomBattle then ub else lb)
    ensures randomBattle ==>
      r.p == (if botSpe > ub then 1.0 else if botSpe == ub then 0.5 else 0.0)
    ensures !randomBattle && botSpe < lb ==> r.p == 0.0
    ensures !randomBattle && lb <= botSpe && botSpe > ub ==> r.p == 1.0
    ensures !randomBattle && lb == ub == botSpe ==> r.p == 0.5
    ensures !randomBattle && lb <= botSpe <= ub && !(lb == ub == botSpe) ==>
      lb < ub && r.p == (botSpe - lb) / (ub - lb)
  {
    if randomBattle then
      SpeedEstimate(if botSpe > ub then 1.0 else if botSpe == ub then 0.5 else 0.0, ub, ub)
    else if botSpe < lb then SpeedEstimate(0.0, lb, ub)
    else if botSpe > ub then SpeedEstimate(1.0, lb, ub)
    else if lb == ub && ub == botSpe then SpeedEstimate(0.5, lb, ub)
    else
      assert lb < ub;
      Fraction(botSpe - lb, ub - lb);
      SpeedEstimate((botSpe - lb) / (ub - lb), lb, ub)
  }

  /** x / y lies in [0, 1] when 0 <= x <= y and y > 0. */
  lemma Fraction(x: real, y: real)
    requires 0.0 <= x <= y && y > 0.0
    ensures 0.0 <= x / y <= 1.0
  {
    assert x / y * y == x;
  }

  /** Dividing by a positive number keeps the order. */
  lemma DivMonotone(x: real, y: real, d: real)
    requires x <= y && d > 0.0
    ensures x / d <= y / d
  {
    assert y / d - x / d == (y - x) / d;
    assert (y - x) / d * d == y - x;
  }

  /** For fixed bounds, a faster bot never has a lower probability of moving first. */
  lemma {:induction false} CompareSpeedsMonotone(b1: real, b2: real, lb: real, ub: real, randomBattle: bool)
    requires b1 <= b2
    ensures CompareSpeeds(b1, lb, ub, randomBattle).p <= CompareSpeeds(b2, lb, ub, randomBattle).p
  {
    var p1 := CompareSpeeds(b1, lb, ub, randomBattle).p;
    var p2 := CompareSpeeds(b2, lb, ub, randomBattle).p;
    if randomBattle {
      if b1 == ub {
        assert p1 == 0.5 && p2 >= 0.5;
      }
    } else if b1 < lb {
      assert p1 == 0.0;
    } else if b2 > ub {
      assert p2 == 1.0;
    } else if lb == ub == b1 {
      assert b2 == ub && p1 == p2;
    } else {
      assert lb <= b1 <= b2 <= ub && lb < ub;
      DivMonotone(b1 - lb, b2 - lb, ub - lb);
    }
  }

  /** outspeed_prob: the bot's speed is resolved exactly; the opponent's lies between a
      bound with no ivs/evs and one with the assumed ivs/evs; trick room inverts. */
  function OutspeedProb(k: Knowledge, bot: Pokemon, opp: Pokemon, weather: Option<Weather>,
                        terrains: seq<Field>, boost: Option<int>, randomBattle: bool): (r: SpeedEstimate)
    ensures 0.0 <= r.p <= 1.0
    ensures var lb := k.stat(StatQuery(opp, "spe", weather, terrains, false, Some(0), Some(0), boost));
            var ub := k.stat(StatQuery(opp, "spe", weather, terrains, false,
                                       Some(UpperIvs(opp)), Some(UpperEvs(opp, randomBattle)), boost));
            var base := CompareSpeeds(k.stat(StatQuery(bot, "spe", weather, terrains, true, None, None, boost)),
                                      lb, ub, randomBattle);
            && r.lb == base.lb && r.ub == ub
            && r.p == (if TrickRoom in terrains then 1.0 - base.p else base.p)
    ensures UsesSpeedInverter(opp) ==> r.lb == r.ub
    ensures k.SpeedMonotone() ==> r.lb <= r.ub
  {
    var botSpe := k.stat(StatQuery(bot, "spe", weather, terrains, true, None, None, boost));
    var lbQuery := StatQuery(opp, "spe", weather, terrains, false, Some(0), Some(0), boost);
    var lb := k.stat(lbQuery);
    var ub := k.stat(lbQuery.(ivs := Some(UpperIvs(opp)), evs := Some(UpperEvs(opp, randomBattle))));
    var base := CompareSpeeds(botSpe, lb, ub, randomBattle);
    SpeedEstimate(if TrickRoom in terrains then 1.0 - base.p else base.p, base.lb, base.ub)
  }

  /** The opponent-speed interval is never empty when the stat oracle is monotone in the
      assumed ivs and evs; with a speed-inverting move it is a single point. */
  lemma OutspeedBoundsOrdered(k: Knowledge, bot: Pokemon, opp: Pokemon, weather: Option<Weather>,
                              terrains: seq<Field>, boost: Option<int>, randomBattle: bool)
    requires k.SpeedMonotone()
    ensures var r := OutspeedProb(k, bot, opp, weather, terrains, boost, randomBattle);
      r.lb <= r.ub && (UsesSpeedInverter(opp) ==> r.lb == r.ub)
  {
  }

  /** Moves whose accuracy depends on rain and sun. */
  predicate WeatherAccuracyMove(m: Move) { m.id == "thunder" || m.id == "hurricane" }

  /** One-hit-KO moves. */
  predicate OneHitKoMove(m: Move)
  {
    m.id == "fissure" || m.id == "guillotine" || m.id == "horndrill" || m.id == "sheercold"
  }

  /** The special cases that return before the stat modifiers are applied. */
  datatype AccuracyCase = Certain | Nominal(p: real) | Modified(base: real)

  function AccuracyShortcut(move: Move, attacker: Pokemon, defender: Pokemon, weather: Option<Weather>): (c: AccuracyCase)
    ensures move.accuracy.AlwaysHits? || attacker.isDynamaxed || attacker.ability == "noguard" ==> c == Certain
    ensures move.accuracy.Chance? && !attacker.isDynamaxed && attacker.ability != "noguard" ==>
      && (WeatherAccuracyMove(move) && weather in {Some(RainDance), Some(PrimordialSea)} ==> c == Certain)
      && (move.id == "blizzard" && weather == Some(Hail) ==> c == Certain)
      && (OneHitKoMove(move) && defender.level > attacker.level ==> c == Nominal(move.accuracy.p))
      && (OneHitKoMove(move) && defender.level <= attacker.level ==>
            c == Modified(move.accuracy.p + (attacker.level - defender.level) as real))
      && (WeatherAccuracyMove(move) && weather in {Some(SunnyDay), Some(DesolateLand)} ==> c == Modified(0.5))
    ensures move.accuracy.Chance? && !attacker.isDynamaxed && attacker.ability != "noguard"
            && !OneHitKoMove(move) && !(move.id == "blizzard" && weather == Some(Hail))
            && !(WeatherAccuracyMove(move)
                 && weather in {Some(RainDance), Some(PrimordialSea), Some(SunnyDay), Some(DesolateLand)})
            ==> c == Modified(move.accuracy.p)
  {
    if move.accuracy.AlwaysHits? || attacker.isDynamaxed || attacker.ability == "noguard" then Certain
    else
      var nominal := move.accuracy.p;
      var sunned := WeatherAccuracyMove(move) && weather in {Some(SunnyDay), Some(DesolateLand)};
      if WeatherAccuracyMove(move) && weather in {Some(RainDance), Some(PrimordialSea)} then Certain
      else if move.id == "blizzard" && weather == Some(Hail) then Certain
      else if OneHitKoMove(move) then
        if defender.level <= attacker.level then Modified(nominal + (attacker.level - defender.level) as real)
        else Nominal(nominal)
      else Modified(if sunned then 0.5 else nominal)
  }

  function AccuracyQuery(p: Pokemon, stat: string, weather: Option<Weather>, terrains: seq<Field>, boost: Option<int>): StatQuery
  {
    StatQuery(p, stat, weather, terrains, false, None, None, boost)
  }

  /** compute_move_accuracy: the special cases, else the base accuracy times the attacker's
      accuracy modifier (times 0.8 for hustle on a physical move) over the defender's
      evasion modifier (1 when the move ignores evasion). */
  function MoveAccuracy(k: Knowledge, move: Move, attacker: Pokemon, defender: Pokemon,
                        weather: Option<Weather>, terrains: seq<Field>,
                        accuracyBoost: Option<int>, evasionBoost: Option<int>): (r: real)
    ensures AccuracyShortcut(move, attacker, defender, weather) == Certain ==> r == 1.0
    ensures AccuracyShortcut(move, attacker, defender, weather).Nominal? ==> r == move.accuracy.p
    ensures AccuracyShortcut(move, attacker, defender, weather).Modified? ==>
      var evasion := if move.ignoreEvasion then 1.0
                     else k.stat(AccuracyQuery(defender, "evasion", weather, terrains, evasionBoost));
      var hustle := if attacker.ability == "hustle" && move.category == Physical then 0.8 else 1.0;
      r * evasion == AccuracyShortcut(move, attacker, defender, weather).base
                     * k.stat(AccuracyQuery(attacker, "accuracy", weather, terrains, accuracyBoost)) * hustle
  {
    match AccuracyShortcut(move, attacker, defender, weather)
    case Certain => 1.0
    case Nominal(p) => p
    case Modified(base) =>
      var accuracy := base * k.stat(AccuracyQuery(attacker, "accuracy", weather, terrains, accuracyBoost));
      var evasion := if move.ignoreEvasion then 1.0
                     else k.stat(AccuracyQuery(defender, "evasion", weather, terrains, evasionBoost));
      var hustled := if attacker.ability == "hustle" && move.category == Physical then accuracy * 0.8 else accuracy;
      assert hustled / evasion * evasion == hustled;
      hustled / evasion
  }

  /** A one-hit-KO move gains a whole unit per level of difference, so with neutral
      accuracy and evasion modifiers its accuracy exceeds 1 once the attacker is a level
      above the defender. */
  lemma OneHitKoAccuracyAboveOne(k: Knowledge, move: Move, attacker: Pokemon, defender: Pokemon,
                                 weather: Option<Weather>, terrains: seq<Field>)
    requires OneHitKoMove(move) && move.accuracy == Chance(0.3) && move.ignoreEvasion
    requires !attacker.isDynamaxed && attacker.ability != "noguard" && attacker.ability != "hustle"
    requires attacker.level == defender.level + 1
    requires k.stat(AccuracyQuery(attacker, "accuracy", weather, terrains, None)) == 1.0
    ensures MoveAccuracy(k, move, attacker, defender, weather, terrains, None, None) > 1.0
  {
  }
}
