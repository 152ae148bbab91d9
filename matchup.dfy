/** How well two combatants match up on types alone: the type chart applied to each
    side's own types and to the types of its damaging moves. */
module Matchup {

  import opened Knowledge

  /** The largest of `init` and the elements of `xs`, scanning left to right and replacing
      the running value only by a strictly larger one. */
  function MaxFrom(init: real, xs: seq<real>): (r: real)
    ensures init <= r
    ensures forall i :: 0 <= i < |xs| ==> xs[i] <= r
    ensures r == init || r in xs
  {
    if xs == [] then init
    else
      var m := MaxFrom(init, xs[..|xs| - 1]);
      assert m == init || m in xs by {
        assert m in xs[..|xs| - 1] ==> m in xs;
      }
      if xs[|xs| - 1] > m then xs[|xs| - 1] else m
  }

  /** Python's max over a non-empty list. */
  function Max(xs: seq<real>): (r: real)
    requires |xs| > 0
    ensures r in xs
    ensures forall i :: 0 <= i < |xs| ==> xs[i] <= r
  {
    assert forall i :: 1 <= i < |xs| ==> xs[i] == xs[1..][i - 1];
    MaxFrom(xs[0], xs[1..])
  }

  /** The multipliers against `defender` of the present (non-None) entries of `types`, in order. */
  function TypeGains(k: Knowledge, types: seq<Option<PokeType>>, defender: Pokemon): (r: seq<real>)
    ensures |r| <= |types|
  {
    if types == [] then []
    else
      var rest := TypeGains(k, types[..|types| - 1], defender);
      var t := types[|types| - 1];
      if t.Some? then rest + [k.multiplier(defender, t.value)] else rest
  }

  /** The list TypeGains builds holds exactly the multipliers of the present types. */
  lemma {:induction false} TypeGainsMembers(k: Knowledge, types: seq<Option<PokeType>>, defender: Pokemon)
    ensures forall i :: 0 <= i < |types| && types[i].Some? ==>
      k.multiplier(defender, types[i].value) in TypeGains(k, types, defender)
    ensures forall x :: x in TypeGains(k, types, defender) ==>
      exists i :: 0 <= i < |types| && types[i].Some? && x == k.multiplier(defender, types[i].value)
  {
    if types != [] {
      var init := types[..|types| - 1];
      TypeGainsMembers(k, init, defender);
      assert forall i :: 0 <= i < |init| ==> init[i] == types[i];
    }
  }

  /** The multipliers against `defender` of the damaging (non-status) moves in `moves`, in order. */
  function MoveGains(k: Knowledge, moves: seq<Move>, defender: Pokemon): (r: seq<real>)
    ensures |r| <= |moves|
  {
    if moves == [] then []
    else
      var rest := MoveGains(k, moves[..|moves| - 1], defender);
      var m := moves[|moves| - 1];
      if m.category != StatusMove then rest + [k.multiplier(defender, m.moveType)] else rest
  }

  /** The list MoveGains builds holds exactly the multipliers of the damaging moves. */
  lemma {:induction false} MoveGainsMembers(k: Knowledge, moves: seq<Move>, defender: Pokemon)
    ensures forall i :: 0 <= i < |moves| && moves[i].category != StatusMove ==>
      k.multiplier(defender, moves[i].moveType) in MoveGains(k, moves, defender)
    ensures forall x :: x in MoveGains(k, moves, defender) ==>
      exists i :: 0 <= i < |moves| && moves[i].category != StatusMove && x == k.multiplier(defender, moves[i].moveType)
  {
    if moves != [] {
      var init := moves[..|moves| - 1];
      MoveGainsMembers(k, init, defender);
      assert forall i :: 0 <= i < |init| ==> init[i] == moves[i];
    }
  }

  /** Extending the scanned list by one move adds its multiplier exactly when it is damaging. */
  lemma MoveGainsStep(k: Knowledge, moves: seq<Move>, i: nat, defender: Pokemon)
    requires i < |moves|
    ensures MoveGains(k, moves[..i + 1], defender)
         == MoveGains(k, moves[..i], defender)
            + (if moves[i].category != StatusMove then [k.multiplier(defender, moves[i].moveType)] else [])
  {
    assert moves[..i + 1][..i] == moves[..i];
  }

  /** The running maximum after one more element. */
  lemma MaxFromStep(init: real, xs: seq<real>, x: real)
    ensures MaxFrom(init, xs + [x]) == if x > MaxFrom(init, xs) then x else MaxFrom(init, xs)
  {
  }

  /** The combatant has at least one type (otherwise the library's max would fail). */
  predicate HasType(p: Pokemon)
  {
    exists i :: 0 <= i < |p.types| && p.types[i].Some?
  }

  /** __type_advantage: the largest multiplier any of the attacker's types achieves
      against the defender. */
  function TypeAdvantage(k: Knowledge, attacker: Pokemon, defender: Pokemon): (r: real)
    requires HasType(attacker)
    ensures exists i :: (0 <= i < |attacker.types| && attacker.types[i].Some?
      && r == k.multiplier(defender, attacker.types[i].value))
    ensures forall i :: 0 <= i < |attacker.types| && attacker.types[i].Some? ==>
      k.multiplier(defender, attacker.types[i].value) <= r
  {
    var gains := TypeGains(k, attacker.types, defender);
    TypeGainsMembers(k, attacker.types, defender);
    var i :| 0 <= i < |attacker.types| && attacker.types[i].Some?;
    assert k.multiplier(defender, attacker.types[i].value) in gains;
    var r := Max(gains);
    assert forall j :: 0 <= j < |attacker.types| && attacker.types[j].Some? ==>
      k.multiplier(defender, attacker.types[j].value) in gains;
    r
  }

  /** The bot's move gain: the largest multiplier of its damaging moves against the
      opponent, or 1 when it has none. */
  function BotMoveGain(k: Knowledge, bot: Pokemon, opp: Pokemon): (r: real)
    ensures (forall i :: 0 <= i < |bot.moves| ==> bot.moves[i].category == StatusMove) ==> r == 1.0
    ensures (exists i :: 0 <= i < |bot.moves| && bot.moves[i].category != StatusMove) ==>
      (exists i :: 0 <= i < |bot.moves| && bot.moves[i].category != StatusMove
                   && r == k.multiplier(opp, bot.moves[i].moveType))
    ensures forall i :: 0 <= i < |bot.moves| && bot.moves[i].category != StatusMove ==>
      k.multiplier(opp, bot.moves[i].moveType) <= r
  {
    var gains := MoveGains(k, bot.moves, opp);
    MoveGainsMembers(k, bot.moves, opp);
    assert forall i :: 0 <= i < |bot.moves| && bot.moves[i].category != StatusMove ==>
      k.multiplier(opp, bot.moves[i].moveType) in gains;
    if |gains| > 0 then Max(gains) else 1.0
  }

  /** The opponent's move gain: the largest multiplier of its damaging known moves against
      the bot, starting from 0. */
  function OppMoveGain(k: Knowledge, bot: Pokemon, opp: Pokemon): (r: real)
    ensures 0.0 <= r
    ensures r == 0.0 || exists i :: (0 <= i < |opp.moves| && opp.moves[i].category != StatusMove
      && r == k.multiplier(bot, opp.moves[i].moveType))
    ensures forall i :: 0 <= i < |opp.moves| && opp.moves[i].category != StatusMove ==>
      k.multiplier(bot, opp.moves[i].moveType) <= r
  {
    var gains := MoveGains(k, opp.moves, bot);
    MoveGainsMembers(k, opp.moves, bot);
    assert forall i :: 0 <= i < |opp.moves| && opp.moves[i].category != StatusMove ==>
      k.multiplier(bot, opp.moves[i].moveType) in gains;
    MaxFrom(0.0, gains)
  }

  /** __move_type_advantage: the bot's move gain minus the opponent's; while the opponent
      shows fewer than four moves, its type advantage stands in for a smaller move gain. */
  function MoveAdvantage(k: Knowledge, bot: Pokemon, opp: Pokemon, oppTypeAdv: real): (r: real)
    ensures |opp.moves| < 4 ==>
      r == BotMoveGain(k, bot, opp) - (if OppMoveGain(k, bot, opp) < oppTypeAdv then oppTypeAdv else OppMoveGain(k, bot, opp))
    ensures |opp.moves| >= 4 ==> r == BotMoveGain(k, bot, opp) - OppMoveGain(k, bot, opp)
  {
    var botGain := BotMoveGain(k, bot, opp);
    var oppGain := OppMoveGain(k, bot, opp);
    if oppGain < oppTypeAdv && |opp.moves| < 4 then botGain - oppTypeAdv else botGain - oppGain
  }

  /** The loop of __move_type_advantage: the largest multiplier of the attacker's damaging
      moves against the defender, starting from 0. */
  method AccumulateMoveGain(k: Knowledge, moves: seq<Move>, defender: Pokemon) returns (gain: real)
    ensures gain == MaxFrom(0.0, MoveGains(k, moves, defender))
  {
    gain := 0.0;
    var i := 0;
    while i < |moves|
      invariant 0 <= i <= |moves|
      invariant gain == MaxFrom(0.0, MoveGains(k, moves[..i], defender))
    {
      var m := moves[i];
      ghost var gains := MoveGains(k, moves[..i], defender);
      MoveGainsStep(k, moves, i, defender);
      if m.category != StatusMove {
        var g := k.multiplier(defender, m.moveType);
        assert MoveGains(k, moves[..i + 1], defender) == gains + [g];
        MaxFromStep(0.0, gains, g);
        if g > gain {
          gain := g;
        }
      } else {
        assert MoveGains(k, moves[..i + 1], defender) == gains + [];
        assert gains + [] == gains;
      }
      i := i + 1;
    }
    assert moves[..i] == moves;
  }

  /** __move_type_advantage as written: the opponent's gain accumulated over its known moves. */
  method ComputeMoveAdvantage(k: Knowledge, bot: Pokemon, opp: Pokemon, oppTypeAdv: real) returns (adv: real)
    ensures adv == MoveAdvantage(k, bot, opp, oppTypeAdv)
  {
    var botGain := BotMoveGain(k, bot, opp);
    var oppGain := 0.0;
    if |opp.moves| > 0 {
      oppGain := AccumulateMoveGain(k, opp.moves, bot);
    }
    assert oppGain == OppMoveGain(k, bot, opp);
    if oppGain < oppTypeAdv && |opp.moves| < 4 {
      return botGain - oppTypeAdv;
    }
    return botGain - oppGain;
  }

  /** matchup_on_types: the difference of the type advantages plus the move advantage. */
  function MatchupOnTypes(k: Knowledge, bot: Pokemon, opp: Pokemon): real
    requires HasType(bot) && HasType(opp)
  {
    var botTypeAdv := TypeAdvantage(k, bot, opp);
    var oppTypeAdv := TypeAdvantage(k, opp, bot);
    (botTypeAdv - oppTypeAdv) + MoveAdvantage(k, bot, opp, oppTypeAdv)
  }

  /** With a type chart whose multipliers lie in [0, 4], a matchup lies in [-8, 8]. */
  lemma {:induction false} MatchupRange(k: Knowledge, bot: Pokemon, opp: Pokemon)
    requires k.ChartBounded()
    requires HasType(bot) && HasType(opp)
    ensures -8.0 <= MatchupOnTypes(k, bot, opp) <= 8.0
  {
    var i :| 0 <= i < |bot.types| && bot.types[i].Some? && TypeAdvantage(k, bot, opp) == k.multiplier(opp, bot.types[i].value);
    var j :| 0 <= j < |opp.types| && opp.types[j].Some? && TypeAdvantage(k, opp, bot) == k.multiplier(bot, opp.types[j].value);
    var botGain := BotMoveGain(k, bot, opp);
    var oppGain := OppMoveGain(k, bot, opp);
    if exists l :: 0 <= l < |bot.moves| && bot.moves[l].category != StatusMove {
      var l :| 0 <= l < |bot.moves| && bot.moves[l].category != StatusMove && botGain == k.multiplier(opp, bot.moves[l].moveType);
      assert 0.0 <= botGain <= 4.0;
    }
    if oppGain != 0.0 {
      var l :| 0 <= l < |opp.moves| && opp.moves[l].category != StatusMove && oppGain == k.multiplier(bot, opp.moves[l].moveType);
      assert oppGain <= 4.0;
    }
  }
}
