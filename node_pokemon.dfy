/** One combatant inside a simulated battle node: the battle library's Pokémon plus
    the attributes the search changes (current HP, stat stages, status, move list,
    effects). A value is never changed after it is built; every derived combatant
    is a new value made by `Create` or `Clone`. */
module NodePokemon {

  import opened Knowledge

  datatype NodePoke = NodePoke(
    pokemon: Pokemon,
    isActPoke: bool,
    currentHp: real,
    boosts: Boosts,
    status: Option<Status>,
    moves: seq<Move>,
    effects: map<string, int>)
  {
    predicate IsFainted()
    {
      currentHp <= 0.0
    }
  }

  /** Some move among `known` has elemental type `t`. */
  predicate Covered(known: seq<Move>, t: PokeType)
  {
    exists m :: m in known && m.moveType == t
  }

  /** The default move synthesised for type `t`: physical when base attack is at least
      base special attack, special otherwise. */
  function DefaultFor(k: Knowledge, pokemon: Pokemon, t: PokeType): (m: Move)
    ensures k.DefaultsTyped() ==> m.moveType == t
  {
    var c := if pokemon.baseStats.atk >= pokemon.baseStats.spa then Physical else Special;
    k.defaultMove(t, c)
  }

  /** The defaults added for the type slots `types`, in slot order: one per non-empty slot
      whose type no known move covers. */
  function Added(k: Knowledge, pokemon: Pokemon, types: seq<Option<PokeType>>, known: seq<Move>): (r: seq<Move>)
    ensures |r| <= |types|
    decreases |types|
  {
    if types == [] then []
    else
      var last := types[|types| - 1];
      var prefix := Added(k, pokemon, types[..|types| - 1], known);
      if last.Some? && !Covered(known, last.value) then prefix + [DefaultFor(k, pokemon, last.value)]
      else prefix
  }

  /** Every added move is the default of some non-empty slot that no known move covers. */
  lemma {:induction false} AddedSound(k: Knowledge, pokemon: Pokemon, types: seq<Option<PokeType>>, known: seq<Move>, m: Move)
    requires m in Added(k, pokemon, types, known)
    ensures exists i :: 0 <= i < |types| && types[i].Some? && !Covered(known, types[i].value)
                        && m == DefaultFor(k, pokemon, types[i].value)
    decreases |types|
  {
    var prefix := types[..|types| - 1];
    if m in Added(k, pokemon, prefix, known) {
      AddedSound(k, pokemon, prefix, known, m);
      var i :| 0 <= i < |prefix| && prefix[i].Some? && !Covered(known, prefix[i].value)
               && m == DefaultFor(k, pokemon, prefix[i].value);
      assert types[i] == prefix[i];
    } else {
      assert types[|types| - 1].Some? && m == DefaultFor(k, pokemon, types[|types| - 1].value);
    }
  }

  /** Every non-empty slot that no known move covers contributes its default. */
  lemma {:induction false} AddedComplete(k: Knowledge, pokemon: Pokemon, types: seq<Option<PokeType>>, known: seq<Move>, i: nat)
    requires i < |types| && types[i].Some? && !Covered(known, types[i].value)
    ensures DefaultFor(k, pokemon, types[i].value) in Added(k, pokemon, types, known)
    decreases |types|
  {
    if i < |types| - 1 {
      var prefix := types[..|types| - 1];
      assert prefix[i] == types[i];
      AddedComplete(k, pokemon, prefix, known, i);
    }
  }

  /** The enriched move list of an opponent: the added defaults followed by the known moves. */
  function Enriched(k: Knowledge, pokemon: Pokemon, known: seq<Move>): (r: seq<Move>)
    ensures |known| <= |r| <= |known| + |pokemon.types|
    ensures r[|r| - |known|..] == known
  {
    Added(k, pokemon, pokemon.types, known) + known
  }

  /** enrich_moves: the loop over the Pokémon's type slots and, for each, over the known moves. */
  method EnrichMoves(k: Knowledge, pokemon: Pokemon, known: seq<Move>) returns (r: seq<Move>)
    ensures r == Enriched(k, pokemon, known)
  {
    var types := pokemon.types;
    var added: seq<Move> := [];
    var i := 0;
    while i < |types|
      invariant 0 <= i <= |types|
      invariant added == Added(k, pokemon, types[..i], known)
    {
      assert types[..i + 1][..i] == types[..i];
      if types[i].Some? {
        var t := types[i].value;
        var sameType := false;
        var j := 0;
        while j < |known|
          invariant 0 <= j <= |known|
          invariant !sameType
          invariant forall jj :: 0 <= jj < j ==> known[jj].moveType != t
        {
          if known[j].moveType == t {
            sameType := true;
            break;
          }
          j := j + 1;
        }
        assert sameType <==> Covered(known, t);
        if !sameType {
          if pokemon.baseStats.atk >= pokemon.baseStats.spa {
            added := added + [k.defaultMove(t, Physical)];
          } else {
            added := added + [k.defaultMove(t, Special)];
          }
        }
      }
      i := i + 1;
    }
    assert types[..|types|] == types;
    r := added + known;
  }

  /** The constructor's HP: the supplied value clamped at 0, or by default the observed HP
      (bot) or the estimated maximum times the observed fraction (opponent). */
  function InitialHp(k: Knowledge, pokemon: Pokemon, isActPoke: bool, currentHp: Option<real>): (hp: real)
    ensures hp >= 0.0
    ensures currentHp.Some? && currentHp.value >= 0.0 ==> hp == currentHp.value
    ensures currentHp.Some? && currentHp.value < 0.0 ==> hp == 0.0
    ensures currentHp.None? && isActPoke ==> hp == pokemon.currentHp as real
    ensures currentHp.None? && !isActPoke ==> hp == k.estimateHp(pokemon) * pokemon.hpFraction
  {
    if currentHp.None? then
      if isActPoke then pokemon.currentHp as real
      else
        var est := k.estimateHp(pokemon);
        var fraction := pokemon.hpFraction;
        assert est * fraction >= 0.0 by {
          assert est > 0.0 && fraction >= 0.0;
        }
        est * fraction
    else if currentHp.value < 0.0 then 0.0
    else currentHp.value
  }

  /** The constructor: missing HP defaults to the observed HP (bot) or to the estimated
      maximum times the observed fraction (opponent); a supplied negative HP is clamped
      to 0; missing stages, status and effects come from the library's Pokémon; the
      move list is kept for the bot's combatant or a full set of four, and enriched
      otherwise. */
  function Create(k: Knowledge, pokemon: Pokemon, isActPoke: bool, currentHp: Option<real>,
                  boosts: Option<Boosts>, status: Option<Status>, moves: seq<Move>,
                  effects: Option<map<string, int>>): (r: NodePoke)
    ensures r.currentHp >= 0.0
    ensures currentHp.Some? && currentHp.value >= 0.0 ==> r.currentHp == currentHp.value
    ensures currentHp.Some? && currentHp.value < 0.0 ==> r.currentHp == 0.0
    ensures currentHp.None? && isActPoke ==> r.currentHp == pokemon.currentHp as real
    ensures currentHp.None? && !isActPoke ==> r.currentHp == k.estimateHp(pokemon) * pokemon.hpFraction
    ensures r.pokemon == pokemon && r.isActPoke == isActPoke
    ensures r.boosts == (if boosts.Some? then boosts.value else pokemon.boosts)
    ensures r.status == (if status.Some? then status else pokemon.status)
    ensures r.effects == (if effects.Some? then effects.value else pokemon.effects)
    ensures isActPoke || |moves| == 4 ==> r.moves == moves
    ensures !isActPoke && |moves| != 4 ==> r.moves == Enriched(k, pokemon, moves)
  {
    var hp := InitialHp(k, pokemon, isActPoke, currentHp);
    NodePoke(
      pokemon, isActPoke, hp,
      if boosts.Some? then boosts.value else pokemon.boosts,
      if status.Some? then status else pokemon.status,
      if isActPoke || |moves| == 4 then moves else Enriched(k, pokemon, moves),
      if effects.Some? then effects.value else pokemon.effects)
  }

  /** clone: every field not supplied is copied from `n`, then the constructor runs again. */
  function Clone(k: Knowledge, n: NodePoke, isActPoke: Option<bool>, currentHp: Option<real>,
                 boosts: Option<Boosts>, status: Option<Status>, moves: Option<seq<Move>>,
                 effects: Option<map<string, int>>): (r: NodePoke)
  {
    Create(k, n.pokemon,
           if isActPoke.Some? then isActPoke.value else n.isActPoke,
           Some(if currentHp.Some? then currentHp.value else n.currentHp),
           Some(if boosts.Some? then boosts.value else n.boosts),
           if status.Some? then status else n.status,
           if moves.Some? then moves.value else n.moves,
           Some(if effects.Some? then effects.value else n.effects))
  }

  /** clone_all: the constructor applied to copies of all of `n`'s fields. */
  function CloneAll(k: Knowledge, n: NodePoke): (r: NodePoke)
  {
    Create(k, n.pokemon, n.isActPoke, Some(n.currentHp), Some(n.boosts), n.status, n.moves, Some(n.effects))
  }

  /** The clone of a state-changing override: unsupplied fields are those of `n`, the HP is
      the supplied one clamped at 0, and the combatant itself is unchanged. */
  lemma CloneOverrides(k: Knowledge, n: NodePoke, hp: real, boosts: Boosts)
    requires n.status.Some? || n.pokemon.status.None?
    ensures var r := Clone(k, n, None, Some(hp), Some(boosts), None, None, None);
      && r.pokemon == n.pokemon && r.isActPoke == n.isActPoke
      && r.currentHp == (if hp < 0.0 then 0.0 else hp)
      && r.IsFainted() == (hp <= 0.0)
      && r.boosts == boosts && r.status == n.status && r.effects == n.effects
      && (n.isActPoke || |n.moves| == 4 ==> r.moves == n.moves)
  {
  }

  /** Every non-empty type slot of `pokemon` is covered by the enriched list, provided each
      default move of type t has type t. */
  lemma {:induction false} EnrichedCoversTypes(k: Knowledge, pokemon: Pokemon, known: seq<Move>, i: nat)
    requires k.DefaultsTyped()
    requires i < |pokemon.types| && pokemon.types[i].Some?
    ensures Covered(Enriched(k, pokemon, known), pokemon.types[i].value)
  {
    var t := pokemon.types[i].value;
    var e := Enriched(k, pokemon, known);
    if Covered(known, t) {
      var m :| m in known && m.moveType == t;
      assert m in e;
    } else {
      var d := DefaultFor(k, pokemon, t);
      AddedComplete(k, pokemon, pokemon.types, known, i);
      assert d in e && d.moveType == t;
    }
  }

  /** Nothing is added when every non-empty slot is already covered. */
  lemma {:induction false} AddedNothing(k: Knowledge, pokemon: Pokemon, types: seq<Option<PokeType>>, known: seq<Move>)
    requires forall i :: 0 <= i < |types| && types[i].Some? ==> Covered(known, types[i].value)
    ensures Added(k, pokemon, types, known) == []
    decreases |types|
  {
    if types != [] {
      AddedNothing(k, pokemon, types[..|types| - 1], known);
    }
  }

  /** Enrichment is idempotent when every default move of type t has type t. */
  lemma EnrichIdempotent(k: Knowledge, pokemon: Pokemon, known: seq<Move>)
    requires k.DefaultsTyped()
    ensures Enriched(k, pokemon, Enriched(k, pokemon, known)) == Enriched(k, pokemon, known)
  {
    var e := Enriched(k, pokemon, known);
    forall i | 0 <= i < |pokemon.types| && pokemon.types[i].Some?
      ensures Covered(e, pokemon.types[i].value)
    {
      EnrichedCoversTypes(k, pokemon, known, i);
    }
    AddedNothing(k, pokemon, pokemon.types, e);
  }

  /** Cloning an opponent built by the constructor keeps its move list: a full set is kept,
      and re-enriching an enriched list adds nothing. */
  lemma CloneKeepsMoves(k: Knowledge, pokemon: Pokemon, hp: Option<real>, known: seq<Move>, newHp: real)
    requires k.DefaultsTyped()
    ensures var n := Create(k, pokemon, false, hp, None, None, known, None);
      Clone(k, n, None, Some(newHp), None, None, None, None).moves == n.moves
  {
    if |known| != 4 {
      EnrichIdempotent(k, pokemon, known);
    }
  }

  /** clone_all reproduces a node the constructor could have built: same HP (non-negative),
      status present or absent on the library Pokémon too, and a stable move list. */
  lemma CloneAllIdentity(k: Knowledge, n: NodePoke)
    requires n.currentHp >= 0.0
    requires n.status.Some? || n.pokemon.status.None?
    requires n.isActPoke || |n.moves| == 4 || Enriched(k, n.pokemon, n.moves) == n.moves
    ensures CloneAll(k, n) == n
  {
  }

  /** clone_all of a node whose status is absent takes the library Pokémon's status: the
      override `None` means "use the default". */
  lemma CloneAllRestoresStatus(k: Knowledge, n: NodePoke)
    requires n.status.None? && n.pokemon.status.Some?
    ensures CloneAll(k, n).status == n.pokemon.status && CloneAll(k, n) != n
  {
  }
}
