# PokemonAgent decision core in Dafny

This project models the decision engine of a Pokémon Showdown battle bot (generation 8
random battles) and proves properties of that model. The engine has four parts:

- **Battle-state transition.** One node of the search is a snapshot of the two active
  combatants and the field. Simulating a ply derives a child node from it. Damage comes
  from a damage oracle (lower bound on the bot's ply, upper bound on the opponent's).
  The ply then updates the weather counter, adds stat-stage deltas, and applies healing,
  recoil and drain capped at maximum HP. Fainted members leave the rosters. The
  opponent's unknown moves are filled in with one default move per uncovered type.
- **Search.** Alpha-beta minimax runs to a fixed depth: the bot maximises, the opponent
  minimises, and depth advances after the opponent's ply. The best leaf is walked back
  through its ancestors to the move played at the root. A knock-out shortcut plays the
  first move that faints the opponent outright.
- **Speed and accuracy.** These are piecewise probabilities over speed bounds and the
  accuracy special cases.
- **Heuristics and rules.** Two leaf evaluations (active-only and team-wide), the type
  matchup, the switch rule with its choice of replacement, and the dynamax rule.

## Layout

| module (file) | contents |
|---|---|
| `Knowledge` (knowledge.dfy) | Library value types (Pokémon, moves, weather, fields) and the foreign oracles: damage, stat resolution, HP/attack estimates, default movesets, healing-move table, type chart. Python `int()` and `math.ceil`. |
| `Dict` (dict.dfy) | Python dict as an insertion-ordered sequence of entries. |
| `CoreUtils` (core_utils.dfy) | `outspeed_prob`, `compute_move_accuracy`. |
| `NodePokemon` (node_pokemon.dfy) | The per-combatant node: constructor defaults and clamping, `is_fainted`, `clone`, `clone_all`, `enrich_moves`. |
| `BattleStatus` (battle_status.dfy) | Weather, recoil, drain, healing, boosts, roster removal, available actions, `can_outspeed`, `simulate_action` as a value-level function, and the `BattleStatus` class whose methods change `weather` in place and allocate children. |
| `SimpleHeuristic`, `TeamHeuristic`, `Heuristic` | The two leaf evaluations and the dispatch between them. |
| `GameSearch` (game_search.dfy) | Alpha-beta over a generic game whose nodes are ancestor chains, proved equal to plain minimax. |
| `MiniMaxPlayer` (minimax_player.dfy) | The battle instance of the game: terminal test, expansion, root-move recovery, and the knock-out shortcut. |
| `Matchup`, `Switch`, `Gimmick` | The type matchup, the switch rule and replacement choice, and the dynamax rule. |

The model keeps these quirks of the source as written:

- Stat stages are not clamped to [-6, 6].
- `move_first` is true when the outspeed probability is *below* 0.8.
- On the opponent's ply, drain is capped against the *bot's* HP.
- `simulate_action` overwrites the parent's weather, and the search carries that parent
  forward to the next sibling.
- Accuracy of a one-hit-KO move can exceed 1.
- The switch rule compares a base stat against a stat stage (see Findings).

## Model

| member | source | states |
|---|---|---|
| Knowledge.Trunc | mm/BattleStatus.py:244 | Python `int()` truncates toward zero: within one of x on the side of zero. |
| Knowledge.Ceil | mm/BattleStatus.py:248 | `math.ceil`: the least integer not below x. |
| Dict.Keys | mm/BattleStatus.py:208 | The key of every entry is in the key set. |
| Dict.KeysOnly | mm/BattleStatus.py:208 | Conversely, every member of the key set is the key of some entry. |
| Dict.Set | mm/BattleStatus.py:210 | Assigning to a present key keeps the length and key set; assigning to an absent key appends the entry; the key set gains the key. |
| Dict.SetInPlace | mm/BattleStatus.py:210 | With distinct keys, assigning to the key of some entry rewrites exactly that entry to (key, value) in place; the length and every other entry are unchanged. |
| Dict.SetAppends | mm/BattleStatus.py:210 | Assigning to a key no entry has appends (key, value) at the end of the iteration order. |
| Dict.SetKeepsDistinct | mm/BattleStatus.py:210 | Assignment keeps the keys distinct. |
| Dict.FirstKey | mm/BattleStatus.py:93 | None exactly when the weather dict has no keys; otherwise one of its keys (by definition the first in iteration order). |
| CoreUtils.CompareSpeeds | core/utils.py:43-61 | Probability in [0,1]. Random battle: lb := ub and 1 / 0.5 / 0 for faster / tie / slower. Otherwise 0 below lb, 1 above ub, 0.5 on a three-way tie, else (bot-lb)/(ub-lb) with lb < ub. |
| CoreUtils.CompareSpeedsMonotone | core/utils.py:44-61 | For fixed bounds, the probability never decreases as the bot's speed grows. |
| CoreUtils.OutspeedProb | core/utils.py:18-67 | Bounds from stat queries with ivs/evs 0 and the assumed ivs/evs; trick room replaces p by 1-p; p in [0,1]; a speed-inverting opponent has lb == ub. |
| CoreUtils.OutspeedBoundsOrdered | core/utils.py:29-38 | If more ivs/evs never lower a resolved speed, then lb <= ub. |
| CoreUtils.AccuracyShortcut | core/utils.py:90-118 | Certain hit for always-hit moves, dynamaxed attackers or noguard; thunder/hurricane certain in rain, 0.5 in sun; blizzard certain in hail; OHKO moves nominal when the defender is higher level, else raised by the level gap; every other move keeps its own accuracy for the formula. |
| CoreUtils.MoveAccuracy | core/utils.py:81-137 | The certain cases give exactly 1, the nominal case the move's accuracy, otherwise (base accuracy from AccuracyShortcut) × accuracy stat × hustle factor divided by evasion (1 when evasion is ignored). |
| CoreUtils.OneHitKoAccuracyAboveOne | core/utils.py:111-132 | A 30% OHKO move used one level above the defender has accuracy above 1. |
| NodePokemon.DefaultFor | mm/NodePokemon.py:118-121 | With a default-move table whose moves have their own type, the default synthesised for a type has that type. |
| NodePokemon.Added | mm/NodePokemon.py:108-122 | At most one default move per entry of the type list. |
| NodePokemon.AddedSound | mm/NodePokemon.py:109-121 | Every added move is the default for some present type that no known move covers. |
| NodePokemon.AddedComplete | mm/NodePokemon.py:109-121 | Every present type not covered by a known move gets its default added. |
| NodePokemon.AddedNothing | mm/NodePokemon.py:109-116 | When the known moves cover every present type, nothing is added. |
| NodePokemon.Enriched | mm/NodePokemon.py:107-123 | The known moves are a suffix of the result, in the same order, after at most one default per type. |
| NodePokemon.EnrichMoves | mm/NodePokemon.py:107-123 | The nested loop builds exactly the enriched list. |
| NodePokemon.EnrichedCoversTypes | mm/NodePokemon.py:107-123 | If each default move has its own type, every present type is covered after enrichment. |
| NodePokemon.EnrichIdempotent | mm/NodePokemon.py:107-123 | If each default move has its own type, enriching twice equals enriching once. |
| NodePokemon.InitialHp | mm/NodePokemon.py:33-40 | The node HP is never negative: a supplied value clamped at 0, by default the bot's observed HP or the opponent's estimated HP times its fraction. |
| NodePokemon.Create | mm/NodePokemon.py:20-58 | HP is never negative: a supplied negative HP becomes 0. The bot's default HP is its current HP; the opponent's is estimated HP × HP fraction. Omitted boosts, status and effects come from the Pokémon. Moves are kept verbatim for the bot or exactly four moves, and enriched otherwise. |
| NodePokemon.CloneOverrides | mm/NodePokemon.py:79-98 | Cloning with a new HP and boosts keeps every other field and clamps HP at 0; the clone is fainted iff the supplied HP is <= 0. |
| NodePokemon.CloneKeepsMoves | mm/NodePokemon.py:94-98 | If each default move has its own type, re-running enrichment in `clone` leaves an opponent's moves unchanged. |
| NodePokemon.CloneAllIdentity | mm/NodePokemon.py:71-73 | `clone_all` of a well-formed node is the same node. |
| NodePokemon.CloneAllRestoresStatus | mm/NodePokemon.py:71-73 | A node whose status is None gets the Pokémon's status back from `clone_all`, so the copy differs. |
| BattleStatus.ActiveWeather | mm/BattleStatus.py:204-217 | A move that sets weather yields exactly {w: 1}; with no weather move and no turn update the weather is unchanged. |
| BattleStatus.SingleWeatherTurn | mm/BattleStatus.py:206-212 | On a turn update a counter below 5 increments and a counter of 5 clears the weather. |
| BattleStatus.AdvanceCounters | mm/BattleStatus.py:206-212 | The loop over a copy of the entries computes exactly the end-of-turn counter update. |
| BattleStatus.DecayedLast | mm/BattleStatus.py:206-212 | n+1 turn updates are n turn updates followed by one more. |
| BattleStatus.WeatherCounts | mm/BattleStatus.py:206-212 | From counter c, n turn updates give c+n while c+n <= 5. |
| BattleStatus.WeatherLifetime | mm/BattleStatus.py:204-217 | Weather set by a move lasts exactly five turn updates. |
| BattleStatus.Recoil | mm/BattleStatus.py:239-250 | 0 without recoil or with magicguard; max_hp/2 floored for mindblown/steelbeam; 1000 for self-destruct; else ceil(damage × recoil); non-negative for non-negative inputs. |
| BattleStatus.Drain | mm/BattleStatus.py:260-270 | 0 when the move does not drain; otherwise int(damage × drain) when that fits under the maximum, else exactly max − current; current + drain never exceeds max. |
| BattleStatus.Healing | mm/BattleStatus.py:281-339 | 0 for non-status or non-healing moves, dynamaxed users, unlisted moves, purify without a status, rest under electric/psychic terrain, and strength sap at stage -6 without contrary. Rest heals exactly max − current. Otherwise the raw heal (int(max × weather/move fraction), or int(attack × modifier × stage multiplier) for strength sap) capped to max − current. |
| BattleStatus.ApplyMoverHp | mm/BattleStatus.py:102-112 | The mover's HP after healing (under the weather read before the move), recoil and drain, applied in that order. |
| BattleStatus.Shift | mm/BattleStatus.py:354-360 | Each stat stage moves by exactly its delta (0 for stats the move does not name). |
| BattleStatus.AddTo | mm/BattleStatus.py:357 | Adding to one stage changes that stage only. |
| BattleStatus.UpdatedBoosts | mm/BattleStatus.py:349-362 | Target self changes only the attacker's stages; target normal changes only the defender's; other targets or no boosts change neither. |
| BattleStatus.ApplyDeltas | mm/BattleStatus.py:355-357 | The accumulation loop yields exactly the shifted stages. |
| BattleStatus.ComputeUpdatedBoosts | mm/BattleStatus.py:349-362 | The copying method returns exactly the updated pair, leaving its inputs as they were. |
| BattleStatus.StagesNotClamped | mm/BattleStatus.py:354-360 | +2 attack on a stage of 6 yields 8: no clamp. |
| BattleStatus.IndexOf | mm/BattleStatus.py:180 | `list.remove` acts on the first occurrence. |
| BattleStatus.RemoveFirst | mm/BattleStatus.py:179-180 | Removing from a copy drops exactly one occurrence (the first) and keeps the rest in order. |
| BattleStatus.RemovePokeFromSwitches | mm/BattleStatus.py:176-182 | The roster is unchanged unless the member is fainted and not active; then exactly that member is removed once. |
| BattleStatus.MovesAsActions | mm/BattleStatus.py:58-59 | The actions are the moves in order. |
| BattleStatus.ActAvailActions | mm/BattleStatus.py:54-61 | Empty iff the bot's combatant is fainted or has no moves; otherwise exactly its moves. |
| BattleStatus.OppAvailActions | mm/BattleStatus.py:67-74 | Empty when the opponent's combatant is fainted; otherwise exactly its moves. |
| BattleStatus.FasterBotNotFirst | mm/BattleStatus.py:163-167 | Without trick room, a bot surely faster than the opponent's upper speed bound gets move_first false (probability 1 is not below 0.8). |
| BattleStatus.SimulateShape | mm/BattleStatus.py:92-156 | The child records the action and whether it is a switch, shares field and parent weather; the parent changes only its weather, and a switch leaves it as it was. |
| BattleStatus.SwitchKeepsOtherSide | mm/BattleStatus.py:120-155 | A switch replaces only the switching side's combatant and keeps rosters and weather. |
| BattleStatus.BotMoveEffects | mm/BattleStatus.py:94-119 | The bot's move: the opponent loses the lower damage bound; the bot gains healing minus recoil plus drain; HP is clamped at 0; a weather move sets {w: 1}. |
| BattleStatus.OppMoveEffects | mm/BattleStatus.py:126-151 | The opponent's move: the bot loses the upper damage bound; the opponent gains healing minus recoil plus drain (capped against the bot); the turn's weather update applies. |
| BattleStatus.BotHpStaysBelowMax | mm/BattleStatus.py:102-115 | With non-negative recoil, the bot's HP after its own move stays at most its maximum. |
| BattleStatus.BattleStatus.constructor | mm/BattleStatus.py:26-44 | Fields as given, score 0, move_first from can_outspeed(0.8). |
| BattleStatus.BattleStatus.GetActiveWeather | mm/BattleStatus.py:204-217 | The counter loop over a copy returns exactly ActiveWeather. |
| BattleStatus.BattleStatus.SimulateSwitch | mm/BattleStatus.py:120-155 | A fresh child whose ancestor is this node, equal to the switch ply. |
| BattleStatus.BattleStatus.SimulateBotMove | mm/BattleStatus.py:95-119 | Only this node's weather changes; a fresh child with this ancestor equals the bot ply. |
| BattleStatus.BattleStatus.SimulateOppMove | mm/BattleStatus.py:126-151 | Only this node's weather changes; a fresh child with this ancestor equals the opponent ply. |
| BattleStatus.BattleStatus.SimulateAction | mm/BattleStatus.py:92-156 | A fresh child with ancestor == self and move == action; this node's new state and the child's are those of Simulate. |
| SimpleHeuristic.ScoreIgnoresDepth | mm/SimpleHeuristic.py:13-20 | The score does not depend on depth. |
| SimpleHeuristic.ScoreMonotone | mm/SimpleHeuristic.py:17-18 | More bot HP or less opponent HP never lowers the score. |
| SimpleHeuristic.ScoreBounded | mm/SimpleHeuristic.py:17-18 | With both HPs in [0, max], the score lies in [-1, 1]. |
| TeamHeuristic.BenchHp | mm/TeamHeuristic.py:31-32 | The bench's summed HP fractions lie between 0 and the bench size. |
| TeamHeuristic.FaintedCount | mm/TeamHeuristic.py:40 | At most the team size; equal to it iff all fainted, 0 iff none. |
| TeamHeuristic.ComputeScore | mm/TeamHeuristic.py:27-50 | The loop-accumulated score equals b1·team_hp/6 + b2·alive/6 − m1·opp_hp/opp_max − m2·opp_len/6 − p1·depth. |
| TeamHeuristic.DepthPenalty | mm/TeamHeuristic.py:47-48 | One level deeper lowers the score by exactly the penalty. |
| TeamHeuristic.FormulaDepth | mm/TeamHeuristic.py:47-48 | The weighted formula is linear in depth with slope −penalty. |
| TeamHeuristic.TeamHpBounded | mm/TeamHeuristic.py:28-32 | With active HP in [0, max], team_hp lies in [0, 1 + bench size]. |
| TeamHeuristic.NoFaintedOpponents | mm/TeamHeuristic.py:40 | No fainted opponent listed gives opp_team_len 6. |
| GameSearch.Max | players/MiniMaxPlayer.py:277 | max over extended reals: an upper bound that is one of its arguments. |
| GameSearch.Min | players/MiniMaxPlayer.py:293 | min over extended reals: a lower bound that is one of its arguments. |
| GameSearch.Value | players/MiniMaxPlayer.py:259-299 | Plain minimax, the reference: the returned leaf extends the node's ancestor chain. |
| GameSearch.Fold | players/MiniMaxPlayer.py:268-299 | The unpruned loop over the children keeps a leaf extending the node's chain. |
| GameSearch.FoldNeverWorse | players/MiniMaxPlayer.py:275-277 | The running max never falls and the running min never rises. |
| GameSearch.FoldTiesKeepEarlier | players/MiniMaxPlayer.py:275-276 | The returned node changes only on strict improvement: a tied value keeps the earlier node. |
| GameSearch.FoldLeafAction | players/MiniMaxPlayer.py:272-276 | The best leaf descends through a child produced by one of the node's actions. |
| GameSearch.ValueLeafAction | players/MiniMaxPlayer.py:264-299 | The minimax leaf, if below the node, passes through a child made by one of its available actions. |
| GameSearch.AlphaBeta | players/MiniMaxPlayer.py:259-299 | Leaf at max depth or terminal returns its score. Otherwise a fail-soft bound of minimax: at or below alpha bounds it from above, at or above beta from below, strictly inside the window it equals minimax with the same leaf. |
| GameSearch.MaxPly | players/MiniMaxPlayer.py:268-283 | The maximising loop, same depth and turn flipped, with the beta cut-off, is fail-soft against minimax. |
| GameSearch.MinPly | players/MiniMaxPlayer.py:284-299 | The minimising loop at depth+1, turn flipped back, with the alpha cut-off, is fail-soft against minimax. |
| GameSearch.FullWindow | players/MiniMaxPlayer.py:238 | Called with (-inf, +inf), alpha-beta returns exactly the minimax value and leaf. |
| MiniMaxPlayer.TerminalIffFainted | players/MiniMaxPlayer.py:306-325 | A node is terminal iff either active combatant is fainted. |
| MiniMaxPlayer.AvailActions | mm/BattleStatus.py:54-74 | The search only ever tries moves (switches are not offered). |
| MiniMaxPlayer.SearchGame | players/MiniMaxPlayer.py:259-299 | The game alphabeta searches: depth bound, terminal iff an active combatant fainted, actions are the moving side's available moves, a step is simulate_action, leaves are scored by the heuristic at their depth, and a node records its producing move. |
| MiniMaxPlayer.SearchGameTracks | mm/BattleStatus.py:117-155 | Every expanded child records the action that produced it. |
| MiniMaxPlayer.ExpandIsSimulate | players/MiniMaxPlayer.py:272-290 | From a non-terminal node and an available action, expansion is exactly simulate_action and keeps nodes consistent. |
| MiniMaxPlayer.GetBestMove | players/MiniMaxPlayer.py:237-247 | The ancestor walk returns the move of the chain node just below the root, or the random move when the leaf is the root's own placeholder. |
| MiniMaxPlayer.BestMoveIsRootAction | players/MiniMaxPlayer.py:237-247 | The chosen move is the random move, the root's move, or one of the bot's available actions at the root. |
| MiniMaxPlayer.NoActionsNoDescent | players/MiniMaxPlayer.py:268-283 | With no bot actions at the root, the search returns the root itself. |
| MiniMaxPlayer.ShortcutSimulation | players/MiniMaxPlayer.py:201-209 | Simulating a candidate from the shortcut's node faints the opponent iff the lower damage bound reaches its assumed HP (ceil of max × fraction, clamped at 0). |
| MiniMaxPlayer.FirstKnockOutIsFirst | players/MiniMaxPlayer.py:202-212 | The result is None iff no move knocks out; otherwise it is the earliest knocking-out move in list order. |
| MiniMaxPlayer.TryKnockOut | players/MiniMaxPlayer.py:203-209 | Building a fresh node and simulating the candidate reports a faint iff it knocks out. |
| MiniMaxPlayer.HitIfActPokeCanOutspeed | players/MiniMaxPlayer.py:199-212 | The early-return loop returns (true, the first knocking-out move) or (false, splash). |
| Matchup.MaxFrom | strategy/matchup.py:33-37 | The running maximum: at least the start, at least every element, and equal to the start or an element. |
| Matchup.Max | strategy/matchup.py:10-11 | Python max of a non-empty list: an element, at least every element. |
| Matchup.TypeGains | strategy/matchup.py:10-11 | One multiplier per present type at most. |
| Matchup.TypeGainsMembers | strategy/matchup.py:10-11 | The comprehension holds exactly the multipliers of the attacker's non-None types. |
| Matchup.MoveGains | strategy/matchup.py:25-27 | One multiplier per move at most. |
| Matchup.MoveGainsMembers | strategy/matchup.py:25-27 | The comprehension holds exactly the multipliers of the non-status moves. |
| Matchup.TypeAdvantage | strategy/matchup.py:9-12 | The max multiplier over the attacker's non-None types: attained by one, at least every one. |
| Matchup.BotMoveGain | strategy/matchup.py:25-28 | The max multiplier over the bot's non-status moves, or 1 if there are none. |
| Matchup.OppMoveGain | strategy/matchup.py:31-37 | Starts at 0: non-negative, at least every non-status multiplier, and 0 or one of them. |
| Matchup.MoveAdvantage | strategy/matchup.py:39-42 | With fewer than four known opponent moves the larger of its move gain and type advantage is subtracted; otherwise its move gain. |
| Matchup.AccumulateMoveGain | strategy/matchup.py:31-37 | The loop over the opponent's known moves ends with the running maximum, from 0, of the multipliers of its damaging moves. |
| Matchup.ComputeMoveAdvantage | strategy/matchup.py:22-42 | The accumulating loop computes exactly the move advantage. |
| Matchup.MatchupRange | strategy/matchup.py:48 | With chart multipliers in [0, 4], the matchup lies in [-8, 8]. |
| Switch.ShouldSwitchWith | strategy/switch.py:16-55 | Dynamaxed: switch iff matchup <= -4. Otherwise never without a better teammate; with one, switch iff TOX with matchup − toxic turns <= -2, a def/spd stage <= -2, an attacker-kind stage <= -2, matchup <= -1.5, or matchup <= -1 with outspeed <= 0.5. |
| Switch.AsWrittenSwitchesOnAtkStageOfSpecialAttacker | strategy/switch.py:40-47 | As written, a special attacker switches because of its attack stage alone. |
| Switch.IntendedIgnoresAtkStageOfSpecialAttacker | strategy/switch.py:39-47 | With attacker kind from base stats, the attack stage of a non-physical attacker never decides a switch. |
| Switch.BestSwitches | strategy/switch.py:74-75 | Exactly the members whose matchup equals the best one. |
| Switch.Faster | strategy/switch.py:78-79 | Exactly the candidates with outspeed probability above 0.6. |
| Switch.ComputeBestSwitch | strategy/switch.py:66-90 | None iff the team is empty; the pick has the best matchup, and is one with outspeed > 0.6 whenever such a best member exists. |
| Gimmick.FullHpCount | strategy/gimmick.py:30 | At most the team size; 0 iff no teammate is at full HP. |
| Gimmick.ShouldDynamax | strategy/gimmick.py:13-40 | True with no teammate left; true for the best-stat combatant with matchup >= 1 and HP >= 0.8; true at full HP with no teammate at full HP, or with matchup >= the best and > 2; false with teammates and HP below 0.8. |
| Gimmick.ShouldDynamaxCases | strategy/gimmick.py:28-38 | The decision is exactly the disjunction of the first four tests; the last test never changes it. |

## Left out

- Foreign code and data are oracles with contracts. These are `compute_damage`, `compute_stat`, `estimate_stat`, `compute_stat_modifiers`, `compute_stat_boost`, the default-move and healing-move tables, `STATUS_CONDITIONS` and the type chart. The contracts are: damage bounds non-negative with lb <= ub, positive HP estimates, positive resolved stats and accuracy/evasion multipliers (so the evasion division in `compute_move_accuracy` never fails), and (where a lemma needs it) monotone speed, chart multipliers in [0, 4], and default moves of their own type.
- Rounding to two decimals in `outspeed_p`, accuracy, drain and healing percentages is not modelled: probabilities and accuracies are exact reals, and the percentages are not returned. Dropping `round(outspeed_p, 2)` (core/utils.py:67) can change threshold decisions near their boundary: `can_outspeed`'s `< threshold` with threshold 0.8 (mm/BattleStatus.py:167) and `compute_best_switch`'s `> 0.6` (strategy/switch.py:79). For example p = 0.604 counts as faster in the model, while the source rounds it to 0.6 and excludes it; likewise p = 0.796 is below 0.8 in the model but rounds to 0.8 in the source.
- Floating point is modelled as exact reals; opponent HP is a real since it is estimated HP times a fraction.
- The poke_env `Player` plumbing is not modelled: `choose_move`, `best_switch_on_matchup`, `print_chosen_move`, the players' constructors, the other two players, `main.py` and `utils/utils.py`.
- The random fallback move of `get_best_move` is a parameter. The random pick of `compute_best_switch` is the parameter `pick`, reduced modulo the number of candidates.
- The string formatters, `get_battle_info` and the `last_id` counter are not modelled.
- `clone_poke_list` is not modelled: it is never called by the core.
- Move comparison with the `splash` placeholder is value equality; poke_env object identity is not modelled.
- The heuristic interface is a datatype with one case per heuristic, since traits are not used.
- The search runs on value snapshots of nodes (`BattleState`) threaded through a generic game. The `BattleStatus` class carries the in-place weather update and child allocation for a single step. Object aliasing across a whole search and the cached `node.score` are not modelled.
- MiniMaxPlayer.SearchGame: expansion is totalised with a fallback for actions whose roster removal would fail. ExpandIsSimulate shows the fallback is never reached from a consistent non-terminal node.
- GameSearch.AlphaBeta: requires alpha < beta, which every call from the full window keeps.
- GameSearch.FullWindow: a `None` leaf cannot arise in the model, since every ply returns a node.
- TeamHeuristic.ComputeScore: requires at least four weights, as the formula indexes four; an explicit `None` penalty is read as omitted.
- The following definitions carry no contract of their own, since a contract would only repeat their bodies; the rows named after each state their behaviour:
  - CoreUtils.UpperIvs and CoreUtils.UpperEvs (the assumed ivs 0/31 and evs 0/84/252 of core/utils.py:30-36): OutspeedProb (the bound queries, and equal bounds for an opponent with trick room or gyro ball) and FasterBotNotFirst.
  - CoreUtils.UsesSpeedInverter, CoreUtils.WeatherAccuracyMove, CoreUtils.OneHitKoMove and CoreUtils.AccuracyQuery: OutspeedProb, AccuracyShortcut, MoveAccuracy and OneHitKoAccuracyAboveOne.
  - BattleStatus.Simulate (`simulate_action`) with its parts BattleStatus.SwitchPly, BattleStatus.BotPly, BattleStatus.OppPly, BattleStatus.DamageOf, BattleStatus.MoverHp and BattleStatus.NewState: SimulateShape, SwitchKeepsOtherSide, BotMoveEffects, OppMoveEffects, BotHpStaysBelowMax, ApplyMoverHp, the constructor and the class methods SimulateSwitch, SimulateBotMove, SimulateOppMove and SimulateAction.
  - BattleStatus.CanOutspeed (`can_outspeed`): FasterBotNotFirst and the constructor row (move_first is can_outspeed(0.8)).
  - BattleStatus.TurnUpdate, BattleStatus.Advance and BattleStatus.Decayed (the turn update of `get_active_weather`): AdvanceCounters, SingleWeatherTurn, DecayedLast, WeatherCounts and WeatherLifetime.
  - BattleStatus.HealingFraction, BattleStatus.SunHealingMove, BattleStatus.SappedStage, BattleStatus.SappedHealing and BattleStatus.IsHealingStatusMove: Healing.
  - BattleStatus.MoveBoosts, BattleStatus.Delta and BattleStatus.BoostsExt: UpdatedBoosts, Shift, AddTo and StagesNotClamped.
  - MiniMaxPlayer.PlayerLoose, MiniMaxPlayer.OpponentLoose and MiniMaxPlayer.IsTerminal: TerminalIffFainted. MiniMaxPlayer.Expand: ExpandIsSimulate and SearchGame. MiniMaxPlayer.BestMoveOf: GetBestMove and BestMoveIsRootAction.
  - MiniMaxPlayer.KnocksOut, MiniMaxPlayer.FirstKnockOut, MiniMaxPlayer.ShortcutRoot and MiniMaxPlayer.OppStartHp: ShortcutSimulation, FirstKnockOutIsFirst, TryKnockOut and HitIfActPokeCanOutspeed.
  - Heuristic.Compute (`compute_score`, a dispatch on the heuristic): SearchGame ties it to the search's leaf score; the rows of the two heuristics state the scores.
  - SimpleHeuristic.Score and SimpleHeuristic.OppMaxHp (`compute`): ScoreIgnoresDepth, ScoreMonotone and ScoreBounded.
  - TeamHeuristic.Score (`compute`) with TeamHeuristic.NewWeights (the tuned defaults of mm/TeamHeuristic.py:14-19), TeamHeuristic.AliveTeam, TeamHeuristic.TeamHp, TeamHeuristic.OppTeamLen, TeamHeuristic.OppHpFraction and TeamHeuristic.Formula: ComputeScore, TeamHpBounded, NoFaintedOpponents, FormulaDepth and DepthPenalty.
  - Matchup.MatchupOnTypes (`matchup_on_types`): MatchupRange, with its parts stated by TypeAdvantage and MoveAdvantage.
  - Switch.ShouldSwitch and Switch.ShouldSwitchIntended (`should_switch` as written and as intended) and Switch.OutspeedP: ShouldSwitchWith, the row under Findings, Faster and ComputeBestSwitch.
  - NodePokemon.IsFainted, NodePokemon.Covered, Dict.DistinctKeys, Knowledge.Boosts.Get and Knowledge.BaseStats.Sum are predicates and accessors read directly by the contracts above.
- NodePokemon.Clone and NodePokemon.CloneAll carry no contract of their own; their behaviour is stated by CloneOverrides, CloneKeepsMoves, CloneAllIdentity and CloneAllRestoresStatus.
- MiniMaxPlayer.HitIfActPokeCanOutspeed: requires the opponent's combatant to be active, as it is in battle, so its roster removal is well defined.
- Matchup.TypeAdvantage: requires a combatant with at least one type, as Python's `max` fails on an empty list.
- Switch.ComputeBestSwitch: requires that some member has the best matchup, as the random index fails on an empty list.
- Gimmick.ShouldDynamax: the best team matchup and best stat total are required values; comparing against their `None` defaults fails in Python.

## Findings

| source | as written | input that shows it | evidently intended | confidence | as-written member | corrected member |
|---|---|---|---|---|---|---|
| strategy/switch.py:40-47 | A physical attacker is one whose base attack exceeds its special-attack *stage*; a special attacker one whose base special attack exceeds its attack *stage*. | A special attacker with base atk 50, base spa 120, attack stage -2, other stages 0, matchup 0, best team matchup 1, outspeed 1: it switches as written, and not with neutral stages. | Compare base attack with base special attack. | medium, not executed | Switch.AsWrittenSwitchesOnAtkStageOfSpecialAttacker | Switch.IntendedIgnoresAtkStageOfSpecialAttacker |
