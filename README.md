# Super Auto Pets round simulator — Dafny model

This project models the core of `SAP.py`, a simulator for one round of an
auto-battler. The round has three parts:

- a shop that sells pets for gold;
- a team composer that searches, by depth-first backtracking, for the team
  with the highest heuristic utility score;
- a battle engine that plays two teams against each other.

In the battle, start-of-battle damage comes first. Then the front pets of
the two teams trade blows simultaneously, round after round. Faint abilities
fire as pets go down: give-stats buffs a living ally; summon appends a 1/1
zombie, which living friend-summoned buffers strengthen. The battle ends with
one of three outcomes.

Modules, one per component:

- `Pets` (`pets.dfy`): the pet as a datatype value, with its ability and
  trigger kinds and the game's pool. The original deep-copies pets at every
  hand-off, so a value type keeps its meaning. It also holds the counting
  function used by the score and by the summon buff, with its order-independence.
- `Shop` (`shop.dfy`): `class Shop` with `gold` and `petsForSale` fields,
  and `BuyPet`, which updates them in place.
- `Utility` (`utility.dfy`): the team score as a pure function over `real`,
  so the weight 1.5 is exact.
- `TeamSearch` (`search.dfy`): the search in two forms.
  - Pure specification: `Explore` / `ExploreEach`, with lemmas for soundness,
    optimality and monotonicity in gold.
  - Imperative: `class Composer`, whose `currentTeam` field every level of
    the recursion appends to and pops, as the original's shared list. A ghost
    log records every team the search scores.
- `BattleRules` (`battle_rules.dfy`): the battle rules as functions of the
  two teams: start damage, exchange, faint effects, round, the round loop
  `Play`, and the verdict `Classify`.
- `BattleEngine` (`battle_engine.dfy`): `class Battle`, whose `team1` and
  `team2` sequence fields are updated by `ExecuteStartAbilities`,
  `ProcessFaint` and `SimulateBattle`. Each method is proved equal to the
  corresponding rule.

Randomness is a parameter. Choosing at random among candidates `c` with a
roll `r` picks `c[r % |c|]`, so every choice the original can make is
reachable (`BattleRules.StartDamageTargetReachable`,
`BattleRules.GiveStatsTargetReachable`):

- the start-of-battle target of the pet at position `i` uses `rolls[i]`;
- the give-stats target of team 1 in round `n` uses `rng(2n)`, and team 2's
  uses `rng(2n + 1)`.

Deviations from the code, each where the original would crash or lose its
result:

- `SAP.py:166` builds the zombie without its ability and trigger arguments,
  which raises a `TypeError`. The model summons a 1/1 zombie with no ability
  and no trigger.
- `SAP.py:95-97` only rebinds locals, and `SAP.py:118-130` returns nothing,
  so the best team is lost. The search here returns `(best team, best
  utility)` and threads them through the loop over candidates.
- `SAP.py:86` and `SAP.py:159-160` are listed under Findings. Both the code as
  written and the corrected rule are modelled; the rest of the model uses the
  corrected rule.
- `SAP.py:189` has no termination argument. `SimulateBattle` requires every
  pet to have attack at least 1; every pet of the pool does (`Pets.Pool`).
  The measure is each team's health on living pets, plus one point for each
  living pet whose faint ability gives a point of health back. It drops by
  at least one per team per round (`BattleRules.RoundDecreases`).

Three behaviours of the code are kept as written, though they may look unintended:

- Start-of-battle damage may hit any enemy pet, living or fainted (SAP.py:152).
- A summon appends to the team rather than replacing the fainted pet
  (SAP.py:167).
- Team 2's start-of-battle pets fire even when team 1 has already knocked
  them out (SAP.py:148-149).

## Model

| member | source | states |
|---|---|---|
| `Pets.IsAlive` | SAP.py:14-15 | defines a pet as alive exactly when its health is above 0 |
| `Pets.Pool` | SAP.py:58-65 | the pool holds six pets, each alive and with attack at least 1 |
| `Pets.Count` | SAP.py:89 | a count over a team never exceeds the team's length |
| `Pets.CountPermutation` | SAP.py:89 | the number of pets with a given trigger or ability does not depend on team order |
| `Pets.CountZero` | SAP.py:86 | a count is zero exactly when no pet of the team qualifies |
| `Shop.Shop.constructor` | SAP.py:23-29 | a new shop has 10 gold, 3 slots, no pets for sale, refresh cost 1 and pet cost 3, and gold is non-negative |
| `Shop.Shop.BuyPet` | SAP.py:40-50 | with gold below the cost or the index out of range: returns None and changes nothing; otherwise returns the slot's content, charges exactly the pet cost even for an already-empty slot, empties that slot only, and gold stays non-negative |
| `Utility.TeamUtility` | SAP.py:69-91 | defines the intended score: 0 for the empty team; otherwise 1.5·attack + 2·health summed over the pets, +5 when a summon-friend and a buff-summoned pet are both present, 2 per start-damage pet, 2 per on-buy trigger and 1 per on-sell trigger |
| `Utility.TeamUtilityAsWritten` | SAP.py:69-91 | defines the score as the code computes it: the same terms, except that summing the start-damage ability names fails with a type error on a non-empty team holding such a pet |
| `Utility.SumStatsPermutation` | SAP.py:75-76 | the sum of 1.5·attack + 2·health over a team is the same for every ordering |
| `Utility.TeamUtilityPermutation` | SAP.py:69-91 | the utility (0 for the empty team; otherwise the stat sum, +5 when both a summon-friend and a buff-summoned pet are present, 2 per start-damage pet, 2 per on-buy trigger, 1 per on-sell trigger) is unchanged by any permutation of the team |
| `Utility.TeamUtilityNonNegative` | SAP.py:69-91 | a team whose pets all have non-negative attack and health scores at least 0 |
| `Utility.TeamUtilityAsWrittenAgrees` | SAP.py:86 | the score as written fails exactly on non-empty teams holding a start-of-battle damage pet; otherwise it equals the intended score |
| `Utility.MosquitoTeamFails` | SAP.py:86 | for a lone Mosquito the code as written raises a type error, while the intended score is 7.5 |
| `TeamSearch.Explore` | SAP.py:93-115 | defines one node of the search: the current team replaces the best so far when it scores strictly higher and has at most 5 pets; below depth 5 and with gold for one more pet, every available pet is tried in turn |
| `TeamSearch.ExploreEach` | SAP.py:104-115 | defines the loop over candidates from position `i` on: each is appended, searched with 3 gold less and one level deeper, and the best result is carried to the next candidate |
| `TeamSearch.Steps` | SAP.py:100 | the number of pets the search may still append costs no more than the gold left and keeps the depth within 5 |
| `TeamSearch.StepsCovers` | SAP.py:100-105 | every length within both the depth bound and the budget is reachable by the search |
| `TeamSearch.ExploreSound` | SAP.py:93-115 | the search returns either the best it was given or a strictly better team: the current team followed by at most `Steps` available pets, of length at most 5, with that team's utility |
| `TeamSearch.ExploreEachSound` | SAP.py:104-115 | the same for the loop over candidates from position `i` on |
| `TeamSearch.ExploreOptimal` | SAP.py:93-115 | no reachable team (current team followed by available pets, within the depth and gold bounds and at most 5 long) scores above the search's result |
| `TeamSearch.ExploreEachOptimal` | SAP.py:104-115 | the same for reachable teams whose next pet is a candidate from position `i` on |
| `TeamSearch.BestUtilityMonotone` | SAP.py:93-130 | more starting gold never lowers the best utility found |
| `TeamSearch.Composer.GetTeamCombination` | SAP.py:93-115 | the result is `Explore` of the entry state. `currentTeam` is left exactly as on entry, because each append is matched by a pop. Every team scored extends the entry team by at most `Steps(gold, depth)` available pets |
| `TeamSearch.Composer.TryPet` | SAP.py:104-115 | one branch: append a candidate, search one level deeper with one pet cost less, pop; the team is restored |
| `TeamSearch.GetBestTeam` | SAP.py:118-130 | the search from the empty team returns either the empty team with score 0, or a team of available pets with positive score, at most 5 long and costing at most the gold. No team of at most 5 available pets that the gold can buy scores higher |
| `BattleRules.FrontIndex` | SAP.py:193-194 | there is a front pet exactly when some pet is alive; it is alive and every pet before it has fainted |
| `BattleRules.LivingIndices` | SAP.py:160 | the living pets' indices, in team order, each living pet listed |
| `BattleRules.StartDamage` | SAP.py:147-153 | start damage keeps the enemy team's length, never raises a health, and changes only health |
| `BattleRules.StartDamageStep` | SAP.py:148-153 | each firing pet lowers the health of exactly one enemy pet (the one its roll picks, living or not) by exactly 1; a non-firing pet changes nothing |
| `BattleRules.StartDamageTotal` | SAP.py:147-153 | the enemy team's total health drops by exactly the number of firing pets |
| `BattleRules.StartDamageTargetReachable` | SAP.py:152-153 | whatever the other rolls, the roll `j` makes a firing pet hit the enemy at index `j`, so every enemy pet is a possible target |
| `BattleRules.StartDamageNoop` | SAP.py:151 | with an empty enemy team, or no firing pet, the enemy team is unchanged |
| `BattleRules.StartPhase` | SAP.py:185-186 | defines the start of battle: team 1's pets damage team 2, then team 2's pets, as damaged, damage team 1 |
| `BattleRules.Exchange` | SAP.py:199-202 | each front pet loses the other front pet's pre-exchange attack in health; attacks and every other pet are unchanged; no pet moves |
| `BattleRules.GiveStatsEffect` | SAP.py:157-163 | with a living ally, exactly one living ally gains +1 attack and +1 health and nothing else changes; with none, the team is unchanged |
| `BattleRules.GiveStatsAsWritten` | SAP.py:157-163 | defines give-stats as the code runs it: a non-empty team with no living pet fails with an empty random choice; otherwise the living pet picked by the roll gains +1/+1 |
| `BattleRules.GiveStatsTargetReachable` | SAP.py:160 | every living ally is the give-stats target for some roll |
| `BattleRules.GiveStatsAsWrittenAgrees` | SAP.py:159-160 | the code as written fails exactly when the team is non-empty and has no living pet, and otherwise agrees with the corrected rule |
| `BattleRules.LoneAntFaintFails` | SAP.py:159-160 | an Ant fainting with no ally left: the code as written fails, the corrected rule changes nothing |
| `BattleRules.SummonEffect` | SAP.py:164-175 | the team grows by exactly one pet at the end, earlier pets unchanged; the new pet is a 1/1 zombie with 1 extra attack per living friend-summoned buff-summoned pet |
| `BattleRules.HorseBuffsSummon` | SAP.py:170-174 | a Horse beside a fainted Cricket gives the summoned zombie attack 2 |
| `BattleRules.FaintEffect` | SAP.py:156-175 | defines the faint resolution: a faint-triggered give-stats pet buffs a living ally, a faint-triggered summon-friend pet summons the zombie, and any other pet leaves its team unchanged |
| `BattleRules.Round` | SAP.py:192-210 | defines one round: the front pets exchange blows, then team 1's front pet, if it fainted, resolves its faint ability, then team 2's |
| `BattleRules.FaintEffectGain` | SAP.py:156-175 | a faint ability adds at most one point of health to its team, and only if it has a faint effect; attacks stay positive |
| `BattleRules.SideDecreases` | SAP.py:199-210 | a front pet hit for at least 1, with its faint effect resolved, lowers its team's measure by at least 1 |
| `BattleRules.RoundDecreases` | SAP.py:189-212 | one round lowers both teams' measures and keeps every attack positive |
| `BattleRules.Play` | SAP.py:188-212 | the round loop ends with at most one team holding a living pet |
| `BattleRules.Classify` | SAP.py:218-223 | defines the verdict: team 1 wins when only it has a living pet, team 2 wins when only it does, and otherwise it is a draw |
| `BattleRules.PlayOutcome` | SAP.py:214-223 | after the loop, team 1 wins exactly when it has a living pet, team 2 likewise, and it is a draw exactly when both are wiped out |
| `BattleRules.SimultaneousWipeIsDraw` | SAP.py:199-223 | two lone pets that kill each other in the same exchange, neither summoning, end the battle in a draw |
| `BattleEngine.Battle.constructor` | SAP.py:143-145 | the battle holds its own copies of the two teams |
| `BattleEngine.Battle.ExecuteStartAbilities` | SAP.py:147-153 | the acting team is unchanged; the enemy team becomes `StartDamage` of it |
| `BattleEngine.Battle.ProcessFaint` | SAP.py:156-175 | the fainted pet's team becomes `FaintEffect` of it; the other team is unchanged |
| `BattleEngine.Battle.FightRound` | SAP.py:192-210 | the two teams become `Round` of their previous values |
| `BattleEngine.Battle.SimulateBattle` | SAP.py:177-223 | team 1's start abilities run, then team 2's, then the round loop. The final teams are `Play` of the post-start teams, and at most one team has a living pet. The outcome is team 1 wins / team 2 wins / draw, as in `PlayOutcome` |

## Left out

- `print` narration and `Battle.print_team` (SAP.py:42, 154, 163, 168, 175, 178-182, 190, 200, 206, 209, 225-229): presentation only.
- `Shop.generate_shop` and `SAPGame.get_random_team` (SAP.py:31-38, 133-139): random draws from the pool. `BuyPet` is specified for any slot contents.
- `Pet.reset_stats` and the `original_*` locals of `Pet.__init__` (SAP.py:11-12, 17-19): never called, and they could not work as written.
- The module-level script (SAP.py:232-236): it is the entry point and passes the empty result of `get_best_team` to `Battle`.
- `SAPGame.__init__`'s `shop_tier`, `gold` and `team` (SAP.py:54-56): never read by the modelled code.
- `TeamSearch.GetBestTeam`: takes the candidate pets and the budget as parameters. The original reads the shop's non-empty slots and a fixed budget of 10.
- `BattleRules.Play`: requires every pet of both teams to have attack at least 1, which is what makes the round loop end. This also excludes teams the original still finishes, such as a zero-attack pet behind a strong front pet. With a zero-attack front pet on both sides the original loops forever.
- `BattleEngine.Battle.SimulateBattle`: requires every pet of both teams to have attack at least 1, as `BattleRules.Play` does, and excludes the same teams.
- `BattleEngine.Battle.ProcessFaint`: the unused `enemy_team` parameter is dropped. The guard `if not pet1 or not pet2: break` (SAP.py:196-197) is omitted because the loop condition already rules it out.
- `copy.deepcopy`: pets are values, so copies are implicit.
- Python floats: the score is an exact `real`. With the pool's small integer stats every partial sum is a multiple of 0.5, which a float also represents exactly.
- The order in which randomness is drawn: the model gives each start-of-battle pet its own roll and indexes faint rolls by round, instead of one shared sequence of draws.

## Findings

| source | as written | input that shows it | evidently intended | confidence | as-written member | corrected member |
|---|---|---|---|---|---|---|
| SAP.py:86 | `sum` over the ability names of start-damage pets, which raises a type error | a team holding a Mosquito | 2 points per start-of-battle damage pet | high, not executed | `Utility.TeamUtilityAsWritten` (shown by `Utility.MosquitoTeamFails`) | `Utility.TeamUtility` (proved order-independent by `Utility.TeamUtilityPermutation`) |
| SAP.py:159-160 | tests that the team is non-empty, then chooses among its living pets, which fails when none is alive (the fainted pet itself is always in the team) | an Ant fainting with no living ally | no-op when no living ally exists | high, not executed | `BattleRules.GiveStatsAsWritten` (shown by `BattleRules.LoneAntFaintFails`) | `BattleRules.GiveStatsEffect` (exactly one living ally buffed, or unchanged) |
