/**
 * The rules of a battle as functions of the two teams: the start-of-battle
 * damage, the simultaneous exchange between the front pets, the faint
 * abilities, one round, the whole round loop and the final verdict. The
 * random target choices of the original are parameters here: a choice among
 * the candidates `c` with roll `r` picks `c[r % |c|]`, so every choice the
 * original could make is reachable.
 */
module BattleRules {
  import opened Wrappers
  import opened Pets

  datatype Outcome = Team1Wins | Team2Wins | Draw

  predicate AnyAlive(team: seq<Pet>) {
    exists i :: 0 <= i < |team| && IsAlive(team[i])
  }

  /** Sum of `f` over the pets of a team. */
  function SumOf(team: seq<Pet>, f: Pet -> int): int {
    if team == [] then 0 else SumOf(team[..|team| - 1], f) + f(team[|team| - 1])
  }

  lemma {:induction false} SumOfUpdate(team: seq<Pet>, f: Pet -> int, i: nat, x: Pet)
    requires i < |team|
    ensures SumOf(team[i := x], f) == SumOf(team, f) - f(team[i]) + f(x)
  {
    var n := |team|;
    assert team[i := x][..n - 1] == if i == n - 1 then team[..n - 1] else team[..n - 1][i := x];
    if i < n - 1 {
      SumOfUpdate(team[..n - 1], f, i, x);
    }
  }

  lemma SumOfAppend(team: seq<Pet>, f: Pet -> int, x: Pet)
    ensures SumOf(team + [x], f) == SumOf(team, f) + f(x)
  {
    assert (team + [x])[..|team|] == team;
  }

  function Health(p: Pet): int { p.health }

  /** The index of the front pet: the first living pet, if any. */
  function FrontIndex(team: seq<Pet>): (r: Option<nat>)
    ensures r.Some? <==> AnyAlive(team)
    ensures r.Some? ==> r.value < |team| && IsAlive(team[r.value]) &&
                        forall j :: 0 <= j < r.value ==> !IsAlive(team[j])
  {
    if team == [] then None
    else if IsAlive(team[0]) then Some(0)
    else match FrontIndex(team[1..])
      case None => None
      case Some(i) => Some(i + 1)
  }

  /** The indices of the living pets, in team order. */
  function LivingIndices(team: seq<Pet>): (r: seq<nat>)
    ensures forall k :: 0 <= k < |r| ==> r[k] < |team| && IsAlive(team[r[k]])
    ensures forall j :: 0 <= j < |team| && IsAlive(team[j]) ==> j in r
    ensures forall k, l :: 0 <= k < l < |r| ==> r[k] < r[l]
  {
    if team == [] then []
    else
      var n := |team|;
      LivingIndices(team[..n - 1]) + (if IsAlive(team[n - 1]) then [n - 1] else [])
  }

  // ---------------------------------------------------------------------------
  // Start of battle

  /** A pet that deals 1 damage to a random enemy when the battle starts. */
  predicate Fires(p: Pet) {
    p.trigger == StartOfBattle && p.ability == StartBattleDamage
  }

  /**
   * How many pets of `team` hit the enemy at index `j` among `m` enemies, the
   * pet at index `i` aiming at `rolls[i] % m`.
   */
  function Hits(team: seq<Pet>, rolls: seq<nat>, m: nat, j: nat): nat
    requires |team| <= |rolls| && m > 0
  {
    if team == [] then 0
    else
      var n := |team|;
      Hits(team[..n - 1], rolls, m, j) + (if Fires(team[n - 1]) && rolls[n - 1] % m == j then 1 else 0)
  }

  /** The enemy team once every firing pet of `team` has dealt its damage. */
  function StartDamage(team: seq<Pet>, enemy: seq<Pet>, rolls: seq<nat>): (r: seq<Pet>)
    requires |team| <= |rolls|
    ensures |r| == |enemy|
    ensures forall j :: 0 <= j < |r| ==>
              r[j] == enemy[j].(health := r[j].health) && r[j].health <= enemy[j].health
  {
    if enemy == [] then enemy
    else seq(|enemy|, j requires 0 <= j < |enemy| =>
                        enemy[j].(health := enemy[j].health - Hits(team, rolls, |enemy|, j)))
  }

  /**
   * One more pet acting: a firing pet lowers the health of exactly one enemy
   * pet, the one its roll picks, by exactly 1; any other pet changes nothing.
   */
  lemma StartDamageStep(team: seq<Pet>, enemy: seq<Pet>, rolls: seq<nat>, i: nat)
    requires i < |team| <= |rolls| && enemy != []
    ensures var before := StartDamage(team[..i], enemy, rolls);
            var t := rolls[i] % |enemy|;
            StartDamage(team[..i + 1], enemy, rolls) ==
              if Fires(team[i]) then before[t := before[t].(health := before[t].health - 1)] else before
  {
    assert team[..i + 1][..i] == team[..i];
  }

  /** The total health of a non-empty enemy team drops by exactly one per firing pet. */
  lemma {:induction false} StartDamageTotal(team: seq<Pet>, enemy: seq<Pet>, rolls: seq<nat>)
    requires |team| <= |rolls| && enemy != []
    ensures SumOf(StartDamage(team, enemy, rolls), Health) == SumOf(enemy, Health) - Count(team, Fires)
  {
    var n := |team|;
    if n == 0 {
      assert StartDamage(team, enemy, rolls) == enemy;
    } else {
      StartDamageTotal(team[..n - 1], enemy, rolls);
      StartDamageLast(team, enemy, rolls);
    }
  }

  /** The last pet of the team takes away 1 health from the enemy team exactly when it fires. */
  lemma StartDamageLast(team: seq<Pet>, enemy: seq<Pet>, rolls: seq<nat>)
    requires 0 < |team| <= |rolls| && enemy != []
    ensures SumOf(StartDamage(team, enemy, rolls), Health)
            == SumOf(StartDamage(team[..|team| - 1], enemy, rolls), Health) - (if Fires(team[|team| - 1]) then 1 else 0)
  {
    var n := |team|;
    var before := StartDamage(team[..n - 1], enemy, rolls);
    StartDamageStep(team, enemy, rolls, n - 1);
    assert team[..n] == team;
    if Fires(team[n - 1]) {
      var t := rolls[n - 1] % |enemy|;
      SumOfUpdate(before, Health, t, before[t].(health := before[t].health - 1));
    }
  }

  /** The damage of the first pets does not depend on the rolls of the pets after them. */
  lemma {:induction false} HitsPrefixRolls(team: seq<Pet>, rolls: seq<nat>, rolls': seq<nat>, m: nat, j: nat)
    requires |team| <= |rolls| && |team| <= |rolls'| && m > 0
    requires rolls[..|team|] == rolls'[..|team|]
    ensures Hits(team, rolls, m, j) == Hits(team, rolls', m, j)
  {
    if team != [] {
      var n := |team|;
      assert rolls[n - 1] == rolls[..n][n - 1] == rolls'[n - 1];
      assert rolls[..n - 1] == rolls[..n][..n - 1];
      assert rolls'[..n - 1] == rolls'[..n][..n - 1];
      HitsPrefixRolls(team[..n - 1], rolls, rolls', m, j);
    }
  }

  /** The enemy team after the first pets act depends only on those pets' rolls. */
  lemma StartDamagePrefixRolls(team: seq<Pet>, enemy: seq<Pet>, rolls: seq<nat>, rolls': seq<nat>)
    requires |team| <= |rolls| && |team| <= |rolls'| && rolls[..|team|] == rolls'[..|team|]
    ensures StartDamage(team, enemy, rolls) == StartDamage(team, enemy, rolls')
  {
    if enemy != [] {
      var r, r' := StartDamage(team, enemy, rolls), StartDamage(team, enemy, rolls');
      forall k | 0 <= k < |enemy| ensures r[k] == r'[k] {
        HitsPrefixRolls(team, rolls, rolls', |enemy|, k);
      }
    }
  }

  /**
   * Every enemy pet, living or fainted, is a possible target: whatever the
   * other rolls, the roll `j` makes a firing pet hit the enemy at `j`.
   */
  lemma StartDamageTargetReachable(team: seq<Pet>, enemy: seq<Pet>, rolls: seq<nat>, i: nat, j: nat)
    requires i < |team| <= |rolls| && j < |enemy| && Fires(team[i])
    ensures var before := StartDamage(team[..i], enemy, rolls);
            StartDamage(team[..i + 1], enemy, rolls[i := j]) ==
              before[j := before[j].(health := before[j].health - 1)]
  {
    var rolls' := rolls[i := j];
    assert rolls[..i] == rolls'[..i];
    StartDamagePrefixRolls(team[..i], enemy, rolls, rolls');
    StartDamageStep(team, enemy, rolls', i);
    assert j % |enemy| == j;
  }

  /** The enemy team is left as it was when no pet of `team` fires, or when it is empty. */
  lemma StartDamageNoop(team: seq<Pet>, enemy: seq<Pet>, rolls: seq<nat>)
    requires |team| <= |rolls|
    requires enemy == [] || Count(team, Fires) == 0
    ensures StartDamage(team, enemy, rolls) == enemy
  {
    if enemy != [] {
      StartDamageTotal(team, enemy, rolls);
      var r := StartDamage(team, enemy, rolls);
      forall j | 0 <= j < |r| ensures r[j] == enemy[j] {
        if r[j].health < enemy[j].health {
          SumOfStrictlyBelow(r, enemy, j);
          assert false;
        }
      }
    }
  }

  lemma {:induction false} SumOfStrictlyBelow(r: seq<Pet>, s: seq<Pet>, j: nat)
    requires |r| == |s| && j < |r| && r[j].health < s[j].health
    requires forall k :: 0 <= k < |r| ==> r[k].health <= s[k].health
    ensures SumOf(r, Health) < SumOf(s, Health)
  {
    var n := |r|;
    if j == n - 1 {
      SumOfBelow(r[..n - 1], s[..n - 1]);
    } else {
      SumOfStrictlyBelow(r[..n - 1], s[..n - 1], j);
    }
  }

  lemma {:induction false} SumOfBelow(r: seq<Pet>, s: seq<Pet>)
    requires |r| == |s|
    requires forall k :: 0 <= k < |r| ==> r[k].health <= s[k].health
    ensures SumOf(r, Health) <= SumOf(s, Health)
  {
    if r != [] {
      SumOfBelow(r[..|r| - 1], s[..|s| - 1]);
    }
  }

  /** Both teams after the start-of-battle abilities, team 1's pets acting first. */
  function StartPhase(t1: seq<Pet>, t2: seq<Pet>, rolls1: seq<nat>, rolls2: seq<nat>): (seq<Pet>, seq<Pet>)
    requires |rolls1| == |t1| && |rolls2| == |t2|
  {
    var t2After := StartDamage(t1, t2, rolls1);
    (StartDamage(t2After, t1, rolls2), t2After)
  }

  // ---------------------------------------------------------------------------
  // One round

  /** Team `t` with its pet at `i` hit for `damage`. */
  function Hit(t: seq<Pet>, i: nat, damage: int): seq<Pet>
    requires i < |t|
  {
    t[i := t[i].(health := t[i].health - damage)]
  }

  /**
   * The simultaneous exchange: each front pet loses as much health as the
   * other front pet's attack before the exchange; nothing else changes and no
   * pet moves.
   */
  function Exchange(t1: seq<Pet>, t2: seq<Pet>): (r: (seq<Pet>, seq<Pet>))
    requires AnyAlive(t1) && AnyAlive(t2)
    ensures var i1, i2 := FrontIndex(t1).value, FrontIndex(t2).value;
            |r.0| == |t1| && |r.1| == |t2| &&
            r.0[i1].health == t1[i1].health - t2[i2].attack &&
            r.1[i2].health == t2[i2].health - t1[i1].attack &&
            r.0[i1] == t1[i1].(health := r.0[i1].health) &&
            r.1[i2] == t2[i2].(health := r.1[i2].health) &&
            (forall k :: 0 <= k < |t1| && k != i1 ==> r.0[k] == t1[k]) &&
            (forall k :: 0 <= k < |t2| && k != i2 ==> r.1[k] == t2[k])
  {
    var i1, i2 := FrontIndex(t1).value, FrontIndex(t2).value;
    (Hit(t1, i1, t2[i2].attack), Hit(t2, i2, t1[i1].attack))
  }

  /** Give-stats on faint: +1/+1 to the living ally picked by `roll`; no-op without one. */
  function GiveStatsEffect(team: seq<Pet>, roll: nat): (r: seq<Pet>)
    ensures !AnyAlive(team) ==> r == team
    ensures AnyAlive(team) ==>
              exists j :: 0 <= j < |team| && IsAlive(team[j]) &&
                r == team[j := team[j].(attack := team[j].attack + 1, health := team[j].health + 1)]
  {
    var living := LivingIndices(team);
    if |living| == 0 then
      assert !AnyAlive(team);
      team
    else
      var j := living[roll % |living|];
      team[j := team[j].(attack := team[j].attack + 1, health := team[j].health + 1)]
  }

  /**
   * Give-stats on faint as the original runs it: its guard tests that the
   * team is non-empty instead of that a living ally exists, so the random
   * choice over the living pets fails when none is left.
   */
  function GiveStatsAsWritten(team: seq<Pet>, roll: nat): Result<seq<Pet>> {
    if team == [] then Ok(team)
    else
      var living := LivingIndices(team);
      if |living| == 0 then Err(EmptyChoice)
      else
        var j := living[roll % |living|];
        Ok(team[j := team[j].(attack := team[j].attack + 1, health := team[j].health + 1)])
  }

  /**
   * The original fails exactly when the fainted pet's team is non-empty but
   * has no living pet, and agrees with the corrected rule otherwise.
   */
  lemma GiveStatsAsWrittenAgrees(team: seq<Pet>, roll: nat)
    ensures GiveStatsAsWritten(team, roll).Err? <==> team != [] && !AnyAlive(team)
    ensures GiveStatsAsWritten(team, roll).Ok? ==> GiveStatsAsWritten(team, roll).value == GiveStatsEffect(team, roll)
  {
    if AnyAlive(team) {
      var j :| 0 <= j < |team| && IsAlive(team[j]);
      assert j in LivingIndices(team);
    }
  }

  /** An Ant fainting alone: the original fails, the corrected rule changes nothing. */
  lemma LoneAntFaintFails()
    ensures GiveStatsAsWritten([Ant().(health := 0)], 0) == Err(EmptyChoice)
    ensures GiveStatsEffect([Ant().(health := 0)], 0) == [Ant().(health := 0)]
  {
    assert !AnyAlive([Ant().(health := 0)]);
    GiveStatsAsWrittenAgrees([Ant().(health := 0)], 0);
  }

  /** Every living ally is a possible give-stats target: some roll picks it. */
  lemma GiveStatsTargetReachable(team: seq<Pet>, j: nat)
    requires j < |team| && IsAlive(team[j])
    ensures exists roll: nat :: GiveStatsEffect(team, roll) ==
              team[j := team[j].(attack := team[j].attack + 1, health := team[j].health + 1)]
  {
    var living := LivingIndices(team);
    assert j in living;
    var k :| 0 <= k < |living| && living[k] == j;
    assert k % |living| == k;
    assert GiveStatsEffect(team, k) ==
             team[j := team[j].(attack := team[j].attack + 1, health := team[j].health + 1)];
  }

  /** A living friend-summoned pet that buffs summoned pets. */
  predicate BuffsSummons(p: Pet) {
    p.trigger == FriendSummoned && IsAlive(p) && p.ability == BuffSummoned
  }

  /**
   * Summon on faint: the team grows by a zombie at the end, which starts as a
   * 1/1 and gains +1 attack for each living buffer already in the team.
   */
  function SummonEffect(team: seq<Pet>): (r: seq<Pet>)
    ensures |r| == |team| + 1 && r[..|team|] == team
    ensures r[|team|] == Zombie().(attack := 1 + Count(team, BuffsSummons))
  {
    team + [Zombie().(attack := 1 + Count(team, BuffsSummons))]
  }

  /** A Horse in front of a fainting Cricket: the summoned zombie has attack 2. */
  lemma HorseBuffsSummon()
    ensures SummonEffect([Horse(), Cricket().(health := 0)])[2].attack == 2
  {
    var team := [Horse(), Cricket().(health := 0)];
    assert team[..1] == [Horse()] && [Horse()][..0] == [];
    assert Count(team, BuffsSummons) == Count([Horse()], BuffsSummons) + 0;
    assert Count([Horse()], BuffsSummons) == 1;
  }

  /** What the fainting pet `p` does to its own team `team`. */
  function FaintEffect(p: Pet, team: seq<Pet>, roll: nat): seq<Pet> {
    if p.trigger == Faint then
      if p.ability == GiveStats then GiveStatsEffect(team, roll)
      else if p.ability == SummonFriend then SummonEffect(team)
      else team
    else team
  }

  /**
   * One round: the front pets exchange blows, then team 1's front pet, if it
   * fainted, resolves its ability, then team 2's.
   */
  function Round(t1: seq<Pet>, t2: seq<Pet>, roll1: nat, roll2: nat): (seq<Pet>, seq<Pet>)
    requires AnyAlive(t1) && AnyAlive(t2)
  {
    var i1, i2 := FrontIndex(t1).value, FrontIndex(t2).value;
    var (a, b) := Exchange(t1, t2);
    (if IsAlive(a[i1]) then a else FaintEffect(a[i1], a, roll1),
     if IsAlive(b[i2]) then b else FaintEffect(b[i2], b, roll2))
  }

  // ---------------------------------------------------------------------------
  // Termination and outcome

  predicate AttacksPositive(team: seq<Pet>) {
    forall i :: 0 <= i < |team| ==> team[i].attack >= 1
  }

  /** A living pet whose fainting adds one point of health to its team. */
  predicate HasFaintEffect(p: Pet) {
    p.trigger == Faint && (p.ability == GiveStats || p.ability == SummonFriend)
  }

  /** What a pet still contributes to the length of a battle. */
  function Pot(p: Pet): int {
    if IsAlive(p) then p.health + (if HasFaintEffect(p) then 1 else 0) else 0
  }

  function Potential(team: seq<Pet>): int {
    SumOf(team, Pot)
  }

  lemma {:induction false} PotentialNonNegative(team: seq<Pet>)
    ensures Potential(team) >= 0
  {
    if team != [] {
      PotentialNonNegative(team[..|team| - 1]);
    }
  }

  /**
   * The fighters' side of a round: hit for at least 1, the front pet loses at
   * least 1 from its team's potential, even counting what its faint ability
   * gives back, and all attacks stay positive.
   */
  lemma SideDecreases(t: seq<Pet>, i: nat, damage: int, roll: nat)
    requires i < |t| && IsAlive(t[i]) && damage >= 1 && AttacksPositive(t)
    ensures var a := Hit(t, i, damage);
            var r := if IsAlive(a[i]) then a else FaintEffect(a[i], a, roll);
            Potential(r) < Potential(t) && AttacksPositive(r)
  {
    var a := Hit(t, i, damage);
    SumOfUpdate(t, Pot, i, a[i]);
    assert Potential(a) == Potential(t) - Pot(t[i]) + Pot(a[i]);
    if !IsAlive(a[i]) {
      FaintEffectGain(a[i], a, roll);
    }
  }

  /** What a faint ability gives back is at most the fainted pet's own extra point. */
  lemma FaintEffectGain(p: Pet, a: seq<Pet>, roll: nat)
    requires AttacksPositive(a)
    ensures var r := FaintEffect(p, a, roll);
            Potential(r) <= Potential(a) + (if HasFaintEffect(p) then 1 else 0) && AttacksPositive(r)
  {
    if p.trigger == Faint && p.ability == GiveStats && AnyAlive(a) {
      var g := GiveStatsEffect(a, roll);
      var j :| 0 <= j < |a| && IsAlive(a[j]) &&
               g == a[j := a[j].(attack := a[j].attack + 1, health := a[j].health + 1)];
      SumOfUpdate(a, Pot, j, g[j]);
    } else if p.trigger == Faint && p.ability == SummonFriend {
      var z := SummonEffect(a)[|a|];
      assert SummonEffect(a) == a + [z];
      SumOfAppend(a, Pot, z);
    }
  }

  /** A round lowers both teams' potentials and keeps every attack positive. */
  lemma RoundDecreases(t1: seq<Pet>, t2: seq<Pet>, roll1: nat, roll2: nat)
    requires AnyAlive(t1) && AnyAlive(t2) && AttacksPositive(t1) && AttacksPositive(t2)
    ensures var r := Round(t1, t2, roll1, roll2);
            Potential(r.0) < Potential(t1) && Potential(r.1) < Potential(t2) &&
            AttacksPositive(r.0) && AttacksPositive(r.1)
  {
    var i1, i2 := FrontIndex(t1).value, FrontIndex(t2).value;
    SideDecreases(t1, i1, t2[i2].attack, roll1);
    SideDecreases(t2, i2, t1[i1].attack, roll2);
  }

  /**
   * The round loop from round `round` on: rounds are played while both teams
   * have a living pet; the faint rolls of round `n` are `rng(2 * n)` for
   * team 1 and `rng(2 * n + 1)` for team 2.
   */
  function Play(t1: seq<Pet>, t2: seq<Pet>, rng: nat -> nat, round: nat): (r: (seq<Pet>, seq<Pet>))
    requires AttacksPositive(t1) && AttacksPositive(t2)
    ensures !(AnyAlive(r.0) && AnyAlive(r.1))
    decreases Potential(t1) + Potential(t2)
  {
    if AnyAlive(t1) && AnyAlive(t2) then
      RoundDecreases(t1, t2, rng(2 * round), rng(2 * round + 1));
      PotentialNonNegative(t1);
      PotentialNonNegative(t2);
      var next := Round(t1, t2, rng(2 * round), rng(2 * round + 1));
      Play(next.0, next.1, rng, round + 1)
    else (t1, t2)
  }

  /** The verdict on two teams whose battle is over. */
  function Classify(t1: seq<Pet>, t2: seq<Pet>): Outcome {
    if AnyAlive(t1) && !AnyAlive(t2) then Team1Wins
    else if AnyAlive(t2) && !AnyAlive(t1) then Team2Wins
    else Draw
  }

  /**
   * At the end of the round loop, team 1 wins exactly when it has a living
   * pet, team 2 likewise, and the battle is a draw exactly when both teams
   * are wiped out.
   */
  lemma PlayOutcome(t1: seq<Pet>, t2: seq<Pet>, rng: nat -> nat, round: nat)
    requires AttacksPositive(t1) && AttacksPositive(t2)
    ensures var r := Play(t1, t2, rng, round);
            (Classify(r.0, r.1) == Team1Wins <==> AnyAlive(r.0)) &&
            (Classify(r.0, r.1) == Team2Wins <==> AnyAlive(r.1)) &&
            (Classify(r.0, r.1) == Draw <==> !AnyAlive(r.0) && !AnyAlive(r.1))
  {
  }

  /**
   * Two lone pets that kill each other in the same exchange, neither of which
   * summons a replacement, end the battle in a draw after one round.
   */
  lemma SimultaneousWipeIsDraw(p: Pet, q: Pet, rng: nat -> nat, round: nat)
    requires IsAlive(p) && IsAlive(q) && p.attack >= q.health && q.attack >= p.health
    requires AttacksPositive([p]) && AttacksPositive([q])
    requires !(p.trigger == Faint && p.ability == SummonFriend)
    requires !(q.trigger == Faint && q.ability == SummonFriend)
    ensures var r := Play([p], [q], rng, round);
            Classify(r.0, r.1) == Draw
  {
    assert FrontIndex([p]) == Some(0) && FrontIndex([q]) == Some(0);
    var next := Round([p], [q], rng(2 * round), rng(2 * round + 1));
    assert !AnyAlive(next.0) && !AnyAlive(next.1);
    RoundDecreases([p], [q], rng(2 * round), rng(2 * round + 1));
  }
}
