/**
 * The battle engine: a battle owns two teams and updates them in place,
 * first with the start-of-battle abilities, then round by round until one
 * side (or both) has no living pet left.
 */
module BattleEngine {
  import opened Pets
  import opened BattleRules

  datatype Side = One | Two {
    function Other(): Side {
      if this == One then Two else One
    }
  }

  class Battle {
    var team1: seq<Pet>
    var team2: seq<Pet>

    /** Each team is the battle's own copy of the pets it was given. */
    constructor (t1: seq<Pet>, t2: seq<Pet>)
      ensures team1 == t1 && team2 == t2
    {
      team1 := t1;
      team2 := t2;
    }

    function Team(side: Side): seq<Pet>
      reads this
    {
      if side == One then team1 else team2
    }

    method SetTeam(side: Side, team: seq<Pet>)
      modifies this
      ensures Team(side) == team && Team(side.Other()) == old(Team(side.Other()))
    {
      if side == One { team1 := team; } else { team2 := team; }
    }

    /**
     * The start-of-battle abilities of the team on `side`: each of its pets
     * that fires hits the enemy pet its roll picks (living or not) for 1, in
     * team order. The acting team is unchanged.
     */
    method ExecuteStartAbilities(side: Side, rolls: seq<nat>)
      requires |rolls| == |Team(side)|
      modifies this
      ensures Team(side) == old(Team(side))
      ensures Team(side.Other()) == StartDamage(old(Team(side)), old(Team(side.Other())), rolls)
    {
      var team := Team(side);
      var enemy := Team(side.Other());
      ghost var enemy0 := enemy;
      assert team[..0] == [];
      StartDamageNoop(team[..0], enemy0, rolls);
      for i := 0 to |team|
        invariant enemy == StartDamage(team[..i], enemy0, rolls)
        invariant unchanged(this)
      {
        if enemy0 == [] {
          assert StartDamage(team[..i + 1], enemy0, rolls) == [];
        } else {
          StartDamageStep(team, enemy0, rolls, i);
        }
        if team[i].trigger == StartOfBattle {
          if team[i].ability == StartBattleDamage {
            if enemy != [] {
              var target := rolls[i] % |enemy|;
              enemy := enemy[target := enemy[target].(health := enemy[target].health - 1)];
            }
          }
        }
      }
      assert team[..|team|] == team;
      assert side.Other().Other() == side;
      SetTeam(side.Other(), enemy);
    }

    /**
     * The faint ability of `pet`, which has just fainted in the team on
     * `side`: give-stats buffs the living ally picked by `roll` (nothing when
     * none is left); summon appends a zombie, then every living friend-summoned
     * buffer of the team, the zombie included, gives it +1 attack.
     */
    method ProcessFaint(side: Side, pet: Pet, roll: nat)
      modifies this
      ensures Team(side) == FaintEffect(pet, old(Team(side)), roll)
      ensures Team(side.Other()) == old(Team(side.Other()))
    {
      if pet.trigger == Faint {
        if pet.ability == GiveStats {
          var friendly := Team(side);
          if friendly != [] {
            var living := LivingIndices(friendly);
            if |living| > 0 {
              var target := living[roll % |living|];
              SetTeam(side, friendly[target := friendly[target].(attack := friendly[target].attack + 1,
                                                                 health := friendly[target].health + 1)]);
            }
          }
        } else if pet.ability == SummonFriend {
          var before := Team(side);
          var n := |before|;
          var friendly := before + [Zombie()];
          assert friendly[..n] == before;
          for i := 0 to |friendly|
            invariant unchanged(this)
            invariant |friendly| == n + 1 && friendly[..n] == before
            invariant friendly[n] == Zombie().(attack := 1 + Count(before[..if i <= n then i else n], BuffsSummons))
          {
            if friendly[i].trigger == FriendSummoned && IsAlive(friendly[i]) {
              if friendly[i].ability == BuffSummoned {
                friendly := friendly[n := friendly[n].(attack := friendly[n].attack + 1)];
              }
            }
            if i < n {
              CountPrefixStep(before, BuffsSummons, i);
            }
          }
          assert before[..n] == before;
          SetTeam(side, friendly);
        }
      }
    }

    /**
     * The body of one round: the first living pet of each team attack each
     * other simultaneously, then team 1's fighter, if it fainted, resolves its
     * faint ability with `roll1`, then team 2's with `roll2`.
     */
    method FightRound(roll1: nat, roll2: nat)
      requires AnyAlive(team1) && AnyAlive(team2)
      modifies this
      ensures (team1, team2) == Round(old(team1), old(team2), roll1, roll2)
    {
      var i1 := FrontIndex(team1).value;
      var i2 := FrontIndex(team2).value;
      var pet1, pet2 := team1[i1], team2[i2];
      team1 := team1[i1 := pet1.(health := pet1.health - pet2.attack)];
      team2 := team2[i2 := pet2.(health := pet2.health - pet1.attack)];
      assert (team1, team2) == Exchange(old(team1), old(team2));
      if !IsAlive(team1[i1]) {
        ProcessFaint(One, team1[i1], roll1);
      }
      if !IsAlive(team2[i2]) {
        ProcessFaint(Two, team2[i2], roll2);
      }
    }

    /**
     * The whole battle: team 1's start-of-battle abilities, then team 2's,
     * then rounds while both teams have a living pet; the verdict is read off
     * the final teams.
     */
    method SimulateBattle(startRolls1: seq<nat>, startRolls2: seq<nat>, rng: nat -> nat)
      returns (outcome: Outcome)
      requires |startRolls1| == |team1| && |startRolls2| == |team2|
      requires AttacksPositive(team1) && AttacksPositive(team2)
      modifies this
      ensures var start := StartPhase(old(team1), old(team2), startRolls1, startRolls2);
              (team1, team2) == Play(start.0, start.1, rng, 1)
      ensures !(AnyAlive(team1) && AnyAlive(team2))
      ensures outcome == Classify(team1, team2)
    {
      ExecuteStartAbilities(One, startRolls1);
      ExecuteStartAbilities(Two, startRolls2);
      ghost var start := (team1, team2);
      var roundNumber: nat := 1;
      while AnyAlive(team1) && AnyAlive(team2)
        invariant AttacksPositive(team1) && AttacksPositive(team2)
        invariant Play(team1, team2, rng, roundNumber) == Play(start.0, start.1, rng, 1)
        decreases Potential(team1) + Potential(team2)
      {
        ghost var before := (team1, team2);
        RoundDecreases(team1, team2, rng(2 * roundNumber), rng(2 * roundNumber + 1));
        PotentialNonNegative(team1);
        PotentialNonNegative(team2);
        FightRound(rng(2 * roundNumber), rng(2 * roundNumber + 1));
        assert Play(before.0, before.1, rng, roundNumber) == Play(team1, team2, rng, roundNumber + 1);
        roundNumber := roundNumber + 1;
      }
      assert Play(team1, team2, rng, roundNumber) == (team1, team2);
      if AnyAlive(team1) && !AnyAlive(team2) {
        outcome := Team1Wins;
      } else if AnyAlive(team2) && !AnyAlive(team1) {
        outcome := Team2Wins;
      } else {
        outcome := Draw;
      }
    }
  }
}
