/**
 * The heuristic team score used to rank candidate teams: a linear term in
 * attack and health, a bonus for the summon combo and bonuses counted per
 * ability or trigger. The weight 1.5 makes the score a `real`.
 */
module Utility {
  import opened Wrappers
  import opened Pets

  /** The stat contribution of one pet. */
  function StatScore(p: Pet): real {
    p.attack as real * 1.5 + p.health as real * 2.0
  }

  /** Sum of the stat contributions over a team. */
  function SumStats(team: seq<Pet>): real {
    if team == [] then 0.0 else SumStats(team[..|team| - 1]) + StatScore(team[|team| - 1])
  }

  predicate HasAbility(team: seq<Pet>, a: Ability) {
    exists i :: 0 <= i < |team| && team[i].ability == a
  }

  predicate DealsStartDamage(p: Pet) { p.ability == StartBattleDamage }
  predicate BuysFor(p: Pet) { p.trigger == OnBuy }
  predicate SellsFor(p: Pet) { p.trigger == OnSell }

  /** +5 when the team holds both halves of the summon combo. */
  function ComboBonus(team: seq<Pet>): real {
    if HasAbility(team, SummonFriend) && HasAbility(team, BuffSummoned) then 5.0 else 0.0
  }

  /**
   * The score of a team: zero for the empty team, otherwise the stat sum, the
   * combo bonus, 2 per start-of-battle damage pet, 2 per on-buy trigger and 1
   * per on-sell trigger.
   */
  function TeamUtility(team: seq<Pet>): real {
    if team == [] then 0.0
    else
      SumStats(team) + ComboBonus(team)
      + 2.0 * Count(team, DealsStartDamage) as real
      + 2.0 * Count(team, BuysFor) as real + Count(team, SellsFor) as real
  }

  /**
   * The score as the original computes it: the start-of-battle term sums the
   * ability names themselves, which fails with a type error as soon as one
   * such pet is in a non-empty team, and contributes 0 otherwise.
   */
  function TeamUtilityAsWritten(team: seq<Pet>): Result<real> {
    if team == [] then Ok(0.0)
    else if HasAbility(team, StartBattleDamage) then Err(TypeError)
    else
      Ok(SumStats(team) + ComboBonus(team)
         + 2.0 * Count(team, BuysFor) as real + Count(team, SellsFor) as real)
  }

  lemma {:induction false} SumStatsRemove(team: seq<Pet>, i: nat)
    requires i < |team|
    ensures SumStats(team) == SumStats(team[..i] + team[i + 1..]) + StatScore(team[i])
  {
    var n := |team|;
    if i == n - 1 {
      assert team[..i] + team[i + 1..] == team[..n - 1];
    } else {
      var front := team[..n - 1];
      SumStatsRemove(front, i);
      var rest := team[..i] + team[i + 1..];
      assert rest[..|rest| - 1] == front[..i] + front[i + 1..];
      assert rest[|rest| - 1] == team[n - 1];
    }
  }

  lemma {:induction false} SumStatsPermutation(t1: seq<Pet>, t2: seq<Pet>)
    requires multiset(t1) == multiset(t2)
    ensures SumStats(t1) == SumStats(t2)
  {
    if t1 != [] {
      var n := |t1|;
      var x := t1[n - 1];
      assert x in multiset(t2);
      var i :| 0 <= i < |t2| && t2[i] == x;
      var rest := t2[..i] + t2[i + 1..];
      assert t2 == t2[..i] + [x] + t2[i + 1..];
      assert t1 == t1[..n - 1] + [x];
      assert multiset(t1[..n - 1]) == multiset(t1) - multiset{x};
      assert multiset(rest) == multiset(t2) - multiset{x};
      SumStatsPermutation(t1[..n - 1], rest);
      SumStatsRemove(t2, i);
      assert SumStats(t1) == SumStats(t1[..n - 1]) + StatScore(x);
    }
  }

  /** The score is the same for every ordering of the same pets. */
  lemma TeamUtilityPermutation(t1: seq<Pet>, t2: seq<Pet>)
    requires multiset(t1) == multiset(t2)
    ensures TeamUtility(t1) == TeamUtility(t2)
  {
    assert |t1| == |multiset(t1)| == |multiset(t2)| == |t2|;
    SumStatsPermutation(t1, t2);
    CountPermutation(t1, t2, DealsStartDamage);
    CountPermutation(t1, t2, BuysFor);
    CountPermutation(t1, t2, SellsFor);
    forall a: Ability
      ensures HasAbility(t1, a) <==> HasAbility(t2, a)
    {
      if HasAbility(t1, a) {
        var i :| 0 <= i < |t1| && t1[i].ability == a;
        assert t1[i] in multiset(t2);
      }
      if HasAbility(t2, a) {
        var i :| 0 <= i < |t2| && t2[i].ability == a;
        assert t2[i] in multiset(t1);
      }
    }
  }

  /** With non-negative stats on every pet, the score is never negative. */
  lemma {:induction false} TeamUtilityNonNegative(team: seq<Pet>)
    requires forall i :: 0 <= i < |team| ==> team[i].attack >= 0 && team[i].health >= 0
    ensures TeamUtility(team) >= 0.0
  {
    SumStatsNonNegative(team);
  }

  lemma {:induction false} SumStatsNonNegative(team: seq<Pet>)
    requires forall i :: 0 <= i < |team| ==> team[i].attack >= 0 && team[i].health >= 0
    ensures SumStats(team) >= 0.0
  {
    if team != [] {
      SumStatsNonNegative(team[..|team| - 1]);
    }
  }

  /**
   * The original's score agrees with the intended one exactly when it does not
   * fail, and it fails exactly on non-empty teams holding a start-of-battle
   * damage pet.
   */
  lemma TeamUtilityAsWrittenAgrees(team: seq<Pet>)
    ensures TeamUtilityAsWritten(team).Err? <==> team != [] && HasAbility(team, StartBattleDamage)
    ensures TeamUtilityAsWritten(team).Ok? ==> TeamUtilityAsWritten(team).value == TeamUtility(team)
  {
    if team != [] && !HasAbility(team, StartBattleDamage) {
      CountZero(team, DealsStartDamage);
    }
  }

  /** A one-pet team of a Mosquito: the intended score is 7.5, the original fails. */
  lemma MosquitoTeamFails()
    ensures TeamUtilityAsWritten([Mosquito()]) == Err(TypeError)
    ensures TeamUtility([Mosquito()]) == 7.5
  {
    assert [Mosquito()][0].ability == StartBattleDamage;
    assert [Mosquito()][..0] == [];
  }
}
