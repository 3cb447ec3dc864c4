/** The pet value and the fixed vocabulary of abilities and triggers. */
module Pets {
  /** Ability kinds; `NoAbility` is the summoned zombie's, which has none. */
  datatype Ability =
    | GiveStats
    | SummonFriend
    | BuffSummoned
    | BuffFriend
    | StartBattleDamage
    | NoAbility

  /** Trigger kinds; `NoTrigger` belongs to the summoned zombie. */
  datatype Trigger =
    | Faint
    | FriendSummoned
    | OnBuy
    | OnSell
    | StartOfBattle
    | NoTrigger

  /**
   * A pet. Every hand-off in the original deep-copies its pets, so a pet is
   * a value here: changing one pet of a team never changes a pet elsewhere.
   */
  datatype Pet = Pet(name: string, attack: int, health: int, ability: Ability, trigger: Trigger)

  /** A pet takes part in combat while its health is positive. */
  predicate IsAlive(p: Pet) {
    p.health > 0
  }

  /** The pet summoned when a summon-on-faint pet faints: a 1/1 with no ability. */
  function Zombie(): Pet {
    Pet("Cricket Zombie", 1, 1, NoAbility, NoTrigger)
  }

  /** The six pets of the game's pool. */
  function Ant(): Pet { Pet("Ant", 2, 1, GiveStats, Faint) }
  function Cricket(): Pet { Pet("Cricket", 1, 2, SummonFriend, Faint) }
  function Horse(): Pet { Pet("Horse", 2, 1, BuffSummoned, FriendSummoned) }
  function Otter(): Pet { Pet("Otter", 1, 2, BuffFriend, OnBuy) }
  function Mosquito(): Pet { Pet("Mosquito", 1, 2, StartBattleDamage, StartOfBattle) }
  function Beaver(): Pet { Pet("Beaver", 2, 2, GiveStats, OnSell) }

  function Pool(): (pool: seq<Pet>)
    ensures |pool| == 6
    ensures forall i :: 0 <= i < |pool| ==> pool[i].attack >= 1 && IsAlive(pool[i])
  {
    [Ant(), Cricket(), Horse(), Otter(), Mosquito(), Beaver()]
  }

  /** Number of pets of `team` that satisfy `P`. */
  function Count(team: seq<Pet>, P: Pet -> bool): (n: nat)
    ensures n <= |team|
  {
    if team == [] then 0 else Count(team[..|team| - 1], P) + (if P(team[|team| - 1]) then 1 else 0)
  }

  /** Counting over one more pet of a prefix. */
  lemma CountPrefixStep(team: seq<Pet>, P: Pet -> bool, i: nat)
    requires i < |team|
    ensures Count(team[..i + 1], P) == Count(team[..i], P) + (if P(team[i]) then 1 else 0)
  {
    assert team[..i + 1][..i] == team[..i];
  }

  /** Removing the pet at `i` lowers the count by exactly that pet's share. */
  lemma {:induction false} CountRemove(team: seq<Pet>, P: Pet -> bool, i: nat)
    requires i < |team|
    ensures Count(team, P) == Count(team[..i] + team[i + 1..], P) + (if P(team[i]) then 1 else 0)
  {
    var n := |team|;
    if i == n - 1 {
      assert team[..i] + team[i + 1..] == team[..n - 1];
    } else {
      var front := team[..n - 1];
      CountRemove(front, P, i);
      var rest := team[..i] + team[i + 1..];
      assert rest[..|rest| - 1] == front[..i] + front[i + 1..];
      assert rest[|rest| - 1] == team[n - 1];
    }
  }

  /** A count does not depend on the order of the team. */
  lemma {:induction false} CountPermutation(t1: seq<Pet>, t2: seq<Pet>, P: Pet -> bool)
    requires multiset(t1) == multiset(t2)
    ensures Count(t1, P) == Count(t2, P)
  {
    if t1 != [] {
      var n := |t1|;
      var x := t1[n - 1];
      assert x in multiset(t2);
      var i :| 0 <= i < |t2| && t2[i] == x;
      var rest := t2[..i] + t2[i + 1..];
      assert t2 == t2[..i] + [x] + t2[i + 1..];
      assert t1 == t1[..n - 1] + [x];
      assert multiset(t2) == multiset(rest) + multiset{x};
      assert multiset(t1) == multiset(t1[..n - 1]) + multiset{x};
      assert multiset(t1[..n - 1]) == multiset(t1) - multiset{x};
      assert multiset(rest) == multiset(t2) - multiset{x};
      CountPermutation(t1[..n - 1], rest, P);
      CountRemove(t2, P, i);
    }
  }

  /** No pet satisfies `P` exactly when the count is zero. */
  lemma {:induction false} CountZero(team: seq<Pet>, P: Pet -> bool)
    ensures Count(team, P) == 0 <==> forall i :: 0 <= i < |team| ==> !P(team[i])
  {
    if team != [] {
      var n := |team|;
      CountZero(team[..n - 1], P);
      assert forall i :: 0 <= i < n - 1 ==> team[..n - 1][i] == team[i];
    }
  }
}
