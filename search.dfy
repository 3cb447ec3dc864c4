/**
 * The team composer: a depth-first backtracking search over teams built from
 * the available pets (with repetition), bounded by the maximum team size and
 * by the gold budget, that keeps the first team of highest score.
 */
module TeamSearch {
  import opened Pets
  import opened Utility
  import Shop

  const MaxTeamSize: nat := 5

  /** Recursion levels left before the depth bound. */
  function Budget(depth: int): nat {
    if depth < MaxTeamSize then MaxTeamSize - depth else 0
  }

  /** Every pet of `team` is one of the available pets. */
  predicate AllFrom(team: seq<Pet>, available: seq<Pet>) {
    forall j :: 0 <= j < |team| ==> team[j] in available
  }

  /** `t` is `cur` followed by at most `k` available pets. */
  predicate Extends(t: seq<Pet>, cur: seq<Pet>, available: seq<Pet>, k: nat) {
    |cur| <= |t| <= |cur| + k && t[..|cur|] == cur && AllFrom(t[|cur|..], available)
  }

  /**
   * How many more pets the search may append from a node with `gold` left at
   * `depth`: it stops at the depth bound or when one more pet is unaffordable.
   */
  function Steps(gold: int, depth: int): (s: nat)
    ensures s == 0 || (s * Shop.PetCost <= gold && depth + s <= MaxTeamSize)
    decreases Budget(depth)
  {
    if depth >= MaxTeamSize || gold < Shop.PetCost then 0 else 1 + Steps(gold - Shop.PetCost, depth + 1)
  }

  /**
   * The result (best team, best score) of the search from the node `cur` with
   * `gold` left at `depth`, given the best found before it.
   */
  function Explore(available: seq<Pet>, cur: seq<Pet>, gold: int, depth: int,
                   best: seq<Pet>, bestUtility: real): (seq<Pet>, real)
    decreases Budget(depth), 1, 0
  {
    var u := TeamUtility(cur);
    var here := if u > bestUtility && |cur| <= MaxTeamSize then (cur, u) else (best, bestUtility);
    if depth >= MaxTeamSize || gold < Shop.PetCost then here
    else ExploreEach(available, 0, cur, gold, depth, here.0, here.1)
  }

  /** The search over the children `cur + [available[k]]` for `k >= i`, in order. */
  function ExploreEach(available: seq<Pet>, i: nat, cur: seq<Pet>, gold: int, depth: int,
                       best: seq<Pet>, bestUtility: real): (seq<Pet>, real)
    requires i <= |available| && depth < MaxTeamSize
    decreases Budget(depth), 0, |available| - i
  {
    if i == |available| then (best, bestUtility)
    else
      var next :=
        if gold >= Shop.PetCost
        then Explore(available, cur + [available[i]], gold - Shop.PetCost, depth + 1, best, bestUtility)
        else (best, bestUtility);
      ExploreEach(available, i + 1, cur, gold, depth, next.0, next.1)
  }

  /** The search's outcome is either what it was given or a better team it built. */
  predicate Found(r: (seq<Pet>, real), available: seq<Pet>, cur: seq<Pet>, k: nat,
                  best: seq<Pet>, bestUtility: real)
  {
    r == (best, bestUtility) ||
    (r.1 > bestUtility && r.1 == TeamUtility(r.0) && |r.0| <= MaxTeamSize && Extends(r.0, cur, available, k))
  }

  lemma ExtendsChild(t: seq<Pet>, cur: seq<Pet>, p: Pet, available: seq<Pet>, k: nat)
    requires p in available && Extends(t, cur + [p], available, k)
    ensures Extends(t, cur, available, k + 1)
  {
    assert t[..|cur|] == (cur + [p])[..|cur|] == cur;
    assert t[|cur|..] == [p] + t[|cur| + 1..];
  }

  lemma {:induction false} ExploreSound(available: seq<Pet>, cur: seq<Pet>, gold: int, depth: int,
                                        best: seq<Pet>, bestUtility: real)
    ensures Found(Explore(available, cur, gold, depth, best, bestUtility),
                  available, cur, Steps(gold, depth), best, bestUtility)
    decreases Budget(depth), 1, 0
  {
    var u := TeamUtility(cur);
    var here := if u > bestUtility && |cur| <= MaxTeamSize then (cur, u) else (best, bestUtility);
    assert cur[|cur|..] == [];
    if !(depth >= MaxTeamSize || gold < Shop.PetCost) {
      ExploreEachSound(available, 0, cur, gold, depth, here.0, here.1);
    }
  }

  lemma {:induction false} ExploreEachSound(available: seq<Pet>, i: nat, cur: seq<Pet>, gold: int, depth: int,
                                            best: seq<Pet>, bestUtility: real)
    requires i <= |available| && depth < MaxTeamSize && gold >= Shop.PetCost
    ensures Found(ExploreEach(available, i, cur, gold, depth, best, bestUtility),
                  available, cur, Steps(gold, depth), best, bestUtility)
    decreases Budget(depth), 0, |available| - i
  {
    if i < |available| {
      var p := available[i];
      var next := Explore(available, cur + [p], gold - Shop.PetCost, depth + 1, best, bestUtility);
      ExploreSound(available, cur + [p], gold - Shop.PetCost, depth + 1, best, bestUtility);
      if next != (best, bestUtility) {
        ExtendsChild(next.0, cur, p, available, Steps(gold - Shop.PetCost, depth + 1));
      }
      ExploreEachSound(available, i + 1, cur, gold, depth, next.0, next.1);
    }
  }

  /**
   * Optimality: no team made of `cur` followed by available pets that the
   * search may still reach scores above the search's result.
   */
  lemma {:induction false} ExploreOptimal(available: seq<Pet>, cur: seq<Pet>, gold: int, depth: int,
                                          best: seq<Pet>, bestUtility: real, ext: seq<Pet>)
    requires AllFrom(ext, available)
    requires |ext| <= Steps(gold, depth) && |cur| + |ext| <= MaxTeamSize
    ensures TeamUtility(cur + ext) <= Explore(available, cur, gold, depth, best, bestUtility).1
    decreases Budget(depth), 1, 0
  {
    var u := TeamUtility(cur);
    var here := if u > bestUtility && |cur| <= MaxTeamSize then (cur, u) else (best, bestUtility);
    if depth >= MaxTeamSize || gold < Shop.PetCost {
      assert ext == [] && cur + ext == cur;
    } else {
      ExploreEachSound(available, 0, cur, gold, depth, here.0, here.1);
      if ext == [] {
        assert cur + ext == cur;
      } else {
        assert ext[0] in available;
        var k :| 0 <= k < |available| && available[k] == ext[0];
        ExploreEachOptimal(available, 0, cur, gold, depth, here.0, here.1, ext, k);
      }
    }
  }

  lemma {:induction false} ExploreEachOptimal(available: seq<Pet>, i: nat, cur: seq<Pet>, gold: int, depth: int,
                                              best: seq<Pet>, bestUtility: real, ext: seq<Pet>, k: nat)
    requires i <= k < |available| && depth < MaxTeamSize && gold >= Shop.PetCost
    requires ext != [] && ext[0] == available[k] && AllFrom(ext, available)
    requires |ext| <= Steps(gold, depth) && |cur| + |ext| <= MaxTeamSize
    ensures TeamUtility(cur + ext) <= ExploreEach(available, i, cur, gold, depth, best, bestUtility).1
    decreases Budget(depth), 0, |available| - i
  {
    var p := available[i];
    var next := Explore(available, cur + [p], gold - Shop.PetCost, depth + 1, best, bestUtility);
    ExploreEachSound(available, i + 1, cur, gold, depth, next.0, next.1);
    if i == k {
      assert cur + ext == (cur + [p]) + ext[1..];
      ExploreOptimal(available, cur + [p], gold - Shop.PetCost, depth + 1, best, bestUtility, ext[1..]);
    } else {
      ExploreEachOptimal(available, i + 1, cur, gold, depth, next.0, next.1, ext, k);
    }
  }

  /** Any length within both the depth bound and the budget is reachable. */
  lemma {:induction false} StepsCovers(gold: int, depth: int, n: nat)
    requires depth + n <= MaxTeamSize && n * Shop.PetCost <= gold
    ensures n <= Steps(gold, depth)
  {
    if n > 0 {
      StepsCovers(gold - Shop.PetCost, depth + 1, n - 1);
    }
  }

  lemma {:induction false} StepsMonotone(g1: int, g2: int, depth: int)
    requires g1 <= g2
    ensures Steps(g1, depth) <= Steps(g2, depth)
    decreases Budget(depth)
  {
    if !(depth >= MaxTeamSize || g1 < Shop.PetCost) {
      StepsMonotone(g1 - Shop.PetCost, g2 - Shop.PetCost, depth + 1);
    }
  }

  /** The best score the search finds from the empty team with `gold` to spend. */
  function BestUtility(available: seq<Pet>, gold: int): real {
    Explore(available, [], gold, 0, [], 0.0).1
  }

  /** More gold never lowers the best score found. */
  lemma BestUtilityMonotone(available: seq<Pet>, g1: int, g2: int)
    requires g1 <= g2
    ensures BestUtility(available, g1) <= BestUtility(available, g2)
  {
    var r := Explore(available, [], g1, 0, [], 0.0);
    ExploreSound(available, [], g1, 0, [], 0.0);
    ExploreSound(available, [], g2, 0, [], 0.0);
    if r != ([], 0.0) {
      StepsMonotone(g1, g2, 0);
      assert r.0 == [] + r.0[0..];
      ExploreOptimal(available, [], g2, 0, [], 0.0, r.0[0..]);
    }
  }

  /** One node of the search, unfolded: score it, then search its children. */
  lemma ExploreUnfold(available: seq<Pet>, cur: seq<Pet>, gold: int, depth: int,
                      best: seq<Pet>, bestUtility: real)
    requires depth < MaxTeamSize && gold >= Shop.PetCost
    ensures var u := TeamUtility(cur);
            var here := if u > bestUtility && |cur| <= MaxTeamSize then (cur, u) else (best, bestUtility);
            Explore(available, cur, gold, depth, best, bestUtility)
              == ExploreEach(available, 0, cur, gold, depth, here.0, here.1)
  {
  }

  /** One child of a node, unfolded. */
  lemma ExploreEachUnfold(available: seq<Pet>, i: nat, cur: seq<Pet>, gold: int, depth: int,
                          best: seq<Pet>, bestUtility: real)
    requires i < |available| && depth < MaxTeamSize && gold >= Shop.PetCost
    ensures var next := Explore(available, cur + [available[i]], gold - Shop.PetCost, depth + 1, best, bestUtility);
            ExploreEach(available, i, cur, gold, depth, best, bestUtility)
              == ExploreEach(available, i + 1, cur, gold, depth, next.0, next.1)
  {
  }

  /** Teams extending a child `cur + [p]` by `k` pets extend `cur` by `k + 1`. */
  lemma ExtendsChildren(log: seq<seq<Pet>>, from: nat, cur: seq<Pet>, p: Pet, available: seq<Pet>, k: nat)
    requires p in available && from <= |log|
    requires forall j :: from <= j < |log| ==> Extends(log[j], cur + [p], available, k)
    ensures forall j :: from <= j < |log| ==> Extends(log[j], cur, available, k + 1)
  {
    forall j | from <= j < |log|
      ensures Extends(log[j], cur, available, k + 1)
    {
      ExtendsChild(log[j], cur, p, available, k);
    }
  }

  /** The search state: the shared partial team that every level appends to and pops. */
  class Composer {
    var currentTeam: seq<Pet>
    /** Every team whose score the search has computed, in order. */
    ghost var evaluated: seq<seq<Pet>>

    constructor ()
      ensures currentTeam == [] && evaluated == []
    {
      currentTeam := [];
      evaluated := [];
    }

    /**
     * One node of the search: score the current team, keep it if it beats the
     * best so far, then try each available pet in turn.
     * The partial team is left exactly as it was found.
     */
    method GetTeamCombination(available: seq<Pet>, remainingGold: int, bestTeam: seq<Pet>,
                              bestUtility: real, depth: int)
      returns (newBest: seq<Pet>, newUtility: real)
      modifies this
      ensures currentTeam == old(currentTeam)
      ensures (newBest, newUtility) == Explore(available, old(currentTeam), remainingGold, depth, bestTeam, bestUtility)
      ensures old(evaluated) <= evaluated
      ensures forall j :: |old(evaluated)| <= j < |evaluated| ==>
                Extends(evaluated[j], old(currentTeam), available, Steps(remainingGold, depth))
      decreases Budget(depth), 1
    {
      var utility := TeamUtility(currentTeam);
      evaluated := evaluated + [currentTeam];
      newBest, newUtility := bestTeam, bestUtility;
      if utility > bestUtility && |currentTeam| <= MaxTeamSize {
        newBest, newUtility := currentTeam, utility;
      }
      assert currentTeam[|currentTeam|..] == [];
      if depth >= MaxTeamSize || remainingGold < Shop.PetCost {
        return;
      }
      ghost var cur := currentTeam;
      ghost var k := Steps(remainingGold, depth);
      ExploreUnfold(available, cur, remainingGold, depth, bestTeam, bestUtility);
      ghost var result := Explore(available, cur, remainingGold, depth, bestTeam, bestUtility);
      for i := 0 to |available|
        invariant currentTeam == cur
        invariant ExploreEach(available, i, cur, remainingGold, depth, newBest, newUtility) == result
        invariant old(evaluated) <= evaluated
        invariant forall j :: |old(evaluated)| <= j < |evaluated| ==> Extends(evaluated[j], cur, available, k)
      {
        if remainingGold >= Shop.PetCost {
          ghost var prev := (newBest, newUtility);
          newBest, newUtility := TryPet(available, i, remainingGold, newBest, newUtility, depth);
          ExploreEachUnfold(available, i, cur, remainingGold, depth, prev.0, prev.1);
        }
      }
    }

    /**
     * One branch of a node: append a copy of `available[i]`, search below it
     * with one purchase less to spend, then pop it again.
     */
    method TryPet(available: seq<Pet>, i: nat, remainingGold: int, bestTeam: seq<Pet>,
                  bestUtility: real, depth: int)
      returns (newBest: seq<Pet>, newUtility: real)
      requires i < |available| && depth < MaxTeamSize && remainingGold >= Shop.PetCost
      modifies this
      ensures currentTeam == old(currentTeam)
      ensures (newBest, newUtility) == Explore(available, old(currentTeam) + [available[i]],
                                               remainingGold - Shop.PetCost, depth + 1, bestTeam, bestUtility)
      ensures old(evaluated) <= evaluated
      ensures forall j :: |old(evaluated)| <= j < |evaluated| ==>
                Extends(evaluated[j], old(currentTeam), available, Steps(remainingGold, depth))
      decreases Budget(depth), 0
    {
      ghost var before := evaluated;
      ghost var k := Steps(remainingGold - Shop.PetCost, depth + 1);
      assert Steps(remainingGold, depth) == k + 1;
      currentTeam := currentTeam + [available[i]];
      newBest, newUtility := GetTeamCombination(available, remainingGold - Shop.PetCost,
                                                bestTeam, bestUtility, depth + 1);
      ExtendsChildren(evaluated, |before|, old(currentTeam), available[i], available, k);
      currentTeam := currentTeam[..|currentTeam| - 1];
    }
  }

  /**
   * The search from the empty team, returning what it found: the empty team
   * with score 0, or an affordable team of at most five available pets whose
   * score is positive and at least that of every such team.
   */
  method GetBestTeam(available: seq<Pet>, gold: int) returns (team: seq<Pet>, utility: real)
    ensures utility >= 0.0
    ensures (team == [] && utility == 0.0) ||
            (utility > 0.0 && utility == TeamUtility(team) && AllFrom(team, available) &&
             |team| <= MaxTeamSize && |team| * Shop.PetCost <= gold)
    ensures forall t: seq<Pet> ::
              AllFrom(t, available) && |t| <= MaxTeamSize && |t| * Shop.PetCost <= gold ==>
                TeamUtility(t) <= utility
  {
    var composer := new Composer();
    team, utility := composer.GetTeamCombination(available, gold, [], 0.0, 0);
    ExploreSound(available, [], gold, 0, [], 0.0);
    assert team[0..] == team;
    forall t: seq<Pet> | AllFrom(t, available) && |t| <= MaxTeamSize && |t| * Shop.PetCost <= gold
      ensures TeamUtility(t) <= utility
    {
      StepsCovers(gold, 0, |t|);
      assert [] + t == t;
      ExploreOptimal(available, [], gold, 0, [], 0.0, t);
    }
  }
}
