/** The shop: a gold balance and a row of sale slots that purchases empty. */
module Shop {
  import opened Wrappers
  import opened Pets

  const StartingGold: int := 10
  const SlotCount: nat := 3
  const RefreshCost: int := 1
  const PetCost: int := 3

  class Shop {
    var gold: int
    /** `None` marks a slot emptied by a purchase. */
    var petsForSale: seq<Option<Pet>>
    const pool: seq<Pet>
    const slots: nat
    const refreshCost: int
    const petCost: int

    /** Gold never goes negative and a purchase always costs `PetCost`. */
    ghost predicate Valid()
      reads this
    {
      gold >= 0 && petCost == PetCost
    }

    constructor (petPool: seq<Pet>)
      ensures Valid()
      ensures pool == petPool && gold == StartingGold && petsForSale == []
      ensures slots == SlotCount && refreshCost == RefreshCost && petCost == PetCost
    {
      pool := petPool;
      slots := SlotCount;
      gold := StartingGold;
      petsForSale := [];
      refreshCost := RefreshCost;
      petCost := PetCost;
    }

    /**
     * Buys the pet in slot `slotIndex`. Too little gold or a slot index out of
     * range is a failed purchase that changes nothing. Otherwise the purchase is
     * charged, even when the slot was already empty, and the slot is emptied.
     */
    method BuyPet(slotIndex: int) returns (bought: Option<Pet>)
      requires Valid()
      modifies this
      ensures Valid()
      ensures |petsForSale| == |old(petsForSale)|
      ensures old(gold) < petCost || !(0 <= slotIndex < |old(petsForSale)|) ==>
                bought == None && gold == old(gold) && petsForSale == old(petsForSale)
      ensures old(gold) >= petCost && 0 <= slotIndex < |old(petsForSale)| ==>
                bought == old(petsForSale)[slotIndex] &&
                gold == old(gold) - petCost &&
                petsForSale == old(petsForSale)[slotIndex := None]
    {
      if gold < petCost {
        return None;
      }
      if 0 <= slotIndex < |petsForSale| {
        var pet := petsForSale[slotIndex];
        gold := gold - petCost;
        petsForSale := petsForSale[slotIndex := None];
        return pet;
      }
      return None;
    }
  }
}
