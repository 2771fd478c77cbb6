// The treasure chest of src/entities/chest.py: a one-shot container whose
// rewards are merged into the player's bag, and its save-file dictionary.
// The chest's position and the player-distance check are not modelled.
module ChestEntity {
  import opened Util
  import opened Definition
  import opened BagData

  const DefaultName: string := "Treasure Chest"
  const DefaultSprite: string := "ingame_ui/chest.png"
  const CoinSprite: string := "ingame_ui/coin.png"

  /** The rewards dictionary; each key may be missing. */
  datatype Rewards = Rewards(items: Option<seq<Item>>, monsters: Option<seq<Monster>>, coins: Option<int>)

  /** {"items": [], "monsters": [], "coins": 0} */
  const DefaultRewards: Rewards := Rewards(Some([]), Some([]), Some(0))

  /** An empty dictionary is falsy in Python. */
  predicate IsEmptyDict(r: Rewards)
  {
    r.items.None? && r.monsters.None? && r.coins.None?
  }

  /** `rewards if rewards else {...}`: a missing or empty dictionary becomes the default rewards. */
  function RewardsOrDefault(r: Option<Rewards>): (res: Rewards)
    ensures !IsEmptyDict(res)
    ensures r.Some? && !IsEmptyDict(r.value) ==> res == r.value
    ensures r.None? || IsEmptyDict(r.value) ==> res == DefaultRewards
  {
    match r
    case Some(v) => if IsEmptyDict(v) then DefaultRewards else v
    case None => DefaultRewards
  }

  function RewardItems(r: Rewards): seq<Item>
  {
    match r.items case Some(s) => s case None => []
  }

  function RewardMonsters(r: Rewards): seq<Monster>
  {
    match r.monsters case Some(s) => s case None => []
  }

  function RewardCoins(r: Rewards): int
  {
    match r.coins case Some(c) => c case None => 0
  }

  /** The bag's item list after add_item was called for each reward item in order. */
  function ItemsAfterAddAll(items: seq<Item>, rewards: seq<Item>): seq<Item>
  {
    if rewards == [] then items
    else
      var last := rewards[|rewards| - 1];
      ItemsAfterAdd(ItemsAfterAddAll(items, rewards[..|rewards| - 1]),
                    last.name, last.count, last.spritePath, PriceOrZero(last))
  }

  /** The total count the reward list holds of one name. */
  function RewardTotal(rewards: seq<Item>, name: string): int
  {
    if rewards == [] then 0
    else
      var last := rewards[|rewards| - 1];
      RewardTotal(rewards[..|rewards| - 1], name) + (if last.name == name then last.count else 0)
  }

  /** Merging the reward items raises each item's quantity by the reward list's total of it. */
  lemma {:induction false} AddAllQuantity(items: seq<Item>, rewards: seq<Item>, name: string)
    ensures Quantity(ItemsAfterAddAll(items, rewards), name) == Quantity(items, name) + RewardTotal(rewards, name)
  {
    if rewards != [] {
      var last := rewards[|rewards| - 1];
      var before := ItemsAfterAddAll(items, rewards[..|rewards| - 1]);
      AddAllQuantity(items, rewards[..|rewards| - 1], name);
      if last.name == name {
        AddItemQuantity(before, last.name, last.count, last.spritePath, PriceOrZero(last), name + "'");
      } else {
        AddItemQuantity(before, last.name, last.count, last.spritePath, PriceOrZero(last), name);
      }
    }
  }

  /** Merging the reward items keeps the bag's item names unique. */
  lemma {:induction false} AddAllKeepsNamesUnique(items: seq<Item>, rewards: seq<Item>)
    requires UniqueNames(items)
    ensures UniqueNames(ItemsAfterAddAll(items, rewards))
  {
    if rewards != [] {
      var last := rewards[|rewards| - 1];
      AddAllKeepsNamesUnique(items, rewards[..|rewards| - 1]);
      AddItemKeepsNamesUnique(ItemsAfterAddAll(items, rewards[..|rewards| - 1]),
                              last.name, last.count, last.spritePath, PriceOrZero(last));
    }
  }

  /** The bag's item list after a successful open: reward items merged, then the coins, if any. */
  function ItemsAfterOpen(items: seq<Item>, r: Rewards): seq<Item>
  {
    var merged := ItemsAfterAddAll(items, RewardItems(r));
    if RewardCoins(r) > 0 then ItemsAfterAdd(merged, "Coins", RewardCoins(r), CoinSprite, 1) else merged
  }

  /** Opening credits the coins reward to the Coins entry only when it is positive. */
  lemma {:induction false} OpenCreditsCoins(items: seq<Item>, r: Rewards)
    ensures Quantity(ItemsAfterOpen(items, r), "Coins")
         == Quantity(items, "Coins") + RewardTotal(RewardItems(r), "Coins")
            + (if RewardCoins(r) > 0 then RewardCoins(r) else 0)
  {
    var merged := ItemsAfterAddAll(items, RewardItems(r));
    AddAllQuantity(items, RewardItems(r), "Coins");
    if RewardCoins(r) > 0 {
      AddItemQuantity(merged, "Coins", RewardCoins(r), CoinSprite, 1, "");
    }
  }

  /** What open_chest did. */
  datatype OpenOutcome =
    | AlreadyOpened       // returned False
    | Opened              // returned True
    | MissingAddMonster   // Bag has no add_monster: AttributeError after the items were merged

  /** The fields a chest saves. */
  datatype ChestRecord = ChestRecord(name: string, isOpen: bool, rewards: Rewards, spritePath: string)

  /** The chest's save-file dictionary, without its position; each key may be missing. */
  datatype ChestDict = ChestDict(name: Option<string>, isOpen: Option<bool>,
                                 rewards: Option<Rewards>, spritePath: Option<string>)

  /** The fields Chest.from_dict builds from a dictionary. */
  function RecordFromDict(d: ChestDict): (c: ChestRecord)
    ensures !IsEmptyDict(c.rewards)
  {
    ChestRecord(match d.name case Some(n) => n case None => DefaultName,
                match d.isOpen case Some(o) => o case None => false,
                RewardsOrDefault(d.rewards),
                match d.spritePath case Some(s) => s case None => DefaultSprite)
  }

  class Chest {
    var name: string
    var isOpen: bool
    var rewards: Rewards
    var spritePath: string

    predicate Valid()
      reads this
    {
      !IsEmptyDict(rewards)
    }

    function Record(): ChestRecord
      reads this
    {
      ChestRecord(name, isOpen, rewards, spritePath)
    }

    /** Chest(x, y, game_manager, name="Treasure Chest", isOpen=False, rewards=None, sprite_path="ingame_ui/chest.png") */
    constructor(name: string := DefaultName, isOpen: bool := false, rewards: Option<Rewards> := None,
                spritePath: string := DefaultSprite)
      ensures Valid()
      ensures Record() == ChestRecord(name, isOpen, RewardsOrDefault(rewards), spritePath)
    {
      this.name := name;
      this.isOpen := isOpen;
      this.rewards := RewardsOrDefault(rewards);
      this.spritePath := spritePath;
    }

    /** Chest.from_dict */
    static method FromDict(d: ChestDict) returns (c: Chest)
      ensures fresh(c) && c.Valid()
      ensures c.Record() == RecordFromDict(d)
    {
      c := new Chest(match d.name case Some(n) => n case None => DefaultName,
                     match d.isOpen case Some(o) => o case None => false,
                     Some(match d.rewards case Some(r) => r case None => Rewards(None, None, None)),
                     match d.spritePath case Some(s) => s case None => DefaultSprite);
    }

    /** Chest.to_dict: reloading it keeps name, isOpen and rewards; the sprite is always the default one. */
    function ToDict(): (d: ChestDict)
      requires Valid()
      reads this
      ensures d.spritePath == Some(DefaultSprite)
      ensures RecordFromDict(d) == Record().(spritePath := DefaultSprite)
    {
      ChestDict(Some(name), Some(isOpen), Some(rewards), Some(DefaultSprite))
    }

    /** open_chest */
    method OpenChest(bag: Bag) returns (outcome: OpenOutcome)
      requires Valid()
      modifies this, bag
      ensures Valid() && name == old(name) && rewards == old(rewards) && spritePath == old(spritePath)
      ensures bag.money == old(bag.money) && bag.monsters == old(bag.monsters)
      ensures old(isOpen) ==> outcome == AlreadyOpened && isOpen && bag.items == old(bag.items)
      ensures !old(isOpen) && RewardMonsters(rewards) != [] ==>
                outcome == MissingAddMonster && !isOpen
                && bag.items == ItemsAfterAddAll(old(bag.items), RewardItems(rewards))
      ensures !old(isOpen) && RewardMonsters(rewards) == [] ==>
                outcome == Opened && isOpen
                && bag.items == ItemsAfterOpen(old(bag.items), rewards)
    {
      if isOpen {
        return AlreadyOpened;
      }
      var rewardItems := RewardItems(rewards);
      var i := 0;
      while i < |rewardItems|
        invariant 0 <= i <= |rewardItems|
        invariant bag.items == ItemsAfterAddAll(old(bag.items), rewardItems[..i])
        invariant bag.money == old(bag.money) && bag.monsters == old(bag.monsters)
        invariant unchanged(this)
      {
        var item := rewardItems[i];
        assert rewardItems[..i + 1][..i] == rewardItems[..i];
        bag.AddItem(item.name, item.count, item.spritePath, PriceOrZero(item));
        i := i + 1;
      }
      assert rewardItems[..i] == rewardItems;
      if RewardMonsters(rewards) != [] {
        return MissingAddMonster;
      }
      var coins := RewardCoins(rewards);
      if coins > 0 {
        bag.AddItem("Coins", coins, CoinSprite, 1);
      }
      isOpen := true;
      return Opened;
    }
  }
}
