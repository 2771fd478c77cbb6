// The player's bag of src/data/bag.py: monsters, items and money, updated in
// place by the shop, the chest and the battle scenes.
module BagData {
  import opened Util
  import opened Definition

  /** Index of the first item with the given name (the source's for-loop with early return). */
  function FindItem(items: seq<Item>, name: string): (r: Option<nat>)
    ensures r.Some? ==> r.value < |items| && items[r.value].name == name
    ensures r.Some? ==> forall j :: 0 <= j < r.value ==> items[j].name != name
    ensures r.None? <==> forall j :: 0 <= j < |items| ==> items[j].name != name
  {
    if |items| == 0 then None
    else if items[0].name == name then Some(0)
    else match FindItem(items[1..], name)
      case None => None
      case Some(k) => Some(k + 1)
  }

  /** No two entries share a name. */
  predicate UniqueNames(items: seq<Item>)
  {
    forall i, j :: 0 <= i < j < |items| ==> items[i].name != items[j].name
  }

  /** How many of an item the bag holds (the count of its entry, 0 when there is none). */
  function Quantity(items: seq<Item>, name: string): int
  {
    match FindItem(items, name)
    case Some(i) => items[i].count
    case None => 0
  }

  /** The item list after add_item: the first entry of that name gains count, else a new entry is appended. */
  function ItemsAfterAdd(items: seq<Item>, name: string, count: int, spritePath: string, price: int): (r: seq<Item>)
  {
    match FindItem(items, name)
    case Some(i) => items[i := items[i].(count := items[i].count + count)]
    case None => items + [Item(name, count, spritePath, Some(price))]
  }

  /** The outcome of remove_item and the item list after it. */
  function ItemsAfterRemove(items: seq<Item>, name: string, count: int): (r: (bool, seq<Item>))
  {
    match FindItem(items, name)
    case Some(i) =>
      if items[i].count >= count then
        if items[i].count - count == 0 then (true, items[..i] + items[i + 1..])
        else (true, items[i := items[i].(count := items[i].count - count)])
      else (false, items)
    case None => (false, items)
  }

  /** The abstract content of a bag. */
  datatype BagContents = BagContents(monsters: seq<Monster>, items: seq<Item>, money: int)

  /** The dictionary Bag.to_dict writes and Bag.from_dict reads; every key may be missing. */
  datatype BagDict = BagDict(monsters: Option<seq<Monster>>, items: Option<seq<Item>>, money: Option<int>)

  /** `x if x else []` and `data.get(k) or []`: a missing or empty list becomes []. */
  function ListOrEmpty<T>(o: Option<seq<T>>): (r: seq<T>)
    ensures o.Some? ==> r == o.value
    ensures o.None? ==> r == []
  {
    match o
    case Some(v) => if |v| > 0 then v else []
    case None => []
  }

  /** The content Bag.from_dict builds: money defaults to 1000. */
  function ContentsFromDict(d: BagDict): BagContents
  {
    BagContents(ListOrEmpty(d.monsters), ListOrEmpty(d.items),
                match d.money case Some(m) => m case None => 1000)
  }

  class Bag {
    var monsters: seq<Monster>
    var items: seq<Item>
    var money: int

    function Contents(): BagContents
      reads this
    {
      BagContents(monsters, items, money)
    }

    /** Bag(monsters_data=None, items_data=None, money=1000) */
    constructor(monstersData: Option<seq<Monster>>, itemsData: Option<seq<Item>>, money: int)
      ensures Contents() == BagContents(ListOrEmpty(monstersData), ListOrEmpty(itemsData), money)
    {
      this.monsters := ListOrEmpty(monstersData);
      this.items := ListOrEmpty(itemsData);
      this.money := money;
    }

    /** Bag.from_dict */
    static method FromDict(d: BagDict) returns (b: Bag)
      ensures fresh(b)
      ensures b.Contents() == ContentsFromDict(d)
    {
      b := new Bag(d.monsters, d.items, match d.money case Some(m) => m case None => 1000);
    }

    /** Bag.to_dict: always writes all three keys, so reading it back gives the same bag. */
    function ToDict(): (d: BagDict)
      reads this
      ensures d.money == Some(money)
      ensures ContentsFromDict(d) == Contents()
    {
      BagDict(Some(monsters), Some(items), Some(money))
    }

    /** add_money */
    method AddMoney(amount: int)
      modifies this
      ensures money == old(money) + amount
      ensures monsters == old(monsters) && items == old(items)
    {
      money := money + amount;
    }

    /** remove_money: succeeds, and pays, exactly when the bag holds enough. */
    method RemoveMoney(amount: int) returns (ok: bool)
      modifies this
      ensures ok <==> old(money) >= amount
      ensures money == (if ok then old(money) - amount else old(money))
      ensures old(money) >= 0 ==> money >= 0
      ensures monsters == old(monsters) && items == old(items)
    {
      if money >= amount {
        money := money - amount;
        return true;
      }
      return false;
    }

    /** add_item */
    method AddItem(itemName: string, count: int := 1, spritePath: string := "", price: int := 0)
      modifies this
      ensures items == ItemsAfterAdd(old(items), itemName, count, spritePath, price)
      ensures monsters == old(monsters) && money == old(money)
    {
      var i := 0;
      while i < |items|
        invariant 0 <= i <= |items|
        invariant forall j :: 0 <= j < i ==> items[j].name != itemName
      {
        if items[i].name == itemName {
          items := items[i := items[i].(count := items[i].count + count)];
          return;
        }
        i := i + 1;
      }
      items := items + [Item(itemName, count, spritePath, Some(price))];
    }

    /** remove_item */
    method RemoveItem(itemName: string, count: int := 1) returns (ok: bool)
      modifies this
      ensures (ok, items) == ItemsAfterRemove(old(items), itemName, count)
      ensures monsters == old(monsters) && money == old(money)
    {
      var i := 0;
      while i < |items|
        invariant 0 <= i <= |items|
        invariant forall j :: 0 <= j < i ==> items[j].name != itemName
      {
        if items[i].name == itemName {
          if items[i].count >= count {
            items := items[i := items[i].(count := items[i].count - count)];
            if items[i].count == 0 {
              // list.remove drops the first entry equal to this one, which is
              // this one: every earlier entry has another name.
              items := items[..i] + items[i + 1..];
            }
            return true;
          }
          return false;
        }
        i := i + 1;
      }
      return false;
    }
  }

  /** add_item keeps item names unique. */
  lemma AddItemKeepsNamesUnique(items: seq<Item>, name: string, count: int, spritePath: string, price: int)
    requires UniqueNames(items)
    ensures UniqueNames(ItemsAfterAdd(items, name, count, spritePath, price))
  {
  }

  /** remove_item keeps item names unique. */
  lemma RemoveItemKeepsNamesUnique(items: seq<Item>, name: string, count: int)
    requires UniqueNames(items)
    ensures UniqueNames(ItemsAfterRemove(items, name, count).1)
  {
  }

  /** The first entry with the name is the one FindItem finds. */
  lemma FindItemIs(a: seq<Item>, name: string, k: nat)
    requires k < |a| && a[k].name == name
    requires forall j :: 0 <= j < k ==> a[j].name != name
    ensures FindItem(a, name) == Some(k)
  {
  }

  /** FindItem looks only at names. */
  lemma FindItemSameNames(a: seq<Item>, b: seq<Item>, name: string)
    requires |a| == |b|
    requires forall j :: 0 <= j < |a| ==> a[j].name == b[j].name
    ensures FindItem(a, name) == FindItem(b, name)
  {
    match FindItem(a, name) {
      case Some(i) =>
        FindItemIs(b, name, i);
      case None =>
    }
  }

  /** Appending an entry finds it only when no earlier entry has the name. */
  lemma FindItemAppend(a: seq<Item>, x: Item, name: string)
    ensures FindItem(a + [x], name)
         == if FindItem(a, name).Some? then FindItem(a, name)
            else if x.name == name then Some(|a|) else None
  {
    var b := a + [x];
    assert forall j :: 0 <= j < |a| ==> b[j] == a[j];
    assert b[|a|] == x;
    match FindItem(a, name) {
      case Some(i) =>
        FindItemIs(b, name, i);
      case None =>
        if x.name == name {
          FindItemIs(b, name, |a|);
        }
    }
  }

  /** Deleting the entry found for a name leaves no entry of that name when names are unique. */
  lemma FindItemDeleteSelf(a: seq<Item>, i: nat, name: string)
    requires UniqueNames(a)
    requires FindItem(a, name) == Some(i)
    ensures FindItem(a[..i] + a[i + 1..], name).None?
  {
    var b := a[..i] + a[i + 1..];
    forall j | 0 <= j < |b| ensures b[j].name != name {
      if j < i {
        assert b[j] == a[j];
      } else {
        assert b[j] == a[j + 1];
        assert a[i].name != a[j + 1].name;
      }
    }
  }

  /** The entries after deleting entry i: those before it, then those after it. */
  lemma DeletedEntry(a: seq<Item>, i: nat, j: nat)
    requires i < |a| && j < |a| - 1
    ensures (a[..i] + a[i + 1..])[j] == if j < i then a[j] else a[j + 1]
  {
  }

  /** Deleting entry i keeps the first entry k of a name, one place earlier when it came after i. */
  lemma DeleteKeepsFirst(a: seq<Item>, i: nat, k: nat, other: string)
    requires i < |a| && k < |a| && k != i && a[k].name == other
    requires forall j :: 0 <= j < k ==> a[j].name != other
    ensures FindItem(a[..i] + a[i + 1..], other) == Some(if k < i then k else k - 1)
  {
    var b := a[..i] + a[i + 1..];
    var m := if k < i then k else k - 1;
    DeletedEntry(a, i, m);
    forall j | 0 <= j < m ensures b[j].name != other {
      DeletedEntry(a, i, j);
    }
    FindItemIs(b, other, m);
  }

  /** Deleting an entry brings back no name that was absent. */
  lemma DeleteKeepsAbsent(a: seq<Item>, i: nat, other: string)
    requires i < |a|
    requires forall j :: 0 <= j < |a| ==> a[j].name != other
    ensures FindItem(a[..i] + a[i + 1..], other).None?
  {
    var b := a[..i] + a[i + 1..];
    forall j | 0 <= j < |b| ensures b[j].name != other {
      DeletedEntry(a, i, j);
    }
  }

  /** Deleting the entry found for one name keeps the first entry of every other name. */
  lemma FindItemDeleteOther(a: seq<Item>, i: nat, name: string, other: string)
    requires FindItem(a, name) == Some(i)
    requires other != name
    ensures Quantity(a[..i] + a[i + 1..], other) == Quantity(a, other)
  {
    match FindItem(a, other) {
      case Some(k) =>
        DeleteKeepsFirst(a, i, k, other);
        DeletedEntry(a, i, if k < i then k else k - 1);
      case None =>
        DeleteKeepsAbsent(a, i, other);
    }
  }

  /** add_item leaves the entry found for every other name where it was. */
  lemma {:induction false} FindItemAfterAddOther(items: seq<Item>, name: string, count: int, spritePath: string, price: int, other: string)
    requires other != name
    ensures FindItem(ItemsAfterAdd(items, name, count, spritePath, price), other) == FindItem(items, other)
  {
    var after := ItemsAfterAdd(items, name, count, spritePath, price);
    match FindItem(items, name) {
      case Some(i) =>
        FindItemSameNames(items, after, other);
      case None =>
        FindItemAppend(items, Item(name, count, spritePath, Some(price)), other);
    }
  }

  /** add_item raises the quantity of that item by count and leaves every other item alone. */
  lemma {:induction false} AddItemQuantity(items: seq<Item>, name: string, count: int, spritePath: string, price: int, other: string)
    requires other != name
    ensures Quantity(ItemsAfterAdd(items, name, count, spritePath, price), name) == Quantity(items, name) + count
    ensures Quantity(ItemsAfterAdd(items, name, count, spritePath, price), other) == Quantity(items, other)
  {
    var after := ItemsAfterAdd(items, name, count, spritePath, price);
    FindItemAfterAddOther(items, name, count, spritePath, price, other);
    match FindItem(items, name) {
      case Some(i) =>
        FindItemSameNames(items, after, name);
        if FindItem(items, other).Some? {
          assert FindItem(items, other).value != i;
        }
      case None =>
        FindItemAppend(items, Item(name, count, spritePath, Some(price)), name);
        if FindItem(items, other).Some? {
          assert after[FindItem(items, other).value] == items[FindItem(items, other).value];
        }
    }
  }

  /** remove_item succeeds exactly when an entry of that name holds at least count,
      and then lowers that quantity by count, leaving every other item alone. */
  lemma {:induction false} RemoveItemQuantity(items: seq<Item>, name: string, count: int, other: string)
    requires UniqueNames(items)
    requires other != name
    ensures ItemsAfterRemove(items, name, count).0
        <==> FindItem(items, name).Some? && Quantity(items, name) >= count
    ensures ItemsAfterRemove(items, name, count).0
        ==> Quantity(ItemsAfterRemove(items, name, count).1, name) == Quantity(items, name) - count
    ensures Quantity(ItemsAfterRemove(items, name, count).1, other) == Quantity(items, other)
    ensures !ItemsAfterRemove(items, name, count).0 ==> ItemsAfterRemove(items, name, count).1 == items
  {
    var after := ItemsAfterRemove(items, name, count).1;
    match FindItem(items, name)
    case Some(i) =>
      if items[i].count >= count {
        if items[i].count - count == 0 {
          FindItemDeleteSelf(items, i, name);
          FindItemDeleteOther(items, i, name, other);
        } else {
          FindItemSameNames(items, after, name);
          FindItemSameNames(items, after, other);
          if FindItem(items, other).Some? {
            assert FindItem(items, other).value != i;
          }
        }
      }
    case None =>
  }

  /** Removing what was just added restores the list, unless the item was
      already there with a count of 0 (that entry would then be deleted). */
  lemma {:induction false} AddThenRemoveRestores(items: seq<Item>, name: string, count: int, spritePath: string, price: int)
    requires FindItem(items, name).Some? ==> items[FindItem(items, name).value].count != 0
    requires FindItem(items, name).Some? ==> items[FindItem(items, name).value].count >= 0
    ensures ItemsAfterRemove(ItemsAfterAdd(items, name, count, spritePath, price), name, count) == (true, items)
  {
    var added := ItemsAfterAdd(items, name, count, spritePath, price);
    match FindItem(items, name)
    case Some(i) =>
      FindItemSameNames(items, added, name);
      assert added[i := added[i].(count := added[i].count - count)] == items;
    case None =>
      FindItemAppend(items, Item(name, count, spritePath, Some(price)), name);
      assert added[..|items|] + added[|items| + 1..] == items;
  }
}
