// The merchant's shop of src/interface/components/shop_panel.py: two scrolled
// lists (the merchant's stock on the left, the player's bag on the right),
// buying with and selling for "Coins" items, and a timed feedback message.
// Drawing, sprites and buttons are not modelled; a click on a row's button is
// the call of BuyItem or SellItem with that row's item.
module Shop {
  import opened Util
  import opened Definition
  import opened BagData

  const ItemLineHeight: int := 70
  const ScrollSpeed: int := 30
  const CoinsName: string := "Coins"
  const CoinSprite: string := "ingame_ui/coin.png"
  const Green: (int, int, int) := (0, 180, 0)
  const Red: (int, int, int) := (220, 60, 60)

  /** The new offset of a list scrolled by `amount` pixels: clamped between 0 and
      how far the content overflows the viewport. */
  function ScrollOffset(offset: int, amount: int, contentHeight: int, viewportHeight: int): (r: int)
    ensures 0 <= r <= Max(0, contentHeight - viewportHeight)
    ensures 0 <= offset - amount <= contentHeight - viewportHeight ==> r == offset - amount
    ensures offset - amount < 0 ==> r == 0
    ensures offset - amount > Max(0, contentHeight - viewportHeight) ==> r == Max(0, contentHeight - viewportHeight)
  {
    Max(0, Min(Max(0, contentHeight - viewportHeight), offset - amount))
  }

  /** Scrolling back by the same amount undoes a scroll that hit no end. */
  lemma ScrollUndo(offset: int, amount: int, contentHeight: int, viewportHeight: int)
    requires 0 <= offset - amount <= contentHeight - viewportHeight
    requires 0 <= offset <= contentHeight - viewportHeight
    ensures ScrollOffset(ScrollOffset(offset, amount, contentHeight, viewportHeight), -amount,
                         contentHeight, viewportHeight) == offset
  {
  }

  /** Scrolling twice in the same direction never goes past where one scroll by the sum goes. */
  lemma ScrollIsMonotone(offset: int, a: int, b: int, contentHeight: int, viewportHeight: int)
    requires a <= b
    ensures ScrollOffset(offset, b, contentHeight, viewportHeight)
         <= ScrollOffset(offset, a, contentHeight, viewportHeight)
  {
  }

  /** The bag's item list after buying one of `item` (paid for with Coins items), and whether it was bought. */
  function BuyOutcome(items: seq<Item>, item: Item, price: int): (bool, seq<Item>)
  {
    var (paid, afterPay) := ItemsAfterRemove(items, CoinsName, price);
    if paid then (true, ItemsAfterAdd(afterPay, item.name, 1, item.spritePath, price))
    else (false, items)
  }

  /** The bag's item list after selling one of `item` for half its price, and whether it was sold. */
  function SellOutcome(items: seq<Item>, item: Item): (bool, seq<Item>)
  {
    var (sold, afterSale) := ItemsAfterRemove(items, item.name, 1);
    if sold then (true, ItemsAfterAdd(afterSale, CoinsName, PriceOrZero(item) / 2, CoinSprite, 1))
    else (false, items)
  }

  /** Buying succeeds exactly when the bag holds a Coins entry with at least the price;
      it then costs exactly the price in coins and adds exactly one of the item. */
  lemma {:induction false} BuyTransfers(items: seq<Item>, item: Item, price: int)
    requires UniqueNames(items)
    requires item.name != CoinsName
    ensures BuyOutcome(items, item, price).0
        <==> FindItem(items, CoinsName).Some? && Quantity(items, CoinsName) >= price
    ensures BuyOutcome(items, item, price).0 ==>
              Quantity(BuyOutcome(items, item, price).1, CoinsName) == Quantity(items, CoinsName) - price
              && Quantity(BuyOutcome(items, item, price).1, item.name) == Quantity(items, item.name) + 1
    ensures !BuyOutcome(items, item, price).0 ==> BuyOutcome(items, item, price).1 == items
    ensures UniqueNames(BuyOutcome(items, item, price).1)
  {
    RemoveItemQuantity(items, CoinsName, price, item.name);
    var afterPay := ItemsAfterRemove(items, CoinsName, price).1;
    RemoveItemKeepsNamesUnique(items, CoinsName, price);
    AddItemQuantity(afterPay, item.name, 1, item.spritePath, price, CoinsName);
    AddItemKeepsNamesUnique(afterPay, item.name, 1, item.spritePath, price);
  }

  /** Selling succeeds exactly when the bag holds an entry of that name with a positive
      count; it then removes one and adds half the price, rounded down, in coins. */
  lemma {:induction false} SellTransfers(items: seq<Item>, item: Item)
    requires UniqueNames(items)
    requires item.name != CoinsName
    ensures SellOutcome(items, item).0
        <==> FindItem(items, item.name).Some? && Quantity(items, item.name) >= 1
    ensures SellOutcome(items, item).0 ==>
              Quantity(SellOutcome(items, item).1, item.name) == Quantity(items, item.name) - 1
              && Quantity(SellOutcome(items, item).1, CoinsName)
                 == Quantity(items, CoinsName) + PriceOrZero(item) / 2
    ensures !SellOutcome(items, item).0 ==> SellOutcome(items, item).1 == items
    ensures UniqueNames(SellOutcome(items, item).1)
  {
    RemoveItemQuantity(items, item.name, 1, CoinsName);
    var afterSale := ItemsAfterRemove(items, item.name, 1).1;
    RemoveItemKeepsNamesUnique(items, item.name, 1);
    AddItemQuantity(afterSale, CoinsName, PriceOrZero(item) / 2, CoinSprite, 1, item.name);
    AddItemKeepsNamesUnique(afterSale, CoinsName, PriceOrZero(item) / 2, CoinSprite, 1);
  }

  /** Paying with exactly the coins the bag holds deletes its Coins entry. */
  lemma {:induction false} BuyWithAllCoinsRemovesCoins(items: seq<Item>, item: Item, price: int)
    requires UniqueNames(items)
    requires item.name != CoinsName
    requires FindItem(items, CoinsName).Some? && Quantity(items, CoinsName) == price
    ensures BuyOutcome(items, item, price).0
    ensures FindItem(BuyOutcome(items, item, price).1, CoinsName).None?
  {
    var i := FindItem(items, CoinsName).value;
    FindItemDeleteSelf(items, i, CoinsName);
    var afterPay := ItemsAfterRemove(items, CoinsName, price).1;
    FindItemAfterAddOther(afterPay, item.name, 1, item.spritePath, price, CoinsName);
  }

  /** Selling back an item just bought returns half its price: with a positive price,
      a round trip through the shop loses coins. */
  lemma {:induction false} BuyThenSellLosesCoins(items: seq<Item>, item: Item, price: int)
    requires UniqueNames(items)
    requires item.name != CoinsName
    requires price > 0
    requires item.price == Some(price)
    requires Quantity(items, item.name) >= 0
    requires BuyOutcome(items, item, price).0
    ensures SellOutcome(BuyOutcome(items, item, price).1, item).0
    ensures Quantity(SellOutcome(BuyOutcome(items, item, price).1, item).1, CoinsName)
         == Quantity(items, CoinsName) - price + price / 2
    ensures Quantity(SellOutcome(BuyOutcome(items, item, price).1, item).1, CoinsName)
         < Quantity(items, CoinsName)
    ensures Quantity(SellOutcome(BuyOutcome(items, item, price).1, item).1, item.name)
         == Quantity(items, item.name)
  {
    BuyTransfers(items, item, price);
    var bought := BuyOutcome(items, item, price).1;
    assert FindItem(bought, item.name).Some? by {
      var afterPay := ItemsAfterRemove(items, CoinsName, price).1;
      FindItemAfterAdd(afterPay, item.name, 1, item.spritePath, price);
    }
    SellTransfers(bought, item);
  }

  /** After add_item there is an entry of that name. */
  lemma FindItemAfterAdd(items: seq<Item>, name: string, count: int, spritePath: string, price: int)
    ensures FindItem(ItemsAfterAdd(items, name, count, spritePath, price), name).Some?
  {
    if FindItem(items, name).None? {
      FindItemAppend(items, Item(name, count, spritePath, Some(price)), name);
    } else {
      FindItemSameNames(items, ItemsAfterAdd(items, name, count, spritePath, price), name);
    }
  }

  class ShopPanel {
    const npcInventory: seq<Item>
    const playerBag: Bag
    const npcName: string
    const rect: Rect
    const npcContentHeight: int
    const viewportHeight: int
    var npcScrollOffset: int
    var playerScrollOffset: int
    var playerContentHeight: int
    var message: string
    var messageTimer: real
    var messageColor: (int, int, int)

    /** ShopPanel(npc_inventory, player_bag, npc_name="Merchant", x=100, y=50, width=800, height=600) */
    constructor(npcInventory: seq<Item>, playerBag: Bag, npcName: string := "Merchant",
                x: int := 100, y: int := 50, width: int := 800, height: int := 600)
      ensures this.npcInventory == npcInventory && this.playerBag == playerBag && this.npcName == npcName
      ensures rect == Rect(x, y, width, height)
      ensures npcScrollOffset == 0 && playerScrollOffset == 0
      ensures npcContentHeight == |npcInventory| * ItemLineHeight
      ensures playerContentHeight == |playerBag.items| * ItemLineHeight
      ensures viewportHeight == height - 160
      ensures message == "" && messageTimer == 0.0 && messageColor == Green
    {
      this.npcInventory := npcInventory;
      this.playerBag := playerBag;
      this.npcName := npcName;
      rect := Rect(x, y, width, height);
      npcScrollOffset := 0;
      playerScrollOffset := 0;
      npcContentHeight := |npcInventory| * ItemLineHeight;
      playerContentHeight := |playerBag.items| * ItemLineHeight;
      viewportHeight := height - 160;
      message := "";
      messageTimer := 0.0;
      messageColor := Green;
    }

    /** update: the message times out; a wheel turn over the panel scrolls the
        half of the panel the mouse is over. */
    method Update(dt: real, mouseX: int, mouseY: int, mouseWheel: int)
      modifies this
      ensures old(messageTimer) > 0.0 ==> messageTimer == old(messageTimer) - dt
      ensures old(messageTimer) <= 0.0 ==> messageTimer == old(messageTimer)
      ensures message == (if old(messageTimer) > 0.0 && old(messageTimer) - dt <= 0.0 then "" else old(message))
      ensures var scrolls := rect.CollidePoint(mouseX, mouseY) && mouseWheel != 0;
              var left := mouseX < rect.x + rect.width / 2;
              && npcScrollOffset
                 == (if scrolls && left
                     then ScrollOffset(old(npcScrollOffset), mouseWheel * ScrollSpeed, npcContentHeight, viewportHeight)
                     else old(npcScrollOffset))
              && playerScrollOffset
                 == (if scrolls && !left
                     then ScrollOffset(old(playerScrollOffset), mouseWheel * ScrollSpeed, playerContentHeight, viewportHeight)
                     else old(playerScrollOffset))
      ensures playerContentHeight == old(playerContentHeight) && messageColor == old(messageColor)
    {
      if messageTimer > 0.0 {
        messageTimer := messageTimer - dt;
        if messageTimer <= 0.0 {
          message := "";
        }
      }
      if rect.CollidePoint(mouseX, mouseY) {
        if mouseWheel != 0 {
          var scrollAmount := mouseWheel * ScrollSpeed;
          var midX := rect.x + rect.width / 2;
          if mouseX < midX {
            npcScrollOffset := ScrollOffset(npcScrollOffset, scrollAmount, npcContentHeight, viewportHeight);
          } else {
            playerScrollOffset := ScrollOffset(playerScrollOffset, scrollAmount, playerContentHeight, viewportHeight);
          }
        }
      }
    }

    /** _buy_item: the price is paid in Coins items; the bag's money field is not used.
        An item without a price raises a KeyError in the source (`raised`) before anything
        changes. */
    method BuyItem(item: Item) returns (raised: bool)
      modifies this, playerBag
      ensures raised <==> item.price.None?
      ensures raised ==> playerBag.items == old(playerBag.items) && message == old(message)
                         && messageColor == old(messageColor) && messageTimer == old(messageTimer)
                         && playerContentHeight == old(playerContentHeight)
      ensures !raised ==> playerBag.items == BuyOutcome(old(playerBag.items), item, item.price.value).1
      ensures playerBag.money == old(playerBag.money) && playerBag.monsters == old(playerBag.monsters)
      ensures !raised && BuyOutcome(old(playerBag.items), item, item.price.value).0 ==>
                message == "Bought " + item.name + " for $" + IntToString(item.price.value) + "!"
                && messageColor == Green
                && playerContentHeight == |playerBag.items| * ItemLineHeight
      ensures !raised && !BuyOutcome(old(playerBag.items), item, item.price.value).0 ==>
                message == "Not enough money!" && messageColor == Red
                && playerContentHeight == old(playerContentHeight)
      ensures !raised ==> messageTimer == 2.0
      ensures npcScrollOffset == old(npcScrollOffset) && playerScrollOffset == old(playerScrollOffset)
    {
      if item.price.None? {
        return true;
      }
      raised := false;
      var price := item.price.value;
      var paid := playerBag.RemoveItem(CoinsName, price);
      if paid {
        playerBag.AddItem(item.name, 1, item.spritePath, price);
        message := "Bought " + item.name + " for $" + IntToString(price) + "!";
        messageColor := Green;
        messageTimer := 2.0;
        playerContentHeight := |playerBag.items| * ItemLineHeight;
      } else {
        message := "Not enough money!";
        messageColor := Red;
        messageTimer := 2.0;
      }
    }

    /** _sell_item: one of the item goes, half its price (rounded down) comes back as Coins. */
    method SellItem(item: Item)
      modifies this, playerBag
      ensures playerBag.items == SellOutcome(old(playerBag.items), item).1
      ensures playerBag.money == old(playerBag.money) && playerBag.monsters == old(playerBag.monsters)
      ensures SellOutcome(old(playerBag.items), item).0 ==>
                message == "Sold " + item.name + " for $" + IntToString(PriceOrZero(item) / 2) + "!"
                && messageColor == Green
                && playerContentHeight == |playerBag.items| * ItemLineHeight
      ensures !SellOutcome(old(playerBag.items), item).0 ==>
                message == "Item not found!" && messageColor == Red
                && playerContentHeight == old(playerContentHeight)
      ensures messageTimer == 2.0
      ensures npcScrollOffset == old(npcScrollOffset) && playerScrollOffset == old(playerScrollOffset)
    {
      var sellPrice := PriceOrZero(item) / 2;
      var sold := playerBag.RemoveItem(item.name, 1);
      if sold {
        playerBag.AddItem(CoinsName, sellPrice, CoinSprite, 1);
        message := "Sold " + item.name + " for $" + IntToString(sellPrice) + "!";
        messageColor := Green;
        messageTimer := 2.0;
        playerContentHeight := |playerBag.items| * ItemLineHeight;
      } else {
        message := "Item not found!";
        messageColor := Red;
        messageTimer := 2.0;
      }
    }
  }
}
